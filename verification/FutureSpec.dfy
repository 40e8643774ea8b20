/**
 * The future store as a transition system: id allocation, the runner of each future, the
 * stored copy of every record, and restarts at any point.  Persistence is on, nothing
 * expires, and only owners retrieve.
 */
module FutureSpec {
  import opened Wrappers

  type RequestId = nat
  type ModelId = nat
  type UserId = nat

  datatype OpType =
    | CreateModel | Forward | ForwardBackward | OptimStep
    | SaveWeights | SaveWeightsForSampler | LoadWeights | Sample

  datatype Status = Pending | Ready | Failed

  datatype Reason = SampleLost | RestartLost | NoCheckpoint(model: ModelId) | RestoredFrom(futureId: nat)

  datatype Error = Cancelled(id: RequestId, reason: Reason) | Raised(message: int)

  datatype Record = Record(
    futureId: nat,
    model: Option<ModelId>,
    user: UserId,
    op: Option<OpType>,
    status: Status,
    payload: Option<int>,
    error: Option<Error>,
    signalled: bool)

  /** Executing the operation; status set in memory; status saved. */
  datatype RunnerPc = Executing | Marked | Saved

  datatype Outcome = Payload(value: int) | Failure(error: Error)

  /** Logs: requests in the order their ids were issued, and futures that left `pending`. */
  datatype State = State(
    records: map<RequestId, Record>,
    nextId: nat,
    store: map<RequestId, Record>,
    runners: map<RequestId, RunnerPc>,
    issued: seq<RequestId>,
    departures: seq<RequestId>)

  datatype Event =
    | Enqueue(id: RequestId, user: UserId, model: Option<ModelId>, op: Option<OpType>)
    | CreateReady(id: RequestId, user: UserId, model: Option<ModelId>, payload: int)
    | Complete(id: RequestId, outcome: Outcome)
    | Persist(id: RequestId)
    | Signal(id: RequestId)
    | Restart

  const EMPTY := State(map[], 1, map[], map[], [], [])

  /** The event is a runtime field and is not saved; loading sets it for completed records. */
  function Serialized(r: Record): Record {
    r.(signalled := false)
  }

  function Loaded(r: Record): Record {
    r.(signalled := r.status != Pending)
  }

  function CurrentFutureId(s: State): nat {
    if s.nextId > 1 then s.nextId - 1 else 0
  }

  function NewRecord(futureId: nat, user: UserId, model: Option<ModelId>, op: Option<OpType>): Record {
    Record(futureId, model, user, op, Pending, None, None, false)
  }

  /** `n` is one more than the largest id in use, or 1. */
  ghost predicate IsNext(n: nat, records: map<RequestId, Record>) {
    && n >= 1
    && (forall id :: id in records ==> records[id].futureId < n)
    && (n > 1 ==> exists id :: id in records && records[id].futureId == n - 1)
  }

  lemma {:induction false} NextExists(records: map<RequestId, Record>) returns (n: nat)
    ensures IsNext(n, records)
    decreases |records|
  {
    if records == map[] {
      n := 1;
    } else {
      var id :| id in records;
      var rest := records - {id};
      assert rest.Keys == records.Keys - {id};
      var m := NextExists(rest);
      n := if records[id].futureId >= m then records[id].futureId + 1 else m;
      forall k | k in records ensures records[k].futureId < n {
        if k != id {
          assert k in rest;
        }
      }
      if n == m && m > 1 {
        var k :| k in rest && rest[k].futureId == m - 1;
        assert k in records && records[k].futureId == n - 1;
      } else {
        assert id in records;
      }
    }
  }

  ghost function NextAfter(records: map<RequestId, Record>): (n: nat)
    ensures IsNext(n, records)
  {
    assert exists n: nat :: IsNext(n, records) by {
      var n := NextExists(records);
    }
    var n: nat :| IsNext(n, records);
    n
  }

  ghost function Restarted(s: State): State {
    s.(records := map id | id in s.store :: Loaded(s.store[id]),
       nextId := NextAfter(s.store),
       runners := map[])
  }

  function Completed(r: Record, outcome: Outcome): Record {
    match outcome
    case Payload(value) => r.(payload := Some(value), status := Ready, error := None)
    case Failure(error) => r.(status := Failed, error := Some(error))
  }

  function Allocate(s: State, id: RequestId, r: Record): State {
    s.(records := s.records[id := r], store := s.store[id := Serialized(r)],
       nextId := s.nextId + 1, issued := s.issued + [id])
  }

  ghost predicate Enabled(s: State, e: Event) {
    match e
    case Enqueue(id, _, _, _) => id !in s.records
    case CreateReady(id, _, _, _) => id !in s.records
    case Complete(id, _) => id in s.records && id in s.runners && s.runners[id] == Executing
    case Persist(id) => id in s.records && id in s.runners && s.runners[id] == Marked
    case Signal(id) => id in s.records && id in s.runners && s.runners[id] == Saved
    case Restart => true
  }

  ghost function Step(s: State, e: Event): State
    requires Enabled(s, e)
  {
    match e
    case Enqueue(id, user, model, op) =>
      Allocate(s, id, NewRecord(s.nextId, user, model, op)).(runners := s.runners[id := Executing])
    case CreateReady(id, user, model, payload) =>
      Allocate(s, id, Record(s.nextId, model, user, None, Ready, Some(payload), None, true))
    case Complete(id, outcome) =>
      s.(records := s.records[id := Completed(s.records[id], outcome)],
         runners := s.runners[id := Marked], departures := s.departures + [id])
    case Persist(id) =>
      s.(store := s.store[id := Serialized(s.records[id])], runners := s.runners[id := Saved])
    case Signal(id) =>
      s.(records := s.records[id := s.records[id].(signalled := true)], runners := s.runners - {id})
    case Restart => Restarted(s)
  }

  ghost predicate IsRun(s: State, es: seq<Event>)
    decreases |es|
  {
    es == [] || (Enabled(s, es[0]) && IsRun(Step(s, es[0]), es[1..]))
  }

  ghost function After(s: State, es: seq<Event>): State
    requires IsRun(s, es)
    decreases |es|
  {
    if es == [] then s else After(Step(s, es[0]), es[1..])
  }

  // What a retrieving caller gets

  datatype Answer = NotFound | Mismatch | TryAgain | Raise(error: Error) | Result(payload: Option<int>)

  /** The answer once the wait, if any, is over. */
  function AnswerOf(r: Record): Answer {
    if r.status == Failed && r.error.Some? then Raise(r.error.value) else Result(r.payload)
  }

  // Recovery marks

  function FailedBy(r: Record, id: RequestId, reason: Reason): Record {
    r.(status := Failed, error := Some(Cancelled(id, reason)), signalled := true)
  }

  /** Fails, signals and saves exactly the records in `targets`. */
  ghost function MarkFailed(s: State, targets: set<RequestId>, reason: Reason): State {
    s.(records := map id | id in s.records ::
                    if id in targets then FailedBy(s.records[id], id, reason) else s.records[id],
       store := map id | id in s.store.Keys + (targets * s.records.Keys) ::
                  if id in targets && id in s.records then Serialized(FailedBy(s.records[id], id, reason))
                  else s.store[id])
  }

  ghost function AfterCheckpoint(s: State, model: Option<ModelId>, checkpoint: Option<nat>): set<RequestId> {
    set id | id in s.records && s.records[id].model == model
             && (checkpoint.None? || s.records[id].futureId > checkpoint.value)
  }

  ghost function PendingOnes(s: State): set<RequestId> {
    set id | id in s.records && s.records[id].status == Pending
  }

  ghost function PendingSamples(s: State): set<RequestId> {
    set id | id in s.records && s.records[id].status == Pending && s.records[id].op == Some(Sample)
  }
}
