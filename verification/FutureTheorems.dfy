/** Ids, durability and exactly-once completion, with a crash allowed between any two steps. */
module FutureTheorems {
  import opened Wrappers
  import opened FutureSpec

  ghost predicate SameIdentity(a: Record, b: Record) {
    a.futureId == b.futureId && a.model == b.model && a.user == b.user && a.op == b.op
  }

  /** Ids are handed out 1, 2, 3, ...; request k in order of allocation holds id k + 1. */
  ghost predicate Ids(s: State) {
    && s.nextId == |s.issued| + 1
    && s.records.Keys == s.store.Keys
    && forall k :: 0 <= k < |s.issued| ==> IssuedAt(s, k)
  }

  ghost predicate IssuedAt(s: State, k: nat)
    requires k < |s.issued|
  {
    s.issued[k] in s.records && s.records[s.issued[k]].futureId == k + 1
  }

  /** How the record in memory, its stored copy and its runner stand to each other. */
  ghost predicate RecordOk(s: State, id: RequestId)
    requires id in s.records && id in s.store
  {
    var r, saved := s.records[id], s.store[id];
    && SameIdentity(r, saved)
    && 1 <= r.futureId <= |s.issued| && s.issued[r.futureId - 1] == id
    && RunnerOk(r, saved, if id in s.runners then Some(s.runners[id]) else None, id in s.departures)
  }

  ghost predicate RunnerOk(r: Record, saved: Record, runner: Option<RunnerPc>, departed: bool) {
    match runner
    case None => saved == Serialized(r) && (r.signalled <==> r.status != Pending)
    case Some(Executing) => saved == Serialized(r) && r.status == Pending && !r.signalled && !departed
    case Some(Marked) =>
      saved.status == Pending && !saved.signalled && r.status != Pending && !r.signalled && departed
    case Some(Saved) => saved == Serialized(r) && r.status != Pending && !r.signalled && departed
  }

  ghost predicate NoDuplicates(xs: seq<RequestId>) {
    forall i, j :: 0 <= i < j < |xs| ==> xs[i] != xs[j]
  }

  ghost predicate Inv(s: State) {
    && Ids(s)
    && (forall id :: id in s.records ==> RecordOk(s, id))
    && s.runners.Keys <= s.records.Keys
    && NoDuplicates(s.departures)
    && (forall id :: id in s.departures ==> id in s.records)
  }

  lemma AllocateKeeps(s: State, id: RequestId, r: Record, runners: map<RequestId, RunnerPc>, k: RequestId)
    requires k in s.records && k in s.store && RecordOk(s, k) && k != id
    requires runners == s.runners || runners == s.runners[id := Executing]
    ensures RecordOk(Allocate(s, id, r).(runners := runners), k)
  {
  }

  /** The new record gets the next id, which is one more than the ids issued. */
  lemma AllocateNew(s: State, id: RequestId, r: Record, runners: map<RequestId, RunnerPc>)
    requires id !in s.runners && id !in s.departures && r.futureId == s.nextId == |s.issued| + 1
    requires (r.status == Pending && !r.signalled && runners == s.runners[id := Executing])
             || (r.status != Pending && r.signalled && runners == s.runners)
    ensures RecordOk(Allocate(s, id, r).(runners := runners), id)
  {
  }

  lemma AllocateIssues(s: State, id: RequestId, r: Record, runners: map<RequestId, RunnerPc>)
    requires Ids(s) && id !in s.records && r.futureId == s.nextId
    ensures Ids(Allocate(s, id, r).(runners := runners))
  {
    var s' := Allocate(s, id, r).(runners := runners);
    forall k | 0 <= k < |s'.issued| ensures IssuedAt(s', k) {
      if k < |s.issued| {
        assert IssuedAt(s, k);
      }
    }
  }

  lemma InvAllocate(s: State, id: RequestId, r: Record, runners: map<RequestId, RunnerPc>)
    requires Inv(s) && id !in s.records && r.futureId == s.nextId
    requires (r.status == Pending && !r.signalled && runners == s.runners[id := Executing])
             || (r.status != Pending && r.signalled && runners == s.runners)
    ensures Inv(Allocate(s, id, r).(runners := runners))
  {
    var s' := Allocate(s, id, r).(runners := runners);
    AllocateIssues(s, id, r, runners);
    forall k | k in s'.records ensures RecordOk(s', k) {
      if k == id {
        AllocateNew(s, id, r, runners);
      } else {
        AllocateKeeps(s, id, r, runners, k);
      }
    }
  }

  lemma UpdateKeeps(s: State, s': State, k: RequestId)
    requires Untouched(s, s', k) && RecordOk(s, k) && s'.issued == s.issued
    ensures RecordOk(s', k)
  {
  }

  lemma UpdateIssues(s: State, s': State, id: RequestId)
    requires Ids(s) && id in s.records
    requires s'.nextId == s.nextId && s'.issued == s.issued
    requires s'.records.Keys == s.records.Keys && s'.store.Keys == s.store.Keys
    requires forall k :: k in s.records && k != id ==> Untouched(s, s', k)
    requires SameIdentity(s'.records[id], s.records[id])
    ensures Ids(s')
  {
    forall k | 0 <= k < |s'.issued| ensures IssuedAt(s', k) {
      assert IssuedAt(s, k);
      if s'.issued[k] != id {
        assert Untouched(s, s', s'.issued[k]);
      }
    }
  }

  /** One record changes in memory or in the store, without changing who it is. */
  lemma InvUpdate(s: State, s': State, id: RequestId)
    requires Inv(s) && id in s.records
    requires s'.nextId == s.nextId && s'.issued == s.issued
    requires s'.records.Keys == s.records.Keys && s'.store.Keys == s.store.Keys
    requires s'.runners.Keys <= s.records.Keys
    requires forall k :: k in s.records && k != id ==> Untouched(s, s', k)
    requires SameIdentity(s'.records[id], s.records[id]) && RecordOk(s', id)
    requires NoDuplicates(s'.departures) && forall k :: k in s'.departures ==> k in s.records
    ensures Inv(s')
  {
    UpdateIssues(s, s', id);
    forall k | k in s'.records ensures RecordOk(s', k) {
      if k != id {
        UpdateKeeps(s, s', k);
      }
    }
  }

  ghost predicate Untouched(s: State, s': State, k: RequestId) {
    && k in s.records && k in s'.records && s'.records[k] == s.records[k]
    && k in s.store && k in s'.store && s'.store[k] == s.store[k]
    && (k in s'.runners <==> k in s.runners)
    && (k in s.runners ==> s'.runners[k] == s.runners[k])
    && (k in s'.departures <==> k in s.departures)
  }

  lemma NextIsStable(s: State)
    requires Inv(s)
    ensures NextAfter(s.store) == s.nextId
  {
    var n := NextAfter(s.store);
    forall id | id in s.store ensures s.store[id].futureId < s.nextId {
      assert RecordOk(s, id);
    }
    if |s.issued| > 0 {
      var k := s.issued[|s.issued| - 1];
      assert IssuedAt(s, |s.issued| - 1) && RecordOk(s, k);
      assert s.store[k].futureId == |s.issued|;
    }
  }

  lemma RestartRecord(s: State, id: RequestId)
    requires id in s.records && id in s.store && RecordOk(s, id)
    ensures id in Restarted(s).records && RecordOk(Restarted(s), id)
    ensures Restarted(s).records[id].futureId == s.records[id].futureId
  {
  }

  /** The id counter is recomputed from the stored records, and comes out the same. */
  lemma InvRestart(s: State)
    requires Inv(s)
    ensures Inv(Restarted(s)) && Restarted(s).nextId == s.nextId
  {
    NextIsStable(s);
    var s' := Restarted(s);
    assert s'.records.Keys == s.records.Keys;
    forall id | id in s'.records ensures RecordOk(s', id) {
      RestartRecord(s, id);
    }
    forall k | 0 <= k < |s'.issued| ensures IssuedAt(s', k) {
      assert IssuedAt(s, k);
      RestartRecord(s, s.issued[k]);
    }
  }

  lemma RunnerRecord(s: State, e: Event, id: RequestId)
    requires Enabled(s, e) && id in s.records && id in s.store && RecordOk(s, id)
    requires (e.Complete? || e.Persist? || e.Signal?) && e.id == id
    ensures var s' := Step(s, e);
            && id in s'.records && id in s'.store && RecordOk(s', id)
            && SameIdentity(s'.records[id], s.records[id])
            && (e.Complete? ==> id !in s.departures)
    ensures forall k :: k in s.records && k in s.store && k != id ==> Untouched(s, Step(s, e), k)
  {
  }

  lemma InvRunner(s: State, e: Event, id: RequestId)
    requires Inv(s) && Enabled(s, e)
    requires (e.Complete? || e.Persist? || e.Signal?) && e.id == id
    ensures Inv(Step(s, e))
  {
    var s' := Step(s, e);
    RunnerRecord(s, e, id);
    if e.Complete? {
      DepartOnce(s.departures, id);
    }
    assert s'.records.Keys == s.records.Keys && s'.store.Keys == s.store.Keys;
    InvUpdate(s, s', id);
  }

  lemma DepartOnce(departures: seq<RequestId>, id: RequestId)
    requires NoDuplicates(departures) && id !in departures
    ensures NoDuplicates(departures + [id])
    ensures forall k :: k in departures + [id] <==> k in departures || k == id
  {
  }

  lemma InvStep(s: State, e: Event)
    requires Inv(s) && Enabled(s, e)
    ensures Inv(Step(s, e))
  {
    match e
    case Enqueue(id, user, model, op) =>
      InvAllocate(s, id, NewRecord(s.nextId, user, model, op), s.runners[id := Executing]);
    case CreateReady(id, user, model, payload) =>
      InvAllocate(s, id, Record(s.nextId, model, user, None, Ready, Some(payload), None, true), s.runners);
    case Complete(id, _) => InvRunner(s, e, id);
    case Persist(id) => InvRunner(s, e, id);
    case Signal(id) => InvRunner(s, e, id);
    case Restart => InvRestart(s);
  }

  lemma {:induction false} InvRun(s: State, es: seq<Event>)
    requires Inv(s) && IsRun(s, es)
    ensures Inv(After(s, es))
    decreases |es|
  {
    if es != [] {
      InvStep(s, es[0]);
      InvRun(Step(s, es[0]), es[1..]);
    }
  }

  /**
   * Across enqueues, ready futures, completions and restarts: ids are handed out in
   * order without gaps, so live ids are pairwise distinct, the next id exceeds them all,
   * and the current id is the largest ever given.
   */
  lemma FutureIdsNeverReused(es: seq<Event>)
    requires IsRun(EMPTY, es)
    ensures var s := After(EMPTY, es);
            && CurrentFutureId(s) == |s.issued| == s.nextId - 1
            && (forall k :: 0 <= k < |s.issued| ==> IssuedAt(s, k))
            && (forall id :: id in s.records ==> 1 <= s.records[id].futureId < s.nextId)
            && (forall a, b :: a in s.records && b in s.records && a != b ==>
                  s.records[a].futureId != s.records[b].futureId)
  {
    InvRun(EMPTY, es);
    var s := After(EMPTY, es);
    forall id | id in s.records
      ensures 1 <= s.records[id].futureId < s.nextId && s.issued[s.records[id].futureId - 1] == id
    {
      assert RecordOk(s, id);
    }
  }

  /** A waiter is woken only after the stored copy of the record is the completed one. */
  lemma WakeAfterDurable(es: seq<Event>, id: RequestId)
    requires IsRun(EMPTY, es)
    requires id in After(EMPTY, es).records && After(EMPTY, es).records[id].signalled
    ensures var s := After(EMPTY, es);
            && id in s.store && s.store[id].status != Pending && s.store[id] == Serialized(s.records[id])
            && Restarted(s).records[id] == s.records[id]
  {
    InvRun(EMPTY, es);
    assert RecordOk(After(EMPTY, es), id);
  }

  /** Every future leaves `pending` at most once, and what it left with stays until a restart. */
  lemma CompleteOnce(es: seq<Event>)
    requires IsRun(EMPTY, es)
    ensures NoDuplicates(After(EMPTY, es).departures)
    ensures var s := After(EMPTY, es);
            forall id :: id in s.records && s.records[id].status != Pending ==>
              id !in s.runners || s.runners[id] != Executing
  {
    InvRun(EMPTY, es);
    var s := After(EMPTY, es);
    forall id | id in s.records && s.records[id].status != Pending
      ensures id !in s.runners || s.runners[id] != Executing
    {
      assert RecordOk(s, id);
    }
  }

  ghost predicate SameOutcome(a: Record, b: Record) {
    a.status == b.status && a.payload == b.payload && a.error == b.error
  }

  lemma OutcomeKept(s: State, e: Event, id: RequestId)
    requires Inv(s) && Enabled(s, e) && !e.Restart? && id in s.records && s.records[id].status != Pending
    ensures var s' := Step(s, e); id in s'.records && SameOutcome(s'.records[id], s.records[id])
  {
    assert RecordOk(s, id);
  }

  ghost predicate NoRestart(es: seq<Event>) {
    forall i :: 0 <= i < |es| ==> !es[i].Restart?
  }

  lemma OutcomeNext(s: State, e: Event, id: RequestId)
    requires Inv(s) && Enabled(s, e) && !e.Restart? && id in s.records && s.records[id].status != Pending
    ensures var s' := Step(s, e);
            Inv(s') && id in s'.records && s'.records[id].status != Pending && SameOutcome(s'.records[id], s.records[id])
  {
    InvStep(s, e);
    OutcomeKept(s, e, id);
  }

  lemma {:induction false} OutcomeIsFinal(s: State, es: seq<Event>, id: RequestId)
    requires Inv(s) && IsRun(s, es) && id in s.records && s.records[id].status != Pending
    requires NoRestart(es)
    ensures id in After(s, es).records && SameOutcome(After(s, es).records[id], s.records[id])
    decreases |es|
  {
    if es != [] {
      assert !es[0].Restart? && NoRestart(es[1..]);
      OutcomeNext(s, es[0], id);
      OutcomeIsFinal(Step(s, es[0]), es[1..], id);
    }
  }

  /**
   * What a caller can read of a completed record is durable exactly when the runner is
   * not between setting the status and saving it.
   */
  lemma AnswerDurableExactlyWhenSaved(es: seq<Event>, id: RequestId)
    requires IsRun(EMPTY, es)
    requires id in After(EMPTY, es).records && After(EMPTY, es).records[id].status != Pending
    ensures var s := After(EMPTY, es);
            id in s.store &&
            (SameOutcome(Restarted(s).records[id], s.records[id]) <==> !(id in s.runners && s.runners[id] == Marked))
  {
    InvRun(EMPTY, es);
    assert RecordOk(After(EMPTY, es), id);
  }

  /** A caller that asks late reads the payload in that window, and a crash takes it back. */
  lemma LateCallerSeesUnsavedResult(user: UserId, payload: int)
    ensures var es := [Enqueue(0, user, None, Some(Sample)), Complete(0, Payload(payload))];
            && IsRun(EMPTY, es)
            && var s := After(EMPTY, es);
               && 0 in s.records && AnswerOf(s.records[0]) == Result(Some(payload))
               && 0 in Restarted(s).records && Restarted(s).records[0].status == Pending
  {
    var es := [Enqueue(0, user, None, Some(Sample)), Complete(0, Payload(payload))];
    assert es[1..] == [es[1]] && es[1..][1..] == [];
    var s1 := Step(EMPTY, es[0]);
    var s2 := Step(s1, es[1]);
    assert IsRun(s2, []) && IsRun(s1, es[1..]) && After(s1, es[1..]) == s2;
  }
}
