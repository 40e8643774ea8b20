/**
 * The sequence executor: a priority queue of pending calls and a worker that is started
 * on demand.  Sequence ids are taken to be distinct among pending calls.
 */
module Executor {
  import opened Wrappers
  import opened Ordering

  /** A worker that has not looked at the queue yet, or one running a call. */
  datatype Worker = Fresh | Busy(id: int, ticket: nat)

  datatype Outcome = TimedOut | Returned | Raised

  /**
   * Pending sequence ids with the ticket of their submission, the `_processing` flag, the
   * live workers, the futures already done, and logs of submissions, starts and finishes.
   */
  datatype State = State(
    pending: map<int, nat>,
    processing: bool,
    workers: seq<Worker>,
    futures: map<nat, Outcome>,
    submitted: seq<int>,
    started: seq<nat>,
    finished: seq<nat>)

  datatype Event = Submit(id: int) | Timeout(ticket: nat) | Resume(worker: nat, ok: bool)

  ghost const EMPTY := State(map[], false, [], map[], [], [], [])

  ghost predicate Enabled(s: State, e: Event) {
    match e
    case Submit(id) => id !in s.pending
    case Timeout(ticket) => ticket < |s.submitted| && ticket !in s.futures
    case Resume(worker, _) => worker < |s.workers|
  }

  ghost function Push(s: State, id: int): State {
    var s1 := s.(pending := s.pending[id := |s.submitted|], submitted := s.submitted + [id]);
    if s.processing then s1 else s1.(processing := true, workers := s.workers + [Fresh])
  }

  /** A running call ends; its future is completed unless the caller gave up. */
  ghost function Settle(s: State, worker: nat, ok: bool): State
    requires worker < |s.workers|
  {
    match s.workers[worker]
    case Fresh => s
    case Busy(_, ticket) =>
      s.(finished := s.finished + [ticket],
         futures := if ticket in s.futures then s.futures
                    else s.futures[ticket := if ok then Returned else Raised])
  }

  /** The worker takes the least pending id, or lowers the flag and stops. */
  ghost function Poll(s: State, worker: nat): State
    requires worker < |s.workers|
  {
    if s.pending == map[] then
      s.(processing := false, workers := s.workers[..worker] + s.workers[worker + 1..])
    else
      var id := Least(s.pending.Keys);
      s.(pending := s.pending - {id}, started := s.started + [s.pending[id]],
         workers := s.workers[worker := Busy(id, s.pending[id])])
  }

  ghost function Step(s: State, e: Event): State
    requires Enabled(s, e)
  {
    match e
    case Submit(id) => Push(s, id)
    case Timeout(ticket) => s.(futures := s.futures[ticket := TimedOut])
    case Resume(worker, ok) => Poll(Settle(s, worker, ok), worker)
  }

  ghost predicate IsRun(s: State, es: seq<Event>)
    decreases |es|
  {
    es == [] || (Enabled(s, es[0]) && IsRun(Step(s, es[0]), es[1..]))
  }

  ghost function After(s: State, es: seq<Event>): State
    requires IsRun(s, es)
    decreases |es|
  {
    if es == [] then s else After(Step(s, es[0]), es[1..])
  }

  ghost predicate NoDuplicates(xs: seq<nat>) {
    forall i, j :: 0 <= i < j < |xs| ==> xs[i] != xs[j]
  }

  ghost function Running(s: State): seq<nat> {
    if |s.workers| == 1 && s.workers[0].Busy? then [s.workers[0].ticket] else []
  }

  ghost predicate Inv(s: State) {
    // One worker at most, flagged, and never absent while work is pending.
    && |s.workers| <= 1
    && (s.processing <==> |s.workers| == 1)
    && (s.pending != map[] ==> s.processing)
    // Started calls are the finished ones and the one running, each once.
    && s.started == s.finished + Running(s)
    && NoDuplicates(s.started)
    && (forall t :: t in s.started ==> t < |s.submitted|)
    // Every ticket is pending under its own id, or was started.
    && (forall id :: id in s.pending ==>
          && s.pending[id] < |s.submitted| && s.submitted[s.pending[id]] == id
          && s.pending[id] !in s.started)
    && (forall t: nat :: t < |s.submitted| ==> t in s.started || IsPending(s, t))
  }

  ghost predicate IsPending(s: State, t: nat)
    requires t < |s.submitted|
  {
    s.submitted[t] in s.pending && s.pending[s.submitted[t]] == t
  }

  lemma SettleStep(s: State, worker: nat, ok: bool)
    requires Inv(s) && worker < |s.workers|
    ensures var s' := Settle(s, worker, ok);
            && s'.finished == s.started == s'.started && s'.pending == s.pending
            && s'.workers == s.workers && s'.submitted == s.submitted && s'.processing == s.processing
  {
  }

  lemma InvPush(s: State, id: int)
    requires Inv(s) && Enabled(s, Submit(id))
    ensures Inv(Push(s, id))
  {
    var s' := Push(s, id);
    assert Running(s') == Running(s);
    forall t: nat | t < |s'.submitted| ensures t in s'.started || IsPending(s', t) {
      if t < |s.submitted| {
        assert t in s.started || IsPending(s, t);
      }
    }
  }

  lemma InvPoll(s: State, worker: nat, ok: bool)
    requires Inv(s) && worker < |s.workers|
    ensures Inv(Poll(Settle(s, worker, ok), worker))
  {
    SettleStep(s, worker, ok);
    var s1 := Settle(s, worker, ok);
    var s' := Poll(s1, worker);
    forall t: nat | t < |s'.submitted| ensures t in s'.started || IsPending(s', t) {
      assert t in s.started || IsPending(s, t);
      if t in s.started {
        assert t in s'.started;
      } else if s.pending != map[] && s.submitted[t] == Least(s.pending.Keys) {
        assert s'.started[|s.started|] == t;
      }
    }
  }

  lemma InvStep(s: State, e: Event)
    requires Inv(s) && Enabled(s, e)
    ensures Inv(Step(s, e))
  {
    match e
    case Submit(id) => InvPush(s, id);
    case Timeout(ticket) =>
      assert forall t: nat :: t < |s.submitted| ==> (IsPending(s, t) <==> IsPending(Step(s, e), t));
    case Resume(worker, ok) => InvPoll(s, worker, ok);
  }

  lemma {:induction false} InvRun(s: State, es: seq<Event>)
    requires Inv(s) && IsRun(s, es)
    ensures Inv(After(s, es))
    decreases |es|
  {
    if es != [] {
      InvStep(s, es[0]);
      InvRun(Step(s, es[0]), es[1..]);
    }
  }

  /**
   * No wake-up is lost and no call is dropped or repeated: after any run, pending work
   * has exactly one live worker, no ticket was started twice, and every ticket was
   * started or is still pending, whether or not its caller timed out.
   */
  lemma NoLostWakeup(es: seq<Event>)
    requires IsRun(EMPTY, es)
    ensures var s := After(EMPTY, es);
            && (s.pending != map[] ==> |s.workers| == 1) && |s.workers| <= 1
            && NoDuplicates(s.started) && NoDuplicates(s.finished)
            && (forall t: nat :: t < |s.submitted| ==> t in s.started || IsPending(s, t))
            && (s.workers == [] ==> forall t: nat :: t < |s.submitted| ==> t in s.finished)
  {
    InvRun(EMPTY, es);
    var s := After(EMPTY, es);
    assert forall i :: 0 <= i < |s.finished| ==> s.started[i] == s.finished[i];
    if s.workers == [] {
      assert s.started == s.finished;
      forall t: nat | t < |s.submitted| ensures t in s.finished {
        assert t in s.started || IsPending(s, t);
      }
    }
  }

  /** Every finished call has an outcome; a caller's outcome, once there, is never replaced. */
  ghost predicate Settled(s: State) {
    forall t :: t in s.finished ==> t in s.futures
  }

  lemma {:induction false} OutcomesKept(s: State, es: seq<Event>)
    requires Settled(s) && IsRun(s, es)
    ensures Settled(After(s, es))
    ensures forall t :: t in s.futures ==> t in After(s, es).futures && After(s, es).futures[t] == s.futures[t]
    decreases |es|
  {
    if es != [] {
      var s1 := Step(s, es[0]);
      assert forall t :: t in s.futures ==> t in s1.futures && s1.futures[t] == s.futures[t];
      OutcomesKept(s1, es[1..]);
    }
  }

  /** Each caller gets one outcome: a call that has finished settled it, unless the caller timed out first. */
  lemma OneOutcomeEach(es: seq<Event>, more: seq<Event>, t: nat)
    requires IsRun(EMPTY, es) && IsRun(After(EMPTY, es), more)
    ensures var s, later := After(EMPTY, es), After(After(EMPTY, es), more);
            && (t in s.finished ==> t in s.futures)
            && (t in s.futures ==> t in later.futures && later.futures[t] == s.futures[t])
  {
    OutcomesKept(EMPTY, es);
    OutcomesKept(After(EMPTY, es), more);
  }

  /**
   * What an event decides about ticket t: its caller gives up while it is not finished, or
   * a resumption finishes it with success or failure.
   */
  ghost function Decides(s: State, e: Event, t: nat): Option<Outcome>
    requires Enabled(s, e)
  {
    match e
    case Submit(_) => None
    case Timeout(ticket) => if ticket == t && t !in s.finished then Some(TimedOut) else None
    case Resume(_, ok) =>
      if t in Step(s, e).finished && t !in s.finished then Some(if ok then Returned else Raised) else None
  }

  /** What the first event to decide about ticket t decides. */
  ghost function Verdict(s: State, es: seq<Event>, t: nat): Option<Outcome>
    requires IsRun(s, es)
    decreases |es|
  {
    if es == [] then None
    else if Decides(s, es[0], t).Some? then Decides(s, es[0], t)
    else Verdict(Step(s, es[0]), es[1..], t)
  }

  lemma DecidedStep(s: State, e: Event, t: nat)
    requires Inv(s) && Settled(s) && Enabled(s, e)
    ensures t in Step(s, e).futures <==> t in s.futures || Decides(s, e, t).Some?
    ensures t in s.futures ==> Step(s, e).futures[t] == s.futures[t]
    ensures t !in s.futures && Decides(s, e, t).Some? ==> Step(s, e).futures[t] == Decides(s, e, t).value
  {
    if e.Resume? && s.workers[e.worker].Busy? {
      var ticket := s.workers[e.worker].ticket;
      assert Settle(s, e.worker, e.ok).finished[|s.finished|] == ticket;
      assert s.started[|s.finished|] == ticket;
    }
  }

  lemma {:induction false} DecidedRun(s: State, es: seq<Event>, t: nat)
    requires Inv(s) && Settled(s) && IsRun(s, es)
    ensures t in s.futures ==> t in After(s, es).futures && After(s, es).futures[t] == s.futures[t]
    ensures t !in s.futures ==> Verdict(s, es, t) == Result(After(s, es), t)
    decreases |es|
  {
    if es != [] {
      InvStep(s, es[0]);
      DecidedStep(s, es[0], t);
      OutcomesKept(s, [es[0]]);
      assert Settled(Step(s, es[0]));
      DecidedRun(Step(s, es[0]), es[1..], t);
    }
  }

  ghost function Result(s: State, t: nat): Option<Outcome> {
    if t in s.futures then Some(s.futures[t]) else None
  }

  /**
   * Which outcome a caller gets, over every run: it timed out exactly when its timeout came
   * before its call was finished; otherwise it is told a return exactly when the resumption
   * that finished the call reported success, and a raise when it reported failure.
   */
  lemma OutcomeIsVerdict(es: seq<Event>, t: nat)
    requires IsRun(EMPTY, es)
    ensures Result(After(EMPTY, es), t) == Verdict(EMPTY, es, t)
  {
    DecidedRun(EMPTY, es, t);
  }

  /** How far two calls have come: both wait; the first runs or ran; the first is over. */
  ghost predicate InOrder(s: State, a: int, ta: nat, b: int, tb: nat) {
    || (a in s.pending && s.pending[a] == ta && b in s.pending && s.pending[b] == tb)
    || (ta in s.started && b in s.pending && s.pending[b] == tb)
    || (ta in s.finished && tb in s.started)
  }

  lemma InOrderStep(s: State, e: Event, a: int, ta: nat, b: int, tb: nat)
    requires Inv(s) && Enabled(s, e) && a < b && InOrder(s, a, ta, b, tb)
    ensures InOrder(Step(s, e), a, ta, b, tb)
  {
    if e.Resume? {
      SettleStep(s, e.worker, e.ok);
      var s1 := Settle(s, e.worker, e.ok);
      if s1.pending != map[] {
        var s' := Step(s, e);
        assert s'.started[|s.started|] == s.pending[Least(s.pending.Keys)];
        assert forall t :: t in s.started ==> t in s'.started;
      }
    }
  }

  lemma {:induction false} InOrderRun(s: State, es: seq<Event>, a: int, ta: nat, b: int, tb: nat)
    requires Inv(s) && IsRun(s, es) && a < b && InOrder(s, a, ta, b, tb)
    ensures InOrder(After(s, es), a, ta, b, tb) && Inv(After(s, es))
    decreases |es|
  {
    if es != [] {
      InvStep(s, es[0]);
      InOrderStep(s, es[0], a, ta, b, tb);
      InOrderRun(Step(s, es[0]), es[1..], a, ta, b, tb);
    }
  }

  /** Of two calls pending together, the one with the smaller id is over before the other starts. */
  lemma SmallerIdCompletesFirst(before: seq<Event>, es: seq<Event>, a: int, b: int)
    requires IsRun(EMPTY, before) && IsRun(After(EMPTY, before), es) && a < b
    requires var s := After(EMPTY, before); a in s.pending && b in s.pending
    ensures var s := After(EMPTY, before);
            var s' := After(s, es);
            s.pending[b] in s'.started ==> s.pending[a] in s'.finished
  {
    InvRun(EMPTY, before);
    var s := After(EMPTY, before);
    InOrderRun(s, es, a, s.pending[a], b, s.pending[b]);
    var s' := After(s, es);
    if s.pending[b] in s'.started && b in s'.pending && s'.pending[b] == s.pending[b] {
      assert false;
    }
  }

  ghost function Tickets(ids: seq<int>, pending: map<int, nat>): (tickets: seq<nat>)
    requires forall i :: 0 <= i < |ids| ==> ids[i] in pending
  {
    seq(|ids|, i requires 0 <= i < |ids| => pending[ids[i]])
  }

  /** The tickets of the pending calls, in the order of their ids. */
  ghost function Backlog(pending: map<int, nat>): seq<nat> {
    AscendingListing(pending.Keys);
    Tickets(Ascending(pending.Keys), pending)
  }

  lemma TicketsHead(id: int, ids: seq<int>, pending: map<int, nat>)
    requires id in pending && forall i :: 0 <= i < |ids| ==> ids[i] in pending - {id}
    ensures Tickets([id] + ids, pending) == [pending[id]] + Tickets(ids, pending - {id})
  {
  }

  lemma BacklogHead(pending: map<int, nat>)
    requires pending != map[]
    ensures var id := Least(pending.Keys);
            Backlog(pending) == [pending[id]] + Backlog(pending - {id})
  {
    var id := Least(pending.Keys);
    var rest := pending - {id};
    assert rest.Keys == pending.Keys - {id};
    AscendingListing(rest.Keys);
    assert Ascending(pending.Keys) == [id] + Ascending(rest.Keys);
    TicketsHead(id, Ascending(rest.Keys), pending);
  }

  ghost predicate NoSubmissions(es: seq<Event>) {
    forall i :: 0 <= i < |es| ==> !es[i].Submit?
  }

  /**
   * With no further submissions, what runs next is the backlog in ascending id order:
   * every state on the way has started a prefix of it and keeps the rest pending.
   */
  lemma {:induction false} BacklogRunsAscending(s: State, es: seq<Event>)
    requires Inv(s) && IsRun(s, es) && NoSubmissions(es)
    ensures After(s, es).started + Backlog(After(s, es).pending) == s.started + Backlog(s.pending)
    decreases |es|
  {
    if es != [] {
      var s1 := Step(s, es[0]);
      assert !es[0].Submit?;
      InvStep(s, es[0]);
      if es[0].Resume? {
        SettleStep(s, es[0].worker, es[0].ok);
        if s.pending != map[] {
          BacklogHead(s.pending);
          assert s.started + Backlog(s.pending) == (s.started + [Backlog(s.pending)[0]]) + Backlog(s1.pending);
        }
      }
      assert NoSubmissions(es[1..]);
      BacklogRunsAscending(s1, es[1..]);
    }
  }

  /** Each resumption of the worker uses up a pending call or the worker itself. */
  lemma ResumeShrinks(s: State, worker: nat, ok: bool)
    requires Inv(s) && worker < |s.workers|
    ensures var s' := Step(s, Resume(worker, ok));
            |s'.pending| + |s'.workers| == |s.pending| + |s.workers| - 1
  {
    SettleStep(s, worker, ok);
    if s.pending != map[] {
      var id := Least(s.pending.Keys);
      assert (s.pending - {id}).Keys == s.pending.Keys - {id};
    }
  }

  ghost function Resumptions(es: seq<Event>): nat {
    if es == [] then 0 else Resumptions(es[1..]) + if es[0].Resume? then 1 else 0
  }

  /**
   * With no further submissions, the worker is resumed exactly once for each call taken,
   * and once more to stop: after that many resumptions nothing is pending and no worker lives.
   */
  lemma {:induction false} BacklogDrains(s: State, es: seq<Event>)
    requires Inv(s) && IsRun(s, es) && NoSubmissions(es)
    ensures var s' := After(s, es);
            && Resumptions(es) + |s'.pending| + |s'.workers| == |s.pending| + |s.workers|
            && (Resumptions(es) == |s.pending| + |s.workers| ==> s'.pending == map[] && s'.workers == [])
    decreases |es|
  {
    if es != [] {
      var s1 := Step(s, es[0]);
      assert !es[0].Submit?;
      InvStep(s, es[0]);
      if es[0].Resume? {
        ResumeShrinks(s, es[0].worker, es[0].ok);
      }
      assert NoSubmissions(es[1..]);
      BacklogDrains(s1, es[1..]);
    }
  }

  class SequenceExecutor {
    var pendingHeap: map<int, nat>
    var processing: bool
    var workers: seq<Worker>
    var futures: map<nat, Outcome>
    var tickets: nat
    ghost var submitted: seq<int>
    ghost var started: seq<nat>
    ghost var finished: seq<nat>

    ghost function Abs(): State
      reads this
    {
      State(pendingHeap, processing, workers, futures, submitted, started, finished)
    }

    ghost predicate Valid()
      reads this
    {
      tickets == |submitted| && Inv(Abs())
    }

    constructor ()
      ensures Valid() && Abs() == EMPTY
    {
      pendingHeap, processing, workers, futures, tickets := map[], false, [], map[], 0;
      submitted, started, finished := [], [], [];
    }

    /** Push the call and start a worker unless one is running. */
    method SubmitCall(id: int) returns (ticket: nat)
      requires Valid() && Enabled(Abs(), Submit(id))
      modifies this
      ensures Valid() && Abs() == Step(old(Abs()), Submit(id)) && ticket == old(|submitted|)
    {
      InvStep(Abs(), Submit(id));
      ticket := tickets;
      tickets := tickets + 1;
      pendingHeap := pendingHeap[id := ticket];
      submitted := submitted + [id];
      if !processing {
        processing := true;
        workers := workers + [Fresh];
      }
    }

    /** The caller stops waiting; the call stays queued. */
    method GiveUp(ticket: nat)
      requires Valid() && Enabled(Abs(), Timeout(ticket))
      modifies this
      ensures Valid() && Abs() == Step(old(Abs()), Timeout(ticket))
    {
      InvStep(Abs(), Timeout(ticket));
      futures := futures[ticket := TimedOut];
    }

    /** A worker's call came back, or the worker just started: settle, then take the next call. */
    method ProcessTasks(worker: nat, ok: bool)
      requires Valid() && Enabled(Abs(), Resume(worker, ok))
      modifies this
      ensures Valid() && Abs() == Step(old(Abs()), Resume(worker, ok))
    {
      InvStep(Abs(), Resume(worker, ok));
      if workers[worker].Busy? {
        var ticket := workers[worker].ticket;
        if ticket !in futures {
          futures := futures[ticket := if ok then Returned else Raised];
        }
        finished := finished + [ticket];
      }
      if pendingHeap == map[] {
        processing := false;
        workers := workers[..worker] + workers[worker + 1..];
      } else {
        var id := SelectLeast(pendingHeap.Keys);
        var ticket := pendingHeap[id];
        pendingHeap := pendingHeap - {id};
        workers := workers[worker := Busy(id, ticket)];
        started := started + [ticket];
      }
    }
  }
}
