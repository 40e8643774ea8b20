/** Which sequence ids the guard refuses, told from the operations that ran. */
module GuardHistory {
  import opened Wrappers
  import opened RunSpec

  /** The id of the operation that this event lets past the guard, if it carries one. */
  ghost function Enters(r: Run, e: RunEvent): set<int>
    requires RunEnabled(r, e)
  {
    if e.Start? && RunStep(r, e).phase.Running? && r.queue[0].seqId.Some? then {r.queue[0].seqId.value} else {}
  }

  /** The id of the operation that returns with this event. */
  ghost function Returns(r: Run, e: RunEvent): set<int>
    requires RunEnabled(r, e)
  {
    if e.Finish? && e.ok && r.queue[0].seqId.Some? then {r.queue[0].seqId.value} else {}
  }

  ghost function Entered(r: Run, es: seq<RunEvent>): set<int>
    requires IsRun(r, es)
    decreases |es|
  {
    if es == [] then {} else Enters(r, es[0]) + Entered(RunStep(r, es[0]), es[1..])
  }

  ghost function Returned(r: Run, es: seq<RunEvent>): set<int>
    requires IsRun(r, es)
    decreases |es|
  {
    if es == [] then {} else Returns(r, es[0]) + Returned(RunStep(r, es[0]), es[1..])
  }

  /** The expected id is 1, or the last id that entered, or the one after it if that returned. */
  ghost predicate Awaits(r: Run, entered: set<int>, returned: set<int>) {
    && returned <= entered && r.nextSeqId >= 1
    && (forall k :: k in entered ==> 1 <= k <= r.nextSeqId)
    && (forall k :: k in returned ==> k < r.nextSeqId)
    && (r.nextSeqId == 1 || r.nextSeqId in entered || r.nextSeqId - 1 in returned)
    && (!r.phase.Waiting? && r.queue != [] && r.queue[0].seqId.Some? ==> r.nextSeqId in entered)
  }

  lemma AwaitsStep(r: Run, e: RunEvent, entered: set<int>, returned: set<int>)
    requires GuardInv(r) && RunEnabled(r, e) && Awaits(r, entered, returned)
    ensures Awaits(RunStep(r, e), entered + Enters(r, e), returned + Returns(r, e))
  {
  }

  lemma {:induction false} AwaitsRun(r: Run, es: seq<RunEvent>, entered: set<int>, returned: set<int>)
    requires GuardInv(r) && IsRun(r, es) && Awaits(r, entered, returned)
    ensures Awaits(After(r, es), entered + Entered(r, es), returned + Returned(r, es))
    decreases |es|
  {
    if es == [] {
      assert entered + {} == entered && returned + {} == returned;
    } else {
      var r1 := RunStep(r, es[0]);
      GuardStep(r, es[0]);
      AwaitsStep(r, es[0], entered, returned);
      AwaitsRun(r1, es[1..], entered + Enters(r, es[0]), returned + Returns(r, es[0]));
      assert entered + Enters(r, es[0]) + Entered(r1, es[1..]) == entered + Entered(r, es);
      assert returned + Returns(r, es[0]) + Returned(r1, es[1..]) == returned + Returned(r, es);
    }
  }

  lemma BelowExpected(r: Run, entered: set<int>, returned: set<int>, id: int)
    requires Awaits(r, entered, returned)
    ensures id < r.nextSeqId <==> id < 1 || id in returned || exists k :: k in entered && k > id
  {
    if 1 <= id < r.nextSeqId && id !in returned {
      assert r.nextSeqId in entered || (r.nextSeqId - 1 in entered && id < r.nextSeqId - 1);
    }
  }

  ghost predicate RefusedAfter(es: seq<RunEvent>, id: int)
    requires IsRun(FRESH, es)
  {
    id < 1 || id in Returned(FRESH, es) || exists k :: k in Entered(FRESH, es) && k > id
  }

  /**
   * Over every run of a new run: an operation that gets the lock is refused if and only if
   * its id is below 1, or an operation with that id has returned, or one with a greater id
   * has entered.  So an operation that raised may be retried under its own id; one without
   * an id is never refused.
   */
  lemma RefusedExactly(es: seq<RunEvent>, at: int)
    requires IsRun(FRESH, es) && RunEnabled(After(FRESH, es), Start(at))
    ensures var r, r' := After(FRESH, es), RunStep(After(FRESH, es), Start(at));
            && (r'.phase.Waiting? || r'.phase == Running(at))
            && (r.queue[0].seqId.None? ==> !r'.phase.Waiting?)
            && (r.queue[0].seqId.Some? ==>
                  (r'.phase.Waiting? <==> RefusedAfter(es, r.queue[0].seqId.value)))
  {
    AwaitsRun(FRESH, es, {}, {});
    assert {} + Entered(FRESH, es) == Entered(FRESH, es) && {} + Returned(FRESH, es) == Returned(FRESH, es);
    var r := After(FRESH, es);
    if r.queue[0].seqId.Some? {
      BelowExpected(r, Entered(FRESH, es), Returned(FRESH, es), r.queue[0].seqId.value);
    }
  }

  /** A raise, whatever happened before: the retry under the same id enters, unless a greater id did meanwhile. */
  lemma RaiseMayBeRetried(es: seq<RunEvent>, more: seq<RunEvent>, at: int, id: int)
    requires IsRun(FRESH, es) && RunEnabled(After(FRESH, es), Finish(false))
    requires After(FRESH, es).queue[0].seqId == Some(id) && !After(FRESH, es).phase.Waiting?
    requires IsRun(RunStep(After(FRESH, es), Finish(false)), more)
    requires var r := After(RunStep(After(FRESH, es), Finish(false)), more);
             RunEnabled(r, Start(at)) && r.queue[0].seqId == Some(id)
    requires Entered(RunStep(After(FRESH, es), Finish(false)), more) == {}
    ensures RunStep(After(RunStep(After(FRESH, es), Finish(false)), more), Start(at)).phase == Running(at)
  {
    AwaitsRun(FRESH, es, {}, {});
    GuardRun(FRESH, es);
    var r := After(FRESH, es);
    var r1 := RunStep(r, Finish(false));
    NothingEnters(r1, more);
  }

  /** While nothing that carries an id enters, the expected id stays. */
  lemma {:induction false} NothingEnters(r: Run, es: seq<RunEvent>)
    requires GuardInv(r) && IsRun(r, es) && Entered(r, es) == {} && (r.phase.Waiting? || r.queue[0].seqId.None?)
    ensures After(r, es).nextSeqId == r.nextSeqId
    decreases |es|
  {
    if es != [] {
      GuardStep(r, es[0]);
      assert Enters(r, es[0]) <= Entered(r, es) && Entered(RunStep(r, es[0]), es[1..]) <= Entered(r, es);
      NothingEnters(RunStep(r, es[0]), es[1..]);
    }
  }
}
