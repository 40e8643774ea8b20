/** Failing a set of records one after another, seen as one stretch. */
module RecoverySweep {
  import opened Wrappers
  import F = FutureSpec
  import opened RunSpec
  import opened RecoverySpec
  import opened RecoveryStore
  import opened RecoveryProgress
  import opened RecoveryTheorems
  import opened Ordering

  ghost function All(ids: set<F.RequestId>, reason: F.Reason): Marks {
    map id | id in ids :: reason
  }

  lemma SweepOne(s: F.State, ids: set<F.RequestId>, id: F.RequestId, reason: F.Reason)
    requires id in ids && id in s.records
    ensures F.MarkFailed(WithFailed(s, id, reason), ids - {id}, reason) == F.MarkFailed(s, ids, reason)
  {
    var first, all := F.MarkFailed(WithFailed(s, id, reason), ids - {id}, reason), F.MarkFailed(s, ids, reason);
    forall k ensures SameAt(first, all, k) {
    }
    SameState(first, all);
  }

  lemma SweepNone(s: F.State, reason: F.Reason)
    ensures F.MarkFailed(s, {}, reason) == s
  {
    forall k ensures SameAt(F.MarkFailed(s, {}, reason), s, k) {
    }
    SameState(F.MarkFailed(s, {}, reason), s);
  }

  lemma AllOne(marks: Marks, ids: set<F.RequestId>, id: F.RequestId, reason: F.Reason)
    requires id in ids
    ensures marks[id := reason] + All(ids - {id}, reason) == marks + All(ids, reason)
  {
    SameMap(marks[id := reason] + All(ids - {id}, reason), marks + All(ids, reason));
  }

  lemma AllNone(marks: Marks, reason: F.Reason)
    ensures marks + All({}, reason) == marks
  {
    SameMap(marks + All({}, reason), marks);
  }

  /** All pending samples failed. */
  ghost function SamplesSwept(s: System, rec: Recovery): System {
    s.(futures := F.MarkFailed(s.futures, rec.samples, F.SampleLost),
       stage := Recovering(rec.(marks := rec.marks + All(rec.samples, F.SampleLost), samples := {})))
  }

  lemma {:induction false} SamplesSweep(s: System, rec: Recovery)
    requires Reachable(s) && s.stage == Recovering(rec) && rec.samples <= s.futures.records.Keys
    ensures Reachable(SamplesSwept(s, rec))
    decreases |rec.samples|
  {
    if rec.samples == {} {
      SweepNone(s.futures, F.SampleLost);
      AllNone(rec.marks, F.SampleLost);
    } else {
      var id := Pick(rec.samples);
      var s' := Step(s, MarkSample(id));
      ReachStep(s, MarkSample(id));
      SamplesSweep(s', s'.stage.rec);
      SweepOne(s.futures, rec.samples, id, F.SampleLost);
      AllOne(rec.marks, rec.samples, id, F.SampleLost);
    }
  }

  /** All futures left of the run at hand failed. */
  ghost function RunSwept(s: System, rec: Recovery, reason: F.Reason): System
    requires rec.turn.Marking?
  {
    s.(futures := F.MarkFailed(s.futures, rec.turn.left, reason),
       stage := Recovering(rec.(marks := rec.marks + All(rec.turn.left, reason), turn := Marking(rec.turn.run, {}))))
  }

  lemma {:induction false} RunSweep(s: System, rec: Recovery, reason: F.Reason)
    requires Reachable(s) && s.stage == Recovering(rec) && rec.turn.Marking? && rec.turn.run in rec.plan
    requires reason == ReasonFor(rec.turn.run, rec.plan[rec.turn.run]) && rec.turn.left <= s.futures.records.Keys
    ensures Reachable(RunSwept(s, rec, reason))
    decreases |rec.turn.left|
  {
    if rec.turn.left == {} {
      SweepNone(s.futures, reason);
      AllNone(rec.marks, reason);
      assert Marking(rec.turn.run, {}) == rec.turn;
    } else {
      var id := Pick(rec.turn.left);
      var s' := Step(s, MarkFuture(id));
      ReachStep(s, MarkFuture(id));
      RunSweep(s', s'.stage.rec, reason);
      SweepOne(s.futures, rec.turn.left, id, reason);
      AllOne(rec.marks, rec.turn.left, id, reason);
    }
  }
}
