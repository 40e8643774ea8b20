/** Recovery is safe to retry, touches nothing it should not, and may be interrupted anywhere. */
module RecoveryTheorems {
  import opened Wrappers
  import F = FutureSpec
  import FT = FutureTheorems
  import opened RunSpec
  import opened RunInvariants
  import opened RunHistory
  import opened SaveOrder
  import opened RecoverySpec
  import opened RecoveryStore
  import opened RecoveryInvariants
  import opened RecoveryProgress
  import opened RecoveryOutcomes
  import opened RecoveryHistory

  // The invariant of the whole server

  ghost predicate RecoveryOk(s: System, rec: Recovery) {
    && StoreIsMarked(s, rec) && MarksOk(rec) && TurnOk(rec) && RunsOk(s, rec)
    && SinceDown(s.futures, s.runs, rec.down) && Quiet(rec.down)
  }

  ghost predicate Inv(s: System) {
    Base(s) && Histories(s) && (s.stage.Recovering? ==> RecoveryOk(s, s.stage.rec))
  }

  lemma RecoveryRestarted(s: System)
    requires FT.Inv(s.futures) && (s.stage.Recovering? ==> RecoveryOk(s, s.stage.rec))
    ensures RecoveryOk(Restarted(s), Restarted(s).stage.rec)
  {
    StoreRestarted(s);
    MarksRestarted(s);
    RunsRestarted(s);
    DownRestarted(s);
  }

  lemma RecoveryStep(s: System, rec: Recovery, e: Event)
    requires Quiet(s.futures) && RecoveryOk(s, rec) && RecoveringEnabled(s, rec, e) && !e.Complete?
    ensures RecoveringStep(s, rec, e).stage.Recovering?
    ensures RecoveryOk(RecoveringStep(s, rec, e), RecoveringStep(s, rec, e).stage.rec)
  {
    StoreStep(s, rec, e);
    MarksStep(s, rec, e);
    RunsStep(s, rec, e);
    DownStep(s, rec, e);
  }

  lemma InvRestart(s: System)
    requires Inv(s)
    ensures Inv(Restarted(s))
  {
    BaseRestart(s);
    HistoriesRestart(s);
    RecoveryRestarted(s);
  }

  lemma NoQueues(s: System, rec: Recovery)
    requires RunsOk(s, rec)
    ensures forall m :: m in s.runs ==> s.runs[m].queue == []
  {
    forall m | m in s.runs ensures s.runs[m].queue == [] {
      assert RunOk(s.runs[m], m, rec);
    }
  }

  lemma InvRecovering(s: System, rec: Recovery, e: Event)
    requires Inv(s) && s.stage == Recovering(rec) && RecoveringEnabled(s, rec, e)
    ensures Inv(RecoveringStep(s, rec, e))
  {
    NoQueues(s, rec);
    BaseRecovering(s, rec, e);
    HistoriesRecovering(s, rec, e);
    if !e.Complete? {
      RecoveryStep(s, rec, e);
    }
  }

  lemma InvServing(s: System, e: Event)
    requires Inv(s) && s.stage.Serving? && ServingEnabled(s, e)
    ensures Inv(ServingStep(s, e))
  {
    BaseServing(s, e);
    HistoriesServing(s, e);
  }

  lemma InvStep(s: System, e: Event)
    requires Inv(s) && Enabled(s, e)
    ensures Inv(Step(s, e))
  {
    if e.Restart? {
      InvRestart(s);
    } else {
      match s.stage
      case Serving => InvServing(s, e);
      case Recovering(rec) => InvRecovering(s, rec, e);
    }
  }

  lemma {:induction false} InvAll(s: System, es: seq<Event>)
    requires Inv(s) && IsRunOf(s, es)
    ensures Inv(AfterAll(s, es))
    decreases |es|
  {
    if es != [] {
      InvStep(s, es[0]);
      InvAll(Step(s, es[0]), es[1..]);
    }
  }

  lemma InvReachable(s: System)
    requires Reachable(s)
    ensures Inv(s)
  {
    var es :| IsRunOf(EMPTY, es) && AfterAll(EMPTY, es) == s;
    InvAll(EMPTY, es);
  }

  lemma {:induction false} RunSnoc(s: System, es: seq<Event>, e: Event)
    requires IsRunOf(s, es) && Enabled(AfterAll(s, es), e)
    ensures IsRunOf(s, es + [e]) && AfterAll(s, es + [e]) == Step(AfterAll(s, es), e)
    decreases |es|
  {
    if es == [] {
      assert IsRunOf(Step(s, e), []);
      assert [e][1..] == [];
    } else {
      RunSnoc(Step(s, es[0]), es[1..], e);
      assert (es + [e])[1..] == es[1..] + [e];
    }
  }

  lemma ReachStep(s: System, e: Event)
    requires Reachable(s) && Enabled(s, e)
    ensures Reachable(Step(s, e))
  {
    var es :| IsRunOf(EMPTY, es) && AfterAll(EMPTY, es) == s;
    RunSnoc(EMPTY, es, e);
  }

  lemma {:induction false} ReachRun(s: System, es: seq<Event>)
    requires Reachable(s) && IsRunOf(s, es)
    ensures Reachable(AfterAll(s, es))
    decreases |es|
  {
    if es != [] {
      ReachStep(s, es[0]);
      ReachRun(Step(s, es[0]), es[1..]);
    }
  }

  // Effects and captures

  /**
   * In every run of the server, crashes included, an operation numbered after a
   * checkpoint's stamp took effect, if at all, after that checkpoint was captured, and is
   * in no checkpoint with that stamp, saved or not.
   */
  lemma EffectsAfterStampFollowCapture(s: System, m: F.ModelId)
    requires Reachable(s) && m in s.runs
    ensures var r := s.runs[m];
            && (forall i, j :: 0 <= i < |r.log| && 0 <= j < |r.log| ==>
                  (r.log[i].Applied? && r.log[j].Took? && r.log[i].futureId > r.log[j].stamp ==> i > j))
            && (forall k :: k in r.checkpoints ==> AtMost(r.checkpoints[k].weights, r.checkpoints[k].futureId))
            && (forall k :: k in r.stored ==> AtMost(r.stored[k].weights, r.stored[k].futureId))
  {
    InvReachable(s);
    CheckpointsClean(s.runs[m], |s.futures.issued|);
  }

  lemma CheckpointsClean(r: Run, bound: nat)
    requires RunInv(r, bound)
    ensures forall k :: k in r.checkpoints ==> AtMost(r.checkpoints[k].weights, r.checkpoints[k].futureId)
    ensures forall k :: k in r.stored ==> AtMost(r.stored[k].weights, r.stored[k].futureId)
    ensures LogOrdered(r.log)
  {
    forall k | k in r.checkpoints ensures AtMost(r.checkpoints[k].weights, r.checkpoints[k].futureId) {
      assert Below(r.checkpoints[k], bound);
    }
    forall k | k in r.stored ensures AtMost(r.stored[k].weights, r.stored[k].futureId) {
      assert Below(r.stored[k], bound);
    }
  }

  /** The checkpoint recovery loads has the largest stamp of those created before it. */
  lemma LatestCheckpointLosesLeast(s: System, m: F.ModelId, key: CkptKey, other: CkptKey)
    requires Reachable(s) && m in s.runs && IsLatest(s.runs[m].stored, key) && other in s.runs[m].stored
    requires s.runs[m].stored[other].createdAt != s.runs[m].stored[key].createdAt
    ensures s.runs[m].stored[other].futureId <= s.runs[m].stored[key].futureId
  {
    InvReachable(s);
    LatestDominates(s.runs[m], |s.futures.issued|, key, other);
  }

  lemma LatestDominates(r: Run, bound: nat, key: CkptKey, other: CkptKey)
    requires RunInv(r, bound) && IsLatest(r.stored, key) && other in r.stored
    requires r.stored[other].createdAt != r.stored[key].createdAt
    ensures r.stored[other].futureId <= r.stored[key].futureId
  {
    assert Aligned(r.stored[other], r.stored[key]);
  }

  /** No update takes effect twice, crashes included. */
  lemma UpdatesApplyOnce(s: System, m: F.ModelId, a: nat, b: nat, f: nat)
    requires Reachable(s) && m in s.runs && a < |s.runs[m].log| && b < |s.runs[m].log|
    requires s.runs[m].log[a] == s.runs[m].log[b] == Applied(f)
    ensures a == b
  {
    InvReachable(s);
    AppliedOnce(s.runs[m], a, f);
  }

  lemma AppliedOnce(r: Run, a: nat, f: nat)
    requires HistoryOk(r) && a < |r.log| && r.log[a] == Applied(f)
    ensures AppliedOnlyAt(r.log, a, f)
  {
    var applied := AppliedIds(r.log);
    assert forall i :: 0 <= i < |applied| ==> Ids(r)[i] == applied[i];
    assert Distinct(applied);
    forall b | 0 <= b < |r.log| && r.log[b] == Applied(f) ensures b == a {
      if a <= b {
        DistinctMeansOnce(r.log, a, b, f);
      } else {
        DistinctMeansOnce(r.log, b, a, f);
      }
    }
  }

  // What a completed recovery leaves

  /** A recovery whose every step is done, possibly after others that were interrupted. */
  ghost predicate Completing(s: System) {
    s.stage.Recovering? && RecoveringEnabled(s, s.stage.rec, Complete)
  }

  lemma OutcomeOf(s: System, rec: Recovery, m: F.ModelId)
    requires RunsOk(s, rec) && m in s.runs
    ensures RunOk(s.runs[m], m, rec)
  {
  }

  lemma OutcomeDone(r: Run, rec: Recovery, m: F.ModelId)
    requires RunOk(r, m, rec) && rec.todo == {} && rec.turn.Between?
    ensures m in rec.plan ==> Planned(r, rec.plan[m], PickIn(rec, m))
    ensures m !in rec.plan ==> r.corrupted && r.savedCorrupted && r.weights == []
    ensures !r.corrupted && r.stored != map[] ==> m in rec.plan && rec.plan[m].Some?
  {
  }

  lemma CompletingRun(s: System, m: F.ModelId)
    requires Completing(s) && m in s.runs && RunsOk(s, s.stage.rec)
    ensures var r, rec := s.runs[m], s.stage.rec;
            && (m in rec.plan ==> Planned(r, rec.plan[m], PickIn(rec, m)))
            && (m !in rec.plan ==> r.corrupted && r.savedCorrupted && r.weights == [])
            && (!r.corrupted && r.stored != map[] ==> m in rec.plan && rec.plan[m].Some?)
  {
    OutcomeOf(s, s.stage.rec, m);
    OutcomeDone(s.runs[m], s.stage.rec, m);
  }

  /** What became of one record, given how far the recovery has come. */
  lemma RecordOutcome(s: System, rec: Recovery, id: F.RequestId)
    requires StoreIsMarked(s, rec) && MarksOk(rec) && id in s.futures.records
    ensures id in rec.start.records && id in rec.start.store && id in s.futures.store
    ensures FT.SameIdentity(s.futures.records[id], rec.start.records[id])
    ensures MarkOk(rec, id, rec.start.records[id])
    ensures var r := rec.start.records[id];
            if id in rec.marks then
              && s.futures.records[id] == F.FailedBy(r, id, rec.marks[id])
              && s.futures.store[id] == F.Serialized(s.futures.records[id])
            else s.futures.records[id] == r && s.futures.store[id] == rec.start.store[id]
  {
    StartKeys(s, rec);
    assert FT.RecordOk(rec.start, id);
    MarkedRecord(rec.start, rec.marks, id);
  }

  function ReasonOf(r: F.Record, plan: Plan): F.Reason {
    if r.model.Some? && r.model.value in plan
       && (plan[r.model.value].None? || r.futureId > plan[r.model.value].value)
    then ReasonFor(r.model.value, plan[r.model.value])
    else F.SampleLost
  }

  /** Once every step is done, exactly the lost records and the pending samples are marked. */
  lemma MarksAtEnd(rec: Recovery, id: F.RequestId, r: F.Record)
    requires MarkOk(rec, id, r) && rec.samples == {} && rec.turn.Between?
    ensures id in rec.marks <==> Changed(r, rec.plan)
    ensures id in rec.marks ==> rec.marks[id] == ReasonOf(r, rec.plan)
  {
  }

  lemma CompletingRecord(s: System, rec: Recovery, id: F.RequestId)
    requires StoreIsMarked(s, rec) && MarksOk(rec) && RecoveringEnabled(s, rec, Complete) && id in s.futures.records
    ensures id in rec.start.records && id in rec.start.store && id in s.futures.store
    ensures FT.SameIdentity(s.futures.records[id], rec.start.records[id])
    ensures var r := rec.start.records[id];
            if Changed(r, rec.plan) then
              && s.futures.records[id] == F.FailedBy(r, id, ReasonOf(r, rec.plan))
              && s.futures.store[id] == F.Serialized(s.futures.records[id])
            else s.futures.records[id] == r && s.futures.store[id] == rec.start.store[id]
  {
    RecordOutcome(s, rec, id);
    MarksAtEnd(rec, id, rec.start.records[id]);
  }

  /**
   * The frame of recovery, however many attempts were interrupted before this one: a record
   * is failed, with an error, signalled and saved, when its run was dealt with and it is
   * numbered after what was loaded (or nothing was), or it was a pending sample; every
   * other record and stored copy is as this process found it.
   */
  lemma RecoveryFrame(s: System, id: F.RequestId)
    requires Reachable(s) && Completing(s) && id in s.futures.records
    ensures id in s.stage.rec.start.records && id in s.stage.rec.start.store && id in s.futures.store
    ensures var found, r, plan := s.stage.rec.start.records[id], s.futures.records[id], s.stage.rec.plan;
            && FT.SameIdentity(r, found)
            && if Lost(found, plan) || SampleLost(found) then
                 && r.status == F.Failed && r.signalled && r.payload == found.payload
                 && r.error.Some? && r.error.value.Cancelled?
                 && s.futures.store[id] == F.Serialized(r)
               else r == found && s.futures.store[id] == s.stage.rec.start.store[id]
  {
    InvReachable(s);
    CompletingRecord(s, s.stage.rec, id);
  }

  /**
   * The same since the server went down: a record that no attempt may fail is as it was
   * then; one that differs was failed, signalled and saved, with its payload kept.
   */
  lemma InterruptedRecoveryFrame(s: System, id: F.RequestId)
    requires Reachable(s) && Completing(s) && id in s.futures.records
    ensures var down, r := s.stage.rec.down, s.futures.records[id];
            && id in down.records && id in down.store && id in s.futures.store
            && (|| (r == down.records[id] && s.futures.store[id] == down.store[id])
                || (&& MayFail(s.runs, down.records[id])
                    && r.status == F.Failed && r.signalled && r.payload == down.records[id].payload
                    && r.error.Some? && r.error.value.Cancelled? && s.futures.store[id] == F.Serialized(r)))
  {
    InvReachable(s);
    var rec := s.stage.rec;
    DownRecord(s, rec.down, id);
    RecordIsLoaded(s.futures, id);
    assert Moved(s.runs, rec.down.records[id], rec.down.store[id], s.futures.store[id]);
  }

  /** A restored run holds what its latest checkpoint holds, and that is numbered up to the stamp. */
  lemma RestoredRun(s: System, m: F.ModelId)
    requires Reachable(s) && Completing(s)
    requires m in s.runs && !s.runs[m].corrupted && s.runs[m].stored != map[]
    ensures m in s.stage.rec.picks && IsLatest(s.runs[m].stored, s.stage.rec.picks[m])
    ensures var ckpt := s.runs[m].stored[s.stage.rec.picks[m]];
            && s.runs[m].weights == ckpt.weights && AtMost(ckpt.weights, ckpt.futureId)
            && m in s.stage.rec.plan && s.stage.rec.plan[m] == Some(ckpt.futureId)
  {
    InvReachable(s);
    CompletingRun(s, m);
    CheckpointsClean(s.runs[m], |s.futures.issued|);
  }

  /** A future numbered after what its run was restored from. */
  lemma LostRecord(s: System, m: F.ModelId, id: F.RequestId, stamp: nat)
    requires Reachable(s) && Completing(s) && m in s.stage.rec.plan && s.stage.rec.plan[m] == Some(stamp)
    requires id in s.futures.records && s.futures.records[id].model == Some(m)
    ensures id in s.futures.store
    ensures var r := s.futures.records[id];
            r.futureId > stamp ==>
              && r.status == F.Failed && r.signalled && r.error == Some(F.Cancelled(id, F.RestoredFrom(stamp)))
              && s.futures.store[id] == F.Serialized(r)
  {
    InvReachable(s);
    CompletingRecord(s, s.stage.rec, id);
  }

  /**
   * Recovery is safe to retry.  When a recovery completes, after any number of interrupted
   * ones and crashes at any point, each run that is not corrupted and has a checkpoint
   * holds exactly the weights of a latest one; every future of the run numbered after its
   * stamp is failed, signalled and saved as such, and absent from the weights.
   */
  lemma RecoverySafeToRetry(s: System, m: F.ModelId, id: F.RequestId)
    requires Reachable(s) && Completing(s)
    requires m in s.runs && !s.runs[m].corrupted && s.runs[m].stored != map[]
    requires id in s.futures.records && s.futures.records[id].model == Some(m)
    ensures m in s.stage.rec.picks && IsLatest(s.runs[m].stored, s.stage.rec.picks[m])
    ensures var ckpt, r := s.runs[m].stored[s.stage.rec.picks[m]], s.futures.records[id];
            && s.runs[m].weights == ckpt.weights
            && id in s.futures.store
            && (r.futureId > ckpt.futureId ==>
                  && r.status == F.Failed && r.signalled
                  && r.error == Some(F.Cancelled(id, F.RestoredFrom(ckpt.futureId)))
                  && s.futures.store[id] == F.Serialized(r)
                  && r.futureId !in s.runs[m].weights)
  {
    RestoredRun(s, m);
    LostRecord(s, m, id, s.runs[m].stored[s.stage.rec.picks[m]].futureId);
  }

  /** A run dealt with and nothing loaded, for want of a checkpoint or because it failed to load. */
  lemma RunsWithoutCheckpoint(s: System, m: F.ModelId, id: F.RequestId)
    requires Reachable(s) && Completing(s) && m in s.runs && m in s.stage.rec.plan && s.stage.rec.plan[m].None?
    requires id in s.futures.records && s.futures.records[id].model == Some(m)
    ensures s.runs[m].weights == []
    ensures s.runs[m].stored != map[] ==> s.runs[m].corrupted && s.runs[m].savedCorrupted
    ensures s.futures.records[id].status == F.Failed && s.futures.records[id].signalled
    ensures s.futures.records[id].error == Some(F.Cancelled(id, F.NoCheckpoint(m)))
  {
    InvReachable(s);
    CompletingRun(s, m);
    CompletingRecord(s, s.stage.rec, id);
  }

  /** A run found corrupted is skipped: its futures stay as they were found, but for pending samples. */
  lemma CorruptedRunsSkipped(s: System, m: F.ModelId, id: F.RequestId)
    requires Reachable(s) && Completing(s) && m in s.runs && m !in s.stage.rec.plan
    requires id in s.futures.records && s.futures.records[id].model == Some(m)
    ensures s.runs[m].corrupted && s.runs[m].weights == [] && id in s.stage.rec.start.records
    ensures var found := s.stage.rec.start.records[id];
            !SampleLost(found) ==> s.futures.records[id] == found
  {
    InvReachable(s);
    CompletingRun(s, m);
    CompletingRecord(s, s.stage.rec, id);
  }

  // Corrupted runs

  ghost predicate AllFailed(futures: F.State, m: F.ModelId) {
    forall id :: id in futures.records && futures.records[id].model == Some(m) ==> futures.records[id].status == F.Failed
  }

  /**
   * All futures of a corrupted run are failed when a recovery completes if and only if this
   * recovery found the run uncorrupted, or the store it found had them failed already, but
   * for pending samples.
   */
  lemma CorruptedFailedExactly(s: System, m: F.ModelId)
    requires Reachable(s) && Completing(s) && m in s.runs && s.runs[m].corrupted
    ensures AllFailed(s.futures, m) <==>
            || m in s.stage.rec.plan
            || forall id :: id in s.stage.rec.start.records && s.stage.rec.start.records[id].model == Some(m) ==>
                 s.stage.rec.start.records[id].status == F.Failed || SampleLost(s.stage.rec.start.records[id])
  {
    InvReachable(s);
    CompletingRun(s, m);
    var rec := s.stage.rec;
    StartKeys(s, rec);
    forall id | id in s.futures.records && s.futures.records[id].model == Some(m)
      ensures rec.start.records[id].model == Some(m)
      ensures s.futures.records[id].status == F.Failed <==>
              m in rec.plan || rec.start.records[id].status == F.Failed || SampleLost(rec.start.records[id])
    {
      CompletingRecord(s, s.stage.rec, id);
    }
    forall id | id in rec.start.records && rec.start.records[id].model == Some(m)
      ensures s.futures.records[id].model == Some(m)
    {
      CompletingRecord(s, s.stage.rec, id);
    }
  }

  ghost predicate NoCompletion(es: seq<Event>) {
    forall i :: 0 <= i < |es| ==> !es[i].Complete?
  }

  /** A record of a run whose corruption is saved, and which is no pending sample. */
  ghost predicate OutOfReach(s: System, m: F.ModelId, id: F.RequestId) {
    && s.stage.Recovering? && m in s.runs && s.runs[m].corrupted && s.runs[m].savedCorrupted
    && m !in s.stage.rec.plan && s.stage.rec.turn != Failing(m)
    && id in s.futures.records && s.futures.records[id].model == Some(m) && !SampleLost(s.futures.records[id])
  }

  lemma OutOfReachRestart(s: System, m: F.ModelId, id: F.RequestId)
    requires FT.Inv(s.futures) && s.futures.runners == map[] && m in s.runs && s.runs[m].savedCorrupted
    requires id in s.futures.records && s.futures.records[id].model == Some(m) && !SampleLost(s.futures.records[id])
    ensures OutOfReach(Restarted(s), m, id) && Restarted(s).futures.records[id] == s.futures.records[id]
  {
    RecordIsLoaded(s.futures, id);
  }

  /** The record that is marked is a pending sample, or belongs to the run at hand. */
  lemma OthersAreMarked(s: System, rec: Recovery, e: Event, m: F.ModelId, id: F.RequestId)
    requires StoreIsMarked(s, rec) && MarksOk(rec) && TurnOk(rec) && RecoveringEnabled(s, rec, e)
    requires id in s.futures.records && s.futures.records[id].model == Some(m) && !SampleLost(s.futures.records[id])
    requires m !in rec.plan
    ensures e == MarkSample(id) || e == MarkFuture(id) ==> false
  {
    RecordOutcome(s, rec, id);
  }

  lemma OutOfReachMarks(s: System, rec: Recovery, e: Event, m: F.ModelId, id: F.RequestId)
    requires s.stage == Recovering(rec) && OutOfReach(s, m, id) && RecoveringEnabled(s, rec, e)
    requires (e.MarkSample? || e.MarkFuture?) && e.id != id
    ensures var s' := RecoveringStep(s, rec, e);
            OutOfReach(s', m, id) && s'.futures.records[id] == s.futures.records[id]
  {
  }

  lemma OutOfReachTurns(s: System, rec: Recovery, e: Event, m: F.ModelId, id: F.RequestId)
    requires s.stage == Recovering(rec) && OutOfReach(s, m, id) && RecoveringEnabled(s, rec, e)
    requires e.LoadLatest? || e.SaveCorrupted? || e.Skip? || e.EndTurn?
    ensures var s' := RecoveringStep(s, rec, e);
            OutOfReach(s', m, id) && s'.futures.records[id] == s.futures.records[id]
  {
  }

  lemma OutOfReachStep(s: System, rec: Recovery, e: Event, m: F.ModelId, id: F.RequestId)
    requires s.stage == Recovering(rec) && OutOfReach(s, m, id) && RecoveringEnabled(s, rec, e) && !e.Complete?
    requires StoreIsMarked(s, rec) && MarksOk(rec) && TurnOk(rec)
    ensures var s' := RecoveringStep(s, rec, e);
            OutOfReach(s', m, id) && s'.futures.records[id] == s.futures.records[id]
  {
    OthersAreMarked(s, rec, e, m, id);
    if e.MarkSample? || e.MarkFuture? {
      OutOfReachMarks(s, rec, e, m, id);
    } else {
      OutOfReachTurns(s, rec, e, m, id);
    }
  }

  lemma OutOfReachNext(s: System, e: Event, m: F.ModelId, id: F.RequestId)
    requires Reachable(s) && OutOfReach(s, m, id) && Enabled(s, e) && !e.Complete?
    ensures OutOfReach(Step(s, e), m, id) && Step(s, e).futures.records[id] == s.futures.records[id]
  {
    InvReachable(s);
    if e.Restart? {
      OutOfReachRestart(s, m, id);
    } else {
      OutOfReachStep(s, s.stage.rec, e, m, id);
    }
  }

  lemma {:induction false} OutOfReachRun(s: System, es: seq<Event>, m: F.ModelId, id: F.RequestId)
    requires Reachable(s) && OutOfReach(s, m, id) && IsRunOf(s, es) && NoCompletion(es)
    ensures OutOfReach(AfterAll(s, es), m, id)
    ensures AfterAll(s, es).futures.records[id] == s.futures.records[id]
    decreases |es|
  {
    if es != [] {
      assert !es[0].Complete? && NoCompletion(es[1..]);
      ReachStep(s, es[0]);
      OutOfReachNext(s, es[0], m, id);
      OutOfReachRun(Step(s, es[0]), es[1..], m, id);
    }
  }

  /**
   * A crash while the futures of a run that failed to load are being marked: whatever
   * happens next, the recovery that completes leaves them all failed if and only if those
   * still left to mark were failed already.
   */
  lemma InterruptedMarkingDecides(s: System, m: F.ModelId, left: set<F.RequestId>, es: seq<Event>)
    requires Reachable(s) && s.stage.Recovering? && s.stage.rec.turn == Marking(m, left)
    requires m in s.runs && s.runs[m].corrupted
    requires IsRunOf(Restarted(s), es) && NoCompletion(es) && Completing(AfterAll(Restarted(s), es))
    ensures AllFailed(AfterAll(Restarted(s), es).futures, m) <==>
            forall id :: id in left && id in s.futures.records ==> s.futures.records[id].status == F.Failed
  {
    InvReachable(s);
    var rec, last := s.stage.rec, AfterAll(Restarted(s), es);
    OutcomeOf(s, rec, m);
    ReachStep(s, Restart);
    ReachRun(Restarted(s), es);
    InvReachable(last);
    forall id | id in s.futures.records && s.futures.records[id].model == Some(m)
      ensures id in last.futures.records && last.futures.records[id] == s.futures.records[id]
      ensures id !in left ==> s.futures.records[id].status == F.Failed
    {
      MarkedSoFar(s, rec, m, left, id);
      OutOfReachRestart(s, m, id);
      OutOfReachRun(Restarted(s), es, m, id);
    }
    forall id | id in left && id in s.futures.records ensures s.futures.records[id].model == Some(m) {
      StartKeys(s, rec);
      MarkedIdentity(rec, id);
    }
    SameDown(Restarted(s), es);
    forall id | id in last.futures.records && last.futures.records[id].model == Some(m)
      ensures id in s.futures.records && s.futures.records[id].model == Some(m)
    {
      DownRecord(s, rec.down, id);
      DownRecord(last, rec.down, id);
    }
  }

  /** While a run without weights is being marked, each of its records is failed or left. */
  lemma MarkedSoFar(s: System, rec: Recovery, m: F.ModelId, left: set<F.RequestId>, id: F.RequestId)
    requires StoreIsMarked(s, rec) && MarksOk(rec) && TurnOk(rec) && rec.turn == Marking(m, left) && rec.plan[m].None?
    requires id in s.futures.records && s.futures.records[id].model == Some(m)
    ensures !SampleLost(s.futures.records[id]) && (id !in left ==> s.futures.records[id].status == F.Failed)
  {
    RecordOutcome(s, rec, id);
  }

  /** Attempts of one recovery share what the store was when the server went down. */
  lemma {:induction false} SameDown(s: System, es: seq<Event>)
    requires s.stage.Recovering? && IsRunOf(s, es) && NoCompletion(es)
    ensures AfterAll(s, es).stage.Recovering? && AfterAll(s, es).stage.rec.down == s.stage.rec.down
    decreases |es|
  {
    if es != [] {
      assert !es[0].Complete?;
      assert NoCompletion(es[1..]);
      SameDown(Step(s, es[0]), es[1..]);
    }
  }

  // Which operations a checkpoint contains

  /**
   * With any loads, restarts and recoveries in between: operation f is in a checkpoint of
   * the run if and only if it was applied, or came with a load or restart, before the
   * checkpoint was captured, and no load or restart followed before the capture.
   */
  lemma CheckpointContainsExactly(s: System, m: F.ModelId, key: CkptKey, f: nat)
    requires Reachable(s) && m in s.runs && key in s.runs[m].stored
    ensures var r, ckpt := s.runs[m], s.runs[m].stored[key];
            && ckpt.taken < |r.log| && r.log[ckpt.taken] == Took(ckpt.futureId)
            && (f in ckpt.weights <==> exists a: nat :: Kept(r.log, a, ckpt.taken, f))
  {
    InvReachable(s);
    StoredTaken(s.runs[m], key);
    WeightsDecided(s.runs[m].log, s.runs[m].stored[key].taken, f);
  }

  lemma StoredTaken(r: Run, key: CkptKey)
    requires HistoryOk(r) && key in r.stored
    ensures TakenFrom(r.stored[key], r.log) && ResetsKnown(r.log)
  {
  }

  /**
   * When a recovery completes: an update of a restored run that took effect at position a of
   * the run's log, with no load or restart between that and the capture, is in the restored
   * weights if and only if it took effect before the capture.  Numbered up to the stamp, it
   * keeps the status it was found with either way.
   */
  lemma ReadyIsRestoredExactly(s: System, m: F.ModelId, id: F.RequestId, a: nat)
    requires Reachable(s) && Completing(s)
    requires m in s.runs && !s.runs[m].corrupted && s.runs[m].stored != map[]
    requires id in s.futures.records && s.futures.records[id].model == Some(m)
    requires a < |s.runs[m].log| && s.runs[m].log[a] == Applied(s.futures.records[id].futureId)
    ensures m in s.stage.rec.picks && s.stage.rec.picks[m] in s.runs[m].stored
    ensures var r, ckpt, f := s.runs[m], s.runs[m].stored[s.stage.rec.picks[m]], s.futures.records[id].futureId;
            && ckpt.taken < |r.log|
            && (NoReset(r.log, a + 1, ckpt.taken) ==> (f in r.weights <==> a < ckpt.taken))
            && id in s.stage.rec.start.records
            && var found := s.stage.rec.start.records[id];
               (f <= ckpt.futureId && !SampleLost(found) ==> s.futures.records[id] == found)
  {
    InvReachable(s);
    CompletingRun(s, m);
    CompletingRecord(s, s.stage.rec, id);
    var r, f, key := s.runs[m], s.futures.records[id].futureId, s.stage.rec.picks[m];
    StoredTaken(r, key);
    AppliedOnce(r, a, f);
    if NoReset(r.log, a + 1, r.stored[key].taken) {
      AppliedDecides(r.log, a, r.stored[key].taken, f);
    }
  }

  /** An operation whose coroutine has not reached its lock is in no run's log and no run's queue. */
  lemma LateJobsAreNotAtTheLock(s: System, id: F.RequestId, m: F.ModelId)
    requires Reachable(s) && id in s.jobs && m in s.runs
    ensures id in s.futures.records
    ensures var r, f := s.runs[m], s.futures.records[id].futureId;
            && f !in AppliedIds(r.log)
            && !exists i :: 0 <= i < |r.queue| && r.queue[i].work.Apply? && r.queue[i].futureId == f
  {
    InvReachable(s);
    assert id in s.jobs.Keys;
    assert JobFresh(s, id);
    NotSeen(s.runs[m], s.futures.records[id].futureId);
  }

  lemma NotSeen(r: Run, f: nat)
    requires HistoryOk(r) && f !in Ids(r)
    ensures f !in AppliedIds(r.log)
    ensures !exists i :: 0 <= i < |r.queue| && r.queue[i].work.Apply? && r.queue[i].futureId == f
  {
    var waiting, applied := Unstarted(r), AppliedIds(r.log);
    var shift := |r.queue| - |waiting|;
    forall i | 0 <= i < |r.queue| && r.queue[i].work.Apply? ensures r.queue[i].futureId != f {
      if i >= shift {
        assert waiting[i - shift] == r.queue[i];
        assert Ids(r)[|applied| + (i - shift)] == r.queue[i].futureId;
      }
    }
  }

  lemma RunReplayed(s: System, m: F.ModelId)
    requires Reachable(s) && m in s.runs
    ensures Replayed(s.runs[m])
  {
    InvReachable(s);
    assert HistoryOk(s.runs[m]);
  }

  /**
   * What a client can tell when a save reaches the lock with no load queued: an update whose
   * effect is in the weights by then is in the checkpoint the save will capture; an update
   * of the run whose coroutine has not reached the lock by then is not.
   */
  lemma SaveContainsWhatCameFirst(s: System, m: F.ModelId, save: Entry, es: seq<RunEvent>, f: nat)
    requires Reachable(s) && m in s.runs && save.work.Save? && NoLoads(s.runs[m].queue)
    requires var r := RunStep(s.runs[m], Request(save));
             IsRun(r, es) && Popped(r, es) == |s.runs[m].queue| && RunEnabled(After(r, es), Capture)
    ensures var r := After(RunStep(s.runs[m], Request(save)), es);
            && (f in s.runs[m].weights ==> f in SavedCheckpoint(r).weights)
            && (forall id :: id in s.jobs && id in s.futures.records && s.futures.records[id].futureId == f ==>
                  f !in SavedCheckpoint(r).weights)
  {
    RunReplayed(s, m);
    QueueDecides(s.runs[m], save, es, f);
    forall id | id in s.jobs && id in s.futures.records && s.futures.records[id].futureId == f
      ensures f !in AppliedIds(s.runs[m].log) && !Queued(f, s.runs[m].queue)
    {
      LateJobsAreNotAtTheLock(s, id, m);
    }
  }

  // The sequence guard through crashes

  /**
   * The guard survives crashes: the ids of operations that returned strictly increase over
   * the life of a run, the saved expected id exceeds them all, and a new process refuses
   * every one of them.
   */
  lemma AcknowledgedNeverRepeats(s: System, m: F.ModelId, entry: Entry)
    requires Reachable(s) && m in s.runs
    ensures var r := s.runs[m];
            && (forall k :: 0 <= k < |r.succeeded| ==> r.succeeded[k] < r.savedSeqId <= r.nextSeqId)
            && (forall k, l :: 0 <= k < l < |r.succeeded| ==> r.succeeded[k] < r.succeeded[l])
            && (entry.seqId.Some? && entry.seqId.value in r.succeeded ==>
                  Rejected(r, entry) && m in Restarted(s).runs && Rejected(Restarted(s).runs[m], entry))
  {
    InvReachable(s);
    assert HistoryOk(s.runs[m]);
  }
}
