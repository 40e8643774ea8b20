/** The server itself: the save path, and the start-up recovery stretch by stretch. */
module Server {
  import opened Wrappers
  import F = FutureSpec
  import FT = FutureTheorems
  import opened FutureStoreClass
  import opened TrainingController
  import opened RunSpec
  import opened RecoverySpec
  import opened RecoveryStore
  import opened RecoveryProgress
  import opened RecoveryOutcomes
  import opened RecoveryTheorems
  import opened RecoverySweep

  lemma Parts(s: System, t: System)
    requires s.futures == t.futures && s.runs == t.runs && s.jobs == t.jobs && s.stage == t.stage
    ensures s == t
  {
  }

  // The steps of the transition system that the stretches below amount to, part by part

  lemma RestartStep(s: System) returns (next: System)
    requires Reachable(s)
    ensures next == Step(s, Restart) && Reachable(next)
    ensures next.futures == F.Restarted(s.futures) && next.runs == ReloadedRuns(s.runs) && next.jobs == map[]
  {
    ReachStep(s, Restart);
    next := Step(s, Restart);
  }

  lemma SamplesStep(s: System) returns (next: System)
    requires Reachable(s) && s.stage.Recovering? && s.stage.rec.samples == F.PendingSamples(s.futures)
    ensures next == SamplesSwept(s, s.stage.rec) && Reachable(next)
    ensures next.futures == F.MarkFailed(s.futures, F.PendingSamples(s.futures), F.SampleLost)
    ensures next.runs == s.runs && next.jobs == s.jobs
  {
    SamplesSweep(s, s.stage.rec);
    next := SamplesSwept(s, s.stage.rec);
  }

  /** Recovery is between two runs, and m is still to do. */
  ghost predicate TurnOf(stage: Stage, m: F.ModelId) {
    stage.Recovering? && stage.rec.samples == {} && stage.rec.turn.Between? && m in stage.rec.todo
  }

  lemma SkipStep(s: System, m: F.ModelId) returns (next: System)
    requires Reachable(s) && TurnOf(s.stage, m) && m in s.runs && s.runs[m].corrupted
    ensures Enabled(s, Skip(m)) && next == Step(s, Skip(m)) && Reachable(next)
    ensures next == s.(stage := next.stage)
    ensures next.stage == Recovering(s.stage.rec.(todo := s.stage.rec.todo - {m}))
  {
    ReachStep(s, Skip(m));
    next := Step(s, Skip(m));
  }

  /** What a look at the run's checkpoints leads to. */
  ghost function AfterLoad(r: Run, pick: Option<CkptKey>, ok: bool): Run
    requires pick.Some? ==> pick.value in r.checkpoints
  {
    if pick.None? then r else if ok then Restored(r, pick.value) else LoadFailed(r)
  }

  ghost function StampOf(r: Run, pick: Option<CkptKey>): Option<nat>
    requires pick.Some? ==> pick.value in r.checkpoints
  {
    if pick.None? then None else Some(r.checkpoints[pick.value].futureId)
  }

  lemma LoadStep(s: System, m: F.ModelId, pick: Option<CkptKey>, ok: bool) returns (next: System)
    requires Reachable(s) && TurnOf(s.stage, m) && m in s.runs && !s.runs[m].corrupted
    requires pick.None? <==> s.runs[m].checkpoints == map[]
    requires pick.Some? ==> IsLatest(s.runs[m].checkpoints, pick.value)
    ensures Enabled(s, LoadLatest(m, pick, ok)) && next == Step(s, LoadLatest(m, pick, ok)) && Reachable(next)
    ensures next == s.(stage := next.stage, runs := s.runs[m := AfterLoad(s.runs[m], pick, ok)])
    ensures next.stage.Recovering?
    ensures var was, now := s.stage.rec, next.stage.rec;
            if pick.Some? && !ok then now == was.(turn := Failing(m))
            else now == was.(turn := Marking(m, LostOf(s.futures, m, StampOf(s.runs[m], pick))),
                             plan := was.plan[m := StampOf(s.runs[m], pick)], picks := now.picks)
  {
    ReachStep(s, LoadLatest(m, pick, ok));
    next := Step(s, LoadLatest(m, pick, ok));
    assert s.runs[m := s.runs[m]] == s.runs;
  }

  lemma CorruptedStep(s: System, m: F.ModelId) returns (next: System)
    requires Reachable(s) && s.stage.Recovering? && s.stage.rec.turn == Failing(m) && m in s.runs
    ensures Enabled(s, SaveCorrupted) && next == Step(s, SaveCorrupted) && Reachable(next)
    ensures next == s.(stage := next.stage, runs := s.runs[m := CorruptionSaved(s.runs[m])])
    ensures next.stage == Recovering(s.stage.rec.(turn := Marking(m, LostOf(s.futures, m, None)),
                                                  plan := s.stage.rec.plan[m := None]))
  {
    ReachStep(s, SaveCorrupted);
    next := Step(s, SaveCorrupted);
  }

  /** Marking what is left of a run, and the end of its turn. */
  lemma MarkStep(s: System, m: F.ModelId, stamp: Option<nat>) returns (next: System)
    requires Reachable(s) && s.stage.Recovering? && s.stage.rec.turn == Marking(m, LostOf(s.futures, m, stamp))
    requires m in s.stage.rec.plan && s.stage.rec.plan[m] == stamp
    ensures Reachable(next)
    ensures next == s.(stage := next.stage,
                       futures := F.MarkFailed(s.futures, F.AfterCheckpoint(s.futures, Some(m), stamp), ReasonFor(m, stamp)))
    ensures next.stage.Recovering?
    ensures next.stage.rec == s.stage.rec.(marks := next.stage.rec.marks, turn := Between, todo := s.stage.rec.todo - {m})
  {
    RunSweep(s, s.stage.rec, ReasonFor(m, stamp));
    var swept := RunSwept(s, s.stage.rec, ReasonFor(m, stamp));
    ReachStep(swept, EndTurn);
    next := Step(swept, EndTurn);
  }

  class ServerState {
    const futures: FutureStore
    var runs: map<F.ModelId, TrainingRun>

    // Operations on their way to a lock, and how far the start-up has come.
    var jobs: map<F.RequestId, Job>
    ghost var stage: Stage

    ghost predicate Separate()
      reads this`runs
    {
      forall m, n :: m in runs && n in runs && m != n ==> runs[m] != runs[n]
    }

    ghost function Runs(): map<F.ModelId, Run>
      reads this`runs, runs.Values
    {
      map m | m in runs :: runs[m].Abs()
    }

    ghost function Abs(): System
      reads this, futures, runs.Values
    {
      System(futures.Abs(), Runs(), jobs, stage)
    }

    /** The server is in a state that some schedule, with crashes anywhere, leads to. */
    ghost predicate Valid()
      reads this, futures, runs.Values
    {
      Separate() && Reachable(Abs())
    }

    constructor ()
      ensures Valid() && Abs() == EMPTY
    {
      futures := new FutureStore();
      runs, jobs, stage := map[], map[], Serving;
      new;
      assert IsRunOf(EMPTY, []);
      assert Runs() == map[];
    }

    /** Only run m has changed. */
    twostate lemma OnlyMoved(m: F.ModelId)
      requires old(Separate()) && m in runs && runs == old(runs)
      requires forall n :: n in runs && runs[n] != runs[m] ==> unchanged(runs[n])
      ensures Runs() == old(Runs())[m := runs[m].Abs()]
    {
      forall n | n in runs && n != m ensures runs[n].Abs() == old(runs[n].Abs()) {
        assert runs[n] != runs[m];
      }
      SameMap(Runs(), old(Runs())[m := runs[m].Abs()]);
    }

    /** No run has changed. */
    twostate lemma Unmoved()
      requires runs == old(runs) && forall m :: m in runs ==> unchanged(runs[m])
      ensures Runs() == old(Runs())
    {
      SameMap(Runs(), old(Runs()));
    }

    /**
     * A save on its way to the run: the current future id is read and the lock's queue is
     * joined in one stretch, so the stamp covers everything numbered before.
     */
    method SaveCheckpoint(id: F.RequestId)
      requires Valid() && stage.Serving? && Enabled(Abs(), Arrive(id)) && jobs[id].kind.DoSave?
      modifies this`jobs, runs[jobs[id].model]
      ensures Valid() && Abs() == Step(old(Abs()), Arrive(id))
    {
      var job := jobs[id];
      var currentFutureId := futures.GetCurrentFutureId();
      ReachStep(Abs(), Arrive(id));
      runs[job.model].JoinQueue(Entry(futures.records[id].futureId, job.seqId, Save(job.kind.key, currentFutureId)));
      jobs := jobs - {id};
      OnlyMoved(job.model);
    }

    // Start-up

    /** Every run as a new process finds it: queue gone, checkpoints from the store. */
    method ReloadRuns()
      requires Separate()
      modifies runs.Values
      ensures Runs() == ReloadedRuns(old(Runs()))
    {
      var todo := runs.Keys;
      while todo != {}
        invariant todo <= runs.Keys
        invariant forall m :: m in runs ==>
                    runs[m].Abs() == if m in todo then old(runs[m].Abs()) else Reloaded(old(runs[m].Abs()))
        decreases |todo|
      {
        var m :| m in todo;
        todo := todo - {m};
        runs[m].Reload();
      }
      SameMap(Runs(), ReloadedRuns(old(Runs())));
    }

    method Reread()
      requires Separate()
      modifies futures, runs.Values
      ensures futures.Abs() == F.Restarted(old(futures.Abs())) && Runs() == ReloadedRuns(old(Runs()))
    {
      futures.RestoreFromRedis();
      ReloadRuns();
    }

    method LoadInto(m: F.ModelId, loads: bool) returns (latest: Option<CkptKey>, restored: bool)
      requires Separate() && m in runs
      modifies runs[m]
      ensures latest.None? <==> old(Runs())[m].checkpoints == map[]
      ensures latest.Some? ==> IsLatest(old(Runs())[m].checkpoints, latest.value)
      ensures Runs() == old(Runs())[m := AfterLoad(old(Runs())[m], latest, loads)]
      ensures restored <==> latest.Some? && loads
      ensures runs[m].checkpoints == old(runs[m].checkpoints)
    {
      latest, restored := runs[m].RestoreFromCheckpoint(loads);
      OnlyMoved(m);
    }

    method SaveFlag(m: F.ModelId)
      requires Separate() && m in runs
      modifies runs[m]
      ensures Runs() == old(Runs())[m := CorruptionSaved(old(Runs())[m])]
      ensures runs[m].checkpoints == old(runs[m].checkpoints)
    {
      runs[m].SaveCorruption();
      OnlyMoved(m);
    }

    /** A crash, in service or in the middle of a recovery, and a new process. */
    method Reboot()
      requires Valid()
      modifies this`jobs, this`stage, futures, runs.Values
      ensures Valid() && Abs() == Step(old(Abs()), Restart) && runs == old(runs)
    {
      ghost var next := RestartStep(Abs());
      Reread();
      label read:
      jobs, stage := map[], next.stage;
      Unmoved@read();
      Parts(Abs(), next);
    }

    /** First the samples that were pending. */
    method FailPendingSamples()
      requires Valid() && stage.Recovering? && stage.rec.samples == F.PendingSamples(futures.Abs())
      modifies this`stage, futures
      ensures Valid() && runs == old(runs) && Abs() == SamplesSwept(old(Abs()), old(stage).rec)
    {
      ghost var next := SamplesStep(Abs());
      var lost := futures.MarkPendingSampleFuturesFailed(F.SampleLost);
      stage := next.stage;
      Unmoved();
      Parts(Abs(), next);
    }

    /** The futures of the run at hand, all in one stretch, and on to the next run. */
    method MarkRun(m: F.ModelId, stamp: Option<nat>)
      requires Valid() && stage.Recovering? && stage.rec.turn == Marking(m, LostOf(futures.Abs(), m, stamp))
      requires m in stage.rec.plan && stage.rec.plan[m] == stamp
      modifies this`stage, futures
      ensures Valid() && runs == old(runs) && stage.Recovering?
      ensures stage.rec == old(stage).rec.(marks := stage.rec.marks, turn := Between, todo := old(stage).rec.todo - {m})
    {
      ghost var next := MarkStep(Abs(), m, stamp);
      var count := futures.MarkFuturesFailedAfterCheckpoint(Some(m), stamp, ReasonFor(m, stamp));
      stage := next.stage;
      Unmoved();
      Parts(Abs(), next);
    }

    /** A run that an earlier process could not load is passed over. */
    method SkipRun(m: F.ModelId)
      requires Valid() && TurnOf(stage, m) && m in runs && runs[m].corrupted
      modifies this`stage
      ensures Valid() && runs == old(runs) && Abs() == Step(old(Abs()), Skip(m))
      ensures stage == Recovering(old(stage).rec.(todo := old(stage).rec.todo - {m}))
    {
      ghost var next := SkipStep(Abs(), m);
      stage := next.stage;
      Parts(Abs(), next);
    }

    /** The load itself; when it fails, saving that is the next stretch. */
    method LoadRun(m: F.ModelId, loads: bool) returns (latest: Option<CkptKey>, restored: bool)
      requires Valid() && TurnOf(stage, m) && m in runs && !runs[m].corrupted
      modifies this`stage, runs[m]
      ensures Valid() && runs == old(runs) && futures.Abs() == old(futures.Abs())
      ensures Enabled(old(Abs()), LoadLatest(m, latest, loads))
      ensures Abs() == Step(old(Abs()), LoadLatest(m, latest, loads))
      ensures restored <==> latest.Some? && loads
      ensures latest.None? <==> old(runs[m].checkpoints) == map[]
      ensures runs[m].checkpoints == old(runs[m].checkpoints)
      ensures latest.Some? ==> latest.value in runs[m].checkpoints
      ensures stage.Recovering?
      ensures var was, now := old(stage).rec, stage.rec;
              if latest.Some? && !loads then now == was.(turn := Failing(m))
              else var stamp := StampOf(old(runs[m].Abs()), latest);
                   now == was.(turn := Marking(m, LostOf(futures.Abs(), m, stamp)), plan := was.plan[m := stamp],
                               picks := now.picks)
    {
      ghost var was := Abs();
      latest, restored := LoadInto(m, loads);
      ghost var next := LoadStep(was, m, latest, loads);
      label loaded:
      stage := next.stage;
      Unmoved@loaded();
      Parts(Abs(), next);
    }

    /** Failed loads: the flag is saved, then the run's futures are failed. */
    method SaveRunCorrupted(m: F.ModelId)
      requires Valid() && stage.Recovering? && stage.rec.turn == Failing(m) && m in runs
      modifies this`stage, runs[m]
      ensures Valid() && runs == old(runs) && futures.Abs() == old(futures.Abs())
      ensures Abs() == Step(old(Abs()), SaveCorrupted) && runs[m].checkpoints == old(runs[m].checkpoints)
      ensures stage == Recovering(old(stage).rec.(turn := Marking(m, LostOf(futures.Abs(), m, None)),
                                                  plan := old(stage).rec.plan[m := None]))
    {
      ghost var next := CorruptedStep(Abs(), m);
      SaveFlag(m);
      label saved:
      stage := next.stage;
      Unmoved@saved();
      Parts(Abs(), next);
    }

    /** One turn of the recovery loop. */
    method DealWith(m: F.ModelId, loads: bool)
      requires Valid() && TurnOf(stage, m) && m in runs
      modifies this`stage, futures, runs[m]
      ensures Valid() && runs == old(runs) && stage.Recovering?
      ensures TurnTaken(old(stage).rec, stage.rec, m, old(runs[m].corrupted), old(runs[m].checkpoints) != map[] && loads)
      ensures runs[m].checkpoints == old(runs[m].checkpoints)
    {
      if runs[m].corrupted {
        SkipRun(m);
      } else {
        var latest, restored := LoadRun(m, loads);
        if latest.Some? && !restored {
          SaveRunCorrupted(m);
          MarkRun(m, None);
        } else {
          MarkRun(m, if restored then Some(runs[m].checkpoints[latest.value].futureId) else None);
        }
      }
    }

    /** Recovery of the store `start` is between two runs. */
    ghost predicate Dealt(start: F.State, loads: set<F.ModelId>)
      reads this`runs, this`stage, runs.Values
    {
      && stage.Recovering? && stage.rec.start == start && stage.rec.samples == {} && stage.rec.turn.Between?
      && stage.rec.todo <= runs.Keys && stage.rec.todo !! stage.rec.plan.Keys
      && Follows(stage.rec.plan, Runs(), loads)
    }

    /** One more run dealt with; the others are not touched. */
    method DealWithNext(m: F.ModelId, ghost start: F.State, loads: set<F.ModelId>)
      requires Valid() && Dealt(start, loads) && m in stage.rec.todo
      modifies this`stage, futures, runs[m]
      ensures Valid() && runs == old(runs) && Dealt(start, loads) && stage.rec.todo == old(stage).rec.todo - {m}
    {
      ghost var plan, before := stage.rec.plan, Runs();
      DealWith(m, m in loads);
      OnlyMoved(m);
      FollowsNext(plan, before, stage.rec.plan, Runs(), m, loads);
    }

    method DealWithAll(ghost start: F.State, loads: set<F.ModelId>)
      requires Valid() && Dealt(start, loads) && stage.rec.todo == runs.Keys
      modifies this`stage, futures, runs.Values
      ensures Valid() && runs == old(runs) && Dealt(start, loads) && stage.rec.todo == {}
    {
      var todo := runs.Keys;
      while todo != {}
        invariant Valid() && runs == old(runs) && Dealt(start, loads)
        invariant stage.rec.todo == todo
        decreases |todo|
      {
        var m :| m in todo;
        todo := todo - {m};
        DealWithNext(m, start, loads);
      }
    }

    /** A new process, up to the first run. */
    method BeginRecovery()
      requires Valid()
      modifies this`jobs, this`stage, futures, runs.Values
      ensures Valid() && runs == old(runs) && stage.Recovering? && stage.rec.todo == runs.Keys
      ensures Dealt(F.Restarted(old(futures.Abs())), {})
      ensures stage.rec.plan == map[]
    {
      Reboot();
      FailPendingSamples();
    }

    method FinishRecovery()
      requires Valid() && Completing(Abs())
      modifies this`stage
      ensures Valid() && Abs() == Step(old(Abs()), Complete) && stage.Serving?
    {
      ReachStep(Abs(), Complete);
      stage := Serving;
      Unmoved();
      Parts(Abs(), Step(old(Abs()), Complete));
    }

    /**
     * A start-up that nothing interrupts.  Afterwards the server serves again, out of a
     * completed recovery of the store as it was found, in which a run that was not skipped
     * was restored if and only if it had a checkpoint and the load went through.
     */
    method RestoreFromCheckpoints(loads: set<F.ModelId>) returns (ghost done: System)
      requires Valid()
      modifies this`jobs, this`stage, futures, runs.Values
      ensures Valid() && runs == old(runs) && stage.Serving?
      ensures Reachable(done) && Completing(done) && Abs() == Step(done, Complete)
      ensures done.stage.rec.start == F.Restarted(old(futures.Abs()))
      ensures Follows(done.stage.rec.plan, Runs(), loads)
    {
      ghost var start := F.Restarted(futures.Abs());
      BeginRecovery();
      DealWithAll(start, loads);
      done := Abs();
      FinishRecovery();
    }
  }

  /** A turn that ran to its end: the run is done with, and in the plan unless it was skipped. */
  ghost predicate TurnTaken(was: Recovery, now: Recovery, m: F.ModelId, skipped: bool, restored: bool) {
    && now.down == was.down && now.start == was.start && now.samples == was.samples && now.turn.Between?
    && now.todo == was.todo - {m}
    && if skipped then now.plan == was.plan
       else m in now.plan && (now.plan[m].Some? <==> restored) && now.plan == was.plan[m := now.plan[m]]
  }

  /** The runs in the plan were restored exactly when they had a checkpoint that loads. */
  ghost predicate Follows(plan: Plan, runs: map<F.ModelId, Run>, loads: set<F.ModelId>) {
    forall m :: m in plan ==> m in runs && (plan[m].Some? <==> runs[m].checkpoints != map[] && m in loads)
  }

  lemma FollowsNext(
    plan: Plan, runs: map<F.ModelId, Run>, later: Plan, runs': map<F.ModelId, Run>, m: F.ModelId, loads: set<F.ModelId>)
    requires Follows(plan, runs, loads) && m in runs' && runs' == runs[m := runs'[m]] && m !in plan
    requires later == plan || (m in later && later == plan[m := later[m]])
    requires m in later ==> (later[m].Some? <==> runs'[m].checkpoints != map[] && m in loads)
    ensures Follows(later, runs', loads)
  {
  }
}
