/** What recovery does not promise, with the runs that show it. */
module RecoveryLimits {
  import opened Wrappers
  import F = FutureSpec
  import opened RunSpec
  import opened RecoverySpec
  import opened RecoveryStore
  import opened RecoveryTheorems

  lemma Go(s: System, e: Event, s': System)
    requires Reachable(s) && Enabled(s, e) && Step(s, e) == s'
    ensures Reachable(s')
  {
    ReachStep(s, e);
  }

  /** One run moving on its own. */
  lemma GoRun(futures: F.State, r: Run, re: RunEvent)
    requires Reachable(System(futures, map[0 := r], map[], Serving)) && !re.Request? && RunEnabled(r, re)
    ensures Reachable(System(futures, map[0 := RunStep(r, re)], map[], Serving))
  {
    var s := System(futures, map[0 := r], map[], Serving);
    assert s.runs[0 := RunStep(r, re)] == map[0 := RunStep(r, re)];
    Go(s, Progress(0, re), System(futures, map[0 := RunStep(r, re)], map[], Serving));
  }

  const KEY := CkptKey(true, 0)
  const SAVE_JOB := Job(0, None, DoSave(KEY))
  const APPLY_JOB := Job(0, None, DoApply)
  const SAVE_RECORD := F.NewRecord(1, 0, Some(0), Some(F.SaveWeights))
  const APPLY_RECORD := F.NewRecord(2, 0, Some(0), Some(F.OptimStep))

  const ENQUEUED := F.State(
    map[1 := SAVE_RECORD, 2 := APPLY_RECORD], 3, map[1 := SAVE_RECORD, 2 := APPLY_RECORD],
    map[1 := F.Executing, 2 := F.Executing], [1, 2], [])

  const QUEUED := FRESH.(queue := [Entry(1, None, Save(KEY, 2)), Entry(2, None, Apply)])

  const SAVE_ONLY := F.State(
    map[1 := SAVE_RECORD], 2, map[1 := SAVE_RECORD], map[1 := F.Executing], [1], [])

  const SAVING := FRESH.(queue := [Entry(1, None, Save(KEY, 2))])

  lemma SaveEnqueued()
    ensures Reachable(System(SAVE_ONLY, map[0 := FRESH], map[1 := SAVE_JOB], Serving))
  {
    assert IsRunOf(EMPTY, []);
    var s0 := EMPTY.(runs := map[0 := FRESH]);
    assert EMPTY.runs[0 := FRESH] == map[0 := FRESH];
    Go(EMPTY, CreateRun(0), s0);
    Go(s0, Submit(1, 0, Some(0), Some(F.SaveWeights), Some(SAVE_JOB)),
       System(SAVE_ONLY, map[0 := FRESH], map[1 := SAVE_JOB], Serving));
  }

  lemma UpdateEnqueued()
    ensures Reachable(System(ENQUEUED, map[0 := FRESH], map[1 := SAVE_JOB, 2 := APPLY_JOB], Serving))
  {
    SaveEnqueued();
    var s := System(SAVE_ONLY, map[0 := FRESH], map[1 := SAVE_JOB], Serving);
    var e := F.Enqueue(2, 0, Some(0), Some(F.OptimStep));
    assert F.Step(SAVE_ONLY, e) == ENQUEUED;
    Go(s, Submit(2, 0, Some(0), Some(F.OptimStep), Some(APPLY_JOB)),
       System(ENQUEUED, map[0 := FRESH], map[1 := SAVE_JOB, 2 := APPLY_JOB], Serving));
  }

  lemma SaveArrived()
    ensures Reachable(System(ENQUEUED, map[0 := SAVING], map[2 := APPLY_JOB], Serving))
  {
    UpdateEnqueued();
    var s := System(ENQUEUED, map[0 := FRESH], map[1 := SAVE_JOB, 2 := APPLY_JOB], Serving);
    assert RunStep(FRESH, Request(EntryFor(s, 1))) == SAVING;
    assert s.runs[0 := SAVING] == map[0 := SAVING];
    assert s.jobs - {1} == map[2 := APPLY_JOB];
    Go(s, Arrive(1), System(ENQUEUED, map[0 := SAVING], map[2 := APPLY_JOB], Serving));
  }

  /** A save and an update are enqueued; the save reaches the lock first, and is stamped 2. */
  lemma UpdateArrived()
    ensures Reachable(System(ENQUEUED, map[0 := QUEUED], map[], Serving))
  {
    SaveArrived();
    var s := System(ENQUEUED, map[0 := SAVING], map[2 := APPLY_JOB], Serving);
    assert RunStep(SAVING, Request(EntryFor(s, 2))) == QUEUED;
    assert s.runs[0 := QUEUED] == map[0 := QUEUED];
    assert s.jobs - {2} == map[];
    Go(s, Arrive(2), System(ENQUEUED, map[0 := QUEUED], map[], Serving));
  }

  const CHECKPOINT := Checkpoint(2, None, 1, [], 0)

  const SAVED := FRESH.(queue := [Entry(2, None, Apply)], clock := 1, log := [Took(2)],
                        checkpoints := map[KEY := CHECKPOINT], stored := map[KEY := CHECKPOINT])

  const UPDATED := SAVED.(queue := [], clock := 2, weights := [2], log := [Took(2), Applied(2)])

  lemma SaveRuns()
    ensures Reachable(System(ENQUEUED, map[0 := SAVED], map[], Serving))
  {
    UpdateArrived();
    var r1 := QUEUED.(phase := Running(1), clock := 1);
    GoRun(ENQUEUED, QUEUED, Start(1));
    assert RunStep(QUEUED, Start(1)) == r1;
    GoRun(ENQUEUED, r1, Capture);
    var r2 := r1.(phase := Captured(CHECKPOINT), log := [Took(2)]);
    assert RunStep(r1, Capture) == r2;
    GoRun(ENQUEUED, r2, Publish);
    var r3 := r2.(phase := Published(CHECKPOINT), checkpoints := map[KEY := CHECKPOINT]);
    assert RunStep(r2, Publish) == r3;
    GoRun(ENQUEUED, r3, RunEvent.Persist);
    var r4 := r3.(phase := Persisted(CHECKPOINT), stored := map[KEY := CHECKPOINT]);
    assert RunStep(r3, RunEvent.Persist) == r4;
    GoRun(ENQUEUED, r4, Finish(true));
    assert RunStep(r4, Finish(true)) == SAVED;
  }

  lemma UpdateRuns()
    ensures Reachable(System(ENQUEUED, map[0 := UPDATED], map[], Serving))
  {
    SaveRuns();
    var r1 := SAVED.(phase := Running(2), clock := 2);
    GoRun(ENQUEUED, SAVED, Start(2));
    assert RunStep(SAVED, Start(2)) == r1;
    GoRun(ENQUEUED, r1, Effect);
    var r2 := r1.(phase := Affected, weights := [2], log := [Took(2), Applied(2)]);
    assert RunStep(r1, Effect) == r2;
    GoRun(ENQUEUED, r2, Finish(true));
    assert RunStep(r2, Finish(true)) == UPDATED;
  }

  const DONE := APPLY_RECORD.(payload := Some(5), status := F.Ready)

  const ANSWERED := ENQUEUED.(records := map[1 := SAVE_RECORD, 2 := DONE], store := map[1 := SAVE_RECORD, 2 := DONE],
                              runners := map[1 := F.Executing, 2 := F.Saved], departures := [2])

  lemma UpdateAnswered()
    ensures Reachable(System(ANSWERED, map[0 := UPDATED], map[], Serving))
  {
    UpdateRuns();
    var e := F.Complete(2, F.Payload(5));
    var marked := ENQUEUED.(records := map[1 := SAVE_RECORD, 2 := DONE],
                            runners := map[1 := F.Executing, 2 := F.Marked], departures := [2]);
    assert F.Step(ENQUEUED, e) == marked;
    Go(System(ENQUEUED, map[0 := UPDATED], map[], Serving), Runner(e), System(marked, map[0 := UPDATED], map[], Serving));
    assert F.Step(marked, F.Persist(2)) == ANSWERED;
    Go(System(marked, map[0 := UPDATED], map[], Serving), Runner(F.Persist(2)),
       System(ANSWERED, map[0 := UPDATED], map[], Serving));
  }

  const BEFORE := System(ANSWERED, map[0 := UPDATED], map[], Serving)

  /** What a new process loads: the save's future still pending, the update's ready. */
  const RELOADED := F.State(
    map[1 := SAVE_RECORD, 2 := DONE.(signalled := true)], 3, map[1 := SAVE_RECORD, 2 := DONE], map[], [1, 2], [2])

  lemma ReloadedStore()
    ensures F.Restarted(ANSWERED) == RELOADED && F.PendingSamples(RELOADED) == {}
  {
    var next, store := F.NextAfter(ANSWERED.store), ANSWERED.store;
    assert 2 in store && store[2].futureId == 2 && store[1].futureId == 1;
    assert F.IsNext(next, store);
    assert next == 3;
    assert F.Restarted(ANSWERED).records == RELOADED.records;
  }

  /** A recovery of the one run, which has not been looked at yet. */
  ghost function Begun(r: Run, down: F.State): System {
    System(RELOADED, map[0 := r], map[], Recovering(Recovery(down, RELOADED, map[], {}, {0}, Between, map[], map[])))
  }

  lemma Down()
    ensures Reachable(Begun(Reloaded(UPDATED), RELOADED))
  {
    UpdateAnswered();
    ReloadedStore();
    assert ReloadedRuns(BEFORE.runs) == map[0 := Reloaded(UPDATED)];
    assert BEFORE.runs.Keys == {0};
    Go(BEFORE, Restart, Begun(Reloaded(UPDATED), RELOADED));
  }

  lemma KeyIsLatest(r: Run)
    requires r.checkpoints == map[KEY := CHECKPOINT]
    ensures IsLatest(r.checkpoints, KEY) && r.checkpoints != map[]
  {
    assert KEY in r.checkpoints;
  }

  /** Both futures of the run are numbered within the stamp. */
  lemma NoneLost()
    ensures LostOf(RELOADED, 0, Some(2)) == {}
    ensures LostOf(RELOADED, 0, None) == {1, 2}
  {
  }

  ghost function Turned(r: Run, todo: set<F.ModelId>, turn: Turn, plan: Plan, picks: map<F.ModelId, CkptKey>): System {
    System(RELOADED, map[0 := r], map[], Recovering(Recovery(RELOADED, RELOADED, map[], {}, todo, turn, plan, picks)))
  }

  ghost const PLAN: Plan := map[0 := Some(2)]
  ghost const PICKS := map[0 := KEY]
  ghost const RESTORED := Restored(Reloaded(UPDATED), KEY)

  lemma LoadSucceeds()
    ensures Reachable(Turned(RESTORED, {0}, Marking(0, {}), PLAN, PICKS))
  {
    Down();
    KeyIsLatest(Reloaded(UPDATED));
    NoneLost();
    var s := Begun(Reloaded(UPDATED), RELOADED);
    assert s.runs[0 := RESTORED] == map[0 := RESTORED];
    Go(s, LoadLatest(0, Some(KEY), true), Turned(RESTORED, {0}, Marking(0, {}), PLAN, PICKS));
  }

  lemma RecoveryEnds()
    ensures Reachable(Turned(RESTORED, {}, Between, PLAN, PICKS))
  {
    LoadSucceeds();
    var none: set<F.ModelId> := {};
    assert {0} - {0} == none;
    Go(Turned(RESTORED, {0}, Marking(0, {}), PLAN, PICKS), EndTurn, Turned(RESTORED, {}, Between, PLAN, PICKS));
  }

  /**
   * The converse of safe retry fails: an update numbered no later than the stamp, but
   * queued behind the save, stays ready after a completed recovery although the restored
   * weights lack it.  The save's own future stays pending with no runner.
   */
  lemma ReadyButLost() returns (before: System, s: System)
    ensures Reachable(before) && before.stage.Serving? && 0 in before.runs && 2 in before.runs[0].weights
    ensures Reachable(s) && Completing(s) && 0 in s.runs && !s.runs[0].corrupted && 2 !in s.runs[0].weights
    ensures 2 in s.futures.records && s.futures.records[2].status == F.Ready
    ensures s.futures.records[2].futureId == 2 && s.futures.records[2].op == Some(F.OptimStep)
    ensures 1 in s.futures.records && s.futures.records[1].status == F.Pending && s.futures.runners == map[]
  {
    UpdateAnswered();
    RecoveryEnds();
    before, s := BEFORE, Turned(RESTORED, {}, Between, PLAN, PICKS);
  }

  /** The run after its load failed and that was saved. */
  ghost const BROKEN := CorruptionSaved(LoadFailed(Reloaded(UPDATED)))

  lemma LoadFails()
    ensures Reachable(Turned(LoadFailed(Reloaded(UPDATED)), {0}, Failing(0), map[], map[]))
  {
    Down();
    var r := Reloaded(UPDATED);
    KeyIsLatest(r);
    assert map[0 := r][0 := LoadFailed(r)] == map[0 := LoadFailed(r)];
    Go(Begun(r, RELOADED), LoadLatest(0, Some(KEY), false), Turned(LoadFailed(r), {0}, Failing(0), map[], map[]));
  }

  lemma CorruptionIsSaved()
    ensures Reachable(Turned(BROKEN, {0}, Marking(0, {1, 2}), map[0 := None], map[]))
  {
    LoadFails();
    NoneLost();
    var r := LoadFailed(Reloaded(UPDATED));
    assert map[0 := r][0 := BROKEN] == map[0 := BROKEN];
    Go(Turned(r, {0}, Failing(0), map[], map[]), SaveCorrupted,
       Turned(BROKEN, {0}, Marking(0, {1, 2}), map[0 := None], map[]));
  }

  lemma AgainReloaded()
    ensures F.Restarted(RELOADED) == RELOADED && F.PendingSamples(RELOADED) == {}
  {
    var next, store := F.NextAfter(RELOADED.store), RELOADED.store;
    assert 2 in store && store[2].futureId == 2 && store[1].futureId == 1;
    assert F.IsNext(next, store);
    assert next == 3;
    assert F.Restarted(RELOADED).records == RELOADED.records;
  }

  lemma DownAgain()
    ensures Reachable(Turned(Reloaded(BROKEN), {0}, Between, map[], map[]))
  {
    CorruptionIsSaved();
    AgainReloaded();
    var s := Turned(BROKEN, {0}, Marking(0, {1, 2}), map[0 := None], map[]);
    assert ReloadedRuns(s.runs) == map[0 := Reloaded(BROKEN)];
    assert s.runs.Keys == {0};
    Go(s, Restart, Turned(Reloaded(BROKEN), {0}, Between, map[], map[]));
  }

  lemma RunIsSkipped()
    ensures Reachable(Turned(Reloaded(BROKEN), {}, Between, map[], map[]))
  {
    DownAgain();
    var none: set<F.ModelId> := {};
    assert {0} - {0} == none;
    Go(Turned(Reloaded(BROKEN), {0}, Between, map[], map[]), Skip(0), Turned(Reloaded(BROKEN), {}, Between, map[], map[]));
  }

  /**
   * A crash between saving that a load failed and failing the run's futures: the next
   * recovery skips the run, and completes with its futures ready over lost weights and
   * pending with no runner.
   */
  lemma CorruptedButNotFailed() returns (s: System)
    ensures Reachable(s) && Completing(s) && 0 in s.runs && s.runs[0].corrupted && s.runs[0].weights == []
    ensures 2 in s.futures.records && s.futures.records[2].model == Some(0) && s.futures.records[2].status == F.Ready
    ensures 1 in s.futures.records && s.futures.records[1].model == Some(0) && s.futures.records[1].status == F.Pending
    ensures s.futures.runners == map[]
  {
    RunIsSkipped();
    s := Turned(Reloaded(BROKEN), {}, Between, map[], map[]);
  }
}
