/** What every reachable state of the server satisfies, in service and at every point of a recovery. */
module RecoveryInvariants {
  import opened Wrappers
  import F = FutureSpec
  import FT = FutureTheorems
  import opened RunSpec
  import opened RunInvariants
  import opened RecoverySpec
  import opened RecoveryStore

  // The store and the runs, at any time

  ghost predicate Base(s: System) {
    && FT.Inv(s.futures)
    && s.jobs.Keys <= s.futures.records.Keys
    && (forall m :: m in s.runs ==> RunInv(s.runs[m], |s.futures.issued|))
    && (s.stage.Recovering? ==> s.futures.runners == map[] && s.jobs == map[])
  }

  lemma RunInvMonotone(r: Run, low: nat, high: nat)
    requires RunInv(r, low) && low <= high
    ensures RunInv(r, high)
  {
    WithinMonotone(r, low, high);
  }

  lemma RunsMonotone(runs: map<F.ModelId, Run>, low: nat, high: nat)
    requires low <= high && forall m :: m in runs ==> RunInv(runs[m], low)
    ensures forall m :: m in runs ==> RunInv(runs[m], high)
  {
    forall m | m in runs ensures RunInv(runs[m], high) {
      RunInvMonotone(runs[m], low, high);
    }
  }

  lemma LoadIsBounded(r: Run, key: CkptKey, bound: nat)
    requires RunInv(r, bound) && key in r.checkpoints
    ensures Below(r.checkpoints[key], bound)
  {
  }

  lemma NumberIssued(futures: F.State, id: F.RequestId)
    requires FT.Inv(futures) && id in futures.records
    ensures futures.records[id].futureId <= |futures.issued| == F.CurrentFutureId(futures)
  {
    assert FT.RecordOk(futures, id);
  }

  /** The entry a coroutine queues is numbered within what was issued; a save is stamped with all of it. */
  lemma EntryBounded(s: System, id: F.RequestId)
    requires id in s.jobs && id in s.futures.records && s.jobs[id].model in s.runs
    requires FT.Inv(s.futures) && RunInv(s.runs[s.jobs[id].model], |s.futures.issued|)
    requires s.jobs[id].kind.DoLoad? ==> s.jobs[id].kind.key in s.runs[s.jobs[id].model].checkpoints
    ensures var entry := EntryFor(s, id);
            && Bounded(entry, |s.futures.issued|)
            && (entry.work.Save? ==> entry.work.stamp == |s.futures.issued|)
  {
    NumberIssued(s.futures, id);
    if s.jobs[id].kind.DoLoad? {
      LoadIsBounded(s.runs[s.jobs[id].model], s.jobs[id].kind.key, |s.futures.issued|);
    }
  }

  /** A new future: every run stays within the grown range of ids. */
  lemma IssueKeeps(s: System, fe: F.Event, jobs: map<F.RequestId, Job>)
    requires Base(s) && s.stage.Serving? && (fe.Enqueue? || fe.CreateReady?) && F.Enabled(s.futures, fe)
    requires jobs.Keys <= s.jobs.Keys + {fe.id}
    ensures Base(s.(futures := F.Step(s.futures, fe), jobs := jobs))
  {
    FT.InvStep(s.futures, fe);
    RunsMonotone(s.runs, |s.futures.issued|, |s.futures.issued| + 1);
  }

  lemma RunnerKeeps(s: System, fe: F.Event)
    requires Base(s) && s.stage.Serving? && ServingEnabled(s, Runner(fe))
    ensures Base(ServingStep(s, Runner(fe)))
  {
    FT.InvStep(s.futures, fe);
    assert F.Step(s.futures, fe).records.Keys == s.futures.records.Keys;
  }

  lemma RunsKeep(s: System, s': System, m: F.ModelId, r: Run)
    requires Base(s) && RunInv(r, |s.futures.issued|)
    requires s'.futures == s.futures && s'.runs == s.runs[m := r] && s'.jobs.Keys <= s.jobs.Keys
    requires s'.stage.Recovering? ==> s.stage.Recovering?
    ensures Base(s')
  {
    assert s'.stage.Recovering? ==> s'.jobs.Keys == {};
  }

  lemma ArriveKeeps(s: System, id: F.RequestId)
    requires Base(s) && s.stage.Serving? && ServingEnabled(s, Arrive(id))
    ensures Base(ServingStep(s, Arrive(id)))
  {
    var m, entry := s.jobs[id].model, EntryFor(s, id);
    EntryBounded(s, id);
    RunInvRequest(s.runs[m], entry, |s.futures.issued|);
    RunsKeep(s, ServingStep(s, Arrive(id)), m, RunStep(s.runs[m], Request(entry)));
  }

  lemma ProgressKeeps(s: System, m: F.ModelId, re: RunEvent)
    requires Base(s) && s.stage.Serving? && ServingEnabled(s, Progress(m, re))
    ensures Base(ServingStep(s, Progress(m, re)))
  {
    RunInvStep(s.runs[m], re, |s.futures.issued|);
    RunsKeep(s, ServingStep(s, Progress(m, re)), m, RunStep(s.runs[m], re));
  }

  lemma BaseServing(s: System, e: Event)
    requires Base(s) && s.stage.Serving? && ServingEnabled(s, e)
    ensures Base(ServingStep(s, e))
  {
    var s' := ServingStep(s, e);
    match e
    case Submit(id, user, model, op, job) => IssueKeeps(s, F.Enqueue(id, user, model, op), s'.jobs);
    case Ready(id, user, model, payload) => IssueKeeps(s, F.CreateReady(id, user, model, payload), s.jobs);
    case Runner(fe) => RunnerKeeps(s, fe);
    case CreateRun(m) => RunsKeep(s, s', m, FRESH);
    case Arrive(id) => ArriveKeeps(s, id);
    case Drop(id) =>
    case Progress(m, re) => ProgressKeeps(s, m, re);
  }

  lemma BaseRestart(s: System)
    requires Base(s)
    ensures Base(Restarted(s))
  {
    FT.InvRestart(s.futures);
    var runs, bound := ReloadedRuns(s.runs), |s.futures.issued|;
    forall m | m in runs ensures RunInv(runs[m], bound) {
      RunInvReload(s.runs[m], bound);
    }
  }

  lemma BaseFail(s: System, rec: Recovery, id: F.RequestId, reason: F.Reason)
    requires Base(s) && s.stage.Recovering? && id in s.futures.records
    ensures Base(FailOne(s, rec, id, reason))
  {
    WithFailedInv(s.futures, id, reason);
  }

  /** Loading a checkpoint, noticing that it fails, and saving that change no queue or map. */
  lemma RunInvOutcome(r: Run, r': Run, bound: nat)
    requires RunInv(r, bound)
    requires r' == LoadFailed(r) || r' == CorruptionSaved(r)
    ensures RunInv(r', bound)
  {
    forall j | 0 <= j < |r'.queue| && r'.queue[j].work.Save? ensures StampCovers(r', j) {
      assert StampCovers(r, j);
    }
  }

  lemma BaseLoad(s: System, rec: Recovery, m: F.ModelId, pick: Option<CkptKey>, ok: bool)
    requires Base(s) && s.stage == Recovering(rec) && RecoveringEnabled(s, rec, LoadLatest(m, pick, ok))
    requires s.runs[m].queue == []
    ensures Base(RecoveringStep(s, rec, LoadLatest(m, pick, ok)))
  {
    var s', r, bound := RecoveringStep(s, rec, LoadLatest(m, pick, ok)), s.runs[m], |s.futures.issued|;
    if pick.None? {
      RunsKeep(s, s', m, r);
    } else if ok {
      RunInvRestore(r, pick.value, bound);
      RunsKeep(s, s', m, Restored(r, pick.value));
    } else {
      RunInvOutcome(r, LoadFailed(r), bound);
      RunsKeep(s, s', m, LoadFailed(r));
    }
  }

  lemma BaseRecovering(s: System, rec: Recovery, e: Event)
    requires Base(s) && s.stage == Recovering(rec) && RecoveringEnabled(s, rec, e)
    requires forall m :: m in s.runs ==> s.runs[m].queue == []
    ensures Base(RecoveringStep(s, rec, e))
  {
    match e
    case MarkSample(id) => BaseFail(s, rec.(samples := rec.samples - {id}), id, F.SampleLost);
    case MarkFuture(id) =>
      BaseFail(s, rec.(turn := Marking(rec.turn.run, rec.turn.left - {id})), id,
               ReasonFor(rec.turn.run, rec.plan[rec.turn.run]));
    case LoadLatest(m, pick, ok) => BaseLoad(s, rec, m, pick, ok);
    case SaveCorrupted =>
      var m := rec.turn.run;
      RunInvOutcome(s.runs[m], CorruptionSaved(s.runs[m]), |s.futures.issued|);
      RunsKeep(s, RecoveringStep(s, rec, e), m, CorruptionSaved(s.runs[m]));
    case _ =>
  }
}
