/** What a recovery has made of each run, and how far the store has moved since the server went down. */
module RecoveryOutcomes {
  import opened Wrappers
  import F = FutureSpec
  import FT = FutureTheorems
  import opened RunSpec
  import opened RecoverySpec
  import opened RecoveryStore
  import opened RecoveryProgress

  // The runs

  /** A run dealt with: restored from a latest checkpoint, or with nothing that could be loaded. */
  ghost predicate Planned(r: Run, stamp: Option<nat>, pick: Option<CkptKey>) {
    match stamp
    case Some(futureId) =>
      && !r.corrupted && !r.savedCorrupted && pick.Some? && IsLatest(r.stored, pick.value)
      && r.weights == r.stored[pick.value].weights && futureId == r.stored[pick.value].futureId
    case None =>
      r.weights == [] && (if r.stored == map[] then !r.corrupted else r.corrupted) && r.corrupted == r.savedCorrupted
  }

  function PickIn(rec: Recovery, m: F.ModelId): Option<CkptKey> {
    if m in rec.picks then Some(rec.picks[m]) else None
  }

  /** A run still to do is as it was reloaded, unless its load just failed; a skipped one is corrupted. */
  ghost predicate RunOk(r: Run, m: F.ModelId, rec: Recovery) {
    && r.queue == [] && r.phase.Waiting? && r.checkpoints == r.stored
    && if m in rec.plan then Planned(r, rec.plan[m], PickIn(rec, m))
       else if m !in rec.todo then r.weights == [] && r.corrupted && r.savedCorrupted
       else if rec.turn == Failing(m) then r.weights == [] && r.corrupted && !r.savedCorrupted && r.stored != map[]
       else r.weights == [] && r.corrupted == r.savedCorrupted
  }

  ghost predicate RunsOk(s: System, rec: Recovery) {
    && rec.plan.Keys <= s.runs.Keys && rec.todo <= s.runs.Keys
    && forall m :: m in s.runs ==> RunOk(s.runs[m], m, rec)
  }

  lemma RunsRestarted(s: System)
    ensures RunsOk(Restarted(s), Restarted(s).stage.rec)
  {
  }

  /** One run gets its outcome; the others see no difference. */
  lemma RunsOutcome(s: System, rec: Recovery, m: F.ModelId, r: Run, rec': Recovery)
    requires RunsOk(s, rec) && m in s.runs && RunOk(r, m, rec')
    requires rec'.todo == rec.todo && rec'.plan.Keys <= rec.plan.Keys + {m}
    requires forall n :: n != m ==> (n in rec'.plan <==> n in rec.plan) && (n in rec.plan ==> rec'.plan[n] == rec.plan[n])
    requires forall n :: n != m ==> PickIn(rec', n) == PickIn(rec, n)
    requires forall n :: n != m ==> (rec'.turn == Failing(n) <==> rec.turn == Failing(n))
    ensures RunsOk(s.(runs := s.runs[m := r]), rec')
  {
    forall n | n in s.runs ensures RunOk(s.runs[m := r][n], n, rec') {
      assert RunOk(s.runs[n], n, rec);
    }
  }

  lemma RunsLoad(s: System, rec: Recovery, m: F.ModelId, pick: Option<CkptKey>, ok: bool)
    requires RunsOk(s, rec) && TurnOk(rec) && RecoveringEnabled(s, rec, LoadLatest(m, pick, ok))
    ensures var s' := RecoveringStep(s, rec, LoadLatest(m, pick, ok)); RunsOk(s', s'.stage.rec)
  {
    var s' := RecoveringStep(s, rec, LoadLatest(m, pick, ok));
    assert RunOk(s.runs[m], m, rec);
    assert m !in rec.plan;
    RunsOutcome(s, rec, m, s'.runs[m], s'.stage.rec);
    assert s.runs[m := s'.runs[m]] == s'.runs;
  }

  lemma RunsSaveCorrupted(s: System, rec: Recovery)
    requires RunsOk(s, rec) && TurnOk(rec) && RecoveringEnabled(s, rec, SaveCorrupted)
    ensures var s' := RecoveringStep(s, rec, SaveCorrupted); RunsOk(s', s'.stage.rec)
  {
    var s', m := RecoveringStep(s, rec, SaveCorrupted), rec.turn.run;
    assert RunOk(s.runs[m], m, rec);
    RunsOutcome(s, rec, m, s'.runs[m], s'.stage.rec);
  }

  /** The list of runs gets shorter by one that is planned or skipped. */
  lemma RunsDone(s: System, rec: Recovery, m: F.ModelId, rec': Recovery)
    requires RunsOk(s, rec) && m in s.runs && (m in rec.plan || (s.runs[m].corrupted && !rec.turn.Failing?))
    requires rec' == rec.(todo := rec.todo - {m}, turn := Between) && !rec.turn.Failing?
    ensures RunsOk(s, rec')
  {
    forall n | n in s.runs ensures RunOk(s.runs[n], n, rec') {
      assert RunOk(s.runs[n], n, rec);
    }
  }

  lemma RunsSame(s: System, rec: Recovery, s': System, rec': Recovery)
    requires RunsOk(s, rec) && s'.runs == s.runs && rec'.plan == rec.plan && rec'.picks == rec.picks && rec'.todo == rec.todo
    requires forall m :: rec'.turn == Failing(m) <==> rec.turn == Failing(m)
    ensures RunsOk(s', rec')
  {
    forall n | n in s.runs ensures RunOk(s.runs[n], n, rec') {
      assert RunOk(s.runs[n], n, rec);
    }
  }

  lemma RunsStep(s: System, rec: Recovery, e: Event)
    requires RunsOk(s, rec) && TurnOk(rec) && RecoveringEnabled(s, rec, e) && !e.Complete?
    ensures RecoveringStep(s, rec, e).stage.Recovering?
    ensures RunsOk(RecoveringStep(s, rec, e), RecoveringStep(s, rec, e).stage.rec)
  {
    var s' := RecoveringStep(s, rec, e);
    match e
    case LoadLatest(m, pick, ok) => RunsLoad(s, rec, m, pick, ok);
    case SaveCorrupted => RunsSaveCorrupted(s, rec);
    case EndTurn => RunsDone(s, rec, rec.turn.run, s'.stage.rec);
    case Skip(m) => RunsDone(s, rec, m, s'.stage.rec);
    case MarkSample(_) => RunsSame(s, rec, s', s'.stage.rec);
    case MarkFuture(_) => RunsSame(s, rec, s', s'.stage.rec);
  }

  // Since the server went down

  /** Recovery may fail the run's future numbered f, in this attempt or another. */
  ghost predicate Losable(r: Run, f: nat) {
    || r.savedCorrupted || r.stored == map[]
    || exists k :: IsLatest(r.stored, k) && f > r.stored[k].futureId
  }

  ghost predicate MayFail(runs: map<F.ModelId, Run>, r: F.Record) {
    SampleLost(r) || (r.model.Some? && r.model.value in runs && Losable(runs[r.model.value], r.futureId))
  }

  /** A stored copy after any number of attempts: untouched, or failed with the payload kept. */
  ghost predicate Drifted(down: F.Record, saved: F.Record) {
    && saved.error.Some? && saved.error.value.Cancelled?
    && saved == down.(status := F.Failed, error := saved.error)
  }

  ghost predicate Moved(runs: map<F.ModelId, Run>, r: F.Record, before: F.Record, now: F.Record) {
    now == before || (Drifted(before, now) && MayFail(runs, r))
  }

  ghost predicate AllMoved(futures: F.State, runs: map<F.ModelId, Run>, down: F.State)
    requires down.records.Keys == down.store.Keys == futures.store.Keys
  {
    forall id :: id in down.records ==> Moved(runs, down.records[id], down.store[id], futures.store[id])
  }

  ghost predicate SinceDown(futures: F.State, runs: map<F.ModelId, Run>, down: F.State) {
    && down.records.Keys == down.store.Keys == futures.store.Keys == futures.records.Keys
    && AllMoved(futures, runs, down)
  }

  /** The store as it was when the server went down: consistent, with no runner alive. */
  ghost predicate Quiet(s: F.State) {
    FT.Inv(s) && s.runners == map[]
  }

  /** The store is put away and read again, by a process that sees the same runs. */
  lemma DownReloaded(futures: F.State, runs: map<F.ModelId, Run>, down: F.State)
    requires SinceDown(futures, runs, down)
    ensures SinceDown(F.Restarted(futures), ReloadedRuns(runs), down)
  {
    var later := ReloadedRuns(runs);
    assert F.Restarted(futures).store == futures.store;
    assert F.Restarted(futures).records.Keys == futures.store.Keys;
    forall id | id in down.records ensures Moved(later, down.records[id], down.store[id], futures.store[id]) {
      assert Moved(runs, down.records[id], down.store[id], futures.store[id]);
      if futures.store[id] != down.store[id] {
        MayFailKept(runs, later, down.records[id]);
      }
    }
  }

  lemma DownBegins(futures: F.State, runs: map<F.ModelId, Run>)
    requires FT.Inv(futures)
    ensures SinceDown(F.Restarted(futures), runs, F.Restarted(futures)) && Quiet(F.Restarted(futures))
  {
    FT.InvRestart(futures);
  }

  lemma DownRestarted(s: System)
    requires FT.Inv(s.futures)
    requires s.stage.Recovering? ==> SinceDown(s.futures, s.runs, s.stage.rec.down) && Quiet(s.stage.rec.down)
    ensures var s' := Restarted(s); SinceDown(s'.futures, s'.runs, s'.stage.rec.down) && Quiet(s'.stage.rec.down)
  {
    if s.stage.Recovering? {
      DownReloaded(s.futures, s.runs, s.stage.rec.down);
    } else {
      DownBegins(s.futures, ReloadedRuns(s.runs));
    }
  }

  /** Nothing in a recovery or a restart takes a reason to fail away. */
  lemma MayFailKept(runs: map<F.ModelId, Run>, runs': map<F.ModelId, Run>, r: F.Record)
    requires MayFail(runs, r) && runs.Keys <= runs'.Keys
    requires forall m :: m in runs ==>
               runs'[m].stored == runs[m].stored && (runs[m].savedCorrupted ==> runs'[m].savedCorrupted)
    ensures MayFail(runs', r)
  {
    if !SampleLost(r) {
      var m := r.model.value;
      if !runs[m].savedCorrupted && runs[m].stored != map[] {
        var k :| IsLatest(runs[m].stored, k) && r.futureId > runs[m].stored[k].futureId;
        assert IsLatest(runs'[m].stored, k);
      }
    }
  }

  /** A record now is who it was when the server went down, and pending only if it was. */
  lemma DownRecord(s: System, down: F.State, id: F.RequestId)
    requires SinceDown(s.futures, s.runs, down) && Quiet(s.futures) && Quiet(down) && id in s.futures.records
    ensures id in down.records && FT.SameIdentity(down.records[id], s.futures.records[id])
    ensures SampleLost(s.futures.records[id]) ==> SampleLost(down.records[id])
    ensures s.futures.records[id] == F.Loaded(s.futures.store[id]) && down.records[id] == F.Loaded(down.store[id])
    ensures !down.store[id].signalled
  {
    assert Moved(s.runs, down.records[id], down.store[id], s.futures.store[id]);
    RecordIsLoaded(s.futures, id);
    RecordIsLoaded(down, id);
  }

  /** Failing a record drifts its stored copy. */
  lemma FailedDrifts(
    runs: map<F.ModelId, Run>, down: F.Record, before: F.Record, saved: F.Record, id: F.RequestId, reason: F.Reason)
    requires Moved(runs, down, before, saved) && MayFail(runs, down) && !before.signalled
    ensures Moved(runs, down, before, F.Serialized(F.FailedBy(F.Loaded(saved), id, reason)))
  {
  }

  lemma DownFailed(futures: F.State, runs: map<F.ModelId, Run>, down: F.State, id: F.RequestId, reason: F.Reason)
    requires SinceDown(futures, runs, down) && id in futures.records
    requires futures.records[id] == F.Loaded(futures.store[id]) && !down.store[id].signalled
    requires MayFail(runs, down.records[id])
    ensures SinceDown(WithFailed(futures, id, reason), runs, down)
  {
    var failed := WithFailed(futures, id, reason);
    assert failed.records.Keys == futures.records.Keys && failed.store.Keys == futures.store.Keys;
    forall k | k in down.records ensures Moved(runs, down.records[k], down.store[k], failed.store[k]) {
      assert Moved(runs, down.records[k], down.store[k], futures.store[k]);
      if k == id {
        FailedDrifts(runs, down.records[id], down.store[id], futures.store[id], id, reason);
      }
    }
  }

  lemma DownRuns(futures: F.State, runs: map<F.ModelId, Run>, runs': map<F.ModelId, Run>, down: F.State)
    requires SinceDown(futures, runs, down) && runs.Keys <= runs'.Keys
    requires forall m :: m in runs ==>
               runs'[m].stored == runs[m].stored && (runs[m].savedCorrupted ==> runs'[m].savedCorrupted)
    ensures SinceDown(futures, runs', down)
  {
    forall id | id in down.records ensures Moved(runs', down.records[id], down.store[id], futures.store[id]) {
      assert Moved(runs, down.records[id], down.store[id], futures.store[id]);
      if futures.store[id] != down.store[id] {
        MayFailKept(runs, runs', down.records[id]);
      }
    }
  }

  /** A future that a recovery is about to fail with its run may fail. */
  lemma LostMayFail(s: System, rec: Recovery, id: F.RequestId)
    requires RunsOk(s, rec) && id in rec.start.records && Lost(rec.start.records[id], rec.plan)
    ensures MayFail(s.runs, rec.start.records[id])
  {
    var r := rec.start.records[id];
    assert RunOk(s.runs[r.model.value], r.model.value, rec);
  }

  lemma DownMarkSample(s: System, rec: Recovery, id: F.RequestId)
    requires SinceDown(s.futures, s.runs, rec.down) && Quiet(s.futures) && Quiet(rec.down)
    requires StoreIsMarked(s, rec) && MarksOk(rec) && TurnOk(rec) && RecoveringEnabled(s, rec, MarkSample(id))
    ensures SinceDown(RecoveringStep(s, rec, MarkSample(id)).futures, s.runs, rec.down)
  {
    StartKeys(s, rec);
    assert MarkOk(rec, id, rec.start.records[id]);
    assert id !in rec.marks && s.futures.records[id] == rec.start.records[id];
    DownRecord(s, rec.down, id);
    DownFailed(s.futures, s.runs, rec.down, id, F.SampleLost);
  }

  lemma DownMarkFuture(s: System, rec: Recovery, id: F.RequestId)
    requires SinceDown(s.futures, s.runs, rec.down) && Quiet(s.futures) && Quiet(rec.down)
    requires StoreIsMarked(s, rec) && TurnOk(rec) && RunsOk(s, rec) && RecoveringEnabled(s, rec, MarkFuture(id))
    ensures SinceDown(RecoveringStep(s, rec, MarkFuture(id)).futures, s.runs, rec.down)
  {
    StartKeys(s, rec);
    DownRecord(s, rec.down, id);
    MarkedIdentity(rec, id);
    LostMayFail(s, rec, id);
    var r, down := rec.start.records[id], rec.down.records[id];
    assert FT.SameIdentity(r, down);
    assert RunOk(s.runs[r.model.value], r.model.value, rec);
    assert MayFail(s.runs, down);
    DownFailed(s.futures, s.runs, rec.down, id, ReasonFor(rec.turn.run, rec.plan[rec.turn.run]));
  }

  lemma MarkedIdentity(rec: Recovery, id: F.RequestId)
    requires FT.Inv(rec.start) && rec.start.runners == map[] && id in rec.start.records
    ensures id in Marked(rec.start, rec.marks).records
    ensures FT.SameIdentity(Marked(rec.start, rec.marks).records[id], rec.start.records[id])
  {
    assert FT.RecordOk(rec.start, id);
    MarkedRecord(rec.start, rec.marks, id);
  }

  /** One run's weights or flags change; its saved flag is not taken back, its checkpoints stay. */
  lemma DownRun(s: System, runs: map<F.ModelId, Run>, down: F.State, m: F.ModelId, r: Run)
    requires SinceDown(s.futures, s.runs, down) && m in s.runs && runs == s.runs[m := r]
    requires r.stored == s.runs[m].stored && (s.runs[m].savedCorrupted ==> r.savedCorrupted)
    ensures SinceDown(s.futures, runs, down)
  {
    DownRuns(s.futures, s.runs, runs, down);
  }

  lemma DownSave(s: System, rec: Recovery)
    requires SinceDown(s.futures, s.runs, rec.down) && RunsOk(s, rec) && RecoveringEnabled(s, rec, SaveCorrupted)
    ensures SinceDown(s.futures, RecoveringStep(s, rec, SaveCorrupted).runs, rec.down)
  {
    var m := rec.turn.run;
    assert RunOk(s.runs[m], m, rec);
    DownRun(s, RecoveringStep(s, rec, SaveCorrupted).runs, rec.down, m, CorruptionSaved(s.runs[m]));
  }

  lemma DownLoadLatest(s: System, rec: Recovery, m: F.ModelId, pick: Option<CkptKey>, ok: bool)
    requires SinceDown(s.futures, s.runs, rec.down) && RecoveringEnabled(s, rec, LoadLatest(m, pick, ok))
    ensures SinceDown(s.futures, RecoveringStep(s, rec, LoadLatest(m, pick, ok)).runs, rec.down)
  {
    var runs := RecoveringStep(s, rec, LoadLatest(m, pick, ok)).runs;
    DownRun(s, runs, rec.down, m, runs[m]);
  }

  lemma DownLoad(s: System, rec: Recovery, e: Event)
    requires SinceDown(s.futures, s.runs, rec.down) && RunsOk(s, rec) && RecoveringEnabled(s, rec, e)
    requires e.LoadLatest? || e.SaveCorrupted?
    ensures var s' := RecoveringStep(s, rec, e);
            s'.stage.Recovering? && s'.stage.rec.down == rec.down && SinceDown(s'.futures, s'.runs, rec.down)
  {
    if e.LoadLatest? {
      DownLoadLatest(s, rec, e.run, e.pick, e.ok);
    } else {
      DownSave(s, rec);
    }
  }

  lemma DownStep(s: System, rec: Recovery, e: Event)
    requires SinceDown(s.futures, s.runs, rec.down) && Quiet(s.futures) && Quiet(rec.down)
    requires StoreIsMarked(s, rec) && MarksOk(rec) && TurnOk(rec) && RunsOk(s, rec)
    requires RecoveringEnabled(s, rec, e) && !e.Complete?
    ensures var s' := RecoveringStep(s, rec, e);
            s'.stage.Recovering? && s'.stage.rec.down == rec.down && SinceDown(s'.futures, s'.runs, rec.down)
  {
    match e
    case MarkSample(id) => DownMarkSample(s, rec, id);
    case MarkFuture(id) => DownMarkFuture(s, rec, id);
    case LoadLatest(_, _, _) => DownLoad(s, rec, e);
    case SaveCorrupted => DownLoad(s, rec, e);
    case Skip(_) =>
    case EndTurn =>
  }
}
