/** How far a recovery has come: which records it has failed and what it made of each run. */
module RecoveryProgress {
  import opened Wrappers
  import F = FutureSpec
  import FT = FutureTheorems
  import opened RunSpec
  import opened RecoverySpec
  import opened RecoveryStore

  // The store

  /** The store is what this process loaded, with the marked records failed. */
  ghost predicate StoreIsMarked(s: System, rec: Recovery) {
    && FT.Inv(rec.start) && rec.start.runners == map[]
    && rec.marks.Keys <= rec.start.records.Keys
    && s.futures == Marked(rec.start, rec.marks)
  }

  lemma StartKeys(s: System, rec: Recovery)
    requires StoreIsMarked(s, rec)
    ensures s.futures.records.Keys == rec.start.records.Keys == rec.start.store.Keys == s.futures.store.Keys
  {
  }

  lemma StoreRestarted(s: System)
    requires FT.Inv(s.futures)
    ensures StoreIsMarked(Restarted(s), Restarted(s).stage.rec)
  {
    FT.InvRestart(s.futures);
    MarkedNothing(F.Restarted(s.futures));
  }

  lemma StoreFailed(s: System, rec: Recovery, rec': Recovery, id: F.RequestId, reason: F.Reason)
    requires StoreIsMarked(s, rec) && id in s.futures.records
    requires rec'.start == rec.start && rec'.marks == rec.marks
    ensures StoreIsMarked(FailOne(s, rec', id, reason), FailOne(s, rec', id, reason).stage.rec)
  {
    StartKeys(s, rec);
    MarkMore(rec.start, rec.marks, id, reason);
  }

  lemma StoreStep(s: System, rec: Recovery, e: Event)
    requires StoreIsMarked(s, rec) && RecoveringEnabled(s, rec, e) && !e.Complete?
    ensures RecoveringStep(s, rec, e).stage.Recovering?
    ensures StoreIsMarked(RecoveringStep(s, rec, e), RecoveringStep(s, rec, e).stage.rec)
  {
    match e
    case MarkSample(id) => StoreFailed(s, rec, rec.(samples := rec.samples - {id}), id, F.SampleLost);
    case MarkFuture(id) =>
      StoreFailed(s, rec, rec.(turn := Marking(rec.turn.run, rec.turn.left - {id})), id,
                  ReasonFor(rec.turn.run, rec.plan[rec.turn.run]));
    case Skip(_) =>
    case LoadLatest(_, _, _) =>
    case SaveCorrupted =>
    case EndTurn =>
  }

  // The marks

  ghost predicate Left(rec: Recovery, id: F.RequestId) {
    rec.turn.Marking? && id in rec.turn.left
  }

  /** A loaded record is marked when its turn has come: as a lost sample, then with its run. */
  ghost predicate MarkOk(rec: Recovery, id: F.RequestId, r: F.Record) {
    var withRun := Lost(r, rec.plan) && !Left(rec, id);
    && (id in rec.marks <==> (SampleLost(r) && id !in rec.samples) || withRun)
    && (id in rec.marks ==>
          rec.marks[id] == if withRun then ReasonFor(r.model.value, rec.plan[r.model.value]) else F.SampleLost)
  }

  ghost predicate MarksOk(rec: Recovery) {
    forall id :: id in rec.start.records ==> MarkOk(rec, id, rec.start.records[id])
  }

  /** The current run is planned and still to do; no other planned run is. */
  ghost predicate TurnOk(rec: Recovery) {
    && rec.samples <= F.PendingSamples(rec.start)
    && (rec.samples != {} ==> rec.turn.Between? && rec.plan == map[])
    && (rec.turn.Failing? ==> rec.turn.run in rec.todo && rec.turn.run !in rec.plan)
    && (rec.turn.Marking? ==>
          && rec.turn.run in rec.todo && rec.turn.run in rec.plan
          && rec.turn.left <= LostOf(rec.start, rec.turn.run, rec.plan[rec.turn.run]))
    && (forall m :: m in rec.plan && m in rec.todo ==> rec.turn.Marking? && rec.turn.run == m)
  }

  lemma MarksRestarted(s: System)
    ensures MarksOk(Restarted(s).stage.rec) && TurnOk(Restarted(s).stage.rec)
  {
  }

  /** The records of a run to fail are the same in the store as it was loaded and as it is now. */
  lemma SameLost(s: System, rec: Recovery, m: F.ModelId, stamp: Option<nat>)
    requires StoreIsMarked(s, rec)
    ensures LostOf(s.futures, m, stamp) == LostOf(rec.start, m, stamp)
  {
    StartKeys(s, rec);
    forall id | id in rec.start.records
      ensures s.futures.records[id].model == rec.start.records[id].model
      ensures s.futures.records[id].futureId == rec.start.records[id].futureId
    {
      assert FT.RecordOk(rec.start, id);
      MarkedRecord(rec.start, rec.marks, id);
    }
  }

  lemma MarkOneSample(rec: Recovery, rec': Recovery, id: F.RequestId, k: F.RequestId, r: F.Record)
    requires MarkOk(rec, k, r) && id in rec.samples && (k == id ==> SampleLost(r))
    requires rec.plan == map[]
    requires rec' == rec.(samples := rec.samples - {id}, marks := rec.marks[id := F.SampleLost])
    ensures MarkOk(rec', k, r)
  {
  }

  lemma MarksSample(s: System, rec: Recovery, id: F.RequestId)
    requires StoreIsMarked(s, rec) && MarksOk(rec) && TurnOk(rec) && RecoveringEnabled(s, rec, MarkSample(id))
    ensures var rec' := RecoveringStep(s, rec, MarkSample(id)).stage.rec; MarksOk(rec') && TurnOk(rec')
  {
    var rec' := RecoveringStep(s, rec, MarkSample(id)).stage.rec;
    forall k | k in rec'.start.records ensures MarkOk(rec', k, rec'.start.records[k]) {
      MarkOneSample(rec, rec', id, k, rec.start.records[k]);
    }
  }

  lemma MarkOneFuture(rec: Recovery, rec': Recovery, id: F.RequestId, k: F.RequestId, r: F.Record)
    requires MarkOk(rec, k, r) && rec.turn.Marking? && rec.turn.run in rec.plan && id in rec.turn.left
    requires k == id ==> Lost(r, rec.plan) && r.model == Some(rec.turn.run)
    requires rec' == rec.(turn := Marking(rec.turn.run, rec.turn.left - {id}),
                          marks := rec.marks[id := ReasonFor(rec.turn.run, rec.plan[rec.turn.run])])
    ensures MarkOk(rec', k, r)
  {
  }

  lemma MarksFuture(s: System, rec: Recovery, id: F.RequestId)
    requires StoreIsMarked(s, rec) && MarksOk(rec) && TurnOk(rec) && RecoveringEnabled(s, rec, MarkFuture(id))
    ensures var rec' := RecoveringStep(s, rec, MarkFuture(id)).stage.rec; MarksOk(rec') && TurnOk(rec')
  {
    var rec', m := RecoveringStep(s, rec, MarkFuture(id)).stage.rec, rec.turn.run;
    forall k | k in rec'.start.records ensures MarkOk(rec', k, rec'.start.records[k]) {
      MarkOneFuture(rec, rec', id, k, rec.start.records[k]);
    }
  }

  /** A run's outcome becomes known: all its lost futures are left to mark. */
  lemma MarksBegin(s: System, rec: Recovery, m: F.ModelId, stamp: Option<nat>, rec': Recovery)
    requires StoreIsMarked(s, rec) && MarksOk(rec) && TurnOk(rec)
    requires !rec.turn.Marking? && m in rec.todo && m !in rec.plan && rec.samples == {}
    requires rec' == rec.(turn := Marking(m, LostOf(s.futures, m, stamp)), plan := rec.plan[m := stamp], picks := rec'.picks)
    ensures MarksOk(rec') && TurnOk(rec')
  {
    SameLost(s, rec, m, stamp);
    forall k | k in rec'.start.records ensures MarkOk(rec', k, rec'.start.records[k]) {
      var r := rec.start.records[k];
      assert MarkOk(rec, k, r);
      assert k in rec'.turn.left <==> r.model == Some(m) && (stamp.None? || r.futureId > stamp.value);
    }
  }

  lemma MarksEnd(s: System, rec: Recovery)
    requires MarksOk(rec) && TurnOk(rec) && RecoveringEnabled(s, rec, EndTurn)
    ensures var rec' := RecoveringStep(s, rec, EndTurn).stage.rec; MarksOk(rec') && TurnOk(rec')
  {
    var rec' := RecoveringStep(s, rec, EndTurn).stage.rec;
    forall k | k in rec'.start.records ensures MarkOk(rec', k, rec'.start.records[k]) {
      assert MarkOk(rec, k, rec.start.records[k]);
    }
  }

  /** Only the turn or the list of runs changes, and nobody is being marked. */
  lemma MarksElse(rec: Recovery, rec': Recovery)
    requires MarksOk(rec) && TurnOk(rec) && !rec.turn.Marking? && !rec'.turn.Marking?
    requires rec' == rec.(turn := rec'.turn, todo := rec'.todo) && rec'.todo <= rec.todo
    requires rec'.turn.Failing? ==> rec'.turn.run in rec'.todo && rec'.turn.run !in rec.plan && rec.samples == {}
    ensures MarksOk(rec') && TurnOk(rec')
  {
    forall k | k in rec'.start.records ensures MarkOk(rec', k, rec'.start.records[k]) {
      assert MarkOk(rec, k, rec.start.records[k]);
    }
  }

  lemma MarksLoad(s: System, rec: Recovery, m: F.ModelId, pick: Option<CkptKey>, ok: bool)
    requires StoreIsMarked(s, rec) && MarksOk(rec) && TurnOk(rec)
    requires RecoveringEnabled(s, rec, LoadLatest(m, pick, ok))
    ensures var rec' := RecoveringStep(s, rec, LoadLatest(m, pick, ok)).stage.rec; MarksOk(rec') && TurnOk(rec')
  {
    var rec' := RecoveringStep(s, rec, LoadLatest(m, pick, ok)).stage.rec;
    assert m !in rec.plan;
    if pick.None? {
      MarksBegin(s, rec, m, None, rec');
    } else if ok {
      MarksBegin(s, rec, m, Some(s.runs[m].checkpoints[pick.value].futureId), rec');
    } else {
      MarksElse(rec, rec');
    }
  }

  lemma MarksStep(s: System, rec: Recovery, e: Event)
    requires StoreIsMarked(s, rec) && MarksOk(rec) && TurnOk(rec) && RecoveringEnabled(s, rec, e) && !e.Complete?
    ensures RecoveringStep(s, rec, e).stage.Recovering?
    ensures MarksOk(RecoveringStep(s, rec, e).stage.rec) && TurnOk(RecoveringStep(s, rec, e).stage.rec)
  {
    match e
    case MarkSample(id) => MarksSample(s, rec, id);
    case MarkFuture(id) => MarksFuture(s, rec, id);
    case LoadLatest(m, pick, ok) => MarksLoad(s, rec, m, pick, ok);
    case SaveCorrupted => MarksBegin(s, rec, rec.turn.run, None, RecoveringStep(s, rec, e).stage.rec);
    case EndTurn => MarksEnd(s, rec);
    case Skip(m) => MarksElse(rec, RecoveringStep(s, rec, e).stage.rec);
  }
}
