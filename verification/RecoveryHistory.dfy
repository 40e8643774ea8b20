/** The log, the sequence guard and the distinctness of operations, for every run of the whole server. */
module RecoveryHistory {
  import opened Wrappers
  import F = FutureSpec
  import FT = FutureTheorems
  import opened RunSpec
  import opened RunInvariants
  import opened RunHistory
  import opened RecoverySpec
  import opened RecoveryInvariants

  // One run

  ghost predicate HistoryOk(r: Run) {
    GuardInv(r) && Replayed(r) && Distinct(Ids(r)) && HeadListed(r)
  }

  lemma HistoryStep(r: Run, e: RunEvent)
    requires HistoryOk(r) && RunEnabled(r, e) && !e.Request?
    ensures HistoryOk(RunStep(r, e)) && forall f :: f in Ids(RunStep(r, e)) ==> f in Ids(r)
  {
    GuardStep(r, e);
    ReplayedStep(r, e);
    IdsStep(r, e);
    HeadListedStep(r, e);
    DroppedDistinct(Ids(r), Ids(RunStep(r, e)), |AppliedIds(r.log)|);
  }

  lemma HistoryRequest(r: Run, entry: Entry)
    requires HistoryOk(r) && entry.futureId !in Ids(r) && (entry.work.Load? ==> TakenFrom(entry.work.ckpt, r.log))
    ensures HistoryOk(RunStep(r, Request(entry))) && Ids(RunStep(r, Request(entry))) == Ids(r) + [entry.futureId]
  {
    GuardStep(r, Request(entry));
    ReplayedRequest(r, entry);
    IdsRequest(r, entry);
    HeadListedStep(r, Request(entry));
  }

  lemma HistoryReload(r: Run)
    requires HistoryOk(r)
    ensures HistoryOk(Reloaded(r)) && forall f :: f in Ids(Reloaded(r)) ==> f in Ids(r)
  {
    ReplayedReload(r);
    IdsReload(r);
    var ids, all := Ids(Reloaded(r)), Ids(r);
    assert forall i :: 0 <= i < |ids| ==> ids[i] == all[i];
  }

  lemma HistoryRestore(r: Run, key: CkptKey)
    requires HistoryOk(r) && key in r.checkpoints
    ensures HistoryOk(Restored(r, key)) && Ids(Restored(r, key)) == Ids(r)
  {
    ReplayedRestore(r, key);
    IdsRestore(r, key);
  }

  lemma HistoryOutcome(r: Run, r': Run)
    requires HistoryOk(r) && (r' == LoadFailed(r) || r' == CorruptionSaved(r))
    ensures HistoryOk(r') && Ids(r') == Ids(r)
  {
  }

  lemma {:induction false} ListedIsEffect(log: seq<LogEntry>, f: nat) returns (a: nat)
    requires f in AppliedIds(log)
    ensures a < |log| && log[a] == Applied(f)
  {
    if log[|log| - 1] == Applied(f) {
      a := |log| - 1;
    } else {
      a := ListedIsEffect(log[..|log| - 1], f);
    }
  }

  lemma IdsWithin(r: Run, bound: nat, f: nat)
    requires RunInv(r, bound) && f in Ids(r)
    ensures f <= bound
  {
    if f in AppliedIds(r.log) {
      var a := ListedIsEffect(r.log, f);
    } else {
      var waiting := Unstarted(r);
      var i :| 0 <= i < |waiting| && EntryIds(waiting)[i] == f;
      assert waiting[i] in r.queue;
      var j :| 0 <= j < |r.queue| && r.queue[j] == waiting[i];
      assert Bounded(r.queue[j], bound);
    }
  }

  // The server

  /** The operation behind a job has not been seen by any run. */
  ghost predicate JobFresh(s: System, id: F.RequestId) {
    id in s.futures.records ==> forall m :: m in s.runs ==> s.futures.records[id].futureId !in Ids(s.runs[m])
  }

  ghost predicate Histories(s: System) {
    && (forall m :: m in s.runs ==> HistoryOk(s.runs[m]))
    && (forall id :: id in s.jobs ==> JobFresh(s, id))
  }

  /** One run moves on without taking a new operation. */
  lemma HistoriesRun(s: System, s': System, m: F.ModelId, r: Run)
    requires Histories(s) && HistoryOk(r)
    requires m in s.runs && forall f :: f in Ids(r) ==> f in Ids(s.runs[m])
    requires s'.runs == s.runs[m := r] && s'.futures == s.futures && s'.jobs == s.jobs
    ensures Histories(s')
  {
    forall id | id in s'.jobs ensures JobFresh(s', id) {
      assert JobFresh(s, id);
    }
  }

  lemma HistoriesSubmit(s: System, s': System, id: F.RequestId)
    requires Base(s) && Histories(s) && id !in s.futures.records && id in s'.futures.records
    requires s'.runs == s.runs && s'.jobs.Keys <= s.jobs.Keys + {id}
    requires s'.futures.records[id].futureId == |s.futures.issued| + 1
    requires forall k :: k in s.futures.records ==> k in s'.futures.records && s'.futures.records[k] == s.futures.records[k]
    ensures Histories(s')
  {
    forall k | k in s'.jobs ensures JobFresh(s', k) {
      if k == id {
        forall m | m in s.runs ensures s'.futures.records[id].futureId !in Ids(s.runs[m]) {
          if |s.futures.issued| + 1 in Ids(s.runs[m]) {
            IdsWithin(s.runs[m], |s.futures.issued|, |s.futures.issued| + 1);
          }
        }
      } else {
        assert JobFresh(s, k);
      }
    }
  }

  lemma IdsApart(s: System, a: F.RequestId, b: F.RequestId)
    requires FT.Inv(s.futures) && a in s.futures.records && b in s.futures.records && a != b
    ensures s.futures.records[a].futureId != s.futures.records[b].futureId
  {
    assert FT.RecordOk(s.futures, a) && FT.RecordOk(s.futures, b);
  }

  lemma EntryTakenFrom(s: System, id: F.RequestId)
    requires Histories(s) && ServingEnabled(s, Arrive(id))
    ensures var entry := EntryFor(s, id);
            entry.work.Load? ==> TakenFrom(entry.work.ckpt, s.runs[s.jobs[id].model].log)
  {
    var r := s.runs[s.jobs[id].model];
    assert HistoryOk(r);
  }

  /** The other jobs are for other operations. */
  lemma HistoriesJoin(s: System, s': System, id: F.RequestId, m: F.ModelId, r: Run)
    requires FT.Inv(s.futures) && Histories(s) && HistoryOk(r) && m in s.runs && id in s.futures.records
    requires Ids(r) == Ids(s.runs[m]) + [s.futures.records[id].futureId]
    requires s'.runs == s.runs[m := r] && s'.futures == s.futures && s'.jobs == s.jobs - {id}
    ensures Histories(s')
  {
    forall k | k in s'.jobs ensures JobFresh(s', k) {
      assert JobFresh(s, k);
      if k in s.futures.records {
        IdsApart(s, k, id);
      }
    }
  }

  lemma HistoriesArrive(s: System, id: F.RequestId)
    requires FT.Inv(s.futures) && Histories(s) && ServingEnabled(s, Arrive(id))
    ensures Histories(ServingStep(s, Arrive(id)))
  {
    var m, entry := s.jobs[id].model, EntryFor(s, id);
    assert JobFresh(s, id);
    EntryTakenFrom(s, id);
    HistoryRequest(s.runs[m], entry);
    HistoriesJoin(s, ServingStep(s, Arrive(id)), id, m, RunStep(s.runs[m], Request(entry)));
  }

  lemma HistoriesRecords(s: System, futures: F.State)
    requires Histories(s)
    requires forall id :: id in s.jobs ==>
               (id in futures.records ==>
                  id in s.futures.records && futures.records[id].futureId == s.futures.records[id].futureId)
    ensures Histories(s.(futures := futures))
  {
    forall id | id in s.jobs ensures JobFresh(s.(futures := futures), id) {
      assert JobFresh(s, id);
    }
  }

  lemma HistoriesCreate(s: System, m: F.ModelId)
    requires Histories(s) && m !in s.runs
    ensures Histories(s.(runs := s.runs[m := FRESH]))
  {
    var s' := s.(runs := s.runs[m := FRESH]);
    assert Ids(FRESH) == [];
    forall id | id in s'.jobs ensures JobFresh(s', id) {
      assert JobFresh(s, id);
    }
  }

  lemma HistoriesRunner(s: System, fe: F.Event)
    requires Histories(s) && ServingEnabled(s, Runner(fe))
    ensures Histories(ServingStep(s, Runner(fe)))
  {
    HistoriesRecords(s, F.Step(s.futures, fe));
  }

  lemma HistoriesProgress(s: System, m: F.ModelId, re: RunEvent)
    requires Histories(s) && ServingEnabled(s, Progress(m, re))
    ensures Histories(ServingStep(s, Progress(m, re)))
  {
    HistoryStep(s.runs[m], re);
    HistoriesRun(s, ServingStep(s, Progress(m, re)), m, RunStep(s.runs[m], re));
  }

  lemma HistoriesIssue(s: System, e: Event)
    requires Base(s) && Histories(s) && ServingEnabled(s, e) && (e.Submit? || e.Ready?)
    ensures Histories(ServingStep(s, e))
  {
    HistoriesSubmit(s, ServingStep(s, e), e.id);
  }

  lemma HistoriesServing(s: System, e: Event)
    requires Base(s) && Histories(s) && ServingEnabled(s, e)
    ensures Histories(ServingStep(s, e))
  {
    match e
    case Submit(_, _, _, _, _) => HistoriesIssue(s, e);
    case Ready(_, _, _, _) => HistoriesIssue(s, e);
    case Runner(fe) => HistoriesRunner(s, fe);
    case CreateRun(m) => HistoriesCreate(s, m);
    case Arrive(id) => HistoriesArrive(s, id);
    case Drop(id) => HistoriesDrop(s, id);
    case Progress(m, re) => HistoriesProgress(s, m, re);
  }

  lemma HistoriesDrop(s: System, id: F.RequestId)
    requires Histories(s)
    ensures Histories(s.(jobs := s.jobs - {id}))
  {
    forall k | k in s.jobs - {id} ensures JobFresh(s.(jobs := s.jobs - {id}), k) {
      assert JobFresh(s, k);
    }
  }

  lemma HistoriesRestart(s: System)
    requires Histories(s)
    ensures Histories(Restarted(s))
  {
    forall m | m in s.runs ensures HistoryOk(Reloaded(s.runs[m])) {
      HistoryReload(s.runs[m]);
    }
  }

  lemma HistoriesLoad(s: System, rec: Recovery, m: F.ModelId, pick: Option<CkptKey>, ok: bool)
    requires Histories(s) && s.jobs == map[] && RecoveringEnabled(s, rec, LoadLatest(m, pick, ok))
    ensures Histories(RecoveringStep(s, rec, LoadLatest(m, pick, ok)))
  {
    var s' := RecoveringStep(s, rec, LoadLatest(m, pick, ok));
    if pick.None? {
      assert s'.runs == s.runs[m := s.runs[m]];
    } else if ok {
      HistoryRestore(s.runs[m], pick.value);
    } else {
      HistoryOutcome(s.runs[m], LoadFailed(s.runs[m]));
    }
    HistoriesIdle(s, s', m, s'.runs[m]);
  }

  lemma HistoriesIdle(s: System, s': System, m: F.ModelId, r: Run)
    requires Histories(s) && HistoryOk(r) && s'.runs == s.runs[m := r] && s'.jobs == map[]
    ensures Histories(s')
  {
  }

  lemma HistoriesRecovering(s: System, rec: Recovery, e: Event)
    requires Histories(s) && s.jobs == map[] && RecoveringEnabled(s, rec, e)
    ensures Histories(RecoveringStep(s, rec, e))
  {
    match e
    case LoadLatest(m, pick, ok) => HistoriesLoad(s, rec, m, pick, ok);
    case SaveCorrupted => HistoryOutcome(s.runs[rec.turn.run], CorruptionSaved(s.runs[rec.turn.run]));
    case _ =>
  }
}
