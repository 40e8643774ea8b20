/** From a client's request to the run's lock: what was submitted is what joins the queue. */
module ServerEffects {
  import opened Wrappers
  import F = FutureSpec
  import FT = FutureTheorems
  import opened RunSpec
  import opened RunHistory
  import opened SaveOrder
  import opened RunEffects
  import opened RecoverySpec
  import opened RecoveryTheorems

  /** Nobody crashes, and the job neither reaches its lock nor is given up. */
  ghost predicate JobRests(es: seq<Event>, id: F.RequestId) {
    forall i :: 0 <= i < |es| ==> !es[i].Restart? && es[i] != Arrive(id) && es[i] != Drop(id)
  }

  ghost predicate JobIs(s: System, id: F.RequestId, job: Job, number: nat) {
    && s.stage.Serving? && id in s.jobs && s.jobs[id] == job
    && id in s.futures.records && s.futures.records[id].futureId == number
  }

  lemma RunnerKeepsNumber(s: F.State, fe: F.Event, id: F.RequestId)
    requires F.Enabled(s, fe) && !fe.Restart? && id in s.records
    ensures id in F.Step(s, fe).records && F.Step(s, fe).records[id].futureId == s.records[id].futureId
  {
  }

  lemma JobStays(s: System, e: Event, id: F.RequestId, job: Job, number: nat)
    requires JobIs(s, id, job, number) && Enabled(s, e) && !e.Restart? && e != Arrive(id) && e != Drop(id)
    ensures JobIs(Step(s, e), id, job, number)
  {
    match e
    case Submit(k, user, model, op, _) => RunnerKeepsNumber(s.futures, F.Enqueue(k, user, model, op), id);
    case Ready(k, user, model, payload) => RunnerKeepsNumber(s.futures, F.CreateReady(k, user, model, payload), id);
    case Runner(fe) => RunnerKeepsNumber(s.futures, fe, id);
    case CreateRun(_) =>
    case Arrive(_) =>
    case Drop(_) =>
    case Progress(_, _) =>
  }

  lemma {:induction false} JobStaysRun(s: System, es: seq<Event>, id: F.RequestId, job: Job, number: nat)
    requires JobIs(s, id, job, number) && IsRunOf(s, es) && JobRests(es, id)
    ensures JobIs(AfterAll(s, es), id, job, number)
    decreases |es|
  {
    if es != [] {
      assert !es[0].Restart? && es[0] != Arrive(id) && es[0] != Drop(id) && JobRests(es[1..], id);
      JobStays(s, es[0], id, job, number);
      JobStaysRun(Step(s, es[0]), es[1..], id, job, number);
    }
  }

  /** A save is queued with the latest number given out; a load with the checkpoint under its key. */
  ghost predicate WorkIs(s: System, job: Job, work: Work)
    requires job.model in s.runs && (job.kind.DoLoad? ==> job.kind.key in s.runs[job.model].checkpoints)
  {
    match job.kind
    case DoApply => work == Apply
    case DoSave(key) => work == Save(key, |s.futures.issued|)
    case DoLoad(key) => work == Load(s.runs[job.model].checkpoints[key])
  }

  lemma StampIsLatest(s: System)
    requires Reachable(s)
    ensures F.CurrentFutureId(s.futures) == |s.futures.issued| && s.futures.nextId == |s.futures.issued| + 1
  {
    InvReachable(s);
  }

  /**
   * Whatever happens in between short of a crash: an operation joins the queue of the run it
   * was submitted for, at the back, with the sequence id it came with and under the number
   * it was given, which is one more than all given before.
   */
  lemma JoinsAsSubmitted(
    s: System, id: F.RequestId, user: F.UserId, model: Option<F.ModelId>, op: Option<F.OpType>, job: Job, es: seq<Event>)
    requires Reachable(s) && s.stage.Serving? && Enabled(s, Submit(id, user, model, op, Some(job)))
    requires IsRunOf(Step(s, Submit(id, user, model, op, Some(job))), es) && JobRests(es, id)
    requires Enabled(AfterAll(Step(s, Submit(id, user, model, op, Some(job))), es), Arrive(id))
    ensures var s1 := AfterAll(Step(s, Submit(id, user, model, op, Some(job))), es);
            && job.model in s1.runs
            && var r, r' := s1.runs[job.model], Step(s1, Arrive(id)).runs[job.model];
               && |r'.queue| == |r.queue| + 1 && r'.queue[..|r.queue|] == r.queue
               && r'.queue[|r.queue|].futureId == |s.futures.issued| + 1
               && r'.queue[|r.queue|].seqId == job.seqId
               && (job.kind.DoLoad? ==> job.kind.key in r.checkpoints)
               && WorkIs(s1, job, r'.queue[|r.queue|].work)
               && id !in Step(s1, Arrive(id)).jobs
  {
    var e := Submit(id, user, model, op, Some(job));
    StampIsLatest(s);
    ReachStep(s, e);
    ReachRun(Step(s, e), es);
    JobStaysRun(Step(s, e), es, id, job, |s.futures.issued| + 1);
    StampIsLatest(AfterAll(Step(s, e), es));
  }

  /** A client's load brings back exactly the weights of the moment the checkpoint was captured. */
  lemma ClientLoadRestores(s: System, id: F.RequestId, es: seq<RunEvent>)
    requires Reachable(s) && s.stage.Serving? && Enabled(s, Arrive(id)) && s.jobs[id].kind.DoLoad?
    requires var m := s.jobs[id].model;
             var r := RunStep(s.runs[m], Request(EntryFor(s, id)));
             IsRun(r, es) && Popped(r, es) == |s.runs[m].queue| && RunEnabled(After(r, es), Effect)
    ensures var m := s.jobs[id].model;
            var ckpt := s.runs[m].checkpoints[s.jobs[id].kind.key];
            var r := RunStep(After(RunStep(s.runs[m], Request(EntryFor(s, id))), es), Effect);
            && ckpt.taken < |s.runs[m].log| && s.runs[m].log[ckpt.taken] == Took(ckpt.futureId)
            && r.weights == ckpt.weights == Replay(s.runs[m].log[..ckpt.taken])
  {
    var m := s.jobs[id].model;
    RunReplayed(s, m);
    LoadBringsCheckpoint(s.runs[m], EntryFor(s, id), es);
    assert TakenFrom(s.runs[m].checkpoints[s.jobs[id].kind.key], s.runs[m].log);
  }

  /** A future that was requested and has no job waiting. */
  ghost predicate Jobless(s: System, id: F.RequestId) {
    id in s.futures.records && id !in s.jobs
  }

  lemma KnownKeys(s: System)
    requires Reachable(s)
    ensures s.futures.records.Keys == s.futures.store.Keys && s.jobs.Keys <= s.futures.records.Keys
    ensures s.stage.Recovering? ==> s.jobs == map[]
  {
    InvReachable(s);
  }

  lemma JoblessServing(s: System, e: Event, id: F.RequestId)
    requires Jobless(s, id) && s.stage.Serving? && ServingEnabled(s, e)
    ensures Jobless(ServingStep(s, e), id)
  {
    if e.Runner? {
      RunnerKeepsNumber(s.futures, e.e, id);
    }
  }

  lemma JoblessStep(s: System, e: Event, id: F.RequestId)
    requires Reachable(s) && Jobless(s, id) && Enabled(s, e)
    ensures Jobless(Step(s, e), id)
  {
    KnownKeys(s);
    if !e.Restart? && s.stage.Serving? {
      JoblessServing(s, e, id);
    }
  }

  lemma {:induction false} JoblessRun(s: System, es: seq<Event>, id: F.RequestId)
    requires Reachable(s) && Jobless(s, id) && IsRunOf(s, es)
    ensures Jobless(AfterAll(s, es), id)
    decreases |es|
  {
    if es != [] {
      ReachStep(s, es[0]);
      JoblessStep(s, es[0], id);
      JoblessRun(Step(s, es[0]), es[1..], id);
    }
  }

  /** Whatever happens later, crashes included: a job that was dropped, or has joined its queue, never joins again. */
  lemma JoinsAtMostOnce(s: System, e: Event, id: F.RequestId, es: seq<Event>)
    requires Reachable(s) && (e == Drop(id) || e == Arrive(id)) && Enabled(s, e) && IsRunOf(Step(s, e), es)
    ensures !Enabled(AfterAll(Step(s, e), es), Arrive(id))
  {
    KnownKeys(s);
    ReachStep(s, e);
    JoblessRun(Step(s, e), es, id);
  }
}
