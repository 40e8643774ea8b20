/**
 * The server across crashes: the future store, the training runs, and the recovery that
 * loads each run's latest checkpoint and fails the futures numbered after it.  Recovery is
 * a sequence of steps like everything else, so a crash may interrupt it anywhere.
 */
module RecoverySpec {
  import opened Wrappers
  import F = FutureSpec
  import opened RunSpec

  /** What to do once a queued operation's coroutine reaches the run's lock. */
  datatype Kind = DoApply | DoSave(key: CkptKey) | DoLoad(key: CkptKey)

  datatype Job = Job(model: F.ModelId, seqId: Option<int>, kind: Kind)

  // Which futures recovery fails

  /** For each run dealt with: the stamp of the checkpoint that was loaded, or None. */
  type Plan = map<F.ModelId, Option<nat>>

  ghost predicate Lost(r: F.Record, plan: Plan) {
    && r.model.Some? && r.model.value in plan
    && (plan[r.model.value].None? || r.futureId > plan[r.model.value].value)
  }

  ghost predicate SampleLost(r: F.Record) {
    r.status == F.Pending && r.op == Some(F.Sample)
  }

  ghost predicate Changed(r: F.Record, plan: Plan) {
    Lost(r, plan) || SampleLost(r)
  }

  function ReasonFor(model: F.ModelId, stamp: Option<nat>): F.Reason {
    match stamp
    case None => F.NoCheckpoint(model)
    case Some(futureId) => F.RestoredFrom(futureId)
  }

  /** Recovery fails some records, each for a reason; the others stay as they were loaded. */
  type Marks = map<F.RequestId, F.Reason>

  ghost function Marked(s: F.State, marks: Marks): F.State {
    s.(records := map id | id in s.records ::
                    if id in marks then F.FailedBy(s.records[id], id, marks[id]) else s.records[id],
       store := map id | id in s.store ::
                  if id in marks && id in s.records then F.Serialized(F.FailedBy(s.records[id], id, marks[id]))
                  else s.store[id])
  }

  // Stages

  /** A run whose load failed and whose flag is not saved yet, or whose futures are being failed. */
  datatype Turn = Between | Failing(run: F.ModelId) | Marking(run: F.ModelId, left: set<F.RequestId>)

  /**
   * Recovery under way: the store as it was when the server went down and as this process
   * loaded it, what has been failed since, the samples left to fail, the runs left to deal
   * with, the current one, and the outcomes so far.
   */
  datatype Recovery = Recovery(
    down: F.State,
    start: F.State,
    marks: Marks,
    samples: set<F.RequestId>,
    todo: set<F.ModelId>,
    turn: Turn,
    plan: Plan,
    picks: map<F.ModelId, CkptKey>)

  datatype Stage = Serving | Recovering(rec: Recovery)

  /** `jobs` holds the operations whose coroutine has not reached its lock yet. */
  datatype System = System(
    futures: F.State,
    runs: map<F.ModelId, Run>,
    jobs: map<F.RequestId, Job>,
    stage: Stage)

  datatype Event =
    // while serving
    | Submit(id: F.RequestId, user: F.UserId, model: Option<F.ModelId>, op: Option<F.OpType>, job: Option<Job>)
    | Ready(id: F.RequestId, user: F.UserId, model: Option<F.ModelId>, payload: int)
    | Runner(e: F.Event)
    | CreateRun(run: F.ModelId)
    | Arrive(id: F.RequestId)
    | Drop(id: F.RequestId)
    | Progress(run: F.ModelId, step: RunEvent)
    // at any time
    | Restart
    // while recovering
    | MarkSample(id: F.RequestId)
    | Skip(run: F.ModelId)
    | LoadLatest(run: F.ModelId, pick: Option<CkptKey>, ok: bool)
    | SaveCorrupted
    | MarkFuture(id: F.RequestId)
    | EndTurn
    | Complete

  const EMPTY := System(F.EMPTY, map[], map[], Serving)

  ghost predicate ServingEnabled(s: System, e: Event) {
    match e
    case Submit(id, user, model, op, job) =>
      && F.Enabled(s.futures, F.Enqueue(id, user, model, op))
      && (job.Some? && !job.value.kind.DoLoad? ==> model == Some(job.value.model))
    case Ready(id, user, model, payload) => F.Enabled(s.futures, F.CreateReady(id, user, model, payload))
    case Runner(fe) => (fe.Complete? || fe.Persist? || fe.Signal?) && F.Enabled(s.futures, fe)
    case CreateRun(model) => model !in s.runs
    case Arrive(id) =>
      && id in s.jobs && id in s.futures.records && s.jobs[id].model in s.runs
      && (s.jobs[id].kind.DoLoad? ==> s.jobs[id].kind.key in s.runs[s.jobs[id].model].checkpoints)
    case Drop(id) => id in s.jobs
    case Progress(model, re) => model in s.runs && !re.Request? && RunEnabled(s.runs[model], re)
    case _ => false
  }

  /** The samples come first; then the runs, one at a time, each with its futures. */
  ghost predicate RecoveringEnabled(s: System, rec: Recovery, e: Event) {
    match e
    case MarkSample(id) => id in rec.samples && id in s.futures.records
    case Skip(m) => rec.samples == {} && rec.turn.Between? && m in rec.todo && m in s.runs && s.runs[m].corrupted
    case LoadLatest(m, pick, ok) =>
      && rec.samples == {} && rec.turn.Between? && m in rec.todo && m in s.runs && !s.runs[m].corrupted
      && (pick.None? <==> s.runs[m].checkpoints == map[])
      && (pick.Some? ==> IsLatest(s.runs[m].checkpoints, pick.value))
    case SaveCorrupted => rec.turn.Failing? && rec.turn.run in s.runs
    case MarkFuture(id) =>
      rec.turn.Marking? && rec.turn.run in rec.plan && id in rec.turn.left && id in s.futures.records
    case EndTurn => rec.turn.Marking? && rec.turn.left == {}
    case Complete => rec.samples == {} && rec.turn.Between? && rec.todo == {}
    case _ => false
  }

  ghost predicate Enabled(s: System, e: Event) {
    e.Restart? || match s.stage case Serving => ServingEnabled(s, e) case Recovering(rec) => RecoveringEnabled(s, rec, e)
  }

  // Steps while serving

  /**
   * Reaching the lock.  For a save, reading the current future id and joining the FIFO
   * queue are one stretch; a load has looked its checkpoint up by then.
   */
  function EntryFor(s: System, id: F.RequestId): Entry
    requires id in s.jobs && id in s.futures.records && s.jobs[id].model in s.runs
    requires s.jobs[id].kind.DoLoad? ==> s.jobs[id].kind.key in s.runs[s.jobs[id].model].checkpoints
  {
    var job := s.jobs[id];
    var work := match job.kind
      case DoApply => Apply
      case DoSave(key) => Save(key, F.CurrentFutureId(s.futures))
      case DoLoad(key) => Load(s.runs[job.model].checkpoints[key]);
    Entry(s.futures.records[id].futureId, job.seqId, work)
  }

  ghost function ServingStep(s: System, e: Event): System
    requires ServingEnabled(s, e)
  {
    match e
    case Submit(id, user, model, op, job) =>
      s.(futures := F.Step(s.futures, F.Enqueue(id, user, model, op)),
         jobs := if job.Some? then s.jobs[id := job.value] else s.jobs)
    case Ready(id, user, model, payload) =>
      s.(futures := F.Step(s.futures, F.CreateReady(id, user, model, payload)))
    case Runner(fe) => s.(futures := F.Step(s.futures, fe))
    case CreateRun(model) => s.(runs := s.runs[model := FRESH])
    case Arrive(id) =>
      var model := s.jobs[id].model;
      s.(runs := s.runs[model := RunStep(s.runs[model], Request(EntryFor(s, id)))], jobs := s.jobs - {id})
    case Drop(id) => s.(jobs := s.jobs - {id})
    case Progress(model, re) => s.(runs := s.runs[model := RunStep(s.runs[model], re)])
  }

  // Steps while recovering

  ghost function ReloadedRuns(runs: map<F.ModelId, Run>): map<F.ModelId, Run> {
    map m | m in runs :: Reloaded(runs[m])
  }

  /** A new process reads the store; it has not looked at any checkpoint yet. */
  ghost function Restarted(s: System): System {
    var start := F.Restarted(s.futures);
    var down := if s.stage.Serving? then start else s.stage.rec.down;
    System(start, ReloadedRuns(s.runs), map[],
           Recovering(Recovery(down, start, map[], F.PendingSamples(start), s.runs.Keys, Between, map[], map[])))
  }

  /** The futures of run m that recovery has to fail, given what was loaded. */
  ghost function LostOf(futures: F.State, m: F.ModelId, stamp: Option<nat>): set<F.RequestId> {
    F.AfterCheckpoint(futures, Some(m), stamp)
  }

  /** One record failed, signalled and saved. */
  ghost function WithFailed(s: F.State, id: F.RequestId, reason: F.Reason): F.State
    requires id in s.records
  {
    var failed := F.FailedBy(s.records[id], id, reason);
    s.(records := s.records[id := failed], store := s.store[id := F.Serialized(failed)])
  }

  ghost function FailOne(s: System, rec: Recovery, id: F.RequestId, reason: F.Reason): System
    requires id in s.futures.records
  {
    s.(futures := WithFailed(s.futures, id, reason), stage := Recovering(rec.(marks := rec.marks[id := reason])))
  }

  /** Run m's outcome is known: its futures are next. */
  ghost function BeginMarking(s: System, rec: Recovery, m: F.ModelId, r: Run, stamp: Option<nat>): System {
    s.(runs := s.runs[m := r],
       stage := Recovering(rec.(turn := Marking(m, LostOf(s.futures, m, stamp)), plan := rec.plan[m := stamp])))
  }

  ghost function RecoveringStep(s: System, rec: Recovery, e: Event): System
    requires RecoveringEnabled(s, rec, e)
  {
    match e
    case MarkSample(id) => FailOne(s, rec.(samples := rec.samples - {id}), id, F.SampleLost)
    case Skip(m) => s.(stage := Recovering(rec.(todo := rec.todo - {m})))
    case LoadLatest(m, pick, ok) =>
      var r := s.runs[m];
      if pick.None? then BeginMarking(s, rec, m, r, None)
      else if ok then
        BeginMarking(s, rec.(picks := rec.picks[m := pick.value]), m, Restored(r, pick.value),
                     Some(r.checkpoints[pick.value].futureId))
      else s.(runs := s.runs[m := LoadFailed(r)], stage := Recovering(rec.(turn := Failing(m))))
    case SaveCorrupted =>
      BeginMarking(s, rec, rec.turn.run, CorruptionSaved(s.runs[rec.turn.run]), None)
    case MarkFuture(id) =>
      FailOne(s, rec.(turn := Marking(rec.turn.run, rec.turn.left - {id})), id,
              ReasonFor(rec.turn.run, rec.plan[rec.turn.run]))
    case EndTurn => s.(stage := Recovering(rec.(turn := Between, todo := rec.todo - {rec.turn.run})))
    case Complete => s.(stage := Serving)
  }

  ghost function Step(s: System, e: Event): System
    requires Enabled(s, e)
  {
    if e.Restart? then Restarted(s)
    else match s.stage case Serving => ServingStep(s, e) case Recovering(rec) => RecoveringStep(s, rec, e)
  }

  ghost predicate IsRunOf(s: System, es: seq<Event>)
    decreases |es|
  {
    es == [] || (Enabled(s, es[0]) && IsRunOf(Step(s, es[0]), es[1..]))
  }

  ghost function AfterAll(s: System, es: seq<Event>): System
    requires IsRunOf(s, es)
    decreases |es|
  {
    if es == [] then s else AfterAll(Step(s, es[0]), es[1..])
  }

  ghost predicate Reachable(s: System) {
    exists es :: IsRunOf(EMPTY, es) && AfterAll(EMPTY, es) == s
  }
}
