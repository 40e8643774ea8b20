/**
 * The tenant actor as a transition system.
 *
 * A tenant is a handful of coroutines on one event loop: the main loop, the request
 * tasks it dispatches, and the training tasks.  A stretch of code between two
 * suspensions is one `Event`; `Step` gives its effect and `Enabled` says when the event
 * loop may run it.  A run is any sequence of enabled events, so a property proved of
 * every run holds under every interleaving.
 */
module TenantSpec {
  import opened Wrappers

  /** One entry of the replay buffer: what was sampled, and the weight version stored with it. */
  datatype Item = Item(sample: int, version: int)

  datatype Config = Config(
    numTrainSteps: nat,
    bufferSize: nat,
    concurrency: nat,
    stalenessLimit: Option<nat>,
    asyncSampling: bool,
    syncMode: bool,
    agent: bool,
    maxTurns: int,
    collectLogprobs: bool,
    evalInterval: nat)
  {
    ghost predicate Valid() {
      bufferSize > 0
    }

    /** The most buffer entries that one request or episode can yield. */
    function MaxItems(): nat {
      if !agent then 1 else if maxTurns > 0 then maxTurns else 8
    }

    function TargetSamples(): nat {
      numTrainSteps * bufferSize
    }
  }

  /** Where a request is: rate-limiting sleep, staleness pause, or waiting for the backend. */
  datatype RequestPc = Rate | Paused | Sampling

  datatype MainPc =
    | Head                    // top of either sampling loop
    | Own(request: RequestPc) // serial loop: running its own request
    | Inline                  // serial loop, sync mode: awaiting the training task
    | BudgetPaused            // async loop: staleness pause before dispatch
    | Acquire                 // async loop: waiting for the semaphore
    | Gather                  // async loop: waiting for dispatched requests
    | Drain                   // async loop: training on what is left
    | WaitTrain
    | Done

  datatype TrainPc = Created | Scoring | Stepping | Syncing | Evaluating

  /** A live training task, the batch it was given and that batch's index. */
  datatype Trainer = Trainer(batch: nat, items: seq<Item>, pc: TrainPc)

  /** One `record_staleness` call, with the number of failed steps before it. */
  datatype Record = Record(batch: nat, step: nat, staleness: seq<int>, failedBefore: nat)

  /**
   * Fields of the tenant, the coroutines that are alive, and logs.  The logs are never
   * read by `Step`: arrivals into the buffer, batches taken out of it, batches that
   * advanced the step counter, staleness records, steps that raised before the counter
   * moved, batches dropped because the quota was met, and whether every weight sync so
   * far returned the completed step count.
   */
  datatype State = State(
    main: MainPc,
    requests: seq<RequestPc>,
    trainers: seq<Trainer>,
    permits: nat,
    buffer: seq<Item>,
    training: bool,
    steps: nat,
    version: int,
    pauses: nat,
    arrivals: seq<Item>,
    batches: seq<seq<Item>>,
    stepLog: seq<nat>,
    records: seq<Record>,
    failed: nat,
    dropped: nat,
    faithful: bool)

  datatype TrainOutcome = Resume | Success | Raise | Synced(version: int)

  datatype Event =
    | Main
    | NextTurn
    | Collected(samples: seq<int>)
    | Request(i: nat)
    | Returned(i: nat, samples: seq<int>)
    | Train(i: nat, outcome: TrainOutcome)

  function Init(c: Config, version: int): State {
    State(Head, [], [], c.concurrency, [], false, 0, version, 0, [], [], [], [], 0, 0, version == 0)
  }

  function Min(a: nat, b: nat): nat {
    if a < b then a else b
  }

  function StalenessGap(s: State): nat {
    if s.steps - s.version > 0 then s.steps - s.version else 0
  }

  predicate OverBudget(c: Config, s: State) {
    match c.stalenessLimit
    case None => false
    case Some(limit) => if limit == 0 then StalenessGap(s) > 0 else StalenessGap(s) >= limit
  }

  /** The staleness wait lets its caller through now; `resumed` after at least one sleep. */
  predicate MayProceed(c: Config, s: State, resumed: bool) {
    || (resumed && !s.training && |s.buffer| < c.bufferSize)
    || !OverBudget(c, s)
  }

  function Append(s: State, item: Item): State {
    s.(buffer := s.buffer + [item], arrivals := s.arrivals + [item])
  }

  /** Claims the trainer, moves at most one batch out of the buffer and spawns a training task. */
  function StartBatch(c: Config, s: State): State {
    var n := Min(c.bufferSize, |s.buffer|);
    s.(training := true,
       batches := s.batches + [s.buffer[..n]],
       buffer := s.buffer[n..],
       trainers := s.trainers + [Trainer(|s.batches|, s.buffer[..n], Created)])
  }

  predicate BatchReady(c: Config, s: State) {
    |s.buffer| >= c.bufferSize && !s.training
  }

  function AddToBuffer(c: Config, s: State, item: Item): State {
    var s1 := Append(s, item);
    if BatchReady(c, s1) then StartBatch(c, s1) else s1
  }

  function AddAllToBuffer(c: Config, s: State, samples: seq<int>): State
    decreases |samples|
  {
    if samples == [] then s
    else AddAllToBuffer(c, AddToBuffer(c, s, Item(samples[0], s.version)), samples[1..])
  }

  /** The serial loop appends a whole episode before it looks at the buffer size. */
  function AppendAll(s: State, samples: seq<int>): State
    decreases |samples|
  {
    if samples == [] then s else AppendAll(Append(s, Item(samples[0], s.version)), samples[1..])
  }

  function Without<T>(xs: seq<T>, i: nat): seq<T>
    requires i < |xs|
  {
    xs[..i] + xs[i + 1..]
  }

  predicate QuotaMet(c: Config, s: State) {
    s.steps * c.bufferSize + |s.buffer| >= c.TargetSamples()
  }

  predicate MainEnabled(c: Config, s: State) {
    match s.main
    case Inline => !s.training
    case Acquire => s.permits > 0
    case Gather => s.requests == []
    case Own(request) => request != Sampling
    case Done => false
    case _ => true
  }

  function StepMain(c: Config, s: State): State
    requires MainEnabled(c, s)
  {
    match s.main
    case Head =>
      if !c.asyncSampling then
        s.(main := if s.steps < c.numTrainSteps then Own(Rate) else WaitTrain)
      else if s.steps >= c.numTrainSteps || QuotaMet(c, s) then s.(main := Gather)
      else if MayProceed(c, s, false) then s.(main := Acquire)
      else s.(main := BudgetPaused, pauses := s.pauses + 1)
    case Own(request) =>
      if MayProceed(c, s, request == Paused) then s.(main := Own(Sampling))
      else s.(main := Own(Paused), pauses := s.pauses + 1)
    case Inline => s.(main := Head)
    case BudgetPaused =>
      if MayProceed(c, s, true) then s.(main := Acquire) else s.(pauses := s.pauses + 1)
    case Acquire =>
      if s.steps >= c.numTrainSteps then s.(main := Gather)
      else s.(main := Head, permits := s.permits - 1, requests := s.requests + [Rate])
    case Gather => s.(main := Drain)
    case Drain =>
      if s.buffer == [] || s.steps >= c.numTrainSteps then s.(main := WaitTrain)
      else if !s.training then StartBatch(c, s)
      else s
    case WaitTrain => if s.training then s else s.(main := Done)
  }

  function StepCollected(c: Config, s: State, samples: seq<int>): State {
    var s1 := AppendAll(s, samples);
    if BatchReady(c, s1) then
      StartBatch(c, s1).(main := if c.syncMode then Inline else Head)
    else
      s1.(main := Head)
  }

  function StepRequest(c: Config, s: State, i: nat): State
    requires i < |s.requests|
  {
    if MayProceed(c, s, s.requests[i] == Paused) then s.(requests := s.requests[i := Sampling])
    else s.(requests := s.requests[i := Paused], pauses := s.pauses + 1)
  }

  /** A request task ends: its items enter the buffer one by one and its permit is released. */
  function StepReturned(c: Config, s: State, i: nat, samples: seq<int>): State
    requires i < |s.requests|
  {
    AddAllToBuffer(c, s, samples).(requests := Without(s.requests, i), permits := s.permits + 1)
  }

  function EndTrainer(s: State, i: nat): State
    requires i < |s.trainers|
  {
    s.(trainers := Without(s.trainers, i), training := false)
  }

  function MoveTrainer(s: State, i: nat, pc: TrainPc): State
    requires i < |s.trainers|
  {
    s.(trainers := s.trainers[i := s.trainers[i].(pc := pc)])
  }

  function Staleness(steps: nat, batch: seq<Item>): seq<int> {
    seq(|batch|, k requires 0 <= k < |batch| => steps - batch[k].version)
  }

  predicate TrainEnabled(s: State, i: nat, outcome: TrainOutcome) {
    && i < |s.trainers|
    && match s.trainers[i].pc
       case Created => outcome == Resume
       case Scoring => outcome == Resume
       case Stepping => outcome == Success || outcome == Raise
       case Syncing => outcome.Synced? || outcome == Raise
       case Evaluating => outcome == Resume
  }

  function StepTrain(c: Config, s: State, i: nat, outcome: TrainOutcome): State
    requires TrainEnabled(s, i, outcome)
  {
    var Trainer(b, items, pc) := s.trainers[i];
    match pc
    case Created =>
      if s.steps >= c.numTrainSteps then EndTrainer(s, i).(dropped := s.dropped + 1)
      else
        var record := Record(b, s.steps + 1, Staleness(s.steps, items), s.failed);
        MoveTrainer(s, i, if c.collectLogprobs then Scoring else Stepping)
        .(records := s.records + [record])
    case Scoring => MoveTrainer(s, i, Stepping)
    case Stepping =>
      if outcome == Raise then EndTrainer(s, i).(failed := s.failed + 1)
      else if s.steps >= c.numTrainSteps then EndTrainer(s, i).(dropped := s.dropped + 1)
      else MoveTrainer(s, i, Syncing).(steps := s.steps + 1, stepLog := s.stepLog + [b])
    case Syncing =>
      if outcome == Raise then EndTrainer(s, i).(faithful := false)
      else
        var s1 := s.(version := outcome.version, faithful := s.faithful && outcome.version == s.steps);
        if c.evalInterval > 0 && s.steps % c.evalInterval == 0 then MoveTrainer(s1, i, Evaluating)
        else EndTrainer(s1, i)
    case Evaluating => EndTrainer(s, i)
  }

  predicate Enabled(c: Config, s: State, e: Event) {
    match e
    case Main => MainEnabled(c, s)
    case NextTurn => s.main == Own(Sampling) && c.agent
    case Collected(samples) => s.main == Own(Sampling) && |samples| <= c.MaxItems()
    case Request(i) => i < |s.requests| && s.requests[i] != Sampling
    case Returned(i, samples) =>
      i < |s.requests| && s.requests[i] == Sampling && |samples| <= c.MaxItems()
    case Train(i, outcome) => TrainEnabled(s, i, outcome)
  }

  function Step(c: Config, s: State, e: Event): State
    requires Enabled(c, s, e)
  {
    match e
    case Main => StepMain(c, s)
    case NextTurn => s.(main := Own(Rate))
    case Collected(samples) => StepCollected(c, s, samples)
    case Request(i) => StepRequest(c, s, i)
    case Returned(i, samples) => StepReturned(c, s, i, samples)
    case Train(i, outcome) => StepTrain(c, s, i, outcome)
  }

  /** Every event of `es` is enabled when its turn comes. */
  ghost predicate IsRun(c: Config, s: State, es: seq<Event>)
    decreases |es|
  {
    es == [] || (Enabled(c, s, es[0]) && IsRun(c, Step(c, s, es[0]), es[1..]))
  }

  ghost function After(c: Config, s: State, es: seq<Event>): State
    requires IsRun(c, s, es)
    decreases |es|
  {
    if es == [] then s else After(c, Step(c, s, es[0]), es[1..])
  }

  /** Some run of a fresh tenant whose first weight sync returned `version` ends in `s`. */
  ghost predicate Reachable(c: Config, version: int, s: State) {
    exists es :: IsRun(c, Init(c, version), es) && After(c, Init(c, version), es) == s
  }
}
