/** Quota, over-collection, weight versions and sync mode as invariants. */
module TenantBounds {
  import opened TenantSpec
  import opened TenantInvariants
  import opened TenantLedger
  import opened Seqs

  /** Steps taken, steps lost and the batch in flight, plus the buffer, cover the target. */
  ghost predicate Covered(c: Config, s: State) {
    (s.steps + s.failed + Undecided(s)) * c.bufferSize + |s.buffer| >= c.TargetSamples()
  }

  ghost predicate Quota(c: Config, s: State) {
    && (c.asyncSampling && (s.main.Gather? || Quiet(c, s)) ==>
          s.steps >= c.numTrainSteps || Covered(c, s))
    && (c.asyncSampling && (s.main.WaitTrain? || s.main.Done?) ==>
          s.buffer == [] || s.steps >= c.numTrainSteps)
    && (!c.asyncSampling && (s.main.WaitTrain? || s.main.Done?) ==> s.steps >= c.numTrainSteps)
    && (s.failed == 0 ==> AllOfLength(s.batches, c.bufferSize))
  }

  /** A dispatch has been decided but its task does not exist yet. */
  ghost function Dispatching(s: State): nat {
    if s.main.BudgetPaused? || s.main.Acquire? then 1 else 0
  }

  /** Arrivals so far plus all that live and imminent requests can still deliver. */
  ghost predicate Bounded(c: Config, s: State) {
    c.asyncSampling ==>
      |s.arrivals| + c.MaxItems() * (|s.requests| + Dispatching(s))
        <= c.TargetSamples() + c.bufferSize - 1 + s.failed * c.bufferSize
           + c.MaxItems() * (c.concurrency + 1)
  }

  /** With faithful syncs the sampler lags the counter exactly while a sync is in flight. */
  ghost predicate Versions(s: State) {
    s.faithful ==>
      s.version == s.steps - (if s.trainers != [] && s.trainers[0].pc.Syncing? then 1 else 0)
  }

  /** |arrivals| is at most the batches' capacity plus the buffer. */
  lemma ArrivalsAtMost(c: Config, s: State)
    requires Core(c, s)
    ensures |s.arrivals| <= |s.batches| * c.bufferSize + |s.buffer|
  {
    FlattenAtMost(s.batches, c.bufferSize);
  }

  /** If nothing failed, a short batch would contradict coverage. */
  lemma CoveredBufferIsFull(c: Config, s: State)
    requires Covered(c, s) && s.failed == 0 && Undecided(s) == 0 && s.steps < c.numTrainSteps
    ensures |s.buffer| >= c.bufferSize
  {
    MulGap(s.steps, c.numTrainSteps, c.bufferSize);
  }

  lemma CoveredStartBatch(c: Config, s: State)
    requires SingleFlight(s) && !s.training && Covered(c, s)
    ensures Covered(c, StartBatch(c, s))
  {
    var k := c.bufferSize;
    assert (s.steps + s.failed + 1) * k == (s.steps + s.failed) * k + k;
  }

  lemma QuotaHead(c: Config, s: State)
    requires c.Valid() && Core(c, s) && Quota(c, s) && s.main.Head?
    ensures Quota(c, StepMain(c, s))
  {
    MulMonotone(s.steps, s.steps + s.failed + Undecided(s), c.bufferSize);
  }

  lemma QuotaDrain(c: Config, s: State)
    requires c.Valid() && Core(c, s) && Quota(c, s) && s.main.Drain?
    ensures Quota(c, StepMain(c, s))
  {
    if |StepMain(c, s).batches| > |s.batches| {
      CoveredStartBatch(c, s);
      if s.failed == 0 {
        CoveredBufferIsFull(c, s);
      }
    }
  }

  lemma QuotaElsewhere(c: Config, s: State)
    requires Core(c, s) && Quota(c, s) && MainEnabled(c, s) && !s.main.Head? && !s.main.Drain?
    ensures Quota(c, StepMain(c, s))
  {
  }

  lemma QuotaMain(c: Config, s: State)
    requires c.Valid() && Core(c, s) && Quota(c, s) && MainEnabled(c, s)
    ensures Quota(c, StepMain(c, s))
  {
    if s.main.Head? {
      QuotaHead(c, s);
    } else if s.main.Drain? {
      QuotaDrain(c, s);
    } else {
      QuotaElsewhere(c, s);
    }
  }

  lemma QuotaTrain(c: Config, s: State, i: nat, outcome: TrainOutcome)
    requires Core(c, s) && Quota(c, s) && TrainEnabled(s, i, outcome)
    ensures Quota(c, StepTrain(c, s, i, outcome))
  {
    OnlyTrainer(s, i);
  }

  /** An arrival under the trigger moves a full batch only, so coverage can only grow. */
  lemma QuotaAdd(c: Config, s: State, item: Item)
    requires c.Valid() && Core(c, s) && !Quiet(c, s) && !s.main.Done? && Quota(c, s)
    ensures Quota(c, AddToBuffer(c, s, item))
  {
    var s1 := Append(s, item);
    if BatchReady(c, s1) && Covered(c, s1) {
      CoveredStartBatch(c, s1);
    }
  }

  lemma {:induction false} QuotaAddAll(c: Config, s: State, samples: seq<int>)
    requires c.Valid() && Core(c, s) && !Quiet(c, s) && !s.main.Done? && Quota(c, s)
    ensures Quota(c, AddAllToBuffer(c, s, samples))
    decreases |samples|
  {
    if samples != [] {
      var item := Item(samples[0], s.version);
      CoreAddToBuffer(c, s, item);
      QuotaAdd(c, s, item);
      QuotaAddAll(c, AddToBuffer(c, s, item), samples[1..]);
    }
  }

  lemma QuotaReturned(c: Config, s: State, i: nat, samples: seq<int>)
    requires c.Valid() && Core(c, s) && Quota(c, s) && Enabled(c, s, Returned(i, samples))
    ensures Quota(c, StepReturned(c, s, i, samples))
  {
    CoreAddAll(c, s, samples);
    QuotaAddAll(c, s, samples);
    QuotaControl(c, AddAllToBuffer(c, s, samples), StepReturned(c, s, i, samples));
  }

  lemma QuotaControl(c: Config, s: State, s': State)
    requires Quota(c, s) && s' == s.(permits := s'.permits, requests := s'.requests, pauses := s'.pauses)
    ensures Quota(c, s')
  {
  }

  lemma QuotaCollected(c: Config, s: State, samples: seq<int>)
    requires c.Valid() && Core(c, s) && Quota(c, s) && Enabled(c, s, Collected(samples))
    ensures Quota(c, StepCollected(c, s, samples))
  {
    AppendAllArrived(s, samples);
  }

  lemma QuotaStep(c: Config, s: State, e: Event)
    requires c.Valid() && Core(c, s) && Quota(c, s) && Enabled(c, s, e)
    ensures Quota(c, Step(c, s, e))
  {
    match e
    case Main => QuotaMain(c, s);
    case Train(i, outcome) => QuotaTrain(c, s, i, outcome);
    case Returned(i, samples) => QuotaReturned(c, s, i, samples);
    case Collected(samples) => QuotaCollected(c, s, samples);
    case Request(i) => QuotaControl(c, s, StepRequest(c, s, i));
    case NextTurn =>
  }

  /** The arithmetic of a dispatch decision: room is left for the quota and one item less than a batch. */
  lemma DispatchBound(
    arrivals: nat, batches: nat, buffer: nat, steps: nat, failed: nat, k: nat, target: nat, live: nat, limit: nat, m: nat)
    requires arrivals <= batches * k + buffer && batches <= steps + failed + 1
    requires steps * k + buffer < target && live <= limit
    ensures arrivals + m * live <= target + k - 1 + failed * k + m * limit
  {
    MulMonotone(batches, steps + failed + 1, k);
    assert (steps + failed + 1) * k == steps * k + failed * k + k;
    MulMonotone(live, limit, m);
  }

  lemma BoundedDispatch(c: Config, s: State)
    requires c.Valid() && Core(c, s) && c.asyncSampling
    requires s.steps < c.numTrainSteps && !QuotaMet(c, s)
    ensures |s.arrivals| + c.MaxItems() * (|s.requests| + 1)
              <= c.TargetSamples() + c.bufferSize - 1 + s.failed * c.bufferSize
                 + c.MaxItems() * (c.concurrency + 1)
  {
    ArrivalsAtMost(c, s);
    DispatchBound(|s.arrivals|, |s.batches|, |s.buffer|, s.steps, s.failed, c.bufferSize, c.TargetSamples(),
                  |s.requests| + 1, c.concurrency + 1, c.MaxItems());
  }

  /** No more live requests, and the same arrivals and failures. */
  lemma BoundedFrame(c: Config, s: State, s': State)
    requires Bounded(c, s) && s'.arrivals == s.arrivals && s'.failed == s.failed
    requires |s'.requests| + Dispatching(s') <= |s.requests| + Dispatching(s)
    ensures Bounded(c, s')
  {
    MulMonotone(|s'.requests| + Dispatching(s'), |s.requests| + Dispatching(s), c.MaxItems());
  }

  lemma BoundedHead(c: Config, s: State)
    requires c.Valid() && Core(c, s) && Bounded(c, s) && s.main.Head? && c.asyncSampling
    ensures Bounded(c, StepMain(c, s))
  {
    if s.steps < c.numTrainSteps && !QuotaMet(c, s) {
      BoundedDispatch(c, s);
    }
  }

  lemma BoundedMain(c: Config, s: State)
    requires c.Valid() && Core(c, s) && Bounded(c, s) && MainEnabled(c, s)
    ensures Bounded(c, StepMain(c, s))
  {
    if c.asyncSampling {
      if s.main.Head? {
        BoundedHead(c, s);
      } else {
        BoundedFrame(c, s, StepMain(c, s));
      }
    }
  }

  lemma BoundedReturned(c: Config, s: State, i: nat, samples: seq<int>)
    requires c.Valid() && Core(c, s) && Bounded(c, s) && Enabled(c, s, Returned(i, samples))
    ensures Bounded(c, StepReturned(c, s, i, samples))
  {
    AddAllArrived(c, s, samples);
    CoreAddAll(c, s, samples);
    var n := |s.requests| + Dispatching(s);
    assert c.MaxItems() * n == c.MaxItems() * (n - 1) + c.MaxItems();
  }

  lemma BoundedTrain(c: Config, s: State, i: nat, outcome: TrainOutcome)
    requires Core(c, s) && Bounded(c, s) && TrainEnabled(s, i, outcome)
    ensures Bounded(c, StepTrain(c, s, i, outcome))
  {
    OnlyTrainer(s, i);
    MulMonotone(s.failed, StepTrain(c, s, i, outcome).failed, c.bufferSize);
  }

  lemma BoundedStep(c: Config, s: State, e: Event)
    requires c.Valid() && Core(c, s) && Bounded(c, s) && Enabled(c, s, e)
    ensures Bounded(c, Step(c, s, e))
  {
    match e
    case Main => BoundedMain(c, s);
    case Returned(i, samples) => BoundedReturned(c, s, i, samples);
    case Train(i, outcome) => BoundedTrain(c, s, i, outcome);
    case NextTurn =>
    case Collected(_) =>
    case Request(_) =>
  }

  lemma VersionsTrain(c: Config, s: State, i: nat, outcome: TrainOutcome)
    requires Core(c, s) && Versions(s) && TrainEnabled(s, i, outcome)
    ensures Versions(StepTrain(c, s, i, outcome))
  {
    OnlyTrainer(s, i);
  }

  /** Arrivals bring at most a batch that has not started. */
  lemma VersionsArrived(s: State, s': State)
    requires Versions(s) && Arrived(s, s')
    ensures Versions(s')
  {
  }

  lemma VersionsMain(c: Config, s: State)
    requires Core(c, s) && Versions(s) && MainEnabled(c, s)
    ensures Versions(StepMain(c, s))
  {
  }

  lemma VersionsCollected(c: Config, s: State, samples: seq<int>)
    requires Core(c, s) && Versions(s)
    ensures Versions(StepCollected(c, s, samples))
  {
    CollectedArrived(c, s, samples);
    VersionsArrived(s, StepCollected(c, s, samples));
  }

  lemma VersionsReturned(c: Config, s: State, i: nat, samples: seq<int>)
    requires c.Valid() && Core(c, s) && Versions(s) && Enabled(c, s, Returned(i, samples))
    ensures Versions(StepReturned(c, s, i, samples))
  {
    AddAllArrived(c, s, samples);
    VersionsArrived(s, AddAllToBuffer(c, s, samples));
  }

  lemma VersionsStep(c: Config, s: State, e: Event)
    requires c.Valid() && Core(c, s) && Versions(s) && Enabled(c, s, e)
    ensures Versions(Step(c, s, e))
  {
    match e
    case Main => VersionsMain(c, s);
    case NextTurn =>
    case Collected(samples) => VersionsCollected(c, s, samples);
    case Request(i) =>
    case Returned(i, samples) => VersionsReturned(c, s, i, samples);
    case Train(i, outcome) => VersionsTrain(c, s, i, outcome);
  }

  ghost predicate Fresh(items: seq<Item>, version: int) {
    forall k :: 0 <= k < |items| ==> items[k].version == version
  }

  ghost predicate AllZero(xs: seq<int>) {
    forall k :: 0 <= k < |xs| ==> xs[k] == 0
  }

  ghost predicate SerialSync(c: Config) {
    c.syncMode && !c.asyncSampling
  }

  /** Sync mode, one item a request: nothing is sampled while a step is outstanding. */
  ghost predicate InSync(c: Config, s: State) {
    SerialSync(c) && c.MaxItems() <= 1 && s.faithful ==>
      && (s.main.Head? || s.main.Own? ==>
            !s.training && |s.buffer| < c.bufferSize && Fresh(s.buffer, s.steps))
      && (s.main.Inline? ==> s.buffer == [])
      && (s.trainers != [] ==> s.main.Inline?)
      && (Undecided(s) == 1 ==> Fresh(s.trainers[0].items, s.steps))
      && (forall k :: 0 <= k < |s.records| ==> AllZero(s.records[k].staleness))
  }

  lemma InSyncTrain(c: Config, s: State, i: nat, outcome: TrainOutcome)
    requires Core(c, s) && InSync(c, s) && TrainEnabled(s, i, outcome)
    requires SerialSync(c) && c.MaxItems() <= 1
    ensures InSync(c, StepTrain(c, s, i, outcome))
  {
    OnlyTrainer(s, i);
    var s' := StepTrain(c, s, i, outcome);
    assert s'.main == s.main && s'.buffer == s.buffer;
    assert s'.faithful ==> s.faithful;
  }

  lemma InSyncCollected(c: Config, s: State, samples: seq<int>)
    requires c.Valid() && Core(c, s) && Versions(s) && InSync(c, s)
    requires Enabled(c, s, Collected(samples))
    requires SerialSync(c) && c.MaxItems() <= 1
    ensures InSync(c, StepCollected(c, s, samples))
  {
    AppendAllArrived(s, samples);
    var s1 := AppendAll(s, samples);
    if s.faithful {
      assert Fresh(s1.buffer, s.steps);
    }
  }

  lemma InSyncStep(c: Config, s: State, e: Event)
    requires c.Valid() && Core(c, s) && Versions(s) && InSync(c, s) && Enabled(c, s, e)
    requires SerialSync(c) && c.MaxItems() <= 1
    ensures InSync(c, Step(c, s, e))
  {
    match e
    case Main =>
    case Collected(samples) => InSyncCollected(c, s, samples);
    case Train(i, outcome) => InSyncTrain(c, s, i, outcome);
    case _ =>
  }

  ghost predicate Inv(c: Config, s: State) {
    Core(c, s) && Ledger(c, s) && Quota(c, s) && Bounded(c, s) && Versions(s) && InSync(c, s)
  }

  lemma InvStep(c: Config, s: State, e: Event)
    requires c.Valid() && Inv(c, s) && Enabled(c, s, e)
    ensures Inv(c, Step(c, s, e))
  {
    CoreStep(c, s, e);
    LedgerStep(c, s, e);
    QuotaStep(c, s, e);
    BoundedStep(c, s, e);
    VersionsStep(c, s, e);
    if SerialSync(c) && c.MaxItems() <= 1 {
      InSyncStep(c, s, e);
    }
  }

  lemma InvInit(c: Config, version: int)
    requires c.Valid()
    ensures Inv(c, Init(c, version))
  {
    MulMonotone(0, c.concurrency + 1, c.MaxItems());
  }

  lemma {:induction false} InvRun(c: Config, s: State, es: seq<Event>)
    requires c.Valid() && Inv(c, s) && IsRun(c, s, es)
    ensures Inv(c, After(c, s, es))
    decreases |es|
  {
    if es != [] {
      InvStep(c, s, es[0]);
      InvRun(c, Step(c, s, es[0]), es[1..]);
    }
  }

  lemma InvReachable(c: Config, version: int, s: State)
    requires c.Valid() && Reachable(c, version, s)
    ensures Inv(c, s)
  {
    var es :| IsRun(c, Init(c, version), es) && After(c, Init(c, version), es) == s;
    InvInit(c, version);
    InvRun(c, Init(c, version), es);
  }
}
