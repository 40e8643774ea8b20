/** What the tenant promises, for every run of every configuration. */
module TenantTheorems {
  import opened Wrappers
  import opened TenantSpec
  import opened TenantInvariants
  import opened TenantLedger
  import opened TenantBounds
  import opened Seqs

  /**
   * `training_in_progress` is up exactly while one training task is alive, the step
   * counter never passes the target, and no arrival is lost, duplicated or reordered.
   */
  lemma SingleFlightAndConservation(c: Config, version: int, s: State)
    requires c.Valid() && Reachable(c, version, s)
    ensures (s.training <==> |s.trainers| == 1) && |s.trainers| <= 1
    ensures s.steps <= c.numTrainSteps
    ensures s.arrivals == Flatten(s.batches) + s.buffer
    ensures |s.batches| == s.steps + s.failed + s.dropped + Undecided(s)
  {
    InvReachable(c, version, s);
  }

  /**
   * Arrival i, once taken, is entry i % K of batch i / K.  A staleness record of that
   * batch is made at step i / K + 1 minus the failures before it, and reads exactly the
   * completed steps minus the version stored with the item; without failures batch b
   * yields step b + 1.
   */
  lemma FifoClosedForm(c: Config, version: int, s: State, i: nat)
    requires c.Valid() && Reachable(c, version, s) && i < |s.arrivals| - |s.buffer|
    ensures var b, j := i / c.bufferSize, i % c.bufferSize;
            && b < |s.batches| && j < |s.batches[b]| && s.batches[b][j] == s.arrivals[i]
            && (forall r :: r in s.records && r.batch == b ==>
                  && j < |r.staleness|
                  && r.staleness[j] == (b - r.failedBefore) - s.arrivals[i].version
                  && r.step == b - r.failedBefore + 1)
            && (s.failed == 0 ==>
                  && |s.stepLog| == s.steps && (b < |s.stepLog| ==> s.stepLog[b] == b)
                  && forall r :: r in s.records && r.batch == b ==>
                       r.step == b + 1 && r.staleness[j] == b - s.arrivals[i].version)
  {
    InvReachable(c, version, s);
    ItemPosition(c, s, i);
    var b, j := i / c.bufferSize, i % c.bufferSize;
    forall r | r in s.records && r.batch == b
      ensures j < |r.staleness| && r.step == b - r.failedBefore + 1 && r.failedBefore <= s.failed
      ensures r.staleness[j] == (b - r.failedBefore) - s.arrivals[i].version
    {
      RecordedEntry(c, s, r, b, j);
    }
    StepLogIsIdentity(s);
  }

  lemma RecordedEntry(c: Config, s: State, r: Record, b: nat, j: nat)
    requires Ledger(c, s) && r in s.records && r.batch == b && b < |s.batches| && j < |s.batches[b]|
    ensures j < |r.staleness| && r.step == b - r.failedBefore + 1 && r.failedBefore <= s.failed
    ensures r.staleness[j] == (b - r.failedBefore) - s.batches[b][j].version
  {
    var k :| 0 <= k < |s.records| && s.records[k] == r;
    assert RecordHolds(c, s, r);
  }

  lemma StepLogIsIdentity(s: State)
    requires StepLogHolds(s)
    ensures |s.stepLog| == s.steps && (s.failed == 0 ==> forall b :: 0 <= b < |s.stepLog| ==> s.stepLog[b] == b)
  {
  }

  /**
   * When the loop has ended, steps taken and steps lost reach the target; with no failed
   * step the target is met exactly and every batch that produced a step was full.
   */
  lemma QuotaCompleteness(c: Config, version: int, s: State)
    requires c.Valid() && Reachable(c, version, s) && s.main.Done?
    ensures s.steps + s.failed >= c.numTrainSteps
    ensures s.failed == 0 ==>
              && s.steps == c.numTrainSteps == |s.stepLog| && |s.batches| >= s.steps
              && forall k :: 0 <= k < |s.stepLog| ==>
                   s.stepLog[k] == k && |s.batches[k]| == c.bufferSize
  {
    InvReachable(c, version, s);
    if s.steps + s.failed < c.numTrainSteps {
      MulGap(s.steps + s.failed, c.numTrainSteps, c.bufferSize);
    }
  }

  /**
   * Async sampling never collects more than the target plus one batch, one batch per
   * failed step, and what C + 1 requests can deliver; for single-turn tasks that is
   * N*K + K + C + f*K.
   */
  lemma OverCollectionBound(c: Config, version: int, s: State)
    requires c.Valid() && Reachable(c, version, s) && c.asyncSampling
    ensures |s.arrivals| <= c.TargetSamples() + c.bufferSize - 1 + s.failed * c.bufferSize
                            + c.MaxItems() * (c.concurrency + 1)
    ensures !c.agent ==>
              |s.arrivals| <= c.TargetSamples() + c.bufferSize + c.concurrency + s.failed * c.bufferSize
  {
    InvReachable(c, version, s);
    MulMonotone(0, |s.requests| + Dispatching(s), c.MaxItems());
  }

  /**
   * While syncs are faithful, a pause has a cure in flight: the gap is 1, one training
   * task is syncing, and the completion of its sync lets every waiter through.
   */
  lemma PausedSamplerIsReleased(c: Config, version: int, s: State)
    requires c.Valid() && Reachable(c, version, s) && s.faithful
    requires StalenessGap(s) > 0
    ensures StalenessGap(s) == 1 && |s.trainers| == 1 && s.trainers[0].pc.Syncing?
    ensures Enabled(c, s, Train(0, Synced(s.steps)))
    ensures OverBudget(c, s) ==>
              var s' := Step(c, s, Train(0, Synced(s.steps)));
              StalenessGap(s') == 0 && MayProceed(c, s', true)
  {
    InvReachable(c, version, s);
    OnlyTrainer(s, 0);
  }

  /** Logs only grow, so an arrival keeps its index and its stored version for ever. */
  ghost predicate Grows(s: State, s': State) {
    && s.arrivals <= s'.arrivals && s.batches <= s'.batches
    && s.failed <= s'.failed && s.steps <= s'.steps
    && (s'.faithful ==> s.faithful)
  }

  lemma GrowsStep(c: Config, s: State, e: Event)
    requires c.Valid() && Core(c, s) && Enabled(c, s, e)
    ensures Grows(s, Step(c, s, e))
  {
    match e
    case Returned(i, samples) => AddAllArrived(c, s, samples);
    case Collected(samples) => CollectedArrived(c, s, samples);
    case Train(i, outcome) => GrowsTrain(c, s, i, outcome);
    case Main => GrowsMain(c, s);
    case Request(i) =>
    case NextTurn =>
  }

  lemma GrowsTrain(c: Config, s: State, i: nat, outcome: TrainOutcome)
    requires TrainEnabled(s, i, outcome)
    ensures Grows(s, StepTrain(c, s, i, outcome))
  {
  }

  lemma GrowsMain(c: Config, s: State)
    requires MainEnabled(c, s)
    ensures Grows(s, StepMain(c, s))
  {
  }

  lemma {:induction false} GrowsRun(c: Config, s: State, es: seq<Event>)
    requires c.Valid() && Inv(c, s) && IsRun(c, s, es)
    ensures Grows(s, After(c, s, es)) && Inv(c, After(c, s, es))
    decreases |es|
  {
    if es != [] {
      InvStep(c, s, es[0]);
      GrowsStep(c, s, es[0]);
      GrowsRun(c, Step(c, s, es[0]), es[1..]);
    }
  }

  ghost function Delivered(e: Event): seq<int> {
    match e
    case Collected(samples) => samples
    case Returned(_, samples) => samples
    case _ => []
  }

  lemma {:induction false} AddAllVersions(c: Config, s: State, samples: seq<int>, k: nat)
    requires c.Valid() && Core(c, s) && !Quiet(c, s) && !s.main.Done? && k < |samples|
    ensures var s' := AddAllToBuffer(c, s, samples);
            |s'.arrivals| == |s.arrivals| + |samples| &&
            s'.arrivals[|s.arrivals| + k] == Item(samples[k], s.version)
    decreases |samples|
  {
    var item := Item(samples[0], s.version);
    var s1 := AddToBuffer(c, s, item);
    CoreAddToBuffer(c, s, item);
    AddAllArrived(c, s, samples);
    AddAllArrived(c, s1, samples[1..]);
    if k > 0 {
      AddAllVersions(c, s1, samples[1..], k - 1);
    }
  }

  lemma {:induction false} AppendAllVersions(s: State, samples: seq<int>, k: nat)
    requires k < |samples|
    ensures var s' := AppendAll(s, samples);
            |s'.arrivals| == |s.arrivals| + |samples| &&
            s'.arrivals[|s.arrivals| + k] == Item(samples[k], s.version)
    decreases |samples|
  {
    var s1 := Append(s, Item(samples[0], s.version));
    AppendAllArrived(s1, samples[1..]);
    if k > 0 {
      AppendAllVersions(s1, samples[1..], k - 1);
    }
  }

  lemma DeliveredVersions(c: Config, s: State, e: Event, k: nat)
    requires c.Valid() && Core(c, s) && Enabled(c, s, e) && k < |Delivered(e)|
    ensures var s' := Step(c, s, e);
            |s.arrivals| + k < |s'.arrivals| &&
            s'.arrivals[|s.arrivals| + k] == Item(Delivered(e)[k], s.version)
  {
    match e
    case Returned(i, samples) => AddAllVersions(c, s, samples, k);
    case Collected(samples) => AppendAllVersions(s, samples, k);
  }

  /** The block an arrival will fall into is known from the counters when it arrives. */
  lemma ArrivalBlock(c: Config, s: State, k: nat)
    requires c.Valid() && Core(c, s) && s.dropped == 0 && AllOfLength(s.batches, c.bufferSize)
    ensures (|s.arrivals| + k) / c.bufferSize
              == s.steps + s.failed + Undecided(s) + (|s.buffer| + k) / c.bufferSize
  {
    var size, n := c.bufferSize, |s.batches|;
    var m := |s.buffer| + k;
    FlattenExactly(s.batches, size);
    BlockShift(n, m, size);
  }

  /** While something can still arrive, every batch taken was full. */
  lemma FullWhileDelivering(c: Config, s: State, e: Event)
    requires Core(c, s) && Enabled(c, s, e) && Delivered(e) != []
    ensures AllOfLength(s.batches, c.bufferSize)
  {
    assert !Quiet(c, s);
  }

  /** Only starting a batch short of the target records a staleness. */
  lemma NewRecordStep(c: Config, s: State, e: Event, r: Record)
    requires c.Valid() && Core(c, s) && Enabled(c, s, e) && r in Step(c, s, e).records
    ensures r in s.records || (s.steps < c.numTrainSteps && r.failedBefore == s.failed)
  {
    match e
    case Main =>
    case NextTurn =>
    case Collected(samples) => CollectedArrived(c, s, samples);
    case Request(i) =>
    case Returned(i, samples) => AddAllArrived(c, s, samples);
    case Train(i, outcome) =>
  }

  lemma {:induction false} NewRecord(c: Config, s: State, es: seq<Event>, r: Record)
    requires c.Valid() && Inv(c, s) && IsRun(c, s, es) && r in After(c, s, es).records
    ensures r in s.records || (s.steps < c.numTrainSteps && r.failedBefore >= s.failed)
    decreases |es|
  {
    if es != [] {
      var s1 := Step(c, s, es[0]);
      InvStep(c, s, es[0]);
      GrowsStep(c, s, es[0]);
      NewRecord(c, s1, es[1..], r);
      if r in s1.records {
        NewRecordStep(c, s, es[0], r);
      }
    }
  }

  /** Batches in flight or ahead in the buffer, on top of the sampler's own lag. */
  ghost function QueuedStaleness(c: Config, s: State, k: nat): int
    requires c.Valid()
  {
    s.steps - s.version + Undecided(s) + (|s.buffer| + k) / c.bufferSize
  }

  /**
   * The staleness that will be recorded for a delivered item is fixed when it arrives, but
   * for steps that fail before its batch starts: the version gap, plus one for a batch in
   * flight, plus the whole batches queued before it, less the failures since.  Hence the
   * configured limit is respected whenever the number known on arrival is within it, and
   * exactly when the failures since make up for the excess.
   */
  lemma StalenessFixedOnArrival(
    c: Config, version: int, s: State, e: Event, rest: seq<Event>, k: nat, r: Record)
    requires c.Valid() && Reachable(c, version, s) && Enabled(c, s, e) && k < |Delivered(e)|
    requires IsRun(c, Step(c, s, e), rest)
    requires r in After(c, Step(c, s, e), rest).records
    requires r.batch == (|s.arrivals| + k) / c.bufferSize
    ensures var j := (|s.arrivals| + k) % c.bufferSize;
            && j < |r.staleness| && r.failedBefore >= s.failed
            && r.staleness[j] == QueuedStaleness(c, s, k) - (r.failedBefore - s.failed)
            && (c.stalenessLimit.Some? ==>
                  && (QueuedStaleness(c, s, k) <= c.stalenessLimit.value ==> r.staleness[j] <= c.stalenessLimit.value)
                  && (r.staleness[j] <= c.stalenessLimit.value <==>
                      QueuedStaleness(c, s, k) - c.stalenessLimit.value <= r.failedBefore - s.failed))
  {
    var s1, i := Step(c, s, e), |s.arrivals| + k;
    var s2 := After(c, s1, rest);
    InvReachable(c, version, s);
    ArrivalStays(c, s, e, rest, k);
    RecordedArrival(c, s2, r, i);
    FullWhileDelivering(c, s, e);
    RecordedLater(c, s, e, rest, r, i);
    ArrivalBlock(c, s, k);
  }

  lemma ArrivalStays(c: Config, s: State, e: Event, rest: seq<Event>, k: nat)
    requires c.Valid() && Inv(c, s) && Enabled(c, s, e) && k < |Delivered(e)| && IsRun(c, Step(c, s, e), rest)
    ensures var s2, i := After(c, Step(c, s, e), rest), |s.arrivals| + k;
            Inv(c, s2) && i < |s2.arrivals| && s2.arrivals[i].version == s.version
  {
    InvStep(c, s, e);
    GrowsRun(c, Step(c, s, e), rest);
    DeliveredVersions(c, s, e, k);
  }

  lemma RecordedArrival(c: Config, s: State, r: Record, i: nat)
    requires c.Valid() && Inv(c, s) && r in s.records && r.batch == i / c.bufferSize && i < |s.arrivals|
    ensures i % c.bufferSize < |r.staleness|
    ensures r.staleness[i % c.bufferSize] == i / c.bufferSize - r.failedBefore - s.arrivals[i].version
  {
    var n :| 0 <= n < |s.records| && s.records[n] == r;
    assert RecordHolds(c, s, r);
    TakenArrival(c, s, i);
    ItemPosition(c, s, i);
  }

  /** An arrival whose batch was taken is no longer in the buffer. */
  lemma TakenArrival(c: Config, s: State, i: nat)
    requires c.Valid() && Core(c, s) && i < |s.arrivals| && i / c.bufferSize < |s.batches|
    ensures i < |s.arrivals| - |s.buffer|
  {
    var b, size := i / c.bufferSize, c.bufferSize;
    if i >= |s.arrivals| - |s.buffer| {
      assert s.buffer != [];
      FlattenExactly(s.batches, size);
      LaterBlock(|s.batches|, size, i);
    }
  }

  lemma LaterBlock(n: nat, size: nat, i: nat)
    requires size > 0 && i >= n * size
    ensures i / size >= n
  {
    var b := i / size;
    assert i == b * size + i % size;
    if b < n {
      MulGap(b, n, size);
    }
  }

  /** The batch of a new arrival is recorded later, so nothing had been dropped when it came. */
  lemma RecordedLater(c: Config, s: State, e: Event, rest: seq<Event>, r: Record, i: nat)
    requires c.Valid() && Inv(c, s) && Enabled(c, s, e) && IsRun(c, Step(c, s, e), rest)
    requires AllOfLength(s.batches, c.bufferSize) && i >= |s.arrivals| && r.batch == i / c.bufferSize
    requires r in After(c, Step(c, s, e), rest).records
    ensures s.dropped == 0 && r.failedBefore >= s.failed
  {
    var es := [e] + rest;
    assert es[1..] == rest;
    NewRecord(c, s, es, r);
    if r in s.records {
      var n :| 0 <= n < |s.records| && s.records[n] == r;
      assert RecordHolds(c, s, r);
      FlattenExactly(s.batches, c.bufferSize);
      LaterBlock(|s.batches|, c.bufferSize, i);
    }
  }

  // Staleness pauses over a whole run

  ghost function Syncing(s: State): nat {
    if s.trainers != [] && s.trainers[0].pc.Syncing? then 1 else 0
  }

  /** The step counts at which some coroutine looked at the staleness budget and paused. */
  ghost function PauseSteps(c: Config, s: State, es: seq<Event>): set<nat>
    requires IsRun(c, s, es)
    decreases |es|
  {
    if es == [] then {}
    else (if Step(c, s, es[0]).pauses > s.pauses then {s.steps} else {}) + PauseSteps(c, Step(c, s, es[0]), es[1..])
  }

  lemma PauseMeansSyncing(c: Config, s: State, e: Event)
    requires c.Valid() && Core(c, s) && Versions(s) && s.faithful && Enabled(c, s, e)
    requires Step(c, s, e).pauses > s.pauses
    ensures Syncing(s) == 1 && StalenessGap(s) == 1
  {
    match e
    case Main =>
    case NextTurn =>
    case Collected(samples) => CollectedArrived(c, s, samples);
    case Request(i) =>
    case Returned(i, samples) => AddAllArrived(c, s, samples);
    case Train(i, outcome) =>
  }

  /** A sync begins with its step. */
  lemma SyncBegins(c: Config, s: State, e: Event)
    requires c.Valid() && Core(c, s) && Enabled(c, s, e)
    ensures Step(c, s, e).steps + Syncing(s) >= s.steps + Syncing(Step(c, s, e))
  {
    match e
    case Main =>
    case NextTurn =>
    case Collected(samples) => CollectedArrived(c, s, samples);
    case Request(i) =>
    case Returned(i, samples) => AddAllArrived(c, s, samples);
    case Train(i, outcome) => OnlyTrainer(s, i);
  }

  lemma {:induction false} PausesInRange(c: Config, s: State, es: seq<Event>, n: nat)
    requires c.Valid() && Inv(c, s) && IsRun(c, s, es) && After(c, s, es).faithful && n in PauseSteps(c, s, es)
    ensures s.steps - Syncing(s) < n <= After(c, s, es).steps
    decreases |es|
  {
    var s1 := Step(c, s, es[0]);
    InvStep(c, s, es[0]);
    GrowsRun(c, s, es);
    GrowsRun(c, s1, es[1..]);
    if n in PauseSteps(c, s1, es[1..]) {
      PausesInRange(c, s1, es[1..], n);
      SyncBegins(c, s, es[0]);
    } else {
      PauseMeansSyncing(c, s, es[0]);
    }
  }

  /** A set of numbers above lo and up to hi. */
  lemma {:induction false} RangeSize(ns: set<nat>, lo: int, hi: int)
    requires lo <= hi && forall n :: n in ns ==> lo < n <= hi
    ensures |ns| <= hi - lo
    decreases hi - lo
  {
    if lo < hi {
      RangeSize(ns - {hi}, lo, hi - 1);
    } else {
      assert ns == {};
    }
  }

  lemma StepsCapped(c: Config, s: State)
    requires Inv(c, s)
    ensures s.steps <= c.numTrainSteps
  {
  }

  lemma RunKeepsInv(c: Config, s: State, es: seq<Event>)
    requires c.Valid() && Inv(c, s) && IsRun(c, s, es)
    ensures s.steps <= After(c, s, es).steps <= c.numTrainSteps
  {
    GrowsRun(c, s, es);
    StepsCapped(c, After(c, s, es));
  }

  /**
   * Under every schedule in which syncs are faithful, coroutines pause during at most one
   * sync per step still to come, plus the one in flight: all pauses at one step count fall
   * into that step's sync, and once it has returned none occurs before the next step.
   */
  lemma PausesAreBounded(c: Config, version: int, s: State, es: seq<Event>)
    requires c.Valid() && Reachable(c, version, s) && IsRun(c, s, es) && After(c, s, es).faithful
    ensures forall n :: n in PauseSteps(c, s, es) ==> s.steps - Syncing(s) < n <= After(c, s, es).steps
    ensures |PauseSteps(c, s, es)| <= After(c, s, es).steps - s.steps + Syncing(s)
    ensures |PauseSteps(c, s, es)| <= c.numTrainSteps - s.steps + Syncing(s)
  {
    InvReachable(c, version, s);
    RunKeepsInv(c, s, es);
    var ns, lo, hi := PauseSteps(c, s, es), s.steps - Syncing(s), After(c, s, es).steps;
    forall n | n in ns ensures lo < n <= hi {
      PausesInRange(c, s, es, n);
    }
    RangeSize(ns, lo, hi);
  }
}
