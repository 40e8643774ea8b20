/** When sync mode keeps every recorded staleness at 0, and the run that shows it otherwise. */
module TenantFreshness {
  import opened Wrappers
  import opened TenantSpec
  import opened TenantInvariants
  import opened TenantLedger
  import opened TenantBounds
  import opened TenantLimits

  /** Every recorded staleness is 0. */
  ghost predicate AllFresh(s: State) {
    forall k :: 0 <= k < |s.records| ==> AllZero(s.records[k].staleness)
  }

  // At most one step

  /** Until the only step is counted, every item carries the version the tenant started with. */
  ghost predicate FirstStep(s: State) {
    s.steps == 0 ==> s.version == 0 && Fresh(s.buffer, 0) && (s.trainers != [] ==> Fresh(s.trainers[0].items, 0))
  }

  ghost predicate OneStep(c: Config, s: State) {
    s.faithful ==> FirstStep(s) && AllFresh(s)
  }

  lemma FirstAdd(c: Config, s: State, item: Item)
    requires SingleFlight(s) && FirstStep(s) && (s.steps == 0 ==> item.version == 0)
    ensures FirstStep(AddToBuffer(c, s, item)) && AddToBuffer(c, s, item).version == s.version
  {
  }

  lemma {:induction false} FirstAddAll(c: Config, s: State, samples: seq<int>)
    requires c.Valid() && Core(c, s) && !Quiet(c, s) && !s.main.Done? && FirstStep(s)
    ensures FirstStep(AddAllToBuffer(c, s, samples))
    decreases |samples|
  {
    if samples != [] {
      var item := Item(samples[0], s.version);
      CoreAddToBuffer(c, s, item);
      FirstAdd(c, s, item);
      FirstAddAll(c, AddToBuffer(c, s, item), samples[1..]);
    }
  }

  lemma FirstReturned(c: Config, s: State, i: nat, samples: seq<int>)
    requires c.Valid() && Core(c, s) && OneStep(c, s) && Enabled(c, s, Returned(i, samples))
    ensures OneStep(c, StepReturned(c, s, i, samples))
  {
    AddAllArrived(c, s, samples);
    if s.faithful {
      FirstAddAll(c, s, samples);
    }
  }

  lemma FirstCollected(c: Config, s: State, samples: seq<int>)
    requires c.Valid() && Core(c, s) && OneStep(c, s) && Enabled(c, s, Collected(samples))
    ensures OneStep(c, StepCollected(c, s, samples))
  {
    AppendAllArrived(s, samples);
    var s1 := AppendAll(s, samples);
    assert s.faithful && s.steps == 0 ==> Fresh(s1.buffer, 0);
  }

  lemma FirstTrain(c: Config, s: State, i: nat, outcome: TrainOutcome)
    requires c.numTrainSteps <= 1 && Core(c, s) && OneStep(c, s) && TrainEnabled(s, i, outcome)
    ensures OneStep(c, StepTrain(c, s, i, outcome))
  {
    OnlyTrainer(s, i);
  }

  lemma OneStepStep(c: Config, s: State, e: Event)
    requires c.Valid() && c.numTrainSteps <= 1 && Core(c, s) && OneStep(c, s) && Enabled(c, s, e)
    ensures OneStep(c, Step(c, s, e))
  {
    match e
    case Main =>
    case NextTurn =>
    case Collected(samples) => FirstCollected(c, s, samples);
    case Request(i) =>
    case Returned(i, samples) => FirstReturned(c, s, i, samples);
    case Train(i, outcome) => FirstTrain(c, s, i, outcome);
  }

  lemma {:induction false} OneStepRun(c: Config, s: State, es: seq<Event>)
    requires c.Valid() && c.numTrainSteps <= 1 && Core(c, s) && OneStep(c, s) && IsRun(c, s, es)
    ensures OneStep(c, After(c, s, es))
    decreases |es|
  {
    if es != [] {
      CoreStep(c, s, es[0]);
      OneStepStep(c, s, es[0]);
      OneStepRun(c, Step(c, s, es[0]), es[1..]);
    }
  }

  /** A tenant that makes at most one step records staleness 0 only, in either loop. */
  lemma OneStepIsFresh(c: Config, version: int, s: State)
    requires c.Valid() && c.numTrainSteps <= 1 && Reachable(c, version, s) && s.faithful
    ensures AllFresh(s)
  {
    var es :| IsRun(c, Init(c, version), es) && After(c, Init(c, version), es) == s;
    InvInit(c, version);
    OneStepRun(c, Init(c, version), es);
  }

  /** Serial sync mode with one item a request records staleness 0 only, even when training steps fail. */
  lemma SyncModeIsFresh(c: Config, version: int, s: State)
    requires c.Valid() && SerialSync(c) && c.MaxItems() <= 1 && Reachable(c, version, s) && s.faithful
    ensures AllFresh(s)
  {
    InvReachable(c, version, s);
  }

  // Two items an episode and two steps

  /** Between two episodes, with nothing in training. */
  ghost predicate Filling(c: Config, s: State) {
    && Reachable(c, 0, s) && s.main.Head? && !s.training && s.trainers == []
    && s.version == s.steps < c.numTrainSteps && s.failed == 0 && s.faithful
  }

  /** One-item episodes until the buffer holds n items, short of a batch. */
  lemma {:induction false} Fill(c: Config, s: State, n: nat) returns (s': State)
    requires c.Valid() && SerialSync(c) && c.MaxItems() >= 2 && Filling(c, s)
    requires |s.buffer| <= n && (n == |s.buffer| || n < c.bufferSize)
    ensures Filling(c, s') && |s'.buffer| == n && s.buffer <= s'.buffer && s'.steps == s.steps
    decreases n - |s.buffer|
  {
    if |s.buffer| == n {
      s' := s;
    } else {
      AppendOne(s.(main := Own(Sampling)), 0);
      var s1 := Sampled(c, s, [0]);
      SampledReachable(c, s, [0], s1);
      s' := Fill(c, s1, n);
    }
  }

  /** An episode that completes a batch, the step it triggers, and back to the loop. */
  lemma BatchAndStep(c: Config, s: State, samples: seq<int>) returns (s': State)
    requires c.Valid() && SerialSync(c) && Filling(c, s) && |samples| <= c.MaxItems()
    requires |s.buffer| + |samples| >= c.bufferSize
    ensures Reachable(c, 0, s') && s'.main.Head? && !s'.training && s'.trainers == []
    ensures s'.version == s'.steps == s.steps + 1 && s'.failed == 0 && s'.faithful
    ensures |s'.buffer| == |s.buffer| + |samples| - c.bufferSize
    ensures forall k :: |s'.buffer| - |samples| <= k < |s'.buffer| && 0 <= k ==> s'.buffer[k].version == s.steps
    ensures |s'.records| > 0 && (s.buffer != [] ==>
              var r := s'.records[|s'.records| - 1];
              |r.staleness| > 0 && r.staleness[0] == s.steps - s.buffer[0].version)
  {
    var s0 := s.(main := Own(Sampling));
    AppendAllArrived(s0, samples);
    var s1 := Sampled(c, s, samples);
    SampledReachable(c, s, samples, s1);
    TrainedReachable(c, s1);
    s' := Trained(s1).(main := Head);
    Go(c, Trained(s1), Main, s');
  }

  /**
   * Two items in an episode and two steps are enough: an episode that overfills a batch
   * leaves an item behind, which trains one step later.
   */
  lemma EpisodesGoStale(c: Config) returns (s: State)
    requires c.Valid() && SerialSync(c) && c.MaxItems() >= 2 && c.numTrainSteps >= 2
    ensures Reachable(c, 0, s) && s.faithful && s.failed == 0 && !AllFresh(s)
  {
    ReachInit(c, 0);
    var s1 := Fill(c, Init(c, 0), c.bufferSize - 1);
    var s2 := BatchAndStep(c, s1, [0, 0]);
    assert s2.buffer[0].version == 0;
    var s3 := Fill(c, s2, if c.bufferSize > 1 then c.bufferSize - 1 else 1);
    s := BatchAndStep(c, s3, [0]);
    var r := s.records[|s.records| - 1];
    assert r.staleness[0] == 1 && !AllZero(r.staleness);
  }

  /**
   * Exactly when serial sync mode keeps its promise: with faithful syncs, every recorded
   * staleness of every run is 0 if and only if an episode has at most one item or the
   * tenant makes at most one step.
   */
  lemma SyncModeFreshExactly(c: Config)
    requires c.Valid() && SerialSync(c)
    ensures (forall version: int, s: State :: Reachable(c, version, s) && s.faithful ==> AllFresh(s)) <==>
            c.MaxItems() <= 1 || c.numTrainSteps <= 1
  {
    if c.MaxItems() <= 1 {
      forall version: int, s | Reachable(c, version, s) && s.faithful ensures AllFresh(s) {
        SyncModeIsFresh(c, version, s);
      }
    } else if c.numTrainSteps <= 1 {
      forall version: int, s | Reachable(c, version, s) && s.faithful ensures AllFresh(s) {
        OneStepIsFresh(c, version, s);
      }
    } else {
      var s := EpisodesGoStale(c);
    }
  }
}
