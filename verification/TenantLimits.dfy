/** Where the tenant's back-pressure and sync mode stop short, with the inputs that show it. */
module TenantLimits {
  import opened Wrappers
  import opened TenantSpec

  lemma {:induction false} RunSnoc(c: Config, s: State, es: seq<Event>, e: Event)
    requires IsRun(c, s, es) && Enabled(c, After(c, s, es), e)
    ensures IsRun(c, s, es + [e]) && After(c, s, es + [e]) == Step(c, After(c, s, es), e)
    decreases |es|
  {
    if es == [] {
      assert IsRun(c, Step(c, s, e), []);
      assert [e][1..] == [];
    } else {
      RunSnoc(c, Step(c, s, es[0]), es[1..], e);
      assert (es + [e])[1..] == es[1..] + [e];
    }
  }

  lemma ReachStep(c: Config, version: int, s: State, e: Event)
    requires Reachable(c, version, s) && Enabled(c, s, e)
    ensures Reachable(c, version, Step(c, s, e))
  {
    var es :| IsRun(c, Init(c, version), es) && After(c, Init(c, version), es) == s;
    RunSnoc(c, Init(c, version), es, e);
  }

  lemma ReachInit(c: Config, version: int)
    ensures Reachable(c, version, Init(c, version))
  {
    assert IsRun(c, Init(c, version), []);
  }

  /** Every coroutine that is left waits for a staleness pause to end. */
  ghost predicate AllPaused(s: State) {
    && s.trainers == [] && !s.training
    && (forall i :: 0 <= i < |s.requests| ==> s.requests[i] == Paused)
    && (|| s.main == Own(Paused)
        || s.main.BudgetPaused?
        || (s.main.Acquire? && s.permits == 0 && s.requests != [])
        || (s.main.Gather? && s.requests != []))
  }

  lemma PausedStep(c: Config, s: State, e: Event)
    requires AllPaused(s) && OverBudget(c, s) && |s.buffer| >= c.bufferSize && Enabled(c, s, e)
    ensures Step(c, s, e) == s.(pauses := s.pauses + 1)
  {
    match e
    case Request(i) => assert s.requests[i := Paused] == s.requests;
    case _ =>
  }

  lemma {:induction false} PausedForever(c: Config, s: State, es: seq<Event>)
    requires AllPaused(s) && OverBudget(c, s) && |s.buffer| >= c.bufferSize && IsRun(c, s, es)
    ensures After(c, s, es) == s.(pauses := s.pauses + |es|)
    decreases |es|
  {
    if es != [] {
      PausedStep(c, s, es[0]);
      PausedForever(c, Step(c, s, es[0]), es[1..]);
    }
  }

  /** No run from here ever lets a waiter through. */
  ghost predicate HungForever(c: Config, s: State) {
    forall es :: IsRun(c, s, es) ==> AllPaused(After(c, s, es))
  }

  /**
   * Once only paused waiters are left and no training task is alive, the tenant hangs
   * for ever if and only if the sampler is over budget and the buffer holds a batch.
   */
  lemma HangsExactlyWhenBufferFull(c: Config, s: State)
    requires AllPaused(s)
    ensures OverBudget(c, s) && |s.buffer| >= c.bufferSize <==> HungForever(c, s)
  {
    if OverBudget(c, s) && |s.buffer| >= c.bufferSize {
      forall es | IsRun(c, s, es) ensures AllPaused(After(c, s, es)) {
        PausedForever(c, s, es);
      }
    } else {
      var e := EndingEvent(c, s);
      var s' := Step(c, s, e);
      var es := [e];
      assert es[1..] == [] && IsRun(c, s', es[1..]) && After(c, s', es[1..]) == s';
      assert IsRun(c, s, es) && !AllPaused(After(c, s, es));
      assert !HungForever(c, s);
    }
  }

  lemma EndingEvent(c: Config, s: State) returns (e: Event)
    requires AllPaused(s) && (!OverBudget(c, s) || |s.buffer| < c.bufferSize)
    ensures Enabled(c, s, e) && !AllPaused(Step(c, s, e))
  {
    if s.requests != [] {
      assert s.requests[0] == Paused;
      e := Request(0);
      assert Step(c, s, e).requests[0] == Sampling;
    } else {
      e := Main;
    }
  }

  lemma Go(c: Config, s: State, e: Event, s': State)
    requires Reachable(c, 0, s) && Enabled(c, s, e) && Step(c, s, e) == s'
    ensures Reachable(c, 0, s')
  {
    ReachStep(c, 0, s, e);
  }

  /** A two-step serial tenant with batches of one and staleness limit 0. */
  ghost const HANGING := Config(2, 1, 1, Some(0), false, false, false, 0, false, 0)

  ghost function Hanging(main: MainPc, pc: TrainPc, buffer: seq<Item>, steps: nat, log: seq<nat>): State {
    State(main, [], [Trainer(0, [Item(7, 0)], pc)], 1, buffer, true, steps, 0, 0,
          [Item(7, 0)] + buffer, [[Item(7, 0)]], log,
          if pc.Created? then [] else [Record(0, 1, [0], 0)], 0, 0, true)
  }

  lemma HangingFirstBatch()
    ensures Reachable(HANGING, 0, Hanging(Head, Created, [], 0, []))
  {
    var c, s := HANGING, Init(HANGING, 0);
    ReachInit(c, 0);
    Go(c, s, Main, s.(main := Own(Rate)));
    Go(c, s.(main := Own(Rate)), Main, s.(main := Own(Sampling)));
    var s1 := AppendAll(s.(main := Own(Sampling)), [7]);
    assert [7][1..] == [];
    assert s1 == s.(main := Own(Sampling), buffer := [Item(7, 0)], arrivals := [Item(7, 0)]);
    assert [Item(7, 0)][..1] == [Item(7, 0)] && [Item(7, 0)][1..] == [];
    Go(c, s.(main := Own(Sampling)), Collected([7]), Hanging(Head, Created, [], 0, []));
  }

  lemma HangingSecondItem()
    ensures Reachable(HANGING, 0, Hanging(Head, Syncing, [Item(8, 0)], 1, [0]))
  {
    var c := HANGING;
    HangingFirstBatch();
    Go(c, Hanging(Head, Created, [], 0, []), Main, Hanging(Own(Rate), Created, [], 0, []));
    Go(c, Hanging(Own(Rate), Created, [], 0, []), Main, Hanging(Own(Sampling), Created, [], 0, []));
    assert Staleness(0, [Item(7, 0)]) == [0];
    Go(c, Hanging(Own(Sampling), Created, [], 0, []), Train(0, Resume), Hanging(Own(Sampling), Stepping, [], 0, []));
    Go(c, Hanging(Own(Sampling), Stepping, [], 0, []), Train(0, Success), Hanging(Own(Sampling), Syncing, [], 1, [0]));
    assert [8][1..] == [];
    Go(c, Hanging(Own(Sampling), Syncing, [], 1, [0]), Collected([8]), Hanging(Head, Syncing, [Item(8, 0)], 1, [0]));
  }

  /** Such a hang is reachable: the sync of step 1 fails while the next item is buffered. */
  lemma FailedSyncHangs()
    ensures exists s :: Reachable(HANGING, 0, s) && AllPaused(s) && OverBudget(HANGING, s)
                        && |s.buffer| >= HANGING.bufferSize
  {
    var c, items := HANGING, [Item(8, 0)];
    HangingSecondItem();
    Go(c, Hanging(Head, Syncing, items, 1, [0]), Main, Hanging(Own(Rate), Syncing, items, 1, [0]));
    var s := Hanging(Own(Paused), Syncing, items, 1, [0]).(pauses := 1);
    Go(c, Hanging(Own(Rate), Syncing, items, 1, [0]), Main, s);
    var s' := s.(trainers := [], training := false, faithful := false);
    Go(c, s, Train(0, Raise), s');
    assert AllPaused(s') && OverBudget(c, s');
  }

  lemma AppendOne(s: State, sample: int)
    ensures AppendAll(s, [sample]) == Append(s, Item(sample, s.version))
  {
    assert [sample][1..] == [];
    assert AppendAll(s, [sample]) == AppendAll(Append(s, Item(sample, s.version)), []);
  }

  /** The serial loop's next request or episode delivers its samples. */
  ghost function Sampled(c: Config, s: State, samples: seq<int>): State {
    StepCollected(c, s.(main := Own(Sampling)), samples)
  }

  lemma SampledReachable(c: Config, s: State, samples: seq<int>, s': State)
    requires Reachable(c, 0, s) && !c.asyncSampling && s.main.Head? && |samples| <= c.MaxItems()
    requires s.steps < c.numTrainSteps && !OverBudget(c, s)
    requires s' == Sampled(c, s, samples)
    ensures Reachable(c, 0, s')
  {
    Go(c, s, Main, s.(main := Own(Rate)));
    Go(c, s.(main := Own(Rate)), Main, s.(main := Own(Sampling)));
    Go(c, s.(main := Own(Sampling)), Collected(samples), s');
  }

  /** The state after a whole training step and a faithful sync. */
  ghost function Trained(s: State): State
    requires |s.trainers| == 1
  {
    var t := s.trainers[0];
    s.(trainers := [], training := false, steps := s.steps + 1, version := s.steps + 1,
       stepLog := s.stepLog + [t.batch],
       records := s.records + [Record(t.batch, s.steps + 1, Staleness(s.steps, t.items), s.failed)])
  }

  lemma StartedReachable(c: Config, s: State, s': State)
    requires Reachable(c, 0, s) && |s.trainers| == 1 && s.trainers[0].pc.Created? && s.steps < c.numTrainSteps
    requires var t := s.trainers[0];
             s' == s.(trainers := [t.(pc := Stepping)],
                      records := s.records + [Record(t.batch, s.steps + 1, Staleness(s.steps, t.items), s.failed)])
    ensures Reachable(c, 0, s')
  {
    if c.collectLogprobs {
      var s1 := s'.(trainers := [s.trainers[0].(pc := Scoring)]);
      Go(c, s, Train(0, Resume), s1);
      Go(c, s1, Train(0, Resume), s');
    } else {
      Go(c, s, Train(0, Resume), s');
    }
  }

  lemma SyncedReachable(c: Config, s: State, s': State)
    requires Reachable(c, 0, s) && |s.trainers| == 1 && s.trainers[0].pc.Syncing?
    requires s' == s.(version := s.steps, trainers := [], training := false)
    ensures Reachable(c, 0, s')
  {
    assert Without(s.trainers, 0) == [];
    if c.evalInterval > 0 && s.steps % c.evalInterval == 0 {
      var s1 := s.(version := s.steps, trainers := [s.trainers[0].(pc := Evaluating)]);
      Go(c, s, Train(0, Synced(s.steps)), s1);
      assert Without(s1.trainers, 0) == [];
      Go(c, s1, Train(0, Resume), s');
    } else {
      Go(c, s, Train(0, Synced(s.steps)), s');
    }
  }

  lemma TrainedReachable(c: Config, s: State)
    requires Reachable(c, 0, s) && |s.trainers| == 1 && s.trainers[0].pc.Created?
    requires s.steps < c.numTrainSteps
    ensures Reachable(c, 0, Trained(s))
  {
    var t := s.trainers[0];
    var s1 := s.(trainers := [t.(pc := Stepping)],
                 records := s.records + [Record(t.batch, s.steps + 1, Staleness(s.steps, t.items), s.failed)]);
    StartedReachable(c, s, s1);
    var s2 := s1.(trainers := [t.(pc := Syncing)], steps := s.steps + 1, stepLog := s.stepLog + [t.batch]);
    Go(c, s1, Train(0, Success), s2);
    SyncedReachable(c, s2, Trained(s));
  }

  ghost const CAPPED := Config(3, 1, 1, Some(1), false, false, false, 0, false, 0)

  /** Three samples taken while the first batch waits to train all carry version 0. */
  lemma CappedBacklog() returns (s: State)
    ensures Reachable(CAPPED, 0, s) && s.main.Head?
    ensures s.steps == 0 == s.version && s.trainers == [Trainer(0, [Item(1, 0)], Created)] && s.training
    ensures s.buffer == [Item(2, 0), Item(3, 0)] && |s.batches| == 1
    ensures s.failed == 0 && s.faithful && s.records == []
  {
    var c := CAPPED;
    ReachInit(c, 0);
    var s0 := Init(c, 0);
    AppendOne(s0.(main := Own(Sampling)), 1);
    assert [Item(1, 0)][..1] == [Item(1, 0)] && [Item(1, 0)][1..] == [];
    var s1 := Sampled(c, s0, [1]);
    SampledReachable(c, s0, [1], s1);
    assert Append(s0.(main := Own(Sampling)), Item(1, 0)).buffer == [Item(1, 0)];
    assert BatchReady(c, Append(s0.(main := Own(Sampling)), Item(1, 0)));
    assert s1.buffer == [] && s1.trainers == [Trainer(0, [Item(1, 0)], Created)];
    AppendOne(s1.(main := Own(Sampling)), 2);
    var s2 := Sampled(c, s1, [2]);
    SampledReachable(c, s1, [2], s2);
    assert s2.buffer == [Item(2, 0)];
    AppendOne(s2.(main := Own(Sampling)), 3);
    s := Sampled(c, s2, [3]);
    SampledReachable(c, s2, [3], s);
  }

  /** The oldest buffered item becomes the next batch when one more sample arrives. */
  lemma NextBatch(c: Config, s: State, sample: int) returns (s': State)
    requires Reachable(c, 0, s) && !c.asyncSampling && !c.syncMode && c.bufferSize == 1 && s.main.Head?
    requires s.steps < c.numTrainSteps && !OverBudget(c, s)
    requires s.trainers == [] && !s.training && s.buffer != []
    ensures Reachable(c, 0, s') && s'.main.Head? && s'.training
    ensures s'.trainers == [Trainer(|s.batches|, [s.buffer[0]], Created)]
    ensures s'.buffer == s.buffer[1..] + [Item(sample, s.version)] && |s'.batches| == |s.batches| + 1
    ensures s'.steps == s.steps && s'.version == s.version && s'.failed == s.failed
    ensures s'.faithful == s.faithful && s'.records == s.records
  {
    AppendOne(s.(main := Own(Sampling)), sample);
    s' := Sampled(c, s, [sample]);
    assert (s.buffer + [Item(sample, s.version)])[..1] == [s.buffer[0]];
    SampledReachable(c, s, [sample], s');
  }

  /** The staleness limit is not a bound on staleness: limit 1, recorded staleness 2. */
  lemma StalenessLimitCanBeExceeded()
    ensures exists s, r :: Reachable(CAPPED, 0, s) && s.failed == 0 && s.faithful
              && r in s.records && |r.staleness| == 1 && r.staleness[0] > CAPPED.stalenessLimit.value
  {
    var c := CAPPED;
    var s := CappedBacklog();
    TrainedReachable(c, s);
    var s1 := NextBatch(c, Trained(s), 4);
    TrainedReachable(c, s1);
    var s2 := NextBatch(c, Trained(s1), 5);
    assert s2.trainers == [Trainer(2, [Item(3, 0)], Created)];
    TrainedReachable(c, s2);
    var s3 := Trained(s2);
    var r := s3.records[|s3.records| - 1];
    assert r in s3.records && r.staleness == [2];
  }
}
