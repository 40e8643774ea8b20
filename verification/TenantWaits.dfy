/** When the staleness wait ends, and what each stretch of the tenant leads to next. */
module TenantWaits {
  import opened Wrappers
  import opened TenantSpec
  import opened TenantInvariants
  import opened TenantLedger
  import opened TenantBounds
  import opened TenantTheorems

  // The staleness wait

  /** The version gap is beyond the limit: above 0 for limit 0, otherwise at the limit or more. */
  ghost predicate Stale(c: Config, s: State) {
    c.stalenessLimit.Some? &&
    var limit, gap := c.stalenessLimit.value, s.steps - s.version;
    if limit == 0 then gap > 0 else gap >= limit
  }

  /** A waiter that has slept goes on without a budget only when nothing can lower the gap. */
  ghost predicate Released(c: Config, s: State, slept: bool) {
    !Stale(c, s) || (slept && s.trainers == [] && |s.buffer| < c.bufferSize)
  }

  ghost predicate MainWaits(s: State) {
    s.main.BudgetPaused? || s.main == Own(Rate) || s.main == Own(Paused)
  }

  ghost predicate GoesOn(main: MainPc) {
    main.Acquire? || main == Own(Sampling)
  }

  lemma ReleasedMeans(c: Config, s: State, slept: bool)
    requires SingleFlight(s)
    ensures MayProceed(c, s, slept) <==> Released(c, s, slept)
  {
  }

  /**
   * In every reachable state the main loop ends its wait if and only if the gap is within
   * the budget, or it has slept, no training task is alive and the buffer is short of a
   * batch.  Otherwise it sleeps, and that is counted as one pause.
   */
  lemma MainReleasedExactly(c: Config, version: int, s: State)
    requires c.Valid() && Reachable(c, version, s) && MainWaits(s)
    ensures MainEnabled(c, s)
    ensures var s' := StepMain(c, s);
            && (GoesOn(s'.main) <==> Released(c, s, s.main != Own(Rate)))
            && (GoesOn(s'.main) ==> s'.main == (if s.main.BudgetPaused? then Acquire else Own(Sampling)))
            && (!GoesOn(s'.main) ==> s'.main == if s.main.BudgetPaused? then BudgetPaused else Own(Paused))
            && s' == s.(main := s'.main, pauses := s.pauses + if GoesOn(s'.main) then 0 else 1)
  {
    InvReachable(c, version, s);
    ReleasedMeans(c, s, s.main != Own(Rate));
  }

  /** The async loop's first look: it may dispatch at once exactly within the budget and short of the quota. */
  lemma HeadLooksOnce(c: Config, version: int, s: State)
    requires c.Valid() && Reachable(c, version, s) && c.asyncSampling && s.main.Head?
    ensures var s' := StepMain(c, s);
            && (s'.main.Gather? <==> s.steps * c.bufferSize + |s.buffer| >= c.numTrainSteps * c.bufferSize)
            && (!s'.main.Gather? ==> (s'.main.Acquire? <==> !Stale(c, s)) && (s'.main.BudgetPaused? <==> Stale(c, s)))
            && s' == s.(main := s'.main, pauses := s.pauses + if s'.main.BudgetPaused? then 1 else 0)
  {
    InvReachable(c, version, s);
    ReleasedMeans(c, s, false);
    if s.steps >= c.numTrainSteps {
      assert s.steps * c.bufferSize >= c.numTrainSteps * c.bufferSize;
    }
  }

  /** The same for a dispatched request; the others do not move. */
  lemma RequestReleasedExactly(c: Config, version: int, s: State, i: nat)
    requires c.Valid() && Reachable(c, version, s) && i < |s.requests| && s.requests[i] != Sampling
    ensures Enabled(c, s, Request(i))
    ensures var s', released := Step(c, s, Request(i)), Released(c, s, s.requests[i] == Paused);
            s' == s.(requests := s.requests[i := if released then Sampling else Paused],
                     pauses := s.pauses + if released then 0 else 1)
  {
    InvReachable(c, version, s);
    ReleasedMeans(c, s, s.requests[i] == Paused);
  }

  /** Where request k is after the event, unless it is the one that returned. */
  ghost function IndexAfter(e: Event, k: nat): int {
    if e.Returned? && e.i < k then k - 1 else k
  }

  lemma ReturnedFrame(c: Config, s: State, i: nat, samples: seq<int>)
    requires c.Valid() && Core(c, s) && Enabled(c, s, Returned(i, samples))
    ensures var s' := StepReturned(c, s, i, samples);
            && s'.main == s.main && s'.permits == s.permits + 1 && |s'.requests| == |s.requests| - 1
            && (forall k: nat :: k < |s.requests| && k != i ==>
                  s'.requests[if i < k then k - 1 else k] == s.requests[k])
  {
    CoreAddAll(c, s, samples);
  }

  /** Requests from before that wait are waiting still. */
  ghost predicate WaitersStay(s: State, s': State, e: Event) {
    forall k: nat :: k < |s.requests| && s.requests[k] != Sampling ==>
      0 <= IndexAfter(e, k) < |s'.requests| && s'.requests[IndexAfter(e, k)] != Sampling
  }

  lemma CollectedFrame(c: Config, s: State, samples: seq<int>)
    ensures var s' := StepCollected(c, s, samples);
            s'.requests == s.requests && s'.permits == s.permits && (s'.main.Head? || s'.main.Inline?)
  {
    AppendAllArrived(s, samples);
  }

  lemma MainHeld(c: Config, s: State)
    requires Core(c, s) && s.trainers != [] && Stale(c, s) && MainEnabled(c, s) && (MainWaits(s) || s.main.Head?)
    ensures !GoesOn(StepMain(c, s).main)
  {
    ReleasedMeans(c, s, s.main != Own(Rate));
    ReleasedMeans(c, s, false);
  }

  lemma MainRequests(c: Config, s: State)
    requires MainEnabled(c, s)
    ensures StepMain(c, s).requests == s.requests
            || (s.main.Acquire? && s.steps < c.numTrainSteps && StepMain(c, s).requests == s.requests + [Rate])
  {
  }

  lemma RequestHeld(c: Config, s: State, i: nat)
    requires Core(c, s) && s.trainers != [] && Stale(c, s) && Enabled(c, s, Request(i))
    ensures WaitersStay(s, StepRequest(c, s, i), Request(i)) && StepRequest(c, s, i).main == s.main
  {
    ReleasedMeans(c, s, s.requests[i] == Paused);
  }

  lemma TrainFrame(c: Config, s: State, i: nat, outcome: TrainOutcome)
    requires TrainEnabled(s, i, outcome)
    ensures var s' := StepTrain(c, s, i, outcome);
            s'.main == s.main && s'.requests == s.requests && s'.permits == s.permits
  {
  }

  /**
   * While a training task is alive and the gap is beyond the limit, no step of anybody lets
   * a waiter go on: not the main loop, and no request.
   */
  lemma NobodyPassesWhileTraining(c: Config, version: int, s: State, e: Event)
    requires c.Valid() && Reachable(c, version, s) && s.trainers != [] && Stale(c, s) && Enabled(c, s, e)
    ensures MainWaits(s) || s.main.Head? ==> !GoesOn(Step(c, s, e).main)
    ensures WaitersStay(s, Step(c, s, e), e)
  {
    InvReachable(c, version, s);
    match e
    case Main =>
      MainRequests(c, s);
      if MainWaits(s) || s.main.Head? {
        MainHeld(c, s);
      }
    case NextTurn =>
    case Collected(samples) => CollectedFrame(c, s, samples);
    case Request(i) => RequestHeld(c, s, i);
    case Returned(i, samples) => ReturnedFrame(c, s, i, samples);
    case Train(i, outcome) => TrainFrame(c, s, i, outcome);
  }

  ghost predicate StartsSampling(s: State, s': State, e: Event, k: nat)
    requires k < |s.requests|
  {
    s.requests[k] != Sampling && 0 <= IndexAfter(e, k) < |s'.requests| && s'.requests[IndexAfter(e, k)] == Sampling
  }

  /**
   * Whoever samples has passed the wait for it: every request, and every turn of the serial
   * loop's own request.
   */
  lemma EveryCallWaits(c: Config, version: int, s: State, e: Event)
    requires c.Valid() && Reachable(c, version, s) && Enabled(c, s, e)
    ensures Step(c, s, e).main == Own(Sampling) ==>
              || (e.Main? && MainWaits(s) && Released(c, s, s.main == Own(Paused)))
              || (s.main == Own(Sampling) && !e.NextTurn? && !e.Collected?)
    ensures forall k: nat :: k < |s.requests| && StartsSampling(s, Step(c, s, e), e, k) ==>
              e == Request(k) && Released(c, s, s.requests[k] == Paused)
  {
    InvReachable(c, version, s);
    match e
    case Main =>
      MainRequests(c, s);
      ReleasedMeans(c, s, s.main == Own(Paused));
    case NextTurn =>
    case Collected(samples) => CollectedFrame(c, s, samples);
    case Request(i) => ReleasedMeans(c, s, s.requests[i] == Paused);
    case Returned(i, samples) => ReturnedFrame(c, s, i, samples);
    case Train(i, outcome) => TrainFrame(c, s, i, outcome);
  }

  // Dispatch and arrivals

  /** A single-turn request yields at most one item, an episode at most one per turn, of which 8 by default. */
  lemma YieldsAtMost(c: Config, s: State, samples: seq<int>)
    requires s.main == Own(Sampling)
    ensures Enabled(c, s, Collected(samples)) <==>
            |samples| <= (if !c.agent then 1 else if c.maxTurns <= 0 then 8 else c.maxTurns)
  {
  }

  /** A request task is created only for a target not yet met, with a permit, by the async loop. */
  lemma DispatchedOnlyWhenNeeded(c: Config, version: int, s: State, e: Event)
    requires c.Valid() && Reachable(c, version, s) && Enabled(c, s, e) && |Step(c, s, e).requests| > |s.requests|
    ensures e.Main? && s.main.Acquire? && c.asyncSampling && s.permits > 0 && s.steps < c.numTrainSteps
    ensures Step(c, s, e).requests == s.requests + [Rate] && Step(c, s, e).permits == s.permits - 1
  {
    InvReachable(c, version, s);
    match e
    case Main => MainRequests(c, s);
    case NextTurn =>
    case Collected(samples) => CollectedFrame(c, s, samples);
    case Request(i) =>
    case Returned(i, samples) => ReturnedFrame(c, s, i, samples);
    case Train(i, outcome) => TrainFrame(c, s, i, outcome);
  }

  lemma {:induction false} AddAllTrains(c: Config, s: State, samples: seq<int>)
    requires samples != []
    ensures var s' := AddAllToBuffer(c, s, samples); s'.training || |s'.buffer| < c.bufferSize
    decreases |samples|
  {
    var item := Item(samples[0], s.version);
    if |samples| > 1 {
      AddAllTrains(c, AddToBuffer(c, s, item), samples[1..]);
    } else {
      assert AddAllToBuffer(c, AddToBuffer(c, s, item), samples[1..]) == AddToBuffer(c, s, item);
    }
  }

  /** An arrival leaves a whole batch in the buffer only while a training task is alive. */
  lemma FullBufferTrains(c: Config, version: int, s: State, e: Event)
    requires c.Valid() && Reachable(c, version, s) && Enabled(c, s, e) && Delivered(e) != []
    ensures var s' := Step(c, s, e); |s'.trainers| == 1 || |s'.buffer| < c.bufferSize
  {
    InvReachable(c, version, s);
    CoreStep(c, s, e);
    match e
    case Collected(samples) =>
    case Returned(i, samples) => AddAllTrains(c, s, samples);
  }

  /** Draining starts a batch exactly when nothing trains, items are left and the target is not met. */
  lemma DrainTrainsTheRest(c: Config, version: int, s: State)
    requires c.Valid() && Reachable(c, version, s) && s.main.Drain?
    ensures var s' := StepMain(c, s);
            && (|s'.batches| > |s.batches| <==> s.trainers == [] && s.buffer != [] && s.steps < c.numTrainSteps)
            && (|s'.batches| > |s.batches| ==>
                  |s'.trainers| == 1 && s'.trainers[0].items + s'.buffer == s.buffer && s'.main.Drain?)
            && (s'.main.WaitTrain? <==> s.buffer == [] || s.steps >= c.numTrainSteps)
  {
    InvReachable(c, version, s);
  }

  // The end

  ghost predicate AllMain(es: seq<Event>) {
    forall i :: 0 <= i < |es| ==> es[i].Main?
  }

  lemma GoMain(c: Config, s: State, rest: seq<Event>) returns (es: seq<Event>)
    requires MainEnabled(c, s) && IsRun(c, StepMain(c, s), rest) && AllMain(rest)
    ensures es == [Main] + rest && IsRun(c, s, es) && AllMain(es)
    ensures After(c, s, es) == After(c, StepMain(c, s), rest)
  {
    es := [Main] + rest;
    assert es[1..] == rest;
  }

  /** Once the target is met and no task is left, the main loop ends within five stretches. */
  lemma {:induction false} EndsAfterTarget(c: Config, version: int, s: State) returns (es: seq<Event>)
    requires c.Valid() && Reachable(c, version, s)
    requires s.steps >= c.numTrainSteps && s.requests == [] && s.trainers == []
    requires !s.main.Own? && !s.main.BudgetPaused? && (s.main.Acquire? ==> c.concurrency > 0)
    ensures |es| <= 5 && AllMain(es) && IsRun(c, s, es) && After(c, s, es).main.Done?
  {
    InvReachable(c, version, s);
    es := EndsFrom(c, s, 5);
  }

  ghost function Remaining(c: Config, main: MainPc): nat {
    match main
    case Done => 0
    case WaitTrain => 1
    case Drain => 2
    case Gather => 3
    case Head => if c.asyncSampling then 4 else 2
    case Acquire => 4
    case Inline => 3
    case _ => 0
  }

  lemma {:induction false} EndsFrom(c: Config, s: State, n: nat) returns (es: seq<Event>)
    requires c.Valid() && Core(c, s) && s.steps >= c.numTrainSteps && s.requests == [] && s.trainers == []
    requires !s.main.Own? && !s.main.BudgetPaused? && (s.main.Acquire? ==> c.concurrency > 0)
    requires Remaining(c, s.main) <= n
    ensures |es| <= n && AllMain(es) && IsRun(c, s, es) && After(c, s, es).main.Done?
    decreases n
  {
    if s.main.Done? {
      es := [];
    } else {
      CoreMain(c, s);
      var rest := EndsFrom(c, StepMain(c, s), n - 1);
      es := GoMain(c, s, rest);
    }
  }

  // The sampler's version

  function ReportedVersion(version: int, e: Event): int {
    if e.Train? && e.outcome.Synced? then e.outcome.version else version
  }

  /** The version the last sync reported, or the first one. */
  ghost function LastSynced(version: int, es: seq<Event>): int
    decreases |es|
  {
    if es == [] then version
    else LastSynced(ReportedVersion(version, es[0]), es[1..])
  }

  lemma SyncedTrain(c: Config, s: State, i: nat, outcome: TrainOutcome)
    requires TrainEnabled(s, i, outcome)
    ensures StepTrain(c, s, i, outcome).version == ReportedVersion(s.version, Train(i, outcome))
  {
  }

  lemma SameVersion(c: Config, s: State)
    requires MainEnabled(c, s)
    ensures StepMain(c, s).version == s.version
  {
  }

  lemma ArrivedSameVersion(s: State, s': State)
    requires Arrived(s, s')
    ensures s'.version == s.version
  {
  }

  lemma SyncedStep(c: Config, s: State, e: Event)
    requires c.Valid() && Core(c, s) && Enabled(c, s, e)
    ensures Step(c, s, e).version == ReportedVersion(s.version, e)
  {
    match e
    case Main => SameVersion(c, s);
    case NextTurn =>
    case Collected(samples) =>
      CollectedArrived(c, s, samples);
      ArrivedSameVersion(s, StepCollected(c, s, samples));
    case Request(i) =>
    case Returned(i, samples) =>
      AddAllArrived(c, s, samples);
      ArrivedSameVersion(s, AddAllToBuffer(c, s, samples));
    case Train(i, outcome) => SyncedTrain(c, s, i, outcome);
  }

  lemma {:induction false} SyncedRun(c: Config, s: State, es: seq<Event>)
    requires c.Valid() && Core(c, s) && IsRun(c, s, es)
    ensures After(c, s, es).version == LastSynced(s.version, es)
    decreases |es|
  {
    if es != [] {
      CoreStep(c, s, es[0]);
      SyncedStep(c, s, es[0]);
      SyncedRun(c, Step(c, s, es[0]), es[1..]);
    }
  }

  /** Over every run the sampler's version is what the last sync that returned reported; a raise changes nothing. */
  lemma VersionIsLastSynced(c: Config, version: int, es: seq<Event>)
    requires c.Valid() && IsRun(c, Init(c, version), es)
    ensures After(c, Init(c, version), es).version == LastSynced(version, es)
  {
    InvInit(c, version);
    SyncedRun(c, Init(c, version), es);
  }

  // Optional stages

  ghost predicate At(s: State, pc: TrainPc) {
    s.trainers != [] && s.trainers[0].pc == pc
  }

  ghost function One(p: bool): nat {
    if p then 1 else 0
  }

  /** Logprob passes and evaluations done, and evaluations that fell due with a sync. */
  datatype Tally = Tally(scored: nat, evaluated: nat, due: nat)

  const UNCOUNTED := Tally(0, 0, 0)

  ghost function Count(c: Config, s: State, e: Event, t: Tally): Tally {
    if !e.Train? then t
    else if At(s, Scoring) then t.(scored := t.scored + 1)
    else if At(s, Evaluating) then t.(evaluated := t.evaluated + 1)
    else if e.outcome.Synced? && c.evalInterval > 0 && s.steps % c.evalInterval == 0 then t.(due := t.due + 1)
    else t
  }

  ghost function CountAll(c: Config, s: State, es: seq<Event>, t: Tally): Tally
    requires IsRun(c, s, es)
    decreases |es|
  {
    if es == [] then t else CountAll(c, Step(c, s, es[0]), es[1..], Count(c, s, es[0], t))
  }

  ghost predicate Tallied(c: Config, s: State, t: Tally) {
    && t.scored + One(At(s, Scoring)) == (if c.collectLogprobs then |s.records| else 0)
    && t.evaluated + One(At(s, Evaluating)) == t.due
  }

  lemma TalliedTrain(c: Config, s: State, i: nat, outcome: TrainOutcome, t: Tally)
    requires Core(c, s) && Tallied(c, s, t) && TrainEnabled(s, i, outcome)
    ensures Tallied(c, StepTrain(c, s, i, outcome), Count(c, s, Train(i, outcome), t))
  {
    OnlyTrainer(s, i);
  }

  /** Arrivals bring at most a batch that has not started. */
  lemma TalliedArrived(c: Config, s: State, s': State, t: Tally)
    requires Tallied(c, s, t) && Arrived(s, s')
    ensures Tallied(c, s', t)
  {
  }

  lemma TalliedMain(c: Config, s: State, t: Tally)
    requires Core(c, s) && Tallied(c, s, t) && MainEnabled(c, s)
    ensures Tallied(c, StepMain(c, s), t)
  {
  }

  lemma TalliedStep(c: Config, s: State, e: Event, t: Tally)
    requires c.Valid() && Core(c, s) && Tallied(c, s, t) && Enabled(c, s, e)
    ensures Tallied(c, Step(c, s, e), Count(c, s, e, t))
  {
    match e
    case Main => TalliedMain(c, s, t);
    case NextTurn =>
    case Collected(samples) =>
      CollectedArrived(c, s, samples);
      TalliedArrived(c, s, StepCollected(c, s, samples), t);
    case Request(i) =>
    case Returned(i, samples) =>
      AddAllArrived(c, s, samples);
      TalliedArrived(c, s, AddAllToBuffer(c, s, samples), t);
    case Train(i, outcome) => TalliedTrain(c, s, i, outcome, t);
  }

  lemma {:induction false} TalliedRun(c: Config, s: State, es: seq<Event>, t: Tally)
    requires c.Valid() && Core(c, s) && Tallied(c, s, t) && IsRun(c, s, es)
    ensures Tallied(c, After(c, s, es), CountAll(c, s, es, t))
    decreases |es|
  {
    if es != [] {
      CoreStep(c, s, es[0]);
      TalliedStep(c, s, es[0], t);
      TalliedRun(c, Step(c, s, es[0]), es[1..], Count(c, s, es[0], t));
    }
  }

  /**
   * Over every run: each batch that trains gets one logprob pass when these are collected
   * and none otherwise, and an evaluation follows exactly the syncs whose step count is a
   * multiple of the interval.
   */
  lemma OptionalStagesAreCounted(c: Config, version: int, es: seq<Event>)
    requires c.Valid() && IsRun(c, Init(c, version), es)
    ensures var s, t := After(c, Init(c, version), es), CountAll(c, Init(c, version), es, UNCOUNTED);
            && t.scored + One(At(s, Scoring)) == (if c.collectLogprobs then |s.records| else 0)
            && t.evaluated + One(At(s, Evaluating)) == t.due
  {
    InvInit(c, version);
    TalliedRun(c, Init(c, version), es, UNCOUNTED);
  }
}
