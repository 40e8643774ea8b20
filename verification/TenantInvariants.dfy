/** What every reachable tenant state satisfies, whatever the interleaving and failures. */
module TenantInvariants {
  import opened TenantSpec
  import opened Seqs

  /** Batches handed to the trainer whose step has neither counted nor failed yet. */
  ghost function Undecided(s: State): nat {
    if |s.trainers| > 0 && !s.trainers[0].pc.Syncing? && !s.trainers[0].pc.Evaluating? then 1 else 0
  }

  /** Main has left the sampling loop and no request is left to deliver items. */
  ghost predicate Quiet(c: Config, s: State) {
    c.asyncSampling && (s.main.Drain? || s.main.WaitTrain? || s.main.Done?)
  }

  ghost predicate SingleFlight(s: State) {
    && |s.trainers| <= 1
    && (s.training <==> |s.trainers| == 1)
  }

  /** Every item that arrived is in exactly one batch, in order, or still buffered. */
  ghost predicate Conserved(s: State) {
    s.arrivals == Flatten(s.batches) + s.buffer
  }

  /** Only the last batch can be short, and only when nothing can arrive any more. */
  ghost predicate BatchShape(c: Config, s: State) {
    && (forall b :: 0 <= b < |s.batches| ==> 0 < |s.batches[b]| <= c.bufferSize)
    && (forall b :: 0 <= b < |s.batches| && |s.batches[b]| < c.bufferSize ==>
          b == |s.batches| - 1 && s.buffer == [] && Quiet(c, s))
  }

  ghost predicate Accounting(c: Config, s: State) {
    && s.steps <= c.numTrainSteps
    && |s.batches| == s.steps + s.failed + s.dropped + Undecided(s)
    && (s.dropped > 0 ==> s.steps == c.numTrainSteps)
    && (s.trainers != [] ==>
          && s.trainers[0].batch == |s.batches| - 1
          && s.trainers[0].items == s.batches[|s.batches| - 1])
  }

  ghost predicate Coroutines(c: Config, s: State) {
    && (s.requests != [] ==> c.asyncSampling && !Quiet(c, s))
    && s.permits + |s.requests| == c.concurrency
    && (c.asyncSampling ==> !s.main.Own? && !s.main.Inline?)
    && (!c.asyncSampling ==>
          s.main.Head? || s.main.Own? || s.main.Inline? || s.main.WaitTrain? || s.main.Done?)
    && (s.main.Done? ==> !s.training)
  }

  ghost predicate Core(c: Config, s: State) {
    SingleFlight(s) && Conserved(s) && BatchShape(c, s) && Accounting(c, s) && Coroutines(c, s)
  }

  lemma CoreAppend(c: Config, s: State, item: Item)
    requires Core(c, s) && !Quiet(c, s)
    ensures Core(c, Append(s, item))
  {
    assert Flatten(s.batches) + (s.buffer + [item]) == (Flatten(s.batches) + s.buffer) + [item];
  }

  lemma CoreStartBatch(c: Config, s: State)
    requires c.Valid() && Core(c, s) && !s.training && s.buffer != [] && !s.main.Done?
    requires |s.buffer| < c.bufferSize ==> Quiet(c, s)
    ensures Core(c, StartBatch(c, s))
  {
    BatchConserves(c, s);
    BatchHasShape(c, s);
  }

  lemma BatchConserves(c: Config, s: State)
    requires Conserved(s)
    ensures Conserved(StartBatch(c, s))
  {
    var n := Min(c.bufferSize, |s.buffer|);
    FlattenSnoc(s.batches, s.buffer[..n]);
    assert s.buffer == s.buffer[..n] + s.buffer[n..];
    assert Flatten(s.batches) + s.buffer == Flatten(s.batches) + s.buffer[..n] + s.buffer[n..];
  }

  lemma BatchHasShape(c: Config, s: State)
    requires c.Valid() && BatchShape(c, s) && s.buffer != []
    requires |s.buffer| < c.bufferSize ==> Quiet(c, s)
    ensures BatchShape(c, StartBatch(c, s))
  {
  }

  lemma CoreAddToBuffer(c: Config, s: State, item: Item)
    requires c.Valid() && Core(c, s) && !Quiet(c, s) && !s.main.Done?
    ensures Core(c, AddToBuffer(c, s, item))
    ensures AddToBuffer(c, s, item).main == s.main
  {
    CoreAppend(c, s, item);
    var s1 := Append(s, item);
    if BatchReady(c, s1) {
      CoreStartBatch(c, s1);
    }
  }

  lemma {:induction false} CoreAddAll(c: Config, s: State, samples: seq<int>)
    requires c.Valid() && Core(c, s) && !Quiet(c, s) && !s.main.Done?
    ensures Core(c, AddAllToBuffer(c, s, samples))
    ensures var s' := AddAllToBuffer(c, s, samples);
            s'.main == s.main && s'.requests == s.requests && s'.permits == s.permits
    decreases |samples|
  {
    if samples != [] {
      var item := Item(samples[0], s.version);
      CoreAddToBuffer(c, s, item);
      CoreAddAll(c, AddToBuffer(c, s, item), samples[1..]);
    }
  }

  lemma {:induction false} CoreAppendAll(c: Config, s: State, samples: seq<int>)
    requires Core(c, s) && !Quiet(c, s)
    ensures Core(c, AppendAll(s, samples))
    ensures AppendAll(s, samples) == s.(buffer := AppendAll(s, samples).buffer,
                                        arrivals := AppendAll(s, samples).arrivals)
    decreases |samples|
  {
    if samples != [] {
      var item := Item(samples[0], s.version);
      CoreAppend(c, s, item);
      CoreAppendAll(c, Append(s, item), samples[1..]);
    }
  }

  lemma CoreMain(c: Config, s: State)
    requires c.Valid() && Core(c, s) && MainEnabled(c, s)
    ensures Core(c, StepMain(c, s))
  {
    if s.main.Drain? && s.buffer != [] && s.steps < c.numTrainSteps && !s.training {
      CoreStartBatch(c, s);
    } else {
      MainMoves(c, s);
    }
  }

  lemma MainMoves(c: Config, s: State)
    requires Core(c, s) && MainEnabled(c, s) && |StepMain(c, s).batches| == |s.batches|
    ensures Core(c, StepMain(c, s))
  {
    MainCoroutines(c, s);
    MainFrame(c, s);
    CoreControl(c, s, StepMain(c, s));
  }

  lemma MainFrame(c: Config, s: State)
    requires MainEnabled(c, s) && |StepMain(c, s).batches| == |s.batches|
    ensures var s' := StepMain(c, s);
            s' == s.(main := s'.main, permits := s'.permits, requests := s'.requests, pauses := s'.pauses)
  {
  }

  lemma MainCoroutines(c: Config, s: State)
    requires Core(c, s) && MainEnabled(c, s) && |StepMain(c, s).batches| == |s.batches|
    ensures Coroutines(c, StepMain(c, s)) && (Quiet(c, s) ==> Quiet(c, StepMain(c, s)))
  {
  }

  /** A move that touches only control fields keeps what is said about data. */
  lemma CoreControl(c: Config, s: State, s': State)
    requires Core(c, s) && (Quiet(c, s) ==> Quiet(c, s')) && Coroutines(c, s')
    requires s' == s.(main := s'.main, permits := s'.permits, requests := s'.requests, pauses := s'.pauses)
    ensures Core(c, s')
  {
  }

  lemma OnlyTrainer(s: State, i: nat)
    requires SingleFlight(s) && i < |s.trainers|
    ensures i == 0 && EndTrainer(s, i) == s.(trainers := [], training := false)
    ensures forall pc :: MoveTrainer(s, i, pc) == s.(trainers := [s.trainers[0].(pc := pc)])
  {
  }

  lemma CoreEnd(c: Config, s: State, s': State)
    requires Core(c, s) && s.trainers != []
    requires s' == s.(trainers := [], training := false, failed := s'.failed, dropped := s'.dropped,
                      version := s'.version, faithful := s'.faithful)
    requires s'.failed + s'.dropped == s.failed + s.dropped + Undecided(s)
    requires s'.dropped > s.dropped ==> s.steps == c.numTrainSteps
    requires s.dropped <= s'.dropped
    ensures Core(c, s')
  {
  }

  lemma CoreMove(c: Config, s: State, s': State, pc: TrainPc)
    requires Core(c, s) && s.trainers != []
    requires s' == s.(trainers := [s.trainers[0].(pc := pc)], steps := s'.steps, stepLog := s'.stepLog,
                      records := s'.records, version := s'.version, faithful := s'.faithful)
    requires s'.steps <= c.numTrainSteps && s.steps <= s'.steps
    requires s'.steps + Undecided(s') == s.steps + Undecided(s)
    ensures Core(c, s')
  {
  }

  lemma TrainEnds(c: Config, s: State, outcome: TrainOutcome)
    requires Core(c, s) && TrainEnabled(s, 0, outcome) && StepTrain(c, s, 0, outcome).trainers == []
    ensures Core(c, StepTrain(c, s, 0, outcome))
  {
    OnlyTrainer(s, 0);
    CoreEnd(c, s, StepTrain(c, s, 0, outcome));
  }

  lemma TrainMoves(c: Config, s: State, outcome: TrainOutcome)
    requires Core(c, s) && TrainEnabled(s, 0, outcome) && StepTrain(c, s, 0, outcome).trainers != []
    ensures Core(c, StepTrain(c, s, 0, outcome))
  {
    OnlyTrainer(s, 0);
    CoreMove(c, s, StepTrain(c, s, 0, outcome), StepTrain(c, s, 0, outcome).trainers[0].pc);
  }

  lemma CoreTrain(c: Config, s: State, i: nat, outcome: TrainOutcome)
    requires Core(c, s) && TrainEnabled(s, i, outcome)
    ensures Core(c, StepTrain(c, s, i, outcome))
  {
    OnlyTrainer(s, i);
    if StepTrain(c, s, i, outcome).trainers == [] {
      TrainEnds(c, s, outcome);
    } else {
      TrainMoves(c, s, outcome);
    }
  }

  lemma CoreCollected(c: Config, s: State, samples: seq<int>)
    requires c.Valid() && Core(c, s) && Enabled(c, s, Collected(samples))
    ensures Core(c, StepCollected(c, s, samples))
  {
    CoreAppendAll(c, s, samples);
    var s1 := AppendAll(s, samples);
    if BatchReady(c, s1) {
      CoreStartBatch(c, s1);
      CoreBack(c, StartBatch(c, s1), if c.syncMode then Inline else Head);
    } else {
      CoreBack(c, s1, Head);
    }
  }

  /** The serial loop goes on, or waits for the step it started. */
  lemma CoreBack(c: Config, s: State, main: MainPc)
    requires Core(c, s) && s.main == Own(Sampling) && (main.Head? || main.Inline?)
    ensures Core(c, s.(main := main))
  {
    CoreControl(c, s, s.(main := main));
  }

  lemma CoreReturned(c: Config, s: State, i: nat, samples: seq<int>)
    requires c.Valid() && Core(c, s) && Enabled(c, s, Returned(i, samples))
    ensures Core(c, StepReturned(c, s, i, samples))
  {
    CoreAddAll(c, s, samples);
    CoreControl(c, AddAllToBuffer(c, s, samples), StepReturned(c, s, i, samples));
  }

  lemma CoreStep(c: Config, s: State, e: Event)
    requires c.Valid() && Core(c, s) && Enabled(c, s, e)
    ensures Core(c, Step(c, s, e))
  {
    match e
    case Main => CoreMain(c, s);
    case NextTurn => CoreControl(c, s, s.(main := Own(Rate)));
    case Collected(samples) => CoreCollected(c, s, samples);
    case Request(i) => CoreControl(c, s, StepRequest(c, s, i));
    case Returned(i, samples) => CoreReturned(c, s, i, samples);
    case Train(i, outcome) => CoreTrain(c, s, i, outcome);
  }
}
