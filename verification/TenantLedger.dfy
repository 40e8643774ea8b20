/** Which batch becomes which step, and what staleness is recorded for it. */
module TenantLedger {
  import opened TenantSpec
  import opened TenantInvariants
  import opened Seqs

  /** A staleness record speaks about its own batch, at the step its index and the failures give. */
  ghost predicate RecordHolds(c: Config, s: State, r: Record) {
    && r.batch < |s.batches|
    && 1 <= r.step <= c.numTrainSteps
    && r.staleness == Staleness(r.step - 1, s.batches[r.batch])
    && r.failedBefore <= s.failed
    && r.step - 1 + r.failedBefore == r.batch
  }

  ghost predicate StepLogHolds(s: State) {
    && |s.stepLog| == s.steps
    && (forall k :: 0 <= k < |s.stepLog| ==>
          k <= s.stepLog[k] <= k + s.failed && s.stepLog[k] < |s.batches| - Undecided(s))
    && (forall k, l :: 0 <= k < l < |s.stepLog| ==> s.stepLog[k] < s.stepLog[l])
  }

  ghost predicate Ledger(c: Config, s: State) {
    && StepLogHolds(s)
    && forall k :: 0 <= k < |s.records| ==> RecordHolds(c, s, s.records[k])
  }

  /** Neither log changes: new batches and new failures do not disturb what was written. */
  lemma LedgerFrame(c: Config, s: State, s': State)
    requires Ledger(c, s)
    requires s.batches <= s'.batches && s.failed <= s'.failed
    requires s'.records == s.records && s'.stepLog == s.stepLog && s'.steps == s.steps
    requires |s.batches| - Undecided(s) <= |s'.batches| - Undecided(s')
    ensures Ledger(c, s')
  {
    forall k | 0 <= k < |s'.records| ensures RecordHolds(c, s', s'.records[k]) {
      assert RecordHolds(c, s, s.records[k]);
    }
  }

  /** What an arrival can change: it appends, and may spawn the trainer if there was none. */
  ghost predicate Arrived(s: State, s': State) {
    && s' == s.(buffer := s'.buffer, arrivals := s'.arrivals, batches := s'.batches,
                training := s'.training, trainers := s'.trainers,
                main := s'.main, requests := s'.requests, permits := s'.permits)
    && s.arrivals <= s'.arrivals
    && s.batches <= s'.batches
    && if |s'.batches| == |s.batches| then s'.trainers == s.trainers
       else |s'.batches| == |s.batches| + 1 && s.trainers == [] && |s'.trainers| == 1
            && s'.trainers[0].pc.Created?
  }

  lemma ArrivedOne(c: Config, s: State, item: Item)
    requires SingleFlight(s)
    ensures Arrived(s, AddToBuffer(c, s, item))
    ensures |AddToBuffer(c, s, item).arrivals| == |s.arrivals| + 1
  {
  }

  lemma ArrivedTrans(s: State, s1: State, s2: State)
    requires Arrived(s, s1) && Arrived(s1, s2)
    ensures Arrived(s, s2)
  {
  }

  lemma {:induction false} AddAllArrived(c: Config, s: State, samples: seq<int>)
    requires c.Valid() && Core(c, s) && !Quiet(c, s) && !s.main.Done?
    ensures Arrived(s, AddAllToBuffer(c, s, samples))
    ensures |AddAllToBuffer(c, s, samples).arrivals| == |s.arrivals| + |samples|
    decreases |samples|
  {
    if samples != [] {
      var item := Item(samples[0], s.version);
      var s1 := AddToBuffer(c, s, item);
      CoreAddToBuffer(c, s, item);
      ArrivedOne(c, s, item);
      AddAllArrived(c, s1, samples[1..]);
      ArrivedTrans(s, s1, AddAllToBuffer(c, s1, samples[1..]));
    }
  }

  lemma {:induction false} AppendAllArrived(s: State, samples: seq<int>)
    ensures var s' := AppendAll(s, samples);
            s' == s.(buffer := s'.buffer, arrivals := s'.arrivals)
            && |s'.arrivals| == |s.arrivals| + |samples| && s.arrivals <= s'.arrivals
            && |s'.buffer| == |s.buffer| + |samples| && s.buffer <= s'.buffer
            && forall k :: |s.buffer| <= k < |s'.buffer| ==> s'.buffer[k].version == s.version
    decreases |samples|
  {
    if samples != [] {
      AppendAllArrived(Append(s, Item(samples[0], s.version)), samples[1..]);
    }
  }

  lemma CollectedArrived(c: Config, s: State, samples: seq<int>)
    requires Core(c, s)
    ensures Arrived(s, StepCollected(c, s, samples))
    ensures |StepCollected(c, s, samples).arrivals| == |s.arrivals| + |samples|
  {
    AppendAllArrived(s, samples);
  }

  lemma LedgerTrain(c: Config, s: State, i: nat, outcome: TrainOutcome)
    requires Core(c, s) && Ledger(c, s) && TrainEnabled(s, i, outcome)
    ensures Ledger(c, StepTrain(c, s, i, outcome))
  {
    OnlyTrainer(s, i);
    var s' := StepTrain(c, s, i, outcome);
    if s'.steps > s.steps {
      LedgerStepped(c, s, s');
    } else if |s'.records| > |s.records| {
      LedgerStarted(c, s, s', s'.trainers[0].pc);
    } else {
      LedgerFrame(c, s, s');
    }
  }

  /** The counter moves: the only batch in flight is the one logged. */
  lemma LedgerStepped(c: Config, s: State, s': State)
    requires Core(c, s) && Ledger(c, s) && Undecided(s) == 1 && s.steps < c.numTrainSteps
    requires s' == s.(steps := s.steps + 1, stepLog := s.stepLog + [s.trainers[0].batch],
                      trainers := [s.trainers[0].(pc := Syncing)])
    ensures Ledger(c, s')
  {
    forall k | 0 <= k < |s'.records| ensures RecordHolds(c, s', s'.records[k]) {
      assert RecordHolds(c, s, s.records[k]);
    }
  }

  lemma LedgerStarted(c: Config, s: State, s': State, pc: TrainPc)
    requires Core(c, s) && Ledger(c, s) && s.trainers != [] && s.trainers[0].pc.Created?
    requires s.steps < c.numTrainSteps && (pc.Scoring? || pc.Stepping?)
    requires var t := s.trainers[0];
             s' == s.(records := s.records + [Record(t.batch, s.steps + 1, Staleness(s.steps, t.items), s.failed)],
                      trainers := [t.(pc := pc)])
    ensures Ledger(c, s')
  {
    forall k | 0 <= k < |s'.records| ensures RecordHolds(c, s', s'.records[k]) {
      if k < |s.records| {
        assert RecordHolds(c, s, s.records[k]);
      }
    }
  }

  lemma LedgerStep(c: Config, s: State, e: Event)
    requires c.Valid() && Core(c, s) && Ledger(c, s) && Enabled(c, s, e)
    ensures Ledger(c, Step(c, s, e))
  {
    match e
    case Train(i, outcome) => LedgerTrain(c, s, i, outcome);
    case Returned(i, samples) => LedgerReturned(c, s, i, samples);
    case Collected(samples) => LedgerCollected(c, s, samples);
    case Main => LedgerMain(c, s);
    case Request(i) => LedgerRequest(c, s, i);
    case NextTurn => LedgerNextTurn(c, s);
  }

  lemma LedgerMain(c: Config, s: State)
    requires Core(c, s) && Ledger(c, s) && MainEnabled(c, s)
    ensures Ledger(c, StepMain(c, s))
  {
    LedgerFrame(c, s, StepMain(c, s));
  }

  lemma LedgerRequest(c: Config, s: State, i: nat)
    requires Ledger(c, s) && i < |s.requests|
    ensures Ledger(c, StepRequest(c, s, i))
  {
    LedgerFrame(c, s, StepRequest(c, s, i));
  }

  lemma LedgerNextTurn(c: Config, s: State)
    requires Ledger(c, s)
    ensures Ledger(c, s.(main := Own(Rate)))
  {
    LedgerFrame(c, s, s.(main := Own(Rate)));
  }

  lemma LedgerCollected(c: Config, s: State, samples: seq<int>)
    requires Core(c, s) && Ledger(c, s) && Enabled(c, s, Collected(samples))
    ensures Ledger(c, StepCollected(c, s, samples))
  {
    CollectedArrived(c, s, samples);
    LedgerFrame(c, s, StepCollected(c, s, samples));
  }

  lemma LedgerReturned(c: Config, s: State, i: nat, samples: seq<int>)
    requires c.Valid() && Core(c, s) && Ledger(c, s) && Enabled(c, s, Returned(i, samples))
    ensures Ledger(c, StepReturned(c, s, i, samples))
  {
    AddAllArrived(c, s, samples);
    LedgerFrame(c, s, StepReturned(c, s, i, samples));
  }

  lemma ItemAt(c: Config, s: State, b: nat, j: nat)
    requires Core(c, s) && j < c.bufferSize && b * c.bufferSize + j < |s.arrivals| - |s.buffer|
    ensures b < |s.batches| && j < |s.batches[b]| && s.batches[b][j] == s.arrivals[b * c.bufferSize + j]
  {
    assert s.batches != [];
    FlattenAt(s.batches, c.bufferSize, b, j);
  }

  /** Items lie in batches by position: item i is entry i % K of batch i / K. */
  lemma ItemPosition(c: Config, s: State, i: nat)
    requires c.Valid() && Core(c, s) && i < |s.arrivals| - |s.buffer|
    ensures i / c.bufferSize < |s.batches|
    ensures i % c.bufferSize < |s.batches[i / c.bufferSize]|
    ensures s.batches[i / c.bufferSize][i % c.bufferSize] == s.arrivals[i]
  {
    DivMod(i, c.bufferSize);
    ItemAt(c, s, i / c.bufferSize, i % c.bufferSize);
  }
}
