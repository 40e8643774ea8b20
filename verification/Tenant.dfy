/** The tenant actor itself: fields updated in place, one method per stretch between suspensions. */
module TenantActor {
  import opened Wrappers
  import opened TenantSpec
  import Bounds = TenantBounds

  class Tenant {
    const config: Config

    // The tenant's own fields.
    var buffer: seq<Item>
    var trainingInProgress: bool
    var trainStepsCompleted: nat
    var currentWeightVersion: int
    var stalenessPauseCount: nat

    // What the event loop keeps for it: coroutines, the semaphore, and handed-over batches.
    var main: MainPc
    var requests: seq<RequestPc>
    var trainers: seq<Trainer>
    var permits: nat
    var batches: seq<seq<Item>>

    // Staleness metrics, and logs used only in specifications.
    var records: seq<Record>
    var failed: nat
    ghost var arrivals: seq<Item>
    ghost var stepLog: seq<nat>
    ghost var dropped: nat
    ghost var faithful: bool

    ghost function Abs(): State
      reads this
    {
      State(main, requests, trainers, permits, buffer, trainingInProgress, trainStepsCompleted,
            currentWeightVersion, stalenessPauseCount, arrivals, batches, stepLog, records, failed,
            dropped, faithful)
    }

    /** Everything proved of reachable states; kept by every method below. */
    ghost predicate Valid()
      reads this
    {
      config.Valid() && Bounds.Inv(config, Abs())
    }

    constructor (config: Config, version: int)
      requires config.Valid()
      ensures this.config == config && Abs() == Init(config, version) && Valid()
    {
      this.config := config;
      buffer, trainingInProgress, trainStepsCompleted := [], false, 0;
      currentWeightVersion, stalenessPauseCount := version, 0;
      main, requests, trainers, permits, batches := Head, [], [], config.concurrency, [];
      records, failed, arrivals, stepLog, dropped, faithful := [], 0, [], [], 0, version == 0;
      new;
      Bounds.InvInit(config, version);
    }

    method StalenessGapNow() returns (gap: nat)
      ensures gap == StalenessGap(Abs())
    {
      gap := 0;
      if trainStepsCompleted - currentWeightVersion > 0 {
        gap := trainStepsCompleted - currentWeightVersion;
      }
    }

    /** One pass of the staleness wait: either the caller goes on, or a pause is counted. */
    method WaitForStalenessBudget(resumed: bool) returns (proceed: bool)
      modifies this`stalenessPauseCount
      ensures proceed == MayProceed(config, old(Abs()), resumed)
      ensures stalenessPauseCount == old(stalenessPauseCount) + (if proceed then 0 else 1)
    {
      if resumed && !trainingInProgress && |buffer| < config.bufferSize {
        return true;
      }
      if config.stalenessLimit.None? {
        return true;
      }
      var limit := config.stalenessLimit.value;
      var gap := StalenessGapNow();
      var over := if limit == 0 then gap > 0 else gap >= limit;
      if over {
        stalenessPauseCount := stalenessPauseCount + 1;
      }
      proceed := !over;
    }

    /** The three training triggers share this: claim the flag, cut a batch, spawn a training task. */
    method SpawnTraining()
      modifies this
      ensures Abs() == StartBatch(config, old(Abs()))
    {
      trainingInProgress := true;
      var n := Min(config.bufferSize, |buffer|);
      var batch := buffer[..n];
      buffer := buffer[n..];
      trainers := trainers + [Trainer(|batches|, batch, Created)];
      batches := batches + [batch];
    }

    method AppendItem(item: Item)
      modifies this
      ensures Abs() == Append(old(Abs()), item)
    {
      buffer := buffer + [item];
      arrivals := arrivals + [item];
    }

    method AddItem(item: Item)
      modifies this
      ensures Abs() == AddToBuffer(config, old(Abs()), item)
    {
      AppendItem(item);
      if |buffer| >= config.bufferSize && !trainingInProgress {
        SpawnTraining();
      }
    }

    /** The async loop's head: stop, or decide to dispatch and pass the staleness wait. */
    method LoopHead()
      requires main.Head? && config.asyncSampling
      modifies this`main, this`stalenessPauseCount
      ensures Abs() == StepMain(config, old(Abs()))
    {
      var committed := trainStepsCompleted * config.bufferSize;
      if trainStepsCompleted >= config.numTrainSteps
         || committed + |buffer| >= config.TargetSamples() {
        main := Gather;
      } else {
        var proceed := WaitForStalenessBudget(false);
        main := if proceed then Acquire else BudgetPaused;
      }
    }

    /** The semaphore has a permit: dispatch one request unless the target was met meanwhile. */
    method DispatchRequest()
      requires main.Acquire? && permits > 0
      modifies this`main, this`permits, this`requests
      ensures Abs() == StepMain(config, old(Abs()))
    {
      permits := permits - 1;
      if trainStepsCompleted >= config.numTrainSteps {
        permits := permits + 1;
        main := Gather;
      } else {
        requests := requests + [Rate];
        main := Head;
      }
    }

    /** What is left in the buffer is trained on, in a short last batch if need be. */
    method DrainBuffer()
      requires main.Drain?
      modifies this
      ensures Abs() == StepMain(config, old(Abs()))
    {
      if buffer == [] || trainStepsCompleted >= config.numTrainSteps {
        main := WaitTrain;
      } else if !trainingInProgress {
        SpawnTraining();
      }
    }

    /** The main loop runs from one suspension to the next. */
    method ResumeMain()
      requires Enabled(config, Abs(), Main)
      modifies this
      ensures Abs() == Step(config, old(Abs()), Main)
    {
      match main
      case Head =>
        if config.asyncSampling {
          LoopHead();
        } else {
          main := if trainStepsCompleted < config.numTrainSteps then Own(Rate) else WaitTrain;
        }
      case Own(request) =>
        var proceed := WaitForStalenessBudget(request == Paused);
        main := Own(if proceed then Sampling else Paused);
      case Inline =>
        main := Head;
      case BudgetPaused =>
        var proceed := WaitForStalenessBudget(true);
        main := if proceed then Acquire else BudgetPaused;
      case Acquire =>
        DispatchRequest();
      case Gather =>
        main := Drain;
      case Drain =>
        DrainBuffer();
      case WaitTrain =>
        main := if trainingInProgress then WaitTrain else Done;
    }

    /** The serial agent loop goes on to another turn of its episode. */
    method NextOwnTurn()
      requires Enabled(config, Abs(), NextTurn)
      modifies this
      ensures Abs() == Step(config, old(Abs()), NextTurn)
    {
      main := Own(Rate);
    }

    /** The serial loop's request or episode is over: append it all, then look at the buffer. */
    method CollectOwn(samples: seq<int>)
      requires Enabled(config, Abs(), Collected(samples))
      modifies this
      ensures Abs() == Step(config, old(Abs()), Collected(samples))
    {
      for k := 0 to |samples|
        invariant AppendAll(Abs(), samples[k..]) == AppendAll(old(Abs()), samples)
        invariant currentWeightVersion == old(currentWeightVersion)
      {
        AppendItem(Item(samples[k], currentWeightVersion));
        assert samples[k..][1..] == samples[k + 1..];
      }
      if |buffer| >= config.bufferSize && !trainingInProgress {
        SpawnTraining();
        main := if config.syncMode then Inline else Head;
      } else {
        main := Head;
      }
    }

    /** A dispatched request leaves its rate sleep or its pause. */
    method ResumeRequest(i: nat)
      requires Enabled(config, Abs(), Request(i))
      modifies this
      ensures Abs() == Step(config, old(Abs()), Request(i))
    {
      var proceed := WaitForStalenessBudget(requests[i] == Paused);
      requests := requests[i := if proceed then Sampling else Paused];
    }

    /** A dispatched request or episode returns; a failed one delivers what it had. */
    method FinishRequest(i: nat, samples: seq<int>)
      requires Enabled(config, Abs(), Returned(i, samples))
      modifies this
      ensures Abs() == Step(config, old(Abs()), Returned(i, samples))
    {
      for k := 0 to |samples|
        invariant AddAllToBuffer(config, Abs(), samples[k..]) == AddAllToBuffer(config, old(Abs()), samples)
        invariant requests == old(requests) && permits == old(permits)
      {
        AddItem(Item(samples[k], currentWeightVersion));
        assert samples[k..][1..] == samples[k + 1..];
      }
      requests := Without(requests, i);
      permits := permits + 1;
    }

    /** The `finally` clause of a training task. */
    method ReleaseTrainer(i: nat)
      requires i < |trainers|
      modifies this`trainers, this`trainingInProgress
      ensures Abs() == EndTrainer(old(Abs()), i)
    {
      trainers := Without(trainers, i);
      trainingInProgress := false;
    }

    method MoveTo(i: nat, pc: TrainPc)
      requires i < |trainers|
      modifies this`trainers
      ensures Abs() == MoveTrainer(old(Abs()), i, pc)
    {
      trainers := trainers[i := trainers[i].(pc := pc)];
    }

    /** Before the train call: give up if the target is met, else record the batch's staleness. */
    method BeginTraining(i: nat)
      requires TrainEnabled(Abs(), i, Resume) && trainers[i].pc.Created?
      modifies this
      ensures Abs() == StepTrain(config, old(Abs()), i, Resume)
    {
      var Trainer(b, items, _) := trainers[i];
      if trainStepsCompleted >= config.numTrainSteps {
        ReleaseTrainer(i);
        dropped := dropped + 1;
      } else {
        records := records + [Record(b, trainStepsCompleted + 1, Staleness(trainStepsCompleted, items), failed)];
        MoveTo(i, if config.collectLogprobs then Scoring else Stepping);
      }
    }

    /** The train call came back or raised; only a success short of the target counts. */
    method FinishStep(i: nat, outcome: TrainOutcome)
      requires TrainEnabled(Abs(), i, outcome) && trainers[i].pc.Stepping?
      modifies this
      ensures Abs() == StepTrain(config, old(Abs()), i, outcome)
    {
      var b := trainers[i].batch;
      if outcome == Raise {
        ReleaseTrainer(i);
        failed := failed + 1;
      } else if trainStepsCompleted >= config.numTrainSteps {
        ReleaseTrainer(i);
        dropped := dropped + 1;
      } else {
        trainStepsCompleted := trainStepsCompleted + 1;
        stepLog := stepLog + [b];
        MoveTo(i, Syncing);
      }
    }

    /** The weight sync came back or raised; a raise leaves the old version in place. */
    method FinishSync(i: nat, outcome: TrainOutcome)
      requires TrainEnabled(Abs(), i, outcome) && trainers[i].pc.Syncing?
      modifies this
      ensures Abs() == StepTrain(config, old(Abs()), i, outcome)
    {
      if outcome == Raise {
        faithful := false;
        ReleaseTrainer(i);
      } else {
        faithful := faithful && outcome.version == trainStepsCompleted;
        currentWeightVersion := outcome.version;
        if config.evalInterval > 0 && trainStepsCompleted % config.evalInterval == 0 {
          MoveTo(i, Evaluating);
        } else {
          ReleaseTrainer(i);
        }
      }
    }

    /** A training task runs from one backend call to the next. */
    method RunTraining(i: nat, outcome: TrainOutcome)
      requires Enabled(config, Abs(), Train(i, outcome))
      modifies this
      ensures Abs() == Step(config, old(Abs()), Train(i, outcome))
    {
      match trainers[i].pc
      case Created => BeginTraining(i);
      case Scoring => MoveTo(i, Stepping);
      case Stepping => FinishStep(i, outcome);
      case Syncing => FinishSync(i, outcome);
      case Evaluating => ReleaseTrainer(i);
    }

    /** The event loop runs one ready stretch. */
    method Dispatch(e: Event)
      requires Valid() && Enabled(config, Abs(), e)
      modifies this
      ensures Valid() && Abs() == Step(config, old(Abs()), e)
    {
      Bounds.InvStep(config, Abs(), e);
      match e
      case Main => ResumeMain();
      case NextTurn => NextOwnTurn();
      case Collected(samples) => CollectOwn(samples);
      case Request(i) => ResumeRequest(i);
      case Returned(i, samples) => FinishRequest(i, samples);
      case Train(i, outcome) => RunTraining(i, outcome);
    }

    /** Any schedule the event loop may choose leads where the transition system says. */
    method RunSchedule(es: seq<Event>)
      requires Valid() && IsRun(config, Abs(), es)
      modifies this
      ensures Valid() && Abs() == After(config, old(Abs()), es)
    {
      for k := 0 to |es|
        invariant Valid() && IsRun(config, Abs(), es[k..])
        invariant After(config, Abs(), es[k..]) == After(config, old(Abs()), es)
      {
        assert es[k..][1..] == es[k + 1..];
        Dispatch(es[k]);
      }
    }
  }
}
