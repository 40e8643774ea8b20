/** A training run itself: the locked operations of the training controller, stretch by stretch. */
module TrainingController {
  import opened Wrappers
  import opened RunSpec

  class TrainingRun {
    var queue: seq<Entry>
    var phase: Phase
    var nextSeqId: int
    var savedSeqId: int
    var weights: seq<nat>
    var checkpoints: map<CkptKey, Checkpoint>
    var stored: map<CkptKey, Checkpoint>
    var corrupted: bool
    var savedCorrupted: bool
    var clock: int
    var log: seq<LogEntry>
    ghost var succeeded: seq<int>

    ghost function Abs(): Run
      reads this
    {
      Run(queue, phase, nextSeqId, savedSeqId, weights, checkpoints, stored, corrupted, savedCorrupted, clock, log,
          succeeded)
    }

    constructor ()
      ensures Abs() == FRESH
    {
      queue, phase, nextSeqId, savedSeqId, weights := [], Waiting, 1, 1, [];
      checkpoints, stored, corrupted, savedCorrupted, clock, log, succeeded := map[], map[], false, false, 0, [], [];
    }

    method JoinQueue(entry: Entry)
      modifies this
      ensures Abs() == RunStep(old(Abs()), Request(entry))
    {
      if entry.work.Apply? {
        savedSeqId := nextSeqId;
      }
      queue := queue + [entry];
    }

    /** The head of the queue gets the lock and passes, or fails, the sequence guard. */
    method EnterGuard(at: int) returns (accepted: bool)
      requires RunEnabled(Abs(), Start(at))
      modifies this
      ensures Abs() == RunStep(old(Abs()), Start(at))
      ensures accepted <==> !Rejected(old(Abs()), old(queue[0]))
    {
      clock := at;
      var seqId := queue[0].seqId;
      if seqId.Some? {
        var expected := nextSeqId;
        if seqId.value < expected {
          queue := queue[1..];
          return false;
        }
        if seqId.value > expected {
          nextSeqId := seqId.value;
        }
      }
      phase := Running(at);
      accepted := true;
    }

    /** The backend applies the operation, or loads the checkpoint, that holds the lock. */
    method ApplyEffect()
      requires RunEnabled(Abs(), Effect)
      modifies this
      ensures Abs() == RunStep(old(Abs()), Effect)
    {
      var entry := queue[0];
      match entry.work {
        case Apply =>
          weights := weights + [entry.futureId];
          log := log + [Applied(entry.futureId)];
        case Load(ckpt) =>
          weights := ckpt.weights;
          log := log + [Reset(ckpt.weights)];
      }
      phase := Affected;
    }

    /** The backend's save: the weights of this moment under the stamp read before queueing. */
    method CaptureState()
      requires RunEnabled(Abs(), Capture)
      modifies this
      ensures Abs() == RunStep(old(Abs()), Capture)
    {
      var entry := queue[0];
      phase := Captured(Checkpoint(entry.work.stamp, entry.seqId, phase.at, weights, |log|));
      log := log + [Took(entry.work.stamp)];
    }

    method PublishCheckpoint()
      requires RunEnabled(Abs(), Publish)
      modifies this
      ensures Abs() == RunStep(old(Abs()), Publish)
    {
      var ckpt := phase.ckpt;
      checkpoints := checkpoints[queue[0].work.key := ckpt];
      phase := Published(ckpt);
    }

    method SaveRunWithCheckpoint()
      requires RunEnabled(Abs(), Persist)
      modifies this
      ensures Abs() == RunStep(old(Abs()), Persist)
    {
      var key := queue[0].work.key;
      if key in checkpoints {
        stored := stored[key := checkpoints[key]];
      }
      savedSeqId := nextSeqId;
      phase := Persisted(phase.ckpt);
    }

    /** The guarded operation returned or raised; only a return counts towards the sequence. */
    method LeaveGuard(ok: bool)
      requires RunEnabled(Abs(), Finish(ok))
      modifies this
      ensures Abs() == RunStep(old(Abs()), Finish(ok))
    {
      var seqId := queue[0].seqId;
      if ok {
        if seqId.Some? {
          nextSeqId := nextSeqId + 1;
          succeeded := succeeded + [seqId.value];
        }
        savedSeqId := nextSeqId;
      }
      queue := queue[1..];
      phase := Waiting;
    }

    method DeleteCheckpoint(key: CkptKey)
      modifies this
      ensures Abs() == RunStep(old(Abs()), Delete(key))
    {
      checkpoints := checkpoints - {key};
      savedSeqId := nextSeqId;
      stored := stored - {key};
    }

    /** The run in a new process, before its checkpoint is loaded. */
    method Reload()
      modifies this
      ensures Abs() == Reloaded(old(Abs()))
    {
      queue, phase, nextSeqId, checkpoints, weights := [], Waiting, savedSeqId, stored, [];
      corrupted, log := savedCorrupted, log + [Reset([])];
    }

    /** A checkpoint of greatest creation time, if the run has any. */
    method GetLatestCheckpoint() returns (latest: Option<CkptKey>)
      ensures latest.None? <==> checkpoints == map[]
      ensures latest.Some? ==> IsLatest(checkpoints, latest.value)
    {
      latest := None;
      var todo := checkpoints.Keys;
      while todo != {}
        invariant todo <= checkpoints.Keys
        invariant latest.None? ==> todo == checkpoints.Keys
        invariant latest.Some? ==> latest.value in checkpoints
        invariant latest.Some? ==> forall k :: k in checkpoints && k !in todo ==>
                    checkpoints[k].createdAt <= checkpoints[latest.value].createdAt
        decreases |todo|
      {
        var key :| key in todo;
        todo := todo - {key};
        if latest.None? || checkpoints[key].createdAt > checkpoints[latest.value].createdAt {
          latest := Some(key);
        }
      }
    }

    /**
     * Load the latest checkpoint.  A failed load marks the run corrupted in memory; the flag
     * is saved in the next stretch, by `SaveCorruption`.
     */
    method RestoreFromCheckpoint(loads: bool) returns (latest: Option<CkptKey>, restored: bool)
      modifies this`weights, this`corrupted, this`log
      ensures latest.None? <==> checkpoints == map[]
      ensures latest.Some? ==> IsLatest(checkpoints, latest.value)
      ensures restored <==> latest.Some? && loads
      ensures Abs() == if latest.None? then old(Abs())
                       else if loads then Restored(old(Abs()), latest.value)
                       else LoadFailed(old(Abs()))
    {
      latest := GetLatestCheckpoint();
      restored := false;
      if latest.Some? {
        if loads {
          weights := checkpoints[latest.value].weights;
          log := log + [Reset(weights)];
          restored := true;
        } else {
          corrupted := true;
        }
      }
    }

    method SaveCorruption()
      modifies this`savedCorrupted, this`savedSeqId
      ensures Abs() == CorruptionSaved(old(Abs()))
    {
      savedCorrupted, savedSeqId := corrupted, nextSeqId;
    }
  }
}
