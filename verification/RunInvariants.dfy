/** Checkpoints of a run never contain what is numbered above their stamp. */
module RunInvariants {
  import opened Wrappers
  import opened RunSpec

  ghost predicate StampsCover(r: Run) {
    forall j :: 0 <= j < |r.queue| && r.queue[j].work.Save? ==> StampCovers(r, j)
  }

  /** An effect logged before a capture is numbered at most the captured stamp. */
  ghost predicate LogOrdered(log: seq<LogEntry>) {
    forall i, j :: 0 <= i < j < |log| && log[i].Applied? && log[j].Took? ==> log[i].futureId <= log[j].stamp
  }

  /** `c` was created no earlier and stamped no lower than every checkpoint in `ckpts`. */
  ghost predicate Dominates(c: Checkpoint, ckpts: map<CkptKey, Checkpoint>) {
    forall k :: k in ckpts ==> ckpts[k].createdAt <= c.createdAt && ckpts[k].futureId <= c.futureId
  }

  ghost predicate CreatedBy(ckpts: map<CkptKey, Checkpoint>, at: int) {
    forall k :: k in ckpts ==> ckpts[k].createdAt <= at
  }

  ghost predicate Timeline(r: Run) {
    && (forall a, b :: a in r.stored && b in r.stored ==> Aligned(r.stored[a], r.stored[b]))
    && CreatedBy(r.stored, r.clock)
    && match r.phase
       case Waiting => true
       case Affected => true
       case Running(at) => CreatedBy(r.stored, at) && at <= r.clock
       case Captured(c) => Dominates(c, r.stored) && c.createdAt <= r.clock
       case Published(c) =>
         && Dominates(c, r.stored) && c.createdAt <= r.clock && r.queue != []
         && (r.queue[0].work.Save? && r.queue[0].work.key in r.checkpoints ==>
               r.checkpoints[r.queue[0].work.key] == c)
       case Persisted(c) => true
  }

  ghost predicate RunInv(r: Run, bound: nat) {
    Within(r, bound) && StampsCover(r) && LogOrdered(r.log) && Timeline(r)
  }

  lemma WithinMonotone(r: Run, low: nat, high: nat)
    requires Within(r, low) && low <= high
    ensures Within(r, high)
  {
    forall k | k in r.checkpoints ensures Below(r.checkpoints[k], high) {
      assert Below(r.checkpoints[k], low);
    }
    forall k | k in r.stored ensures Below(r.stored[k], high) {
      assert Below(r.stored[k], low);
    }
    forall i | 0 <= i < |r.queue| ensures Bounded(r.queue[i], high) {
      assert Bounded(r.queue[i], low);
    }
  }

  /** The save at the head, if there is one, is stamped no lower than what the weights contain. */
  ghost predicate HeadCovered(r: Run) {
    r.queue != [] && r.queue[0].work.Save? ==> AtMost(r.weights, r.queue[0].work.stamp)
  }

  /** The lock passes on, or only counters and the phase move. */
  lemma WithinControl(r: Run, r': Run, bound: nat)
    requires Within(r, bound) && PhaseBounded(r'.phase, bound)
    requires r'.queue == r.queue || (r.queue != [] && r'.queue == r.queue[1..])
    requires r' == r.(queue := r'.queue, phase := r'.phase, nextSeqId := r'.nextSeqId, savedSeqId := r'.savedSeqId,
                      clock := r'.clock, succeeded := r'.succeeded)
    ensures Within(r', bound)
  {
    forall i | 0 <= i < |r'.queue| ensures Bounded(r'.queue[i], bound) {
      assert Bounded(r.queue[i + |r.queue| - |r'.queue|], bound);
    }
  }

  /** The weights change, and the log says how. */
  lemma WithinEffect(r: Run, bound: nat)
    requires Within(r, bound) && RunEnabled(r, Effect)
    ensures Within(RunStep(r, Effect), bound)
  {
    assert Bounded(r.queue[0], bound);
  }

  lemma WithinCapture(r: Run, bound: nat)
    requires Within(r, bound) && HeadCovered(r) && RunEnabled(r, Capture)
    ensures Within(RunStep(r, Capture), bound)
  {
    assert Bounded(r.queue[0], bound);
  }

  /** Checkpoint maps gain at most what is in sight already. */
  lemma WithinMaps(r: Run, r': Run, bound: nat)
    requires Within(r, bound) && PhaseBounded(r'.phase, bound)
    requires forall k :: k in r'.checkpoints ==> Below(r'.checkpoints[k], bound)
    requires forall k :: k in r'.stored ==> Below(r'.stored[k], bound)
    requires r' == r.(phase := r'.phase, checkpoints := r'.checkpoints, stored := r'.stored, savedSeqId := r'.savedSeqId)
    ensures Within(r', bound)
  {
  }

  lemma WithinPersist(r: Run, bound: nat)
    requires Within(r, bound) && RunEnabled(r, Persist)
    ensures Within(RunStep(r, Persist), bound)
  {
    WithinMaps(r, RunStep(r, Persist), bound);
  }

  lemma WithinPass(r: Run, e: RunEvent, bound: nat)
    requires Within(r, bound) && RunEnabled(r, e) && (e.Start? || e.Finish?)
    ensures Within(RunStep(r, e), bound)
  {
    WithinControl(r, RunStep(r, e), bound);
  }

  lemma WithinStep(r: Run, e: RunEvent, bound: nat)
    requires Within(r, bound) && HeadCovered(r) && RunEnabled(r, e) && !e.Request?
    ensures Within(RunStep(r, e), bound)
  {
    match e
    case Effect => WithinEffect(r, bound);
    case Capture => WithinCapture(r, bound);
    case Publish => WithinMaps(r, RunStep(r, e), bound);
    case Persist => WithinPersist(r, bound);
    case Delete(key) => WithinMaps(r, RunStep(r, e), bound);
    case Start(_) => WithinPass(r, e, bound);
    case Finish(_) => WithinPass(r, e, bound);
    case Request(_) =>
  }

  // What lies behind in the queue does not matter

  /** The run with more requests waiting behind those it has. */
  function Extended(r: Run, tail: seq<Entry>): Run {
    r.(queue := r.queue + tail)
  }

  lemma ExtendedStart(r: Run, at: int, tail: seq<Entry>)
    requires RunEnabled(r, Start(at))
    ensures RunEnabled(Extended(r, tail), Start(at))
    ensures RunStep(Extended(r, tail), Start(at)) == Extended(RunStep(r, Start(at)), tail)
  {
    assert (r.queue + tail)[1..] == r.queue[1..] + tail;
  }

  lemma ExtendedFinish(r: Run, ok: bool, tail: seq<Entry>)
    requires RunEnabled(r, Finish(ok))
    ensures RunEnabled(Extended(r, tail), Finish(ok))
    ensures RunStep(Extended(r, tail), Finish(ok)) == Extended(RunStep(r, Finish(ok)), tail)
  {
    assert (r.queue + tail)[1..] == r.queue[1..] + tail;
  }

  lemma ExtendedWork(r: Run, e: RunEvent, tail: seq<Entry>)
    requires RunEnabled(r, e) && (e.Effect? || e.Capture?)
    ensures RunEnabled(Extended(r, tail), e) && RunStep(Extended(r, tail), e) == Extended(RunStep(r, e), tail)
  {
    assert (r.queue + tail)[0] == r.queue[0];
  }

  lemma ExtendedMaps(r: Run, e: RunEvent, tail: seq<Entry>)
    requires RunEnabled(r, e) && (e.Publish? || e.Persist? || e.Delete?)
    ensures RunEnabled(Extended(r, tail), e) && RunStep(Extended(r, tail), e) == Extended(RunStep(r, e), tail)
  {
    if r.queue != [] {
      assert (r.queue + tail)[0] == r.queue[0];
    }
  }

  lemma ExtendedStep(r: Run, e: RunEvent, tail: seq<Entry>)
    requires RunEnabled(r, e) && !e.Request?
    ensures RunEnabled(Extended(r, tail), e) && RunStep(Extended(r, tail), e) == Extended(RunStep(r, e), tail)
  {
    match e
    case Start(at) => ExtendedStart(r, at, tail);
    case Finish(ok) => ExtendedFinish(r, ok, tail);
    case Effect => ExtendedWork(r, e, tail);
    case Capture => ExtendedWork(r, e, tail);
    case Publish => ExtendedMaps(r, e, tail);
    case Persist => ExtendedMaps(r, e, tail);
    case Delete(_) => ExtendedMaps(r, e, tail);
    case Request(_) =>
  }

  lemma FrontEnabled(r: Run, e: RunEvent, j: nat)
    requires 0 < j <= |r.queue| && RunEnabled(r, e) && !e.Request?
    ensures RunEnabled(r.(queue := r.queue[..j]), e)
  {
    assert r.queue[..j][0] == r.queue[0];
  }

  /** A step leaves the queue alone or takes its head off. */
  lemma QueueMoves(r: Run, e: RunEvent)
    requires RunEnabled(r, e) && !e.Request?
    ensures RunStep(r, e).queue == r.queue || (r.queue != [] && RunStep(r, e).queue == r.queue[1..])
  {
  }

  /** The run as the save at position j sees it steps along with the run. */
  lemma TruncationCommutes(r: Run, e: RunEvent, j: nat)
    requires 0 < j <= |r.queue| && RunEnabled(r, e) && !e.Request?
    ensures var front := r.(queue := r.queue[..j]);
            && RunEnabled(front, e)
            && var r' := RunStep(r, e);
               var shift := |r.queue| - |r'.queue|;
               && 0 <= shift <= 1 && j - shift <= |r'.queue|
               && (j < |r.queue| ==> r'.queue[j - shift] == r.queue[j])
               && r'.(queue := r'.queue[..j - shift]) == RunStep(front, e)
  {
    var front, tail := r.(queue := r.queue[..j]), r.queue[j..];
    FrontEnabled(r, e, j);
    assert Extended(front, tail) == r by {
      assert r.queue[..j] + tail == r.queue;
    }
    ExtendedStep(front, e, tail);
    QueueMoves(front, e);
    var moved := RunStep(front, e);
    assert (moved.queue + tail)[..|moved.queue|] == moved.queue;
  }

  lemma HeadAlone(r: Run)
    requires r.queue != [] && r.queue[0].work.Save? && StampCovers(r, 0)
    ensures Within(r.(queue := r.queue[..1]), r.queue[0].work.stamp)
    ensures HeadCovered(r.(queue := r.queue[..1]))
  {
    assert r.queue[..0] == [];
    assert Within(r.(queue := []), r.queue[0].work.stamp);
  }

  lemma HeadStillCovered(r: Run)
    requires r.queue != [] && r.queue[0].work.Save?
    requires Within(r.(queue := r.queue[..1]), r.queue[0].work.stamp)
    ensures StampCovers(r, 0)
  {
    assert Bounded(r.queue[..1][0], r.queue[0].work.stamp);
    assert r.queue[..0] == [];
  }

  lemma HeadStays(r: Run, e: RunEvent)
    requires r.queue != [] && RunEnabled(r, e) && !e.Request? && |RunStep(r, e).queue| == |r.queue|
    ensures RunStep(r, e).queue == r.queue
    ensures RunEnabled(r.(queue := r.queue[..1]), e)
    ensures RunStep(r.(queue := r.queue[..1]), e) == RunStep(r, e).(queue := r.queue[..1])
  {
    TruncationCommutes(r, e, 1);
    QueueMoves(r, e);
  }

  /** The save that holds the lock keeps covering what it is about to capture. */
  lemma HeadStampStep(r: Run, e: RunEvent)
    requires r.queue != [] && r.queue[0].work.Save? && StampCovers(r, 0)
    requires RunEnabled(r, e) && !e.Request? && |RunStep(r, e).queue| == |r.queue|
    ensures StampCovers(RunStep(r, e), 0)
  {
    HeadAlone(r);
    HeadStays(r, e);
    WithinStep(r.(queue := r.queue[..1]), e, r.queue[0].work.stamp);
    HeadStillCovered(RunStep(r, e));
  }

  lemma StampsCoverStep(r: Run, e: RunEvent)
    requires StampsCover(r) && RunEnabled(r, e) && !e.Request?
    ensures StampsCover(RunStep(r, e))
  {
    var r' := RunStep(r, e);
    var shift := |r.queue| - |r'.queue|;
    forall j | 0 <= j < |r'.queue| && r'.queue[j].work.Save? ensures StampCovers(r', j) {
      if j + shift == 0 {
        assert StampCovers(r, 0);
        HeadStampStep(r, e);
      } else {
        var k := j + shift;
        TruncationCommutes(r, e, k);
        assert StampCovers(r, k);
        var front := r.(queue := r.queue[..k]);
        if r.queue[0].work.Save? {
          assert StampCovers(r, 0);
        }
        WithinStep(front, e, r.queue[k].work.stamp);
      }
    }
  }

  lemma TimelineStep(r: Run, e: RunEvent)
    requires Timeline(r) && StampsCover(r) && RunEnabled(r, e) && !e.Request?
    ensures Timeline(RunStep(r, e))
  {
    match e
    case Capture => TimelineCapture(r);
    case Persist => TimelinePersist(r);
    case Publish => TimelinePublish(r);
    case Delete(key) => TimelineDelete(r, key);
    case Start(_) => TimelineControl(r, e);
    case Effect => TimelineControl(r, e);
    case Finish(_) => TimelineControl(r, e);
    case Request(_) =>
  }

  lemma TimelineControl(r: Run, e: RunEvent)
    requires Timeline(r) && RunEnabled(r, e) && (e.Start? || e.Effect? || e.Finish?)
    ensures Timeline(RunStep(r, e))
  {
  }

  lemma TimelinePublish(r: Run)
    requires Timeline(r) && RunEnabled(r, Publish)
    ensures Timeline(RunStep(r, Publish))
  {
  }

  lemma TimelineDelete(r: Run, key: CkptKey)
    requires Timeline(r)
    ensures Timeline(RunStep(r, Delete(key)))
  {
  }

  /** The new checkpoint is stamped no lower than every stored one. */
  lemma TimelineCapture(r: Run)
    requires Timeline(r) && StampsCover(r) && RunEnabled(r, Capture)
    ensures Timeline(RunStep(r, Capture))
  {
    assert StampCovers(r, 0);
    var c := SavedCheckpoint(r);
    forall k | k in r.stored ensures r.stored[k].futureId <= c.futureId {
      assert Below(r.stored[k], c.futureId);
    }
  }

  lemma TimelinePersist(r: Run)
    requires Timeline(r) && RunEnabled(r, Persist)
    ensures Timeline(RunStep(r, Persist))
  {
  }

  lemma LogStep(r: Run, e: RunEvent)
    requires LogOrdered(r.log) && StampsCover(r) && RunEnabled(r, e)
    ensures LogOrdered(RunStep(r, e).log)
  {
    if e.Capture? {
      assert StampCovers(r, 0);
    }
  }

  lemma RunInvStep(r: Run, e: RunEvent, bound: nat)
    requires RunInv(r, bound) && RunEnabled(r, e) && !e.Request?
    ensures RunInv(RunStep(r, e), bound)
  {
    if r.queue != [] && r.queue[0].work.Save? {
      assert StampCovers(r, 0);
    }
    WithinStep(r, e, bound);
    StampsCoverStep(r, e);
    TimelineStep(r, e);
    LogStep(r, e);
  }

  /** Within does not look at the saved sequence id. */
  lemma WithinSavedId(r: Run, savedSeqId: int, bound: nat)
    requires Within(r, bound)
    ensures Within(r.(savedSeqId := savedSeqId), bound)
  {
  }

  /** A new request joins at the back; a save is stamped with the largest number in use. */
  lemma RunInvRequest(r: Run, entry: Entry, bound: nat)
    requires RunInv(r, bound) && Bounded(entry, bound)
    requires entry.work.Save? ==> entry.work.stamp == bound
    ensures RunInv(RunStep(r, Request(entry)), bound)
  {
    var r' := RunStep(r, Request(entry));
    forall j | 0 <= j < |r'.queue| && r'.queue[j].work.Save? ensures StampCovers(r', j) {
      assert r'.queue[..j] == r.queue[..j];
      if j < |r.queue| {
        assert StampCovers(r, j);
        WithinSavedId(r.(queue := r.queue[..j]), r'.savedSeqId, r.queue[j].work.stamp);
      } else {
        WithinSavedId(r, r'.savedSeqId, bound);
        assert r'.(queue := r'.queue[..j]) == r.(savedSeqId := r'.savedSeqId);
      }
    }
  }

  // A new process

  lemma RunInvReload(r: Run, bound: nat)
    requires RunInv(r, bound)
    ensures RunInv(Reloaded(r), bound)
  {
  }

  lemma RunInvRestore(r: Run, key: CkptKey, bound: nat)
    requires RunInv(r, bound) && r.queue == [] && key in r.checkpoints
    ensures RunInv(Restored(r, key), bound)
  {
    assert Below(r.checkpoints[key], bound);
  }
}
