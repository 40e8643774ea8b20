/** What is in the weights and in a checkpoint, read off the run's log of effects, captures and resets. */
module RunHistory {
  import opened Wrappers
  import opened RunSpec
  import opened RunInvariants

  function Fold(weights: seq<nat>, entry: LogEntry): seq<nat> {
    match entry
    case Applied(f) => weights + [f]
    case Took(_) => weights
    case Reset(installed) => installed
  }

  /** The weights a log leaves behind. */
  ghost function Replay(log: seq<LogEntry>): seq<nat> {
    if log == [] then [] else Fold(Replay(log[..|log| - 1]), log[|log| - 1])
  }

  lemma ReplaySnoc(log: seq<LogEntry>, entry: LogEntry)
    ensures Replay(log + [entry]) == Fold(Replay(log), entry)
  {
    assert (log + [entry])[..|log|] == log;
  }

  /** The checkpoint holds what the log had built up when it was captured. */
  ghost predicate TakenFrom(c: Checkpoint, log: seq<LogEntry>) {
    c.taken < |log| && log[c.taken] == Took(c.futureId) && c.weights == Replay(log[..c.taken])
  }

  ghost predicate AllTakenFrom(ckpts: map<CkptKey, Checkpoint>, log: seq<LogEntry>) {
    forall k :: k in ckpts ==> TakenFrom(ckpts[k], log)
  }

  ghost predicate QueuedTakenFrom(queue: seq<Entry>, log: seq<LogEntry>) {
    forall i :: 0 <= i < |queue| && queue[i].work.Load? ==> TakenFrom(queue[i].work.ckpt, log)
  }

  ghost predicate PhaseTakenFrom(phase: Phase, log: seq<LogEntry>) {
    (phase.Captured? || phase.Published? || phase.Persisted?) ==> TakenFrom(phase.ckpt, log)
  }

  /** A reset installs nothing, or what the log had built up at an earlier time. */
  ghost predicate ResetAt(log: seq<LogEntry>, i: nat)
    requires i < |log| && log[i].Reset?
  {
    log[i].weights == [] || exists j: nat :: j < i && log[i].weights == Replay(log[..j])
  }

  ghost predicate ResetsKnown(log: seq<LogEntry>) {
    forall i :: 0 <= i < |log| && log[i].Reset? ==> ResetAt(log, i)
  }

  ghost predicate Replayed(r: Run) {
    && r.weights == Replay(r.log) && ResetsKnown(r.log)
    && AllTakenFrom(r.checkpoints, r.log) && AllTakenFrom(r.stored, r.log)
    && QueuedTakenFrom(r.queue, r.log) && PhaseTakenFrom(r.phase, r.log)
  }

  lemma TakenGrows(c: Checkpoint, log: seq<LogEntry>, entry: LogEntry)
    requires TakenFrom(c, log)
    ensures TakenFrom(c, log + [entry])
  {
    assert (log + [entry])[..c.taken] == log[..c.taken];
  }

  lemma AllTakenGrow(ckpts: map<CkptKey, Checkpoint>, log: seq<LogEntry>, entry: LogEntry)
    requires AllTakenFrom(ckpts, log)
    ensures AllTakenFrom(ckpts, log + [entry])
  {
    forall k | k in ckpts ensures TakenFrom(ckpts[k], log + [entry]) {
      TakenGrows(ckpts[k], log, entry);
    }
  }

  lemma QueuedTakenGrow(queue: seq<Entry>, log: seq<LogEntry>, entry: LogEntry)
    requires QueuedTakenFrom(queue, log)
    ensures QueuedTakenFrom(queue, log + [entry])
  {
    forall i | 0 <= i < |queue| && queue[i].work.Load? ensures TakenFrom(queue[i].work.ckpt, log + [entry]) {
      TakenGrows(queue[i].work.ckpt, log, entry);
    }
  }

  lemma ResetsGrow(log: seq<LogEntry>, entry: LogEntry)
    requires ResetsKnown(log)
    requires entry.Reset? ==> entry.weights == [] || exists j: nat :: j < |log| && entry.weights == Replay(log[..j])
    ensures ResetsKnown(log + [entry])
  {
    var longer := log + [entry];
    forall i | 0 <= i < |longer| && longer[i].Reset? ensures ResetAt(longer, i) {
      if i < |log| {
        assert ResetAt(log, i);
        if log[i].weights != [] {
          var j: nat :| j < i && log[i].weights == Replay(log[..j]);
          assert longer[..j] == log[..j];
        }
      } else if entry.weights != [] {
        var j: nat :| j < |log| && entry.weights == Replay(log[..j]);
        assert longer[..j] == log[..j];
      }
    }
  }

  /** The log grows by one entry, and the weights with it. */
  lemma ReplayedLog(r: Run, r': Run, entry: LogEntry)
    requires Replayed(r) && r'.log == r.log + [entry] && r'.weights == Replay(r'.log)
    requires entry.Reset? ==> entry.weights == [] || exists j: nat :: j < |r.log| && entry.weights == Replay(r.log[..j])
    requires r'.queue == r.queue && r'.checkpoints == r.checkpoints && r'.stored == r.stored
    requires PhaseTakenFrom(r'.phase, r'.log)
    ensures Replayed(r')
  {
    ResetsGrow(r.log, entry);
    AllTakenGrow(r.checkpoints, r.log, entry);
    AllTakenGrow(r.stored, r.log, entry);
    QueuedTakenGrow(r.queue, r.log, entry);
  }

  lemma ReplayedEffect(r: Run)
    requires Replayed(r) && RunEnabled(r, Effect)
    ensures Replayed(RunStep(r, Effect))
  {
    var r' := RunStep(r, Effect);
    match r.queue[0].work
    case Apply =>
      ReplaySnoc(r.log, Applied(r.queue[0].futureId));
      ReplayedLog(r, r', Applied(r.queue[0].futureId));
    case Load(ckpt) =>
      ReplaySnoc(r.log, Reset(ckpt.weights));
      assert TakenFrom(ckpt, r.log);
      ReplayedLog(r, r', Reset(ckpt.weights));
  }

  lemma ReplayedCapture(r: Run)
    requires Replayed(r) && RunEnabled(r, Capture)
    ensures Replayed(RunStep(r, Capture))
  {
    var ckpt, r' := SavedCheckpoint(r), RunStep(r, Capture);
    ReplaySnoc(r.log, Took(ckpt.futureId));
    assert r'.log[..|r.log|] == r.log;
    ReplayedLog(r, r', Took(ckpt.futureId));
  }

  lemma ReplayedMaps(r: Run, e: RunEvent)
    requires Replayed(r) && RunEnabled(r, e) && (e.Publish? || e.Persist? || e.Delete?)
    ensures Replayed(RunStep(r, e))
  {
  }

  /** The lock passes on, or only counters and the phase move. */
  lemma ReplayedControl(r: Run, r': Run)
    requires Replayed(r) && (r'.phase.Waiting? || r'.phase.Running?)
    requires r'.queue == r.queue || (r.queue != [] && r'.queue == r.queue[1..])
    requires r'.log == r.log && r'.weights == r.weights && r'.checkpoints == r.checkpoints && r'.stored == r.stored
    ensures Replayed(r')
  {
    forall i | 0 <= i < |r'.queue| && r'.queue[i].work.Load? ensures TakenFrom(r'.queue[i].work.ckpt, r'.log) {
      assert r'.queue[i] == r.queue[i + |r.queue| - |r'.queue|];
    }
  }

  lemma ReplayedStart(r: Run, at: int)
    requires Replayed(r) && RunEnabled(r, Start(at))
    ensures Replayed(RunStep(r, Start(at)))
  {
    ReplayedControl(r, RunStep(r, Start(at)));
  }

  lemma ReplayedFinish(r: Run, ok: bool)
    requires Replayed(r) && RunEnabled(r, Finish(ok))
    ensures Replayed(RunStep(r, Finish(ok)))
  {
    ReplayedControl(r, RunStep(r, Finish(ok)));
  }

  lemma ReplayedStep(r: Run, e: RunEvent)
    requires Replayed(r) && RunEnabled(r, e) && !e.Request?
    ensures Replayed(RunStep(r, e))
  {
    match e
    case Effect => ReplayedEffect(r);
    case Capture => ReplayedCapture(r);
    case Publish => ReplayedMaps(r, e);
    case Persist => ReplayedMaps(r, e);
    case Delete(_) => ReplayedMaps(r, e);
    case Start(at) => ReplayedStart(r, at);
    case Finish(ok) => ReplayedFinish(r, ok);
    case Request(_) =>
  }

  lemma ReplayedRequest(r: Run, entry: Entry)
    requires Replayed(r) && (entry.work.Load? ==> TakenFrom(entry.work.ckpt, r.log))
    ensures Replayed(RunStep(r, Request(entry)))
  {
  }

  lemma ReplayedReload(r: Run)
    requires Replayed(r)
    ensures Replayed(Reloaded(r))
  {
    ReplaySnoc(r.log, Reset([]));
    var bare := r.(queue := [], phase := Waiting, checkpoints := r.stored);
    assert Replayed(bare);
    ReplayedLog(bare, Reloaded(r), Reset([]));
  }

  lemma ReplayedRestore(r: Run, key: CkptKey)
    requires Replayed(r) && key in r.checkpoints
    ensures Replayed(Restored(r, key))
  {
    var ckpt := r.checkpoints[key];
    assert TakenFrom(ckpt, r.log);
    ReplaySnoc(r.log, Reset(ckpt.weights));
    assert PhaseTakenFrom(r.phase, r.log + [Reset(ckpt.weights)]) by {
      if r.phase.Captured? || r.phase.Published? || r.phase.Persisted? {
        TakenGrows(r.phase.ckpt, r.log, Reset(ckpt.weights));
      }
    }
    ReplayedLog(r, Restored(r, key), Reset(ckpt.weights));
  }

  // What decides whether an operation is in the weights

  ghost predicate Introduces(entry: LogEntry, f: nat) {
    match entry
    case Applied(g) => g == f
    case Took(_) => false
    case Reset(weights) => f in weights
  }

  ghost predicate NoReset(log: seq<LogEntry>, from: nat, to: nat)
    requires to <= |log|
  {
    forall i :: from <= i < to ==> !log[i].Reset?
  }

  /** Operation f came in at position a, and nothing before t threw it out again. */
  ghost predicate Kept(log: seq<LogEntry>, a: nat, t: nat, f: nat)
    requires t <= |log|
  {
    a < t && Introduces(log[a], f) && NoReset(log, a + 1, t)
  }

  /**
   * With any loads and restarts: operation f is in the weights the log has built up by
   * position t if and only if it was applied, or came with a load or restart, and no load
   * or restart followed before t.
   */
  lemma {:induction false} WeightsDecided(log: seq<LogEntry>, t: nat, f: nat)
    requires t <= |log|
    ensures f in Replay(log[..t]) <==> exists a: nat :: Kept(log, a, t, f)
  {
    if t > 0 {
      WeightsDecided(log, t - 1, f);
      assert log[..t] == log[..t - 1] + [log[t - 1]];
      ReplaySnoc(log[..t - 1], log[t - 1]);
      if f in Replay(log[..t]) {
        if Introduces(log[t - 1], f) {
          assert Kept(log, t - 1, t, f);
        } else {
          var a: nat :| Kept(log, a, t - 1, f);
          assert Kept(log, a, t, f);
        }
      }
      if a: nat :| Kept(log, a, t, f) {
        if a < t - 1 {
          assert Kept(log, a, t - 1, f);
        }
      }
    }
  }

  /** Whatever is in the weights was applied at some earlier time. */
  lemma {:induction false} InWeightsWasApplied(log: seq<LogEntry>, t: nat, f: nat) returns (b: nat)
    requires t <= |log| && ResetsKnown(log) && f in Replay(log[..t])
    ensures b < t && log[b] == Applied(f)
    decreases t
  {
    WeightsDecided(log, t, f);
    var a: nat :| Kept(log, a, t, f);
    if log[a].Reset? {
      assert ResetAt(log, a);
      var j: nat :| j < a && log[a].weights == Replay(log[..j]);
      b := InWeightsWasApplied(log, j, f);
    } else {
      b := a;
    }
  }

  ghost predicate AppliedOnlyAt(log: seq<LogEntry>, a: nat, f: nat) {
    && a < |log| && log[a] == Applied(f)
    && forall b :: 0 <= b < |log| && log[b] == Applied(f) ==> b == a
  }

  /**
   * An operation that took effect once, with no load or restart between its effect and
   * position t, is in the weights at t if and only if it took effect before t.
   */
  lemma AppliedDecides(log: seq<LogEntry>, a: nat, t: nat, f: nat)
    requires t <= |log| && ResetsKnown(log) && AppliedOnlyAt(log, a, f) && NoReset(log, a + 1, t)
    ensures f in Replay(log[..t]) <==> a < t
  {
    WeightsDecided(log, t, f);
    if a < t {
      assert Kept(log, a, t, f);
    } else if f in Replay(log[..t]) {
      var b := InWeightsWasApplied(log, t, f);
    }
  }

  // Every operation takes effect at most once

  ghost function AppliedIds(log: seq<LogEntry>): seq<nat> {
    if log == [] then []
    else
      var front, last := AppliedIds(log[..|log| - 1]), log[|log| - 1];
      if last.Applied? then front + [last.futureId] else front
  }

  lemma AppliedIdsSnoc(log: seq<LogEntry>, entry: LogEntry)
    ensures AppliedIds(log + [entry]) == if entry.Applied? then AppliedIds(log) + [entry.futureId] else AppliedIds(log)
  {
    assert (log + [entry])[..|log|] == log;
  }

  ghost function EntryIds(queue: seq<Entry>): (ids: seq<nat>)
    ensures |ids| == |queue|
  {
    seq(|queue|, i requires 0 <= i < |queue| => queue[i].futureId)
  }

  /** The requests whose effect has not happened yet. */
  ghost function Unstarted(r: Run): seq<Entry> {
    if r.phase.Affected? && r.queue != [] then r.queue[1..] else r.queue
  }

  ghost function Ids(r: Run): seq<nat> {
    AppliedIds(r.log) + EntryIds(Unstarted(r))
  }

  /** An update whose effect has happened but which still holds the lock is in the log. */
  ghost predicate HeadListed(r: Run) {
    r.phase.Affected? && r.queue != [] && r.queue[0].work.Apply? ==> r.queue[0].futureId in AppliedIds(r.log)
  }

  lemma HeadListedStep(r: Run, e: RunEvent)
    requires HeadListed(r) && GuardInv(r) && RunEnabled(r, e)
    ensures HeadListed(RunStep(r, e))
  {
    if e.Effect? {
      AppliedIdsSnoc(r.log, RunStep(r, e).log[|r.log|]);
    }
  }

  ghost predicate Distinct(ids: seq<nat>) {
    forall i, j :: 0 <= i < j < |ids| ==> ids[i] != ids[j]
  }

  /** `shorter` is `longer`, or `longer` without the element at position `at`. */
  ghost predicate Dropped(longer: seq<nat>, shorter: seq<nat>, at: nat) {
    shorter == longer || (at < |longer| && shorter == longer[..at] + longer[at + 1..])
  }

  lemma DroppedDistinct(longer: seq<nat>, shorter: seq<nat>, at: nat)
    requires Distinct(longer) && Dropped(longer, shorter, at)
    ensures Distinct(shorter) && forall f :: f in shorter ==> f in longer
  {
  }

  lemma HeadId(queue: seq<Entry>)
    requires queue != []
    ensures EntryIds(queue) == [queue[0].futureId] + EntryIds(queue[1..])
  {
  }

  lemma IdsApply(r: Run)
    requires RunEnabled(r, Effect) && r.queue[0].work.Apply?
    ensures Ids(RunStep(r, Effect)) == Ids(r)
  {
    var f := r.queue[0].futureId;
    HeadId(r.queue);
    AppliedIdsSnoc(r.log, Applied(f));
    Regroup(AppliedIds(r.log), f, EntryIds(r.queue[1..]));
  }

  lemma Regroup(front: seq<nat>, f: nat, rest: seq<nat>)
    ensures (front + [f]) + rest == front + ([f] + rest)
  {
  }

  lemma DropMiddle(front: seq<nat>, f: nat, rest: seq<nat>)
    ensures Dropped(front + ([f] + rest), front + rest, |front|)
  {
  }

  lemma IdsLoad(r: Run)
    requires RunEnabled(r, Effect) && r.queue[0].work.Load?
    ensures Dropped(Ids(r), Ids(RunStep(r, Effect)), |AppliedIds(r.log)|)
  {
    HeadId(r.queue);
    AppliedIdsSnoc(r.log, Reset(r.queue[0].work.ckpt.weights));
    DropMiddle(AppliedIds(r.log), r.queue[0].futureId, EntryIds(r.queue[1..]));
  }

  lemma IdsCapture(r: Run)
    requires RunEnabled(r, Capture)
    ensures Ids(RunStep(r, Capture)) == Ids(r)
  {
    AppliedIdsSnoc(r.log, Took(SavedCheckpoint(r).futureId));
  }

  lemma IdsMaps(r: Run, e: RunEvent)
    requires RunEnabled(r, e) && (e.Publish? || e.Persist? || e.Delete?)
    ensures Ids(RunStep(r, e)) == Ids(r)
  {
  }

  lemma IdsStart(r: Run, at: int)
    requires RunEnabled(r, Start(at))
    ensures Dropped(Ids(r), Ids(RunStep(r, Start(at))), |AppliedIds(r.log)|)
  {
    IdsPop(r, RunStep(r, Start(at)));
  }

  lemma IdsFinish(r: Run, ok: bool)
    requires RunEnabled(r, Finish(ok))
    ensures Dropped(Ids(r), Ids(RunStep(r, Finish(ok))), |AppliedIds(r.log)|)
  {
    IdsPop(r, RunStep(r, Finish(ok)));
  }

  /** A step moves the head's id from the requests to the effects, or drops it, or does neither. */
  lemma IdsStep(r: Run, e: RunEvent)
    requires GuardInv(r) && RunEnabled(r, e) && !e.Request?
    ensures Dropped(Ids(r), Ids(RunStep(r, e)), |AppliedIds(r.log)|)
  {
    match e
    case Effect =>
      if r.queue[0].work.Apply? {
        IdsApply(r);
      } else {
        IdsLoad(r);
      }
    case Capture => IdsCapture(r);
    case Start(at) => IdsStart(r, at);
    case Finish(ok) => IdsFinish(r, ok);
    case Publish => IdsMaps(r, e);
    case Persist => IdsMaps(r, e);
    case Delete(_) => IdsMaps(r, e);
    case Request(_) =>
  }

  lemma IdsPop(r: Run, r': Run)
    requires r.queue != [] && r'.log == r.log && !r'.phase.Affected?
    requires r'.queue == r.queue || r'.queue == r.queue[1..]
    requires r.phase.Affected? ==> r'.queue == r.queue[1..]
    ensures Dropped(Ids(r), Ids(r'), |AppliedIds(r.log)|)
  {
    HeadId(r.queue);
    DropMiddle(AppliedIds(r.log), r.queue[0].futureId, EntryIds(r.queue[1..]));
  }

  lemma IdsRequest(r: Run, entry: Entry)
    requires r.phase.Affected? ==> r.queue != []
    ensures Ids(RunStep(r, Request(entry))) == Ids(r) + [entry.futureId]
  {
    var r' := RunStep(r, Request(entry));
    if r.phase.Affected? {
      assert r'.queue[1..] == r.queue[1..] + [entry];
    }
    assert EntryIds(Unstarted(r')) == EntryIds(Unstarted(r)) + [entry.futureId];
  }

  lemma IdsReload(r: Run)
    ensures Ids(Reloaded(r)) == AppliedIds(r.log)
  {
    AppliedIdsSnoc(r.log, Reset([]));
  }

  lemma IdsRestore(r: Run, key: CkptKey)
    requires key in r.checkpoints
    ensures Ids(Restored(r, key)) == Ids(r)
  {
    AppliedIdsSnoc(r.log, Reset(r.checkpoints[key].weights));
  }

  lemma {:induction false} EffectIsListed(log: seq<LogEntry>, a: nat, f: nat)
    requires a < |log| && log[a] == Applied(f)
    ensures f in AppliedIds(log)
  {
    if a < |log| - 1 {
      EffectIsListed(log[..|log| - 1], a, f);
    }
  }

  lemma NewAtTheEnd(ids: seq<nat>, f: nat)
    requires Distinct(ids + [f])
    ensures Distinct(ids) && f !in ids
  {
    forall i, j | 0 <= i < j < |ids| ensures ids[i] != ids[j] {
      assert (ids + [f])[i] != (ids + [f])[j];
    }
    forall i | 0 <= i < |ids| ensures ids[i] != f {
      assert (ids + [f])[i] != (ids + [f])[|ids|];
    }
  }

  /** Distinct ids: an effect that is in the log is there once. */
  lemma {:induction false} DistinctMeansOnce(log: seq<LogEntry>, a: nat, b: nat, f: nat)
    requires Distinct(AppliedIds(log)) && a <= b < |log| && log[a] == log[b] == Applied(f)
    ensures a == b
  {
    var front, last := log[..|log| - 1], log[|log| - 1];
    if last.Applied? {
      NewAtTheEnd(AppliedIds(front), last.futureId);
    }
    if b < |log| - 1 {
      DistinctMeansOnce(front, a, b, f);
    } else if a < b {
      EffectIsListed(front, a, f);
    }
  }
}
