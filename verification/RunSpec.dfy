/**
 * One training run: a FIFO execution lock, a sequence guard inside it, the weights the
 * backend holds, and the checkpoints of the run in memory and in the store.
 *
 * Weights are modelled by the future ids whose operations they contain, in order.
 */
module RunSpec {
  import opened Wrappers

  /** Checkpoint maps are keyed by kind (training or sampler) and name. */
  datatype CkptKey = CkptKey(training: bool, name: nat)

  /** `taken` is history: the position in the run's log at which the checkpoint was captured. */
  datatype Checkpoint = Checkpoint(futureId: nat, seqId: Option<int>, createdAt: int, weights: seq<nat>, taken: nat)

  /** What a queued operation will do once it holds the lock; a save carries its stamp. */
  datatype Work = Apply | Save(key: CkptKey, stamp: nat) | Load(ckpt: Checkpoint)

  datatype Entry = Entry(futureId: nat, seqId: Option<int>, work: Work)

  /**
   * Progress of the entry at the head of the queue: not resumed yet; past the guard since
   * `at`; its effect is in the weights; or, for a save, the checkpoint captured, entered
   * in the run's map, and saved.
   */
  datatype Phase =
    | Waiting
    | Running(at: int)
    | Affected
    | Captured(ckpt: Checkpoint)
    | Published(ckpt: Checkpoint)
    | Persisted(ckpt: Checkpoint)

  /** An operation's effect, a capture, or weights replaced by a load or a restart. */
  datatype LogEntry = Applied(futureId: nat) | Took(stamp: nat) | Reset(weights: seq<nat>)

  /**
   * `savedSeqId`, `savedCorrupted` and `stored` are what the store holds.  `log` records
   * effects, captures and resets in order; `succeeded` the guarded ids that completed.
   */
  datatype Run = Run(
    queue: seq<Entry>,
    phase: Phase,
    nextSeqId: int,
    savedSeqId: int,
    weights: seq<nat>,
    checkpoints: map<CkptKey, Checkpoint>,
    stored: map<CkptKey, Checkpoint>,
    corrupted: bool,
    savedCorrupted: bool,
    clock: int,
    log: seq<LogEntry>,
    succeeded: seq<int>)

  datatype RunEvent =
    | Request(entry: Entry)
    | Start(at: int)
    | Effect
    | Capture
    | Publish
    | Persist
    | Finish(ok: bool)
    | Delete(key: CkptKey)

  const FRESH := Run([], Waiting, 1, 1, [], map[], map[], false, false, 0, [], [])

  predicate Rejected(r: Run, entry: Entry) {
    entry.seqId.Some? && entry.seqId.value < r.nextSeqId
  }

  predicate RunEnabled(r: Run, e: RunEvent) {
    match e
    case Request(_) => true
    case Delete(_) => true
    case Start(at) => r.phase.Waiting? && r.queue != [] && at >= r.clock
    case Effect => r.phase.Running? && r.queue != [] && !r.queue[0].work.Save?
    case Capture => r.phase.Running? && r.queue != [] && r.queue[0].work.Save?
    case Publish => r.phase.Captured? && r.queue != [] && r.queue[0].work.Save?
    case Persist => r.phase.Published? && r.queue != [] && r.queue[0].work.Save?
    case Finish(ok) =>
      && !r.phase.Waiting? && r.queue != []
      && (ok ==> if r.queue[0].work.Save? then r.phase.Persisted? else r.phase.Affected?)
  }

  function SavedCheckpoint(r: Run): Checkpoint
    requires r.phase.Running? && r.queue != [] && r.queue[0].work.Save?
  {
    Checkpoint(r.queue[0].work.stamp, r.queue[0].seqId, r.phase.at, r.weights, |r.log|)
  }

  function RunStep(r: Run, e: RunEvent): Run
    requires RunEnabled(r, e)
  {
    match e
    case Request(entry) =>
      // A forward or optimizer step notes the run's activity first, which saves the run.
      r.(queue := r.queue + [entry], savedSeqId := if entry.work.Apply? then r.nextSeqId else r.savedSeqId)
    case Start(at) =>
      // A stale id is refused and the lock passes on; an id that ran ahead fast-forwards.
      var entry := r.queue[0];
      if Rejected(r, entry) then r.(queue := r.queue[1..], clock := at)
      else
        r.(phase := Running(at), clock := at,
           nextSeqId := if entry.seqId.Some? then entry.seqId.value else r.nextSeqId)
    case Effect =>
      (match r.queue[0].work
       case Apply =>
         r.(phase := Affected, weights := r.weights + [r.queue[0].futureId],
            log := r.log + [Applied(r.queue[0].futureId)])
       case Load(ckpt) => r.(phase := Affected, weights := ckpt.weights, log := r.log + [Reset(ckpt.weights)]))
    case Capture =>
      var ckpt := SavedCheckpoint(r);
      r.(phase := Captured(ckpt), log := r.log + [Took(ckpt.futureId)])
    case Publish =>
      r.(phase := Published(r.phase.ckpt), checkpoints := r.checkpoints[r.queue[0].work.key := r.phase.ckpt])
    case Persist =>
      // Run and checkpoint are saved together; a checkpoint deleted meanwhile is not.
      var key := r.queue[0].work.key;
      r.(phase := Persisted(r.phase.ckpt), savedSeqId := r.nextSeqId,
         stored := if key in r.checkpoints then r.stored[key := r.checkpoints[key]] else r.stored)
    case Finish(ok) =>
      var seqId := r.queue[0].seqId;
      var done := r.(queue := r.queue[1..], phase := Waiting);
      if !ok then done
      else if seqId.Some? then
        done.(nextSeqId := r.nextSeqId + 1, savedSeqId := r.nextSeqId + 1, succeeded := r.succeeded + [seqId.value])
      else done.(savedSeqId := r.nextSeqId)
    case Delete(key) =>
      r.(checkpoints := r.checkpoints - {key}, stored := r.stored - {key}, savedSeqId := r.nextSeqId)
  }

  // A new process

  /** The run as read from the store: no queue, no weights until a checkpoint is loaded. */
  function Reloaded(r: Run): Run {
    r.(queue := [], phase := Waiting, nextSeqId := r.savedSeqId, checkpoints := r.stored,
       corrupted := r.savedCorrupted, weights := [], log := r.log + [Reset([])])
  }

  function Restored(r: Run, key: CkptKey): Run
    requires key in r.checkpoints
  {
    r.(weights := r.checkpoints[key].weights, log := r.log + [Reset(r.checkpoints[key].weights)])
  }

  function LoadFailed(r: Run): Run {
    r.(corrupted := true)
  }

  /** Saving the run record saves its expected id along with the flag. */
  function CorruptionSaved(r: Run): Run {
    r.(savedCorrupted := r.corrupted, savedSeqId := r.nextSeqId)
  }

  ghost predicate IsRun(r: Run, es: seq<RunEvent>)
    decreases |es|
  {
    es == [] || (RunEnabled(r, es[0]) && IsRun(RunStep(r, es[0]), es[1..]))
  }

  ghost function After(r: Run, es: seq<RunEvent>): Run
    requires IsRun(r, es)
    decreases |es|
  {
    if es == [] then r else After(RunStep(r, es[0]), es[1..])
  }

  // The sequence guard

  ghost predicate GuardInv(r: Run) {
    && r.savedSeqId <= r.nextSeqId
    && (forall k :: 0 <= k < |r.succeeded| ==> r.succeeded[k] < r.savedSeqId)
    && (forall k, l :: 0 <= k < l < |r.succeeded| ==> r.succeeded[k] < r.succeeded[l])
    && (!r.phase.Waiting? ==> r.queue != [] && (r.queue[0].seqId.Some? ==> r.queue[0].seqId.value == r.nextSeqId))
  }

  lemma GuardStep(r: Run, e: RunEvent)
    requires GuardInv(r) && RunEnabled(r, e)
    ensures GuardInv(RunStep(r, e)) && r.nextSeqId <= RunStep(r, e).nextSeqId
  {
  }

  lemma {:induction false} GuardRun(r: Run, es: seq<RunEvent>)
    requires GuardInv(r) && IsRun(r, es)
    ensures GuardInv(After(r, es)) && r.nextSeqId <= After(r, es).nextSeqId
    decreases |es|
  {
    if es != [] {
      GuardStep(r, es[0]);
      GuardRun(RunStep(r, es[0]), es[1..]);
    }
  }

  /**
   * Whatever the interleaving and whichever operations fail: the expected id never goes
   * back, exceeds every id that succeeded, and succeeded ids strictly increase.
   */
  lemma SequenceGuard(es: seq<RunEvent>, more: seq<RunEvent>)
    requires IsRun(FRESH, es) && IsRun(After(FRESH, es), more)
    ensures var r, later := After(FRESH, es), After(After(FRESH, es), more);
            && r.nextSeqId <= later.nextSeqId
            && (forall k :: 0 <= k < |later.succeeded| ==> later.succeeded[k] < later.nextSeqId)
            && (forall k, l :: 0 <= k < l < |later.succeeded| ==> later.succeeded[k] < later.succeeded[l])
  {
    GuardRun(FRESH, es);
    GuardRun(After(FRESH, es), more);
  }

  /** An id is refused exactly when it is below the expected one; nothing but the queue and clock moves. */
  lemma RejectionChangesNothing(es: seq<RunEvent>, at: int)
    requires IsRun(FRESH, es) && RunEnabled(After(FRESH, es), Start(at))
    ensures var r := After(FRESH, es);
            var r' := RunStep(r, Start(at));
            (r'.phase.Waiting? <==> r.queue[0].seqId.Some? && r.queue[0].seqId.value < r.nextSeqId)
            && (r'.phase.Waiting? ==> r' == r.(queue := r.queue[1..], clock := at))
            && (forall k :: 0 <= k < |r.succeeded| && r.queue[0].seqId == Some(r.succeeded[k]) ==> r'.phase.Waiting?)
  {
    GuardRun(FRESH, es);
  }

  // Checkpoints

  /** The checkpoint `get_latest_checkpoint` may return: none was created later. */
  ghost predicate IsLatest(ckpts: map<CkptKey, Checkpoint>, key: CkptKey) {
    key in ckpts && forall k :: k in ckpts ==> ckpts[k].createdAt <= ckpts[key].createdAt
  }

  ghost predicate AtMost(ids: seq<nat>, bound: nat) {
    forall i :: 0 <= i < |ids| ==> ids[i] <= bound
  }

  /** A checkpoint contains no operation numbered after its stamp. */
  ghost predicate Clean(ckpt: Checkpoint) {
    AtMost(ckpt.weights, ckpt.futureId)
  }

  /** A checkpoint that exists when a save is stamped: clean, and stamped no later. */
  ghost predicate Below(ckpt: Checkpoint, bound: nat) {
    Clean(ckpt) && ckpt.futureId <= bound
  }

  /** Two checkpoints of a run: the one created earlier is stamped no later. */
  ghost predicate Aligned(a: Checkpoint, b: Checkpoint) {
    a.createdAt < b.createdAt ==> a.futureId <= b.futureId
  }

  ghost predicate Bounded(entry: Entry, bound: nat) {
    && entry.futureId <= bound
    && match entry.work
       case Apply => true
       case Save(_, stamp) => stamp <= bound
       case Load(ckpt) => Below(ckpt, bound)
  }

  ghost predicate PhaseBounded(phase: Phase, bound: nat) {
    (phase.Captured? || phase.Published? || phase.Persisted?) ==> Below(phase.ckpt, bound)
  }

  ghost predicate EntryAtMost(entry: LogEntry, bound: nat) {
    match entry
    case Applied(f) => f <= bound
    case Took(stamp) => stamp <= bound
    case Reset(weights) => AtMost(weights, bound)
  }

  /** Nothing in the run is numbered above `bound`; every checkpoint in sight is clean. */
  ghost predicate Within(r: Run, bound: nat) {
    && AtMost(r.weights, bound)
    && (forall i :: 0 <= i < |r.queue| ==> Bounded(r.queue[i], bound))
    && (forall k :: k in r.checkpoints ==> Below(r.checkpoints[k], bound))
    && (forall k :: k in r.stored ==> Below(r.stored[k], bound))
    && PhaseBounded(r.phase, bound)
    && (forall i :: 0 <= i < |r.log| ==> EntryAtMost(r.log[i], bound))
  }

  /** The same, as seen by the save at position j: what is applied, stored or queued before it. */
  ghost predicate StampCovers(r: Run, j: nat)
    requires j < |r.queue| && r.queue[j].work.Save?
  {
    Within(r.(queue := r.queue[..j]), r.queue[j].work.stamp) && r.queue[j].futureId <= r.queue[j].work.stamp
  }
}
