/** What an operation leaves once it has held the lock: loads, saves, deletions, and the saved expected id. */
module RunEffects {
  import opened Wrappers
  import opened RunSpec
  import opened RunInvariants
  import opened SaveOrder

  // Places in the queue

  lemma PlaceStep(r: Run, n: nat, e: RunEvent)
    requires n < |r.queue| && RunEnabled(r, e) && Pops(r, e) <= n
    ensures n - Pops(r, e) < |RunStep(r, e).queue| && RunStep(r, e).queue[n - Pops(r, e)] == r.queue[n]
  {
    if !e.Request? {
      QueueMoves(r, e);
    }
  }

  /** A request moves up as those before it leave, and stays what it is. */
  lemma {:induction false} PlaceKept(r: Run, n: nat, es: seq<RunEvent>)
    requires n < |r.queue| && IsRun(r, es) && Popped(r, es) <= n
    ensures n - Popped(r, es) < |After(r, es).queue| && After(r, es).queue[n - Popped(r, es)] == r.queue[n]
    decreases |es|
  {
    if es != [] {
      PlaceStep(r, n, es[0]);
      PlaceKept(RunStep(r, es[0]), n - Pops(r, es[0]), es[1..]);
    }
  }

  // Loads

  /** A client's load, when its turn has come, replaces the weights by the checkpoint's. */
  lemma LoadBringsCheckpoint(r: Run, load: Entry, es: seq<RunEvent>)
    requires load.work.Load?
    requires var r1 := RunStep(r, Request(load));
             IsRun(r1, es) && Popped(r1, es) == |r.queue| && RunEnabled(After(r1, es), Effect)
    ensures RunStep(After(RunStep(r, Request(load)), es), Effect).weights == load.work.ckpt.weights
  {
    PlaceKept(RunStep(r, Request(load)), |r.queue|, es);
  }

  // Saves

  /** The checkpoint a save that has just passed the guard will make. */
  ghost function Expected(r: Run): Checkpoint
    requires r.phase.Running? && r.queue != [] && r.queue[0].work.Save?
  {
    Checkpoint(r.queue[0].work.stamp, r.queue[0].seqId, r.phase.at, r.weights, |r.log|)
  }

  ghost predicate Holds(ckpts: map<CkptKey, Checkpoint>, key: CkptKey, ckpt: Checkpoint) {
    key in ckpts && ckpts[key] == ckpt
  }

  /** How far that save has come, while nobody deletes its key. */
  ghost predicate Saving(r: Run, head: Entry, ckpt: Checkpoint) {
    && r.queue != [] && r.queue[0] == head && head.work.Save?
    && match r.phase
       case Waiting => false
       case Affected => false
       case Running(_) => Expected(r) == ckpt
       case Captured(c) => c == ckpt
       case Published(c) => c == ckpt && Holds(r.checkpoints, head.work.key, ckpt)
       case Persisted(_) => Holds(r.checkpoints, head.work.key, ckpt) && Holds(r.stored, head.work.key, ckpt)
  }

  lemma SavingStep(r: Run, e: RunEvent, head: Entry, ckpt: Checkpoint)
    requires Saving(r, head, ckpt) && RunEnabled(r, e) && Pops(r, e) == 0 && e != Delete(head.work.key)
    ensures Saving(RunStep(r, e), head, ckpt)
  {
  }

  ghost predicate NeverDeleted(es: seq<RunEvent>, key: CkptKey) {
    forall i :: 0 <= i < |es| ==> es[i] != Delete(key)
  }

  lemma {:induction false} SavingRun(r: Run, es: seq<RunEvent>, head: Entry, ckpt: Checkpoint)
    requires Saving(r, head, ckpt) && IsRun(r, es) && Popped(r, es) == 0 && NeverDeleted(es, head.work.key)
    ensures Saving(After(r, es), head, ckpt)
    decreases |es|
  {
    if es != [] {
      assert es[0] != Delete(head.work.key) && NeverDeleted(es[1..], head.work.key);
      SavingStep(r, es[0], head, ckpt);
      SavingRun(RunStep(r, es[0]), es[1..], head, ckpt);
    }
  }

  /**
   * A save that returns has stored its checkpoint under its key, unless somebody deleted that
   * meanwhile: with the weights the run had when the save passed the guard, under the
   * stamp it queued with.  A new process finds it there.
   */
  lemma SaveIsDurable(r: Run, es: seq<RunEvent>)
    requires r.phase.Running? && r.queue != [] && r.queue[0].work.Save?
    requires IsRun(r, es) && Popped(r, es) == 0 && NeverDeleted(es, r.queue[0].work.key)
    requires RunEnabled(After(r, es), Finish(true))
    ensures var done := RunStep(After(r, es), Finish(true));
            var Entry(_, seqId, Save(key, stamp)) := r.queue[0];
            var ckpt := Checkpoint(stamp, seqId, r.phase.at, r.weights, |r.log|);
            && Holds(done.checkpoints, key, ckpt) && Holds(done.stored, key, ckpt)
            && Holds(Reloaded(done).checkpoints, key, ckpt)
  {
    SavingRun(r, es, r.queue[0], Expected(r));
  }

  // Deletions

  ghost predicate NoSaveOf(queue: seq<Entry>, key: CkptKey) {
    forall i :: 0 <= i < |queue| && queue[i].work.Save? ==> queue[i].work.key != key
  }

  ghost predicate Gone(r: Run, key: CkptKey) {
    key !in r.checkpoints && key !in r.stored && NoSaveOf(r.queue, key)
  }

  ghost predicate NeverSaved(es: seq<RunEvent>, key: CkptKey) {
    forall i :: 0 <= i < |es| && es[i].Request? && es[i].entry.work.Save? ==> es[i].entry.work.key != key
  }

  lemma GoneStep(r: Run, e: RunEvent, key: CkptKey)
    requires Gone(r, key) && RunEnabled(r, e) && NeverSaved([e], key)
    ensures Gone(RunStep(r, e), key)
  {
    assert e.Request? && e.entry.work.Save? ==> [e][0].entry.work.key != key;
    if !e.Request? {
      QueueMoves(r, e);
    }
  }

  lemma {:induction false} GoneRun(r: Run, es: seq<RunEvent>, key: CkptKey)
    requires Gone(r, key) && IsRun(r, es) && NeverSaved(es, key)
    ensures Gone(After(r, es), key)
    decreases |es|
  {
    if es != [] {
      GoneStep(r, es[0], key);
      GoneRun(RunStep(r, es[0]), es[1..], key);
    }
  }

  /** A deleted checkpoint stays away, also from a new process, until somebody saves under its key. */
  lemma DeletedStaysAway(r: Run, key: CkptKey, es: seq<RunEvent>)
    requires NoSaveOf(r.queue, key) && IsRun(RunStep(r, Delete(key)), es) && NeverSaved(es, key)
    ensures var later := After(RunStep(r, Delete(key)), es);
            && key !in later.checkpoints && key !in later.stored && key !in Reloaded(later).checkpoints
  {
    GoneRun(RunStep(r, Delete(key)), es, key);
  }

  // The expected id in the store

  /** A crash right after a return, a saved checkpoint, a deletion or an update's request loses no count. */
  lemma SavedIdIsCurrent(r: Run, e: RunEvent)
    requires RunEnabled(r, e)
    requires e == Finish(true) || e.Persist? || e.Delete? || (e.Request? && e.entry.work.Apply?)
    ensures Reloaded(RunStep(r, e)).nextSeqId == RunStep(r, e).nextSeqId
  {
  }
}
