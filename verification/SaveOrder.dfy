/** Which operations a checkpoint contains, told from the queue at the time the save joined it. */
module SaveOrder {
  import opened Wrappers
  import opened RunSpec
  import opened RunInvariants
  import opened RunHistory

  /** Whether the step takes the head off the queue. */
  ghost function Pops(r: Run, e: RunEvent): nat
    requires RunEnabled(r, e)
  {
    if !e.Request? && |RunStep(r, e).queue| < |r.queue| then 1 else 0
  }

  ghost function Popped(r: Run, es: seq<RunEvent>): nat
    requires IsRun(r, es)
    decreases |es|
  {
    if es == [] then 0 else Pops(r, es[0]) + Popped(RunStep(r, es[0]), es[1..])
  }

  ghost predicate NoLoads(queue: seq<Entry>) {
    forall i :: 0 <= i < |queue| ==> !queue[i].work.Load?
  }

  /** An update with future id f is among these requests. */
  ghost predicate Queued(f: nat, queue: seq<Entry>) {
    exists i :: 0 <= i < |queue| && queue[i].work.Apply? && queue[i].futureId == f
  }

  /** The weights keep what they had and gain nothing but what is queued. */
  ghost predicate Gained(before: seq<nat>, after: seq<nat>, queue: seq<Entry>) {
    && before <= after
    && forall f :: f in after ==> f in before || Queued(f, queue)
  }

  lemma GainedTrans(a: seq<nat>, b: seq<nat>, c: seq<nat>, queue: seq<Entry>, rest: seq<Entry>)
    requires Gained(a, b, queue) && Gained(b, c, rest)
    requires rest == queue || (queue != [] && rest == queue[1..])
    ensures Gained(a, c, queue)
  {
    forall f | f in c ensures f in a || Queued(f, queue) {
      if f !in b {
        var i :| 0 <= i < |rest| && rest[i].work.Apply? && rest[i].futureId == f;
        assert queue[i + |queue| - |rest|] == rest[i];
      }
    }
  }

  /** A save waits at position n, with no load ahead of it. */
  ghost predicate SaveWaits(r: Run, n: nat) {
    n < |r.queue| && r.queue[n].work.Save? && NoLoads(r.queue[..n])
  }

  lemma WaitRequest(r: Run, n: nat, entry: Entry)
    requires SaveWaits(r, n)
    ensures var r' := RunStep(r, Request(entry));
            SaveWaits(r', n) && r'.queue[..n] == r.queue[..n] && r'.queue[n] == r.queue[n] && r'.weights == r.weights
  {
  }

  lemma WaitQueue(queue: seq<Entry>, rest: seq<Entry>, n: nat)
    requires n < |queue| && NoLoads(queue[..n]) && 0 < n && rest == queue[1..]
    ensures rest[..n - 1] == queue[..n][1..] && rest[n - 1] == queue[n] && NoLoads(rest[..n - 1])
  {
    var ahead, later := queue[..n][1..], rest[..n - 1];
    forall i | 0 <= i < |later| ensures later[i] == ahead[i] {
    }
  }

  lemma WaitWeights(r: Run, n: nat, e: RunEvent)
    requires SaveWaits(r, n) && RunEnabled(r, e) && !e.Request?
    ensures Gained(r.weights, RunStep(r, e).weights, r.queue[..n])
  {
    if e.Effect? {
      assert r.queue[..n][0] == r.queue[0];
      assert Queued(r.queue[0].futureId, r.queue[..n]);
    }
  }

  /** One step of such a run. */
  lemma WaitStep(r: Run, n: nat, e: RunEvent)
    requires SaveWaits(r, n) && RunEnabled(r, e) && Pops(r, e) <= n
    ensures var r', p := RunStep(r, e), Pops(r, e);
            && SaveWaits(r', n - p) && r'.queue[n - p] == r.queue[n]
            && (r'.queue[..n - p] == r.queue[..n] || (0 < n && r'.queue[..n - p] == r.queue[..n][1..]))
            && Gained(r.weights, r'.weights, r.queue[..n])
  {
    if e.Request? {
      WaitRequest(r, n, e.entry);
    } else {
      QueueMoves(r, e);
      WaitWeights(r, n, e);
      if Pops(r, e) == 1 {
        WaitQueue(r.queue, RunStep(r, e).queue, n);
      }
    }
  }

  lemma {:induction false} WaitRun(r: Run, n: nat, es: seq<RunEvent>)
    requires SaveWaits(r, n) && IsRun(r, es) && Popped(r, es) <= n
    ensures var r', p := After(r, es), Popped(r, es);
            && n - p < |r'.queue| && r'.queue[n - p] == r.queue[n]
            && Gained(r.weights, r'.weights, r.queue[..n])
    decreases |es|
  {
    if es != [] {
      var r1, p := RunStep(r, es[0]), Pops(r, es[0]);
      WaitStep(r, n, es[0]);
      WaitRun(r1, n - p, es[1..]);
      GainedTrans(r.weights, r1.weights, After(r1, es[1..]).weights, r.queue[..n], r1.queue[..n - p]);
    }
  }

  /**
   * Told from the moment a save joins the lock's queue, with no load ahead of it: whatever
   * is in the weights by then is in the checkpoint it captures; an update that has neither
   * taken effect nor joined the queue by then is not.
   */
  lemma QueueDecides(r: Run, save: Entry, es: seq<RunEvent>, f: nat)
    requires Replayed(r) && save.work.Save? && NoLoads(r.queue)
    requires var r1 := RunStep(r, Request(save));
             IsRun(r1, es) && Popped(r1, es) == |r.queue| && RunEnabled(After(r1, es), Capture)
    ensures var r2 := After(RunStep(r, Request(save)), es);
            && r2.queue[0] == save
            && (f in r.weights ==> f in SavedCheckpoint(r2).weights)
            && (f !in AppliedIds(r.log) && !Queued(f, r.queue) ==> f !in SavedCheckpoint(r2).weights)
  {
    var r1 := RunStep(r, Request(save));
    assert r1.queue[..|r.queue|] == r.queue;
    WaitRun(r1, |r.queue|, es);
    if f in After(r1, es).weights {
      if f in r.weights {
        assert r.log[..|r.log|] == r.log;
        var b := InWeightsWasApplied(r.log, |r.log|, f);
        EffectIsListed(r.log, b, f);
      }
    }
  }
}
