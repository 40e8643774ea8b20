/** No recovery is ever stuck: from any point it can be carried through to service. */
module RecoveryEnds {
  import opened Wrappers
  import F = FutureSpec
  import opened RunSpec
  import opened RecoverySpec
  import opened RecoveryProgress
  import opened RecoveryOutcomes
  import opened RecoveryTheorems
  import opened Ordering

  lemma {:induction false} LatestExists(ckpts: map<CkptKey, Checkpoint>) returns (key: CkptKey)
    requires ckpts != map[]
    ensures IsLatest(ckpts, key)
    decreases |ckpts|
  {
    var first := Pick(ckpts.Keys);
    var rest := ckpts - {first};
    assert rest.Keys == ckpts.Keys - {first};
    key := first;
    if rest.Keys != {} {
      var other := LatestExists(rest);
      if ckpts[other].createdAt > ckpts[first].createdAt {
        key := other;
      }
    }
    forall k | k in ckpts ensures ckpts[k].createdAt <= ckpts[key].createdAt {
      assert k == first || k in rest.Keys;
    }
  }

  ghost function TurnRank(turn: Turn): nat {
    match turn
    case Between => 2
    case Failing(_) => 1
    case Marking(_, _) => 0
  }

  ghost function LeftOf(turn: Turn): nat {
    if turn.Marking? then |turn.left| else 0
  }

  /** Fewer samples, or fewer runs, or a turn further on, or fewer futures of the run at hand. */
  ghost predicate Nearer(rec: Recovery, rec': Recovery) {
    || |rec'.samples| < |rec.samples|
    || (|rec'.samples| == |rec.samples| && |rec'.todo| < |rec.todo|)
    || (|rec'.samples| == |rec.samples| && |rec'.todo| == |rec.todo| && TurnRank(rec'.turn) < TurnRank(rec.turn))
    || (&& |rec'.samples| == |rec.samples| && |rec'.todo| == |rec.todo| && TurnRank(rec'.turn) == TurnRank(rec.turn)
        && LeftOf(rec'.turn) < LeftOf(rec.turn))
  }

  /** Whatever recovery does next, other than coming to its end, brings it nearer to that. */
  lemma EveryStepIsNearer(s: System, rec: Recovery, e: Event)
    requires TurnOk(rec) && RecoveringEnabled(s, rec, e) && !e.Complete?
    ensures RecoveringStep(s, rec, e).stage.Recovering? && Nearer(rec, RecoveringStep(s, rec, e).stage.rec)
  {
  }

  /** What the invariant says about the names recovery holds. */
  lemma NamesExist(s: System)
    requires Reachable(s) && s.stage.Recovering?
    ensures var rec := s.stage.rec;
            && rec.samples <= s.futures.records.Keys && rec.todo <= s.runs.Keys && TurnOk(rec)
            && (rec.turn.Marking? ==> rec.turn.left <= s.futures.records.Keys)
  {
    InvReachable(s);
    StartKeys(s, s.stage.rec);
  }

  /** The next thing to do. */
  lemma NextStep(s: System) returns (e: Event)
    requires Reachable(s) && s.stage.Recovering?
    ensures RecoveringEnabled(s, s.stage.rec, e) && !e.Restart?
  {
    NamesExist(s);
    var rec := s.stage.rec;
    if rec.samples != {} {
      var id := Pick(rec.samples);
      e := MarkSample(id);
    } else if rec.turn.Failing? {
      e := SaveCorrupted;
    } else if rec.turn.Marking? && rec.turn.left == {} {
      e := EndTurn;
    } else if rec.turn.Marking? {
      var id := Pick(rec.turn.left);
      e := MarkFuture(id);
    } else if rec.todo == {} {
      e := Complete;
    } else {
      var m := Pick(rec.todo);
      e := NextRun(s, m);
    }
  }

  lemma NextRun(s: System, m: F.ModelId) returns (e: Event)
    requires s.stage.Recovering? && s.stage.rec.samples == {} && s.stage.rec.turn.Between?
    requires m in s.stage.rec.todo && m in s.runs
    ensures RecoveringEnabled(s, s.stage.rec, e) && !e.Restart?
  {
    if s.runs[m].corrupted {
      e := Skip(m);
    } else if s.runs[m].checkpoints == map[] {
      e := LoadLatest(m, None, true);
    } else {
      var key := LatestExists(s.runs[m].checkpoints);
      e := LoadLatest(m, Some(key), true);
    }
  }

  ghost predicate NoRestart(es: seq<Event>) {
    forall i :: 0 <= i < |es| ==> !es[i].Restart?
  }

  /** From every point of a recovery, without another crash, the server comes to serve again. */
  lemma {:induction false} ServesAgain(s: System) returns (es: seq<Event>)
    requires Reachable(s) && s.stage.Recovering?
    ensures IsRunOf(s, es) && NoRestart(es) && AfterAll(s, es).stage.Serving?
    decreases |s.stage.rec.samples|, |s.stage.rec.todo|, TurnRank(s.stage.rec.turn), LeftOf(s.stage.rec.turn)
  {
    var e := NextStep(s);
    var s' := Step(s, e);
    ReachStep(s, e);
    var rest: seq<Event> := [];
    if !e.Complete? {
      NamesExist(s);
      EveryStepIsNearer(s, s.stage.rec, e);
      rest := ServesAgain(s');
    }
    es := [e] + rest;
    assert es[1..] == rest;
  }
}
