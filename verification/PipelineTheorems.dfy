/** Timing, hold and run-counting guarantees of the admission pipeline. */
module PipelineTheorems {
  import opened Wrappers
  import opened Reals
  import opened PipelineSpec

  // Run counting

  ghost function Keys(log: seq<Dispatched>): seq<string> {
    seq(|log|, i requires 0 <= i < |log| => log[i].req.key)
  }

  ghost predicate StartsBlock(keys: seq<string>, i: nat)
    requires i < |keys|
  {
    i == 0 || keys[i - 1] != keys[i]
  }

  /** The positions where a maximal block of equal keys begins. */
  ghost function BlockStarts(keys: seq<string>): set<nat> {
    set i: nat | i < |keys| && StartsBlock(keys, i)
  }

  lemma BlockStartsSnoc(keys: seq<string>, key: string)
    ensures BlockStarts(keys + [key]) ==
            if keys != [] && keys[|keys| - 1] == key then BlockStarts(keys)
            else BlockStarts(keys) + {|keys|}
  {
    forall i: nat | i < |keys| ensures StartsBlock(keys + [key], i) == StartsBlock(keys, i) {
    }
  }

  ghost predicate CountsBlocks(count: nat, last: Option<string>, keys: seq<string>) {
    && count == |BlockStarts(keys)|
    && last == if keys == [] then None else Some(keys[|keys| - 1])
  }

  lemma CountsBlocksSnoc(count: nat, last: Option<string>, keys: seq<string>, key: string)
    requires CountsBlocks(count, last, keys)
    ensures CountsBlocks(if last == Some(key) then count else count + 1, Some(key), keys + [key])
  {
    BlockStartsSnoc(keys, key);
  }

  ghost predicate RunsCounted(s: State) {
    && CountsBlocks(s.stats.dispatchRuns, s.runKey, Keys(s.log))
    && CountsBlocks(s.stats.runsStarted, s.lastAdapter, s.tracked)
  }

  // In-flight accounting

  ghost function Live(requests: map<nat, Req>, key: string): set<nat> {
    set id | id in requests && requests[id].phase.Running? && requests[id].key == key
  }

  ghost predicate CountsLive(inflight: map<string, nat>, requests: map<nat, Req>) {
    forall key ::
      && (key in inflight <==> Live(requests, key) != {})
      && (key in inflight ==> inflight[key] == |Live(requests, key)|)
  }

  ghost predicate InflightExact(s: State) {
    CountsLive(s.inflight, s.requests)
  }

  // Naps

  /** n naps since `from`, all of full length unless the last one ran into `until`. */
  ghost predicate Naps(n: nat, nap: real, from: real, wake: real, until: real) {
    || n as real * nap <= wake - from
    || (wake == until && n > 0 && (n - 1) as real * nap < until - from)
  }

  lemma NapsMore(n: nat, nap: real, from: real, wake: real, until: real, now: real)
    requires nap > 0.0 && Naps(n, nap, from, wake, until) && wake <= now < until
    ensures Naps(n + 1, nap, from, now + MinReal(until - now, nap), until)
  {
    assert (n + 1) as real * nap == n as real * nap + nap;
  }

  lemma NapsAtMost(n: nat, nap: real, from: real, wake: real, until: real)
    requires nap > 0.0 && Naps(n, nap, from, wake, until) && from <= wake <= until
    ensures n as int <= Ceil((until - from) / nap)
  {
    if n as real * nap <= wake - from {
      MultipleAtMost(n, nap, until - from);
    } else {
      MultipleBelow(n - 1, nap, until - from);
    }
  }

  // Per-request facts

  /** A request asleep before the flip: under an unchanged horizon it does not fit. */
  ghost predicate Waiting(s: State, r: Req) {
    && r.arrival <= s.now && r.l2Sleeps == 0 && r.l2Held == 0.0
    && r.l3Sleeps > 0 && r.epoch <= s.epoch
    && (r.epoch == s.epoch ==>
          && s.flip == r.horizon && r.horizon.Some?
          && r.arrival < r.horizon.value
          && r.arrival <= r.wake <= r.horizon.value
          && r.arrival + r.estimate > r.horizon.value
          && r.l3Held <= r.wake - r.arrival
          && Naps(r.l3Sleeps, HORIZON_NAP, r.arrival, r.wake, r.horizon.value))
  }

  /** What L3 did to a request whose horizon never changed while it waited. */
  ghost predicate HorizonKept(r: Req) {
    r.fixed ==>
      match r.horizon
      case None => r.admitted == r.arrival && r.l3Sleeps == 0 && r.l3Held == 0.0
      case Some(flip) =>
        if r.arrival >= flip || r.arrival + r.estimate <= flip then
          r.admitted == r.arrival && r.l3Sleeps == 0 && r.l3Held == 0.0
        else
          && r.admitted >= flip && r.l3Sleeps > 0
          && r.l3Held <= flip - r.arrival
          && r.l3Sleeps as int <= Ceil(flip - r.arrival)
  }

  ghost predicate Held(c: Config, r: Req) {
    && HorizonKept(r)
    && r.deadline == r.admitted + c.MaxHold()
    && r.arrival <= r.admitted <= r.wake <= r.deadline
    && r.l2Held <= r.wake - r.admitted
    && Naps(r.l2Sleeps, COALESCE_NAP, r.admitted, r.wake, r.deadline)
  }

  ghost predicate ReqOk(c: Config, s: State, r: Req) {
    if r.phase.Horizon? then Waiting(s, r) else Held(c, r)
  }

  ghost predicate DispatchedOk(c: Config, d: Dispatched) {
    && Held(c, d.req) && d.at >= d.req.wake
    && (d.req.exact ==> d.at == d.req.wake)
    && (d.displaced > 0 && c.MaxHold() > 0.0 ==> d.at >= d.req.deadline)
  }

  ghost predicate Timed(c: Config, s: State) {
    && (forall id :: id in s.requests ==> ReqOk(c, s, s.requests[id]))
    && (forall i :: 0 <= i < |s.log| ==> DispatchedOk(c, s.log[i]))
  }

  ghost predicate Inv(c: Config, s: State) {
    RunsCounted(s) && InflightExact(s) && Timed(c, s)
  }

  // Preservation

  lemma LiveWith(requests: map<nat, Req>, id: nat, r: Req, key: string)
    requires r.phase.Running? && (id in requests ==> !requests[id].phase.Running?)
    ensures id !in Live(requests, key)
    ensures Live(requests[id := r], key) == if key == r.key then Live(requests, key) + {id} else Live(requests, key)
  {
  }

  lemma InflightEnter(inflight: map<string, nat>, requests: map<nat, Req>, id: nat, r: Req)
    requires CountsLive(inflight, requests) && r.phase.Running?
    requires id in requests ==> !requests[id].phase.Running?
    ensures CountsLive(inflight[r.key := (if r.key in inflight then inflight[r.key] else 0) + 1],
                       requests[id := r])
  {
    var later := inflight[r.key := (if r.key in inflight then inflight[r.key] else 0) + 1];
    forall key
      ensures key in later <==> Live(requests[id := r], key) != {}
      ensures key in later ==> later[key] == |Live(requests[id := r], key)|
    {
      LiveWith(requests, id, r, key);
      assert key in inflight <==> Live(requests, key) != {};
    }
  }

  lemma LiveWithout(requests: map<nat, Req>, id: nat, key: string)
    requires id in requests && requests[id].phase.Running?
    ensures id in Live(requests, requests[id].key)
    ensures Live(requests - {id}, key)
         == if key == requests[id].key then Live(requests, key) - {id} else Live(requests, key)
  {
  }

  lemma LeaveOne(inflight: map<string, nat>, left: string, key: string)
    requires left in inflight
    ensures var later := LeaveRun(inflight, left);
            if key != left then (key in later <==> key in inflight) && (key in later ==> later[key] == inflight[key])
            else (left in later <==> inflight[left] > 1) && (left in later ==> later[left] == inflight[left] - 1)
  {
  }

  lemma InflightLeave(inflight: map<string, nat>, requests: map<nat, Req>, id: nat)
    requires CountsLive(inflight, requests) && id in requests && requests[id].phase.Running?
    ensures CountsLive(LeaveRun(inflight, requests[id].key), requests - {id})
  {
    var left := requests[id].key;
    var later := LeaveRun(inflight, left);
    LiveWithout(requests, id, left);
    forall key
      ensures key in later <==> Live(requests - {id}, key) != {}
      ensures key in later ==> later[key] == |Live(requests - {id}, key)|
    {
      LiveWithout(requests, id, key);
      LeaveOne(inflight, left, key);
      if key == left {
        assert inflight[left] == |Live(requests, left)|;
        assert |Live(requests - {id}, left)| == |Live(requests, left)| - 1;
      }
    }
  }

  lemma InflightSame(s: State, s': State)
    requires InflightExact(s) && s'.inflight == s.inflight
    requires forall key :: Live(s'.requests, key) == Live(s.requests, key)
    ensures InflightExact(s')
  {
  }

  /** A request that reaches the L2 loop: admitted, awake, and on time if it claims to be. */
  ghost predicate AtGate(c: Config, s: State, r: Req) {
    Held(c, r) && s.now >= r.wake && (r.exact ==> s.now == r.wake)
  }

  /** A held request takes one more nap. */
  lemma CoalesceNaps(c: Config, s: State, r: Req)
    requires AtGate(c, s, r) && r.deadline > s.now
    ensures var hold := MinReal(r.deadline - s.now, COALESCE_NAP);
            Held(c, r.(phase := Coalescing, wake := s.now + hold, l2Sleeps := r.l2Sleeps + 1, l2Held := r.l2Held + hold))
  {
    NapsMore(r.l2Sleeps, COALESCE_NAP, r.admitted, r.wake, r.deadline, s.now);
  }

  /** A request that does not run changes: nobody's live requests do. */
  lemma LiveSame(requests: map<nat, Req>, id: nat, r: Req, key: string)
    requires !r.phase.Running? && (id in requests ==> !requests[id].phase.Running?)
    ensures Live(requests[id := r], key) == Live(requests, key)
  {
  }

  /** One request goes to sleep, and the statistics count it. */
  lemma AsleepKeeps(c: Config, s: State, s': State, id: nat, r: Req)
    requires Inv(c, s) && ReqOk(c, s', r) && !r.phase.Running?
    requires id in s.requests ==> !s.requests[id].phase.Running?
    requires s' == s.(requests := s.requests[id := r], stats := s'.stats)
    requires s'.stats.dispatchRuns == s.stats.dispatchRuns && s'.stats.runsStarted == s.stats.runsStarted
    ensures Inv(c, s')
  {
    forall key ensures Live(s'.requests, key) == Live(s.requests, key) {
      LiveSame(s.requests, id, r, key);
    }
    InflightSame(s, s');
    TimedUpdate(c, s, s', id);
  }

  lemma CoalesceHolds(c: Config, s: State, id: nat, r: Req)
    requires Inv(c, s) && AtGate(c, s, r) && MustHold(c, s, r)
    requires id in s.requests ==> !s.requests[id].phase.Running?
    ensures Inv(c, Coalesce(c, s, id, r))
  {
    var s' := Coalesce(c, s, id, r);
    CoalesceNaps(c, s, r);
    AsleepKeeps(c, s, s', id, s'.requests[id]);
  }

  lemma DispatchCounts(s: State, id: nat, r: Req)
    requires RunsCounted(s) && InflightExact(s)
    requires id in s.requests ==> !s.requests[id].phase.Running?
    ensures RunsCounted(DispatchNow(s, id, r)) && InflightExact(DispatchNow(s, id, r))
  {
    InflightEnter(s.inflight, s.requests, id, r.(phase := Running));
    CountsBlocksSnoc(s.stats.dispatchRuns, s.runKey, Keys(s.log), r.key);
    assert Keys(DispatchNow(s, id, r).log) == Keys(s.log) + [r.key];
  }

  lemma DispatchTimed(c: Config, s: State, id: nat, r: Req)
    requires Timed(c, s) && AtGate(c, s, r) && !MustHold(c, s, r)
    ensures Timed(c, DispatchNow(s, id, r))
  {
    var s' := DispatchNow(s, id, r);
    assert DispatchedOk(c, s'.log[|s.log|]);
    TimedUpdate(c, s, s', id);
  }

  lemma CoalesceDispatches(c: Config, s: State, id: nat, r: Req)
    requires Inv(c, s) && AtGate(c, s, r) && !MustHold(c, s, r)
    requires id in s.requests ==> !s.requests[id].phase.Running?
    ensures Inv(c, Coalesce(c, s, id, r))
  {
    DispatchCounts(s, id, r);
    DispatchTimed(c, s, id, r);
  }

  /** One request changes; at most one dispatch is logged. */
  lemma TimedUpdate(c: Config, s: State, s': State, id: nat)
    requires Timed(c, s) && id in s'.requests && ReqOk(c, s', s'.requests[id])
    requires forall other :: other in s'.requests && other != id ==>
               other in s.requests && s'.requests[other] == s.requests[other]
    requires s'.now == s.now && s'.epoch == s.epoch && s'.flip == s.flip
    requires s.log <= s'.log && |s'.log| <= |s.log| + 1
    requires |s'.log| > |s.log| ==> DispatchedOk(c, s'.log[|s.log|])
    ensures Timed(c, s')
  {
    forall other | other in s'.requests ensures ReqOk(c, s', s'.requests[other]) {
      if other != id {
        assert ReqOk(c, s, s.requests[other]);
      }
    }
  }

  lemma CoalesceKeeps(c: Config, s: State, id: nat, r: Req)
    requires Inv(c, s) && AtGate(c, s, r)
    requires id in s.requests ==> !s.requests[id].phase.Running?
    ensures Inv(c, Coalesce(c, s, id, r))
  {
    if MustHold(c, s, r) {
      CoalesceHolds(c, s, id, r);
    } else {
      CoalesceDispatches(c, s, id, r);
    }
  }

  /** A request that reaches the L3 loop: just arrived, or back from a nap. */
  ghost predicate AtHorizon(s: State, r: Req) {
    && r.phase.Horizon? && r.l2Sleeps == 0 && r.l2Held == 0.0
    && (if r.l3Sleeps == 0
        then r.arrival == s.now && r.l3Held == 0.0 && r.horizon == s.flip && r.epoch == s.epoch
        else Waiting(s, r) && s.now >= r.wake)
  }

  lemma AdmittedAtGate(c: Config, s: State, r: Req)
    requires AtHorizon(s, r) && Fits(s, r.estimate)
    ensures AtGate(c, s, Admitted(c, s, r))
  {
    if r.epoch == s.epoch && r.l3Sleeps > 0 {
      NapsAtMost(r.l3Sleeps, HORIZON_NAP, r.arrival, r.wake, r.horizon.value);
      assert (r.horizon.value - r.arrival) / HORIZON_NAP == r.horizon.value - r.arrival;
    }
  }

  lemma HeldBack(s: State, r: Req)
    requires AtHorizon(s, r) && !Fits(s, r.estimate)
    ensures var hold := MinReal(s.flip.value - s.now, HORIZON_NAP);
            Waiting(s, r.(phase := Horizon, wake := s.now + hold,
                          l3Sleeps := r.l3Sleeps + 1, l3Held := r.l3Held + hold))
  {
    if r.epoch == s.epoch {
      var wake := if r.l3Sleeps == 0 then s.now else r.wake;
      NapsMore(r.l3Sleeps, HORIZON_NAP, r.arrival, wake, s.flip.value, s.now);
    }
  }

  /** Time passing, new horizons and adapter news disturb no request's history. */
  lemma TimedFrame(c: Config, s: State, s': State)
    requires Timed(c, s) && s'.log == s.log && s'.now >= s.now
    requires forall id :: id in s'.requests ==> id in s.requests && s'.requests[id] == s.requests[id]
    requires (s'.epoch == s.epoch && s'.flip == s.flip) || s'.epoch > s.epoch
    ensures Timed(c, s')
  {
    forall id | id in s'.requests ensures ReqOk(c, s', s'.requests[id]) {
      assert ReqOk(c, s, s.requests[id]);
    }
  }

  /** Nothing about requests or dispatches changes; only counters and adapter tracking do. */
  lemma InvFrame(c: Config, s: State, s': State)
    requires Inv(c, s)
    requires s' == s.(stats := s'.stats, tracked := s'.tracked, lastAdapter := s'.lastAdapter)
    requires s'.stats.dispatchRuns == s.stats.dispatchRuns
    requires CountsBlocks(s'.stats.runsStarted, s'.lastAdapter, s'.tracked)
    ensures Inv(c, s')
  {
    TimedFrame(c, s, s');
    InflightSame(s, s');
  }

  lemma AdmitHolds(c: Config, s: State, id: nat, r: Req)
    requires Inv(c, s) && AtHorizon(s, r) && !Fits(s, r.estimate)
    requires id in s.requests ==> !s.requests[id].phase.Running?
    ensures Inv(c, Admit(c, s, id, r))
  {
    var s' := Admit(c, s, id, r);
    HeldBack(s, r);
    AsleepKeeps(c, s, s', id, s'.requests[id]);
  }

  lemma AdmitKeeps(c: Config, s: State, id: nat, r: Req)
    requires Inv(c, s) && AtHorizon(s, r)
    requires id in s.requests ==> !s.requests[id].phase.Running?
    ensures Inv(c, Admit(c, s, id, r))
  {
    if Fits(s, r.estimate) {
      AdmittedAtGate(c, s, r);
      InvFrame(c, s, CountRouted(s));
      CoalesceKeeps(c, CountRouted(s), id, Admitted(c, s, r));
    } else {
      AdmitHolds(c, s, id, r);
    }
  }

  lemma TrackKeeps(c: Config, s: State, key: string)
    requires Inv(c, s)
    ensures Inv(c, TrackRun(s, key))
  {
    CountsBlocksSnoc(s.stats.runsStarted, s.lastAdapter, s.tracked, key);
    InvFrame(c, s, TrackRun(s, key));
  }

  lemma ResolveKeeps(c: Config, s: State, lora: Option<string>)
    requires Inv(c, s)
    ensures Inv(c, Resolve(s, lora))
  {
    if lora.Some? {
      var version := KnownVersion(s, lora.value);
      InvFrame(c, s, CountVersion(s, version));
      TrackKeeps(c, CountVersion(s, version), if version == Some(0) then BASE else lora.value);
    }
  }

  lemma CountVersionFrame(s: State, version: Option<int>)
    ensures CountVersion(s, version) == s.(stats := CountVersion(s, version).stats)
  {
  }

  lemma TrackRunFrame(s: State, key: string)
    ensures var s' := TrackRun(s, key); s' == s.(stats := s'.stats, tracked := s'.tracked, lastAdapter := s'.lastAdapter)
  {
  }

  lemma ResolveFrame(s: State, lora: Option<string>)
    ensures var s' := Resolve(s, lora);
            s' == s.(stats := s'.stats, tracked := s'.tracked, lastAdapter := s'.lastAdapter)
  {
    if lora.Some? {
      var version := KnownVersion(s, lora.value);
      CountVersionFrame(s, version);
      TrackRunFrame(CountVersion(s, version), if version == Some(0) then BASE else lora.value);
    }
  }

  lemma WakeKeeps(c: Config, s: State, id: nat)
    requires Inv(c, s) && Enabled(s, Wake(id))
    ensures Inv(c, Step(c, s, Wake(id)))
  {
    var r := s.requests[id].(exact := s.requests[id].exact && s.now == s.requests[id].wake);
    assert ReqOk(c, s, s.requests[id]);
    if r.phase.Horizon? {
      AdmitKeeps(c, s, id, r);
    } else {
      CoalesceKeeps(c, s, id, r);
    }
  }

  lemma LeaveKeeps(c: Config, s: State, id: nat)
    requires Inv(c, s) && id in s.requests
    ensures s.requests[id].phase.Running? ==> Inv(c, Step(c, s, Finish(id)))
    ensures !s.requests[id].phase.Running? ==> Inv(c, Step(c, s, Cancel(id)))
  {
    if s.requests[id].phase.Running? {
      InflightLeave(s.inflight, s.requests, id);
      TimedFrame(c, s, Step(c, s, Finish(id)));
    } else {
      var s' := Step(c, s, Cancel(id));
      forall key ensures Live(s'.requests, key) == Live(s.requests, key) {
      }
      InflightSame(s, s');
      TimedFrame(c, s, s');
    }
  }

  lemma ArriveKeeps(c: Config, s: State, e: Event)
    requires Inv(c, s) && e.Arrive? && Enabled(s, e)
    ensures Inv(c, Step(c, s, e))
  {
    ResolveKeeps(c, s, e.lora);
    ResolveFrame(s, e.lora);
    var s1 := Resolve(s, e.lora);
    AdmitKeeps(c, s1, e.id, NewReq(s1, RunKey(EffectiveLora(s, e.lora)), EstimateS(c, e.numSamples, e.maxTokens)));
  }

  lemma NewsFrame(c: Config, s: State, s': State)
    requires Inv(c, s) && s'.now >= s.now
    requires s' == s.(now := s'.now, flip := s'.flip, epoch := s'.epoch, versions := s'.versions, aliases := s'.aliases)
    requires (s'.epoch == s.epoch && s'.flip == s.flip) || s'.epoch > s.epoch
    ensures Inv(c, s')
  {
    InflightSame(s, s');
    TimedFrame(c, s, s');
  }

  lemma NewsKeeps(c: Config, s: State, e: Event)
    requires Inv(c, s) && Enabled(s, e)
    requires !e.Arrive? && !e.Wake? && !e.Finish? && !e.Cancel?
    ensures Inv(c, Step(c, s, e))
  {
    NewsFrame(c, s, Step(c, s, e));
  }

  lemma InvStep(c: Config, s: State, e: Event)
    requires Inv(c, s) && Enabled(s, e)
    ensures Inv(c, Step(c, s, e))
  {
    match e
    case Arrive(_, _, _, _) => ArriveKeeps(c, s, e);
    case Wake(id) => WakeKeeps(c, s, id);
    case Finish(id) => LeaveKeeps(c, s, id);
    case Cancel(id) => LeaveKeeps(c, s, id);
    case Tick(_) => NewsKeeps(c, s, e);
    case SetHorizon(_) => NewsKeeps(c, s, e);
    case NotifyVersion(_, _) => NewsKeeps(c, s, e);
    case NotifyAlias(_, _) => NewsKeeps(c, s, e);
    case AddAdapter(_) => NewsKeeps(c, s, e);
    case RemoveAdapter(_) => NewsKeeps(c, s, e);
  }

  lemma {:induction false} InvRun(c: Config, s: State, es: seq<Event>)
    requires Inv(c, s) && IsRun(c, s, es)
    ensures Inv(c, After(c, s, es))
    decreases |es|
  {
    if es != [] {
      InvStep(c, s, es[0]);
      InvRun(c, Step(c, s, es[0]), es[1..]);
    }
  }

  lemma InvReachable(c: Config, s: State)
    requires Reachable(c, s)
    ensures Inv(c, s)
  {
    var start, es :| IsRun(c, Init(start), es) && After(c, Init(start), es) == s;
    assert BlockStarts([]) == {};
    InvRun(c, Init(start), es);
  }

  // Main results

  /**
   * In every reachable state the dispatch-run counter is the number of maximal same-key
   * blocks in dispatch order, the adapter-run counter is that of the resolved arrivals,
   * and the in-flight map holds the true per-key counts with no zero entries.
   */
  lemma RunCountingExact(c: Config, s: State)
    requires Reachable(c, s)
    ensures s.stats.dispatchRuns == |BlockStarts(Keys(s.log))|
    ensures s.stats.runsStarted == |BlockStarts(s.tracked)|
    ensures forall key :: key in s.inflight ==> s.inflight[key] == |Live(s.requests, key)| > 0
    ensures forall id :: id in s.requests && s.requests[id].phase.Running? ==> s.requests[id].key in s.inflight
  {
    InvReachable(c, s);
    forall key | key in s.inflight ensures s.inflight[key] == |Live(s.requests, key)| > 0 {
      assert Live(s.requests, key) != {};
    }
    forall id | id in s.requests && s.requests[id].phase.Running? ensures s.requests[id].key in s.inflight {
      assert id in Live(s.requests, s.requests[id].key);
    }
  }

  lemma CoalesceSwitches(c: Config, s: State, id: nat, r: Req)
    requires c.MaxHold() > 0.0 && s.runKey.Some? && InflightOf(s, s.runKey.value) > 0
    requires Coalesce(c, s, id, r).runKey != s.runKey
    ensures var s' := Coalesce(c, s, id, r);
            && id in s'.requests && s'.requests[id] == r.(phase := Running)
            && s'.runKey == Some(r.key) && s'.now == s.now >= r.deadline
  {
  }

  /** With coalescing on, a run with live requests is left only by a request whose bound is up. */
  lemma LiveRunLeftOnlyAfterDeadline(c: Config, s: State, e: Event) returns (id: nat)
    requires Reachable(c, s) && Enabled(s, e) && c.MaxHold() > 0.0
    requires s.runKey.Some? && Live(s.requests, s.runKey.value) != {}
    requires Step(c, s, e).runKey != s.runKey
    ensures var s' := Step(c, s, e);
            && id in s'.requests && s'.requests[id].phase.Running? && s'.runKey == Some(s'.requests[id].key)
            && s'.now >= s'.requests[id].deadline == s'.requests[id].admitted + c.MaxHold()
  {
    InvReachable(c, s);
    assert InflightOf(s, s.runKey.value) > 0;
    match e
    case Arrive(i, lora, n, maxTokens) =>
      ResolveFrame(s, lora);
      id := i;
      var s1 := Resolve(s, lora);
      var r := NewReq(s1, RunKey(EffectiveLora(s, lora)), EstimateS(c, n, maxTokens));
      CoalesceSwitches(c, CountRouted(s1), id, Admitted(c, s1, r));
    case Wake(i) =>
      id := i;
      var r := s.requests[id].(exact := s.requests[id].exact && s.now == s.requests[id].wake);
      assert ReqOk(c, s, s.requests[id]);
      if r.phase.Horizon? {
        CoalesceSwitches(c, CountRouted(s), id, Admitted(c, s, r));
      } else {
        CoalesceSwitches(c, s, id, r);
      }
  }

  /**
   * Under a horizon that does not change: a request that fits on arrival, woken on time,
   * starts early enough to end by the flip plus one L2 hold; a request that does not fit
   * is let through L3 no earlier than the flip.
   */
  lemma HorizonThenHoldBound(c: Config, s: State, d: Dispatched)
    requires Reachable(c, s) && d in s.log && d.req.fixed && d.req.horizon.Some?
    ensures var r, flip := d.req, d.req.horizon.value;
            && (r.arrival + r.estimate <= flip && r.exact ==> d.at + r.estimate <= flip + c.MaxHold())
            && (r.arrival < flip < r.arrival + r.estimate ==> flip <= r.admitted <= d.at)
  {
    InvReachable(c, s);
    assert DispatchedOk(c, d);
  }

  /** A request held before an unchanged flip stays one that does not fit, whatever the clock. */
  lemma NeverFitsAgain(c: Config, s: State, id: nat)
    requires Reachable(c, s) && id in s.requests && s.requests[id].phase.Horizon?
    requires s.requests[id].epoch == s.epoch
    ensures s.flip == s.requests[id].horizon && s.flip.Some?
    ensures s.now + s.requests[id].estimate > s.flip.value
    ensures Fits(s, s.requests[id].estimate) <==> s.now >= s.flip.value
  {
    InvReachable(c, s);
    assert ReqOk(c, s, s.requests[id]);
  }

  /** The L2 holds of a request sum to at most the bound, in at most ceil(bound / 0.01) sleeps. */
  ghost predicate CoalesceAccount(c: Config, r: Req) {
    r.l2Held <= c.MaxHold() && r.l2Sleeps as int <= Ceil(c.MaxHold() / COALESCE_NAP)
  }

  /** Under an unchanged horizon the L3 holds sum to at most flip minus arrival, likewise. */
  ghost predicate HorizonAccount(r: Req, flip: real) {
    if r.l3Sleeps == 0 then r.l3Held == 0.0
    else r.l3Held <= flip - r.arrival && r.l3Sleeps as int <= Ceil(flip - r.arrival)
  }

  lemma HeldAccounts(c: Config, r: Req)
    requires Held(c, r)
    ensures CoalesceAccount(c, r)
    ensures r.fixed && r.horizon.Some? ==> HorizonAccount(r, r.horizon.value)
  {
    NapsAtMost(r.l2Sleeps, COALESCE_NAP, r.admitted, r.wake, r.deadline);
  }

  /**
   * Both bounds hold of every request, dispatched or still asleep, for any clock that
   * advances at least by the sleep asked for; so no request sleeps for ever.
   */
  lemma HoldAccounting(c: Config, s: State)
    requires Reachable(c, s)
    ensures forall d :: d in s.log ==>
              && CoalesceAccount(c, d.req)
              && (d.req.fixed && d.req.horizon.Some? ==> HorizonAccount(d.req, d.req.horizon.value))
    ensures forall id :: id in s.requests ==>
              var r := s.requests[id];
              && CoalesceAccount(c, r)
              && (r.phase.Horizon? && r.epoch == s.epoch ==>
                    r.horizon.Some? && HorizonAccount(r, r.horizon.value))
  {
    InvReachable(c, s);
    forall d | d in s.log
      ensures CoalesceAccount(c, d.req)
      ensures d.req.fixed && d.req.horizon.Some? ==> HorizonAccount(d.req, d.req.horizon.value)
    {
      assert DispatchedOk(c, d);
      HeldAccounts(c, d.req);
    }
    forall id | id in s.requests
      ensures var r := s.requests[id];
              && CoalesceAccount(c, r)
              && (r.phase.Horizon? && r.epoch == s.epoch ==>
                    r.horizon.Some? && HorizonAccount(r, r.horizon.value))
    {
      WaitingAccounts(c, s, s.requests[id]);
    }
  }

  lemma WaitingAccounts(c: Config, s: State, r: Req)
    requires ReqOk(c, s, r)
    ensures CoalesceAccount(c, r)
    ensures r.phase.Horizon? && r.epoch == s.epoch ==> r.horizon.Some? && HorizonAccount(r, r.horizon.value)
  {
    if r.phase.Horizon? {
      NapsAtMost(0, COALESCE_NAP, 0.0, 0.0, c.MaxHold());
      if r.epoch == s.epoch {
        NapsAtMost(r.l3Sleeps, HORIZON_NAP, r.arrival, r.wake, r.horizon.value);
        assert (r.horizon.value - r.arrival) / HORIZON_NAP == r.horizon.value - r.arrival;
      }
    } else {
      HeldAccounts(c, r);
    }
  }

  // L1

  /** News that would change what is known of this session's training run. */
  predicate Touches(e: Event, session: string, run: string) {
    match e
    case NotifyVersion(key, _) => key == run
    case NotifyAlias(key, _) => key == session
    case RemoveAdapter(key) => key == run
    case _ => false
  }

  ghost predicate Quiet(es: seq<Event>, session: string, run: string) {
    forall i :: 0 <= i < |es| ==> !Touches(es[i], session, run)
  }

  lemma CoalesceFrame(c: Config, s: State, id: nat, r: Req)
    ensures var s' := Coalesce(c, s, id, r); s'.aliases == s.aliases && s'.versions == s.versions
  {
  }

  lemma VersionsStable(c: Config, s: State, e: Event, session: string, run: string)
    requires Enabled(s, e) && !Touches(e, session, run)
    requires session in s.aliases && s.aliases[session] == run && run in s.versions
    ensures var s' := Step(c, s, e);
            session in s'.aliases && s'.aliases[session] == run
            && run in s'.versions && s'.versions[run] == s.versions[run]
  {
    match e
    case Arrive(id, lora, n, maxTokens) =>
      ResolveFrame(s, lora);
      var s1 := Resolve(s, lora);
      var r := NewReq(s1, RunKey(EffectiveLora(s, lora)), EstimateS(c, n, maxTokens));
      CoalesceFrame(c, CountRouted(s1), id, Admitted(c, s1, r));
    case _ =>
  }

  /**
   * A session aliased to a run that last reported version v is served with its adapter
   * exactly when v is not 0, even though `add_adapter` seeds version 0 under the session.
   */
  lemma {:induction false} AliasedAdapterKept(c: Config, s: State, es: seq<Event>, session: string, run: string)
    requires IsRun(c, s, es) && Quiet(es, session, run)
    requires session in s.aliases && s.aliases[session] == run && run in s.versions
    ensures EffectiveLora(After(c, s, es), Some(session))
            == if s.versions[run] == 0 then None else Some(session)
    decreases |es|
  {
    if es != [] {
      assert !Touches(es[0], session, run);
      VersionsStable(c, s, es[0], session, run);
      assert Quiet(es[1..], session, run);
      AliasedAdapterKept(c, Step(c, s, es[0]), es[1..], session, run);
    }
  }

  /** Without version reports, the seed makes every added adapter look untrained. */
  lemma UnreportedAdapterServedFromBase(c: Config, start: real, session: string)
    ensures var es := [AddAdapter(session), NotifyAlias(session, "run")];
            IsRun(c, Init(start), es) && EffectiveLora(After(c, Init(start), es), Some(session)) == None
  {
    var es := [AddAdapter(session), NotifyAlias(session, "run")];
    var s1 := Step(c, Init(start), es[0]);
    var s2 := Step(c, s1, es[1]);
    assert es[1..] == [es[1]] && es[1..][1..] == [];
    assert IsRun(c, s2, []) && IsRun(c, s1, es[1..]);
    assert After(c, s1, es[1..]) == s2;
    assert s2.versions == map[session := 0];
  }
}
