/** Who sleeps, for how long, and who goes through, in numbers; and what L1 knows, from the news. */
module PipelineSteps {
  import opened Wrappers
  import opened PipelineSpec
  import opened PipelineTheorems

  // L2

  /** Another adapter's run is in flight and one of its requests is executing. */
  ghost predicate OtherRunLives(s: State, key: string) {
    s.runKey.Some? && s.runKey.value != key && Live(s.requests, s.runKey.value) != {}
  }

  ghost function Shorter(a: real, b: real): real {
    if a < b then a else b
  }

  /** Request r sleeps once more behind the run in flight: until its deadline, 10 ms at most. */
  ghost predicate Slept(s: State, s': State, r: Req, r': Req) {
    var nap := Shorter(r'.deadline - s.now, 0.01);
    && r'.phase.Coalescing? && r'.wake == s.now + nap
    && r'.l2Sleeps == r.l2Sleeps + 1 && r'.l2Held == r.l2Held + nap
    && s'.log == s.log && s'.runKey == s.runKey
  }

  /** Request r goes downstream now, and its key's run is the one in flight. */
  ghost predicate WentThrough(s: State, s': State, r: Req, r': Req) {
    && r'.phase.Running? && r'.l2Sleeps == r.l2Sleeps && r'.l2Held == r.l2Held
    && s'.runKey == Some(r'.key) && |s'.log| == |s.log| + 1 && s'.log[..|s.log|] == s.log
    && s'.log[|s.log|].req == r' && s'.log[|s.log|].at == s.now
    && s'.log[|s.log|].displaced
       == if s.runKey.Some? && s.runKey.value != r'.key then |Live(s.requests, s.runKey.value)| else 0
  }

  ghost predicate HasToSleep(c: Config, s: State, key: string, deadline: real) {
    c.coalesceMaxHoldS > 0.0 && OtherRunLives(s, key) && s.now < deadline
  }

  lemma LiveIsCounted(s: State, key: string)
    requires InflightExact(s)
    ensures InflightOf(s, key) == |Live(s.requests, key)|
  {
    assert key in s.inflight <==> Live(s.requests, key) != {};
  }

  lemma GateDecides(c: Config, s: State, id: nat, r: Req)
    requires InflightExact(s)
    ensures var s' := Coalesce(c, s, id, r);
            && id in s'.requests && s'.requests[id].key == r.key && s'.requests[id].deadline == r.deadline
            && s'.requests == s.requests[id := s'.requests[id]]
            && s'.requests[id].admitted == r.admitted && s'.requests[id].l3Sleeps == r.l3Sleeps
            && s'.requests[id].l3Held == r.l3Held && s'.requests[id].estimate == r.estimate
            && if HasToSleep(c, s, r.key, r.deadline) then Slept(s, s', r, s'.requests[id])
               else WentThrough(s, s', r, s'.requests[id])
  {
    if s.runKey.Some? {
      LiveIsCounted(s, s.runKey.value);
    }
  }

  // L3

  /** The flip is ahead and the request would not be done by then. */
  ghost predicate TooLong(s: State, estimate: real) {
    s.flip.Some? && s.now < s.flip.value && s.now + estimate > s.flip.value
  }

  /** Request r sleeps once more before the flip: one second at most. */
  ghost predicate HeldBefore(s: State, s': State, r: Req, r': Req)
    requires s.flip.Some?
  {
    var nap := Shorter(s.flip.value - s.now, 1.0);
    && r'.phase.Horizon? && r'.wake == s.now + nap
    && r'.l3Sleeps == r.l3Sleeps + 1 && r'.l3Held == r.l3Held + nap
    && r'.l2Sleeps == r.l2Sleeps && s'.log == s.log && s'.runKey == s.runKey
  }

  ghost predicate PassedL3(c: Config, s: State, r: Req, r': Req) {
    && r'.admitted == s.now && r'.l3Sleeps == r.l3Sleeps && r'.l3Held == r.l3Held
    && r'.deadline == s.now + (if c.coalesceMaxHoldS > 0.0 then c.coalesceMaxHoldS else 0.0)
  }

  lemma HorizonDecides(c: Config, s: State, id: nat, r: Req)
    requires InflightExact(s)
    ensures var s' := Admit(c, s, id, r);
            && id in s'.requests && s'.requests[id].key == r.key && s'.requests[id].estimate == r.estimate
            && s'.requests == s.requests[id := s'.requests[id]]
            && if TooLong(s, r.estimate) then HeldBefore(s, s', r, s'.requests[id])
               else
                 && PassedL3(c, s, r, s'.requests[id])
                 && if HasToSleep(c, s, r.key, s'.requests[id].deadline) then Slept(s, s', r, s'.requests[id])
                    else WentThrough(s, s', r, s'.requests[id])
  {
    if !TooLong(s, r.estimate) {
      GateDecides(c, CountRouted(s), id, Admitted(c, s, r));
    }
  }

  // Whole stretches

  /** What became of request r, which looks at L3 and, if that lets it through, at L2. */
  ghost predicate Looked(c: Config, s: State, s': State, r: Req, r': Req) {
    if r.phase.Horizon? && TooLong(s, r.estimate) then HeldBefore(s, s', r, r')
    else
      && (r.phase.Horizon? ==> PassedL3(c, s, r, r'))
      && (!r.phase.Horizon? ==> r'.deadline == r.deadline && r'.admitted == r.admitted)
      && if HasToSleep(c, s, r'.key, r'.deadline) then Slept(s, s', r, r') else WentThrough(s, s', r, r')
  }

  /**
   * A sleeper that wakes up: before an unreached flip it sleeps on exactly when it would not
   * be done by then.  At L2 it sleeps on exactly when coalescing is on, another adapter's
   * run has a live request, and its deadline is ahead; otherwise it is dispatched in this
   * stretch.  Nobody else moves.
   */
  lemma WakeDecides(c: Config, s: State, id: nat)
    requires Reachable(c, s) && Enabled(s, Wake(id))
    ensures var s' := Step(c, s, Wake(id));
            && id in s'.requests && s'.requests == s.requests[id := s'.requests[id]]
            && s'.requests[id].key == s.requests[id].key && s'.requests[id].estimate == s.requests[id].estimate
            && Looked(c, s, s', s.requests[id], s'.requests[id])
  {
    ExactInflight(c, s);
    var r := s.requests[id].(exact := s.requests[id].exact && s.now == s.requests[id].wake);
    if r.phase.Horizon? {
      HorizonDecides(c, s, id, r);
    } else {
      GateDecides(c, s, id, r);
    }
  }

  /** A request before it looks at anything. */
  ghost predicate Untouched(r: Req) {
    r.phase.Horizon? && r.l2Sleeps == 0 && r.l2Held == 0.0 && r.l3Sleeps == 0 && r.l3Held == 0.0
  }

  /** The estimate times the rate is the number of tokens asked for, 64 a sample by default. */
  ghost predicate Estimated(c: Config, numSamples: nat, maxTokens: Option<nat>, estimate: real) {
    estimate * (if c.estimatedTokensPerS > 1.0 then c.estimatedTokensPerS else 1.0)
    == (numSamples * if maxTokens.Some? && maxTokens.value > 0 then maxTokens.value else 64) as real
  }

  lemma EstimateIs(c: Config, numSamples: nat, maxTokens: Option<nat>)
    ensures Estimated(c, numSamples, maxTokens, EstimateS(c, numSamples, maxTokens))
  {
  }

  /** A new request goes through the same looks, with the estimate of what it asks for. */
  lemma ArriveDecides(c: Config, s: State, e: Event) returns (r: Req)
    requires Reachable(c, s) && e.Arrive? && Enabled(s, e)
    ensures Untouched(r) && Estimated(c, e.numSamples, e.maxTokens, r.estimate)
    ensures r.arrival == s.now && r.horizon == s.flip
    ensures var s' := Step(c, s, e);
            && e.id in s'.requests && s'.requests == s.requests[e.id := s'.requests[e.id]]
            && s'.requests[e.id].key == r.key && Looked(c, s, s', r, s'.requests[e.id])
  {
    ExactInflight(c, s);
    ResolveFrame(s, e.lora);
    var s1 := Resolve(s, e.lora);
    r := NewReq(s1, RunKey(EffectiveLora(s, e.lora)), EstimateS(c, e.numSamples, e.maxTokens));
    EstimateIs(c, e.numSamples, e.maxTokens);
    InflightSame(s, s1);
    HorizonDecides(c, s1, e.id, r);
    SameLook(c, s, s1, Step(c, s, e), r, Step(c, s, e).requests[e.id]);
  }

  lemma ExactInflight(c: Config, s: State)
    requires Reachable(c, s)
    ensures InflightExact(s)
  {
    InvReachable(c, s);
  }

  /** Counters and adapter tracking play no part. */
  lemma SameLook(c: Config, s: State, s1: State, s': State, r: Req, r': Req)
    requires s1 == s.(stats := s1.stats, tracked := s1.tracked, lastAdapter := s1.lastAdapter)
    requires Looked(c, s1, s', r, r')
    ensures Looked(c, s, s', r, r')
  {
  }

  ghost function L2SleepsOf(s: State, id: nat): nat {
    if id in s.requests then s.requests[id].l2Sleeps else 0
  }

  /** Over every step: whoever sleeps at L2 sleeps behind a live request of another adapter's run. */
  lemma SleepsBehindOthersOnly(c: Config, s: State, e: Event, id: nat)
    requires Reachable(c, s) && Enabled(s, e)
    requires id in Step(c, s, e).requests && L2SleepsOf(Step(c, s, e), id) > L2SleepsOf(s, id)
    ensures (e.Arrive? || e.Wake?) && e.id == id
    ensures s.runKey.Some? && s.runKey.value != Step(c, s, e).requests[id].key
    ensures exists other :: other in s.requests && s.requests[other].phase.Running?
                            && s.requests[other].key == s.runKey.value
  {
    match e
    case Arrive(_, _, _, _) => var r := ArriveDecides(c, s, e);
    case Wake(k) => WakeDecides(c, s, k);
    case Finish(_) =>
    case Cancel(_) =>
    case Tick(_) =>
    case SetHorizon(_) =>
    case NotifyVersion(_, _) =>
    case NotifyAlias(_, _) =>
    case AddAdapter(_) =>
    case RemoveAdapter(_) =>
  }

  // What L1 knows

  /** The version under a name, as the news has it. */
  ghost function VersionNews(version: Option<int>, e: Event, name: string): Option<int> {
    match e
    case NotifyVersion(key, v) => if key == name then Some(v) else version
    case AddAdapter(key) => if key == name && version.None? then Some(0) else version
    case RemoveAdapter(key) => if key == name then None else version
    case _ => version
  }

  ghost function VersionOf(es: seq<Event>, name: string): Option<int> {
    if es == [] then None else VersionNews(VersionOf(es[..|es| - 1], name), es[|es| - 1], name)
  }

  /** The training run a session was last bound to; an empty name binds nothing. */
  ghost function RunOf(es: seq<Event>, session: string): Option<string> {
    if es == [] then None
    else
      var last := es[|es| - 1];
      if last.NotifyAlias? && last.key == session && last.key != "" && last.run != "" then Some(last.run)
      else RunOf(es[..|es| - 1], session)
  }

  ghost function Flip(es: seq<Event>): Option<real> {
    if es == [] then None else if es[|es| - 1].SetHorizon? then es[|es| - 1].flip else Flip(es[..|es| - 1])
  }

  /** What the clock shows: the last tick, or the start. */
  ghost function Clock(start: real, es: seq<Event>): real {
    if es == [] then start else if es[|es| - 1].Tick? then es[|es| - 1].now else Clock(start, es[..|es| - 1])
  }

  ghost predicate Informed(start: real, s: State, es: seq<Event>) {
    && (forall name :: Lookup(s.versions, name) == VersionOf(es, name))
    && (forall session :: Lookup(s.aliases, session) == RunOf(es, session))
    && s.flip == Flip(es) && s.now == Clock(start, es)
  }

  ghost predicate SameNews(s: State, s': State) {
    s'.versions == s.versions && s'.aliases == s.aliases && s'.flip == s.flip && s'.now == s.now
  }

  lemma GateBringsNoNews(c: Config, s: State, id: nat, r: Req)
    ensures SameNews(s, Coalesce(c, s, id, r))
  {
  }

  lemma LooksBringNoNews(c: Config, s: State, id: nat, r: Req)
    ensures SameNews(s, Admit(c, s, id, r))
  {
    GateBringsNoNews(c, CountRouted(s), id, Admitted(c, s, r));
  }

  /** Requests bring no news. */
  lemma RequestsBringNoNews(c: Config, s: State, e: Event)
    requires Enabled(s, e) && (e.Arrive? || e.Wake?)
    ensures SameNews(s, Step(c, s, e))
  {
    if e.Arrive? {
      ResolveFrame(s, e.lora);
      var s1 := Resolve(s, e.lora);
      LooksBringNoNews(c, s1, e.id, NewReq(s1, RunKey(EffectiveLora(s, e.lora)), EstimateS(c, e.numSamples, e.maxTokens)));
    } else {
      var r := s.requests[e.id].(exact := s.requests[e.id].exact && s.now == s.requests[e.id].wake);
      LooksBringNoNews(c, s, e.id, r);
      GateBringsNoNews(c, s, e.id, r);
    }
  }

  lemma InformedSnoc(start: real, s: State, s': State, es: seq<Event>, e: Event)
    requires Informed(start, s, es)
    requires forall name :: Lookup(s'.versions, name) == VersionNews(Lookup(s.versions, name), e, name)
    requires forall session :: Lookup(s'.aliases, session)
               == if e.NotifyAlias? && e.key == session && e.key != "" && e.run != "" then Some(e.run)
                  else Lookup(s.aliases, session)
    requires s'.flip == if e.SetHorizon? then e.flip else s.flip
    requires s'.now == if e.Tick? then e.now else s.now
    ensures Informed(start, s', es + [e])
  {
    assert (es + [e])[..|es|] == es;
  }

  lemma InformedStep(c: Config, start: real, s: State, es: seq<Event>, e: Event)
    requires Enabled(s, e) && Informed(start, s, es)
    ensures Informed(start, Step(c, s, e), es + [e])
  {
    if e.Arrive? || e.Wake? {
      RequestsBringNoNews(c, s, e);
    }
    InformedSnoc(start, s, Step(c, s, e), es, e);
  }

  lemma {:induction false} InformedRun(c: Config, start: real, s: State, past: seq<Event>, es: seq<Event>)
    requires IsRun(c, s, es) && Informed(start, s, past)
    ensures Informed(start, After(c, s, es), past + es)
    decreases |es|
  {
    if es == [] {
      assert past + es == past;
    } else {
      InformedStep(c, start, s, past, es[0]);
      InformedRun(c, start, Step(c, s, es[0]), past + [es[0]], es[1..]);
      assert past + [es[0]] + es[1..] == past + es;
    }
  }

  /**
   * Over every run: a session is served from the base model exactly when the news says 0, the
   * run's version counting before the session's own; and L3 goes by the last horizon and tick.
   */
  lemma ServedByTheNews(c: Config, start: real, es: seq<Event>, session: string)
    requires IsRun(c, Init(start), es)
    ensures var s, run := After(c, Init(start), es), RunOf(es, session);
            && s.flip == Flip(es) && s.now == Clock(start, es)
            && EffectiveLora(s, Some(session))
               == if run.Some? && VersionOf(es, run.value).Some? then
                    if VersionOf(es, run.value) == Some(0) then None else Some(session)
                  else if VersionOf(es, session) == Some(0) then None else Some(session)
  {
    InformedRun(c, start, Init(start), [], es);
    assert [] + es == es;
    var s := After(c, Init(start), es);
    assert Lookup(s.aliases, session) == RunOf(es, session);
    assert Lookup(s.versions, session) == VersionOf(es, session);
    if session in s.aliases {
      assert Lookup(s.versions, s.aliases[session]) == VersionOf(es, s.aliases[session]);
    }
  }
}
