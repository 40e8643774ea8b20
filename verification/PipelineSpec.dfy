/**
 * Sampling admission as a transition system: adapter merging (L1), same-adapter runs with
 * a bounded hold (L2) and admission before a flip (L3), for any number of concurrent
 * requests on one clock.
 */
module PipelineSpec {
  import opened Wrappers

  /** Constructor arguments; the code clamps both before it uses them. */
  datatype Config = Config(estimatedTokensPerS: real, coalesceMaxHoldS: real)
  {
    function Rate(): (r: real)
      ensures r >= 1.0
    {
      if estimatedTokensPerS > 1.0 then estimatedTokensPerS else 1.0
    }

    function MaxHold(): (h: real)
      ensures h >= 0.0
    {
      if coalesceMaxHoldS > 0.0 then coalesceMaxHoldS else 0.0
    }
  }

  const BASE := "A0"
  const HORIZON_NAP := 1.0
  const COALESCE_NAP := 0.01

  /** Sleeping before the flip, sleeping behind another run, or executing downstream. */
  datatype Phase = Horizon | Coalescing | Running

  /**
   * One request.  The code reads the phase, the run key, the estimate, the wake-up time and
   * the deadline; the rest is history: arrival, the horizon in force then and how often it
   * had been set, whether it stayed set, when L3 let the request through, and the sleeps.
   */
  datatype Req = Req(
    phase: Phase,
    key: string,
    estimate: real,
    wake: real,
    deadline: real,
    arrival: real,
    horizon: Option<real>,
    epoch: nat,
    fixed: bool,
    admitted: real,
    exact: bool,
    l3Sleeps: nat,
    l3Held: real,
    l2Sleeps: nat,
    l2Held: real)

  datatype Stats = Stats(
    a0Merged: nat,
    runsStarted: nat,
    routed: nat,
    horizonHolds: nat,
    horizonHoldS: real,
    unknownVersion: nat,
    dispatchRuns: nat,
    coalesceHolds: nat,
    coalesceHoldS: real)

  /** A request handed downstream, when, and how many requests of the run it displaced were live. */
  datatype Dispatched = Dispatched(req: Req, at: real, displaced: nat)

  datatype State = State(
    now: real,
    requests: map<nat, Req>,
    flip: Option<real>,
    epoch: nat,
    runKey: Option<string>,
    inflight: map<string, nat>,
    versions: map<string, int>,
    aliases: map<string, string>,
    lastAdapter: Option<string>,
    stats: Stats,
    tracked: seq<string>,
    log: seq<Dispatched>)

  datatype Event =
    | Tick(now: real)
    | Arrive(id: nat, lora: Option<string>, numSamples: nat, maxTokens: Option<nat>)
    | Wake(id: nat)
    | Finish(id: nat)
    | Cancel(id: nat)
    | SetHorizon(flip: Option<real>)
    | NotifyVersion(key: string, version: int)
    | NotifyAlias(key: string, run: string)
    | AddAdapter(key: string)
    | RemoveAdapter(key: string)

  function Init(now: real): State {
    State(now, map[], None, 0, None, map[], map[], map[], None,
          Stats(0, 0, 0, 0, 0.0, 0, 0, 0, 0.0), [], [])
  }

  function MinReal(a: real, b: real): real {
    if a < b then a else b
  }

  function Lookup<K, V>(m: map<K, V>, k: K): Option<V> {
    if k in m then Some(m[k]) else None
  }

  function InflightOf(s: State, key: string): nat {
    if key in s.inflight then s.inflight[key] else 0
  }

  // L1

  /** Versions are reported per training run, seeded per sampling session; the run wins. */
  function KnownVersion(s: State, key: string): Option<int> {
    if key in s.aliases && s.aliases[key] in s.versions then Some(s.versions[s.aliases[key]])
    else Lookup(s.versions, key)
  }

  function EffectiveLora(s: State, lora: Option<string>): Option<string> {
    match lora
    case None => None
    case Some(key) => if KnownVersion(s, key) == Some(0) then None else lora
  }

  function RunKey(lora: Option<string>): string {
    if lora.None? || lora.value == "" then BASE else lora.value
  }

  function TrackRun(s: State, key: string): State {
    if s.lastAdapter == Some(key) then s.(tracked := s.tracked + [key])
    else s.(tracked := s.tracked + [key], lastAdapter := Some(key),
            stats := s.stats.(runsStarted := s.stats.runsStarted + 1))
  }

  function CountVersion(s: State, version: Option<int>): State {
    match version
    case None => s.(stats := s.stats.(unknownVersion := s.stats.unknownVersion + 1))
    case Some(v) => if v == 0 then s.(stats := s.stats.(a0Merged := s.stats.a0Merged + 1)) else s
  }

  /** L1's bookkeeping for one arrival; a base-model request leaves no trace. */
  function Resolve(s: State, lora: Option<string>): State {
    match lora
    case None => s
    case Some(key) =>
      var version := KnownVersion(s, key);
      TrackRun(CountVersion(s, version), if version == Some(0) then BASE else key)
  }

  // L2

  /** The run in flight is another adapter's, still has live requests, and the bound is not up. */
  predicate MustHold(c: Config, s: State, r: Req) {
    && c.MaxHold() > 0.0
    && s.runKey.Some? && s.runKey.value != r.key
    && InflightOf(s, s.runKey.value) > 0
    && r.deadline - s.now > 0.0
  }

  function DispatchNow(s: State, id: nat, r: Req): State {
    var switching := s.runKey != Some(r.key);
    var displaced := if switching && s.runKey.Some? then InflightOf(s, s.runKey.value) else 0;
    var running := r.(phase := Running);
    s.(requests := s.requests[id := running],
       runKey := Some(r.key),
       inflight := s.inflight[r.key := InflightOf(s, r.key) + 1],
       stats := if switching then s.stats.(dispatchRuns := s.stats.dispatchRuns + 1) else s.stats,
       log := s.log + [Dispatched(running, s.now, displaced)])
  }

  function Coalesce(c: Config, s: State, id: nat, r: Req): State {
    if MustHold(c, s, r) then
      var hold := MinReal(r.deadline - s.now, COALESCE_NAP);
      var r' := r.(phase := Coalescing, wake := s.now + hold,
                   l2Sleeps := r.l2Sleeps + 1, l2Held := r.l2Held + hold);
      s.(requests := s.requests[id := r'],
         stats := s.stats.(coalesceHolds := s.stats.coalesceHolds + 1,
                           coalesceHoldS := s.stats.coalesceHoldS + hold))
    else DispatchNow(s, id, r)
  }

  // L3

  predicate Fits(s: State, estimate: real) {
    s.flip.None? || s.now >= s.flip.value || s.now + estimate <= s.flip.value
  }

  /** The request leaves L3: its L2 deadline runs from now. */
  function Admitted(c: Config, s: State, r: Req): Req {
    r.(admitted := s.now, deadline := s.now + c.MaxHold(), wake := s.now, fixed := r.epoch == s.epoch)
  }

  function CountRouted(s: State): State {
    s.(stats := s.stats.(routed := s.stats.routed + 1))
  }

  function Admit(c: Config, s: State, id: nat, r: Req): State {
    if Fits(s, r.estimate) then
      Coalesce(c, CountRouted(s), id, Admitted(c, s, r))
    else
      var hold := MinReal(s.flip.value - s.now, HORIZON_NAP);
      var r' := r.(phase := Horizon, wake := s.now + hold,
                   l3Sleeps := r.l3Sleeps + 1, l3Held := r.l3Held + hold);
      s.(requests := s.requests[id := r'],
         stats := s.stats.(horizonHolds := s.stats.horizonHolds + 1,
                           horizonHoldS := s.stats.horizonHoldS + hold))
  }

  function EstimateS(c: Config, numSamples: nat, maxTokens: Option<nat>): real {
    var tokens := if maxTokens.None? || maxTokens.value == 0 then 64 else maxTokens.value;
    (numSamples * tokens) as real / c.Rate()
  }

  function NewReq(s: State, key: string, estimate: real): Req {
    Req(Horizon, key, estimate, s.now, s.now, s.now, s.flip, s.epoch, false, s.now, true, 0, 0.0, 0, 0.0)
  }

  function LeaveRun(inflight: map<string, nat>, key: string): map<string, nat> {
    var n := if key in inflight then inflight[key] else 0;
    if n > 1 then inflight[key := n - 1] else inflight - {key}
  }

  predicate Enabled(s: State, e: Event) {
    match e
    case Tick(now) => now >= s.now
    case Arrive(id, _, _, _) => id !in s.requests
    case Wake(id) => id in s.requests && !s.requests[id].phase.Running? && s.now >= s.requests[id].wake
    case Finish(id) => id in s.requests && s.requests[id].phase.Running?
    case Cancel(id) => id in s.requests && !s.requests[id].phase.Running?
    case _ => true
  }

  function Step(c: Config, s: State, e: Event): State
    requires Enabled(s, e)
  {
    match e
    case Tick(now) => s.(now := now)
    case Arrive(id, lora, n, maxTokens) =>
      var r := NewReq(s, RunKey(EffectiveLora(s, lora)), EstimateS(c, n, maxTokens));
      Admit(c, Resolve(s, lora), id, r)
    case Wake(id) =>
      var r := s.requests[id].(exact := s.requests[id].exact && s.now == s.requests[id].wake);
      if r.phase.Horizon? then Admit(c, s, id, r) else Coalesce(c, s, id, r)
    case Finish(id) =>
      s.(requests := s.requests - {id}, inflight := LeaveRun(s.inflight, s.requests[id].key))
    case Cancel(id) => s.(requests := s.requests - {id})
    case SetHorizon(flip) => s.(flip := flip, epoch := s.epoch + 1)
    case NotifyVersion(key, version) => s.(versions := s.versions[key := version])
    case NotifyAlias(key, run) =>
      if key != "" && run != "" then s.(aliases := s.aliases[key := run]) else s
    case AddAdapter(key) => if key in s.versions then s else s.(versions := s.versions[key := 0])
    case RemoveAdapter(key) => s.(versions := s.versions - {key})
  }

  ghost predicate IsRun(c: Config, s: State, es: seq<Event>)
    decreases |es|
  {
    es == [] || (Enabled(s, es[0]) && IsRun(c, Step(c, s, es[0]), es[1..]))
  }

  ghost function After(c: Config, s: State, es: seq<Event>): State
    requires IsRun(c, s, es)
    decreases |es|
  {
    if es == [] then s else After(c, Step(c, s, es[0]), es[1..])
  }

  ghost predicate Reachable(c: Config, s: State) {
    exists start, es :: IsRun(c, Init(start), es) && After(c, Init(start), es) == s
  }
}
