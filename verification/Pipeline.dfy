/** The admission wrapper itself: maps and counters changed in place by each stretch of `sample`. */
module SamplingPipeline {
  import opened Wrappers
  import opened PipelineSpec
  import Theorems = PipelineTheorems

  class SamplingPipelineBackend {
    const config: Config

    var adapterVersions: map<string, int>
    var aliasToRun: map<string, string>
    var flexFlipAt: Option<real>
    var lastAdapterKey: Option<string>
    var runKey: Option<string>
    var inflightByKey: map<string, nat>
    var stats: Stats

    // The clock and the suspended `sample` calls, as the event loop sees them.
    var now: real
    var requests: map<nat, Req>
    var horizonEpoch: nat

    ghost var tracked: seq<string>
    ghost var log: seq<Dispatched>

    ghost function Abs(): State
      reads this
    {
      State(now, requests, flexFlipAt, horizonEpoch, runKey, inflightByKey, adapterVersions,
            aliasToRun, lastAdapterKey, stats, tracked, log)
    }

    ghost predicate Valid()
      reads this
    {
      Theorems.Inv(config, Abs())
    }

    constructor (config: Config, start: real)
      ensures this.config == config && Abs() == Init(start)
    {
      this.config := config;
      adapterVersions, aliasToRun, flexFlipAt, lastAdapterKey := map[], map[], None, None;
      runKey, inflightByKey, stats := None, map[], Stats(0, 0, 0, 0, 0.0, 0, 0, 0, 0.0);
      now, requests, horizonEpoch, tracked, log := start, map[], 0, [], [];
    }

    method KnownVersionOf(key: string) returns (version: Option<int>)
      ensures version == KnownVersion(Abs(), key)
    {
      if key in aliasToRun {
        var run := aliasToRun[key];
        if run in adapterVersions {
          return Some(adapterVersions[run]);
        }
      }
      version := if key in adapterVersions then Some(adapterVersions[key]) else None;
    }

    method TrackAdapterRun(key: string)
      modifies this`stats, this`lastAdapterKey, this`tracked
      ensures Abs() == TrackRun(old(Abs()), key)
    {
      if lastAdapterKey != Some(key) {
        stats := stats.(runsStarted := stats.runsStarted + 1);
        lastAdapterKey := Some(key);
      }
      tracked := tracked + [key];
    }

    /** L1: version-0 adapters are merged into the base run; unknown ones keep their adapter. */
    method EffectiveLoraId(lora: Option<string>) returns (effective: Option<string>)
      modifies this`stats, this`lastAdapterKey, this`tracked
      ensures effective == EffectiveLora(old(Abs()), lora)
      ensures Abs() == Resolve(old(Abs()), lora)
    {
      if lora.None? {
        return None;
      }
      var version := KnownVersionOf(lora.value);
      if version.None? {
        stats := stats.(unknownVersion := stats.unknownVersion + 1);
        TrackAdapterRun(lora.value);
        return lora;
      }
      if version.value == 0 {
        stats := stats.(a0Merged := stats.a0Merged + 1);
        TrackAdapterRun(BASE);
        return None;
      }
      TrackAdapterRun(lora.value);
      return lora;
    }

    method EnterRun(key: string)
      modifies this`inflightByKey
      ensures inflightByKey == old(inflightByKey)[key := InflightOf(old(Abs()), key) + 1]
    {
      var n := if key in inflightByKey then inflightByKey[key] else 0;
      inflightByKey := inflightByKey[key := n + 1];
    }

    method LeaveAdapterRun(key: string)
      modifies this`inflightByKey
      ensures inflightByKey == LeaveRun(old(inflightByKey), key)
    {
      var live: int := if key in inflightByKey then inflightByKey[key] else 0;
      var remaining := live - 1;
      if remaining > 0 {
        inflightByKey := inflightByKey[key := remaining];
      } else {
        inflightByKey := inflightByKey - {key};
      }
    }

    /** L2, from its loop head: nap behind the run in flight, or take over and go downstream. */
    method CoalesceRun(id: nat, r: Req)
      modifies this
      ensures Abs() == Coalesce(config, old(Abs()), id, r)
    {
      if config.MaxHold() > 0.0 && runKey.Some? && runKey.value != r.key
         && runKey.value in inflightByKey && inflightByKey[runKey.value] > 0 {
        var remaining := r.deadline - now;
        if remaining > 0.0 {
          var hold := MinReal(remaining, COALESCE_NAP);
          stats := stats.(coalesceHolds := stats.coalesceHolds + 1,
                          coalesceHoldS := stats.coalesceHoldS + hold);
          requests := requests[id := r.(phase := Coalescing, wake := now + hold,
                                        l2Sleeps := r.l2Sleeps + 1, l2Held := r.l2Held + hold)];
          return;
        }
      }
      TakeOver(id, r);
    }

    /** The request's run becomes the one in flight, and the request goes downstream. */
    method TakeOver(id: nat, r: Req)
      modifies this
      ensures Abs() == DispatchNow(old(Abs()), id, r)
    {
      ghost var displaced := if runKey != Some(r.key) && runKey.Some? then InflightOf(Abs(), runKey.value) else 0;
      if runKey != Some(r.key) {
        runKey := Some(r.key);
        stats := stats.(dispatchRuns := stats.dispatchRuns + 1);
      }
      EnterRun(r.key);
      requests := requests[id := r.(phase := Running)];
      log := log + [Dispatched(r.(phase := Running), now, displaced)];
    }

    /** L3, from its loop head: nap before the flip, or pass on to L2 in the same stretch. */
    method AdmitIntoHorizon(id: nat, r: Req)
      modifies this
      ensures Abs() == Admit(config, old(Abs()), id, r)
    {
      if flexFlipAt.Some? && now < flexFlipAt.value && now + r.estimate > flexFlipAt.value {
        var hold := MinReal(flexFlipAt.value - now, HORIZON_NAP);
        stats := stats.(horizonHolds := stats.horizonHolds + 1,
                        horizonHoldS := stats.horizonHoldS + hold);
        requests := requests[id := r.(phase := Horizon, wake := now + hold,
                                      l3Sleeps := r.l3Sleeps + 1, l3Held := r.l3Held + hold)];
        return;
      }
      stats := stats.(routed := stats.routed + 1);
      CoalesceRun(id, r.(admitted := now, deadline := now + config.MaxHold(), wake := now,
                         fixed := r.epoch == horizonEpoch));
    }

    /** `sample` up to its first suspension. */
    method Sample(id: nat, lora: Option<string>, numSamples: nat, maxTokens: Option<nat>)
      requires Enabled(Abs(), Arrive(id, lora, numSamples, maxTokens))
      modifies this
      ensures Abs() == Step(config, old(Abs()), Arrive(id, lora, numSamples, maxTokens))
    {
      var effective := EffectiveLoraId(lora);
      var r := Req(Horizon, RunKey(effective), EstimateS(config, numSamples, maxTokens), now, now, now,
                   flexFlipAt, horizonEpoch, false, now, true, 0, 0.0, 0, 0.0);
      AdmitIntoHorizon(id, r);
    }

    /** A sleeping request wakes up and looks again. */
    method WakeUp(id: nat)
      requires Enabled(Abs(), Wake(id))
      modifies this
      ensures Abs() == Step(config, old(Abs()), Wake(id))
    {
      var r := requests[id].(exact := requests[id].exact && now == requests[id].wake);
      if r.phase == Horizon {
        AdmitIntoHorizon(id, r);
      } else {
        CoalesceRun(id, r);
      }
    }

    /** The inner backend returned or raised; either way the request leaves its run. */
    method InnerDone(id: nat)
      requires Enabled(Abs(), Finish(id))
      modifies this
      ensures Abs() == Step(config, old(Abs()), Finish(id))
    {
      LeaveAdapterRun(requests[id].key);
      requests := requests - {id};
    }

    method NotifyAdapterVersion(key: string, version: int)
      modifies this`adapterVersions
      ensures Abs() == Step(config, old(Abs()), NotifyVersion(key, version))
    {
      adapterVersions := adapterVersions[key := version];
    }

    method NotifyAdapterAlias(key: string, run: string)
      modifies this`aliasToRun
      ensures Abs() == Step(config, old(Abs()), NotifyAlias(key, run))
    {
      if key != "" && run != "" {
        aliasToRun := aliasToRun[key := run];
      }
    }

    /** A new adapter starts at version 0 unless its version is already known. */
    method AddAdapterKey(key: string)
      modifies this`adapterVersions
      ensures Abs() == Step(config, old(Abs()), AddAdapter(key))
    {
      if key !in adapterVersions {
        adapterVersions := adapterVersions[key := 0];
      }
    }

    method RemoveAdapterKey(key: string)
      modifies this`adapterVersions
      ensures Abs() == Step(config, old(Abs()), RemoveAdapter(key))
    {
      adapterVersions := adapterVersions - {key};
    }

    method SetFlexHorizon(flip: Option<real>)
      modifies this`flexFlipAt, this`horizonEpoch
      ensures Abs() == Step(config, old(Abs()), SetHorizon(flip))
    {
      flexFlipAt, horizonEpoch := flip, horizonEpoch + 1;
    }

    /** The event loop runs one ready stretch, or the control plane reports. */
    method Dispatch(e: Event)
      requires Valid() && Enabled(Abs(), e)
      modifies this
      ensures Valid() && Abs() == Step(config, old(Abs()), e)
    {
      Theorems.InvStep(config, Abs(), e);
      match e
      case Tick(t) => now := t;
      case Arrive(id, lora, n, maxTokens) => Sample(id, lora, n, maxTokens);
      case Wake(id) => WakeUp(id);
      case Finish(id) => InnerDone(id);
      case Cancel(id) => requests := requests - {id};
      case SetHorizon(flip) => SetFlexHorizon(flip);
      case NotifyVersion(key, version) => NotifyAdapterVersion(key, version);
      case NotifyAlias(key, run) => NotifyAdapterAlias(key, run);
      case AddAdapter(key) => AddAdapterKey(key);
      case RemoveAdapter(key) => RemoveAdapterKey(key);
    }

    method RunSchedule(es: seq<Event>)
      requires Valid() && IsRun(config, Abs(), es)
      modifies this
      ensures Valid() && Abs() == After(config, old(Abs()), es)
    {
      for k := 0 to |es|
        invariant Valid() && IsRun(config, Abs(), es[k..])
        invariant After(config, Abs(), es[k..]) == After(config, old(Abs()), es)
      {
        assert es[k..][1..] == es[k + 1..];
        Dispatch(es[k]);
      }
    }
  }
}
