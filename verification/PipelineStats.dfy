/** The pipeline's statistics are the totals of what its requests went through. */
module PipelineStats {
  import opened Wrappers
  import opened PipelineSpec
  import opened PipelineTheorems

  /** What happened to requests: L2 and L3 sleeps with their lengths, and passages through L3. */
  datatype Account = Account(l2Sleeps: int, l2Held: real, l3Sleeps: int, l3Held: real, passed: int)

  const NOTHING := Account(0, 0.0, 0, 0.0, 0)

  function Plus(a: Account, b: Account): Account {
    Account(a.l2Sleeps + b.l2Sleeps, a.l2Held + b.l2Held, a.l3Sleeps + b.l3Sleeps, a.l3Held + b.l3Held,
            a.passed + b.passed)
  }

  /** A request's own history, as far as it has come. */
  function HistoryOf(r: Req): Account {
    Account(r.l2Sleeps, r.l2Held, r.l3Sleeps, r.l3Held, if r.phase.Horizon? then 0 else 1)
  }

  function HistoryIn(s: State, id: nat): Account {
    if id in s.requests then HistoryOf(s.requests[id]) else NOTHING
  }

  function Minus(a: Account, b: Account): Account {
    Account(a.l2Sleeps - b.l2Sleeps, a.l2Held - b.l2Held, a.l3Sleeps - b.l3Sleeps, a.l3Held - b.l3Held,
            a.passed - b.passed)
  }

  /** The same five numbers as the statistics keep them. */
  function Counted(s: State): Account {
    Account(s.stats.coalesceHolds, s.stats.coalesceHoldS, s.stats.horizonHolds, s.stats.horizonHoldS, s.stats.routed)
  }

  lemma CoalesceCounts(c: Config, s: State, id: nat, r: Req)
    ensures var s' := Coalesce(c, s, id, r);
            && id in s'.requests && !s'.requests[id].phase.Horizon?
            && Minus(HistoryOf(s'.requests[id]), HistoryOf(r)).(passed := 0) == Minus(Counted(s'), Counted(s))
            && s'.requests[id].l3Sleeps == r.l3Sleeps && s'.stats.routed == s.stats.routed
  {
  }

  lemma AdmitCounts(c: Config, s: State, id: nat, r: Req)
    requires r.phase.Horizon? && r.l2Sleeps == 0 && r.l2Held == 0.0
    ensures var s' := Admit(c, s, id, r);
            id in s'.requests && Minus(HistoryOf(s'.requests[id]), HistoryOf(r)) == Minus(Counted(s'), Counted(s))
  {
    if Fits(s, r.estimate) {
      CoalesceCounts(c, CountRouted(s), id, Admitted(c, s, r));
    }
  }

  lemma ResolveCounts(s: State, lora: Option<string>)
    ensures Counted(Resolve(s, lora)) == Counted(s)
  {
  }

  /** No request has slept in L2 before L3 let it through. */
  ghost predicate Unheld(s: State) {
    forall id :: id in s.requests && s.requests[id].phase.Horizon? ==>
      s.requests[id].l2Sleeps == 0 && s.requests[id].l2Held == 0.0
  }

  lemma UnheldUpdate(s: State, s': State, id: nat)
    requires Unheld(s) && id in s'.requests && s'.requests == s.requests[id := s'.requests[id]]
    requires s'.requests[id].phase.Horizon? ==> s'.requests[id].l2Sleeps == 0 && s'.requests[id].l2Held == 0.0
    ensures Unheld(s')
  {
  }

  lemma CoalesceMoves(c: Config, s: State, id: nat, r: Req)
    ensures var s' := Coalesce(c, s, id, r);
            id in s'.requests && s'.requests == s.requests[id := s'.requests[id]] && !s'.requests[id].phase.Horizon?
            && s'.requests[id].key == r.key
            && s'.stats.a0Merged == s.stats.a0Merged && s'.stats.unknownVersion == s.stats.unknownVersion
            && s'.tracked == s.tracked
  {
  }

  lemma AdmitMoves(c: Config, s: State, id: nat, r: Req)
    ensures var s' := Admit(c, s, id, r);
            id in s'.requests && s'.requests == s.requests[id := s'.requests[id]] && s'.requests[id].key == r.key
            && s'.stats.a0Merged == s.stats.a0Merged && s'.stats.unknownVersion == s.stats.unknownVersion
            && s'.tracked == s.tracked
            && (s'.requests[id].phase.Horizon? ==>
                  s'.requests[id].l2Sleeps == r.l2Sleeps && s'.requests[id].l2Held == r.l2Held)
  {
    if Fits(s, r.estimate) {
      CoalesceMoves(c, CountRouted(s), id, Admitted(c, s, r));
    }
  }

  /** The request looked at its level again, and the statistics moved with its history. */
  ghost predicate CountedWith(s: State, s': State, id: nat) {
    && id in s'.requests && s'.requests == s.requests[id := s'.requests[id]] && Unheld(s')
    && Plus(Counted(s), Minus(HistoryIn(s', id), HistoryIn(s, id))) == Counted(s')
  }

  lemma ArriveCounts(c: Config, s: State, e: Event)
    requires Unheld(s) && e.Arrive? && Enabled(s, e)
    ensures CountedWith(s, Step(c, s, e), e.id)
  {
    ResolveCounts(s, e.lora);
    ResolveFrame(s, e.lora);
    var s1 := Resolve(s, e.lora);
    var r := NewReq(s1, RunKey(EffectiveLora(s, e.lora)), EstimateS(c, e.numSamples, e.maxTokens));
    AdmitCounts(c, s1, e.id, r);
    AdmitMoves(c, s1, e.id, r);
    UnheldUpdate(s, Step(c, s, e), e.id);
  }

  lemma WakeHorizon(c: Config, s: State, id: nat, r: Req)
    requires Unheld(s) && id in s.requests && r == s.requests[id].(exact := r.exact) && r.phase.Horizon?
    ensures CountedWith(s, Admit(c, s, id, r), id)
  {
    AdmitCounts(c, s, id, r);
    AdmitMoves(c, s, id, r);
    UnheldUpdate(s, Admit(c, s, id, r), id);
  }

  lemma WakeCoalescing(c: Config, s: State, id: nat, r: Req)
    requires Unheld(s) && id in s.requests && r == s.requests[id].(exact := r.exact) && !r.phase.Horizon?
    ensures CountedWith(s, Coalesce(c, s, id, r), id)
  {
    CoalesceCounts(c, s, id, r);
    CoalesceMoves(c, s, id, r);
    UnheldUpdate(s, Coalesce(c, s, id, r), id);
  }

  lemma WakeCounts(c: Config, s: State, id: nat)
    requires Unheld(s) && Enabled(s, Wake(id))
    ensures CountedWith(s, Step(c, s, Wake(id)), id)
  {
    var r := s.requests[id].(exact := s.requests[id].exact && s.now == s.requests[id].wake);
    if r.phase.Horizon? {
      WakeHorizon(c, s, id, r);
    } else {
      WakeCoalescing(c, s, id, r);
    }
  }

  // The histories of all requests, added up

  ghost function SomeId(requests: map<nat, Req>): (id: nat)
    requires requests != map[]
    ensures id in requests
  {
    assert exists id :: id in requests;
    var id :| id in requests;
    id
  }

  ghost function Total(requests: map<nat, Req>): Account
    decreases |requests|
  {
    if requests == map[] then NOTHING
    else
      var id := SomeId(requests);
      Plus(HistoryOf(requests[id]), Total(requests - {id}))
  }

  lemma {:induction false} TotalWithout(requests: map<nat, Req>, id: nat)
    requires id in requests
    ensures Total(requests) == Plus(HistoryOf(requests[id]), Total(requests - {id}))
    decreases |requests|
  {
    var first := SomeId(requests);
    if first != id {
      TotalWithout(requests - {first}, id);
      TotalWithout(requests - {id}, first);
      assert requests - {first} - {id} == requests - {id} - {first};
    }
  }

  lemma TotalAbsent(requests: map<nat, Req>, id: nat)
    requires id !in requests
    ensures requests - {id} == requests
  {
  }

  /** One request's history gets longer, from nothing if it is new. */
  lemma TotalUpdate(requests: map<nat, Req>, id: nat, r: Req)
    ensures Total(requests[id := r])
         == Plus(Total(requests), Minus(HistoryOf(r), if id in requests then HistoryOf(requests[id]) else NOTHING))
  {
    TotalWithout(requests[id := r], id);
    assert requests[id := r] - {id} == requests - {id};
    if id in requests {
      TotalWithout(requests, id);
    } else {
      TotalAbsent(requests, id);
    }
  }

  /** The history of the request that leaves, if one does. */
  ghost function Leaving(s: State, e: Event): Account {
    match e
    case Finish(id) => HistoryIn(s, id)
    case Cancel(id) => HistoryIn(s, id)
    case _ => NOTHING
  }

  /** The histories of all requests that finished or were cancelled during the run. */
  ghost function Departed(c: Config, s: State, es: seq<Event>): Account
    requires IsRun(c, s, es)
    decreases |es|
  {
    if es == [] then NOTHING else Plus(Leaving(s, es[0]), Departed(c, Step(c, s, es[0]), es[1..]))
  }

  ghost predicate Balanced(s: State, gone: Account) {
    Unheld(s) && Counted(s) == Plus(Total(s.requests), gone)
  }

  lemma BalancedUpdate(s: State, s': State, id: nat, gone: Account)
    requires Balanced(s, gone) && CountedWith(s, s', id)
    ensures Balanced(s', gone)
  {
    TotalUpdate(s.requests, id, s'.requests[id]);
  }

  lemma BalancedLeave(s: State, s': State, id: nat, gone: Account)
    requires Balanced(s, gone) && id in s.requests && s'.requests == s.requests - {id} && Counted(s') == Counted(s)
    ensures Balanced(s', Plus(gone, HistoryOf(s.requests[id])))
  {
    TotalWithout(s.requests, id);
  }

  lemma BalancedNews(c: Config, s: State, e: Event, gone: Account)
    requires Balanced(s, gone) && Enabled(s, e)
    requires !e.Arrive? && !e.Wake? && !e.Finish? && !e.Cancel?
    ensures Balanced(Step(c, s, e), gone)
  {
  }

  lemma BalancedStep(c: Config, s: State, e: Event, gone: Account)
    requires Balanced(s, gone) && Enabled(s, e)
    ensures Balanced(Step(c, s, e), Plus(gone, Leaving(s, e)))
  {
    PlusNothing(gone);
    match e
    case Arrive(id, _, _, _) =>
      ArriveCounts(c, s, e);
      BalancedUpdate(s, Step(c, s, e), id, gone);
    case Wake(id) =>
      WakeCounts(c, s, id);
      BalancedUpdate(s, Step(c, s, e), id, gone);
    case Finish(id) => BalancedLeave(s, Step(c, s, e), id, gone);
    case Cancel(id) => BalancedLeave(s, Step(c, s, e), id, gone);
    case Tick(_) => BalancedNews(c, s, e, gone);
    case SetHorizon(_) => BalancedNews(c, s, e, gone);
    case NotifyVersion(_, _) => BalancedNews(c, s, e, gone);
    case NotifyAlias(_, _) => BalancedNews(c, s, e, gone);
    case AddAdapter(_) => BalancedNews(c, s, e, gone);
    case RemoveAdapter(_) => BalancedNews(c, s, e, gone);
  }

  lemma {:induction false} BalancedRun(c: Config, s: State, es: seq<Event>, gone: Account)
    requires Balanced(s, gone) && IsRun(c, s, es)
    ensures Balanced(After(c, s, es), Plus(gone, Departed(c, s, es)))
    decreases |es|
  {
    if es == [] {
      PlusNothing(gone);
    } else {
      var s1 := Step(c, s, es[0]);
      BalancedStep(c, s, es[0], gone);
      BalancedRun(c, s1, es[1..], Plus(gone, Leaving(s, es[0])));
      PlusAssociates(gone, Leaving(s, es[0]), Departed(c, s1, es[1..]));
    }
  }

  lemma PlusNothing(a: Account)
    ensures Plus(a, NOTHING) == Plus(NOTHING, a) == a
  {
  }

  lemma PlusAssociates(a: Account, b: Account, c: Account)
    ensures Plus(Plus(a, b), c) == Plus(a, Plus(b, c))
  {
  }

  lemma BalancedFrom(c: Config, s: State, es: seq<Event>)
    requires Balanced(s, NOTHING) && IsRun(c, s, es)
    ensures Counted(After(c, s, es)) == Plus(Total(After(c, s, es).requests), Departed(c, s, es))
  {
    BalancedRun(c, s, es, NOTHING);
    PlusNothing(Departed(c, s, es));
  }

  lemma BalancedInit(s: State)
    requires Counted(s) == Total(s.requests) && Unheld(s)
    ensures Balanced(s, NOTHING)
  {
    PlusNothing(Total(s.requests));
  }

  /**
   * After any run from a fresh wrapper, hold counts, held seconds and routed requests are
   * the sums over all requests ever seen, the live ones and those that have finished or
   * were cancelled, of their own sleeps, seconds slept and passages through L3.
   */
  lemma StatsAreTotals(c: Config, start: real, es: seq<Event>)
    requires IsRun(c, Init(start), es)
    ensures var s := After(c, Init(start), es);
            Counted(s) == Plus(Total(s.requests), Departed(c, Init(start), es))
  {
    assert Total(Init(start).requests) == NOTHING;
    BalancedInit(Init(start));
    BalancedFrom(c, Init(start), es);
  }

  lemma TrackMoves(s: State, key: string)
    ensures var s' := TrackRun(s, key);
            s'.stats.a0Merged == s.stats.a0Merged && s'.stats.unknownVersion == s.stats.unknownVersion
            && s'.tracked == s.tracked + [key]
  {
  }

  lemma VersionMoves(s: State, version: Option<int>)
    ensures var s' := CountVersion(s, version);
            && s'.stats.a0Merged == s.stats.a0Merged + (if version == Some(0) then 1 else 0)
            && s'.stats.unknownVersion == s.stats.unknownVersion + (if version.None? then 1 else 0)
            && s'.tracked == s.tracked
  {
  }

  lemma ResolveMoves(s: State, lora: Option<string>)
    ensures var s', known := Resolve(s, lora), if lora.Some? then KnownVersion(s, lora.value) else None;
            && s'.stats.a0Merged == s.stats.a0Merged + (if lora.Some? && known == Some(0) then 1 else 0)
            && s'.stats.unknownVersion == s.stats.unknownVersion + (if lora.Some? && known.None? then 1 else 0)
            && s'.tracked == s.tracked + (if lora.None? then [] else [if known == Some(0) then BASE else lora.value])
  {
    if lora.Some? {
      var version := KnownVersion(s, lora.value);
      VersionMoves(s, version);
      TrackMoves(CountVersion(s, version), if version == Some(0) then BASE else lora.value);
    }
  }

  /** L1's counters move by what was known of the adapter, and decide the run the request joins. */
  lemma ArrivalCounted(c: Config, s: State, e: Event)
    requires e.Arrive? && Enabled(s, e)
    ensures var s', known := Step(c, s, e), if e.lora.Some? then KnownVersion(s, e.lora.value) else None;
            && s'.stats.a0Merged == s.stats.a0Merged + (if e.lora.Some? && known == Some(0) then 1 else 0)
            && s'.stats.unknownVersion == s.stats.unknownVersion + (if e.lora.Some? && known.None? then 1 else 0)
            && s'.tracked == s.tracked + (if e.lora.None? then [] else [if known == Some(0) then BASE else e.lora.value])
            && e.id in s'.requests
            && s'.requests[e.id].key
               == (if e.lora.None? || e.lora.value == "" || known == Some(0) then BASE else e.lora.value)
  {
    ResolveMoves(s, e.lora);
    var s1 := Resolve(s, e.lora);
    AdmitMoves(c, s1, e.id, NewReq(s1, RunKey(EffectiveLora(s, e.lora)), EstimateS(c, e.numSamples, e.maxTokens)));
  }
}
