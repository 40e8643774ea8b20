/** What the owner of a future is told, and whose future it is, read off the events of the run. */
module FutureAnswers {
  import opened Wrappers
  import opened FutureSpec
  import opened FutureTheorems

  // The answer

  /** What has been reported of a future: nothing, an outcome not saved yet, or a saved one. */
  datatype Report = Silent | Told(outcome: Outcome) | Kept(outcome: Outcome)

  /** A crash forgets an outcome that was not saved; a ready future is saved with its payload. */
  ghost function Hears(report: Report, e: Event, id: RequestId): Report {
    match e
    case Enqueue(k, _, _, _) => if k == id then Silent else report
    case CreateReady(k, _, _, payload) => if k == id then Kept(Payload(payload)) else report
    case Complete(k, outcome) => if k == id then Told(outcome) else report
    case Persist(k) => if k == id && report.Told? then Kept(report.outcome) else report
    case Signal(_) => report
    case Restart => if report.Told? then Silent else report
  }

  ghost function Heard(report: Report, es: seq<Event>, id: RequestId): Report
    decreases |es|
  {
    if es == [] then report else Heard(Hears(report, es[0], id), es[1..], id)
  }

  /** A failure is raised, a payload is handed over. */
  ghost predicate Tells(answer: Answer, outcome: Outcome) {
    && (forall error :: outcome == Failure(error) ==> answer == Raise(error))
    && (forall value :: outcome == Payload(value) ==> answer == Result(Some(value)))
  }

  ghost predicate Agrees(r: Record, saved: Record, report: Report) {
    match report
    case Silent => r.status == Pending && saved.status == Pending
    case Told(outcome) => r.status != Pending && saved.status == Pending && Tells(AnswerOf(r), outcome)
    case Kept(outcome) => r.status != Pending && saved == Serialized(r) && Tells(AnswerOf(r), outcome)
  }

  ghost predicate Heeded(s: State, id: RequestId, report: Report) {
    id in s.records ==> id in s.store && Agrees(s.records[id], s.store[id], report)
  }

  /** A record that exists already. */
  lemma HeedsRecord(s: State, e: Event, id: RequestId, report: Report)
    requires id in s.records && id in s.store && RecordOk(s, id) && Enabled(s, e) && !e.Restart?
    requires Heeded(s, id, report)
    ensures Heeded(Step(s, e), id, Hears(report, e, id))
  {
  }

  lemma HeedsNew(s: State, e: Event, id: RequestId, report: Report)
    requires id !in s.records && Enabled(s, e) && !e.Restart?
    ensures Heeded(Step(s, e), id, Hears(report, e, id))
  {
  }

  lemma HeedsRestart(s: State, id: RequestId, report: Report)
    requires id in s.records <==> id in s.store
    requires id in s.records ==> RecordOk(s, id)
    requires Heeded(s, id, report)
    ensures Heeded(Restarted(s), id, Hears(report, Restart, id))
  {
  }

  lemma HeedsStep(s: State, e: Event, id: RequestId, report: Report)
    requires Inv(s) && Enabled(s, e) && Heeded(s, id, report)
    ensures Heeded(Step(s, e), id, Hears(report, e, id))
  {
    assert id in s.records ==> RecordOk(s, id);
    if e.Restart? {
      HeedsRestart(s, id, report);
    } else if id in s.records {
      HeedsRecord(s, e, id, report);
    } else {
      HeedsNew(s, e, id, report);
    }
  }

  lemma {:induction false} HeedsRun(s: State, es: seq<Event>, id: RequestId, report: Report)
    requires Inv(s) && IsRun(s, es) && Heeded(s, id, report)
    ensures Heeded(After(s, es), id, Heard(report, es, id))
    decreases |es|
  {
    if es != [] {
      InvStep(s, es[0]);
      HeedsStep(s, es[0], id, report);
      HeedsRun(Step(s, es[0]), es[1..], id, Hears(report, es[0], id));
    }
  }

  /**
   * Over every run, restarts included: a future is pending exactly when nothing was reported
   * of it since the last crash that lost a report.  Otherwise its owner gets `Raise(e)`
   * exactly when the operation reported failure e, and the payload v exactly when it
   * reported v.
   */
  lemma AnswerIsReport(es: seq<Event>, id: RequestId)
    requires IsRun(EMPTY, es) && id in After(EMPTY, es).records
    ensures var r, report := After(EMPTY, es).records[id], Heard(Silent, es, id);
            && (r.status == Pending <==> report.Silent?)
            && (!report.Silent? ==>
                  && (forall error :: AnswerOf(r) == Raise(error) <==> report.outcome == Failure(error))
                  && (forall value :: AnswerOf(r) == Result(Some(value)) <==> report.outcome == Payload(value)))
  {
    HeedsRun(EMPTY, es, id, Silent);
  }

  // Whose future

  /** Who asked for what, and the number of the request among all. */
  datatype Origin = Origin(user: UserId, model: Option<ModelId>, op: Option<OpType>, number: nat)

  ghost function Requests(es: seq<Event>): nat {
    if es == [] then 0
    else Requests(es[..|es| - 1]) + if es[|es| - 1].Enqueue? || es[|es| - 1].CreateReady? then 1 else 0
  }

  ghost function OriginOf(es: seq<Event>, id: RequestId): Option<Origin> {
    if es == [] then None
    else
      var front, last := es[..|es| - 1], es[|es| - 1];
      match last
      case Enqueue(k, user, model, op) =>
        if k == id then Some(Origin(user, model, op, Requests(es))) else OriginOf(front, id)
      case CreateReady(k, user, model, _) =>
        if k == id then Some(Origin(user, model, None, Requests(es))) else OriginOf(front, id)
      case _ => OriginOf(front, id)
  }

  ghost predicate Owned(s: State, es: seq<Event>, id: RequestId) {
    && s.nextId == Requests(es) + 1
    && (id in s.records <==> OriginOf(es, id).Some?)
    && (id in s.records ==>
          var r := s.records[id]; OriginOf(es, id) == Some(Origin(r.user, r.model, r.op, r.futureId)))
  }

  lemma OwnedStep(s: State, es: seq<Event>, e: Event, id: RequestId)
    requires Inv(s) && Enabled(s, e) && Owned(s, es, id)
    ensures Owned(Step(s, e), es + [e], id)
  {
    assert (es + [e])[..|es|] == es;
    if e.Restart? {
      OwnedRestart(s, es, id);
    }
  }

  lemma OwnedRestart(s: State, es: seq<Event>, id: RequestId)
    requires Inv(s) && Owned(s, es, id)
    ensures var s' := Restarted(s);
            s'.nextId == s.nextId && s'.records.Keys == s.records.Keys
            && (id in s.records ==> SameIdentity(s'.records[id], s.records[id]))
  {
    InvRestart(s);
    if id in s.records {
      assert RecordOk(s, id);
    }
  }

  lemma {:induction false} OwnedRun(s: State, past: seq<Event>, es: seq<Event>, id: RequestId)
    requires Inv(s) && IsRun(s, es) && Owned(s, past, id)
    ensures Owned(After(s, es), past + es, id)
    decreases |es|
  {
    if es == [] {
      assert past + es == past;
    } else {
      InvStep(s, es[0]);
      OwnedStep(s, past, es[0], id);
      OwnedRun(Step(s, es[0]), past + [es[0]], es[1..], id);
      assert past + [es[0]] + es[1..] == past + es;
    }
  }

  /**
   * Over every run: a future exists exactly when it was requested, belongs to the user, run
   * and operation type it was requested for, and carries the number of its request.
   */
  lemma RecordIsAsRequested(es: seq<Event>, id: RequestId)
    requires IsRun(EMPTY, es)
    ensures var s := After(EMPTY, es);
            && (id in s.records <==> OriginOf(es, id).Some?)
            && (id in s.records ==>
                  var r := s.records[id]; OriginOf(es, id) == Some(Origin(r.user, r.model, r.op, r.futureId)))
  {
    OwnedRun(EMPTY, [], es, id);
    assert [] + es == es;
  }
}
