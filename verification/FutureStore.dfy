/** The future store itself: its table of records, its id counter and the saved copies. */
module FutureStoreClass {
  import opened Wrappers
  import opened FutureSpec
  import Theorems = FutureTheorems

  /** Marking one more record fails it, signals it and saves it. */
  lemma MarkOne(s: State, targets: set<RequestId>, id: RequestId, reason: Reason)
    requires id in s.records && id !in targets
    ensures var s1, failed := MarkFailed(s, targets, reason), FailedBy(s.records[id], id, reason);
            && id in s1.records && s1.records[id] == s.records[id]
            && MarkFailed(s, targets + {id}, reason)
               == s1.(records := s1.records[id := failed], store := s1.store[id := Serialized(failed)])
  {
  }

  lemma Unmarked(s: State, targets: set<RequestId>, id: RequestId, reason: Reason)
    requires id in s.records && id !in targets
    ensures id in MarkFailed(s, targets, reason).records
    ensures MarkFailed(s, targets, reason).records[id] == s.records[id]
  {
  }

  /** The part of `targets` dealt with grows by `id` or not at all when `id` leaves the to-do set. */
  lemma Shrink(targets: set<RequestId>, todo: set<RequestId>, id: RequestId)
    requires id in todo
    ensures id !in targets - todo
    ensures targets - (todo - {id}) == if id in targets then targets - todo + {id} else targets - todo
    ensures |targets - (todo - {id})| == |targets - todo| + (if id in targets then 1 else 0)
  {
    assert targets - (todo - {id}) == if id in targets then targets - todo + {id} else targets - todo;
  }

  /** Nothing is marked while every record is still to do. */
  lemma MarkNone(s: State, targets: set<RequestId>, reason: Reason)
    requires targets <= s.records.Keys
    ensures targets - s.records.Keys == {}
    ensures MarkFailed(s, targets - s.records.Keys, reason) == s
  {
    assert targets - s.records.Keys == {};
    assert MarkFailed(s, {}, reason) == s;
  }

  lemma NoneLeft(targets: set<RequestId>, todo: set<RequestId>)
    requires todo == {}
    ensures targets - todo == targets
  {
  }

  class FutureStore {
    var records: map<RequestId, Record>
    var nextFutureId: nat
    var store: map<RequestId, Record>
    var runners: map<RequestId, RunnerPc>
    ghost var issued: seq<RequestId>
    ghost var departures: seq<RequestId>

    ghost function Abs(): State
      reads this
    {
      State(records, nextFutureId, store, runners, issued, departures)
    }

    constructor ()
      ensures Abs() == EMPTY
    {
      records, nextFutureId, store, runners, issued, departures := map[], 1, map[], map[], [], [];
    }

    /** A new process: only the saved copies are left, and the counter is found from them. */
    method RestoreFromRedis()
      modifies this
      ensures Abs() == Restarted(old(Abs()))
    {
      records, nextFutureId, runners := map[], 1, map[];
      var keys := store.Keys;
      while keys != {}
        invariant keys <= store.Keys
        invariant records == map id | id in store.Keys - keys :: Loaded(store[id])
        invariant IsNext(nextFutureId, records)
        invariant store == old(store) && issued == old(issued) && departures == old(departures)
        invariant runners == map[]
        decreases |keys|
      {
        var id :| id in keys;
        keys := keys - {id};
        LoadRecord(id);
      }
      NextUnique(nextFutureId, NextAfter(store), records, store);
    }

    method LoadRecord(id: RequestId)
      requires id in store && id !in records && IsNext(nextFutureId, records)
      modifies this`records, this`nextFutureId
      ensures records == old(records)[id := Loaded(store[id])] && IsNext(nextFutureId, records)
    {
      ghost var before := records;
      var record := Loaded(store[id]);
      records := records[id := record];
      ghost var next := nextFutureId;
      if record.futureId >= nextFutureId {
        nextFutureId := record.futureId + 1;
      }
      assert records[id].futureId == record.futureId;
      if nextFutureId > 1 && nextFutureId == next {
        ghost var k :| k in before && before[k].futureId == next - 1;
        assert k in records && records[k].futureId == next - 1;
      }
    }

    method AllocateFutureId() returns (id: nat)
      modifies this`nextFutureId
      ensures id == old(nextFutureId) && nextFutureId == id + 1
    {
      id := nextFutureId;
      nextFutureId := nextFutureId + 1;
    }

    method GetCurrentFutureId() returns (id: nat)
      ensures id == CurrentFutureId(Abs())
    {
      id := 0;
      if nextFutureId > 1 {
        id := nextFutureId - 1;
      }
    }

    method SaveFuture(id: RequestId)
      modifies this`store
      ensures store == if id in records then old(store)[id := Serialized(records[id])] else old(store)
    {
      if id in records {
        store := store[id := Serialized(records[id])];
      }
    }

    method StoreRecord(id: RequestId, record: Record)
      modifies this`records, this`store
      ensures records == old(records)[id := record] && store == old(store)[id := Serialized(record)]
    {
      records := records[id := record];
      SaveFuture(id);
    }

    method EnqueueOperation(id: RequestId, user: UserId, model: Option<ModelId>, op: Option<OpType>)
      requires Enabled(Abs(), Enqueue(id, user, model, op))
      modifies this
      ensures Abs() == Step(old(Abs()), Enqueue(id, user, model, op))
    {
      var futureId := AllocateFutureId();
      StoreRecord(id, NewRecord(futureId, user, model, op));
      issued := issued + [id];
      runners := runners[id := Executing];
    }

    method CreateReadyFuture(id: RequestId, user: UserId, model: Option<ModelId>, payload: int)
      requires Enabled(Abs(), CreateReady(id, user, model, payload))
      modifies this
      ensures Abs() == Step(old(Abs()), CreateReady(id, user, model, payload))
    {
      var futureId := AllocateFutureId();
      StoreRecord(id, Record(futureId, model, user, None, Ready, Some(payload), None, true));
      issued := issued + [id];
    }

    /** The locked part of `_mark_ready` and `_mark_failed`. */
    method SetOutcome(id: RequestId, outcome: Outcome)
      requires Enabled(Abs(), Complete(id, outcome))
      modifies this
      ensures Abs() == Step(old(Abs()), Complete(id, outcome))
    {
      var record := records[id];
      match outcome {
        case Payload(value) =>
          record := record.(payload := Some(value));
          record := record.(status := Ready, error := None);
        case Failure(error) =>
          record := record.(status := Failed, error := Some(error));
      }
      records := records[id := record];
      runners := runners[id := Marked];
      departures := departures + [id];
    }

    /** The save, outside the lock. */
    method PersistOutcome(id: RequestId)
      requires Enabled(Abs(), Persist(id))
      modifies this
      ensures Abs() == Step(old(Abs()), Persist(id))
    {
      SaveFuture(id);
      runners := runners[id := Saved];
    }

    /** Waiters are woken last. */
    method SetEvent(id: RequestId)
      requires Enabled(Abs(), Signal(id))
      modifies this
      ensures Abs() == Step(old(Abs()), Signal(id))
    {
      records := records[id := records[id].(signalled := true)];
      runners := runners - {id};
    }

    /**
     * A retrieval, once its wait (if any) is over; `timedOut` says how a wait on a pending
     * record ended.  A stranger is refused, and leaves the record marked failed in memory.
     */
    method Retrieve(id: RequestId, user: UserId, timedOut: bool) returns (answer: Answer)
      modifies this`records
      ensures id !in old(records) ==> answer == NotFound && records == old(records)
      ensures id in old(records) && old(records)[id].user != user ==>
                answer == Mismatch && records == old(records)[id := old(records)[id].(status := Failed)]
      ensures id in old(records) && old(records)[id].user == user ==>
                && records == old(records)
                && answer == if old(records)[id].status == Pending && timedOut then TryAgain
                             else AnswerOf(old(records)[id])
    {
      if id !in records {
        return NotFound;
      }
      if records[id].user != user {
        records := records[id := records[id].(status := Failed)];
        return Mismatch;
      }
      if records[id].status == Pending && timedOut {
        return TryAgain;
      }
      if records[id].status == Failed && records[id].error.Some? {
        return Raise(records[id].error.value);
      }
      return Result(records[id].payload);
    }

    /** One record of a marking loop: status, error, event, save. */
    method FailRecord(ghost was: State, ghost done: set<RequestId>, id: RequestId, reason: Reason)
      requires Abs() == MarkFailed(was, done, reason) && id in was.records && id !in done
      modifies this
      ensures Abs() == MarkFailed(was, done + {id}, reason)
    {
      MarkOne(was, done, id, reason);
      var record := records[id].(status := Failed);
      record := record.(error := Some(Cancelled(id, reason)));
      records := records[id := record.(signalled := true)];
      SaveFuture(id);
    }

    /** One turn of a marking loop, which has `id` among the records still to do. */
    method MarkTurn(
      ghost was: State, ghost targets: set<RequestId>, ghost todo: set<RequestId>, id: RequestId, hit: bool,
      reason: Reason, count: nat)
      returns (count': nat)
      requires Abs() == MarkFailed(was, targets - todo, reason) && count == |targets - todo|
      requires id in was.records && id in todo && (hit <==> id in targets)
      modifies this
      ensures Abs() == MarkFailed(was, targets - (todo - {id}), reason) && count' == |targets - (todo - {id})|
    {
      Shrink(targets, todo, id);
      count' := count;
      if hit {
        FailRecord(was, targets - todo, id, reason);
        count' := count + 1;
      }
    }

    method MarkFuturesFailedAfterCheckpoint(model: Option<ModelId>, checkpoint: Option<nat>, reason: Reason)
      returns (count: nat)
      modifies this
      ensures Abs() == MarkFailed(old(Abs()), AfterCheckpoint(old(Abs()), model, checkpoint), reason)
      ensures count == |AfterCheckpoint(old(Abs()), model, checkpoint)|
    {
      ghost var was, targets := Abs(), AfterCheckpoint(Abs(), model, checkpoint);
      MarkNone(was, targets, reason);
      count := 0;
      var todo := records.Keys;
      while todo != {}
        invariant todo <= was.records.Keys
        invariant Abs() == MarkFailed(was, targets - todo, reason) && count == |targets - todo|
        decreases |todo|
      {
        var id :| id in todo;
        Unmarked(was, targets - todo, id, reason);
        var hit := records[id].model == model && (checkpoint.None? || records[id].futureId > checkpoint.value);
        count := MarkTurn(was, targets, todo, id, hit, reason, count);
        todo := todo - {id};
      }
      NoneLeft(targets, todo);
    }

    method MarkAllPendingFailed(reason: Reason) returns (count: nat)
      modifies this
      ensures Abs() == MarkFailed(old(Abs()), PendingOnes(old(Abs())), reason)
      ensures count == |PendingOnes(old(Abs()))|
    {
      ghost var was, targets := Abs(), PendingOnes(Abs());
      MarkNone(was, targets, reason);
      count := 0;
      var todo := records.Keys;
      while todo != {}
        invariant todo <= was.records.Keys
        invariant Abs() == MarkFailed(was, targets - todo, reason) && count == |targets - todo|
        decreases |todo|
      {
        var id :| id in todo;
        Unmarked(was, targets - todo, id, reason);
        var hit := records[id].status == Pending;
        count := MarkTurn(was, targets, todo, id, hit, reason, count);
        todo := todo - {id};
      }
      NoneLeft(targets, todo);
    }

    method MarkPendingSampleFuturesFailed(reason: Reason) returns (count: nat)
      modifies this
      ensures Abs() == MarkFailed(old(Abs()), PendingSamples(old(Abs())), reason)
      ensures count == |PendingSamples(old(Abs()))|
    {
      ghost var was, targets := Abs(), PendingSamples(Abs());
      MarkNone(was, targets, reason);
      count := 0;
      var todo := records.Keys;
      while todo != {}
        invariant todo <= was.records.Keys
        invariant Abs() == MarkFailed(was, targets - todo, reason) && count == |targets - todo|
        decreases |todo|
      {
        var id :| id in todo;
        Unmarked(was, targets - todo, id, reason);
        var hit := records[id].status == Pending && records[id].op == Some(Sample);
        count := MarkTurn(was, targets, todo, id, hit, reason, count);
        todo := todo - {id};
      }
      NoneLeft(targets, todo);
    }
  }

  /** The counter does not depend on the order in which records are loaded. */
  lemma NextUnique(m: nat, n: nat, loaded: map<RequestId, Record>, stored: map<RequestId, Record>)
    requires IsNext(m, loaded) && IsNext(n, stored)
    requires loaded == map id | id in stored :: Loaded(stored[id])
    ensures m == n
  {
    if m > 1 {
      var k :| k in loaded && loaded[k].futureId == m - 1;
      assert stored[k].futureId < n;
    }
    if n > 1 {
      var k :| k in stored && stored[k].futureId == n - 1;
      assert loaded[k].futureId < m;
    }
  }
}
