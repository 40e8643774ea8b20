/** The future store while recovery fails records in it, one at a time. */
module RecoveryStore {
  import opened Wrappers
  import F = FutureSpec
  import FT = FutureTheorems
  import opened RecoverySpec

  lemma SameMap<K, V>(m: map<K, V>, n: map<K, V>)
    requires m.Keys == n.Keys && forall k :: k in m ==> m[k] == n[k]
    ensures m == n
  {
  }

  /** Two states hold the same record and the same stored copy under `id`. */
  ghost predicate SameAt(s: F.State, t: F.State, id: F.RequestId) {
    && (id in s.records <==> id in t.records) && (id in s.records ==> s.records[id] == t.records[id])
    && (id in s.store <==> id in t.store) && (id in s.store ==> s.store[id] == t.store[id])
  }

  lemma SameState(s: F.State, t: F.State)
    requires forall id :: SameAt(s, t, id)
    requires s.nextId == t.nextId && s.runners == t.runners
    requires s.issued == t.issued && s.departures == t.departures
    ensures s == t
  {
    assert forall id :: id in s.records <==> id in t.records by {
      forall id ensures id in s.records <==> id in t.records {
        assert SameAt(s, t, id);
      }
    }
    assert forall id :: id in s.store <==> id in t.store by {
      forall id ensures id in s.store <==> id in t.store {
        assert SameAt(s, t, id);
      }
    }
    forall id | id in s.records ensures s.records[id] == t.records[id] {
      assert SameAt(s, t, id);
    }
    forall id | id in s.store ensures s.store[id] == t.store[id] {
      assert SameAt(s, t, id);
    }
    SameMap(s.records, t.records);
    SameMap(s.store, t.store);
  }

  lemma WithFailedInv(s: F.State, id: F.RequestId, reason: F.Reason)
    requires FT.Inv(s) && s.runners == map[] && id in s.records
    ensures FT.Inv(WithFailed(s, id, reason))
  {
    var s' := WithFailed(s, id, reason);
    assert s'.records.Keys == s.records.Keys && s'.store.Keys == s.store.Keys;
    assert FT.RecordOk(s, id);
    assert FT.RecordOk(s', id);
    FT.InvUpdate(s, s', id);
  }

  lemma MarkedRecord(s: F.State, marks: Marks, id: F.RequestId)
    requires id in s.records && id in s.store && FT.RecordOk(s, id) && id !in s.runners
    ensures var s' := Marked(s, marks);
            && id in s'.records && id in s'.store && FT.RecordOk(s', id)
            && FT.SameIdentity(s'.records[id], s.records[id])
            && s'.records[id].payload == s.records[id].payload
            && (id !in marks ==> s'.records[id] == s.records[id] && s'.store[id] == s.store[id])
            && (id in marks ==> s'.records[id] == F.FailedBy(s.records[id], id, marks[id])
                                && s'.store[id] == F.Serialized(s'.records[id]))
  {
  }

  /** Failing one more record adds one more mark. */
  lemma MarkMore(s: F.State, marks: Marks, id: F.RequestId, reason: F.Reason)
    requires id in s.records && s.records.Keys == s.store.Keys
    ensures id in Marked(s, marks).records
    ensures Marked(s, marks[id := reason]) == WithFailed(Marked(s, marks), id, reason)
  {
    var more, failed := Marked(s, marks[id := reason]), WithFailed(Marked(s, marks), id, reason);
    forall k ensures SameAt(more, failed, k) {
      assert k in s.records <==> k in s.store;
    }
    SameState(more, failed);
  }

  lemma MarkedNothing(s: F.State)
    ensures Marked(s, map[]) == s
  {
    forall id ensures SameAt(Marked(s, map[]), s, id) {
    }
    SameState(Marked(s, map[]), s);
  }

  /** With no runner alive a record is its stored copy, loaded. */
  lemma RecordIsLoaded(s: F.State, id: F.RequestId)
    requires FT.Inv(s) && s.runners == map[] && id in s.records
    ensures id in s.store && s.records[id] == F.Loaded(s.store[id]) && s.store[id] == F.Serialized(s.records[id])
  {
    assert FT.RecordOk(s, id);
  }
}
