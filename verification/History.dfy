/** The sampling history of a session and the index it is rebuilt from. */
module History {
  import opened Wrappers
  import opened Ordering

  datatype Entry = Entry(seqId: int, promptTokens: nat, promptHash: int, createdAt: int)

  /** An index files every entry under its own sequence id. */
  ghost predicate Filed(index: map<int, Entry>) {
    forall k :: k in index ==> index[k].seqId == k
  }

  /** The index as a list in ascending id order. */
  ghost function Listing(index: map<int, Entry>): (history: seq<Entry>)
    ensures |history| == |Ascending(index.Keys)|
  {
    var ids := Ascending(index.Keys);
    AscendingListing(index.Keys);
    seq(|ids|, i requires 0 <= i < |ids| => assert ids[i] in ids; index[ids[i]])
  }

  /** Filing entries one after the other; a later one replaces an earlier one of the same id. */
  function IndexOf(entries: seq<Entry>): map<int, Entry> {
    if entries == [] then map[]
    else
      var e := entries[|entries| - 1];
      IndexOf(entries[..|entries| - 1])[e.seqId := e]
  }

  function Max(a: int, b: int): int {
    if a < b then b else a
  }

  /** The greatest id seen, or `floor` when none is greater. */
  function LastId(floor: int, entries: seq<Entry>): int {
    if entries == [] then floor
    else Max(LastId(floor, entries[..|entries| - 1]), entries[|entries| - 1].seqId)
  }

  lemma {:induction false} IndexOfFiled(entries: seq<Entry>)
    ensures Filed(IndexOf(entries))
  {
    if entries != [] {
      IndexOfFiled(entries[..|entries| - 1]);
    }
  }

  /** `e` is what the stream recorded last under its id. */
  ghost predicate IsLatest(entries: seq<Entry>, i: nat) {
    && i < |entries|
    && forall j :: i < j < |entries| ==> entries[j].seqId != entries[i].seqId
  }

  lemma {:induction false} IndexHoldsLatest(entries: seq<Entry>, i: nat)
    requires IsLatest(entries, i)
    ensures entries[i].seqId in IndexOf(entries) && IndexOf(entries)[entries[i].seqId] == entries[i]
  {
    if i < |entries| - 1 {
      assert entries[|entries| - 1].seqId != entries[i].seqId;
      IndexHoldsLatest(entries[..|entries| - 1], i);
    }
  }

  lemma {:induction false} IndexedWasRecorded(entries: seq<Entry>, k: int) returns (i: nat)
    requires k in IndexOf(entries)
    ensures IsLatest(entries, i) && entries[i] == IndexOf(entries)[k]
  {
    IndexOfFiled(entries);
    if entries[|entries| - 1].seqId == k {
      i := |entries| - 1;
    } else {
      i := IndexedWasRecorded(entries[..|entries| - 1], k);
      IndexOfFiled(entries[..|entries| - 1]);
    }
  }

  lemma {:induction false} LastIdIsMax(floor: int, entries: seq<Entry>)
    ensures LastId(floor, entries) >= floor
    ensures forall i :: 0 <= i < |entries| ==> entries[i].seqId <= LastId(floor, entries)
    ensures LastId(floor, entries) == floor
            || exists i :: 0 <= i < |entries| && entries[i].seqId == LastId(floor, entries)
  {
    if entries != [] {
      LastIdIsMax(floor, entries[..|entries| - 1]);
    }
  }

  /** The listing is strictly sorted and contains exactly the indexed entries. */
  lemma ListingSorted(index: map<int, Entry>)
    requires Filed(index)
    ensures var history := Listing(index);
            && (forall i, j :: 0 <= i < j < |history| ==> history[i].seqId < history[j].seqId)
            && (forall e: Entry :: e in history <==> e.seqId in index && index[e.seqId] == e)
  {
    AscendingListing(index.Keys);
    var ids, history := Ascending(index.Keys), Listing(index);
    forall i | 0 <= i < |ids| ensures history[i].seqId == ids[i] {
      assert ids[i] in ids;
    }
    forall e: Entry | e.seqId in index && index[e.seqId] == e ensures e in history {
      assert e.seqId in ids;
      var i :| 0 <= i < |ids| && ids[i] == e.seqId;
      assert history[i] == e;
    }
  }

  /** Rebuilding the index from a saved listing gives back the same index. */
  lemma RebuildRoundTrip(index: map<int, Entry>)
    requires Filed(index)
    ensures IndexOf(Listing(index)) == index
  {
    var history := Listing(index);
    ListingSorted(index);
    IndexOfFiled(history);
    forall k | k in IndexOf(history) ensures k in index && index[k] == IndexOf(history)[k] {
      var i := IndexedWasRecorded(history, k);
      assert history[i] in history;
    }
    forall k | k in index ensures k in IndexOf(history) {
      assert index[k] in history;
      var i :| 0 <= i < |history| && history[i] == index[k];
      IndexHoldsLatest(history, i);
    }
  }

  /** A restart changes nothing: the rebuilt index and last id are those of the saved session. */
  lemma RestartKeepsSession(entries: seq<Entry>)
    ensures var index := IndexOf(entries);
            && IndexOf(Listing(index)) == index
            && LastId(LastId(-1, entries), Listing(index)) == LastId(-1, entries)
  {
    var index := IndexOf(entries);
    var last, history := LastId(-1, entries), Listing(index);
    IndexOfFiled(entries);
    RebuildRoundTrip(index);
    ListingSorted(index);
    LastIdIsMax(last, history);
    LastIdIsMax(-1, entries);
    forall i | 0 <= i < |history| ensures history[i].seqId <= last {
      assert history[i] in history;
      var j := IndexedWasRecorded(entries, history[i].seqId);
    }
  }

  /** When ids are distinct, the order in which calls reach the history does not matter. */
  lemma OrderIrrelevant(xs: seq<Entry>, ys: seq<Entry>)
    requires multiset(xs) == multiset(ys)
    requires forall i, j :: 0 <= i < j < |xs| ==> xs[i].seqId != xs[j].seqId
    requires forall i, j :: 0 <= i < j < |ys| ==> ys[i].seqId != ys[j].seqId
    ensures IndexOf(xs) == IndexOf(ys)
  {
    forall k | k in IndexOf(xs) ensures k in IndexOf(ys) && IndexOf(ys)[k] == IndexOf(xs)[k] {
      SharedEntry(xs, ys, k);
    }
    forall k | k in IndexOf(ys) ensures k in IndexOf(xs) {
      SharedEntry(ys, xs, k);
    }
  }

  lemma SharedEntry(xs: seq<Entry>, ys: seq<Entry>, k: int)
    requires multiset(xs) == multiset(ys) && k in IndexOf(xs)
    requires forall i, j :: 0 <= i < j < |ys| ==> ys[i].seqId != ys[j].seqId
    ensures k in IndexOf(ys) && IndexOf(ys)[k] == IndexOf(xs)[k]
  {
    IndexOfFiled(xs);
    var i := IndexedWasRecorded(xs, k);
    assert xs[i] in multiset(ys);
    var j :| 0 <= j < |ys| && ys[j] == xs[i];
    IndexHoldsLatest(ys, j);
  }

  method ListEntries(index: map<int, Entry>) returns (history: seq<Entry>)
    ensures history == Listing(index)
  {
    var ids := ListAscending(index.Keys);
    AscendingListing(index.Keys);
    history := [];
    for i := 0 to |ids|
      invariant |history| == i && forall j :: 0 <= j < i ==> ids[j] in index && history[j] == index[ids[j]]
    {
      assert ids[i] in ids;
      history := history + [index[ids[i]]];
    }
  }

  /** One sampling session: the list that is saved, and the index kept beside it. */
  class SamplingSession {
    var history: seq<Entry>
    var historyBySeqId: map<int, Entry>
    var lastSeqId: int
    ghost var recorded: seq<Entry>

    /** Everything recorded is reflected, entry for entry, in list, index and last id. */
    ghost predicate Valid()
      reads this
    {
      && historyBySeqId == IndexOf(recorded)
      && history == Listing(historyBySeqId)
      && lastSeqId == LastId(-1, recorded)
    }

    constructor ()
      ensures Valid() && recorded == []
    {
      history, historyBySeqId, lastSeqId, recorded := [], map[], -1, [];
    }

    method RecordSequence(entry: Entry)
      requires Valid()
      modifies this
      ensures Valid() && recorded == old(recorded) + [entry]
    {
      historyBySeqId := historyBySeqId[entry.seqId := entry];
      recorded := recorded + [entry];
      assert recorded[..|recorded| - 1] == old(recorded);
      history := ListEntries(historyBySeqId);
      lastSeqId := Max(lastSeqId, entry.seqId);
    }

    /**
     * What a restart does with whatever list and last id were saved: file the list, raise
     * the last id.  A session that was saved after a recording comes back as it was.
     */
    method RebuildHistoryIndex()
      modifies this
      ensures historyBySeqId == IndexOf(history) && lastSeqId == LastId(old(lastSeqId), history)
      ensures history == old(history) && recorded == old(recorded)
      ensures old(history) == Listing(IndexOf(recorded)) && old(lastSeqId) == LastId(-1, recorded)
              ==> Valid() && lastSeqId == old(lastSeqId)
    {
      historyBySeqId := map[];
      var greatest := lastSeqId;
      for i := 0 to |history|
        invariant i <= |history| && historyBySeqId == IndexOf(history[..i])
        invariant greatest == LastId(lastSeqId, history[..i])
        invariant history == old(history) && lastSeqId == old(lastSeqId) && recorded == old(recorded)
      {
        assert history[..i + 1][..i] == history[..i];
        historyBySeqId := historyBySeqId[history[i].seqId := history[i]];
        greatest := Max(greatest, history[i].seqId);
      }
      assert history[..|history|] == history;
      lastSeqId := greatest;
      RestartKeepsSession(recorded);
    }
  }
}
