/** Finite sets of sequence ids listed in ascending order. */
module Ordering {
  ghost predicate IsLeast(k: int, s: set<int>) {
    k in s && forall j :: j in s ==> k <= j
  }

  lemma Pick<T>(s: set<T>) returns (x: T)
    requires s != {}
    ensures x in s
  {
    x :| x in s;
  }

  lemma {:induction false} LeastExists(s: set<int>) returns (k: int)
    requires s != {}
    ensures IsLeast(k, s)
  {
    var x := Pick(s);
    if s == {x} {
      k := x;
    } else {
      var rest := s - {x};
      assert s == rest + {x};
      k := LeastExists(rest);
      if x < k {
        k := x;
      }
    }
  }

  ghost function Least(s: set<int>): (k: int)
    requires s != {}
    ensures IsLeast(k, s)
  {
    assert exists k :: IsLeast(k, s) by {
      var k := LeastExists(s);
    }
    var k :| IsLeast(k, s);
    k
  }

  ghost function Ascending(s: set<int>): seq<int>
    decreases |s|
  {
    if s == {} then [] else [Least(s)] + Ascending(s - {Least(s)})
  }

  ghost predicate StrictlyAscending(xs: seq<int>) {
    forall i, j :: 0 <= i < j < |xs| ==> xs[i] < xs[j]
  }

  /** The listing has exactly the members of the set, each once and in order. */
  lemma {:induction false} AscendingListing(s: set<int>)
    ensures StrictlyAscending(Ascending(s))
    ensures forall k :: k in Ascending(s) <==> k in s
    ensures |Ascending(s)| == |s|
    decreases |s|
  {
    if s != {} {
      var rest := s - {Least(s)};
      AscendingListing(rest);
      assert s == rest + {Least(s)};
      var tail := Ascending(rest);
      forall j | 0 <= j < |tail| ensures Least(s) < tail[j] {
        assert tail[j] in rest;
      }
    }
  }

  /** A set is listed in order by selecting its least member again and again. */
  method ListAscending(s: set<int>) returns (xs: seq<int>)
    ensures xs == Ascending(s)
  {
    xs := [];
    var rest := s;
    while rest != {}
      invariant xs + Ascending(rest) == Ascending(s)
      decreases |rest|
    {
      var k := SelectLeast(rest);
      assert Ascending(rest) == [k] + Ascending(rest - {k});
      xs := xs + [k];
      rest := rest - {k};
    }
  }

  method SelectLeast(s: set<int>) returns (k: int)
    requires s != {}
    ensures k == Least(s)
  {
    ghost var some := Pick(s);
    k :| k in s;
    var rest := s - {k};
    while rest != {}
      invariant rest <= s && k in s
      invariant forall j :: j in s && j !in rest ==> k <= j
      decreases |rest|
    {
      ghost var other := Pick(rest);
      var j :| j in rest;
      if j < k {
        k := j;
      }
      rest := rest - {j};
    }
  }
}
