/** Facts about cutting a sequence into consecutive blocks. */
module Seqs {
  ghost function Flatten<T>(ss: seq<seq<T>>): seq<T> {
    if ss == [] then [] else Flatten(ss[..|ss| - 1]) + ss[|ss| - 1]
  }

  lemma FlattenSnoc<T>(ss: seq<seq<T>>, s: seq<T>)
    ensures Flatten(ss + [s]) == Flatten(ss) + s
  {
    assert (ss + [s])[..|ss|] == ss;
  }

  ghost predicate AllOfLength<T>(ss: seq<seq<T>>, k: nat) {
    forall b :: 0 <= b < |ss| ==> |ss[b]| == k
  }

  lemma {:induction false} FlattenAtMost<T>(ss: seq<seq<T>>, k: nat)
    requires forall b :: 0 <= b < |ss| ==> |ss[b]| <= k
    ensures |Flatten(ss)| <= |ss| * k
  {
    if ss != [] {
      FlattenAtMost(ss[..|ss| - 1], k);
      assert |ss| * k == (|ss| - 1) * k + k;
    }
  }

  lemma {:induction false} FlattenExactly<T>(ss: seq<seq<T>>, k: nat)
    requires AllOfLength(ss, k)
    ensures |Flatten(ss)| == |ss| * k
  {
    if ss != [] {
      FlattenExactly(ss[..|ss| - 1], k);
      assert |ss| * k == (|ss| - 1) * k + k;
    }
  }

  /** When every block before block b has length k, element j of block b sits at b * k + j. */
  lemma {:induction false} FlattenIndex<T>(ss: seq<seq<T>>, k: nat, b: nat, j: nat)
    requires b < |ss| && j < |ss[b]|
    requires forall x :: 0 <= x < b ==> |ss[x]| == k
    ensures b * k + j < |Flatten(ss)|
    ensures Flatten(ss)[b * k + j] == ss[b][j]
  {
    var front := ss[..|ss| - 1];
    if b < |ss| - 1 {
      FlattenIndex(front, k, b, j);
    } else {
      FlattenExactly(front, k);
    }
  }

  lemma MulMonotone(a: nat, b: nat, k: nat)
    requires a <= b
    ensures a * k <= b * k
  {
    assert (b - a) * k >= 0;
  }

  lemma MulGap(a: nat, b: nat, k: nat)
    requires a < b
    ensures a * k + k <= b * k
  {
    MulMonotone(a + 1, b, k);
    assert (a + 1) * k == a * k + k;
  }

  /** Position i = b * k + j with j < k lies in block b, at offset j. */
  lemma DivideIndex(i: nat, k: nat, b: nat, j: nat)
    requires i == b * k + j && j < k
    ensures i / k == b && i % k == j
  {
    var q := i / k;
    assert i == q * k + i % k;
    if q < b {
      MulGap(q, b, k);
    } else if q > b {
      MulGap(b, q, k);
    }
  }

  lemma BlockShift(n: nat, m: nat, k: nat)
    requires k > 0
    ensures (n * k + m) / k == n + m / k
  {
    var q := m / k;
    assert m == q * k + m % k;
    assert (n + q) * k == n * k + q * k;
    DivideIndex(n * k + m, k, n + q, m % k);
  }

  /** Position b * k + j lies in block b, also when the last block is short. */
  lemma WithinBlock(b: nat, j: nat, k: nat, n: nat, last: nat)
    requires j < k && last <= k && b * k + j < n * k + last
    ensures b <= n && (b == n ==> j < last)
  {
    if b > n {
      MulGap(n, b, k);
    }
  }

  /** When only the last block may be short, element b * k + j is element j of block b. */
  lemma FlattenAt<T>(ss: seq<seq<T>>, k: nat, b: nat, j: nat)
    requires ss != [] && AllOfLength(ss[..|ss| - 1], k) && |ss[|ss| - 1]| <= k
    requires j < k && b * k + j < |Flatten(ss)|
    ensures b < |ss| && j < |ss[b]| && ss[b][j] == Flatten(ss)[b * k + j]
  {
    var front, n := ss[..|ss| - 1], |ss| - 1;
    FlattenExactly(front, k);
    WithinBlock(b, j, k, n, |ss[n]|);
    forall x | 0 <= x < b ensures |ss[x]| == k {
      assert ss[x] == front[x];
    }
    FlattenIndex(ss, k, b, j);
  }

  lemma DivMod(i: nat, k: nat)
    requires k > 0
    ensures i == i / k * k + i % k && 0 <= i % k < k
  {
  }
}
