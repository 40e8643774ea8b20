/** How many times a positive length fits into another. */
module Reals {
  /** The least integer not below x. */
  ghost function Ceil(x: real): int {
    if x.Floor as real == x then x.Floor else x.Floor + 1
  }

  lemma ScaleLess(a: real, b: real, k: real)
    requires a < b && k > 0.0
    ensures a * k < b * k
  {
  }

  lemma DivideBack(x: real, k: real)
    requires k > 0.0
    ensures x / k * k == x
  {
  }

  lemma ScaledAtMost(a: real, b: real, k: real)
    requires k > 0.0 && a * k <= b * k
    ensures a <= b
  {
    if a > b {
      ScaleLess(b, a, k);
    }
  }

  lemma CeilBounds(n: int, x: real)
    ensures n as real <= x ==> n <= Ceil(x)
    ensures n as real < x ==> n < Ceil(x)
  {
  }

  lemma MultipleAtMost(n: int, k: real, total: real)
    requires k > 0.0 && n as real * k <= total
    ensures n <= Ceil(total / k)
  {
    DivideBack(total, k);
    ScaledAtMost(n as real, total / k, k);
    CeilBounds(n, total / k);
  }

  lemma MultipleBelow(n: int, k: real, total: real)
    requires k > 0.0 && n as real * k < total
    ensures n < Ceil(total / k)
  {
    DivideBack(total, k);
    ScaledAtMost(n as real, total / k, k);
    CeilBounds(n, total / k);
  }
}
