/** Where padding shows: DRO's penalty, and the shape check that sees only padded shapes. */
module MicroBatchLimits {
  import opened Wrappers
  import opened LossFn
  import opened MicroBatchSpec
  import opened PaddingTheorems

  // When one micro-batch succeeds

  /** A micro-batch succeeds exactly when entries are there and padded widths agree. */
  ghost predicate PaddedWidthsAgree(setup: Setup, data: seq<Datum>)
    requires data != []
  {
    && HasEntries(data) && HasTokens(data)
    && WidthsFit(setup.wide, MaxLen(Tokens(data)), MaxLen(Inputs(data)))
    && var key, second := RequiredKeys(setup.fn)[0], SecondKey(setup.fn);
       && key in data[0].floats && MaxLen(Column(data, key)) == MaxLen(Tokens(data))
       && second in data[0].floats && MaxLen(Column(data, second)) == MaxLen(Tokens(data))
  }

  lemma ShapesAgree(setup: Setup, data: seq<Datum>, key: Key)
    requires data != [] && HasTokens(data) && HasKey(data, key)
    ensures SameShape(PaddedLogprobs(setup, data), Pad(Column(data, key), 0.0))
       <==> MaxLen(Column(data, key)) == MaxLen(Tokens(data))
  {
    assert |PaddedLogprobs(setup, data)[0]| == MaxLen(Tokens(data));
    assert |Pad(Column(data, key), 0.0)[0]| == MaxLen(Column(data, key));
  }

  lemma SucceedsWhenPaddedWidthsAgree(setup: Setup, data: seq<Datum>)
    requires data != []
    ensures MicroBatch(setup, data).Ok? <==> PaddedWidthsAgree(setup, data)
  {
    var key, second := RequiredKeys(setup.fn)[0], SecondKey(setup.fn);
    if HasEntries(data) && HasTokens(data) && key in data[0].floats && second in data[0].floats {
      ShapesAgree(setup, data, key);
      ShapesAgree(setup, data, second);
    }
  }

  /** The width of the longest row. */
  ghost predicate IsWidth<T>(rows: seq<seq<T>>, n: nat) {
    && (forall i :: 0 <= i < |rows| ==> |rows[i]| <= n)
    && (rows == [] ==> n == 0) && (rows != [] ==> exists i :: 0 <= i < |rows| && |rows[i]| == n)
  }

  ghost predicate Present(data: seq<Datum>)
    requires data != []
  {
    HasEntries(data) && HasTokens(data)
  }

  /** Entries are looked at first, then the widths of targets (t) and inputs (n). */
  lemma WhichWidthError(setup: Setup, data: seq<Datum>, t: nat, n: nat)
    requires data != [] && (HasTokens(data) ==> IsWidth(Tokens(data), t) && IsWidth(Inputs(data), n))
    ensures MicroBatch(setup, data) == Err(MissingEntry) <==> !Present(data)
    ensures MicroBatch(setup, data) == Err(WidthMismatch) <==>
            Present(data) && !(t <= n && (setup.wide ==> t == n))
  {
    if HasTokens(data) {
      SameWidth(Tokens(data), t);
      SameWidth(Inputs(data), n);
    }
  }

  /** Then the float inputs the loss needs, in order, and then their padded shapes. */
  lemma WhichInputError(setup: Setup, data: seq<Datum>)
    requires data != [] && Present(data) && MicroBatch(setup, data) != Err(WidthMismatch)
    ensures var r, first := MicroBatch(setup, data), if setup.fn.CrossEntropy? then Weights else Logprobs;
            var second := if setup.fn.CrossEntropy? then Weights else Advantages;
            && (first !in data[0].floats ==> r == Err(MissingInput(first)))
            && (first in data[0].floats && second !in data[0].floats ==> r == Err(MissingInput(second)))
            && (first in data[0].floats && second in data[0].floats ==> r.Ok? || r == Err(ShapeMismatch))
  {
    assert PaddedInputs(data).Keys == data[0].floats.Keys;
  }

  lemma SameWidth<T>(rows: seq<seq<T>>, n: nat)
    requires IsWidth(rows, n)
    ensures MaxLen(rows) == n
  {
  }

  // A datum on its own

  lemma PadOne<T>(row: seq<T>, zero: T)
    ensures MaxLen([row]) == |row| && Pad([row], zero) == [row]
  {
    assert [row][0] == row;
    assert Pad([row], zero)[0] == row;
  }

  ghost predicate AsLongAsTargets(d: Datum, key: Key) {
    d.tokens.Some? && key in d.floats && |d.floats[key]| == |d.tokens.value|
  }

  /**
   * Targets no longer than the input, and as long in the full-precision branch; a weight for
   * each target, or a sampling logprob and an advantage.
   */
  ghost predicate OwnTensorsFit(setup: Setup, d: Datum) {
    && d.tokens.Some? && |d.tokens.value| <= |d.input| && (setup.wide ==> |d.tokens.value| == |d.input|)
    && if setup.fn == CrossEntropy then AsLongAsTargets(d, Weights)
       else AsLongAsTargets(d, Logprobs) && AsLongAsTargets(d, Advantages)
  }

  /** Alone, a datum is processed exactly when its own tensors fit together. */
  lemma SoloSucceeds(setup: Setup, d: Datum)
    ensures MicroBatch(setup, [d]).Ok? <==> WellFormed(setup, d)
    ensures WellFormed(setup, d) <==> OwnTensorsFit(setup, d)
  {
    SucceedsWhenPaddedWidthsAgree(setup, [d]);
    var key, second := RequiredKeys(setup.fn)[0], SecondKey(setup.fn);
    if d.tokens.Some? && key in d.floats && second in d.floats {
      SoloRows(d, key);
      SoloRows(d, second);
      PadOne(d.floats[key], 0.0);
      PadOne(d.floats[second], 0.0);
      PadOne(d.tokens.value, 0);
      PadOne(d.input, 0);
    }
  }

  lemma SoloRows(d: Datum, key: Key)
    requires d.tokens.Some? && key in d.floats
    ensures Tokens([d]) == [d.tokens.value] && Inputs([d]) == [d.input] && Column([d], key) == [d.floats[key]]
  {
  }

  lemma SumOne(x: real)
    ensures SumOf([x]) == x
  {
    assert [x][..0] == [];
  }

  /** Nothing is padded then: the loss and the output are the plain ones. */
  lemma SoloIsPlain(setup: Setup, d: Datum)
    requires WellFormed(setup, d)
    ensures HasEntries([d]) && HasTokens([d])
    ensures PaddedLogprobs(setup, [d]) == [PlainOutput(setup, d)]
    ensures LossOf(setup.fn, setup.config, setup.exp, PaddedLogprobs(setup, [d]), PaddedInputs([d]))
         == Ok(PlainLoss(setup, d))
  {
    var key, second := RequiredKeys(setup.fn)[0], SecondKey(setup.fn);
    SoloRows(d, key);
    SoloRows(d, second);
    PadOne(d.floats[key], 0.0);
    PadOne(d.floats[second], 0.0);
    PadOne(d.tokens.value, 0);
    PadOne(d.input, 0);
    var lps := PaddedLogprobs(setup, [d]);
    assert lps == [PlainOutput(setup, d)];
    var sums := RowSums(setup.fn, setup.config, setup.exp, lps, [d.floats[key]], [d.floats[second]]);
    assert sums == [SumOf(PlainTerms(setup, d))];
    SumOne(SumOf(PlainTerms(setup, d)));
  }

  // DRO

  lemma ProductIsPositive(a: real, b: real, product: real)
    requires a > 0.0 && b > 0.0 && product == a * b
    ensures product > 0.0
  {
  }

  lemma SquareIsPositive(x: real, square: real)
    requires x != 0.0 && square == x * x
    ensures square > 0.0
  {
    if x > 0.0 {
      ProductIsPositive(x, x, square);
    } else {
      assert square == (-x) * (-x);
      ProductIsPositive(-x, -x, square);
    }
  }

  lemma SquareIsZero(x: real)
    ensures Square(x) >= 0.0 && (Square(x) == 0.0 <==> x == 0.0)
  {
    if x != 0.0 {
      SquareIsPositive(x, Square(x));
    }
  }

  lemma {:induction false} SumIsZero(s: seq<real>)
    requires forall i :: 0 <= i < |s| ==> s[i] >= 0.0
    ensures SumOf(s) >= 0.0 && (SumOf(s) == 0.0 <==> forall i :: 0 <= i < |s| ==> s[i] == 0.0)
  {
    if s != [] {
      var rest := s[..|s| - 1];
      SumIsZero(rest);
      assert forall i :: 0 <= i < |rest| ==> rest[i] == s[i];
    }
  }

  lemma SquaresAreZero(s: seq<real>)
    ensures SumOf(Squares(s)) >= 0.0
    ensures SumOf(Squares(s)) == 0.0 <==> forall p :: 0 <= p < |s| ==> s[p] == 0.0
  {
    forall p | 0 <= p < |s| ensures Squares(s)[p] >= 0.0 && (Squares(s)[p] == 0.0 <==> s[p] == 0.0) {
      SquareIsZero(s[p]);
    }
    SumIsZero(Squares(s));
  }

  /** For each row, the sum of its squares. */
  ghost function SquareSums(extras: Tensor): (sums: seq<real>)
    ensures |sums| == |extras|
  {
    seq(|extras|, i requires 0 <= i < |extras| => SumOf(Squares(extras[i])))
  }

  ghost predicate AllZero(extras: Tensor) {
    forall i, p :: 0 <= i < |extras| && 0 <= p < |extras[i]| ==> extras[i][p] == 0.0
  }

  lemma SquareSumsZero(extras: Tensor)
    ensures SumOf(SquareSums(extras)) == 0.0 <==> AllZero(extras)
  {
    forall i | 0 <= i < |extras|
      ensures SquareSums(extras)[i] >= 0.0
      ensures SquareSums(extras)[i] == 0.0 <==> forall p :: 0 <= p < |extras[i]| ==> extras[i][p] == 0.0
    {
      SquaresAreZero(extras[i]);
    }
    SumIsZero(SquareSums(extras));
  }

  ghost function Times(h: real, x: real): real {
    h * x
  }

  ghost function ScaledBy(h: real, s: seq<real>): (scaled: seq<real>)
    ensures |scaled| == |s|
  {
    seq(|s|, i requires 0 <= i < |s| => Times(h, s[i]))
  }

  lemma {:induction false} ScaledSum(h: real, s: seq<real>)
    ensures SumOf(ScaledBy(h, s)) == h * SumOf(s)
  {
    if s != [] {
      var n := |s| - 1;
      ScaledSum(h, s[..n]);
      assert ScaledBy(h, s)[..n] == ScaledBy(h, s[..n]);
      Distribute(h, SumOf(s[..n]), s[n]);
    }
  }

  lemma PenaltyAt(setup: Setup, extras: Tensor, i: nat)
    requires i < |extras|
    ensures Penalties(setup, extras)[i] == ScaledBy(HalfBeta(setup), SquareSums(extras))[i]
  {
    PenaltyIs(setup, extras[i]);
  }

  lemma PenaltiesAre(setup: Setup, extras: Tensor)
    ensures SumOf(Penalties(setup, extras)) == HalfBeta(setup) * SumOf(SquareSums(extras))
  {
    var penalties, scaled := Penalties(setup, extras), ScaledBy(HalfBeta(setup), SquareSums(extras));
    forall i | 0 <= i < |extras| ensures penalties[i] == scaled[i] {
      PenaltyAt(setup, extras, i);
    }
    assert penalties == scaled;
    ScaledSum(HalfBeta(setup), SquareSums(extras));
  }

  lemma ProductIsZero(a: real, x: real)
    ensures a * x == 0.0 <==> a == 0.0 || x == 0.0
  {
  }

  /** The penalty of DRO's padded positions vanishes exactly when beta, or all those logprobs, are zero. */
  lemma DroPenalty(setup: Setup, extras: Tensor)
    requires setup.fn.Dro?
    ensures SumOf(Penalties(setup, extras)) == 0.0 <==> Get(setup.config.beta, 0.01) == 0.0 || AllZero(extras)
  {
    PenaltiesAre(setup, extras);
    SquareSumsZero(extras);
    ProductIsZero(HalfBeta(setup), SumOf(SquareSums(extras)));
  }

  /**
   * DRO's loss is the unpadded one if and only if beta is zero or every logprob at a padded
   * position is zero: each padded position adds half beta times its squared logprob.
   */
  lemma DroDependsOnPadding(setup: Setup, data: seq<Datum>)
    requires setup.fn.Dro? && data != [] && HasEntries(data) && IgnoresPadding(setup.model) && AllWellFormed(setup, data)
    ensures HasTokens(data) && MicroBatch(setup, data).Ok?
    ensures MicroBatch(setup, data).value.loss == SumOf(PlainLosses(setup, data)) <==>
            Get(setup.config.beta, 0.01) == 0.0 || AllZero(Extras(setup, data))
  {
    MicroBatchMeaning(setup, data);
    DroPenalty(setup, Extras(setup, data));
  }

  // The shape check

  const SHORT_WEIGHTS := Datum([1, 1], Some([1, 1]), map[Weights := [1.0]])
  const LONG_WEIGHTS := Datum([1, 1], Some([1]), map[Weights := [1.0, 1.0]])

  lemma MaxLenPair<T>(a: seq<T>, b: seq<T>)
    ensures MaxLen([a, b]) == if |a| >= |b| then |a| else |b|
  {
    assert [a, b][0] == a && [a, b][1] == b;
  }

  lemma PaddedTogether(setup: Setup)
    requires setup.fn == CrossEntropy
    ensures PaddedWidthsAgree(setup, [SHORT_WEIGHTS, LONG_WEIGHTS])
  {
    var data := [SHORT_WEIGHTS, LONG_WEIGHTS];
    assert Tokens(data) == [[1, 1], [1]] && Inputs(data) == [[1, 1], [1, 1]];
    assert Column(data, Weights) == [[1.0], [1.0, 1.0]];
    MaxLenPair([1, 1], [1]);
    MaxLenPair([1, 1], [1, 1]);
    MaxLenPair([1.0], [1.0, 1.0]);
  }

  /** Two data that each fail the shape check pass it together, padded to the same width. */
  lemma BadShapesCanPass(setup: Setup)
    requires setup.fn == CrossEntropy
    ensures MicroBatch(setup, [SHORT_WEIGHTS]).Err? && MicroBatch(setup, [LONG_WEIGHTS]).Err?
    ensures MicroBatch(setup, [SHORT_WEIGHTS, LONG_WEIGHTS]).Ok?
  {
    SoloSucceeds(setup, SHORT_WEIGHTS);
    SoloSucceeds(setup, LONG_WEIGHTS);
    PaddedTogether(setup);
    SucceedsWhenPaddedWidthsAgree(setup, [SHORT_WEIGHTS, LONG_WEIGHTS]);
  }
}
