/** One padded micro-batch: what padding leaves alone, and the penalty it can add to the loss. */
module PaddingTheorems {
  import opened Wrappers
  import opened LossFn
  import opened MicroBatchSpec

  // One padded row

  /** The logprobs computed at the padded positions of row i. */
  function ExtraLogprobs(setup: Setup, data: seq<Datum>, i: nat): (extra: seq<real>)
    requires i < |data| && HasTokens(data)
    ensures |extra| == MaxLen(Tokens(data)) - |data[i].tokens.value|
  {
    assert |Tokens(data)[i]| <= MaxLen(Tokens(data));
    PaddedLogprobs(setup, data)[i][|data[i].tokens.value|..]
  }

  /** They are those of token 0, asked of the row padded with zeros to the longest input. */
  lemma ExtraIs(setup: Setup, data: seq<Datum>, i: nat, zeros: seq<nat>, q: nat)
    requires i < |data| && HasTokens(data) && q < |ExtraLogprobs(setup, data, i)|
    requires |data[i].input| + |zeros| == MaxLen(Inputs(data)) && forall k :: 0 <= k < |zeros| ==> zeros[k] == 0
    ensures ExtraLogprobs(setup, data, i)[q] == setup.model(data[i].input + zeros, |data[i].tokens.value| + q, 0)
  {
    assert |Tokens(data)[i]| <= MaxLen(Tokens(data)) && |Inputs(data)[i]| <= MaxLen(Inputs(data));
    assert Pad(Inputs(data), 0)[i] == data[i].input + zeros;
    assert Pad(Tokens(data), 0)[i][|data[i].tokens.value| + q] == 0;
  }

  lemma PrefixUnchanged(model: (seq<nat>, nat, nat) -> real, input: seq<nat>, tokens: seq<nat>, k: nat, j: nat)
    requires IgnoresPadding(model) && |tokens| <= |input|
    ensures RowLogprobs(model, input + Repeat(0, k), tokens + Repeat(0, j))[..|tokens|] == RowLogprobs(model, input, tokens)
  {
  }

  /** Inside the row, padding the inputs and the targets changes no logprob. */
  lemma RowUnchanged(setup: Setup, data: seq<Datum>, i: nat)
    requires i < |data| && IgnoresPadding(setup.model) && HasTokens(data) && WellFormed(setup, data[i])
    ensures PaddedLogprobs(setup, data)[i] == PlainOutput(setup, data[i]) + ExtraLogprobs(setup, data, i)
  {
    var d, lps, n := data[i], PaddedLogprobs(setup, data)[i], |data[i].tokens.value|;
    assert |Tokens(data)[i]| <= MaxLen(Tokens(data));
    assert |Inputs(data)[i]| <= MaxLen(Inputs(data));
    PrefixUnchanged(setup.model, d.input, d.tokens.value, MaxLen(Inputs(data)) - |d.input|, MaxLen(Tokens(data)) - n);
    assert lps == lps[..n] + lps[n..];
  }

  ghost function TailTerms(setup: Setup, extra: seq<real>): (terms: seq<real>)
    ensures |terms| == |extra|
  {
    Terms(setup.fn, setup.config, setup.exp, extra, Repeat(0.0, |extra|), Repeat(0.0, |extra|))
  }

  /** Terms of a row in two pieces. */
  lemma TermsSplit(
    setup: Setup, lps: seq<real>, extra: seq<real>, xs: seq<real>, ys: seq<real>, zeros: seq<real>)
    requires |xs| == |ys| == |lps| && zeros == Repeat(0.0, |extra|)
    ensures Terms(setup.fn, setup.config, setup.exp, lps + extra, xs + zeros, ys + zeros)
         == Terms(setup.fn, setup.config, setup.exp, lps, xs, ys) + TailTerms(setup, extra)
  {
  }

  function Squares(s: seq<real>): (squares: seq<real>)
    ensures |squares| == |s|
  {
    seq(|s|, p requires 0 <= p < |s| => Square(s[p]))
  }

  function HalfBeta(setup: Setup): real {
    if setup.fn.Dro? then 0.5 * Get(setup.config.beta, 0.01) else 0.0
  }

  /** What the padded positions of a row add to the loss. */
  ghost function Penalty(setup: Setup, extra: seq<real>): real {
    -SumOf(TailTerms(setup, extra))
  }

  /** It is nothing, or DRO's quadratic penalty. */
  lemma {:induction false} PenaltyIs(setup: Setup, extra: seq<real>)
    ensures Penalty(setup, extra) == HalfBeta(setup) * SumOf(Squares(extra))
  {
    if extra != [] {
      var rest, last := extra[..|extra| - 1], extra[|extra| - 1];
      PenaltyIs(setup, rest);
      PaddingIsSilent(setup.fn, setup.config, setup.exp, last);
      assert TailTerms(setup, extra)[..|extra| - 1] == TailTerms(setup, rest);
      SquaresSnoc(rest, last);
      assert extra == rest + [last];
      Distribute(HalfBeta(setup), SumOf(Squares(rest)), Square(last));
    }
  }

  lemma SquaresSnoc(s: seq<real>, x: real)
    ensures SumOf(Squares(s + [x])) == SumOf(Squares(s)) + Square(x)
  {
    assert Squares(s + [x])[..|s|] == Squares(s);
  }

  lemma Distribute(a: real, x: real, y: real)
    ensures a * (x + y) == a * x + a * y
  {
  }

  // One padded micro-batch

  lemma MaxLenMonotone<T, U>(rows: seq<seq<T>>, others: seq<seq<U>>)
    requires |rows| == |others| && forall i :: 0 <= i < |rows| ==> |rows[i]| <= |others[i]|
    ensures MaxLen(rows) <= MaxLen(others)
  {
  }

  ghost predicate AllWellFormed(setup: Setup, data: seq<Datum>) {
    forall i :: 0 <= i < |data| ==> WellFormed(setup, data[i])
  }

  /** Well-formed data pass every check of the micro-batch. */
  lemma ChecksPass(setup: Setup, data: seq<Datum>)
    requires data != [] && AllWellFormed(setup, data)
    ensures HasTokens(data) && WidthsFit(setup.wide, MaxLen(Tokens(data)), MaxLen(Inputs(data)))
  {
    forall i | 0 <= i < |data| ensures |Tokens(data)[i]| <= |Inputs(data)[i]| {
      assert WellFormed(setup, data[i]);
    }
    MaxLenMonotone(Tokens(data), Inputs(data));
    if setup.wide {
      forall i | 0 <= i < |data| ensures |Inputs(data)[i]| <= |Tokens(data)[i]| {
        assert WellFormed(setup, data[i]);
      }
      MaxLenMonotone(Inputs(data), Tokens(data));
    }
  }

  ghost predicate Fits(data: seq<Datum>, key: Key) {
    HasTokens(data) && HasKey(data, key) &&
    forall i :: 0 <= i < |data| ==> |data[i].floats[key]| == |data[i].tokens.value|
  }

  /** A float input is padded to the width of the targets, with zeros after the datum's own. */
  lemma PaddedColumn(data: seq<Datum>, key: Key, i: nat)
    requires Fits(data, key) && i < |data|
    ensures MaxLen(Column(data, key)) == MaxLen(Tokens(data)) >= |data[i].tokens.value|
    ensures Pad(Column(data, key), 0.0)[i]
         == data[i].floats[key] + Repeat(0.0, MaxLen(Tokens(data)) - |data[i].tokens.value|)
  {
    forall j | 0 <= j < |data| ensures |Column(data, key)[j]| == |Tokens(data)[j]| {
    }
    MaxLenMonotone(Tokens(data), Column(data, key));
    MaxLenMonotone(Column(data, key), Tokens(data));
    assert |Tokens(data)[i]| <= MaxLen(Tokens(data));
  }

  /** A padded row of datum d: its own entries, then `extra` logprobs against zeros. */
  ghost predicate IsPadded(setup: Setup, d: Datum, lps: seq<real>, xs: seq<real>, ys: seq<real>, extra: seq<real>)
    requires WellFormed(setup, d)
  {
    && lps == PlainOutput(setup, d) + extra
    && xs == d.floats[RequiredKeys(setup.fn)[0]] + Repeat(0.0, |extra|)
    && ys == d.floats[SecondKey(setup.fn)] + Repeat(0.0, |extra|)
  }

  /** The loss summed over a padded row. */
  lemma RowLoss(setup: Setup, d: Datum, lps: seq<real>, xs: seq<real>, ys: seq<real>, extra: seq<real>)
    requires WellFormed(setup, d) && IsPadded(setup, d, lps, xs, ys, extra)
    ensures |lps| == |xs| == |ys|
    ensures SumOf(Terms(setup.fn, setup.config, setup.exp, lps, xs, ys))
         == -PlainLoss(setup, d) - Penalty(setup, extra)
  {
    TermsSplit(setup, PlainOutput(setup, d), extra, d.floats[RequiredKeys(setup.fn)[0]], d.floats[SecondKey(setup.fn)],
               Repeat(0.0, |extra|));
    SumAppend(PlainTerms(setup, d), TailTerms(setup, extra));
  }

  ghost function Penalties(setup: Setup, extras: Tensor): (penalties: seq<real>)
    ensures |penalties| == |extras|
  {
    seq(|extras|, i requires 0 <= i < |extras| => Penalty(setup, extras[i]))
  }

  lemma {:induction false} SumCombine(a: seq<real>, b: seq<real>, c: seq<real>)
    requires |a| == |b| == |c| && forall i :: 0 <= i < |a| ==> a[i] == -b[i] - c[i]
    ensures SumOf(a) == -SumOf(b) - SumOf(c)
  {
    if a != [] {
      var n := |a| - 1;
      SumCombine(a[..n], b[..n], c[..n]);
    }
  }

  /** The loss summed over all padded rows. */
  lemma RowsLoss(setup: Setup, data: seq<Datum>, lps: Tensor, xs: Tensor, ys: Tensor, extras: Tensor)
    requires AllWellFormed(setup, data) && |lps| == |xs| == |ys| == |extras| == |data|
    requires forall i :: 0 <= i < |data| ==> IsPadded(setup, data[i], lps[i], xs[i], ys[i], extras[i])
    ensures SameShape(lps, xs) && SameShape(lps, ys)
    ensures -SumOf(RowSums(setup.fn, setup.config, setup.exp, lps, xs, ys))
         == SumOf(PlainLosses(setup, data)) + SumOf(Penalties(setup, extras))
  {
    forall i | 0 <= i < |data| ensures |lps[i]| == |xs[i]| == |ys[i]| {
      RowLoss(setup, data[i], lps[i], xs[i], ys[i], extras[i]);
    }
    var sums := RowSums(setup.fn, setup.config, setup.exp, lps, xs, ys);
    forall i | 0 <= i < |data|
      ensures sums[i] == -PlainLosses(setup, data)[i] - Penalties(setup, extras)[i]
    {
      RowLoss(setup, data[i], lps[i], xs[i], ys[i], extras[i]);
    }
    SumCombine(sums, PlainLosses(setup, data), Penalties(setup, extras));
  }

  /** The logprobs at the padded positions of each row. */
  function Extras(setup: Setup, data: seq<Datum>): (extras: Tensor)
    requires HasTokens(data)
    ensures |extras| == |data|
  {
    seq(|data|, i requires 0 <= i < |data| => ExtraLogprobs(setup, data, i))
  }

  lemma RowsArePadded(setup: Setup, data: seq<Datum>, i: nat)
    requires i < |data| && IgnoresPadding(setup.model) && AllWellFormed(setup, data)
    ensures HasTokens(data)
    ensures var key, second := RequiredKeys(setup.fn)[0], SecondKey(setup.fn);
            && Fits(data, key) && Fits(data, second)
            && IsPadded(setup, data[i], PaddedLogprobs(setup, data)[i], Pad(Column(data, key), 0.0)[i],
                        Pad(Column(data, second), 0.0)[i], Extras(setup, data)[i])
  {
    RowUnchanged(setup, data, i);
    PaddedColumn(data, RequiredKeys(setup.fn)[0], i);
    PaddedColumn(data, SecondKey(setup.fn), i);
  }

  /** The loss of the padded tensors is the plain one plus the penalties. */
  lemma PaddedLoss(setup: Setup, data: seq<Datum>)
    requires data != [] && IgnoresPadding(setup.model) && AllWellFormed(setup, data)
    ensures HasTokens(data) && Fits(data, RequiredKeys(setup.fn)[0]) && Fits(data, SecondKey(setup.fn))
    ensures LossesAre(setup, data, SumOf(PlainLosses(setup, data)) + SumOf(Penalties(setup, Extras(setup, data))))
  {
    var key, second := RequiredKeys(setup.fn)[0], SecondKey(setup.fn);
    RowsArePadded(setup, data, 0);
    var lps, xs, ys := PaddedLogprobs(setup, data), Pad(Column(data, key), 0.0), Pad(Column(data, second), 0.0);
    forall i | 0 <= i < |data| ensures IsPadded(setup, data[i], lps[i], xs[i], ys[i], Extras(setup, data)[i]) {
      RowsArePadded(setup, data, i);
    }
    RowsLoss(setup, data, lps, xs, ys, Extras(setup, data));
  }

  ghost predicate LossesAre(setup: Setup, data: seq<Datum>, loss: real)
    requires HasTokens(data) && HasKey(data, RequiredKeys(setup.fn)[0]) && HasKey(data, SecondKey(setup.fn))
  {
    var lps, xs, ys := PaddedLogprobs(setup, data), Pad(Column(data, RequiredKeys(setup.fn)[0]), 0.0),
                       Pad(Column(data, SecondKey(setup.fn)), 0.0);
    && SameShape(lps, xs) && SameShape(lps, ys)
    && loss == -SumOf(RowSums(setup.fn, setup.config, setup.exp, lps, xs, ys))
  }

  lemma LossIs(setup: Setup, data: seq<Datum>, loss: real)
    requires data != [] && HasEntries(data) && HasTokens(data)
    requires HasKey(data, RequiredKeys(setup.fn)[0]) && HasKey(data, SecondKey(setup.fn))
    requires LossesAre(setup, data, loss)
    ensures LossOf(setup.fn, setup.config, setup.exp, PaddedLogprobs(setup, data), PaddedInputs(data)) == Ok(loss)
  {
  }

  lemma MicroBatchIs(setup: Setup, data: seq<Datum>, loss: real)
    requires data != [] && HasEntries(data) && HasTokens(data)
    requires WidthsFit(setup.wide, MaxLen(Tokens(data)), MaxLen(Inputs(data)))
    requires LossOf(setup.fn, setup.config, setup.exp, PaddedLogprobs(setup, data), PaddedInputs(data)) == Ok(loss)
    ensures MicroBatch(setup, data).Ok? && MicroBatch(setup, data).value.loss == loss
    ensures MicroBatch(setup, data).value.outputs == Outputs(PaddedLogprobs(setup, data), data)
  {
  }

  /**
   * One padded micro-batch of well-formed data: it succeeds, its loss is the sum of the
   * unpadded losses plus the penalties of the padded positions, and row i of its outputs
   * is cut from padded row i.
   */
  lemma MicroBatchMeaning(setup: Setup, data: seq<Datum>)
    requires data != [] && HasEntries(data) && IgnoresPadding(setup.model) && AllWellFormed(setup, data)
    ensures HasTokens(data) && MicroBatch(setup, data).Ok?
    ensures MicroBatch(setup, data).value.loss
         == SumOf(PlainLosses(setup, data)) + SumOf(Penalties(setup, Extras(setup, data)))
    ensures MicroBatch(setup, data).value.outputs == Outputs(PaddedLogprobs(setup, data), data)
  {
    ChecksPass(setup, data);
    PaddedLoss(setup, data);
    var loss := SumOf(PlainLosses(setup, data)) + SumOf(Penalties(setup, Extras(setup, data)));
    LossIs(setup, data, loss);
    MicroBatchIs(setup, data, loss);
  }

  /** A padded row, cut to the length of the input, starts with the datum's own logprobs. */
  lemma OutputRow(setup: Setup, data: seq<Datum>, i: nat)
    requires i < |data| && IgnoresPadding(setup.model) && HasTokens(data) && WellFormed(setup, data[i])
    ensures var output, d := Outputs(PaddedLogprobs(setup, data), data)[i], data[i];
            && |d.tokens.value| <= |output|
            && |output| == (if |d.input| <= MaxLen(Tokens(data)) then |d.input| else MaxLen(Tokens(data)))
            && output[..|d.tokens.value|] == PlainOutput(setup, d)
  {
    RowUnchanged(setup, data, i);
    assert |Tokens(data)[i]| <= MaxLen(Tokens(data));
    var d, lps := data[i], PaddedLogprobs(setup, data)[i];
    assert lps[..|d.tokens.value|] == PlainOutput(setup, d);
  }

  // The run over micro-batches

  /** The output row of a datum in a micro-batch whose targets are `width` wide. */
  ghost predicate RowIs(setup: Setup, d: Datum, width: nat, output: seq<real>)
    requires WellFormed(setup, d)
  {
    && |d.tokens.value| <= |output| && |output| == (if |d.input| <= width then |d.input| else width)
    && output[..|d.tokens.value|] == PlainOutput(setup, d)
  }

  function Width(data: seq<Datum>): nat
    requires HasTokens(data)
  {
    MaxLen(Tokens(data))
  }

  /** What a micro-batch must yield: the plain losses, and a row for each datum. */
  ghost predicate Yields(setup: Setup, data: seq<Datum>, micro: Micro)
    requires AllWellFormed(setup, data) && HasTokens(data)
  {
    && micro.loss == SumOf(PlainLosses(setup, data)) + SumOf(Penalties(setup, Extras(setup, data)))
    && |micro.outputs| == |data|
    && forall i :: 0 <= i < |data| ==> RowIs(setup, data[i], Width(data), micro.outputs[i])
  }

  lemma MicroBatchYields(setup: Setup, data: seq<Datum>)
    requires data != [] && HasEntries(data) && IgnoresPadding(setup.model) && AllWellFormed(setup, data)
    ensures HasTokens(data) && MicroBatch(setup, data).Ok? && Yields(setup, data, MicroBatch(setup, data).value)
  {
    MicroBatchMeaning(setup, data);
    forall i | 0 <= i < |data|
      ensures RowIs(setup, data[i], Width(data), Outputs(PaddedLogprobs(setup, data), data)[i])
    {
      OutputRow(setup, data, i);
    }
  }
}
