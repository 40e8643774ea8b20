/** What each loss function makes of a position, in numbers, and how positions add up. */
module LossMeaning {
  import opened Wrappers
  import opened Reals
  import opened LossFn
  import opened MicroBatchSpec
  import opened PaddingTheorems
  import opened MicroBatchTheorems
  import opened MicroBatchLimits

  // One position among silent ones

  ghost predicate ZeroBut(s: seq<real>, p: nat) {
    forall i :: 0 <= i < |s| && i != p ==> s[i] == 0.0
  }

  lemma {:induction false} SumOfOne(s: seq<real>, p: nat)
    requires p < |s| && ZeroBut(s, p)
    ensures SumOf(s) == s[p]
  {
    var n := |s| - 1;
    if p == n {
      SumZero(s[..n]);
    } else {
      SumOfOne(s[..n], p);
    }
  }

  /** The input that scales a position: its weight, or its advantage. */
  function Scale(fn: LossFnType): Key {
    if fn.CrossEntropy? then Weights else Advantages
  }

  lemma TermsAt(setup: Setup, d: Datum, i: nat)
    requires WellFormed(setup, d) && i < |d.tokens.value|
    ensures Scale(setup.fn) in d.floats && |d.floats[Scale(setup.fn)]| == |d.tokens.value|
    ensures setup.fn.CrossEntropy? || (Logprobs in d.floats && |d.floats[Logprobs]| == |d.tokens.value|)
    ensures PlainTerms(setup, d)[i]
         == Term(setup.fn, setup.config, setup.exp, PlainOutput(setup, d)[i],
                 d.floats[if setup.fn.CrossEntropy? then Weights else Logprobs][i], d.floats[Scale(setup.fn)][i])
  {
  }

  /** Without DRO, a position of scale 0 is silent. */
  lemma SilentElsewhere(setup: Setup, d: Datum, p: nat)
    requires WellFormed(setup, d) && !setup.fn.Dro? && p < |d.tokens.value|
    requires Scale(setup.fn) in d.floats && ZeroBut(d.floats[Scale(setup.fn)], p)
    ensures PlainLoss(setup, d) == -PlainTerms(setup, d)[p]
  {
    var terms := PlainTerms(setup, d);
    forall i | 0 <= i < |terms| && i != p ensures terms[i] == 0.0 {
      TermsAt(setup, d, i);
    }
    SumOfOne(terms, p);
  }

  /** Cross-entropy of one position: minus its logprob times its weight. */
  lemma CrossEntropyOfOne(setup: Setup, d: Datum, p: nat)
    requires setup.fn.CrossEntropy? && WellFormed(setup, d) && p < |d.tokens.value|
    requires Weights in d.floats && ZeroBut(d.floats[Weights], p)
    ensures PlainLoss(setup, d) == -(PlainOutput(setup, d)[p] * d.floats[Weights][p])
    ensures d.floats[Weights][p] == 1.0 ==> PlainLoss(setup, d) == -PlainOutput(setup, d)[p]
  {
    SilentElsewhere(setup, d, p);
    TermsAt(setup, d, p);
  }

  // The policy losses, off policy

  function LowClip(config: Config): real {
    match config.clipLow case None => 0.9 case Some(low) => low
  }

  function HighClip(config: Config): real {
    match config.clipHigh case None => 1.1 case Some(high) => high
  }

  function Beta(config: Config): real {
    match config.beta case None => 0.01 case Some(beta) => beta
  }

  /** One position has an advantage; `ratio` is how much likelier its token is now than when sampled. */
  ghost predicate OneAdvantage(setup: Setup, d: Datum, p: nat, ratio: real) {
    && WellFormed(setup, d) && !setup.fn.CrossEntropy? && p < |d.tokens.value|
    && Advantages in d.floats && Logprobs in d.floats
    && |d.floats[Advantages]| == |d.floats[Logprobs]| == |d.tokens.value|
    && ZeroBut(d.floats[Advantages], p)
    && ratio == setup.exp(PlainOutput(setup, d)[p] - d.floats[Logprobs][p])
  }

  /** Importance sampling: the ratio per unit of advantage. */
  lemma ImportanceSamplingOfOne(setup: Setup, d: Datum, p: nat, ratio: real)
    requires OneAdvantage(setup, d, p, ratio) && setup.fn.ImportanceSampling?
    ensures PlainLoss(setup, d) == -(ratio * d.floats[Advantages][p])
  {
    SilentElsewhere(setup, d, p);
    TermsAt(setup, d, p);
  }

  /** CISPO: the logprob weighted by the ratio, kept within the clipping range. */
  lemma CispoOfOne(setup: Setup, d: Datum, p: nat, ratio: real)
    requires OneAdvantage(setup, d, p, ratio) && setup.fn.Cispo?
    ensures var lp, a := PlainOutput(setup, d)[p], d.floats[Advantages][p];
            var low, high, loss := LowClip(setup.config), HighClip(setup.config), PlainLoss(setup, d);
            && (low <= ratio <= high ==> loss == -(ratio * lp * a))
            && (ratio < low <= high ==> loss == -(low * lp * a))
            && (ratio > high || low > high ==> loss == -(high * lp * a))
  {
    SilentElsewhere(setup, d, p);
    TermsAt(setup, d, p);
  }

  lemma ScaleByNegative(x: real, y: real, a: real)
    requires x < y && a < 0.0
    ensures x * a > y * a
  {
    ScaleLess(x, y, -a);
  }

  lemma SmallerProduct(x: real, y: real, a: real)
    requires x <= y
    ensures a >= 0.0 ==> Min(x * a, y * a) == Min(y * a, x * a) == x * a
    ensures a <= 0.0 ==> Min(x * a, y * a) == Min(y * a, x * a) == y * a
  {
    if x < y && a > 0.0 {
      ScaleLess(x, y, a);
    } else if x < y && a < 0.0 {
      ScaleByNegative(x, y, a);
    }
  }

  /**
   * PPO: as importance sampling inside the clipping range.  Above it a gain counts with the
   * upper bound and a loss in full; below it a gain counts in full and a loss with the lower
   * bound.
   */
  ghost predicate PpoPays(low: real, high: real, ratio: real, a: real, objective: real) {
    if low <= high then
      && (low <= ratio <= high ==> objective == ratio * a)
      && (ratio > high ==> objective == if a > 0.0 then high * a else ratio * a)
      && (ratio < low ==> objective == if a > 0.0 then ratio * a else low * a)
    else
      // Crossed bounds: torch clamps everything to the upper one.
      objective == if ratio <= high <==> a > 0.0 then ratio * a else high * a
  }

  function Smaller(x: real, y: real, a: real): real {
    Min(x * a, y * a)
  }

  lemma PpoIs(config: Config, exp: real -> real, lp: real, slp: real, a: real)
    ensures Term(Ppo, config, exp, lp, slp, a)
         == Smaller(exp(lp - slp), Clamp(exp(lp - slp), LowClip(config), HighClip(config)), a)
  {
  }

  lemma PpoTerm(low: real, high: real, ratio: real, a: real)
    ensures PpoPays(low, high, ratio, a, Smaller(ratio, Clamp(ratio, low, high), a))
  {
    if ratio > high {
      SmallerProduct(high, ratio, a);
    } else if low > high {
      SmallerProduct(ratio, high, a);
    } else if ratio < low {
      SmallerProduct(ratio, low, a);
    }
  }

  lemma PpoPlain(setup: Setup, d: Datum, p: nat, ratio: real)
    requires OneAdvantage(setup, d, p, ratio) && setup.fn.Ppo?
    ensures var a, clamped := d.floats[Advantages][p], Clamp(ratio, LowClip(setup.config), HighClip(setup.config));
            PlainLoss(setup, d) == -Smaller(ratio, clamped, a)
  {
    SilentElsewhere(setup, d, p);
    TermsAt(setup, d, p);
    PpoIs(setup.config, setup.exp, PlainOutput(setup, d)[p], d.floats[Logprobs][p], d.floats[Advantages][p]);
  }

  lemma PpoOfOne(setup: Setup, d: Datum, p: nat, ratio: real)
    requires OneAdvantage(setup, d, p, ratio) && setup.fn.Ppo?
    ensures PpoPays(LowClip(setup.config), HighClip(setup.config), ratio, d.floats[Advantages][p], -PlainLoss(setup, d))
  {
    PpoPlain(setup, d, p, ratio);
    PpoTerm(LowClip(setup.config), HighClip(setup.config), ratio, d.floats[Advantages][p]);
  }

  function Differences(xs: seq<real>, ys: seq<real>): (differences: seq<real>)
    requires |xs| == |ys|
    ensures |differences| == |xs|
  {
    seq(|xs|, i requires 0 <= i < |xs| => xs[i] - ys[i])
  }

  lemma DroTerm(config: Config, exp: real -> real, lp: real, slp: real, a: real)
    ensures Term(Dro, config, exp, lp, slp, a) + Times(0.5 * Beta(config), Square(lp - slp)) == Times(lp, a)
    ensures a == 0.0 ==> Times(lp, a) == 0.0
  {
  }

  /** What each position gains: its logprob per unit of advantage. */
  ghost function Gains(lps: seq<real>, advantages: seq<real>): (gains: seq<real>)
    requires |lps| == |advantages|
    ensures |gains| == |lps|
  {
    seq(|lps|, i requires 0 <= i < |lps| => Times(lps[i], advantages[i]))
  }

  lemma DroTerms(setup: Setup, d: Datum, p: nat, ratio: real)
    requires OneAdvantage(setup, d, p, ratio) && setup.fn.Dro?
    ensures var lps, terms := PlainOutput(setup, d), PlainTerms(setup, d);
            var paid := ScaledBy(0.5 * Beta(setup.config), Squares(Differences(lps, d.floats[Logprobs])));
            var gains := Gains(lps, d.floats[Advantages]);
            ZeroBut(gains, p) && |terms| == |paid| && forall i :: 0 <= i < |gains| ==> gains[i] == terms[i] + paid[i]
  {
    var lps := PlainOutput(setup, d);
    forall i | 0 <= i < |lps|
      ensures PlainTerms(setup, d)[i] + Times(0.5 * Beta(setup.config), Square(lps[i] - d.floats[Logprobs][i]))
           == Times(lps[i], d.floats[Advantages][i])
      ensures d.floats[Advantages][i] == 0.0 ==> Times(lps[i], d.floats[Advantages][i]) == 0.0
    {
      TermsAt(setup, d, i);
      DroTerm(setup.config, setup.exp, lps[i], d.floats[Logprobs][i], d.floats[Advantages][i]);
    }
  }

  lemma ScaledTimes(h: real, s: seq<real>)
    ensures SumOf(ScaledBy(h, s)) == Times(h, SumOf(s))
  {
    ScaledSum(h, s);
  }

  /** The sum of what is gained, less what is paid. */
  lemma GainsLessPaid(terms: seq<real>, paid: seq<real>, gains: seq<real>, p: nat)
    requires |terms| == |paid| == |gains| && p < |gains| && ZeroBut(gains, p)
    requires forall i :: 0 <= i < |gains| ==> gains[i] == terms[i] + paid[i]
    ensures SumOf(terms) == gains[p] - SumOf(paid)
  {
    SumPointwise(terms, paid, gains);
    SumOfOne(gains, p);
  }

  /** DRO: the logprob per unit of advantage, and half beta times the squared drift of every position. */
  lemma DroOfOne(setup: Setup, d: Datum, p: nat, ratio: real)
    requires OneAdvantage(setup, d, p, ratio) && setup.fn.Dro?
    ensures var lps, drift := PlainOutput(setup, d), Differences(PlainOutput(setup, d), d.floats[Logprobs]);
            PlainLoss(setup, d)
            == Times(0.5 * Beta(setup.config), SumOf(Squares(drift))) - Times(lps[p], d.floats[Advantages][p])
  {
    var lps, squares := PlainOutput(setup, d), Squares(Differences(PlainOutput(setup, d), d.floats[Logprobs]));
    DroTerms(setup, d, p, ratio);
    GainsLessPaid(PlainTerms(setup, d), ScaledBy(0.5 * Beta(setup.config), squares), Gains(lps, d.floats[Advantages]), p);
    ScaledTimes(0.5 * Beta(setup.config), squares);
  }

  // Additivity

  /** The datum with other weights, or other advantages. */
  function WithScale(setup: Setup, d: Datum, scale: seq<real>): Datum {
    d.(floats := d.floats[Scale(setup.fn) := scale])
  }

  lemma {:induction false} SumPointwise(a: seq<real>, b: seq<real>, c: seq<real>)
    requires |a| == |b| == |c| && forall i :: 0 <= i < |a| ==> c[i] == a[i] + b[i]
    ensures SumOf(c) == SumOf(a) + SumOf(b)
  {
    if a != [] {
      var n := |a| - 1;
      SumPointwise(a[..n], b[..n], c[..n]);
    }
  }

  lemma TermAdds(fn: LossFnType, config: Config, exp: real -> real, lp: real, slp: real, a: real, b: real)
    ensures Term(CrossEntropy, config, exp, lp, a + b, a + b)
         == Term(CrossEntropy, config, exp, lp, a, a) + Term(CrossEntropy, config, exp, lp, b, b)
    ensures fn.ImportanceSampling? || fn.Cispo? ==>
              Term(fn, config, exp, lp, slp, a + b)
              == Term(fn, config, exp, lp, slp, a) + Term(fn, config, exp, lp, slp, b)
  {
    Distribute(lp, a, b);
    var ratio := exp(lp - slp);
    Distribute(ratio, a, b);
    Distribute(Clamp(ratio, Get(config.clipLow, 0.9), Get(config.clipHigh, 1.1)) * lp, a, b);
  }

  /** Cross-entropy is additive in the weights; importance sampling and CISPO are in the advantages. */
  lemma LossAdds(setup: Setup, d: Datum, a: seq<real>, b: seq<real>, c: seq<real>)
    requires setup.fn.CrossEntropy? || setup.fn.ImportanceSampling? || setup.fn.Cispo?
    requires WellFormed(setup, d) && |a| == |b| == |c| == |d.tokens.value|
    requires forall i :: 0 <= i < |c| ==> c[i] == a[i] + b[i]
    ensures WellFormed(setup, WithScale(setup, d, a)) && WellFormed(setup, WithScale(setup, d, b))
    ensures WellFormed(setup, WithScale(setup, d, c))
    ensures PlainLoss(setup, WithScale(setup, d, c))
         == PlainLoss(setup, WithScale(setup, d, a)) + PlainLoss(setup, WithScale(setup, d, b))
  {
    var da, db, dc := WithScale(setup, d, a), WithScale(setup, d, b), WithScale(setup, d, c);
    forall i | 0 <= i < |c| ensures PlainTerms(setup, dc)[i] == PlainTerms(setup, da)[i] + PlainTerms(setup, db)[i] {
      var lp := PlainOutput(setup, d)[i];
      TermsAt(setup, da, i);
      TermsAt(setup, db, i);
      TermsAt(setup, dc, i);
      TermAdds(setup.fn, setup.config, setup.exp, lp,
               if setup.fn.CrossEntropy? then 0.0 else d.floats[Logprobs][i], a[i], b[i]);
    }
    SumPointwise(PlainTerms(setup, da), PlainTerms(setup, db), PlainTerms(setup, dc));
  }

  // The whole call

  ghost predicate Unweighted(d: Datum) {
    Weights in d.floats && forall i :: 0 <= i < |d.floats[Weights]| ==> d.floats[Weights][i] == 0.0
  }

  lemma UnweightedLoss(setup: Setup, d: Datum)
    requires setup.fn.CrossEntropy? && WellFormed(setup, d) && Unweighted(d)
    ensures PlainLoss(setup, d) == 0.0
  {
    var terms := PlainTerms(setup, d);
    forall i | 0 <= i < |terms| ensures terms[i] == 0.0 {
      TermsAt(setup, d, i);
    }
    SumZero(terms);
  }

  lemma {:induction false} UnweightedSum(setup: Setup, data: seq<Datum>)
    requires setup.fn.CrossEntropy? && AllWellFormed(setup, data)
    requires forall j :: 0 <= j < |data| ==> Unweighted(data[j])
    ensures PlainSum(setup, data) == 0.0
  {
    if data != [] {
      var n := |data| - 1;
      UnweightedSum(setup, data[..n]);
      UnweightedLoss(setup, data[n]);
    }
  }

  lemma {:induction false} OneWeightedSum(setup: Setup, data: seq<Datum>, i: nat)
    requires setup.fn.CrossEntropy? && AllWellFormed(setup, data) && i < |data|
    requires forall j :: 0 <= j < |data| && j != i ==> Unweighted(data[j])
    ensures PlainSum(setup, data) == PlainLoss(setup, data[i])
  {
    var n := |data| - 1;
    if i == n {
      UnweightedSum(setup, data[..n]);
    } else {
      OneWeightedSum(setup, data[..n], i);
      UnweightedLoss(setup, data[n]);
    }
  }

  /** One position of one datum has weight 1, all others 0. */
  ghost predicate OneToken(data: seq<Datum>, i: nat, p: nat) {
    && i < |data| && Weights in data[i].floats && p < |data[i].floats[Weights]|
    && ZeroBut(data[i].floats[Weights], p) && data[i].floats[Weights][p] == 1.0
    && forall j :: 0 <= j < |data| && j != i ==> Unweighted(data[j])
  }

  lemma OneTokenSum(setup: Setup, data: seq<Datum>, i: nat, p: nat)
    requires AllWellFormed(setup, data) && setup.fn.CrossEntropy? && OneToken(data, i, p)
    ensures data[i].tokens.Some? && p < |data[i].tokens.value|
    ensures PlainSum(setup, data) == -setup.model(data[i].input, p, data[i].tokens.value[p])
  {
    OneWeightedSum(setup, data, i);
    CrossEntropyOfOne(setup, data[i], p);
  }

  /**
   * A batch in which one position of one datum has weight 1 and all others 0: whatever the
   * micro-batch size, the call's `loss:sum` is minus the model's logprob at that position.
   */
  lemma OneTokenCall(setup: Setup, data: seq<Datum>, size: nat, table: Reducers, i: nat, p: nat)
    requires size > 0 && Sound(setup, data, size) && SumsValues(table) && setup.fn.CrossEntropy? && OneToken(data, i, p)
    ensures data[i].tokens.Some? && p < |data[i].tokens.value|
    ensures ForwardResult(setup, data, size, table).Ok?
    ensures ForwardResult(setup, data, size, table).value.metrics
         == map[LOSS_SUM := -setup.model(data[i].input, p, data[i].tokens.value[p])]
  {
    OneTokenSum(setup, data, i, p);
    SumsTo(setup, data, size, table, -setup.model(data[i].input, p, data[i].tokens.value[p]));
  }

  lemma SumsTo(setup: Setup, data: seq<Datum>, size: nat, table: Reducers, loss: real)
    requires size > 0 && data != [] && Sound(setup, data, size) && SumsValues(table) && setup.fn.CrossEntropy?
    requires PlainSum(setup, data) == loss
    ensures ForwardResult(setup, data, size, table).Ok?
    ensures ForwardResult(setup, data, size, table).value.metrics == map[LOSS_SUM := loss]
  {
    LossPreserved(setup, data, size, table);
  }
}
