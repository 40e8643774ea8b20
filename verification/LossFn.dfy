/** The loss functions, and the reduction of the metrics of several batches. */
module LossFn {
  import opened Wrappers

  datatype LossFnType = CrossEntropy | ImportanceSampling | Cispo | Ppo | Dro

  datatype Key = Weights | Logprobs | Advantages | Other(name: nat)

  datatype Error =
    | MissingInput(key: Key)
    | MissingEntry
    | ShapeMismatch
    | WidthMismatch
    | UnknownReduction(reduction: Reduction)
    | ZeroDivision

  /** The entries of a loss configuration; None where the caller gave none. */
  datatype Config = Config(clipLow: Option<real>, clipHigh: Option<real>, beta: Option<real>)

  type Tensor = seq<seq<real>>

  function SumOf(s: seq<real>): real {
    if s == [] then 0.0 else SumOf(s[..|s| - 1]) + s[|s| - 1]
  }

  lemma {:induction false} SumAppend(s: seq<real>, t: seq<real>)
    ensures SumOf(s + t) == SumOf(s) + SumOf(t)
  {
    if t == [] {
      assert s + t == s;
    } else {
      SumAppend(s, t[..|t| - 1]);
      assert (s + t)[..|s + t| - 1] == s + t[..|t| - 1];
    }
  }

  lemma {:induction false} SumZero(s: seq<real>)
    requires forall i :: 0 <= i < |s| ==> s[i] == 0.0
    ensures SumOf(s) == 0.0
  {
    if s != [] {
      SumZero(s[..|s| - 1]);
    }
  }

  function Min(x: real, y: real): real {
    if x <= y then x else y
  }

  function Clamp(x: real, low: real, high: real): real {
    Min(if x >= low then x else low, high)
  }

  function Square(x: real): real {
    x * x
  }

  function Get(o: Option<real>, default: real): real {
    if o.Some? then o.value else default
  }

  // Loss functions

  function RequiredKeys(fn: LossFnType): (keys: seq<Key>)
    ensures |keys| >= 1
  {
    if fn.CrossEntropy? then [Weights] else [Logprobs, Advantages]
  }

  /** The objective at one position: `x` is the weight or the sampling logprob, `y` the advantage. */
  function Term(fn: LossFnType, config: Config, exp: real -> real, lp: real, x: real, y: real): real {
    var ratio := exp(lp - x);
    var clipped := Clamp(ratio, Get(config.clipLow, 0.9), Get(config.clipHigh, 1.1));
    match fn
    case CrossEntropy => lp * x
    case ImportanceSampling => ratio * y
    case Cispo => clipped * lp * y
    case Ppo => Min(ratio * y, clipped * y)
    case Dro => lp * y - 0.5 * Get(config.beta, 0.01) * Square(lp - x)
  }

  /** A zero weight or a zero advantage silences a position, except in DRO. */
  lemma PaddingIsSilent(fn: LossFnType, config: Config, exp: real -> real, lp: real)
    ensures !fn.Dro? ==> Term(fn, config, exp, lp, 0.0, 0.0) == 0.0
    ensures fn.Dro? ==> Term(fn, config, exp, lp, 0.0, 0.0) == -(0.5 * Get(config.beta, 0.01) * Square(lp))
  {
  }

  function Terms(fn: LossFnType, config: Config, exp: real -> real, lps: seq<real>, xs: seq<real>, ys: seq<real>)
    : (terms: seq<real>)
    requires |xs| == |lps| && |ys| == |lps|
    ensures |terms| == |lps|
  {
    seq(|lps|, p requires 0 <= p < |lps| => Term(fn, config, exp, lps[p], xs[p], ys[p]))
  }

  predicate SameShape(t: Tensor, u: Tensor) {
    |t| == |u| && forall i :: 0 <= i < |t| ==> |t[i]| == |u[i]|
  }

  /** The inputs of the i-th row; cross entropy has no second one. */
  function SecondKey(fn: LossFnType): Key {
    if fn.CrossEntropy? then Weights else Advantages
  }

  function RowSums(fn: LossFnType, config: Config, exp: real -> real, lps: Tensor, xs: Tensor, ys: Tensor)
    : (sums: seq<real>)
    requires SameShape(lps, xs) && SameShape(lps, ys)
    ensures |sums| == |lps|
  {
    seq(|lps|, i requires 0 <= i < |lps| => SumOf(Terms(fn, config, exp, lps[i], xs[i], ys[i])))
  }

  function LossOf(fn: LossFnType, config: Config, exp: real -> real, lps: Tensor, inputs: map<Key, Tensor>)
    : Result<real, Error>
  {
    var keys := RequiredKeys(fn);
    if keys[0] !in inputs then Err(MissingInput(keys[0]))
    else if SecondKey(fn) !in inputs then Err(MissingInput(SecondKey(fn)))
    else if !SameShape(lps, inputs[keys[0]]) || !SameShape(lps, inputs[SecondKey(fn)]) then Err(ShapeMismatch)
    else Ok(-SumOf(RowSums(fn, config, exp, lps, inputs[keys[0]], inputs[SecondKey(fn)])))
  }

  // Metrics

  /** The part of a metric's name after the colon; `UniqueAt(i)` is "unique_i". */
  datatype Reduction = Sum | Mean | Slack | Unique | UniqueAt(index: nat) | Named(name: nat)

  datatype MetricKey = MetricKey(name: nat, reduction: Reduction)

  type Metrics = map<MetricKey, real>

  const LOSS_SUM := MetricKey(0, Sum)

  /** The table of reduction functions; it has no entry for a numbered name. */
  datatype Reducers = Reducers(
    known: set<Reduction>,
    plain: (Reduction, seq<real>) -> real,
    weighted: (Reduction, seq<real>, seq<real>) -> real)
  {
    ghost predicate Valid() {
      forall r :: r in known ==> !r.UniqueAt?
    }
  }

  predicate Shared(list: seq<Metrics>, key: MetricKey) {
    forall m :: m in list ==> key in m
  }

  function ValuesOf(list: seq<Metrics>, key: MetricKey): (values: seq<real>)
    requires Shared(list, key)
    ensures |values| == |list|
  {
    seq(|list|, i requires 0 <= i < |list| => list[i][key])
  }

  function Numbered(key: MetricKey, index: nat): MetricKey {
    key.(reduction := UniqueAt(index))
  }

  /** The metric that a reported one comes from. */
  function Base(key: MetricKey): MetricKey {
    if key.reduction.UniqueAt? then key.(reduction := Unique) else key
  }

  /** What is reported: metrics every batch has; for `unique`, one more per later batch. */
  ghost predicate Reported(key: MetricKey, done: set<MetricKey>, list: seq<Metrics>) {
    && Base(key) in done && Shared(list, Base(key))
    && (key.reduction.UniqueAt? ==> 1 <= key.reduction.index < |list|)
  }

  ghost function ReportedValue(key: MetricKey, list: seq<Metrics>, weights: seq<real>, table: Reducers): real
    requires list != [] && Shared(list, Base(key))
    requires key.reduction.UniqueAt? ==> 1 <= key.reduction.index < |list|
  {
    var values := ValuesOf(list, Base(key));
    match key.reduction
    case Mean => table.weighted(Mean, values, weights)
    case Slack => table.weighted(Slack, values, weights)
    case Unique => values[0]
    case UniqueAt(i) => values[i]
    case _ => table.plain(key.reduction, values)
  }

  function LaterValues(key: MetricKey, values: seq<real>): (m: Metrics)
    ensures forall k :: k in m <==> k.reduction.UniqueAt? && k == Numbered(key, k.reduction.index)
                                    && 1 <= k.reduction.index < |values|
    ensures forall k :: k in m ==> m[k] == values[k.reduction.index]
  {
    map i: nat | 1 <= i < |values| :: Numbered(key, i) := values[i]
  }

  ghost predicate Reduces(result: Metrics, done: set<MetricKey>, list: seq<Metrics>, weights: seq<real>, table: Reducers)
    requires list != []
  {
    && (forall k :: k in result <==> Reported(k, done, list))
    && (forall k :: k in result && Reported(k, done, list) ==> result[k] == ReportedValue(k, list, weights, table))
  }

  lemma ReducesSkip(
    result: Metrics, done: set<MetricKey>, key: MetricKey, list: seq<Metrics>, weights: seq<real>, table: Reducers)
    requires list != [] && Reduces(result, done, list, weights, table) && !Shared(list, key)
    ensures Reduces(result, done + {key}, list, weights, table)
  {
    forall k ensures Reported(k, done + {key}, list) <==> Reported(k, done, list) {
    }
  }

  lemma ReducesOne(
    result: Metrics, done: set<MetricKey>, key: MetricKey, list: seq<Metrics>, weights: seq<real>, table: Reducers)
    requires list != [] && Reduces(result, done, list, weights, table) && key !in done && Shared(list, key)
    requires !key.reduction.Unique? && !key.reduction.UniqueAt?
    ensures Reduces(result[key := ReportedValue(key, list, weights, table)], done + {key}, list, weights, table)
  {
    forall k ensures Reported(k, done + {key}, list) <==> Reported(k, done, list) || k == key {
    }
  }

  lemma ReducesUnique(
    result: Metrics, done: set<MetricKey>, key: MetricKey, list: seq<Metrics>, weights: seq<real>, table: Reducers)
    requires list != [] && Reduces(result, done, list, weights, table) && key !in done && Shared(list, key)
    requires key.reduction.Unique?
    ensures var values := ValuesOf(list, key);
            Reduces(result[key := values[0]] + LaterValues(key, values), done + {key}, list, weights, table)
  {
    var later := LaterValues(key, ValuesOf(list, key));
    forall k ensures Reported(k, done + {key}, list) <==> Reported(k, done, list) || k == key || k in later {
    }
    forall k | k in later ensures !Reported(k, done, list) {
      assert Base(k) == key;
    }
  }

  /**
   * Metrics every batch has are reduced by their kind; the others are dropped; a kind the
   * table does not know, among the first batch's metrics, is an error.
   */
  method MetricsReduction(list: seq<Metrics>, weights: seq<real>, table: Reducers)
    returns (r: Result<Metrics, Error>)
    requires table.Valid()
    ensures list == [] ==> r == Ok(map[])
    ensures list != [] ==> (r.Ok? <==> forall k :: k in list[0] ==> k.reduction in table.known)
    ensures r.Err? ==> exists k :: k in list[0] && k.reduction !in table.known && r.error == UnknownReduction(k.reduction)
    ensures list != [] && r.Ok? ==> Reduces(r.value, list[0].Keys, list, weights, table)
  {
    if list == [] {
      return Ok(map[]);
    }
    var keys := list[0].Keys;
    var result: Metrics := map[];
    while keys != {}
      invariant keys <= list[0].Keys
      invariant forall k :: k in list[0] && k !in keys ==> k.reduction in table.known
      invariant Reduces(result, list[0].Keys - keys, list, weights, table)
      decreases |keys|
    {
      var key :| key in keys;
      keys := keys - {key};
      if key.reduction !in table.known {
        return Err(UnknownReduction(key.reduction));
      }
      ghost var done := list[0].Keys - keys - {key};
      assert list[0].Keys - keys == done + {key};
      if Shared(list, key) {
        var values := ValuesOf(list, key);
        if key.reduction == Unique {
          ReducesUnique(result, done, key, list, weights, table);
          result := result[key := values[0]] + LaterValues(key, values);
        } else if key.reduction == Mean || key.reduction == Slack {
          ReducesOne(result, done, key, list, weights, table);
          result := result[key := table.weighted(key.reduction, values, weights)];
        } else {
          ReducesOne(result, done, key, list, weights, table);
          result := result[key := table.plain(key.reduction, values)];
        }
      } else {
        ReducesSkip(result, done, key, list, weights, table);
      }
    }
    return Ok(result);
  }
}
