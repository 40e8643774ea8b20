/** The forward pass of a batch: padding one micro-batch, and running micro-batches in turn. */
module MicroBatchSpec {
  import opened Wrappers
  import opened LossFn
  import opened Seqs

  /** A training example: `target_tokens` and the float inputs of the loss. */
  datatype Datum = Datum(input: seq<nat>, tokens: Option<seq<nat>>, floats: map<Key, seq<real>>)

  /**
   * What a call is run with.  `model(row, p, t)` is the logprob of target `t` at position
   * `p` of an input row.  `wide` is the full-precision branch, which insists that targets
   * are as wide as inputs.
   */
  datatype Setup = Setup(
    fn: LossFnType,
    config: Config,
    exp: real -> real,
    model: (seq<nat>, nat, nat) -> real,
    wide: bool)

  datatype Micro = Micro(loss: real, outputs: seq<seq<real>>)

  // Padding

  function MaxLen<T>(rows: seq<seq<T>>): (n: nat)
    ensures forall i :: 0 <= i < |rows| ==> |rows[i]| <= n
    ensures rows != [] ==> exists i :: 0 <= i < |rows| && |rows[i]| == n
  {
    if rows == [] then 0
    else
      var rest := MaxLen(rows[..|rows| - 1]);
      var last := rows[|rows| - 1];
      assert rest <= |last| || exists i :: 0 <= i < |rows| - 1 && |rows[..|rows| - 1][i]| == rest && |rows[i]| == rest;
      if rest <= |last| then |last| else rest
  }

  function Repeat<T>(x: T, n: nat): (s: seq<T>)
    ensures |s| == n && forall i :: 0 <= i < n ==> s[i] == x
  {
    seq(n, _ => x)
  }

  function PadRow<T>(row: seq<T>, zero: T, width: nat): (padded: seq<T>)
    requires |row| <= width
    ensures |padded| == width
  {
    row + Repeat(zero, width - |row|)
  }

  function Pad<T>(rows: seq<seq<T>>, zero: T): (padded: seq<seq<T>>)
    ensures |padded| == |rows| && forall i :: 0 <= i < |rows| ==> |padded[i]| == MaxLen(rows)
  {
    seq(|rows|, i requires 0 <= i < |rows| => PadRow(rows[i], zero, MaxLen(rows)))
  }

  /** A slice of a row never reaches past its end. */
  function Unpad(row: seq<real>, length: nat): seq<real> {
    row[..if length <= |row| then length else |row|]
  }

  // One micro-batch

  function Inputs(data: seq<Datum>): (rows: seq<seq<nat>>)
    ensures |rows| == |data|
  {
    seq(|data|, i requires 0 <= i < |data| => data[i].input)
  }

  predicate HasTokens(data: seq<Datum>) {
    forall i :: 0 <= i < |data| ==> data[i].tokens.Some?
  }

  predicate HasKey(data: seq<Datum>, key: Key) {
    forall i :: 0 <= i < |data| ==> key in data[i].floats
  }

  /** Every datum has the entries of the first one; what others have besides is ignored. */
  predicate HasEntries(data: seq<Datum>)
    requires data != []
  {
    && (forall i :: 0 <= i < |data| ==> data[0].floats.Keys <= data[i].floats.Keys)
    && (data[0].tokens.Some? ==> HasTokens(data))
  }

  function Tokens(data: seq<Datum>): (rows: seq<seq<nat>>)
    requires HasTokens(data)
    ensures |rows| == |data|
  {
    seq(|data|, i requires 0 <= i < |data| => data[i].tokens.value)
  }

  function Column(data: seq<Datum>, key: Key): (rows: Tensor)
    requires HasKey(data, key)
    ensures |rows| == |data|
  {
    seq(|data|, i requires 0 <= i < |data| => data[i].floats[key])
  }

  function PaddedInputs(data: seq<Datum>): (inputs: map<Key, Tensor>)
    requires data != [] && HasEntries(data)
    ensures inputs.Keys == data[0].floats.Keys
  {
    map key | key in data[0].floats :: Pad(Column(data, key), 0.0)
  }

  function RowLogprobs(model: (seq<nat>, nat, nat) -> real, input: seq<nat>, tokens: seq<nat>): (lps: seq<real>)
    ensures |lps| == |tokens|
  {
    seq(|tokens|, p requires 0 <= p < |tokens| => model(input, p, tokens[p]))
  }

  function TargetLogprobs(model: (seq<nat>, nat, nat) -> real, inputs: seq<seq<nat>>, tokens: seq<seq<nat>>): (lps: Tensor)
    requires |inputs| == |tokens|
    ensures |lps| == |tokens|
  {
    seq(|tokens|, i requires 0 <= i < |tokens| => RowLogprobs(model, inputs[i], tokens[i]))
  }

  function Outputs(lps: Tensor, data: seq<Datum>): (outputs: seq<seq<real>>)
    requires |lps| == |data|
    ensures |outputs| == |data|
  {
    seq(|data|, i requires 0 <= i < |data| => Unpad(lps[i], |data[i].input|))
  }

  /** Targets wider than the inputs cannot be gathered; the wide branch wants equal widths. */
  predicate WidthsFit(wide: bool, targets: nat, inputs: nat) {
    targets <= inputs && (wide ==> targets == inputs)
  }

  function PaddedLogprobs(setup: Setup, data: seq<Datum>): (lps: Tensor)
    requires HasTokens(data)
    ensures |lps| == |data|
  {
    TargetLogprobs(setup.model, Pad(Inputs(data), 0), Pad(Tokens(data), 0))
  }

  function MicroBatch(setup: Setup, data: seq<Datum>): Result<Micro, Error>
    requires data != []
  {
    if !HasEntries(data) || data[0].tokens.None? then Err(MissingEntry)
    else if !WidthsFit(setup.wide, MaxLen(Tokens(data)), MaxLen(Inputs(data))) then Err(WidthMismatch)
    else
      var lps := PaddedLogprobs(setup, data);
      match LossOf(setup.fn, setup.config, setup.exp, lps, PaddedInputs(data))
      case Err(error) => Err(error)
      case Ok(loss) => Ok(Micro(loss, Outputs(lps, data)))
  }

  // The loop over micro-batches

  function MicroBatchCount(batchSize: nat, size: nat): nat
    requires size != 0
  {
    (batchSize + size - 1) / size
  }

  /** How many data the first k micro-batches cover. */
  function Covered(n: nat, size: nat, k: nat): nat {
    if k * size <= n then k * size else n
  }

  function End(start: nat, size: nat, batchSize: nat): nat {
    if start + size <= batchSize then start + size else batchSize
  }

  function Slice(data: seq<Datum>, size: nat, k: nat): seq<Datum> {
    var start := Covered(|data|, size, k);
    data[start..End(start, size, |data|)]
  }

  /** What the loop accumulates; `losses` are the values of its metric dictionaries. */
  datatype Totals = Totals(loss: real, outputs: seq<seq<real>>, weights: seq<real>, losses: seq<real>)

  const NOTHING := Totals(0.0, [], [], [])

  function Add(t: Totals, micro: Micro): Totals {
    Totals(t.loss + micro.loss, t.outputs + micro.outputs, t.weights + [|micro.outputs| as real],
           t.losses + [micro.loss])
  }

  type MicroRun = seq<Datum> -> Result<Micro, Error>

  function MicroBatchOf(setup: Setup): MicroRun {
    (data: seq<Datum>) => if data == [] then Err(MissingEntry) else MicroBatch(setup, data)
  }

  /** After the first k micro-batches, each processed by `run`; the first failure ends the loop. */
  ghost function RunMicroBatches(run: MicroRun, data: seq<Datum>, size: nat, k: nat): Result<Totals, Error> {
    if k == 0 then Ok(NOTHING)
    else
      match RunMicroBatches(run, data, size, k - 1)
      case Err(error) => Err(error)
      case Ok(totals) =>
        match run(Slice(data, size, k - 1))
        case Err(error) => Err(error)
        case Ok(micro) => Ok(Add(totals, micro))
  }

  datatype Output = Output(outputs: seq<seq<real>>, metrics: Metrics)

  /** The count: every slice within it holds data, all but the last are full, and they cover the batch. */
  lemma CountIsRight(n: nat, size: nat)
    requires size > 0
    ensures var k := MicroBatchCount(n, size);
            && Covered(n, size, k) == n && (k == 0 <==> n == 0)
            && forall j :: 0 <= j < k ==> j * size < n && (j < k - 1 ==> j * size + size <= n)
  {
    var k := MicroBatchCount(n, size);
    assert n + size - 1 == k * size + (n + size - 1) % size;
    if k == 0 {
      assert k * size == 0;
    } else {
      assert (k - 1) * size == k * size - size;
    }
    forall j | 0 <= j < k ensures j * size < n && (j < k - 1 ==> j * size + size <= n) {
      MulMonotone(j, k - 1, size);
      if j < k - 1 {
        MulMonotone(j + 1, k - 1, size);
        assert (j + 1) * size == j * size + size;
      }
    }
  }

  lemma SlicesHoldData(data: seq<Datum>, size: nat)
    requires size > 0
    ensures forall j :: 0 <= j < MicroBatchCount(|data|, size) ==> 0 < |Slice(data, size, j)| <= size
    ensures forall j :: 0 <= j < MicroBatchCount(|data|, size) - 1 ==> |Slice(data, size, j)| == size
  {
    CountIsRight(|data|, size);
  }

  /** The whole call, over any way to process one micro-batch. */
  ghost function ForwardOver(run: MicroRun, data: seq<Datum>, size: nat, table: Reducers): Result<Output, Error> {
    if size == 0 || data == [] then Err(ZeroDivision)
    else
      match RunMicroBatches(run, data, size, MicroBatchCount(|data|, size))
      case Err(error) => Err(error)
      case Ok(totals) =>
        if Sum !in table.known then Err(UnknownReduction(Sum))
        else Ok(Output(totals.outputs, map[LOSS_SUM := table.plain(Sum, totals.losses)]))
  }

  ghost function ForwardResult(setup: Setup, data: seq<Datum>, size: nat, table: Reducers): Result<Output, Error> {
    ForwardOver(MicroBatchOf(setup), data, size, table)
  }

  // What the batch means, without padding or slicing

  /** A datum whose own tensors fit together. */
  predicate WellFormed(setup: Setup, d: Datum) {
    && d.tokens.Some? && WidthsFit(setup.wide, |d.tokens.value|, |d.input|)
    && var key, second := RequiredKeys(setup.fn)[0], SecondKey(setup.fn);
       && key in d.floats && |d.floats[key]| == |d.tokens.value|
       && second in d.floats && |d.floats[second]| == |d.tokens.value|
  }

  function PlainTerms(setup: Setup, d: Datum): (terms: seq<real>)
    requires WellFormed(setup, d)
    ensures |terms| == |d.tokens.value|
  {
    Terms(setup.fn, setup.config, setup.exp, RowLogprobs(setup.model, d.input, d.tokens.value),
          d.floats[RequiredKeys(setup.fn)[0]], d.floats[SecondKey(setup.fn)])
  }

  function PlainLoss(setup: Setup, d: Datum): real
    requires WellFormed(setup, d)
  {
    -SumOf(PlainTerms(setup, d))
  }

  function PlainOutput(setup: Setup, d: Datum): seq<real>
    requires WellFormed(setup, d)
  {
    RowLogprobs(setup.model, d.input, d.tokens.value)
  }

  function PlainLosses(setup: Setup, data: seq<Datum>): (losses: seq<real>)
    requires forall i :: 0 <= i < |data| ==> WellFormed(setup, data[i])
    ensures |losses| == |data|
  {
    seq(|data|, i requires 0 <= i < |data| => PlainLoss(setup, data[i]))
  }

  ghost predicate SameEntries(data: seq<Datum>) {
    forall i :: 0 <= i < |data| ==> data[i].floats.Keys == data[0].floats.Keys
  }

  /**
   * The model ignores what follows a row: appended padding tokens, which the attention mask
   * hides and causal attention cannot see, change no logprob inside the row.
   */
  ghost predicate IgnoresPadding(model: (seq<nat>, nat, nat) -> real) {
    forall row: seq<nat>, k: nat, p: nat, t: nat {:trigger model(row + Repeat(0, k), p, t)} ::
      p < |row| ==> model(row + Repeat(0, k), p, t) == model(row, p, t)
  }
}
