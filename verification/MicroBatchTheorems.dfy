/** Splitting a batch into micro-batches changes neither its loss nor its outputs. */
module MicroBatchTheorems {
  import opened Wrappers
  import opened LossFn
  import opened MicroBatchSpec
  import opened PaddingTheorems
  import opened Seqs

  // Slices

  ghost function Slices(data: seq<Datum>, size: nat, k: nat): (slices: seq<seq<Datum>>)
    ensures |slices| == k
  {
    seq(k, j requires 0 <= j < k => Slice(data, size, j))
  }

  /** The slices cut the batch, in order: nothing lost, repeated or moved. */
  lemma {:induction false} SlicesPartition(data: seq<Datum>, size: nat, k: nat)
    ensures Flatten(Slices(data, size, k)) == data[..Covered(|data|, size, k)]
  {
    if k > 0 {
      SlicesPartition(data, size, k - 1);
      assert k * size == (k - 1) * size + size;
      var slices := Slices(data, size, k);
      assert slices[..k - 1] == Slices(data, size, k - 1);
      assert data[..Covered(|data|, size, k)] == data[..Covered(|data|, size, k - 1)] + Slice(data, size, k - 1);
    }
  }

  // The run, given the results of its micro-batches

  /** The micro-batches of a run that succeed one by one. */
  ghost predicate AllOk(run: MicroRun, data: seq<Datum>, size: nat, k: nat) {
    forall j :: 0 <= j < k ==> run(Slice(data, size, j)).Ok?
  }

  ghost function Micros(run: MicroRun, data: seq<Datum>, size: nat, k: nat): (micros: seq<Micro>)
    requires AllOk(run, data, size, k)
    ensures |micros| == k
  {
    if k == 0 then [] else Micros(run, data, size, k - 1) + [run(Slice(data, size, k - 1)).value]
  }

  lemma {:induction false} MicrosAt(run: MicroRun, data: seq<Datum>, size: nat, k: nat, j: nat)
    requires AllOk(run, data, size, k) && j < k
    ensures run(Slice(data, size, j)).Ok?
    ensures Micros(run, data, size, k)[j] == run(Slice(data, size, j)).value
  {
    if j < k - 1 {
      MicrosAt(run, data, size, k - 1, j);
    }
  }

  ghost function OutputsOf(micros: seq<Micro>): (outputs: seq<seq<seq<real>>>)
    ensures |outputs| == |micros|
  {
    seq(|micros|, j requires 0 <= j < |micros| => micros[j].outputs)
  }

  ghost function LossesOf(micros: seq<Micro>): (losses: seq<real>)
    ensures |losses| == |micros|
  {
    seq(|micros|, j requires 0 <= j < |micros| => micros[j].loss)
  }

  ghost predicate Accumulates(t: Totals, micros: seq<Micro>) {
    && t.outputs == Flatten(OutputsOf(micros)) && t.losses == LossesOf(micros)
    && t.loss == SumOf(t.losses) && |t.weights| == |micros| && SumOf(t.weights) == |t.outputs| as real
  }

  lemma AddAccumulates(t: Totals, micros: seq<Micro>, micro: Micro)
    requires Accumulates(t, micros)
    ensures Accumulates(Add(t, micro), micros + [micro])
  {
    assert OutputsOf(micros + [micro]) == OutputsOf(micros) + [micro.outputs];
    FlattenSnoc(OutputsOf(micros), micro.outputs);
    assert LossesOf(micros + [micro]) == LossesOf(micros) + [micro.loss];
    SumAppend(t.losses, [micro.loss]);
    SumAppend(t.weights, [|micro.outputs| as real]);
  }

  lemma {:induction false} RunAccumulates(run: MicroRun, data: seq<Datum>, size: nat, k: nat)
    requires AllOk(run, data, size, k)
    ensures RunMicroBatches(run, data, size, k).Ok?
    ensures Accumulates(RunMicroBatches(run, data, size, k).value, Micros(run, data, size, k))
  {
    if k == 0 {
      assert OutputsOf([]) == [];
    } else {
      RunAccumulates(run, data, size, k - 1);
      AddAccumulates(RunMicroBatches(run, data, size, k - 1).value, Micros(run, data, size, k - 1),
                     run(Slice(data, size, k - 1)).value);
    }
  }

  // The whole call

  /** Within each micro-batch, every datum has the entries of the first; others may come along. */
  ghost predicate SlicesComplete(data: seq<Datum>, size: nat)
    requires size > 0
  {
    forall j :: 0 <= j < MicroBatchCount(|data|, size) ==> Complete(Slice(data, size, j))
  }

  ghost predicate Complete(slice: seq<Datum>) {
    slice != [] ==> HasEntries(slice)
  }

  /** Data with the same entries are complete at every micro-batch size. */
  lemma SameEntriesAreComplete(data: seq<Datum>, size: nat)
    requires size > 0 && SameEntries(data) && (HasTokens(data) || forall i :: 0 <= i < |data| ==> data[i].tokens.None?)
    ensures SlicesComplete(data, size)
  {
    forall j | 0 <= j < MicroBatchCount(|data|, size) ensures Complete(Slice(data, size, j)) {
      PartsComplete(data, Covered(|data|, size, j), End(Covered(|data|, size, j), size, |data|));
    }
  }

  lemma PartsComplete(data: seq<Datum>, lo: nat, hi: nat)
    requires lo <= hi <= |data| && SameEntries(data)
    requires HasTokens(data) || forall i :: 0 <= i < |data| ==> data[i].tokens.None?
    ensures Complete(data[lo..hi])
  {
    var slice := data[lo..hi];
    forall i | 0 <= i < |slice| ensures slice[i].floats.Keys == slice[0].floats.Keys {
      assert slice[i] == data[lo + i];
    }
    forall i | 0 <= i < |slice| ensures slice[i].tokens.Some? <==> slice[0].tokens.Some? {
      assert slice[i] == data[lo + i] && slice[0] == data[lo];
    }
  }

  ghost predicate Sound(setup: Setup, data: seq<Datum>, size: nat)
    requires size > 0
  {
    IgnoresPadding(setup.model) && AllWellFormed(setup, data) && SlicesComplete(data, size)
  }

  lemma PartsWellFormed(setup: Setup, data: seq<Datum>, lo: nat, hi: nat)
    requires lo <= hi <= |data| && AllWellFormed(setup, data)
    ensures AllWellFormed(setup, data[lo..hi]) && HasTokens(data[lo..hi])
  {
    forall j | 0 <= j < hi - lo ensures WellFormed(setup, data[lo..hi][j]) {
      assert data[lo..hi][j] == data[lo + j];
    }
  }

  /** Micro-batch j of a sound batch. */
  lemma SliceYields(setup: Setup, data: seq<Datum>, size: nat, j: nat)
    requires size > 0 && Sound(setup, data, size) && j < MicroBatchCount(|data|, size)
    ensures var slice := Slice(data, size, j);
            && AllWellFormed(setup, slice) && HasTokens(slice)
            && MicroBatchOf(setup)(slice).Ok? && Yields(setup, slice, MicroBatchOf(setup)(slice).value)
  {
    SlicesHoldData(data, size);
    var start := Covered(|data|, size, j);
    PartsWellFormed(setup, data, start, End(start, size, |data|));
    assert Complete(Slice(data, size, j));
    MicroBatchYields(setup, Slice(data, size, j));
  }

  /** The penalties of a micro-batch; those of a datum without targets do not arise. */
  ghost function SlicePenalty(setup: Setup, slice: seq<Datum>): real {
    if HasTokens(slice) then SumOf(Penalties(setup, Extras(setup, slice))) else 0.0
  }

  ghost function RunPenalty(setup: Setup, data: seq<Datum>, size: nat, k: nat): real {
    if k == 0 then 0.0 else RunPenalty(setup, data, size, k - 1) + SlicePenalty(setup, Slice(data, size, k - 1))
  }

  /** The unpadded losses added up, datum by datum. */
  ghost function PlainSum(setup: Setup, data: seq<Datum>): real {
    if data == [] then 0.0
    else
      var last := data[|data| - 1];
      PlainSum(setup, data[..|data| - 1]) + if WellFormed(setup, last) then PlainLoss(setup, last) else 0.0
  }

  lemma {:induction false} PlainSumIs(setup: Setup, data: seq<Datum>)
    requires AllWellFormed(setup, data)
    ensures PlainSum(setup, data) == SumOf(PlainLosses(setup, data))
  {
    if data != [] {
      PlainSumIs(setup, data[..|data| - 1]);
      assert PlainLosses(setup, data)[..|data| - 1] == PlainLosses(setup, data[..|data| - 1]);
    }
  }

  lemma {:induction false} PlainSumAppend(setup: Setup, a: seq<Datum>, b: seq<Datum>)
    ensures PlainSum(setup, a + b) == PlainSum(setup, a) + PlainSum(setup, b)
  {
    if b == [] {
      assert a + b == a;
    } else {
      PlainSumAppend(setup, a, b[..|b| - 1]);
      assert (a + b)[..|a + b| - 1] == a + b[..|b| - 1];
    }
  }

  lemma NextSlice(data: seq<Datum>, size: nat, k: nat)
    ensures data[..Covered(|data|, size, k + 1)] == data[..Covered(|data|, size, k)] + Slice(data, size, k)
  {
    assert (k + 1) * size == k * size + size;
  }

  lemma OneMoreLoss(
    setup: Setup, micros: seq<Micro>, micro: Micro, prefix: seq<Datum>, slice: seq<Datum>, penalty: real)
    requires SumOf(LossesOf(micros)) == PlainSum(setup, prefix) + penalty
    requires micro.loss == PlainSum(setup, slice) + SlicePenalty(setup, slice)
    ensures SumOf(LossesOf(micros + [micro]))
         == PlainSum(setup, prefix + slice) + (penalty + SlicePenalty(setup, slice))
  {
    assert LossesOf(micros + [micro])[..|micros|] == LossesOf(micros);
    PlainSumAppend(setup, prefix, slice);
  }

  ghost predicate LossIsKnown(setup: Setup, run: MicroRun, slice: seq<Datum>) {
    run(slice).Ok? && run(slice).value.loss == PlainSum(setup, slice) + SlicePenalty(setup, slice)
  }

  ghost predicate LossesKnown(setup: Setup, run: MicroRun, data: seq<Datum>, size: nat, k: nat) {
    AllOk(run, data, size, k) && forall j :: 0 <= j < k ==> LossIsKnown(setup, run, Slice(data, size, j))
  }

  /** The losses of the first k micro-batches add up to those of the data they cover. */
  ghost predicate AddsUp(setup: Setup, run: MicroRun, data: seq<Datum>, size: nat, k: nat)
    requires AllOk(run, data, size, k)
  {
    SumOf(LossesOf(Micros(run, data, size, k)))
    == PlainSum(setup, data[..Covered(|data|, size, k)]) + RunPenalty(setup, data, size, k)
  }

  lemma LossesNext(setup: Setup, run: MicroRun, data: seq<Datum>, size: nat, k: nat)
    requires k > 0 && AllOk(run, data, size, k) && AddsUp(setup, run, data, size, k - 1)
    requires LossIsKnown(setup, run, Slice(data, size, k - 1))
    ensures AddsUp(setup, run, data, size, k)
  {
    var slice := Slice(data, size, k - 1);
    NextSlice(data, size, k - 1);
    OneMoreLoss(setup, Micros(run, data, size, k - 1), run(slice).value, data[..Covered(|data|, size, k - 1)], slice,
                RunPenalty(setup, data, size, k - 1));
  }

  lemma {:induction false} LossesAddUp(setup: Setup, run: MicroRun, data: seq<Datum>, size: nat, k: nat)
    requires LossesKnown(setup, run, data, size, k)
    ensures AddsUp(setup, run, data, size, k)
  {
    if k == 0 {
      assert LossesOf([]) == [];
    } else {
      LossesAddUp(setup, run, data, size, k - 1);
      LossesNext(setup, run, data, size, k);
    }
  }

  /** The table's `sum` adds its values up. */
  ghost predicate SumsValues(table: Reducers) {
    Sum in table.known && forall values :: table.plain(Sum, values) == SumOf(values)
  }

  /** Every micro-batch of a sound batch succeeds with a known loss. */
  lemma SoundRun(setup: Setup, data: seq<Datum>, size: nat, k: nat)
    requires size > 0 && Sound(setup, data, size) && k <= MicroBatchCount(|data|, size)
    ensures LossesKnown(setup, MicroBatchOf(setup), data, size, k)
  {
    forall j | 0 <= j < k ensures LossIsKnown(setup, MicroBatchOf(setup), Slice(data, size, j)) {
      SliceYields(setup, data, size, j);
      PlainSumIs(setup, Slice(data, size, j));
    }
  }

  lemma OverMetrics(run: MicroRun, data: seq<Datum>, size: nat, table: Reducers, k: nat)
    requires size > 0 && data != [] && Sum in table.known
    requires k == MicroBatchCount(|data|, size) && AllOk(run, data, size, k)
    ensures ForwardOver(run, data, size, table).Ok?
    ensures ForwardOver(run, data, size, table).value.metrics
         == map[LOSS_SUM := table.plain(Sum, LossesOf(Micros(run, data, size, k)))]
  {
    RunAccumulates(run, data, size, k);
  }

  lemma WholeLoss(setup: Setup, run: MicroRun, data: seq<Datum>, size: nat, k: nat)
    requires size > 0 && k == MicroBatchCount(|data|, size) && LossesKnown(setup, run, data, size, k)
    ensures SumOf(LossesOf(Micros(run, data, size, k))) == PlainSum(setup, data) + RunPenalty(setup, data, size, k)
  {
    LossesAddUp(setup, run, data, size, k);
    CountIsRight(|data|, size);
    assert data[..|data|] == data;
  }

  lemma OverLoss(setup: Setup, run: MicroRun, data: seq<Datum>, size: nat, table: Reducers, k: nat)
    requires size > 0 && data != [] && SumsValues(table) && k == MicroBatchCount(|data|, size)
    requires LossesKnown(setup, run, data, size, k)
    ensures ForwardOver(run, data, size, table).Ok?
    ensures ForwardOver(run, data, size, table).value.metrics
         == map[LOSS_SUM := PlainSum(setup, data) + RunPenalty(setup, data, size, k)]
  {
    OverMetrics(run, data, size, table, k);
    WholeLoss(setup, run, data, size, k);
  }

  /** For sound data, whatever the size: the call succeeds, and its loss is the plain one plus penalties. */
  lemma ForwardLoss(setup: Setup, data: seq<Datum>, size: nat, table: Reducers, k: nat)
    requires size > 0 && data != [] && Sound(setup, data, size) && SumsValues(table) && k == MicroBatchCount(|data|, size)
    ensures ForwardResult(setup, data, size, table).Ok?
    ensures ForwardResult(setup, data, size, table).value.metrics
         == map[LOSS_SUM := PlainSum(setup, data) + RunPenalty(setup, data, size, k)]
  {
    SoundRun(setup, data, size, k);
    OverLoss(setup, MicroBatchOf(setup), data, size, table, k);
  }

  /** Without DRO there are no penalties. */
  lemma {:induction false} NoPenalty(setup: Setup, data: seq<Datum>, size: nat, k: nat)
    requires !setup.fn.Dro?
    ensures RunPenalty(setup, data, size, k) == 0.0
  {
    if k > 0 {
      NoPenalty(setup, data, size, k - 1);
      NoSlicePenalty(setup, Slice(data, size, k - 1));
    }
  }

  lemma NoSlicePenalty(setup: Setup, slice: seq<Datum>)
    requires !setup.fn.Dro?
    ensures SlicePenalty(setup, slice) == 0.0
  {
    if HasTokens(slice) {
      var penalties := Penalties(setup, Extras(setup, slice));
      forall i | 0 <= i < |penalties| ensures penalties[i] == 0.0 {
        PenaltyIs(setup, Extras(setup, slice)[i]);
      }
      SumZero(penalties);
    }
  }

  /**
   * Micro-batching preserves the loss: for cross-entropy, importance sampling, CISPO and PPO,
   * every positive micro-batch size gives, as `loss:sum`, the loss of the batch computed
   * datum by datum without splitting or padding.
   */
  lemma LossPreserved(setup: Setup, data: seq<Datum>, size: nat, table: Reducers)
    requires size > 0 && data != [] && Sound(setup, data, size) && SumsValues(table) && !setup.fn.Dro?
    ensures ForwardResult(setup, data, size, table).Ok?
    ensures ForwardResult(setup, data, size, table).value.metrics == map[LOSS_SUM := PlainSum(setup, data)]
  {
    ForwardLoss(setup, data, size, table, MicroBatchCount(|data|, size));
    NoPenalty(setup, data, size, MicroBatchCount(|data|, size));
  }

  // Outputs

  /** Datum i is row i % size of slice i / size, since the slices before it are full. */
  lemma RowOfDatum(data: seq<Datum>, size: nat, i: nat)
    requires size > 0 && i < |data|
    ensures var slice := Slice(data, size, i / size); i % size < |slice| && slice[i % size] == data[i]
  {
    WithinCount(|data|, size, i);
    CountIsRight(|data|, size);
  }

  ghost predicate RowPerDatum(run: MicroRun, data: seq<Datum>, size: nat, k: nat)
    requires AllOk(run, data, size, k)
  {
    forall j :: 0 <= j < k ==> |run(Slice(data, size, j)).value.outputs| == |Slice(data, size, j)|
  }

  lemma FlatOutputs(run: MicroRun, data: seq<Datum>, size: nat, k: nat, i: nat)
    requires size > 0 && i < |data| && k == MicroBatchCount(|data|, size)
    requires AllOk(run, data, size, k) && RowPerDatum(run, data, size, k)
    ensures i / size < k && i % size < |run(Slice(data, size, i / size)).value.outputs|
    ensures var flat := Flatten(OutputsOf(Micros(run, data, size, k)));
            i < |flat| && flat[i] == run(Slice(data, size, i / size)).value.outputs[i % size]
  {
    WithinCount(|data|, size, i);
    RowOfDatum(data, size, i);
    SlicesHoldData(data, size);
    var micros, j := Micros(run, data, size, k), i / size;
    MicrosAt(run, data, size, k, j);
    forall x | 0 <= x < j ensures |OutputsOf(micros)[x]| == size {
      MicrosAt(run, data, size, k, x);
    }
    FlattenIndex(OutputsOf(micros), size, j, i % size);
  }

  lemma OverSucceeds(run: MicroRun, data: seq<Datum>, size: nat, table: Reducers, k: nat)
    requires size > 0 && data != [] && Sum in table.known
    requires k == MicroBatchCount(|data|, size) && AllOk(run, data, size, k)
    ensures ForwardOver(run, data, size, table).Ok?
    ensures ForwardOver(run, data, size, table).value.outputs == Flatten(OutputsOf(Micros(run, data, size, k)))
  {
    RunAccumulates(run, data, size, k);
  }

  lemma OverOutputs(run: MicroRun, data: seq<Datum>, size: nat, table: Reducers, k: nat, i: nat)
    requires size > 0 && i < |data| && Sum in table.known
    requires k == MicroBatchCount(|data|, size) && AllOk(run, data, size, k) && RowPerDatum(run, data, size, k)
    ensures ForwardOver(run, data, size, table).Ok? && run(Slice(data, size, i / size)).Ok?
    ensures var outputs, rows := ForwardOver(run, data, size, table).value.outputs,
                                 run(Slice(data, size, i / size)).value.outputs;
            |outputs| == |data| && i % size < |rows| && outputs[i] == rows[i % size]
  {
    OverSucceeds(run, data, size, table, k);
    OutputLengths(run, data, size, k);
    CountIsRight(|data|, size);
    FlatOutputs(run, data, size, k, i);
  }

  lemma WithinCount(n: nat, size: nat, i: nat)
    requires size > 0 && i < n
    ensures i / size < MicroBatchCount(n, size) && i / size * size + i % size == i
    ensures i < End(Covered(n, size, i / size), size, n)
  {
    CountIsRight(n, size);
    var k, j := MicroBatchCount(n, size), i / size;
    assert i == j * size + i % size;
    if k <= j {
      MulMonotone(k, j, size);
    }
  }

  /** As many output rows as data are covered. */
  lemma {:induction false} OutputLengths(run: MicroRun, data: seq<Datum>, size: nat, k: nat)
    requires AllOk(run, data, size, k) && RowPerDatum(run, data, size, k)
    ensures |Flatten(OutputsOf(Micros(run, data, size, k)))| == Covered(|data|, size, k)
  {
    if k == 0 {
      assert OutputsOf([]) == [];
    } else {
      OutputLengths(run, data, size, k - 1);
      CoveredNext(data, size, k - 1);
      OneMoreOutput(Micros(run, data, size, k - 1), run(Slice(data, size, k - 1)).value);
    }
  }

  lemma CoveredNext(data: seq<Datum>, size: nat, k: nat)
    ensures Covered(|data|, size, k + 1) == Covered(|data|, size, k) + |Slice(data, size, k)|
  {
    NextSlice(data, size, k);
    assert |data[..Covered(|data|, size, k + 1)]| == Covered(|data|, size, k + 1);
  }

  lemma OneMoreOutput(micros: seq<Micro>, micro: Micro)
    ensures |Flatten(OutputsOf(micros + [micro]))| == |Flatten(OutputsOf(micros))| + |micro.outputs|
  {
    assert OutputsOf(micros + [micro]) == OutputsOf(micros) + [micro.outputs];
    FlattenSnoc(OutputsOf(micros), micro.outputs);
  }

  /** The width of the targets in the micro-batch datum i is in. */
  ghost function WidthAt(data: seq<Datum>, size: nat, i: nat): nat
    requires size > 0
  {
    var slice := Slice(data, size, i / size);
    if HasTokens(slice) then Width(slice) else 0
  }

  /**
   * Micro-batching preserves the outputs: one row per datum, in order, which starts with
   * the datum's own logprobs; it is exactly those if and only if its targets are as long as
   * its input or as the longest targets of its micro-batch.
   */
  lemma OutputsPreserved(setup: Setup, data: seq<Datum>, size: nat, table: Reducers, i: nat)
    requires size > 0 && i < |data| && Sound(setup, data, size) && SumsValues(table)
    ensures ForwardResult(setup, data, size, table).Ok?
    ensures var outputs, d := ForwardResult(setup, data, size, table).value.outputs, data[i];
            && |outputs| == |data| && |d.tokens.value| <= |outputs[i]|
            && outputs[i][..|d.tokens.value|] == PlainOutput(setup, d)
            && (outputs[i] == PlainOutput(setup, d) <==>
                  |d.tokens.value| == |d.input| || |d.tokens.value| == WidthAt(data, size, i))
  {
    var run, k := MicroBatchOf(setup), MicroBatchCount(|data|, size);
    SoundRun(setup, data, size, k);
    forall j | 0 <= j < k ensures |run(Slice(data, size, j)).value.outputs| == |Slice(data, size, j)| {
      SliceYields(setup, data, size, j);
    }
    OverOutputs(run, data, size, table, k, i);
    WithinCount(|data|, size, i);
    RowOfDatum(data, size, i);
    RowDecides(setup, data, size, i);
  }

  lemma RowDecides(setup: Setup, data: seq<Datum>, size: nat, i: nat)
    requires size > 0 && i < |data| && Sound(setup, data, size) && i / size < MicroBatchCount(|data|, size)
    requires i % size < |Slice(data, size, i / size)| && Slice(data, size, i / size)[i % size] == data[i]
    ensures MicroBatchOf(setup)(Slice(data, size, i / size)).Ok?
    ensures var outputs, d := MicroBatchOf(setup)(Slice(data, size, i / size)).value.outputs, data[i];
            && i % size < |outputs|
            && var output := outputs[i % size];
               && |d.tokens.value| <= |output|
               && output[..|d.tokens.value|] == PlainOutput(setup, d)
               && (output == PlainOutput(setup, d) <==>
                     |d.tokens.value| == |d.input| || |d.tokens.value| == WidthAt(data, size, i))
  {
    SliceYields(setup, data, size, i / size);
    var slice := Slice(data, size, i / size);
    assert |Tokens(slice)[i % size]| <= Width(slice);
    RowIsExact(setup, slice[i % size], Width(slice), MicroBatchOf(setup)(slice).value.outputs[i % size]);
  }

  lemma RowIsExact(setup: Setup, d: Datum, width: nat, output: seq<real>)
    requires WellFormed(setup, d) && |d.tokens.value| <= width && RowIs(setup, d, width, output)
    ensures output == PlainOutput(setup, d) <==> |d.tokens.value| == |d.input| || |d.tokens.value| == width
  {
    assert output == output[..|output|];
  }

  // Any call that succeeds

  lemma {:induction false} OkRun(run: MicroRun, data: seq<Datum>, size: nat, k: nat)
    ensures RunMicroBatches(run, data, size, k).Ok? <==> AllOk(run, data, size, k)
  {
    if k > 0 {
      OkRun(run, data, size, k - 1);
      assert AllOk(run, data, size, k) <==> AllOk(run, data, size, k - 1) && run(Slice(data, size, k - 1)).Ok?;
    }
  }

  /** A call that fails on the way reports the error of the first micro-batch that failed. */
  lemma {:induction false} FirstFailure(run: MicroRun, data: seq<Datum>, size: nat, k: nat, j: nat)
    requires j < k && AllOk(run, data, size, j) && run(Slice(data, size, j)).Err?
    ensures RunMicroBatches(run, data, size, k) == Err(run(Slice(data, size, j)).error)
  {
    if j == k - 1 {
      OkRun(run, data, size, j);
    } else {
      FirstFailure(run, data, size, k - 1, j);
    }
  }

  /**
   * How a call fails: without data or with size 0 at once; else with the first failing
   * micro-batch's error; else when the table cannot sum.
   */
  lemma CallFails(setup: Setup, data: seq<Datum>, size: nat, table: Reducers)
    ensures size == 0 || data == [] ==> ForwardResult(setup, data, size, table) == Err(ZeroDivision)
    ensures size > 0 && data != [] ==>
              var run, k := MicroBatchOf(setup), MicroBatchCount(|data|, size);
              && (forall j :: 0 <= j < k && AllOk(run, data, size, j) && run(Slice(data, size, j)).Err? ==>
                    ForwardResult(setup, data, size, table) == Err(run(Slice(data, size, j)).error))
              && (AllOk(run, data, size, k) ==>
                    (ForwardResult(setup, data, size, table).Ok? <==> Sum in table.known)
                    && (Sum !in table.known ==> ForwardResult(setup, data, size, table) == Err(UnknownReduction(Sum))))
  {
    if size > 0 && data != [] {
      var run, k := MicroBatchOf(setup), MicroBatchCount(|data|, size);
      forall j | 0 <= j < k && AllOk(run, data, size, j) && run(Slice(data, size, j)).Err?
        ensures ForwardResult(setup, data, size, table) == Err(run(Slice(data, size, j)).error)
      {
        FirstFailure(run, data, size, k, j);
      }
      OkRun(run, data, size, k);
    }
  }

  /** A micro-batch that succeeds was complete and yields a row per datum. */
  lemma OkSlice(setup: Setup, slice: seq<Datum>)
    requires MicroBatchOf(setup)(slice).Ok?
    ensures slice != [] && HasEntries(slice) && |MicroBatchOf(setup)(slice).value.outputs| == |slice|
  {
  }

  lemma OkRows(setup: Setup, data: seq<Datum>, size: nat, k: nat)
    requires AllOk(MicroBatchOf(setup), data, size, k)
    ensures RowPerDatum(MicroBatchOf(setup), data, size, k)
  {
    var run := MicroBatchOf(setup);
    forall j | 0 <= j < k ensures |run(Slice(data, size, j)).value.outputs| == |Slice(data, size, j)| {
      OkSlice(setup, Slice(data, size, j));
    }
  }

  /**
   * Whatever the setup, the data and the positive size: when all micro-batches succeed,
   * there is one output row per datum, and the weights the metrics are reduced with, one
   * per micro-batch, add up to the batch size.
   */
  lemma WeightsAddUp(setup: Setup, data: seq<Datum>, size: nat)
    requires size > 0
    ensures var r := RunMicroBatches(MicroBatchOf(setup), data, size, MicroBatchCount(|data|, size));
            r.Ok? ==>
              && SumOf(r.value.weights) == |data| as real && |r.value.outputs| == |data|
              && |r.value.weights| == MicroBatchCount(|data|, size)
  {
    var run, k := MicroBatchOf(setup), MicroBatchCount(|data|, size);
    OkRun(run, data, size, k);
    if AllOk(run, data, size, k) {
      OkRows(setup, data, size, k);
      RunAccumulates(run, data, size, k);
      OutputLengths(run, data, size, k);
      CountIsRight(|data|, size);
    }
  }

  /** Given well-formed data, the call succeeds exactly when every micro-batch is complete. */
  lemma SucceedsWhenComplete(setup: Setup, data: seq<Datum>, size: nat, table: Reducers)
    requires size > 0 && data != [] && IgnoresPadding(setup.model) && AllWellFormed(setup, data) && SumsValues(table)
    ensures ForwardResult(setup, data, size, table).Ok? <==> SlicesComplete(data, size)
  {
    var run, k := MicroBatchOf(setup), MicroBatchCount(|data|, size);
    if SlicesComplete(data, size) {
      ForwardLoss(setup, data, size, table, k);
    } else {
      OkRun(run, data, size, k);
      var j :| 0 <= j < k && !Complete(Slice(data, size, j));
      if run(Slice(data, size, j)).Ok? {
        OkSlice(setup, Slice(data, size, j));
      }
    }
  }
}
