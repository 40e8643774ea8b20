/** The forward pass itself: its loops over keys, rows and micro-batches. */
module HFTrainingModel {
  import opened Wrappers
  import opened LossFn
  import opened MicroBatchSpec
  import opened Seqs

  /** Pads every float input of the first datum; a datum that lacks one is an error. */
  method PrepareLossFnInputs(data: seq<Datum>) returns (r: Result<map<Key, Tensor>, Error>)
    requires data != []
    ensures r.Ok? <==> forall key :: key in data[0].floats ==> HasKey(data, key)
    ensures r.Err? ==> r.error == MissingEntry
    ensures r.Ok? ==> r.value.Keys == data[0].floats.Keys
    ensures r.Ok? ==> forall key :: key in r.value ==> HasKey(data, key) && r.value[key] == Pad(Column(data, key), 0.0)
  {
    var inputs: map<Key, Tensor> := map[];
    var keys := data[0].floats.Keys;
    while keys != {}
      invariant keys <= data[0].floats.Keys && inputs.Keys == data[0].floats.Keys - keys
      invariant forall key :: key in inputs ==> HasKey(data, key) && inputs[key] == Pad(Column(data, key), 0.0)
      decreases |keys|
    {
      var key :| key in keys;
      keys := keys - {key};
      if !HasKey(data, key) {
        return Err(MissingEntry);
      }
      inputs := inputs[key := Pad(Column(data, key), 0.0)];
    }
    return Ok(inputs);
  }

  /** Cuts each row back to its original length. */
  method UnpadTensor(padded: Tensor, lengths: seq<nat>) returns (rows: Tensor)
    requires |lengths| == |padded|
    ensures |rows| == |padded|
    ensures forall i :: 0 <= i < |rows| ==> rows[i] == Unpad(padded[i], lengths[i])
  {
    rows := [];
    for i := 0 to |lengths|
      invariant |rows| == i && forall j :: 0 <= j < i ==> rows[j] == Unpad(padded[j], lengths[j])
    {
      rows := rows + [Unpad(padded[i], lengths[i])];
    }
  }

  lemma EntriesByKey(data: seq<Datum>)
    requires data != []
    ensures HasEntries(data) <==>
            (forall key :: key in data[0].floats ==> HasKey(data, key)) && (data[0].tokens.Some? ==> HasTokens(data))
  {
    if forall key :: key in data[0].floats ==> HasKey(data, key) {
      forall i | 0 <= i < |data| ensures data[0].floats.Keys <= data[i].floats.Keys {
        forall key | key in data[0].floats ensures key in data[i].floats {
          assert HasKey(data, key);
        }
      }
    }
    if HasEntries(data) {
      forall key | key in data[0].floats ensures HasKey(data, key) {
        assert forall i :: 0 <= i < |data| ==> data[0].floats.Keys <= data[i].floats.Keys;
      }
    }
  }

  lemma SameInputs(data: seq<Datum>, inputs: map<Key, Tensor>)
    requires data != [] && HasEntries(data) && inputs.Keys == data[0].floats.Keys
    requires forall key :: key in inputs ==> HasKey(data, key) && inputs[key] == Pad(Column(data, key), 0.0)
    ensures inputs == PaddedInputs(data)
  {
    assert inputs.Keys == PaddedInputs(data).Keys;
  }

  /** Scores padded data, takes the loss, and cuts the logprobs back. */
  method ScoreAndCut(setup: Setup, data: seq<Datum>, inputs: map<Key, Tensor>) returns (r: Result<Micro, Error>)
    requires data != [] && HasTokens(data)
    ensures var lps := PaddedLogprobs(setup, data);
            var loss := LossOf(setup.fn, setup.config, setup.exp, lps, inputs);
            && (loss.Err? ==> r == Err(loss.error))
            && (loss.Ok? ==> r.Ok? && r.value.loss == loss.value && r.value.outputs == Outputs(lps, data))
  {
    var logprobs := TargetLogprobs(setup.model, Pad(Inputs(data), 0), Pad(Tokens(data), 0));
    var loss := LossOf(setup.fn, setup.config, setup.exp, logprobs, inputs);
    if loss.Err? {
      return Err(loss.error);
    }
    var rows := UnpadTensor(logprobs, seq(|data|, i requires 0 <= i < |data| => |data[i].input|));
    assert rows == Outputs(logprobs, data);
    return Ok(Micro(loss.value, rows));
  }

  /** One micro-batch. */
  method ForwardMicroBatch(setup: Setup, data: seq<Datum>) returns (r: Result<Micro, Error>)
    requires data != []
    ensures r == MicroBatch(setup, data)
  {
    var prepared := PrepareLossFnInputs(data);
    EntriesByKey(data);
    if prepared.Err? {
      return Err(prepared.error);
    }
    if data[0].tokens.None? || !HasTokens(data) {
      return Err(MissingEntry);
    }
    if !WidthsFit(setup.wide, MaxLen(Tokens(data)), MaxLen(Inputs(data))) {
      return Err(WidthMismatch);
    }
    SameInputs(data, prepared.value);
    r := ScoreAndCut(setup, data, prepared.value);
    Scored(setup, data, r);
  }

  lemma Scored(setup: Setup, data: seq<Datum>, r: Result<Micro, Error>)
    requires data != [] && HasEntries(data) && data[0].tokens.Some?
    requires WidthsFit(setup.wide, MaxLen(Tokens(data)), MaxLen(Inputs(data)))
    requires var lps := PaddedLogprobs(setup, data);
             var loss := LossOf(setup.fn, setup.config, setup.exp, lps, PaddedInputs(data));
             && (loss.Err? ==> r == Err(loss.error))
             && (loss.Ok? ==> r.Ok? && r.value.loss == loss.value && r.value.outputs == Outputs(lps, data))
    ensures r == MicroBatch(setup, data)
  {
  }

  function MetricsOf(losses: seq<real>): (list: seq<Metrics>)
    ensures |list| == |losses|
  {
    seq(|losses|, i requires 0 <= i < |losses| => map[LOSS_SUM := losses[i]])
  }

  /** Dictionaries that hold only the loss reduce to one that holds only its reduction. */
  lemma LossReduces(result: Metrics, losses: seq<real>, weights: seq<real>, table: Reducers)
    requires losses != [] && Reduces(result, MetricsOf(losses)[0].Keys, MetricsOf(losses), weights, table)
    ensures result == map[LOSS_SUM := table.plain(Sum, losses)]
  {
    var list := MetricsOf(losses);
    assert list[0].Keys == {LOSS_SUM};
    assert Reported(LOSS_SUM, {LOSS_SUM}, list);
    assert ValuesOf(list, LOSS_SUM) == losses;
    forall key | key in result ensures key == LOSS_SUM {
      assert Reported(key, {LOSS_SUM}, list);
    }
    assert result.Keys == {LOSS_SUM};
  }

  /** `run` is how the loop processes a micro-batch. */
  ghost predicate Processes(setup: Setup, run: MicroRun) {
    forall data {:trigger MicroBatch(setup, data)} :: data != [] ==> run(data) == MicroBatch(setup, data)
  }

  /** One turn of the loop. */
  method AddMicroBatch(
    setup: Setup, ghost run: MicroRun, data: seq<Datum>, size: nat, index: nat, totals: Totals)
    returns (r: Result<Totals, Error>)
    requires Processes(setup, run) && size > 0 && index < MicroBatchCount(|data|, size)
    requires RunMicroBatches(run, data, size, index) == Ok(totals)
    ensures r == RunMicroBatches(run, data, size, index + 1)
    ensures r.Ok? ==> |r.value.losses| == |totals.losses| + 1 && r.value.losses[..|totals.losses|] == totals.losses
  {
    CountIsRight(|data|, size);
    var start := index * size;
    var end := if start + size <= |data| then start + size else |data|;
    assert data[start..end] == Slice(data, size, index);
    var micro := ForwardMicroBatch(setup, data[start..end]);
    r := if micro.Err? then Err(micro.error) else Ok(Add(totals, micro.value));
  }

  /** The loop over micro-batches. */
  method RunAll(setup: Setup, ghost run: MicroRun, data: seq<Datum>, size: nat)
    returns (r: Result<Totals, Error>, metrics: seq<Metrics>)
    requires Processes(setup, run) && size > 0
    ensures r == RunMicroBatches(run, data, size, MicroBatchCount(|data|, size))
    ensures r.Ok? ==> |r.value.losses| == MicroBatchCount(|data|, size) && metrics == MetricsOf(r.value.losses)
  {
    var count := MicroBatchCount(|data|, size);
    var totals := NOTHING;
    metrics := [];
    var index := 0;
    while index < count
      invariant 0 <= index <= count
      invariant RunMicroBatches(run, data, size, index) == Ok(totals)
      invariant |totals.losses| == index && metrics == MetricsOf(totals.losses)
    {
      var next := AddMicroBatch(setup, run, data, size, index, totals);
      if next.Err? {
        FailsForGood(run, data, size, index + 1, count);
        return next, metrics;
      }
      metrics := metrics + [map[LOSS_SUM := next.value.losses[index]]];
      totals := next.value;
      assert metrics == MetricsOf(totals.losses);
      index := index + 1;
    }
    r := Ok(totals);
  }

  /** The whole call: run the micro-batches, average the loss, reduce the metrics. */
  method Forward(setup: Setup, data: seq<Datum>, microBatchSize: nat, table: Reducers)
    returns (r: Result<Output, Error>)
    requires table.Valid()
    ensures r == ForwardResult(setup, data, microBatchSize, table)
  {
    if microBatchSize == 0 {
      return Err(ZeroDivision);
    }
    var count := MicroBatchCount(|data|, microBatchSize);
    CountIsRight(|data|, microBatchSize);
    var run, metrics := RunAll(setup, MicroBatchOf(setup), data, microBatchSize);
    if count == 0 {
      return Err(ZeroDivision);
    }
    if run.Err? {
      return Err(run.error);
    }
    var averageLoss := run.value.loss / count as real;
    var reduced := MetricsReduction(metrics, run.value.weights, table);
    if reduced.Err? {
      return Err(reduced.error);
    }
    LossReduces(reduced.value, run.value.losses, run.value.weights, table);
    return Ok(Output(run.value.outputs, reduced.value));
  }

  /** A failed micro-batch fails the run, whatever would have followed. */
  lemma {:induction false} FailsForGood(run: MicroRun, data: seq<Datum>, size: nat, k: nat, n: nat)
    requires k <= n && RunMicroBatches(run, data, size, k).Err?
    ensures RunMicroBatches(run, data, size, n) == RunMicroBatches(run, data, size, k)
  {
    if k < n {
      FailsForGood(run, data, size, k, n - 1);
    }
  }
}
