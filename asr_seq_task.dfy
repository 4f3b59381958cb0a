/**
 * The sequential ASR task: steps per epoch, the data generator that pads each
 * converted batch into rectangular arrays (batch mode) or hands out one example
 * at a time, and the tensor shapes announced to the input pipeline.
 */
module AsrTask {
  import opened Wrappers
  import opened Arrays
  import opened Conf
  import opened EspnetUtils

  /** One value produced by `generate_data`: `(feat, feat_len, target, target_len)`. */
  datatype Yield =
    | Batched(feats: seq<Matrix>, ilens: seq<int>, targets: seq<Vector>, olens: seq<int>)
    | Single(feat: Matrix, ilen: int, target: Vector, olen: int)

  datatype DType = Float32 | Int32

  /** A `tf.TensorShape`: one entry per dimension, `None` where the size is not fixed. */
  type Dims = seq<Option<int>>

  /** What `feature_spec` returns: `(types, shapes, values)`. */
  datatype TensorSpec = TensorSpec(types: seq<DType>, shapes: seq<Dims>, values: Option<seq<int>>)

  /** `int(a / b)`: true division truncated toward zero. */
  function TruncDiv(a: int, b: int): (q: int)
    requires b != 0
    ensures Abs(q) * Abs(b) <= Abs(a) < (Abs(q) + 1) * Abs(b)
    ensures (a < 0) == (b < 0) ==> q >= 0
    ensures (a < 0) != (b < 0) ==> q <= 0
  {
    var q := Abs(a) / Abs(b);
    DivBounds(Abs(a), Abs(b));
    if (a < 0) != (b < 0) then -q else q
  }

  lemma DivBounds(x: nat, y: nat)
    requires y > 0
    ensures (x / y) * y <= x < (x / y + 1) * y
  {
    var q := x / y;
    assert x == q * y + x % y && 0 <= x % y < y;
    assert (q + 1) * y == q * y + y;
  }

  function Abs(x: int): nat
  {
    if x < 0 then -x else x
  }

  /** `np.pad` of one input to `imax` rows; the pad width `imax - rows` is never negative here. */
  function PadFeat(x: Matrix, imax: int): (r: Matrix)
    requires |x.rows| <= imax
    ensures RowsPadded(r, x, imax)
  {
    PadRows(x, imax - |x.rows|).value
  }

  /** `np.pad` of one target to `omax` entries. */
  function PadTarget(y: Vector, omax: int): (r: Vector)
    requires |y| <= omax
    ensures VectorPadded(r, y, omax)
  {
    PadVector(y, omax - |y|).value
  }

  /** `p` is `m` with zero rows added at the end up to `n` rows. */
  predicate RowsPadded(p: Matrix, m: Matrix, n: int)
  {
    && |m.rows| <= n && |p.rows| == n && p.cols == m.cols
    && p.rows[..|m.rows|] == m.rows
    && forall j :: |m.rows| <= j < n ==> p.rows[j] == Zeros(m.cols)
  }

  /** `p` is `v` with zeros added at the end up to `n` entries. */
  predicate VectorPadded(p: Vector, v: Vector, n: int)
  {
    && |v| <= n && |p| == n && p[..|v|] == v
    && forall j :: |v| <= j < n ==> p[j] == 0
  }

  predicate SameCols(xs: seq<Matrix>)
  {
    forall i :: 0 <= i < |xs| ==> xs[i].cols == xs[0].cols
  }

  /** Every input padded to `imax` rows: equal shapes exactly when the inputs have equal widths. */
  function PadFeats(xs: seq<Matrix>, imax: int): (fs: seq<Matrix>)
    requires forall i :: 0 <= i < |xs| ==> |xs[i].rows| <= imax
    ensures |fs| == |xs| && forall i :: 0 <= i < |xs| ==> fs[i] == PadFeat(xs[i], imax)
    ensures SameShape(fs) <==> SameCols(xs)
  {
    seq(|xs|, i requires 0 <= i < |xs| => PadFeat(xs[i], imax))
  }

  /** Every target padded to `omax` entries: always of equal length. */
  function PadTargets(ys: seq<Vector>, omax: int): (ts: seq<Vector>)
    requires forall i :: 0 <= i < |ys| ==> |ys[i]| <= omax
    ensures |ts| == |ys| && forall i :: 0 <= i < |ys| ==> ts[i] == PadTarget(ys[i], omax)
    ensures SameLength(ts)
  {
    seq(|ys|, i requires 0 <= i < |ys| => PadTarget(ys[i], omax))
  }

  /**
   * One iteration of `generate_data` in batch mode: pads every input to the longest
   * input and every target to the longest target, stacks them, and yields the input
   * lengths twice (the code builds `olens` from `ilens`).
   */
  function BatchYield(c: Converted): (r: Result<Yield>)
    requires LengthsMatch(c)
    ensures r.Ok? <==> 0 < |c.xs| <= |c.ys| && SameCols(c.xs)
    ensures r.Err? && 0 < |c.ys| < |c.xs| ==> r.error == IndexError
    ensures r.Err? && (|c.ys| == 0 || |c.ys| >= |c.xs|) ==> r.error == ValueError
    ensures r.Ok? ==>
      var imax := Max(c.ilens).value;
      var omax := Max(c.olens).value;
      && r.value.Batched?
      && |r.value.feats| == |c.xs| && |r.value.targets| == |c.xs|
      && r.value.ilens == c.ilens && r.value.olens == c.ilens
      && (forall i :: 0 <= i < |c.xs| ==> RowsPadded(r.value.feats[i], c.xs[i], imax))
      && (forall i :: 0 <= i < |c.xs| ==> VectorPadded(r.value.targets[i], c.ys[i], omax))
  {
    match Max(c.ilens)
    case Err(e) => Err(e)
    case Ok(imax) =>
      match Max(c.olens)
      case Err(e) => Err(e)
      case Ok(omax) =>
        if |c.ys| < |c.xs| then Err(IndexError)
        else
          var feats := PadFeats(c.xs, imax);
          var targets := PadTargets(c.ys[..|c.xs|], omax);
          match StackMatrices(feats)
          case Err(e) => Err(e)
          case Ok(batchFeat) =>
            var batchTarget := StackVectors(targets).value;
            Ok(Batched(batchFeat, c.ilens, batchTarget, c.ilens))
  }

  /** A padded batch has one length per example and equally shaped inputs and targets. */
  lemma BatchYieldRectangular(c: Converted)
    requires LengthsMatch(c) && BatchYield(c).Ok?
    ensures var y := BatchYield(c).value;
      && |y.feats| > 0 && |y.ilens| == |y.feats| && |y.targets| == |y.feats| && |y.olens| == |y.feats|
      && SameShape(y.feats) && SameLength(y.targets)
      && forall i :: 0 <= i < |y.feats| ==> y.ilens[i] <= |y.feats[i].rows|
  {
    var y := BatchYield(c).value;
    var imax := Max(c.ilens).value;
    var omax := Max(c.olens).value;
    forall i | 0 <= i < |y.feats|
      ensures |y.feats[i].rows| == imax && y.feats[i].cols == y.feats[0].cols && |y.targets[i]| == omax
    {
      assert RowsPadded(y.feats[i], c.xs[i], imax) && RowsPadded(y.feats[0], c.xs[0], imax);
      assert VectorPadded(y.targets[i], c.ys[i], omax);
    }
  }

  function BatchStep(c: Converted): (seq<Yield>, Option<PyError>)
    requires LengthsMatch(c)
  {
    match BatchYield(c)
    case Ok(y) => ([y], None)
    case Err(e) => ([], Some(e))
  }

  /**
   * One iteration of `generate_data` outside batch mode: one tuple per input, in
   * order; indexing the targets fails when there are fewer targets than inputs.
   */
  function ExampleYields(c: Converted): (r: (seq<Yield>, Option<PyError>))
    requires LengthsMatch(c)
    ensures |r.0| == (if |c.ys| < |c.xs| then |c.ys| else |c.xs|)
    ensures r.1 == (if |c.ys| < |c.xs| then Some(IndexError) else None)
    ensures forall i :: 0 <= i < |r.0| ==> r.0[i] == Single(c.xs[i], c.ilens[i], c.ys[i], c.olens[i])
  {
    var n := if |c.ys| < |c.xs| then |c.ys| else |c.xs|;
    (seq(n, i requires 0 <= i < n => Single(c.xs[i], c.ilens[i], c.ys[i], c.olens[i])),
     if |c.ys| < |c.xs| then Some(IndexError) else None)
  }

  /**
   * The inner loop of `generate_data` in batch mode: pads each input to `imax` rows
   * and each target to `omax` entries, failing on the first input without a target.
   */
  method PadEach(c: Converted, imax: int, omax: int)
    returns (batchFeat: seq<Matrix>, batchTarget: seq<Vector>, failure: Option<PyError>)
    requires LengthsMatch(c)
    requires forall i :: 0 <= i < |c.ilens| ==> c.ilens[i] <= imax
    requires forall i :: 0 <= i < |c.olens| ==> c.olens[i] <= omax
    ensures failure == if |c.ys| < |c.xs| then Some(IndexError) else None
    ensures failure.None? ==>
      batchFeat == PadFeats(c.xs, imax) && batchTarget == PadTargets(c.ys[..|c.xs|], omax)
  {
    batchFeat, batchTarget := [], [];
    var i := 0;
    while i < |c.xs|
      invariant 0 <= i <= |c.xs| && i <= |c.ys|
      invariant |batchFeat| == i && |batchTarget| == i
      invariant forall j :: 0 <= j < i ==> batchFeat[j] == PadFeat(c.xs[j], imax)
      invariant forall j :: 0 <= j < i ==> batchTarget[j] == PadTarget(c.ys[j], omax)
    {
      var ipadLen := imax - |c.xs[i].rows|;
      var feat := PadRows(c.xs[i], ipadLen).value;
      if i >= |c.ys| {
        return batchFeat, batchTarget, Some(IndexError);
      }
      var opadLen := omax - |c.ys[i]|;
      var target := PadVector(c.ys[i], opadLen).value;
      batchFeat := batchFeat + [feat];
      batchTarget := batchTarget + [target];
      i := i + 1;
    }
    failure := None;
  }

  /** One iteration of the outer loop of `generate_data` in batch mode, after conversion. */
  method PadBatch(c: Converted) returns (produced: seq<Yield>, failure: Option<PyError>)
    requires LengthsMatch(c)
    ensures (produced, failure) == BatchStep(c)
  {
    var imax := Max(c.ilens);
    if imax.Err? {
      return [], Some(imax.error);
    }
    var omax := Max(c.olens);
    if omax.Err? {
      return [], Some(omax.error);
    }
    var batchFeat, batchTarget, padFailure := PadEach(c, imax.value, omax.value);
    if padFailure.Some? {
      return [], padFailure;
    }
    var stacked := StackMatrices(batchFeat);
    if stacked.Err? {
      return [], Some(stacked.error);
    }
    var stackedTarget := StackVectors(batchTarget).value;
    produced, failure := [Batched(stacked.value, c.ilens, stackedTarget, c.ilens)], None;
  }

  /** The inner loop of `generate_data` outside batch mode, for one converted batch. */
  method SplitBatch(c: Converted) returns (produced: seq<Yield>, failure: Option<PyError>)
    requires LengthsMatch(c)
    ensures (produced, failure) == ExampleYields(c)
  {
    produced := [];
    var i := 0;
    while i < |c.xs|
      invariant 0 <= i <= |c.xs| && i <= |c.ys|
      invariant |produced| == i
      invariant forall j :: 0 <= j < i ==> produced[j] == Single(c.xs[j], c.ilens[j], c.ys[j], c.olens[j])
    {
      if i >= |c.ys| {
        assert produced == ExampleYields(c).0;
        return produced, Some(IndexError);
      }
      produced := produced + [Single(c.xs[i], c.ilens[i], c.ys[i], c.olens[i])];
      i := i + 1;
    }
    assert produced == ExampleYields(c).0;
    failure := None;
  }

  /** Number of utterances over a list of batches. */
  function TotalUtts(bs: seq<Batch>): nat
  {
    if |bs| == 0 then 0 else |bs[0]| + TotalUtts(bs[1..])
  }

  /** `AsrSeqTask`: fields set once by `__init__`. */
  class AsrSeqTask {
    const config: Config
    const dummy: bool
    const batchMode: bool
    const batchSize: int
    /** `self.batches` and `self.n_utts` are never set in dummy mode. */
    const batches: Option<seq<Batch>>
    const nUtts: Option<nat>
    const featShape: seq<int>
    const vocabSize: int
    const converter: Converter

    constructor (config: Config, batches: Option<seq<Batch>>, nUtts: Option<nat>,
                 featShape: seq<int>, vocabSize: int, converter: Converter)
      ensures this.config == config && dummy == config.task.dummy
      ensures batchMode == config.task.batchMode && batchSize == config.optimizer.batchSize
      ensures this.batches == batches && this.nUtts == nUtts
      ensures this.featShape == featShape && this.vocabSize == vocabSize
      ensures this.converter == converter
    {
      this.config := config;
      dummy := config.task.dummy;
      batchMode := config.task.batchMode;
      batchSize := config.optimizer.batchSize;
      this.batches := batches;
      this.nUtts := nUtts;
      this.featShape := featShape;
      this.vocabSize := vocabSize;
      this.converter := converter;
    }

    /** `steps_per_epoch`. */
    function StepsPerEpoch(): (r: Result<int>)
      ensures dummy ==> r == Ok(1)
      ensures !dummy && batchMode ==>
        r == if batches.Some? then Ok(|batches.value|) else Err(AttributeError)
      ensures !dummy && !batchMode && nUtts.Some? && batchSize == 0 ==> r == Err(ZeroDivisionError)
      ensures !dummy && !batchMode && nUtts.Some? && batchSize > 0 ==>
        r.Ok? && r.value * batchSize <= nUtts.value < (r.value + 1) * batchSize
      ensures !dummy && !batchMode && nUtts.Some? && batchSize < 0 ==>
        r.Ok? && r.value <= 0 && -r.value * -batchSize <= nUtts.value < (-r.value + 1) * -batchSize
    {
      if dummy then Ok(1)
      else if batchMode then
        if batches.None? then Err(AttributeError) else Ok(|batches.value|)
      else if nUtts.None? then Err(AttributeError)
      else if batchSize == 0 then Err(ZeroDivisionError)
      else Ok(TruncDiv(nUtts.value, batchSize))
    }

    /** What `generate_data` yields for one converted batch, and the exception that stops it. */
    function Step(c: Converted): (seq<Yield>, Option<PyError>)
      requires LengthsMatch(c)
    {
      if batchMode then BatchStep(c) else ExampleYields(c)
    }

    /** What `generate_data` yields for one batch before moving on, and the exception that stops it. */
    function BatchOutcome(batch: Batch, load: Loader): (seq<Yield>, Option<PyError>)
      reads converter
    {
      match converter.Call(batch, load)
      case Err(e) => ([], Some(e))
      case Ok(c) => Step(c)
    }

    /**
     * Everything `generate_data` yields for the batches `bs`, in order, and the
     * exception that ends it early, if any.
     */
    function Generated(bs: seq<Batch>, load: Loader): (seq<Yield>, Option<PyError>)
      reads converter
      decreases |bs|
    {
      if |bs| == 0 then ([], None)
      else
        var step := BatchOutcome(bs[0], load);
        if step.1.Some? then step
        else
          var rest := Generated(bs[1..], load);
          (step.0 + rest.0, rest.1)
    }

    /** `Generated` on a nonempty list: the first batch's outcome, then the rest unless it failed. */
    lemma GeneratedUnfold(bs: seq<Batch>, load: Loader, produced: seq<Yield>, failure: Option<PyError>)
      requires |bs| > 0 && (produced, failure) == BatchOutcome(bs[0], load)
      ensures failure.Some? ==> Generated(bs, load) == (produced, failure)
      ensures failure.None? ==>
        Generated(bs, load) == (produced + Generated(bs[1..], load).0, Generated(bs[1..], load).1)
    {
    }

    /**
     * The run over `bs` has yielded `out` before reaching the batches `rest`; the first of
     * them fails, so the run ends with its yields and its exception.
     */
    lemma GeneratedStops(bs: seq<Batch>, rest: seq<Batch>, load: Loader, out: seq<Yield>,
                         produced: seq<Yield>, failure: Option<PyError>)
      requires |rest| > 0 && failure.Some?
      requires Generated(bs, load) == (out + Generated(rest, load).0, Generated(rest, load).1)
      requires (produced, failure) == BatchOutcome(rest[0], load)
      ensures Generated(bs, load) == (out + produced, failure)
    {
      GeneratedUnfold(rest, load, produced, failure);
    }

    /**
     * The run over `bs` has yielded `out` before reaching the batches `rest`; the first of
     * them succeeds, so its yields join `out` and the run goes on with the others.
     */
    lemma GeneratedContinues(bs: seq<Batch>, rest: seq<Batch>, load: Loader, out: seq<Yield>, produced: seq<Yield>)
      requires |rest| > 0
      requires Generated(bs, load) == (out + Generated(rest, load).0, Generated(rest, load).1)
      requires (produced, None) == BatchOutcome(rest[0], load)
      ensures Generated(bs, load) == (out + produced + Generated(rest[1..], load).0, Generated(rest[1..], load).1)
    {
      GeneratedUnfold(rest, load, produced, None);
      var next := Generated(rest[1..], load);
      assert out + (produced + next.0) == out + produced + next.0;
    }

    /** The body of the outer loop of `generate_data`: convert one batch and yield from it. */
    method GenerateBatch(batch: Batch, load: Loader) returns (produced: seq<Yield>, failure: Option<PyError>)
      ensures (produced, failure) == BatchOutcome(batch, load)
    {
      var conv := converter.Call(batch, load);
      if conv.Err? {
        return [], Some(conv.error);
      }
      if batchMode {
        produced, failure := PadBatch(conv.value);
      } else {
        produced, failure := SplitBatch(conv.value);
      }
    }

    /** `generate_data`: the generator, run to its end or to the first exception. */
    method GenerateData(load: Loader) returns (out: seq<Yield>, err: Option<PyError>)
      ensures batches.None? ==> out == [] && err == Some(AttributeError)
      ensures batches.Some? ==> (out, err) == Generated(batches.value, load)
    {
      if batches.None? {
        return [], Some(AttributeError);
      }
      var bs := batches.value;
      out := [];
      assert [] + Generated(bs, load).0 == Generated(bs, load).0 && bs[0..] == bs;
      var b := 0;
      while b < |bs|
        invariant 0 <= b <= |bs|
        invariant Generated(bs, load) == (out + Generated(bs[b..], load).0, Generated(bs[b..], load).1)
      {
        var produced, failure := GenerateBatch(bs[b], load);
        assert bs[b..][0] == bs[b] && bs[b..][1..] == bs[b + 1..];
        if failure.Some? {
          GeneratedStops(bs, bs[b..], load, out, produced, failure);
          return out + produced, failure;
        }
        GeneratedContinues(bs, bs[b..], load, out, produced);
        out := out + produced;
        b := b + 1;
      }
      assert bs[b..] == [] && out + [] == out;
      err := None;
    }

    /** A yielded batch is rectangular: one length per example, equally shaped inputs and targets. */
    predicate Rectangular(y: Yield)
    {
      && y.Batched?
      && |y.feats| > 0 && |y.ilens| == |y.feats| && |y.targets| == |y.feats| && |y.olens| == |y.feats|
      && SameShape(y.feats) && SameLength(y.targets)
      && forall i :: 0 <= i < |y.feats| ==> y.ilens[i] <= |y.feats[i].rows|
    }

    /**
     * In batch mode a run without exception yields exactly one padded batch per
     * batch, each of them rectangular.
     */
    lemma {:induction false} GeneratedBatchCount(bs: seq<Batch>, load: Loader)
      requires batchMode
      requires Generated(bs, load).1.None?
      ensures |Generated(bs, load).0| == |bs|
      ensures forall y :: y in Generated(bs, load).0 ==> Rectangular(y)
      decreases |bs|
    {
      if |bs| > 0 {
        var step := BatchOutcome(bs[0], load);
        var rest := Generated(bs[1..], load);
        assert step.1.None? && Generated(bs, load) == (step.0 + rest.0, rest.1);
        GeneratedBatchCount(bs[1..], load);
        var c := converter.Call(bs[0], load).value;
        assert step == BatchStep(c);
        BatchYieldRectangular(c);
        assert step.0 == [BatchYield(c).value];
      }
    }

    /** Outside batch mode every yielded example reports the lengths of its own arrays. */
    lemma {:induction false} GeneratedExamplesConsistent(bs: seq<Batch>, load: Loader)
      requires !batchMode
      ensures forall y :: y in Generated(bs, load).0 ==>
        y.Single? && y.ilen == |y.feat.rows| && y.olen == |y.target|
      decreases |bs|
    {
      if |bs| > 0 {
        GeneratedExamplesConsistent(bs[1..], load);
      }
    }

    /**
     * In batch mode, `steps_per_epoch` counts the values `generate_data` yields
     * when it runs to its end.
     */
    lemma StepsMatchYields(load: Loader)
      requires !dummy && batchMode && batches.Some?
      requires Generated(batches.value, load).1.None?
      ensures StepsPerEpoch() == Ok(|Generated(batches.value, load).0|)
    {
      GeneratedBatchCount(batches.value, load);
    }

    /**
     * Outside batch mode, with a loader that returns one input and one target per
     * utterance, `generate_data` runs to its end and yields one tuple per utterance:
     * as many as the batch sizes add up to.
     */
    lemma {:induction false} GeneratedExampleCount(bs: seq<Batch>, load: Loader)
      requires !batchMode
      requires converter.loader.Espnet? && converter.subsamplingFactor.Some?
      requires forall j :: 0 <= j < |bs| ==>
        |load(converter.loader.conf, bs[j]).0| == |bs[j]| == |load(converter.loader.conf, bs[j]).1|
      ensures Generated(bs, load).1.None?
      ensures |Generated(bs, load).0| == TotalUtts(bs)
      decreases |bs|
    {
      if |bs| > 0 {
        GeneratedExampleCount(bs[1..], load);
      }
    }

    /** `feature_spec`. */
    function FeatureSpec(batchSizeArg: int): (r: TensorSpec)
      ensures r.types == [Float32, Int32, Int32, Int32]
      ensures |r.shapes| == 4
      ensures batchMode || dummy ==>
        var lead := if dummy then Some(batchSizeArg) else None;
        && |r.shapes[0]| == |featShape| + 2 && r.shapes[0][0] == lead
        && r.shapes[1] == [lead] && |r.shapes[2]| == 2 && r.shapes[2][0] == lead && r.shapes[3] == [lead]
      ensures !batchMode && !dummy ==>
        |r.shapes[0]| == |featShape| + 1 && r.shapes[1] == [] && |r.shapes[2]| == 1 && r.shapes[3] == []
      ensures |r.shapes[0]| >= |featShape| + 1 && r.shapes[0][|r.shapes[0]| - |featShape| - 1] == r.shapes[2][|r.shapes[2]| - 1]
      ensures r.shapes[2][|r.shapes[2]| - 1] == if dummy then Some(10) else None
      ensures forall i :: 0 <= i < |featShape| ==> r.shapes[0][|r.shapes[0]| - |featShape| + i] == Some(featShape[i])
      ensures r.values == if dummy then Some([1, 2, 3, 4]) else None
    {
      var batch: Option<int> := if dummy then Some(batchSizeArg) else None;
      var time: Option<int> := if dummy then Some(10) else None;
      var feat := seq(|featShape|, i requires 0 <= i < |featShape| => Some(featShape[i]));
      var types := [Float32, Int32, Int32, Int32];
      var shapes :=
        if batchMode || dummy then [[batch, time] + feat, [batch], [batch, time], [batch]]
        else [[time] + feat, [], [time], []];
      var values := if dummy then Some([1, 2, 3, 4]) else None;
      TensorSpec(types, shapes, values)
    }
  }

  /**
   * `batches[0][0][1]['input'][0]['shape'][1:]` and
   * `batches[0][0][1]['output'][0]['shape'][1]`: the feature shape and the vocabulary
   * size read from the first utterance of the first batch.
   */
  function FirstUttShapes(batches: seq<Batch>): (r: Result<(seq<int>, int)>)
    ensures r.Ok? <==>
      && |batches| > 0 && |batches[0]| > 0
      && |batches[0][0].1.input| > 0 && |batches[0][0].1.output| > 0
      && |batches[0][0].1.output[0].shape| > 1
    ensures r.Err? ==> r.error == IndexError
    ensures r.Ok? ==>
      var inShape := batches[0][0].1.input[0].shape;
      && r.value.0 == (if |inShape| == 0 then [] else inShape[1..])
      && r.value.1 == batches[0][0].1.output[0].shape[1]
  {
    if |batches| == 0 || |batches[0]| == 0 then Err(IndexError)
    else
      var info := batches[0][0].1;
      if |info.input| == 0 then Err(IndexError)
      else
        var inShape := info.input[0].shape;
        var featShape := if |inShape| == 0 then [] else inShape[1..];
        if |info.output| == 0 || |info.output[0].shape| < 2 then Err(IndexError)
        else Ok((featShape, info.output[0].shape[1]))
  }

  /**
   * `AsrSeqTask(config, mode)`: in dummy mode a 40-dimensional feature and a
   * vocabulary of 100; otherwise the batches of `get_batches` and the shapes of
   * their first utterance. Either way an `ASRConverter` is attached.
   */
  method NewAsrSeqTask(config: Config, raw: seq<Utt>, ngpu: nat, perDevice: (int, nat) -> int, batcher: Batcher)
    returns (r: Result<AsrSeqTask>)
    requires DistinctIds(raw)
    ensures config.task.dummy ==> (r.Ok? <==> config.task.taskType == "asr")
    ensures !config.task.dummy ==>
      (r.Ok? <==> config.task.taskType == "asr"
                  && FirstUttShapes(GetBatches(config, raw, ngpu, perDevice, batcher).value.data).Ok?)
    ensures r.Err? ==>
      r.error == if !config.task.dummy && (config.task.taskType == "asr" || config.task.taskType == "tts")
                    && FirstUttShapes(GetBatches(config, raw, ngpu, perDevice, batcher).value.data).Err?
                 then IndexError else AssertionError
    ensures r.Ok? ==> fresh(r.value) && fresh(r.value.converter) && r.value.config == config
    ensures r.Ok? ==>
      && r.value.dummy == config.task.dummy && r.value.batchMode == config.task.batchMode
      && r.value.batchSize == config.optimizer.batchSize
    ensures r.Ok? ==> r.value.converter.config == config
    ensures r.Ok? ==> r.value.converter.preprocessConf == config.task.src.preprocessConf
    ensures r.Ok? ==> r.value.converter.subsamplingFactor == Some(config.task.src.subsamplingFactor)
    ensures r.Ok? ==> r.value.converter.loader == Espnet(LoaderConf("asr", true, config.task.src.preprocessConf))
    ensures r.Ok? && config.task.dummy ==>
      && r.value.featShape == [40] && r.value.vocabSize == 100
      && r.value.batches.None? && r.value.nUtts.None?
    ensures r.Ok? && !config.task.dummy ==>
      var meta := GetBatches(config, raw, ngpu, perDevice, batcher).value;
      && r.value.batches == Some(meta.data) && r.value.nUtts == Some(|raw|)
      && (r.value.featShape, r.value.vocabSize) == FirstUttShapes(meta.data).value
  {
    var batches: Option<seq<Batch>> := None;
    var nUtts: Option<nat> := None;
    var featShape: seq<int>;
    var vocabSize: int;
    if config.task.dummy {
      featShape, vocabSize := [40], 100;
    } else {
      var metas := GetBatches(config, raw, ngpu, perDevice, batcher);
      if metas.Err? {
        return Err(metas.error);
      }
      batches, nUtts := Some(metas.value.data), Some(metas.value.nUtts);
      var shapes := FirstUttShapes(metas.value.data);
      if shapes.Err? {
        return Err(shapes.error);
      }
      featShape, vocabSize := shapes.value.0, shapes.value.1;
    }
    var converter := NewAsrConverter(config);
    if converter.Err? {
      return Err(converter.error);
    }
    var task := new AsrSeqTask(config, batches, nUtts, featShape, vocabSize, converter.value);
    r := Ok(task);
  }
}
