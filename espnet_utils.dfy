/**
 * The batching adapter of the toolkit: building the batch list from the corpus
 * manifest (`make_batchset`, `get_batches`) and the converter that turns one
 * batch into input and target arrays with their lengths (`Converter`,
 * `ASRConverter`). The ESPnet batcher and loader it delegates to are
 * parameters of the model: `Batcher` and `Loader`.
 */
module EspnetUtils {
  import opened Wrappers
  import opened Arrays
  import opened Conf
  import StringOrder

  // ---------------------------------------------------------------- manifest

  /** The `shape` of one `input` or `output` descriptor of an utterance. */
  datatype IoInfo = IoInfo(shape: seq<int>)

  /** The value of one `utts` entry: its `input` and `output` descriptor lists. */
  datatype UttInfo = UttInfo(input: seq<IoInfo>, output: seq<IoInfo>)

  /** One manifest item: utterance id and its entry. */
  type Utt = (string, UttInfo)

  /** A minibatch: a list of manifest items. */
  type Batch = seq<Utt>

  /** The items of a dictionary have distinct keys. */
  predicate DistinctIds(items: seq<Utt>)
  {
    forall i, j :: 0 <= i < j < |items| ==> items[i].0 != items[j].0
  }

  predicate StrictlyAscending(items: seq<Utt>)
  {
    forall i, j :: 0 <= i < j < |items| ==> StringOrder.Less(items[i].0, items[j].0)
  }

  /** Inserts `u` into a list already in ascending id order. */
  function Insert(u: Utt, s: seq<Utt>): (r: seq<Utt>)
    requires StrictlyAscending(s)
    requires forall e :: e in s ==> e.0 != u.0
    ensures StrictlyAscending(r)
    ensures multiset(r) == multiset(s) + multiset{u}
  {
    if |s| == 0 then [u]
    else if StringOrder.Less(u.0, s[0].0) then
      assert forall j | 0 <= j < |s| :: StringOrder.Less(u.0, s[j].0) by {
        forall j | 0 <= j < |s| ensures StringOrder.Less(u.0, s[j].0) {
          if j > 0 { StringOrder.LessTransitive(u.0, s[0].0, s[j].0); }
        }
      }
      [u] + s
    else
      StringOrder.LessTotal(u.0, s[0].0);
      var rest := Insert(u, s[1..]);
      assert s == [s[0]] + s[1..];
      assert forall e | e in rest :: StringOrder.Less(s[0].0, e.0) by {
        forall e | e in rest ensures StringOrder.Less(s[0].0, e.0) {
          assert e in multiset(rest);
          if e != u {
            assert e in s[1..];
          }
        }
      }
      [s[0]] + rest
  }

  /**
   * `sorted(items, key=lambda t: t[0])`: the manifest items in ascending id order.
   * Ids are distinct, so the order is strict and the result is the one such
   * arrangement of the items.
   */
  function SortById(items: seq<Utt>): (r: seq<Utt>)
    requires DistinctIds(items)
    ensures StrictlyAscending(r)
    ensures multiset(r) == multiset(items)
    ensures |r| == |items|
  {
    if |items| == 0 then []
    else
      var rest := SortById(items[1..]);
      assert items == [items[0]] + items[1..];
      assert forall e | e in rest :: e.0 != items[0].0 by {
        forall e | e in rest ensures e.0 != items[0].0 {
          assert e in multiset(items[1..]);
          var k :| 0 <= k < |items[1..]| && items[1..][k] == e;
          assert items[k + 1] == e;
        }
      }
      Insert(items[0], rest)
  }

  // ------------------------------------------------------------ make_batchset

  /** `TASK_SET`: the task types the adapter accepts. */
  const TaskSet: map<string, string> := map["asr" := "asr", "tts" := "tts"]

  /** The keyword arguments of `make_batchset` after `task` and `data`. */
  datatype BatchsetParams = BatchsetParams(
    batchSize: int,
    maxLengthIn: int,
    maxLengthOut: int,
    numBatches: int,
    batchSortKey: string,
    minBatchSize: int,
    shortestFirst: bool,
    batchBins: int,
    batchFramesIn: int,
    batchFramesOut: int,
    batchFramesInout: int,
    batchStrategy: string)

  /** The arguments `make_batchset` passes on to the ESPnet batcher (`count` is `batchStrategy`). */
  datatype EspnetRequest = EspnetRequest(data: seq<Utt>, params: BatchsetParams, swapIo: bool)

  /** `espnet.utils.training.batchfy.make_batchset`, which this code does not define. */
  type Batcher = EspnetRequest -> seq<Batch>

  /**
   * `make_batchset`: checks the task type, asks the ESPnet batcher for the batches,
   * with inputs and outputs swapped for text-to-speech, and keeps only the first
   * `numBatches` batches when that is positive.
   */
  function MakeBatchset(task: string, data: seq<Utt>, params: BatchsetParams, batcher: Batcher)
    : (r: Result<seq<Batch>>)
    ensures r.Ok? <==> task == "asr" || task == "tts"
    ensures r.Err? ==> r.error == AssertionError
    ensures r.Ok? ==>
      var out := batcher(EspnetRequest(data, params, task == "tts"));
      && r.value <= out
      && |r.value| == (if 0 < params.numBatches < |out| then params.numBatches else |out|)
      && (params.numBatches <= 0 ==> r.value == out)
  {
    if task !in TaskSet then Err(AssertionError)
    else
      var swapIo := task == TaskSet["tts"];
      var minibatches := batcher(EspnetRequest(data, params, swapIo));
      if params.numBatches > 0 then
        Ok(minibatches[..if params.numBatches < |minibatches| then params.numBatches else |minibatches|])
      else
        Ok(minibatches)
  }

  // -------------------------------------------------------------- get_batches

  /** What `get_batches` returns: the batch list and the number of utterances. */
  datatype BatchesMeta = BatchesMeta(data: seq<Batch>, nUtts: nat)

  /** Which config side is the source and which the target, for each task direction. */
  function SourceTarget(task: string): (st: (SideName, SideName))
    requires task == "asr" || task == "tts"
  {
    if task == TaskSet["asr"] then (Src, Tgt) else (Tgt, Src)
  }

  /**
   * The keyword arguments `get_batches` gives `make_batchset`, for `ngpu` visible
   * devices and the per-device batch size computed by `perDevice` (a helper this
   * code does not define).
   */
  function GetBatchesParams(config: Config, ngpu: nat, perDevice: (int, nat) -> int): (p: BatchsetParams)
    requires config.task.taskType == "asr" || config.task.taskType == "tts"
    ensures config.task.taskType == "asr" ==>
      p.maxLengthIn == config.task.src.maxLen && p.maxLengthOut == config.task.tgt.maxLen
    ensures config.task.taskType == "tts" ==>
      p.maxLengthIn == config.task.tgt.maxLen && p.maxLengthOut == config.task.src.maxLen
    ensures p.minBatchSize == if ngpu != 0 then ngpu else 1
    ensures p.batchSize == perDevice(config.optimizer.batchSize, ngpu)
    ensures p.numBatches == config.task.numBatches && p.batchSortKey == config.task.batchSortKey
    ensures p.shortestFirst == config.task.sortagrad && p.batchStrategy == config.optimizer.batchStrategy
    ensures p.batchBins == config.optimizer.batchBins && p.batchFramesIn == config.optimizer.batchFramesIn
    ensures p.batchFramesOut == config.optimizer.batchFramesOut
    ensures p.batchFramesInout == config.optimizer.batchFramesInout
  {
    var (src, tgt) := SourceTarget(config.task.taskType);
    var opt := config.optimizer;
    BatchsetParams(
      batchSize := perDevice(opt.batchSize, ngpu),
      maxLengthIn := Side(config.task, src).maxLen,
      maxLengthOut := Side(config.task, tgt).maxLen,
      numBatches := config.task.numBatches,
      batchSortKey := config.task.batchSortKey,
      minBatchSize := if ngpu != 0 then ngpu else 1,
      shortestFirst := config.task.sortagrad,
      batchBins := opt.batchBins,
      batchFramesIn := opt.batchFramesIn,
      batchFramesOut := opt.batchFramesOut,
      batchFramesInout := opt.batchFramesInout,
      batchStrategy := opt.batchStrategy)
  }

  /**
   * `get_batches` on the parsed `utts` dictionary `raw` (its items in file order):
   * sorts the items by id, counts them, and builds the batches.
   */
  function GetBatches(config: Config, raw: seq<Utt>, ngpu: nat, perDevice: (int, nat) -> int, batcher: Batcher)
    : (r: Result<BatchesMeta>)
    requires DistinctIds(raw)
    ensures r.Ok? <==> config.task.taskType == "asr" || config.task.taskType == "tts"
    ensures r.Err? ==> r.error == AssertionError
    ensures r.Ok? ==> r.value.nUtts == |raw|
    ensures r.Ok? ==>
      var params := GetBatchesParams(config, ngpu, perDevice);
      var out := batcher(EspnetRequest(SortById(raw), params, config.task.taskType == "tts"));
      && r.value.data <= out
      && |r.value.data| == (if 0 < config.task.numBatches < |out| then config.task.numBatches else |out|)
  {
    var metas := SortById(raw);
    var utts := |metas|;
    var task := config.task.taskType;
    if task !in TaskSet then Err(AssertionError)
    else
      match MakeBatchset(task, metas, GetBatchesParams(config, ngpu, perDevice), batcher)
      case Err(e) => Err(e)
      case Ok(minibatches) => Ok(BatchesMeta(minibatches, utts))
  }

  // ---------------------------------------------------------------- converter

  /** The settings `LoadInputsAndTargets` is constructed with. */
  datatype LoaderConf = LoaderConf(mode: string, loadOutput: bool, preprocessConf: Option<string>)

  /** `load_inputs_and_targets`: the identity of the base class, or ESPnet's loader. */
  datatype LoaderKind = Identity | Espnet(conf: LoaderConf)

  /** ESPnet's `LoadInputsAndTargets(...)(batch)`, which this code does not define. */
  type Loader = (LoaderConf, Batch) -> (seq<Matrix>, seq<Vector>)

  /** What a converter returns: `(xs, ilens, ys, olens)`. */
  datatype Converted = Converted(xs: seq<Matrix>, ilens: seq<int>, ys: seq<Vector>, olens: seq<int>)

  /** One length per array, each the leading dimension of its array. */
  predicate LengthsMatch(c: Converted)
  {
    && |c.ilens| == |c.xs| && |c.olens| == |c.ys|
    && (forall i :: 0 <= i < |c.xs| ==> c.ilens[i] == |c.xs[i].rows|)
    && (forall i :: 0 <= i < |c.ys| ==> c.olens[i] == |c.ys[i]|)
  }

  /** `s[::k]`: the elements at positions 0, k, 2k, ... */
  function Strided<T>(s: seq<T>, k: nat): seq<T>
    requires k > 0
    decreases |s|
  {
    if |s| == 0 then [] else [s[0]] + Strided(s[if k < |s| then k else |s|..], k)
  }

  /** Euclidean division steps by one when a full divisor is added. */
  lemma DivStep(a: int, k: int)
    requires k > 0
    ensures (a + k) / k == a / k + 1
  {
    var q, r := a / k, a % k;
    var q2, r2 := (a + k) / k, (a + k) % k;
    assert a == q * k + r && 0 <= r < k;
    assert a + k == q2 * k + r2 && 0 <= r2 < k;
    var x := q2 - q - 1;
    assert x * k == q2 * k - q * k - k;
    assert x * k == r - r2;
    assert x >= 1 ==> x * k >= k;
    assert x <= -1 ==> x * k <= -k;
  }

  /** ceil(n / k) is 1 for 0 < n <= k. */
  lemma CeilOne(n: int, k: int)
    requires 0 < n <= k
    ensures (n + k - 1) / k == 1
  {
    assert (n - 1) / k == 0;
    DivStep(n - 1, k);
  }

  /** ceil(n / k) is one more than ceil((n - k) / k). */
  lemma CeilStep(n: int, k: int)
    requires k > 0
    ensures (n + k - 1) / k == (n - k + k - 1) / k + 1
  {
    DivStep(n - 1, k);
  }

  lemma MulStep(i: int, k: int)
    ensures (i - 1) * k + k == i * k
  {
  }

  /** `s[::k]` keeps ceil(|s| / k) elements. */
  lemma {:induction false} StridedLength<T>(s: seq<T>, k: nat)
    requires k > 0
    ensures |Strided(s, k)| == (|s| + k - 1) / k
    decreases |s|
  {
    if |s| == 0 {
    } else if k >= |s| {
      assert |Strided(s, k)| == 1 + |Strided(s[|s|..], k)|;
      CeilOne(|s|, k);
    } else {
      var t := s[k..];
      assert |Strided(s, k)| == 1 + |Strided(t, k)|;
      StridedLength(t, k);
      CeilStep(|s|, k);
    }
  }

  /** The element of `s[::k]` at position i is `s[i * k]`. */
  lemma {:induction false} StridedAt<T>(s: seq<T>, k: nat, i: nat)
    requires k > 0 && i < |Strided(s, k)|
    ensures i * k < |s| && Strided(s, k)[i] == s[i * k]
    decreases |s|
  {
    if i > 0 {
      StridedAt(s[if k < |s| then k else |s|..], k, i - 1);
      MulStep(i, k);
    }
  }

  /** Every k-th row of a rectangular array is a row of the same width. */
  lemma StridedRectangular(m: Matrix, k: nat)
    requires k > 0
    ensures Rectangular(Mat(Strided(m.rows, k), m.cols))
  {
    var rows := Strided(m.rows, k);
    forall i | 0 <= i < |rows| ensures |rows[i]| == m.cols {
      StridedAt(m.rows, k, i);
    }
  }

  /** `x[::k, :]`: every k-th row of a two-dimensional array, all columns. */
  function Subsample(m: Matrix, k: nat): (r: Matrix)
    requires k > 0
    ensures r.cols == m.cols
    ensures |r.rows| == (|m.rows| + k - 1) / k
    ensures forall i :: 0 <= i < |r.rows| ==> i * k < |m.rows| && r.rows[i] == m.rows[i * k]
  {
    StridedRectangular(m, k);
    StridedLength(m.rows, k);
    var r: Matrix := Mat(Strided(m.rows, k), m.cols);
    assert forall i | 0 <= i < |r.rows| :: i * k < |m.rows| && r.rows[i] == m.rows[i * k] by {
      forall i | 0 <= i < |r.rows| ensures i * k < |m.rows| && r.rows[i] == m.rows[i * k] {
        StridedAt(m.rows, k, i);
      }
    }
    r
  }

  /** `Converter` and, through `NewAsrConverter`, `ASRConverter`. */
  class Converter {
    const config: Config
    var subsamplingFactor: Option<int>
    var preprocessConf: Option<string>
    var loader: LoaderKind

    /** `Converter.__init__`: nothing configured yet, identity loader. */
    constructor (config: Config)
      ensures this.config == config
      ensures subsamplingFactor == None && preprocessConf == None && loader == Identity
    {
      this.config := config;
      subsamplingFactor := None;
      preprocessConf := None;
      loader := Identity;
    }

    /**
     * `Converter.__call__`: loads the batch, keeps every k-th input row when the
     * subsampling factor k exceeds 1, and reports the lengths. Targets are never
     * subsampled. The identity loader hands back the batch list itself, whose
     * unpacking into `xs, ys` fails unless it has two items; with two items the
     * call still fails on the items, which are not arrays.
     */
    function Call(batch: Batch, load: Loader): (r: Result<Converted>)
      reads this
      ensures r.Ok? <==> loader.Espnet? && subsamplingFactor.Some?
      ensures loader.Identity? && |batch| != 2 ==> r == Err(ValueError)
      ensures loader.Espnet? && subsamplingFactor.None? ==> r == Err(TypeError)
      ensures r.Ok? ==> LengthsMatch(r.value)
      ensures r.Ok? ==>
        var (xs, ys) := load(loader.conf, batch);
        var k := subsamplingFactor.value;
        && r.value.ys == ys
        && |r.value.xs| == |xs|
        && (forall i :: 0 <= i < |xs| ==> r.value.xs[i] == if k > 1 then Subsample(xs[i], k) else xs[i])
        && (k > 1 ==> forall i :: 0 <= i < |xs| ==> r.value.ilens[i] == (|xs[i].rows| + k - 1) / k)
        && (k <= 1 ==> forall i :: 0 <= i < |xs| ==> r.value.ilens[i] == |xs[i].rows|)
    {
      match loader
      case Identity =>
        if |batch| != 2 then Err(ValueError)
        else if subsamplingFactor.None? then Err(TypeError)
        else if subsamplingFactor.value > 1 then Err(TypeError)
        else Err(AttributeError)
      case Espnet(conf) =>
        var (xs0, ys) := load(conf, batch);
        match subsamplingFactor
        case None => Err(TypeError)
        case Some(k) =>
          var xs := if k > 1 then seq(|xs0|, i requires 0 <= i < |xs0| => Subsample(xs0[i], k)) else xs0;
          var ilens := seq(|xs|, i requires 0 <= i < |xs| => |xs[i].rows|);
          var olens := seq(|ys|, i requires 0 <= i < |ys| => |ys[i]|);
          Ok(Converted(xs, ilens, ys, olens))
    }
  }

  /**
   * `ASRConverter(config)`: a converter configured from the `src` side of the task
   * config, with ESPnet's loader in `asr` mode. The task type must be `asr`.
   */
  method NewAsrConverter(config: Config) returns (r: Result<Converter>)
    ensures r.Ok? <==> config.task.taskType == "asr"
    ensures r.Err? ==> r.error == AssertionError
    ensures r.Ok? ==> fresh(r.value) && r.value.config == config
    ensures r.Ok? ==> r.value.subsamplingFactor == Some(config.task.src.subsamplingFactor)
    ensures r.Ok? ==> r.value.preprocessConf == config.task.src.preprocessConf
    ensures r.Ok? ==> r.value.loader == Espnet(LoaderConf("asr", true, config.task.src.preprocessConf))
  {
    var c := new Converter(config);
    var taskconf := config.task;
    if taskconf.taskType != TaskSet["asr"] {
      return Err(AssertionError);
    }
    c.subsamplingFactor := Some(taskconf.src.subsamplingFactor);
    c.preprocessConf := taskconf.src.preprocessConf;
    c.loader := Espnet(LoaderConf(taskconf.taskType, true, c.preprocessConf));
    r := Ok(c);
  }
}
