# ASR batching pipeline of DELTA, modelled in Dafny

This project models the part of the DELTA toolkit that turns a speech corpus
manifest into training batches.

- **Batch selection** (`espnet_utils.py`). `make_batchset` checks the task type
  (`asr` or `tts`). It asks ESPnet's batcher for minibatches, with inputs and
  outputs swapped for text-to-speech, and keeps only the first `num_batches`
  batches when that is positive. `get_batches` sorts the `utts` entries of the
  manifest by utterance id and counts them. It takes the maximum lengths from the
  `src`/`tgt` sides according to the task direction and derives the minimum batch
  size from the number of GPUs.
- **Conversion** (`espnet_utils.py`). `Converter` loads a batch into input arrays
  and target arrays. It keeps every k-th input row when the subsampling factor k
  exceeds 1, and reports one length per array. `ASRConverter` configures it from
  the `src` side of the task config.
- **The ASR task** (`asr_seq_task.py`). `AsrSeqTask` has four parts:
  - construction, in dummy or real mode;
  - `steps_per_epoch`;
  - the `generate_data` generator. In batch mode it pads every input to the longest
    input and every target to the longest target, then stacks them. Otherwise it
    hands out one example at a time;
  - `feature_spec`, the tensor types and shapes announced to the input pipeline.

Modules:

| file | module | contents |
|---|---|---|
| `wrappers.dfy` | `Wrappers` | `Option`, and `Result` whose error is a Python exception |
| `conf.dfy` | `Conf` | the configuration keys the code reads, as records |
| `arrays.dfy` | `Arrays` | the numpy operations used: 2-D and 1-D arrays, constant end-padding, `max`, `np.stack` |
| `string_order.dfy` | `StringOrder` | Python's `<` on `str`, with irreflexivity, transitivity and totality |
| `espnet_utils.dfy` | `EspnetUtils` | `make_batchset`, `get_batches`, `Converter`, `ASRConverter` |
| `asr_seq_task.dfy` | `AsrTask` | `AsrSeqTask` and its generator |

Conventions:

- **Exceptions** that the code raises or lets through are `Err` values. These are
  failed asserts, `IndexError`, `ValueError` from `max([])`, `np.pad` and
  `np.stack`, `TypeError`, and reading a field that `__init__` never set.
- **Code this repository does not define** is passed in as a function parameter:
  - ESPnet's `make_batchset` is the `Batcher` parameter;
  - `LoadInputsAndTargets` is the `Loader` parameter;
  - `per_device_batch_size` is the `perDevice` parameter;
  - the GPU count `ngpu` is an argument.
- **Classes.** `Converter`, whose fields `ASRConverter.__init__` overwrites, is a
  class with mutable fields. `AsrSeqTask`, whose fields are set once, is a class
  with constant fields. The constructors that can raise are factory methods
  returning a `Result`.
- **The generator.** `generate_data` is a method with the source's nested loops. It
  returns everything yielded and the exception that stopped it, if any. It is
  proved equal to the function `Generated`, which describes the same run batch by
  batch.
- **Lengths in batch mode.** The code builds the fourth batch-mode output (`olens`)
  from `ilens`, so it holds the input lengths and not the target lengths. The model
  does the same (`BatchYield` states `olens == ilens`).

## Model

| member | source | states |
|---|---|---|
| StringOrder.LessIrreflexive | delta/data/utils/espnet_utils.py:133 | no id sorts strictly before itself |
| StringOrder.LessTransitive | delta/data/utils/espnet_utils.py:133 | the string order used by `sorted` on ids is transitive |
| StringOrder.LessTotal | delta/data/utils/espnet_utils.py:133 | any two different ids are ordered one way or the other |
| EspnetUtils.Insert | delta/data/utils/espnet_utils.py:133 | inserting an item with a new id into an id-sorted list keeps it strictly ascending and adds exactly that item |
| EspnetUtils.SortById | delta/data/utils/espnet_utils.py:133 | the sorted manifest is in strictly ascending id order and is a permutation of the parsed items (same multiset, same count) |
| EspnetUtils.MakeBatchset | delta/data/utils/espnet_utils.py:89-116 | succeeds exactly for task `asr` or `tts`, otherwise fails its assert; the batcher is called with `swap_io` true exactly for `tts`; the result is the prefix of the batcher's output of length min(`num_batches`, n) when `num_batches` > 0, and the whole output otherwise |
| EspnetUtils.GetBatchesParams | delta/data/utils/espnet_utils.py:140-180 | for `asr` the input maximum length comes from `src` and the output one from `tgt`, swapped for `tts`; `min_batch_size` is `ngpu` when nonzero, else 1; the batch size is the per-device size of the global one; the other settings are passed on unchanged |
| EspnetUtils.GetBatches | delta/data/utils/espnet_utils.py:120-182 | succeeds exactly for task `asr` or `tts`, otherwise fails its assert; `n_utts` is the number of manifest entries; `data` is the (possibly truncated) batcher output on the id-sorted manifest |
| EspnetUtils.StridedLength | delta/data/utils/espnet_utils.py:216 | `s[::k]` keeps ceil(n/k) elements |
| EspnetUtils.StridedAt | delta/data/utils/espnet_utils.py:216 | element i of `s[::k]` is element i*k of `s`, which exists |
| EspnetUtils.Subsample | delta/data/utils/espnet_utils.py:216 | `x[::k, :]` keeps the column count, has ceil(rows/k) rows, and its row i is row i*k of `x` |
| EspnetUtils.Converter.constructor | delta/data/utils/espnet_utils.py:191-195 | a fresh converter has no subsampling factor, no preprocessing config and the identity loader |
| EspnetUtils.Converter.Call | delta/data/utils/espnet_utils.py:206-222 | succeeds exactly with ESPnet's loader and a set factor; with the identity loader a batch of other than two items fails to unpack; an unset factor raises `TypeError`; on success the lengths match the arrays one for one, targets are never subsampled, inputs are subsampled when k > 1 and their lengths are then ceil(rows/k) |
| EspnetUtils.NewAsrConverter | delta/data/utils/espnet_utils.py:228-238 | succeeds exactly for task `asr`, otherwise fails its assert; the converter takes the `src` subsampling factor and preprocessing config and ESPnet's loader in `asr` mode with outputs loaded |
| Arrays.PadRows | delta/data/task/asr_seq_task.py:112-117 | row padding succeeds exactly for a non-negative width; it keeps the column count and the original rows as a prefix and adds zero rows after them |
| Arrays.PadVector | delta/data/task/asr_seq_task.py:120-125 | target padding succeeds exactly for a non-negative width; it keeps the target as a prefix and adds zeros after it |
| Arrays.Max | delta/data/task/asr_seq_task.py:106-107 | `max` fails exactly on an empty list; otherwise it returns an element that bounds every element |
| Arrays.StackMatrices | delta/data/task/asr_seq_task.py:130 | stacking succeeds exactly on a nonempty list of equally shaped arrays and keeps them in order |
| Arrays.StackVectors | delta/data/task/asr_seq_task.py:131 | stacking targets succeeds exactly on a nonempty list of equally long vectors and keeps them in order |
| AsrTask.TruncDiv | delta/data/task/asr_seq_task.py:89 | `int(a / b)` is the quotient truncated toward zero: its magnitude is the floor of the magnitudes' quotient, its sign that of a/b |
| AsrTask.PadFeats | delta/data/task/asr_seq_task.py:110-117 | each input is padded to `imax` rows, and the padded inputs share one shape exactly when the inputs share one width |
| AsrTask.PadTargets | delta/data/task/asr_seq_task.py:110-125 | each target is padded to `omax` entries, so all padded targets have one length |
| AsrTask.BatchYield | delta/data/task/asr_seq_task.py:104-135 | a converted batch yields one padded batch exactly when it has inputs, a target per input and equal input widths; too few targets raise `IndexError`, other failures `ValueError`; each input is padded with zero rows to the longest input, each target with zeros to the longest target, the originals kept as prefixes and in order; the fourth component is the input lengths |
| AsrTask.BatchYieldRectangular | delta/data/task/asr_seq_task.py:127-135 | a yielded batch has one length per example, equally shaped stacked inputs and equally long stacked targets, and no length exceeds its padded input |
| AsrTask.ExampleYields | delta/data/task/asr_seq_task.py:137-140 | outside batch mode a converted batch yields `(xs[i], ilens[i], ys[i], olens[i])` for each input in order, and raises `IndexError` after the last target when there are fewer targets than inputs |
| AsrTask.PadEach | delta/data/task/asr_seq_task.py:108-128 | the padding loop fails with `IndexError` exactly when there are fewer targets than inputs; otherwise it produces every input padded to `imax` and every paired target padded to `omax` |
| AsrTask.PadBatch | delta/data/task/asr_seq_task.py:104-135 | one batch-mode iteration yields and fails exactly as `BatchYield` describes |
| AsrTask.SplitBatch | delta/data/task/asr_seq_task.py:138-140 | one iteration outside batch mode yields and fails exactly as `ExampleYields` describes |
| AsrTask.FirstUttShapes | delta/data/task/asr_seq_task.py:52-54 | reading the feature shape and vocabulary size from the first utterance fails with `IndexError` exactly when a list on the way is too short; otherwise it returns the input shape without its first entry and the second output dimension |
| AsrTask.NewAsrSeqTask | delta/data/task/asr_seq_task.py:36-58 | in dummy mode the feature shape is [40] and the vocabulary 100, and batches are never read; otherwise the task holds the batches and utterance count of `get_batches` and the first utterance's shapes; construction succeeds exactly when the task type is `asr` and, outside dummy mode, the first utterance has the shapes read; the task reads `dummy`, `batch_mode` and `batch_size` from the config; the attached converter is a fresh `ASRConverter` on the same config, with the `src` subsampling factor and preprocessing config |
| AsrTask.AsrSeqTask.constructor | delta/data/task/asr_seq_task.py:38-40 | `dummy`, `batch_mode` and `batch_size` are read from the config |
| AsrTask.AsrSeqTask.StepsPerEpoch | delta/data/task/asr_seq_task.py:77-90 | 1 in dummy mode; the number of batches in batch mode; otherwise `n_utts / batch_size` truncated toward zero, with `ZeroDivisionError` for a zero batch size |
| AsrTask.AsrSeqTask.GenerateBatch | delta/data/task/asr_seq_task.py:103-140 | one outer-loop iteration converts the batch and yields from it as the mode dictates, or stops with the converter's exception |
| AsrTask.AsrSeqTask.GenerateData | delta/data/task/asr_seq_task.py:98-140 | the generator yields, in order, everything each batch yields up to the first exception, and ends with that exception |
| AsrTask.AsrSeqTask.GeneratedBatchCount | delta/data/task/asr_seq_task.py:102-135 | in batch mode a run without exception yields one value per batch, each a rectangular padded batch |
| AsrTask.AsrSeqTask.StepsMatchYields | delta/data/task/asr_seq_task.py:85-135 | in batch mode `steps_per_epoch` equals the number of values a complete run of the generator yields |
| AsrTask.AsrSeqTask.GeneratedExamplesConsistent | delta/data/task/asr_seq_task.py:136-140 | outside batch mode every yielded example carries the lengths of its own input and target |
| AsrTask.AsrSeqTask.GeneratedExampleCount | delta/data/task/asr_seq_task.py:136-140 | outside batch mode, with a loader giving one input and one target per utterance, the generator runs to its end and yields one tuple per utterance, the sum of the batch sizes |
| AsrTask.AsrSeqTask.FeatureSpec | delta/data/task/asr_seq_task.py:142-187 | the types are (float32, int32, int32, int32); batch or dummy mode adds a leading batch dimension, fixed to the argument only in dummy mode; the time dimension is 10 in dummy mode and unknown otherwise; the feature dimensions follow `feat_shape`; the values are (1, 2, 3, 4) in dummy mode and absent otherwise |

## Left out

- TensorFlow dataset plumbing (`dataset`, `make_example`, shuffling, padded batching, prefetching) is framework behaviour, not logic of this code.
- The internals of ESPnet's `make_batchset` and `LoadInputsAndTargets` are foreign code. They are opaque function parameters, and nothing is claimed about how they group or load utterances.
- Reading the JSON manifest, the `mode` assert and the one-path assert in `get_batches` are I/O. The parsed `utts` dictionary is the input: a list of its items with distinct ids.
- `gpu_device_names` and `per_device_batch_size` are not shown. The GPU count and the per-device function are parameters.
- `SpeechTask.__init__`, the base class constructor, is not part of this model.
- `delta/data/feat/speech_feature.py` is not part of this model. It is signal processing, WAV decoding and file I/O.
- `delta/models/text_seq_label_model.py` is not part of this model. It is a declarative Keras layer stack.
- `delta/data/task/text_match_task_test.py` is not part of this model. It is a TensorFlow session test.
- Logging is left out.
- Element values of the arrays are never computed with. Inputs are rows of reals and targets are integers. The `float32`/`int64` casts are not modelled.
- A missing configuration key would raise `KeyError`. Configurations are records with every field, so that error does not arise.
- The `ValueError` branch of `get_batches` for an unknown task type follows an assert that already rejects such types, so it is unreachable and not modelled.
- `preprocess_batch`, `generate_feat` and `generate_cmvn` return their argument or nothing. The `isinstance` assert in the `feat_shape` property always holds for the shapes the constructor stores.
- AsrTask.AsrSeqTask.StepsPerEpoch: `int(n_utts / batch_size)` divides in floating point. The model divides exactly and truncates, which differs only when the quotient is too large for a double to represent exactly.
- AsrTask.AsrSeqTask.GenerateData: the generator is lazy. The model returns everything a full run would yield, then the exception that ends the run.
- EspnetUtils.Converter.Call: with the identity loader, a two-item batch fails on its items (`TypeError` or `AttributeError`). The contract states only that the call fails.
