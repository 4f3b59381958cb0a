/**
 * The parts of the nested configuration dictionary that the batching code reads
 * (`config['data']['task']` and `config['solver']['optimizer']`), as records.
 * A missing key would raise a `KeyError`; records always have every field.
 */
module Conf {
  import opened Wrappers

  /** `config['data']['task']['src']` or `['tgt']`. */
  datatype SideConf = SideConf(maxLen: int, subsamplingFactor: int, preprocessConf: Option<string>)

  /** `config['data']['task']`. */
  datatype TaskConf = TaskConf(
    taskType: string,
    sortagrad: bool,
    src: SideConf,
    tgt: SideConf,
    batchSortKey: string,
    numBatches: int,
    dummy: bool,
    batchMode: bool)

  /** `config['solver']['optimizer']`; `batchSize` is the global batch size. */
  datatype OptimizerConf = OptimizerConf(
    batchSize: int,
    batchBins: int,
    batchFramesIn: int,
    batchFramesOut: int,
    batchFramesInout: int,
    batchStrategy: string)

  datatype Config = Config(task: TaskConf, optimizer: OptimizerConf)

  /** The two per-direction sub-dictionaries, named by their keys. */
  datatype SideName = Src | Tgt

  function Side(t: TaskConf, name: SideName): SideConf
  {
    match name
    case Src => t.src
    case Tgt => t.tgt
  }
}
