/**
 * The constants AlgorithmConfig uses and the state `AlgorithmConfig.__init__` builds.
 */
module Defaults {
  import opened Wrappers
  import opened Attributes
  import opened PyObjects
  import opened ConfigObject

  /** `DEPRECATED_VALUE` of RLlib's deprecation utilities: the integer -1. */
  const DEPRECATED_VALUE: Value := IntV(-1)

  /** `DEFAULT_POLICY_ID`. */
  const DEFAULT_POLICY_ID: string := "default_policy"

  /** `TRIAL_INFO`, the key Ray Tune adds to a config dict. */
  const TRIAL_INFO: string := "__trial_info__"

  /** `PolicySpec()`: no class, spaces or config overrides. */
  const DEFAULT_POLICY_SPEC: Value := SpecV(NoneV, NoneV, NoneV, NoneV)

  /** The `DefaultCallbacks` class. */
  const DEFAULT_CALLBACKS: Value := ObjectV("DefaultCallbacks", true)

  /** The `SimpleListCollector` class. */
  const SIMPLE_LIST_COLLECTOR: Value := ObjectV("SimpleListCollector", true)

  /** The default policy mapping function, which maps every agent to DEFAULT_POLICY_ID. */
  const DEFAULT_POLICY_MAPPING_FN: Value := ObjectV("<lambda>", true)

  /**
   * A copy of the model catalog's `MODEL_DEFAULTS`. The catalog is not part of this model: the
   * stand-in is a dictionary whose entries no property here depends on.
   */
  const MODEL_DEFAULTS: Value := DictV([])

  /** The value `__init__` gives attribute `a` when the config is built for `algoClass`. */
  function DefaultOf(algoClass: Value, a: Attr): Value
  {
    match a
    case AlgoClass => algoClass
    case ExtraPythonEnvironsForDriver => DictV([])
    case ExtraPythonEnvironsForWorker => DictV([])
    case NumGpus => IntV(0)
    case NumCpusPerWorker => IntV(1)
    case NumGpusPerWorker => IntV(0)
    case FakeGpus => BoolV(false)
    case NumCpusForLocalWorker => IntV(1)
    case CustomResourcesPerWorker => DictV([])
    case PlacementStrategy => StrV("PACK")
    case FrameworkStr => StrV("tf")
    case EagerTracing => BoolV(false)
    case EagerMaxRetraces => IntV(20)
    case TfSessionArgs => DictV([(StrV("intra_op_parallelism_threads"), IntV(2)), (StrV("inter_op_parallelism_threads"), IntV(2)), (StrV("gpu_options"), DictV([(StrV("allow_growth"), BoolV(true))])), (StrV("log_device_placement"), BoolV(false)), (StrV("device_count"), DictV([(StrV("CPU"), IntV(1))])), (StrV("allow_soft_placement"), BoolV(true))])
    case LocalTfSessionArgs => DictV([(StrV("intra_op_parallelism_threads"), IntV(8)), (StrV("inter_op_parallelism_threads"), IntV(8))])
    case Env => NoneV
    case EnvConfig => DictV([])
    case ObservationSpace => NoneV
    case ActionSpace => NoneV
    case EnvTaskFn => NoneV
    case RenderEnv => BoolV(false)
    case ClipRewards => NoneV
    case NormalizeActions => BoolV(true)
    case ClipActions => BoolV(false)
    case DisableEnvChecking => BoolV(false)
    case NumRolloutWorkers => IntV(0)
    case NumEnvsPerWorker => IntV(1)
    case SampleCollector => SIMPLE_LIST_COLLECTOR
    case CreateEnvOnLocalWorker => BoolV(false)
    case SampleAsync => BoolV(false)
    case EnableConnectors => BoolV(false)
    case RolloutFragmentLength => IntV(200)
    case BatchMode => StrV("truncate_episodes")
    case RemoteWorkerEnvs => BoolV(false)
    case RemoteEnvBatchWaitMs => IntV(0)
    case ValidateWorkersAfterConstruction => BoolV(true)
    case IgnoreWorkerFailures => BoolV(false)
    case RecreateFailedWorkers => BoolV(false)
    case RestartFailedSubEnvironments => BoolV(false)
    case NumConsecutiveWorkerFailuresTolerance => IntV(100)
    case Horizon => NoneV
    case SoftHorizon => BoolV(false)
    case NoDoneAtEnd => BoolV(false)
    case PreprocessorPref => StrV("deepmind")
    case ObservationFilter => StrV("NoFilter")
    case SynchronizeFilters => BoolV(true)
    case CompressObservations => BoolV(false)
    case EnableTf1ExecEagerly => BoolV(false)
    case SamplerPerfStatsEmaCoef => NoneV
    case Gamma => FloatV(0.99)
    case Lr => FloatV(0.001)
    case TrainBatchSize => IntV(32)
    case Model => MODEL_DEFAULTS
    case Optimizer => DictV([])
    case CallbacksClass => DEFAULT_CALLBACKS
    case Explore => BoolV(true)
    case ExplorationConfig => DictV([(StrV("type"), StrV("StochasticSampling"))])
    case IsMultiAgent => BoolV(false)
    case Policies => DictV([(StrV(DEFAULT_POLICY_ID), DEFAULT_POLICY_SPEC)])
    case PolicyMapCapacity => IntV(100)
    case PolicyMapCache => NoneV
    case PolicyMappingFn => DEFAULT_POLICY_MAPPING_FN
    case PoliciesToTrain => NoneV
    case ObservationFn => NoneV
    case CountStepsBy => StrV("env_steps")
    case Input => StrV("sampler")
    case InputConfig => DictV([])
    case ActionsInInputNormalized => BoolV(false)
    case PostprocessInputs => BoolV(false)
    case ShuffleBufferSize => IntV(0)
    case Output => NoneV
    case OutputConfig => DictV([])
    case OutputCompressColumns => ListV([StrV("obs"), StrV("new_obs")])
    case OutputMaxFileSize => IntV(64 * 1024 * 1024)
    case OfflineSampling => BoolV(false)
    case EvaluationInterval => NoneV
    case EvaluationDuration => IntV(10)
    case EvaluationDurationUnit => StrV("episodes")
    case EvaluationSampleTimeoutS => FloatV(180.0)
    case EvaluationParallelToTraining => BoolV(false)
    case EvaluationConfig => NoneV
    case OffPolicyEstimationMethods => DictV([])
    case OpeSplitBatchByEpisode => BoolV(true)
    case EvaluationNumWorkers => IntV(0)
    case CustomEvaluationFunction => NoneV
    case AlwaysAttachEvaluationResults => BoolV(false)
    case EnableAsyncEvaluation => BoolV(false)
    case InEvaluation => BoolV(false)
    case SyncFiltersOnRolloutWorkersTimeoutS => FloatV(60.0)
    case KeepPerEpisodeCustomMetrics => BoolV(false)
    case MetricsEpisodeCollectionTimeoutS => FloatV(60.0)
    case MetricsNumEpisodesForSmoothing => IntV(100)
    case MinTimeSPerIteration => NoneV
    case MinTrainTimestepsPerIteration => IntV(0)
    case MinSampleTimestepsPerIteration => IntV(0)
    case ExportNativeModelFiles => BoolV(false)
    case LoggerCreator => NoneV
    case LoggerConfig => NoneV
    case LogLevel => StrV("WARN")
    case LogSysUsage => BoolV(true)
    case FakeSampler => BoolV(false)
    case Seed => NoneV
    case TfPolicyHandlesMoreThanOneLoss => BoolV(false)
    case DisablePreprocessorApi => BoolV(false)
    case DisableActionFlattening => BoolV(false)
    case DisableExecutionPlanApi => BoolV(true)
    case IsFrozen => BoolV(false)
    case SimpleOptimizer => DEPRECATED_VALUE
    case Monitor => DEPRECATED_VALUE
    case EvaluationNumEpisodes => DEPRECATED_VALUE
    case MetricsSmoothingEpisodes => DEPRECATED_VALUE
    case TimestepsPerIteration => DEPRECATED_VALUE
    case MinIterTimeS => DEPRECATED_VALUE
    case CollectMetricsTimeout => DEPRECATED_VALUE
    case BufferSize => DEPRECATED_VALUE
    case PrioritizedReplay => DEPRECATED_VALUE
    case LearningStarts => DEPRECATED_VALUE
    case ReplayBatchSize => DEPRECATED_VALUE
    case ReplaySequenceLength => NoneV
    case ReplayMode => DEPRECATED_VALUE
    case PrioritizedReplayAlpha => DEPRECATED_VALUE
    case PrioritizedReplayBeta => DEPRECATED_VALUE
    case PrioritizedReplayEps => DEPRECATED_VALUE
    case MinTimeSPerReporting => DEPRECATED_VALUE
    case MinTrainTimestepsPerReporting => DEPRECATED_VALUE
    case MinSampleTimestepsPerReporting => DEPRECATED_VALUE
    case InputEvaluation => DEPRECATED_VALUE
  }

  /** `AlgorithmConfig(algo_class)`: every declared attribute at its default, none other. */
  function Init(algoClass: Value): (c: Config)
    ensures Complete(c) && c.dynamic == map[]
    ensures forall a :: c.attrs[a] == DefaultOf(algoClass, a)
  {
    Config(map a: Attr | true :: DefaultOf(algoClass, a), map[])
  }


  // Attributes late in the declaration order cost the verifier one step per earlier attribute
  // to find in `DefaultOf`; the lemmas below each look up one of them, so that no proof looks up
  // several at once.

  /** The default of `_is_frozen`. */
  lemma DefaultIsFrozen(x: Value)
    ensures DefaultOf(x, IsFrozen) == BoolV(false)
  {
  }

  /** The default of `policies`. */
  lemma DefaultPolicies(x: Value)
    ensures DefaultOf(x, Policies) == DictV([(StrV(DEFAULT_POLICY_ID), DEFAULT_POLICY_SPEC)])
  {
  }

  /** The default of `_is_multi_agent`. */
  lemma DefaultIsMultiAgent(x: Value)
    ensures DefaultOf(x, IsMultiAgent) == BoolV(false)
  {
  }

  /** The default of `in_evaluation`. */
  lemma DefaultInEvaluation(x: Value)
    ensures DefaultOf(x, InEvaluation) == BoolV(false)
  {
  }

  /** The default of `evaluation_config`. */
  lemma DefaultEvaluationConfig(x: Value)
    ensures DefaultOf(x, EvaluationConfig) == NoneV
  {
  }

  /** The default of `evaluation_num_workers`. */
  lemma DefaultEvaluationNumWorkers(x: Value)
    ensures DefaultOf(x, EvaluationNumWorkers) == IntV(0)
  {
  }

  /** The default of `evaluation_parallel_to_training`. */
  lemma DefaultEvaluationParallel(x: Value)
    ensures DefaultOf(x, EvaluationParallelToTraining) == BoolV(false)
  {
  }

  /** The default of `evaluation_duration`. */
  lemma DefaultEvaluationDuration(x: Value)
    ensures DefaultOf(x, EvaluationDuration) == IntV(10)
  {
  }

  /** The default of `policies_to_train`. */
  lemma DefaultPoliciesToTrain(x: Value)
    ensures DefaultOf(x, PoliciesToTrain) == NoneV
  {
  }

  /** The default of `_disable_preprocessor_api`. */
  lemma DefaultPreprocessorApi(x: Value)
    ensures DefaultOf(x, DisablePreprocessorApi) == BoolV(false)
  {
  }

  /** The default of `_disable_action_flattening`. */
  lemma DefaultActionFlattening(x: Value)
    ensures DefaultOf(x, DisableActionFlattening) == BoolV(false)
  {
  }

  /** The default of `simple_optimizer`. */
  lemma DefaultSimpleOptimizer(x: Value)
    ensures DefaultOf(x, SimpleOptimizer) == DEPRECATED_VALUE
  {
  }

  /** A new config is not frozen. */
  lemma InitNotFrozen(algoClass: Value)
    ensures !Frozen(Init(algoClass))
  {
    DefaultIsFrozen(algoClass);
  }

  /** A new config holds the single default policy and is not multi-agent. */
  lemma InitSingleAgent(algoClass: Value)
    ensures Init(algoClass).attrs[Policies] == DictV([(StrV(DEFAULT_POLICY_ID), DEFAULT_POLICY_SPEC)])
    ensures Init(algoClass).attrs[IsMultiAgent] == BoolV(false)
  {
    DefaultPolicies(algoClass);
    DefaultIsMultiAgent(algoClass);
  }

  /** A new config is not an evaluation config and has no evaluation overrides. */
  lemma InitNotEvaluation(algoClass: Value)
    ensures Init(algoClass).attrs[InEvaluation] == BoolV(false)
    ensures Init(algoClass).attrs[EvaluationConfig] == NoneV
  {
    DefaultInEvaluation(algoClass);
    DefaultEvaluationConfig(algoClass);
  }

  /** The framework and the GPU count of a new config. */
  lemma InitFramework(algoClass: Value)
    ensures Init(algoClass).attrs[FrameworkStr] == StrV("tf")
    ensures Init(algoClass).attrs[NumGpus] == IntV(0)
  {
  }

  /** The evaluation workers of a new config. */
  lemma InitEvaluationWorkers(algoClass: Value)
    ensures Init(algoClass).attrs[EvaluationNumWorkers] == IntV(0)
    ensures Init(algoClass).attrs[EvaluationParallelToTraining] == BoolV(false)
  {
    DefaultEvaluationNumWorkers(algoClass);
    DefaultEvaluationParallel(algoClass);
  }

  /** The evaluation duration and `policies_to_train` of a new config. */
  lemma InitEvaluationDuration(algoClass: Value)
    ensures Init(algoClass).attrs[EvaluationDuration] == IntV(10)
    ensures Init(algoClass).attrs[PoliciesToTrain] == NoneV
  {
    DefaultEvaluationDuration(algoClass);
    DefaultPoliciesToTrain(algoClass);
  }

  /** The model flags of a new config. */
  lemma InitModelFlags(algoClass: Value)
    ensures Init(algoClass).attrs[DisablePreprocessorApi] == BoolV(false)
    ensures Init(algoClass).attrs[DisableActionFlattening] == BoolV(false)
  {
    DefaultPreprocessorApi(algoClass);
    DefaultActionFlattening(algoClass);
  }

  /** A new config leaves `simple_optimizer` to be resolved by `validate()`. */
  lemma InitSimpleOptimizer(algoClass: Value)
    ensures Init(algoClass).attrs[SimpleOptimizer] == DEPRECATED_VALUE
  {
    DefaultSimpleOptimizer(algoClass);
  }
}
