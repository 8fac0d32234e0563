/**
 * The attributes an AlgorithmConfig object owns after construction, one constructor per
 * attribute assigned in `AlgorithmConfig.__init__`, in the order they are assigned there.
 * Constructor names are the Python names in CamelCase without leading underscores
 * (`_is_frozen` is `IsFrozen`, `input_` is `Input`).
 */
module Attributes {

  datatype Attr =
    | AlgoClass
    | ExtraPythonEnvironsForDriver
    | ExtraPythonEnvironsForWorker
    | NumGpus
    | NumCpusPerWorker
    | NumGpusPerWorker
    | FakeGpus
    | NumCpusForLocalWorker
    | CustomResourcesPerWorker
    | PlacementStrategy
    | FrameworkStr
    | EagerTracing
    | EagerMaxRetraces
    | TfSessionArgs
    | LocalTfSessionArgs
    | Env
    | EnvConfig
    | ObservationSpace
    | ActionSpace
    | EnvTaskFn
    | RenderEnv
    | ClipRewards
    | NormalizeActions
    | ClipActions
    | DisableEnvChecking
    | NumRolloutWorkers
    | NumEnvsPerWorker
    | SampleCollector
    | CreateEnvOnLocalWorker
    | SampleAsync
    | EnableConnectors
    | RolloutFragmentLength
    | BatchMode
    | RemoteWorkerEnvs
    | RemoteEnvBatchWaitMs
    | ValidateWorkersAfterConstruction
    | IgnoreWorkerFailures
    | RecreateFailedWorkers
    | RestartFailedSubEnvironments
    | NumConsecutiveWorkerFailuresTolerance
    | Horizon
    | SoftHorizon
    | NoDoneAtEnd
    | PreprocessorPref
    | ObservationFilter
    | SynchronizeFilters
    | CompressObservations
    | EnableTf1ExecEagerly
    | SamplerPerfStatsEmaCoef
    | Gamma
    | Lr
    | TrainBatchSize
    | Model
    | Optimizer
    | CallbacksClass
    | Explore
    | ExplorationConfig
    | IsMultiAgent
    | Policies
    | PolicyMapCapacity
    | PolicyMapCache
    | PolicyMappingFn
    | PoliciesToTrain
    | ObservationFn
    | CountStepsBy
    | Input
    | InputConfig
    | ActionsInInputNormalized
    | PostprocessInputs
    | ShuffleBufferSize
    | Output
    | OutputConfig
    | OutputCompressColumns
    | OutputMaxFileSize
    | OfflineSampling
    | EvaluationInterval
    | EvaluationDuration
    | EvaluationDurationUnit
    | EvaluationSampleTimeoutS
    | EvaluationParallelToTraining
    | EvaluationConfig
    | OffPolicyEstimationMethods
    | OpeSplitBatchByEpisode
    | EvaluationNumWorkers
    | CustomEvaluationFunction
    | AlwaysAttachEvaluationResults
    | EnableAsyncEvaluation
    | InEvaluation
    | SyncFiltersOnRolloutWorkersTimeoutS
    | KeepPerEpisodeCustomMetrics
    | MetricsEpisodeCollectionTimeoutS
    | MetricsNumEpisodesForSmoothing
    | MinTimeSPerIteration
    | MinTrainTimestepsPerIteration
    | MinSampleTimestepsPerIteration
    | ExportNativeModelFiles
    | LoggerCreator
    | LoggerConfig
    | LogLevel
    | LogSysUsage
    | FakeSampler
    | Seed
    | TfPolicyHandlesMoreThanOneLoss
    | DisablePreprocessorApi
    | DisableActionFlattening
    | DisableExecutionPlanApi
    | IsFrozen
    | SimpleOptimizer
    | Monitor
    | EvaluationNumEpisodes
    | MetricsSmoothingEpisodes
    | TimestepsPerIteration
    | MinIterTimeS
    | CollectMetricsTimeout
    | BufferSize
    | PrioritizedReplay
    | LearningStarts
    | ReplayBatchSize
    | ReplaySequenceLength
    | ReplayMode
    | PrioritizedReplayAlpha
    | PrioritizedReplayBeta
    | PrioritizedReplayEps
    | MinTimeSPerReporting
    | MinTrainTimestepsPerReporting
    | MinSampleTimestepsPerReporting
    | InputEvaluation

  /** The Python spelling of an attribute. */
  function NameOf(a: Attr): string
  {
    match a
    case AlgoClass => "algo_class"
    case ExtraPythonEnvironsForDriver => "extra_python_environs_for_driver"
    case ExtraPythonEnvironsForWorker => "extra_python_environs_for_worker"
    case NumGpus => "num_gpus"
    case NumCpusPerWorker => "num_cpus_per_worker"
    case NumGpusPerWorker => "num_gpus_per_worker"
    case FakeGpus => "_fake_gpus"
    case NumCpusForLocalWorker => "num_cpus_for_local_worker"
    case CustomResourcesPerWorker => "custom_resources_per_worker"
    case PlacementStrategy => "placement_strategy"
    case FrameworkStr => "framework_str"
    case EagerTracing => "eager_tracing"
    case EagerMaxRetraces => "eager_max_retraces"
    case TfSessionArgs => "tf_session_args"
    case LocalTfSessionArgs => "local_tf_session_args"
    case Env => "env"
    case EnvConfig => "env_config"
    case ObservationSpace => "observation_space"
    case ActionSpace => "action_space"
    case EnvTaskFn => "env_task_fn"
    case RenderEnv => "render_env"
    case ClipRewards => "clip_rewards"
    case NormalizeActions => "normalize_actions"
    case ClipActions => "clip_actions"
    case DisableEnvChecking => "disable_env_checking"
    case NumRolloutWorkers => "num_rollout_workers"
    case NumEnvsPerWorker => "num_envs_per_worker"
    case SampleCollector => "sample_collector"
    case CreateEnvOnLocalWorker => "create_env_on_local_worker"
    case SampleAsync => "sample_async"
    case EnableConnectors => "enable_connectors"
    case RolloutFragmentLength => "rollout_fragment_length"
    case BatchMode => "batch_mode"
    case RemoteWorkerEnvs => "remote_worker_envs"
    case RemoteEnvBatchWaitMs => "remote_env_batch_wait_ms"
    case ValidateWorkersAfterConstruction => "validate_workers_after_construction"
    case IgnoreWorkerFailures => "ignore_worker_failures"
    case RecreateFailedWorkers => "recreate_failed_workers"
    case RestartFailedSubEnvironments => "restart_failed_sub_environments"
    case NumConsecutiveWorkerFailuresTolerance => "num_consecutive_worker_failures_tolerance"
    case Horizon => "horizon"
    case SoftHorizon => "soft_horizon"
    case NoDoneAtEnd => "no_done_at_end"
    case PreprocessorPref => "preprocessor_pref"
    case ObservationFilter => "observation_filter"
    case SynchronizeFilters => "synchronize_filters"
    case CompressObservations => "compress_observations"
    case EnableTf1ExecEagerly => "enable_tf1_exec_eagerly"
    case SamplerPerfStatsEmaCoef => "sampler_perf_stats_ema_coef"
    case Gamma => "gamma"
    case Lr => "lr"
    case TrainBatchSize => "train_batch_size"
    case Model => "model"
    case Optimizer => "optimizer"
    case CallbacksClass => "callbacks_class"
    case Explore => "explore"
    case ExplorationConfig => "exploration_config"
    case IsMultiAgent => "_is_multi_agent"
    case Policies => "policies"
    case PolicyMapCapacity => "policy_map_capacity"
    case PolicyMapCache => "policy_map_cache"
    case PolicyMappingFn => "policy_mapping_fn"
    case PoliciesToTrain => "policies_to_train"
    case ObservationFn => "observation_fn"
    case CountStepsBy => "count_steps_by"
    case Input => "input_"
    case InputConfig => "input_config"
    case ActionsInInputNormalized => "actions_in_input_normalized"
    case PostprocessInputs => "postprocess_inputs"
    case ShuffleBufferSize => "shuffle_buffer_size"
    case Output => "output"
    case OutputConfig => "output_config"
    case OutputCompressColumns => "output_compress_columns"
    case OutputMaxFileSize => "output_max_file_size"
    case OfflineSampling => "offline_sampling"
    case EvaluationInterval => "evaluation_interval"
    case EvaluationDuration => "evaluation_duration"
    case EvaluationDurationUnit => "evaluation_duration_unit"
    case EvaluationSampleTimeoutS => "evaluation_sample_timeout_s"
    case EvaluationParallelToTraining => "evaluation_parallel_to_training"
    case EvaluationConfig => "evaluation_config"
    case OffPolicyEstimationMethods => "off_policy_estimation_methods"
    case OpeSplitBatchByEpisode => "ope_split_batch_by_episode"
    case EvaluationNumWorkers => "evaluation_num_workers"
    case CustomEvaluationFunction => "custom_evaluation_function"
    case AlwaysAttachEvaluationResults => "always_attach_evaluation_results"
    case EnableAsyncEvaluation => "enable_async_evaluation"
    case InEvaluation => "in_evaluation"
    case SyncFiltersOnRolloutWorkersTimeoutS => "sync_filters_on_rollout_workers_timeout_s"
    case KeepPerEpisodeCustomMetrics => "keep_per_episode_custom_metrics"
    case MetricsEpisodeCollectionTimeoutS => "metrics_episode_collection_timeout_s"
    case MetricsNumEpisodesForSmoothing => "metrics_num_episodes_for_smoothing"
    case MinTimeSPerIteration => "min_time_s_per_iteration"
    case MinTrainTimestepsPerIteration => "min_train_timesteps_per_iteration"
    case MinSampleTimestepsPerIteration => "min_sample_timesteps_per_iteration"
    case ExportNativeModelFiles => "export_native_model_files"
    case LoggerCreator => "logger_creator"
    case LoggerConfig => "logger_config"
    case LogLevel => "log_level"
    case LogSysUsage => "log_sys_usage"
    case FakeSampler => "fake_sampler"
    case Seed => "seed"
    case TfPolicyHandlesMoreThanOneLoss => "_tf_policy_handles_more_than_one_loss"
    case DisablePreprocessorApi => "_disable_preprocessor_api"
    case DisableActionFlattening => "_disable_action_flattening"
    case DisableExecutionPlanApi => "_disable_execution_plan_api"
    case IsFrozen => "_is_frozen"
    case SimpleOptimizer => "simple_optimizer"
    case Monitor => "monitor"
    case EvaluationNumEpisodes => "evaluation_num_episodes"
    case MetricsSmoothingEpisodes => "metrics_smoothing_episodes"
    case TimestepsPerIteration => "timesteps_per_iteration"
    case MinIterTimeS => "min_iter_time_s"
    case CollectMetricsTimeout => "collect_metrics_timeout"
    case BufferSize => "buffer_size"
    case PrioritizedReplay => "prioritized_replay"
    case LearningStarts => "learning_starts"
    case ReplayBatchSize => "replay_batch_size"
    case ReplaySequenceLength => "replay_sequence_length"
    case ReplayMode => "replay_mode"
    case PrioritizedReplayAlpha => "prioritized_replay_alpha"
    case PrioritizedReplayBeta => "prioritized_replay_beta"
    case PrioritizedReplayEps => "prioritized_replay_eps"
    case MinTimeSPerReporting => "min_time_s_per_reporting"
    case MinTrainTimestepsPerReporting => "min_train_timesteps_per_reporting"
    case MinSampleTimestepsPerReporting => "min_sample_timesteps_per_reporting"
    case InputEvaluation => "input_evaluation"
  }

  /** Every attribute, in declaration order. */
  const AllAttrs: seq<Attr> := [
    AlgoClass, ExtraPythonEnvironsForDriver, ExtraPythonEnvironsForWorker, NumGpus,
    NumCpusPerWorker, NumGpusPerWorker, FakeGpus, NumCpusForLocalWorker, CustomResourcesPerWorker,
    PlacementStrategy, FrameworkStr, EagerTracing, EagerMaxRetraces, TfSessionArgs,
    LocalTfSessionArgs, Env, EnvConfig, ObservationSpace, ActionSpace, EnvTaskFn, RenderEnv,
    ClipRewards, NormalizeActions, ClipActions, DisableEnvChecking, NumRolloutWorkers,
    NumEnvsPerWorker, SampleCollector, CreateEnvOnLocalWorker, SampleAsync, EnableConnectors,
    RolloutFragmentLength, BatchMode, RemoteWorkerEnvs, RemoteEnvBatchWaitMs,
    ValidateWorkersAfterConstruction, IgnoreWorkerFailures, RecreateFailedWorkers,
    RestartFailedSubEnvironments, NumConsecutiveWorkerFailuresTolerance, Horizon, SoftHorizon,
    NoDoneAtEnd, PreprocessorPref, ObservationFilter, SynchronizeFilters, CompressObservations,
    EnableTf1ExecEagerly, SamplerPerfStatsEmaCoef, Gamma, Lr, TrainBatchSize, Model, Optimizer,
    CallbacksClass, Explore, ExplorationConfig, IsMultiAgent, Policies, PolicyMapCapacity,
    PolicyMapCache, PolicyMappingFn, PoliciesToTrain, ObservationFn, CountStepsBy, Input,
    InputConfig, ActionsInInputNormalized, PostprocessInputs, ShuffleBufferSize, Output,
    OutputConfig, OutputCompressColumns, OutputMaxFileSize, OfflineSampling, EvaluationInterval,
    EvaluationDuration, EvaluationDurationUnit, EvaluationSampleTimeoutS,
    EvaluationParallelToTraining, EvaluationConfig, OffPolicyEstimationMethods,
    OpeSplitBatchByEpisode, EvaluationNumWorkers, CustomEvaluationFunction,
    AlwaysAttachEvaluationResults, EnableAsyncEvaluation, InEvaluation,
    SyncFiltersOnRolloutWorkersTimeoutS, KeepPerEpisodeCustomMetrics,
    MetricsEpisodeCollectionTimeoutS, MetricsNumEpisodesForSmoothing, MinTimeSPerIteration,
    MinTrainTimestepsPerIteration, MinSampleTimestepsPerIteration, ExportNativeModelFiles,
    LoggerCreator, LoggerConfig, LogLevel, LogSysUsage, FakeSampler, Seed,
    TfPolicyHandlesMoreThanOneLoss, DisablePreprocessorApi, DisableActionFlattening,
    DisableExecutionPlanApi, IsFrozen, SimpleOptimizer, Monitor, EvaluationNumEpisodes,
    MetricsSmoothingEpisodes, TimestepsPerIteration, MinIterTimeS, CollectMetricsTimeout,
    BufferSize, PrioritizedReplay, LearningStarts, ReplayBatchSize, ReplaySequenceLength,
    ReplayMode, PrioritizedReplayAlpha, PrioritizedReplayBeta, PrioritizedReplayEps,
    MinTimeSPerReporting, MinTrainTimestepsPerReporting, MinSampleTimestepsPerReporting,
    InputEvaluation
  ]

  /**
   * The attributes `update_from_dict` defers to one final `evaluation(...)` call: exactly the
   * declared attributes whose name starts with "evaluation_".
   */
  predicate IsEvaluationSetting(a: Attr)
  {
    match a
    case EvaluationInterval | EvaluationDuration | EvaluationDurationUnit | EvaluationSampleTimeoutS
      | EvaluationParallelToTraining | EvaluationConfig | EvaluationNumWorkers
      | EvaluationNumEpisodes => true
    case _ => false
  }
}
