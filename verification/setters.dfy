/**
 * The fluent setters of AlgorithmConfig, each as the table of steps its body performs, in the
 * order of the body's statements.
 */
module Setters {
  import opened Wrappers
  import opened Attributes
  import opened PyObjects
  import opened ConfigObject
  import opened Defaults
  import opened SetterEngine

  /** `if x is not NotProvided: self.x = x` for a keyword named like its attribute. */
  function Plain(a: Attr): Step
  {
    Assign(Declared(a), a, AnyValue)
  }

  const PythonEnvironmentSteps: seq<Step> :=
    [Plain(ExtraPythonEnvironsForDriver), Plain(ExtraPythonEnvironsForWorker)]

  const ResourcesSteps: seq<Step> :=
    [Plain(NumGpus), Plain(FakeGpus), Plain(NumCpusPerWorker), Plain(NumGpusPerWorker),
     Plain(NumCpusForLocalWorker), Plain(CustomResourcesPerWorker), Plain(PlacementStrategy)]

  /** The keyword `framework` stores into `framework_str`; "tfe" is a deprecation error. */
  const FrameworkSteps: seq<Step> :=
    [Assign(Dynamic("framework"), FrameworkStr, NotValue(StrV("tfe"))),
     Plain(EagerTracing), Plain(EagerMaxRetraces), Plain(TfSessionArgs), Plain(LocalTfSessionArgs)]

  /** `env_config` is deep-updated in place, without `__setattr__`. */
  const EnvironmentSteps: seq<Step> :=
    [Plain(Env), MergeInPlace(Declared(EnvConfig), EnvConfig, EnvConfigMerge),
     Plain(ObservationSpace), Plain(ActionSpace), Plain(EnvTaskFn), Plain(RenderEnv),
     Plain(ClipRewards), Plain(NormalizeActions), Plain(ClipActions), Plain(DisableEnvChecking)]

  /** The keyword `synchronize_filter` stores into `synchronize_filters`. */
  const RolloutsSteps: seq<Step> :=
    [Plain(NumRolloutWorkers),
     Assign(Declared(NumEnvsPerWorker), NumEnvsPerWorker, Positive),
     Plain(SampleCollector), Plain(CreateEnvOnLocalWorker), Plain(SampleAsync), Plain(EnableConnectors),
     Assign(Declared(RolloutFragmentLength), RolloutFragmentLength, PositiveIntOrAuto),
     Assign(Declared(BatchMode), BatchMode, OneOf([StrV("truncate_episodes"), StrV("complete_episodes")])),
     Plain(RemoteWorkerEnvs), Plain(RemoteEnvBatchWaitMs), Plain(ValidateWorkersAfterConstruction),
     Plain(IgnoreWorkerFailures), Plain(RecreateFailedWorkers), Plain(RestartFailedSubEnvironments),
     Plain(NumConsecutiveWorkerFailuresTolerance), Plain(Horizon), Plain(SoftHorizon), Plain(NoDoneAtEnd),
     Assign(Declared(PreprocessorPref), PreprocessorPref, AssertOneOf([StrV("rllib"), StrV("deepmind"), NoneV])),
     Plain(ObservationFilter),
     Assign(Dynamic("synchronize_filter"), SynchronizeFilters, AnyValue),
     Plain(CompressObservations), Plain(EnableTf1ExecEagerly), Plain(SamplerPerfStatsEmaCoef)]

  /** `model` is checked and `dict.update`d in place; `optimizer` goes through `merge_dicts`. */
  const TrainingSteps: seq<Step> :=
    [Plain(Gamma), Plain(Lr), Plain(TrainBatchSize), UpdateModel(Declared(Model), Model),
     MergeAssign(Declared(Optimizer), Optimizer, OptimizerMerge)]

  const ExplorationSteps: seq<Step> :=
    [Plain(Explore), MergeAssign(Declared(ExplorationConfig), ExplorationConfig, ExplorationMerge)]

  /** In the order of the body, which stores `ope_split_batch_by_episode` last. */
  const EvaluationSteps: seq<Step> :=
    [Plain(EvaluationInterval), Plain(EvaluationDuration), Plain(EvaluationDurationUnit),
     Plain(EvaluationSampleTimeoutS), Plain(EvaluationParallelToTraining),
     AssignEvaluationConfig(Declared(EvaluationConfig), EvaluationConfig),
     Plain(OffPolicyEstimationMethods), Plain(EvaluationNumWorkers), Plain(CustomEvaluationFunction),
     Plain(AlwaysAttachEvaluationResults), Plain(EnableAsyncEvaluation), Plain(OpeSplitBatchByEpisode)]

  /** `input_evaluation` is accepted as a keyword only to raise a deprecation error. */
  const OfflineDataSteps: seq<Step> :=
    [Plain(Input), Plain(InputConfig), Plain(ActionsInInputNormalized), RejectArgument(Declared(InputEvaluation)),
     Plain(PostprocessInputs), Plain(ShuffleBufferSize), Plain(Output), Plain(OutputConfig),
     Plain(OutputCompressColumns), Plain(OutputMaxFileSize), Plain(OfflineSampling)]

  /** Ends with the unconditional assignment of `_is_multi_agent`. */
  const MultiAgentSteps: seq<Step> :=
    [AssignPolicies(Declared(Policies), Policies), Plain(PolicyMapCapacity), Plain(PolicyMapCache),
     AssignMappingFn(Declared(PolicyMappingFn), PolicyMappingFn), Plain(ObservationFn),
     RejectUnlessDeprecated(Declared(ReplayMode)),
     Assign(Declared(CountStepsBy), CountStepsBy, OneOf([StrV("env_steps"), StrV("agent_steps")])),
     Assign(Declared(PoliciesToTrain), PoliciesToTrain, TrainableSpec),
     DeriveMultiAgent]

  const ReportingSteps: seq<Step> :=
    [Plain(KeepPerEpisodeCustomMetrics), Plain(MetricsEpisodeCollectionTimeoutS),
     Plain(MetricsNumEpisodesForSmoothing), Plain(MinTimeSPerIteration),
     Plain(MinTrainTimestepsPerIteration), Plain(MinSampleTimestepsPerIteration)]

  const CheckpointingSteps: seq<Step> := [Plain(ExportNativeModelFiles)]

  const DebuggingSteps: seq<Step> :=
    [Plain(LoggerCreator), Plain(LoggerConfig), Plain(LogLevel), Plain(LogSysUsage), Plain(FakeSampler), Plain(Seed)]

  const ExperimentalSteps: seq<Step> :=
    [Plain(TfPolicyHandlesMoreThanOneLoss), Plain(DisablePreprocessorApi),
     Plain(DisableActionFlattening), Plain(DisableExecutionPlanApi)]

  function PythonEnvironment(c: Config, args: Kwargs, h: Collaborators): (r: Outcome)
    ensures !(args.Keys <= Params(PythonEnvironmentSteps)) ==> r == Raised(c, UnexpectedKeyword)
  {
    RunSetter(c, PythonEnvironmentSteps, {}, args, h)
  }

  function Resources(c: Config, args: Kwargs, h: Collaborators): (r: Outcome)
    ensures !(args.Keys <= Params(ResourcesSteps)) ==> r == Raised(c, UnexpectedKeyword)
  {
    RunSetter(c, ResourcesSteps, {}, args, h)
  }

  function Framework(c: Config, args: Kwargs, h: Collaborators): (r: Outcome)
    ensures !(args.Keys <= Params(FrameworkSteps)) ==> r == Raised(c, UnexpectedKeyword)
  {
    RunSetter(c, FrameworkSteps, {}, args, h)
  }

  function Environment(c: Config, args: Kwargs, h: Collaborators): (r: Outcome)
    ensures !(args.Keys <= Params(EnvironmentSteps)) ==> r == Raised(c, UnexpectedKeyword)
  {
    RunSetter(c, EnvironmentSteps, {}, args, h)
  }

  function Rollouts(c: Config, args: Kwargs, h: Collaborators): (r: Outcome)
    ensures !(args.Keys <= Params(RolloutsSteps)) ==> r == Raised(c, UnexpectedKeyword)
  {
    RunSetter(c, RolloutsSteps, {}, args, h)
  }

  function Training(c: Config, args: Kwargs, h: Collaborators): (r: Outcome)
    ensures !(args.Keys <= Params(TrainingSteps)) ==> r == Raised(c, UnexpectedKeyword)
  {
    RunSetter(c, TrainingSteps, {}, args, h)
  }

  function Exploration(c: Config, args: Kwargs, h: Collaborators): (r: Outcome)
    ensures !(args.Keys <= Params(ExplorationSteps)) ==> r == Raised(c, UnexpectedKeyword)
  {
    RunSetter(c, ExplorationSteps, {}, args, h)
  }

  /**
   * `evaluation(...)`: a provided `evaluation_num_episodes` other than DEPRECATED_VALUE only warns
   * and replaces `evaluation_duration`.
   */
  function Evaluation(c: Config, args: Kwargs, h: Collaborators): (r: Outcome)
    ensures !(args.Keys <= Params(EvaluationSteps) + {Declared(EvaluationNumEpisodes)}) ==> r == Raised(c, UnexpectedKeyword)
  {
    if args.Keys <= Params(EvaluationSteps) + {Declared(EvaluationNumEpisodes)}
    then RunSteps(c, EvaluationSteps, EvaluationArgs(args), h)
    else Raised(c, UnexpectedKeyword)
  }

  /** The arguments the steps of `evaluation(...)` see once `evaluation_num_episodes` is handled. */
  function EvaluationArgs(args: Kwargs): Kwargs
  {
    var episodes := Declared(EvaluationNumEpisodes);
    if episodes in args && !PyEq(args[episodes], DEPRECATED_VALUE)
    then args[Declared(EvaluationDuration) := args[episodes]] else args
  }

  function OfflineData(c: Config, args: Kwargs, h: Collaborators): (r: Outcome)
    ensures !(args.Keys <= Params(OfflineDataSteps)) ==> r == Raised(c, UnexpectedKeyword)
  {
    RunSetter(c, OfflineDataSteps, {}, args, h)
  }

  function MultiAgent(c: Config, args: Kwargs, h: Collaborators): (r: Outcome)
    ensures !(args.Keys <= Params(MultiAgentSteps)) ==> r == Raised(c, UnexpectedKeyword)
  {
    RunSetter(c, MultiAgentSteps, {}, args, h)
  }

  function Reporting(c: Config, args: Kwargs, h: Collaborators): (r: Outcome)
    ensures !(args.Keys <= Params(ReportingSteps)) ==> r == Raised(c, UnexpectedKeyword)
  {
    RunSetter(c, ReportingSteps, {}, args, h)
  }

  function Checkpointing(c: Config, args: Kwargs, h: Collaborators): (r: Outcome)
    ensures !(args.Keys <= Params(CheckpointingSteps)) ==> r == Raised(c, UnexpectedKeyword)
  {
    RunSetter(c, CheckpointingSteps, {}, args, h)
  }

  function Debugging(c: Config, args: Kwargs, h: Collaborators): (r: Outcome)
    ensures !(args.Keys <= Params(DebuggingSteps)) ==> r == Raised(c, UnexpectedKeyword)
  {
    RunSetter(c, DebuggingSteps, {}, args, h)
  }

  function Experimental(c: Config, args: Kwargs, h: Collaborators): (r: Outcome)
    ensures !(args.Keys <= Params(ExperimentalSteps)) ==> r == Raised(c, UnexpectedKeyword)
  {
    RunSetter(c, ExperimentalSteps, {}, args, h)
  }

  /**
   * `callbacks(callbacks_class)`: None stands for DefaultCallbacks; anything not callable is a
   * ValueError.
   */
  function Callbacks(c: Config, callbacksClass: Value): (r: Outcome)
    ensures r.Done? <==> IsCallable(if callbacksClass == NoneV then DEFAULT_CALLBACKS else callbacksClass) && !Frozen(c)
    ensures r.Done? ==> Get(r.config, Declared(CallbacksClass)) ==
                        Some(if callbacksClass == NoneV then DEFAULT_CALLBACKS else callbacksClass)
    ensures callbacksClass != NoneV && !IsCallable(callbacksClass) ==>
              r == Raised(c, InvalidValue(Declared(CallbacksClass)))
    ensures forall k :: k != Declared(CallbacksClass) ==> Get(r.config, k) == Get(c, k)
  {
    var cls := if callbacksClass == NoneV then DEFAULT_CALLBACKS else callbacksClass;
    if !IsCallable(cls) then Raised(c, InvalidValue(Declared(CallbacksClass)))
    else SetAttr(c, Declared(CallbacksClass), cls)
  }
}
