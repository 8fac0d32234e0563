/**
 * What each AlgorithmConfig setter promises: the keyword arguments it checks, the values it
 * stores, and that it touches nothing else.
 */
module SetterProperties {
  import opened Wrappers
  import opened Attributes
  import opened PyObjects
  import opened ConfigObject
  import opened Defaults
  import opened SetterEngine
  import opened Setters

  lemma PythonEnvironmentContract(c: Config, args: Kwargs, h: Collaborators)
    ensures SimpleSetterSpec(c, PythonEnvironmentSteps, {}, args, PythonEnvironment(c, args, h))
  {
    SimpleSetter(c, PythonEnvironmentSteps, {}, args, h);
  }

  lemma ResourcesContract(c: Config, args: Kwargs, h: Collaborators)
    ensures SimpleSetterSpec(c, ResourcesSteps, {}, args, Resources(c, args, h))
  {
    SimpleSetter(c, ResourcesSteps, {}, args, h);
  }

  lemma FrameworkContract(c: Config, args: Kwargs, h: Collaborators)
    ensures SimpleSetterSpec(c, FrameworkSteps, {}, args, Framework(c, args, h))
  {
    SimpleSetter(c, FrameworkSteps, {}, args, h);
  }

  /**
   * `environment(...)`: every provided argument but `env_config` is stored; `env_config` is
   * deep-updated into the existing dict.
   */
  lemma EnvironmentContract(c: Config, args: Kwargs, h: Collaborators)
    ensures Environment(c, args, h).Done? <==>
              args.Keys <= Params(EnvironmentSteps) &&
              forall i | 0 <= i < |EnvironmentSteps| :: StepAdmits(c, EnvironmentSteps[i], args, h)
    ensures var r := Environment(c, args, h);
            StoresProvided(EnvironmentSteps, args, r) && SetterFrame(c, EnvironmentSteps, args, r)
    ensures var p, r := Declared(EnvConfig), Environment(c, args, h);
            r.Done? && p in args ==>
              EnvConfig in c.attrs && Get(r.config, p) == h.merge(EnvConfigMerge, c.attrs[EnvConfig], args[p])
  {
    EnvironmentCompletes(c, args, h);
    StoresAll(c, EnvironmentSteps, {}, args, h);
    EnvConfigMerged(c, args, h);
  }

  /** `environment(...)` completes exactly when it declares every keyword and every step admits the call. */
  lemma EnvironmentCompletes(c: Config, args: Kwargs, h: Collaborators)
    ensures Environment(c, args, h).Done? <==>
              args.Keys <= Params(EnvironmentSteps) &&
              forall i | 0 <= i < |EnvironmentSteps| :: StepAdmits(c, EnvironmentSteps[i], args, h)
  {
    EnvironmentIsLocal();
    LocalSetterDoneIff(c, EnvironmentSteps, {}, args, h);
  }

  lemma EnvironmentIsLocal()
    ensures LocalTable(EnvironmentSteps)
  {
    forall i, j | 0 <= i < j < |EnvironmentSteps| && Target(EnvironmentSteps[i]).Some?
      ensures Target(EnvironmentSteps[j]) != Target(EnvironmentSteps[i])
    {
    }
    forall i | 0 <= i < |EnvironmentSteps|
      ensures Target(EnvironmentSteps[i]) != Some(IsFrozen) && !EnvironmentSteps[i].DeriveMultiAgent?
    {
    }
  }

  /** A provided `env_config` is merged into the current one. */
  lemma EnvConfigMerged(c: Config, args: Kwargs, h: Collaborators)
    ensures var p, r := Declared(EnvConfig), Environment(c, args, h);
            r.Done? && p in args ==>
              EnvConfig in c.attrs && Get(r.config, p) == h.merge(EnvConfigMerge, c.attrs[EnvConfig], args[p])
  {
    EnvConfigOnlyWriter();
    SetterEffect(c, EnvironmentSteps, {}, args, h, 1);
    var p := Declared(EnvConfig);
    if p in args {
      assert RunStep(c, EnvironmentSteps[1], args, h) == MergeStep(c, p, EnvConfig, EnvConfigMerge, args[p], true, h);
    }
  }

  lemma EnvConfigOnlyWriter()
    ensures EnvironmentSteps[1] == MergeInPlace(Declared(EnvConfig), EnvConfig, EnvConfigMerge)
    ensures FirstWriter(EnvironmentSteps, 1) && LastWriter(EnvironmentSteps, 1) && KeepsFrozenFlag(EnvironmentSteps)
  {
    assert FirstWriter(EnvironmentSteps, 1) by {
      forall j | 0 <= j < 1
        ensures Target(EnvironmentSteps[j]) != Target(EnvironmentSteps[1])
      {
      }
    }
    assert LastWriter(EnvironmentSteps, 1) by {
      forall j | 1 < j < |EnvironmentSteps|
        ensures Target(EnvironmentSteps[j]) != Target(EnvironmentSteps[1])
      {
      }
    }
    assert KeepsFrozenFlag(EnvironmentSteps) by {
      forall j | 0 <= j < |EnvironmentSteps|
        ensures Target(EnvironmentSteps[j]) != Some(IsFrozen)
      {
      }
    }
  }

  /**
   * `env_config` is updated in place, not through `__setattr__`: a frozen config accepts it and
   * changes.
   */
  lemma EnvConfigBypassesFreeze(c: Config, v: Value, h: Collaborators)
    requires Frozen(c) && EnvConfig in c.attrs && h.merge(EnvConfigMerge, c.attrs[EnvConfig], v).Some?
    ensures var r := Environment(c, map[Declared(EnvConfig) := v], h);
            r.Done? && Get(r.config, Declared(EnvConfig)) == h.merge(EnvConfigMerge, c.attrs[EnvConfig], v)
  {
    var args := map[Declared(EnvConfig) := v];
    assert EnvironmentSteps[1].param == Declared(EnvConfig);
    assert args.Keys <= Params(EnvironmentSteps);
    forall i | 0 <= i < |EnvironmentSteps| && i != 1
      ensures !Fires(EnvironmentSteps[i], args)
    {
    }
    OnlyOneFires(c, EnvironmentSteps, args, h, 1);
  }

  /**
   * `training(...)`: `gamma`, `lr` and `train_batch_size` are stored; `model` must be a dict
   * without a live `lstm_use_prev_action_reward` and is merged into the model dict with
   * `dict.update`; `optimizer` is merged with `merge_dicts`.
   */
  lemma TrainingContract(c: Config, args: Kwargs, h: Collaborators)
    ensures Training(c, args, h).Done? <==>
              args.Keys <= Params(TrainingSteps) &&
              forall i | 0 <= i < |TrainingSteps| :: StepAdmits(c, TrainingSteps[i], args, h)
    ensures var r := Training(c, args, h);
            StoresProvided(TrainingSteps, args, r) && SetterFrame(c, TrainingSteps, args, r)
    ensures var p, r := Declared(Model), Training(c, args, h);
            r.Done? && p in args ==>
              args[p].DictV? && Model in c.attrs && c.attrs[Model].DictV? &&
              (var prev := Lookup(args[p].entries, StrV("lstm_use_prev_action_reward"));
               prev.None? || PyEq(prev.value, DEPRECATED_VALUE)) &&
              Get(r.config, p) == Some(DictV(DictUpdate(c.attrs[Model].entries, args[p].entries)))
    ensures var p, r := Declared(Optimizer), Training(c, args, h);
            r.Done? && p in args ==>
              Optimizer in c.attrs && Get(r.config, p) == h.merge(OptimizerMerge, c.attrs[Optimizer], args[p])
  {
    TrainingCompletes(c, args, h);
    StoresAll(c, TrainingSteps, {}, args, h);
    ModelUpdated(c, args, h);
    OptimizerMerged(c, args, h);
  }

  /** `training(...)` completes exactly when it declares every keyword and every step admits the call. */
  lemma TrainingCompletes(c: Config, args: Kwargs, h: Collaborators)
    ensures Training(c, args, h).Done? <==>
              args.Keys <= Params(TrainingSteps) &&
              forall i | 0 <= i < |TrainingSteps| :: StepAdmits(c, TrainingSteps[i], args, h)
  {
    TrainingIsLocal();
    LocalSetterDoneIff(c, TrainingSteps, {}, args, h);
  }

  lemma TrainingIsLocal()
    ensures LocalTable(TrainingSteps)
  {
    forall i, j | 0 <= i < j < |TrainingSteps| && Target(TrainingSteps[i]).Some?
      ensures Target(TrainingSteps[j]) != Target(TrainingSteps[i])
    {
    }
    forall i | 0 <= i < |TrainingSteps|
      ensures Target(TrainingSteps[i]) != Some(IsFrozen) && !TrainingSteps[i].DeriveMultiAgent?
    {
    }
  }

  /** A provided `model` is a dict without a live `lstm_use_prev_action_reward`, merged in place. */
  lemma ModelUpdated(c: Config, args: Kwargs, h: Collaborators)
    ensures var p, r := Declared(Model), Training(c, args, h);
            r.Done? && p in args ==>
              args[p].DictV? && Model in c.attrs && c.attrs[Model].DictV? &&
              (var prev := Lookup(args[p].entries, StrV("lstm_use_prev_action_reward"));
               prev.None? || PyEq(prev.value, DEPRECATED_VALUE)) &&
              Get(r.config, p) == Some(DictV(DictUpdate(c.attrs[Model].entries, args[p].entries)))
  {
    TrainingOnlyWriters();
    SetterEffect(c, TrainingSteps, {}, args, h, 3);
    var p := Declared(Model);
    if p in args {
      assert RunStep(c, TrainingSteps[3], args, h) == UpdateModelStep(c, p, Model, args[p]);
    }
  }

  /** A provided `optimizer` is merged into the current one. */
  lemma OptimizerMerged(c: Config, args: Kwargs, h: Collaborators)
    ensures var p, r := Declared(Optimizer), Training(c, args, h);
            r.Done? && p in args ==>
              Optimizer in c.attrs && Get(r.config, p) == h.merge(OptimizerMerge, c.attrs[Optimizer], args[p])
  {
    TrainingOnlyWriters();
    SetterEffect(c, TrainingSteps, {}, args, h, 4);
    var p := Declared(Optimizer);
    if p in args {
      assert RunStep(c, TrainingSteps[4], args, h) == MergeStep(c, p, Optimizer, OptimizerMerge, args[p], false, h);
    }
  }

  lemma TrainingOnlyWriters()
    ensures TrainingSteps[3] == UpdateModel(Declared(Model), Model)
    ensures TrainingSteps[4] == MergeAssign(Declared(Optimizer), Optimizer, OptimizerMerge)
    ensures FirstWriter(TrainingSteps, 3) && LastWriter(TrainingSteps, 3)
    ensures FirstWriter(TrainingSteps, 4) && LastWriter(TrainingSteps, 4)
    ensures KeepsFrozenFlag(TrainingSteps)
  {
    assert FirstWriter(TrainingSteps, 3) by {
      forall j | 0 <= j < 3
        ensures Target(TrainingSteps[j]) != Target(TrainingSteps[3])
      {
      }
    }
    assert LastWriter(TrainingSteps, 3) by {
      forall j | 3 < j < |TrainingSteps|
        ensures Target(TrainingSteps[j]) != Target(TrainingSteps[3])
      {
      }
    }
    assert FirstWriter(TrainingSteps, 4) by {
      forall j | 0 <= j < 4
        ensures Target(TrainingSteps[j]) != Target(TrainingSteps[4])
      {
      }
    }
    assert KeepsFrozenFlag(TrainingSteps) by {
      forall j | 0 <= j < |TrainingSteps|
        ensures Target(TrainingSteps[j]) != Some(IsFrozen)
      {
      }
    }
  }

  /**
   * A `model` dict that sets `lstm_use_prev_action_reward` to anything but DEPRECATED_VALUE is a
   * deprecation error, and the model dict is left as it was.
   */
  lemma TrainingRejectsPrevActionReward(c: Config, args: Kwargs, h: Collaborators)
    requires Declared(Model) in args && args[Declared(Model)].DictV?
    requires var prev := Lookup(args[Declared(Model)].entries, StrV("lstm_use_prev_action_reward"));
             prev.Some? && !PyEq(prev.value, DEPRECATED_VALUE)
    ensures var r := Training(c, args, h);
            r.Raised? && Get(r.config, Declared(Model)) == Get(c, Declared(Model))
  {
    TrainingOnlyWriters();
    RaisingStep(c, TrainingSteps, args, h, 3);
  }

  /**
   * `model` is updated in place, not through `__setattr__`: a frozen config accepts it and
   * changes.
   */
  lemma ModelBypassesFreeze(c: Config, entries: seq<(Value, Value)>, h: Collaborators)
    requires Frozen(c) && Model in c.attrs && c.attrs[Model].DictV?
    requires Lookup(entries, StrV("lstm_use_prev_action_reward")).None?
    ensures var r := Training(c, map[Declared(Model) := DictV(entries)], h);
            r.Done? && Get(r.config, Declared(Model)) == Some(DictV(DictUpdate(c.attrs[Model].entries, entries)))
  {
    TrainingWithModelOnly(c, entries, h);
    var u := DictV(DictUpdate(c.attrs[Model].entries, entries));
    assert UpdateModelStep(c, Declared(Model), Model, DictV(entries)) == Done(Put(c, Declared(Model), u));
  }

  /** A `training(model=...)` call is the `model` step alone. */
  lemma TrainingWithModelOnly(c: Config, entries: seq<(Value, Value)>, h: Collaborators)
    ensures Training(c, map[Declared(Model) := DictV(entries)], h) ==
            UpdateModelStep(c, Declared(Model), Model, DictV(entries))
  {
    var args := map[Declared(Model) := DictV(entries)];
    OnlyModelFires(args);
    OnlyOneFires(c, TrainingSteps, args, h, 3);
    assert RunStep(c, TrainingSteps[3], args, h) == UpdateModelStep(c, Declared(Model), Model, DictV(entries));
  }

  /** With `model` the only argument, only the `model` step of `training(...)` fires. */
  lemma OnlyModelFires(args: Kwargs)
    requires args.Keys == {Declared(Model)}
    ensures TrainingSteps[3].param == Declared(Model) && args.Keys <= Params(TrainingSteps)
    ensures forall i | 0 <= i < |TrainingSteps| && i != 3 :: !Fires(TrainingSteps[i], args)
  {
    assert TrainingSteps[3].param == Declared(Model);
    forall i | 0 <= i < |TrainingSteps| && i != 3
      ensures !Fires(TrainingSteps[i], args)
    {
    }
  }

  /** `exploration(...)`: `explore` is stored; `exploration_config` is merged with `deep_update`. */
  lemma ExplorationContract(c: Config, args: Kwargs, h: Collaborators)
    ensures Exploration(c, args, h).Done? <==>
              args.Keys <= Params(ExplorationSteps) &&
              forall i | 0 <= i < |ExplorationSteps| :: StepAdmits(c, ExplorationSteps[i], args, h)
    ensures var r := Exploration(c, args, h);
            StoresProvided(ExplorationSteps, args, r) && SetterFrame(c, ExplorationSteps, args, r)
    ensures var p, r := Declared(ExplorationConfig), Exploration(c, args, h);
            r.Done? && p in args ==>
              ExplorationConfig in c.attrs &&
              Get(r.config, p) == h.merge(ExplorationMerge, c.attrs[ExplorationConfig], args[p])
  {
    StoresAll(c, ExplorationSteps, {}, args, h);
    assert ExplorationSteps[1] == MergeAssign(Declared(ExplorationConfig), ExplorationConfig, ExplorationMerge);
    assert FirstWriter(ExplorationSteps, 1) by {
      forall j | 0 <= j < 1
        ensures Target(ExplorationSteps[j]) != Target(ExplorationSteps[1])
      {
      }
    }
    assert KeepsFrozenFlag(ExplorationSteps) by {
      forall j | 0 <= j < |ExplorationSteps|
        ensures Target(ExplorationSteps[j]) != Some(IsFrozen)
      {
      }
    }
    SetterEffect(c, ExplorationSteps, {}, args, h, 1);
    ExplorationCompletes(c, args, h);
  }

  /** `exploration(...)` completes exactly when it declares every keyword and every step admits the call. */
  lemma ExplorationCompletes(c: Config, args: Kwargs, h: Collaborators)
    ensures Exploration(c, args, h).Done? <==>
              args.Keys <= Params(ExplorationSteps) &&
              forall i | 0 <= i < |ExplorationSteps| :: StepAdmits(c, ExplorationSteps[i], args, h)
  {
    assert LocalTable(ExplorationSteps) by {
      forall i | 0 <= i < |ExplorationSteps|
        ensures Target(ExplorationSteps[i]) != Some(IsFrozen) && !ExplorationSteps[i].DeriveMultiAgent?
      {
      }
    }
    LocalSetterDoneIff(c, ExplorationSteps, {}, args, h);
  }

  /** `evaluation(...)` is a setter whose steps see `EvaluationArgs(args)`. */
  lemma EvaluationIsSetter(c: Config, args: Kwargs, h: Collaborators)
    ensures Evaluation(c, args, h) ==
            RunSetter(c, EvaluationSteps, {Declared(EvaluationNumEpisodes)}, EvaluationArgs(args), h)
  {
    assert EvaluationSteps[1].param == Declared(EvaluationDuration);
    assert Declared(EvaluationDuration) in Params(EvaluationSteps);
  }

  lemma EvaluationOnlyWriters()
    ensures EvaluationSteps[1] == Plain(EvaluationDuration)
    ensures EvaluationSteps[5] == AssignEvaluationConfig(Declared(EvaluationConfig), EvaluationConfig)
    ensures LastWriter(EvaluationSteps, 1)
    ensures FirstWriter(EvaluationSteps, 5) && LastWriter(EvaluationSteps, 5)
    ensures KeepsFrozenFlag(EvaluationSteps)
  {
    assert LastWriter(EvaluationSteps, 1) by {
      forall j | 1 < j < |EvaluationSteps|
        ensures Target(EvaluationSteps[j]) != Target(EvaluationSteps[1])
      {
      }
    }
    assert FirstWriter(EvaluationSteps, 5) by {
      forall j | 0 <= j < 5
        ensures Target(EvaluationSteps[j]) != Target(EvaluationSteps[5])
      {
      }
    }
    assert LastWriter(EvaluationSteps, 5) by {
      forall j | 5 < j < |EvaluationSteps|
        ensures Target(EvaluationSteps[j]) != Target(EvaluationSteps[5])
      {
      }
    }
    assert KeepsFrozenFlag(EvaluationSteps) by {
      forall j | 0 <= j < |EvaluationSteps|
        ensures Target(EvaluationSteps[j]) != Some(IsFrozen)
      {
      }
    }
  }

  /**
   * `evaluation(...)`: a provided `evaluation_num_episodes` other than DEPRECATED_VALUE becomes
   * `evaluation_duration`; `evaluation_config=None` stores None, any other value is merged into
   * the current evaluation config (or into an empty dict when that is falsy).
   */
  lemma EvaluationContract(c: Config, args: Kwargs, h: Collaborators)
    ensures Evaluation(c, args, h).Done? <==>
              args.Keys <= Params(EvaluationSteps) + {Declared(EvaluationNumEpisodes)} &&
              forall i | 0 <= i < |EvaluationSteps| :: StepAdmits(c, EvaluationSteps[i], EvaluationArgs(args), h)
    ensures var r := Evaluation(c, args, h);
            StoresProvided(EvaluationSteps, EvaluationArgs(args), r) &&
            SetterFrame(c, EvaluationSteps, EvaluationArgs(args), r)
    ensures var p, r := Declared(EvaluationNumEpisodes), Evaluation(c, args, h);
            r.Done? && p in args && !PyEq(args[p], DEPRECATED_VALUE) ==>
              Get(r.config, Declared(EvaluationDuration)) == Some(args[p])
    ensures var p, r := Declared(EvaluationConfig), Evaluation(c, args, h);
            r.Done? && p in args ==>
              if args[p] == NoneV then Get(r.config, p) == Some(NoneV)
              else EvaluationConfig in c.attrs &&
                   Get(r.config, p) ==
                     h.merge(EvaluationConfigMerge,
                             if Truthy(c.attrs[EvaluationConfig]) then c.attrs[EvaluationConfig] else DictV([]),
                             args[p])
  {
    EvaluationIsSetter(c, args, h);
    StoresAll(c, EvaluationSteps, {Declared(EvaluationNumEpisodes)}, EvaluationArgs(args), h);
    EpisodesGoToDuration(c, args, h);
    EvaluationConfigMerged(c, args, h);
    EvaluationCompletes(c, args, h);
  }

  /**
   * `evaluation(...)` completes exactly when it declares every keyword and every step admits the
   * call once `evaluation_num_episodes` is folded in.
   */
  lemma EvaluationCompletes(c: Config, args: Kwargs, h: Collaborators)
    ensures Evaluation(c, args, h).Done? <==>
              args.Keys <= Params(EvaluationSteps) + {Declared(EvaluationNumEpisodes)} &&
              forall i | 0 <= i < |EvaluationSteps| :: StepAdmits(c, EvaluationSteps[i], EvaluationArgs(args), h)
  {
    EvaluationIsLocal();
    if args.Keys <= Params(EvaluationSteps) + {Declared(EvaluationNumEpisodes)} {
      LocalDoneIff(c, EvaluationSteps, EvaluationArgs(args), h);
    }
  }

  lemma EvaluationIsLocal()
    ensures LocalTable(EvaluationSteps)
  {
    forall i, j | 0 <= i < j < |EvaluationSteps| && Target(EvaluationSteps[i]).Some?
      ensures Target(EvaluationSteps[j]) != Target(EvaluationSteps[i])
    {
    }
    forall i | 0 <= i < |EvaluationSteps|
      ensures Target(EvaluationSteps[i]) != Some(IsFrozen) && !EvaluationSteps[i].DeriveMultiAgent?
    {
    }
  }

  /** A live `evaluation_num_episodes` is stored as the evaluation duration. */
  lemma EpisodesGoToDuration(c: Config, args: Kwargs, h: Collaborators)
    ensures var p, r := Declared(EvaluationNumEpisodes), Evaluation(c, args, h);
            r.Done? && p in args && !PyEq(args[p], DEPRECATED_VALUE) ==>
              Get(r.config, Declared(EvaluationDuration)) == Some(args[p])
  {
    EvaluationIsSetter(c, args, h);
    EvaluationOnlyWriters();
    StoresAll(c, EvaluationSteps, {Declared(EvaluationNumEpisodes)}, EvaluationArgs(args), h);
  }

  /** A provided `evaluation_config` is None or merged into the current settings. */
  lemma EvaluationConfigMerged(c: Config, args: Kwargs, h: Collaborators)
    ensures var p, r := Declared(EvaluationConfig), Evaluation(c, args, h);
            r.Done? && p in args ==>
              if args[p] == NoneV then Get(r.config, p) == Some(NoneV)
              else EvaluationConfig in c.attrs &&
                   Get(r.config, p) ==
                     h.merge(EvaluationConfigMerge,
                             if Truthy(c.attrs[EvaluationConfig]) then c.attrs[EvaluationConfig] else DictV([]),
                             args[p])
  {
    var p := Declared(EvaluationConfig);
    if Evaluation(c, args, h).Done? && p in args {
      EvaluationConfigStepDecides(c, args, h);
      MergeStepStores(c, p, EvaluationConfig, args[p], h);
    }
  }

  /** What a completed `evaluation(...)` holds in `evaluation_config` is what its own step stored. */
  lemma EvaluationConfigStepDecides(c: Config, args: Kwargs, h: Collaborators)
    requires Declared(EvaluationConfig) in args
    ensures var p, r := Declared(EvaluationConfig), Evaluation(c, args, h);
            var s := EvaluationConfigStep(c, p, EvaluationConfig, args[p], h);
            r.Done? ==> s.Done? && Get(r.config, p) == Get(s.config, p)
  {
    var p, a := Declared(EvaluationConfig), EvaluationArgs(args);
    EvaluationIsSetter(c, args, h);
    EvaluationOnlyWriters();
    SetterEffect(c, EvaluationSteps, {Declared(EvaluationNumEpisodes)}, a, h, 5);
    EvaluationArgsKeep(args, p);
    assert RunStep(c, EvaluationSteps[5], a, h) == EvaluationConfigStep(c, p, EvaluationConfig, args[p], h);
  }

  /** Folding `evaluation_num_episodes` in changes no argument but `evaluation_duration`. */
  lemma EvaluationArgsKeep(args: Kwargs, p: Key)
    requires p in args && p != Declared(EvaluationDuration)
    ensures p in EvaluationArgs(args) && EvaluationArgs(args)[p] == args[p]
  {
  }

  /** A completed `evaluation_config` step stored None or the merge of the current settings with the argument. */
  lemma MergeStepStores(c: Config, p: Key, a: Attr, v: Value, h: Collaborators)
    ensures var r := EvaluationConfigStep(c, p, a, v, h);
            r.Done? ==>
              if v == NoneV then Get(r.config, Declared(a)) == Some(NoneV)
              else a in c.attrs &&
                   Get(r.config, Declared(a)) ==
                     h.merge(EvaluationConfigMerge, if Truthy(c.attrs[a]) then c.attrs[a] else DictV([]), v)
  {
    var r := EvaluationConfigStep(c, p, a, v, h);
    if r.Done? && v != NoneV {
      assert a in c.attrs;
      var merged := h.merge(EvaluationConfigMerge, if Truthy(c.attrs[a]) then c.attrs[a] else DictV([]), v);
      assert merged.Some? && r == SetAttr(c, Declared(a), merged.value);
    }
  }

  /** `multi_agent(...)` ends by assigning `_is_multi_agent`, unconditionally. */
  lemma MultiAgentShape()
    ensures MultiAgentSteps[|MultiAgentSteps| - 1] == DeriveMultiAgent && KeepsFrozenFlag(MultiAgentSteps)
  {
    assert KeepsFrozenFlag(MultiAgentSteps) by {
      forall j | 0 <= j < |MultiAgentSteps|
        ensures Target(MultiAgentSteps[j]) != Some(IsFrozen)
      {
      }
    }
  }

  /** A completed `multi_agent(...)` leaves `_is_multi_agent` consistent with `policies`. */
  lemma MultiAgentDerivesFlag(c: Config, args: Kwargs, h: Collaborators)
    ensures MultiAgent(c, args, h).Done? ==> MultiAgentConsistent(MultiAgent(c, args, h).config)
  {
    MultiAgentShape();
    EndsConsistent(c, MultiAgentSteps, args, h);
  }

  /**
   * `multi_agent(...)` always assigns `_is_multi_agent` through the gatekeeper, so on a frozen
   * config it raises whatever the arguments.
   */
  lemma MultiAgentFrozenRaises(c: Config, args: Kwargs, h: Collaborators)
    requires Frozen(c)
    ensures MultiAgent(c, args, h).Raised?
  {
    MultiAgentShape();
    EndsRaisingWhenFrozen(c, MultiAgentSteps, args, h);
  }

  lemma MultiAgentOnlyWriters()
    ensures MultiAgentSteps[0] == AssignPolicies(Declared(Policies), Policies)
    ensures MultiAgentSteps[3] == AssignMappingFn(Declared(PolicyMappingFn), PolicyMappingFn)
    ensures MultiAgentSteps[5] == RejectUnlessDeprecated(Declared(ReplayMode))
    ensures MultiAgentSteps[6] == Assign(Declared(CountStepsBy), CountStepsBy, OneOf([StrV("env_steps"), StrV("agent_steps")]))
    ensures MultiAgentSteps[7] == Assign(Declared(PoliciesToTrain), PoliciesToTrain, TrainableSpec)
    ensures LastWriter(MultiAgentSteps, 0)
    ensures FirstWriter(MultiAgentSteps, 3) && LastWriter(MultiAgentSteps, 3)
    ensures FirstWriter(MultiAgentSteps, 6) && LastWriter(MultiAgentSteps, 6)
    ensures FirstWriter(MultiAgentSteps, 7) && LastWriter(MultiAgentSteps, 7)
  {
    assert LastWriter(MultiAgentSteps, 0) by {
      forall j | 0 < j < |MultiAgentSteps|
        ensures Target(MultiAgentSteps[j]) != Target(MultiAgentSteps[0])
      {
      }
    }
    assert FirstWriter(MultiAgentSteps, 3) by {
      forall j | 0 <= j < 3
        ensures Target(MultiAgentSteps[j]) != Target(MultiAgentSteps[3])
      {
      }
    }
    assert LastWriter(MultiAgentSteps, 3) by {
      forall j | 3 < j < |MultiAgentSteps|
        ensures Target(MultiAgentSteps[j]) != Target(MultiAgentSteps[3])
      {
      }
    }
    assert FirstWriter(MultiAgentSteps, 6) by {
      forall j | 0 <= j < 6
        ensures Target(MultiAgentSteps[j]) != Target(MultiAgentSteps[6])
      {
      }
    }
    assert LastWriter(MultiAgentSteps, 6) by {
      forall j | 6 < j < |MultiAgentSteps|
        ensures Target(MultiAgentSteps[j]) != Target(MultiAgentSteps[6])
      {
      }
    }
    assert FirstWriter(MultiAgentSteps, 7) by {
      forall j | 0 <= j < 7
        ensures Target(MultiAgentSteps[j]) != Target(MultiAgentSteps[7])
      {
      }
    }
  }

  /**
   * `multi_agent(...)`: every provided argument is stored (the mapping function after
   * `from_config` when it is a dict), the flag is derived, and nothing else changes.
   */
  lemma MultiAgentContract(c: Config, args: Kwargs, h: Collaborators)
    ensures MultiAgent(c, args, h).Done? <==>
              args.Keys <= Params(MultiAgentSteps) &&
              (forall i | 0 <= i < |MultiAgentSteps| - 1 :: StepAdmits(c, MultiAgentSteps[i], args, h)) &&
              !Frozen(c) && PoliciesAfter(c, args).Some? && MultiAgentFlag(PoliciesAfter(c, args).value).Some?
    ensures var r := MultiAgent(c, args, h);
            StoresProvided(MultiAgentSteps, args, r) && SetterFrame(c, MultiAgentSteps, args, r)
    ensures var p, r := Declared(PolicyMappingFn), MultiAgent(c, args, h);
            r.Done? && p in args ==>
              if args[p].DictV? then h.fromConfig(args[p]).Some? && Get(r.config, p) == h.fromConfig(args[p])
              else Get(r.config, p) == Some(args[p])
  {
    StoresAll(c, MultiAgentSteps, {}, args, h);
    MultiAgentOnlyWriters();
    MultiAgentShape();
    SetterEffect(c, MultiAgentSteps, {}, args, h, 3);
    MultiAgentCompletes(c, args, h);
  }

  /** The `policies` the `_is_multi_agent` derivation reads: the argument when given, else the current value. */
  function PoliciesAfter(c: Config, args: Kwargs): Option<Value>
  {
    if Declared(Policies) in args then Some(args[Declared(Policies)]) else Get(c, Declared(Policies))
  }

  /**
   * `multi_agent(...)` completes exactly when it declares every keyword, every step before the
   * derivation admits the call, the config is not frozen (`_is_multi_agent` is always assigned), and
   * the resulting `policies` exist and are iterable.
   */
  lemma MultiAgentCompletes(c: Config, args: Kwargs, h: Collaborators)
    ensures MultiAgent(c, args, h).Done? <==>
              args.Keys <= Params(MultiAgentSteps) &&
              (forall i | 0 <= i < |MultiAgentSteps| - 1 :: StepAdmits(c, MultiAgentSteps[i], args, h)) &&
              !Frozen(c) && PoliciesAfter(c, args).Some? && MultiAgentFlag(PoliciesAfter(c, args).value).Some?
  {
    var init := MultiAgentSteps[..|MultiAgentSteps| - 1];
    MultiAgentInitIsLocal();
    SnocSetterDone(c, init, DeriveMultiAgent, {}, args, h);
    InitCompletes(c, args, h);
    DerivationCompletes(c, args, h);
  }

  /** The steps before the derivation complete exactly when each admits the call on the initial config. */
  lemma InitCompletes(c: Config, args: Kwargs, h: Collaborators)
    ensures RunSteps(c, MultiAgentSteps[..|MultiAgentSteps| - 1], args, h).Done? <==>
              forall i | 0 <= i < |MultiAgentSteps| - 1 :: StepAdmits(c, MultiAgentSteps[i], args, h)
  {
    var init := MultiAgentSteps[..|MultiAgentSteps| - 1];
    MultiAgentInitIsLocal();
    LocalDoneIff(c, init, args, h);
    assert forall i | 0 <= i < |init| :: init[i] == MultiAgentSteps[i];
  }

  /** Once the steps before it complete, the derivation completes exactly on an unfrozen config with iterable `policies`. */
  lemma DerivationCompletes(c: Config, args: Kwargs, h: Collaborators)
    ensures var r := RunSteps(c, MultiAgentSteps[..|MultiAgentSteps| - 1], args, h);
            r.Done? ==>
              (RunStep(r.config, DeriveMultiAgent, args, h).Done? <==>
                 !Frozen(c) && PoliciesAfter(c, args).Some? && MultiAgentFlag(PoliciesAfter(c, args).value).Some?)
  {
    var init := MultiAgentSteps[..|MultiAgentSteps| - 1];
    var r := RunSteps(c, init, args, h);
    if r.Done? {
      MultiAgentInitIsLocal();
      StepAdmitsIff(r.config, DeriveMultiAgent, args, h);
      FrozenStays(c, init, args, h);
      PoliciesReached(c, args, h);
    }
  }

  /** When the steps before the derivation complete, `policies` holds `PoliciesAfter`. */
  lemma PoliciesReached(c: Config, args: Kwargs, h: Collaborators)
    ensures var r := RunSteps(c, MultiAgentSteps[..|MultiAgentSteps| - 1], args, h);
            r.Done? ==> Get(r.config, Declared(Policies)) == PoliciesAfter(c, args)
  {
    var init := MultiAgentSteps[..|MultiAgentSteps| - 1];
    MultiAgentInitIsLocal();
    if Declared(Policies) in args {
      assert LastWriter(init, 0);
      StoredOnDone(c, init, args, h, 0);
    } else {
      assert !AnyWrites(init, args, Declared(Policies)) by {
        forall i | 0 <= i < |init|
          ensures !Writes(init[i], args, Declared(Policies))
        {
          assert i == 0 || Target(init[i]) != Target(init[0]);
        }
      }
    }
  }

  /** The steps of `multi_agent(...)` before the derivation form a local table starting with `policies`. */
  lemma MultiAgentInitIsLocal()
    ensures var init := MultiAgentSteps[..|MultiAgentSteps| - 1];
            MultiAgentSteps == init + [DeriveMultiAgent] && LocalTable(init) &&
            init[0] == AssignPolicies(Declared(Policies), Policies)
  {
    var init := MultiAgentSteps[..|MultiAgentSteps| - 1];
    assert MultiAgentSteps == init + [DeriveMultiAgent];
    forall i, j | 0 <= i < j < |init| && Target(init[i]).Some?
      ensures Target(init[j]) != Target(init[i])
    {
    }
    forall i | 0 <= i < |init|
      ensures Target(init[i]) != Some(IsFrozen) && !init[i].DeriveMultiAgent?
    {
    }
  }

  /**
   * A completed `multi_agent(...)` stored `policies` only after checking it: it is iterable, every
   * policy ID passes `validate_policy_id`, and every spec of a dict is well formed.
   */
  lemma MultiAgentPoliciesChecked(c: Config, args: Kwargs, h: Collaborators)
    ensures var p, r := Declared(Policies), MultiAgent(c, args, h);
            r.Done? && p in args ==>
              Get(r.config, p) == Some(args[p]) &&
              Members(args[p]).Some? && (forall pid | pid in Members(args[p]).value :: h.isValidPolicyId(pid)) &&
              (args[p].DictV? ==> forall i | 0 <= i < |args[p].entries| :: WellFormedSpec(args[p].entries[i].1))
  {
    MultiAgentOnlyWriters();
    StoresAll(c, MultiAgentSteps, {}, args, h);
    PoliciesAccepted(c, args, h);
  }

  /** A completed call had its `policies` argument accepted by the policies step. */
  lemma PoliciesAccepted(c: Config, args: Kwargs, h: Collaborators)
    ensures var p, r := Declared(Policies), MultiAgent(c, args, h);
            r.Done? && p in args ==>
              Members(args[p]).Some? && (forall pid | pid in Members(args[p]).value :: h.isValidPolicyId(pid)) &&
              (args[p].DictV? ==> forall i | 0 <= i < |args[p].entries| :: WellFormedSpec(args[p].entries[i].1))
  {
    MultiAgentOnlyWriters();
    MultiAgentShape();
    SetterEffect(c, MultiAgentSteps, {}, args, h, 0);
    var p := Declared(Policies);
    if p in args {
      assert RunStep(c, MultiAgentSteps[0], args, h) == PoliciesStep(c, p, Policies, args[p], h);
    }
  }

  /** `count_steps_by` must be "env_steps" or "agent_steps". */
  lemma MultiAgentCountStepsByChecked(c: Config, args: Kwargs, h: Collaborators)
    ensures var p, r := Declared(CountStepsBy), MultiAgent(c, args, h);
            p in args && !PyEq(args[p], StrV("env_steps")) && !PyEq(args[p], StrV("agent_steps")) ==>
              r.Raised? && Get(r.config, p) == Get(c, p)
    ensures var p, r := Declared(CountStepsBy), MultiAgent(c, args, h);
            r.Done? && p in args ==>
              Get(r.config, p) == Some(args[p]) &&
              (PyEq(args[p], StrV("env_steps")) || PyEq(args[p], StrV("agent_steps")))
  {
    var choices := [StrV("env_steps"), StrV("agent_steps")];
    MultiAgentOnlyWriters();
    CheckedAssignment(c, MultiAgentSteps, {}, args, h, 6);
    var p := Declared(CountStepsBy);
    if p in args {
      OneOfTwo(args[p], choices[0], choices[1]);
    }
  }

  /** `policies_to_train` must be a list, set or tuple, a callable, or None. */
  lemma MultiAgentPoliciesToTrainChecked(c: Config, args: Kwargs, h: Collaborators)
    ensures var p, r := Declared(PoliciesToTrain), MultiAgent(c, args, h);
            p in args && !(args[p].ListV? || args[p].SetV? || args[p].TupleV? || IsCallable(args[p]) || args[p].NoneV?) ==>
              r.Raised? && Get(r.config, p) == Get(c, p)
    ensures var p, r := Declared(PoliciesToTrain), MultiAgent(c, args, h);
            r.Done? && p in args ==>
              Get(r.config, p) == Some(args[p]) &&
              (args[p].ListV? || args[p].SetV? || args[p].TupleV? || IsCallable(args[p]) || args[p].NoneV?)
  {
    MultiAgentOnlyWriters();
    CheckedAssignment(c, MultiAgentSteps, {}, args, h, 7);
  }

  /** A `replay_mode` other than DEPRECATED_VALUE is a deprecation error. */
  lemma MultiAgentRejectsReplayMode(c: Config, args: Kwargs, h: Collaborators)
    requires Declared(ReplayMode) in args && !PyEq(args[Declared(ReplayMode)], DEPRECATED_VALUE)
    ensures MultiAgent(c, args, h).Raised?
  {
    MultiAgentOnlyWriters();
    RaisingStep(c, MultiAgentSteps, args, h, 5);
  }

  /** A fresh config is single-agent and consistent: one policy, the default one. */
  lemma InitMultiAgentConsistent(algoClass: Value)
    ensures MultiAgentConsistent(Init(algoClass))
    ensures Get(Init(algoClass), Declared(IsMultiAgent)) == Some(BoolV(false))
  {
    InitSingleAgent(algoClass);
  }

  /** Tables that write neither `policies` nor `_is_multi_agent`. */
  predicate LeavesMultiAgent(steps: seq<Step>)
  {
    forall i | 0 <= i < |steps| :: Target(steps[i]) != Some(Policies) && Target(steps[i]) != Some(IsMultiAgent)
  }

  /** Such a table keeps the flag consistent, whatever the call does. */
  lemma KeepsConsistent(c: Config, steps: seq<Step>, extra: set<Key>, args: Kwargs, h: Collaborators)
    requires LeavesMultiAgent(steps) && MultiAgentConsistent(c)
    ensures MultiAgentConsistent(RunSetter(c, steps, extra, args, h).config)
  {
    var r := RunSetter(c, steps, extra, args, h);
    assert Get(r.config, Declared(Policies)) == Get(c, Declared(Policies));
    assert Get(r.config, Declared(IsMultiAgent)) == Get(c, Declared(IsMultiAgent));
  }

  /** Only `multi_agent(...)` writes `policies` or `_is_multi_agent`. */
  lemma OtherSettersLeaveMultiAgent()
    ensures LeavesMultiAgent(PythonEnvironmentSteps) && LeavesMultiAgent(ResourcesSteps)
    ensures LeavesMultiAgent(FrameworkSteps) && LeavesMultiAgent(EnvironmentSteps)
    ensures LeavesMultiAgent(RolloutsSteps) && LeavesMultiAgent(TrainingSteps)
    ensures LeavesMultiAgent(ExplorationSteps) && LeavesMultiAgent(EvaluationSteps)
    ensures LeavesMultiAgent(OfflineDataSteps) && LeavesMultiAgent(ReportingSteps)
    ensures LeavesMultiAgent(CheckpointingSteps) && LeavesMultiAgent(DebuggingSteps)
    ensures LeavesMultiAgent(ExperimentalSteps)
  {
    assert LeavesMultiAgent(PythonEnvironmentSteps) by {
      forall j | 0 <= j < |PythonEnvironmentSteps|
        ensures Target(PythonEnvironmentSteps[j]) != Some(Policies) && Target(PythonEnvironmentSteps[j]) != Some(IsMultiAgent)
      {
      }
    }
    assert LeavesMultiAgent(ResourcesSteps) by {
      forall j | 0 <= j < |ResourcesSteps|
        ensures Target(ResourcesSteps[j]) != Some(Policies) && Target(ResourcesSteps[j]) != Some(IsMultiAgent)
      {
      }
    }
    assert LeavesMultiAgent(FrameworkSteps) by {
      forall j | 0 <= j < |FrameworkSteps|
        ensures Target(FrameworkSteps[j]) != Some(Policies) && Target(FrameworkSteps[j]) != Some(IsMultiAgent)
      {
      }
    }
    assert LeavesMultiAgent(EnvironmentSteps) by {
      forall j | 0 <= j < |EnvironmentSteps|
        ensures Target(EnvironmentSteps[j]) != Some(Policies) && Target(EnvironmentSteps[j]) != Some(IsMultiAgent)
      {
      }
    }
    assert LeavesMultiAgent(RolloutsSteps) by {
      forall j | 0 <= j < |RolloutsSteps|
        ensures Target(RolloutsSteps[j]) != Some(Policies) && Target(RolloutsSteps[j]) != Some(IsMultiAgent)
      {
      }
    }
    assert LeavesMultiAgent(TrainingSteps) by {
      forall j | 0 <= j < |TrainingSteps|
        ensures Target(TrainingSteps[j]) != Some(Policies) && Target(TrainingSteps[j]) != Some(IsMultiAgent)
      {
      }
    }
    assert LeavesMultiAgent(ExplorationSteps) by {
      forall j | 0 <= j < |ExplorationSteps|
        ensures Target(ExplorationSteps[j]) != Some(Policies) && Target(ExplorationSteps[j]) != Some(IsMultiAgent)
      {
      }
    }
    assert LeavesMultiAgent(EvaluationSteps) by {
      forall j | 0 <= j < |EvaluationSteps|
        ensures Target(EvaluationSteps[j]) != Some(Policies) && Target(EvaluationSteps[j]) != Some(IsMultiAgent)
      {
      }
    }
    assert LeavesMultiAgent(OfflineDataSteps) by {
      forall j | 0 <= j < |OfflineDataSteps|
        ensures Target(OfflineDataSteps[j]) != Some(Policies) && Target(OfflineDataSteps[j]) != Some(IsMultiAgent)
      {
      }
    }
    assert LeavesMultiAgent(ReportingSteps) by {
      forall j | 0 <= j < |ReportingSteps|
        ensures Target(ReportingSteps[j]) != Some(Policies) && Target(ReportingSteps[j]) != Some(IsMultiAgent)
      {
      }
    }
    assert LeavesMultiAgent(CheckpointingSteps) by {
      forall j | 0 <= j < |CheckpointingSteps|
        ensures Target(CheckpointingSteps[j]) != Some(Policies) && Target(CheckpointingSteps[j]) != Some(IsMultiAgent)
      {
      }
    }
    assert LeavesMultiAgent(DebuggingSteps) by {
      forall j | 0 <= j < |DebuggingSteps|
        ensures Target(DebuggingSteps[j]) != Some(Policies) && Target(DebuggingSteps[j]) != Some(IsMultiAgent)
      {
      }
    }
    assert LeavesMultiAgent(ExperimentalSteps) by {
      forall j | 0 <= j < |ExperimentalSteps|
        ensures Target(ExperimentalSteps[j]) != Some(Policies) && Target(ExperimentalSteps[j]) != Some(IsMultiAgent)
      {
      }
    }
  }

  /** No setter writes `_is_frozen`. */
  lemma SettersKeepFrozenFlag()
    ensures KeepsFrozenFlag(PythonEnvironmentSteps)
    ensures KeepsFrozenFlag(ResourcesSteps)
    ensures KeepsFrozenFlag(FrameworkSteps)
    ensures KeepsFrozenFlag(EnvironmentSteps)
    ensures KeepsFrozenFlag(RolloutsSteps)
    ensures KeepsFrozenFlag(TrainingSteps)
    ensures KeepsFrozenFlag(ExplorationSteps)
    ensures KeepsFrozenFlag(EvaluationSteps)
    ensures KeepsFrozenFlag(OfflineDataSteps)
    ensures KeepsFrozenFlag(MultiAgentSteps)
    ensures KeepsFrozenFlag(ReportingSteps)
    ensures KeepsFrozenFlag(CheckpointingSteps)
    ensures KeepsFrozenFlag(DebuggingSteps)
    ensures KeepsFrozenFlag(ExperimentalSteps)
  {
    assert KeepsFrozenFlag(PythonEnvironmentSteps) by {
      forall j | 0 <= j < |PythonEnvironmentSteps|
        ensures Target(PythonEnvironmentSteps[j]) != Some(IsFrozen)
      {
      }
    }
    assert KeepsFrozenFlag(ResourcesSteps) by {
      forall j | 0 <= j < |ResourcesSteps|
        ensures Target(ResourcesSteps[j]) != Some(IsFrozen)
      {
      }
    }
    assert KeepsFrozenFlag(FrameworkSteps) by {
      forall j | 0 <= j < |FrameworkSteps|
        ensures Target(FrameworkSteps[j]) != Some(IsFrozen)
      {
      }
    }
    assert KeepsFrozenFlag(EnvironmentSteps) by {
      forall j | 0 <= j < |EnvironmentSteps|
        ensures Target(EnvironmentSteps[j]) != Some(IsFrozen)
      {
      }
    }
    assert KeepsFrozenFlag(RolloutsSteps) by {
      forall j | 0 <= j < |RolloutsSteps|
        ensures Target(RolloutsSteps[j]) != Some(IsFrozen)
      {
      }
    }
    assert KeepsFrozenFlag(TrainingSteps) by {
      forall j | 0 <= j < |TrainingSteps|
        ensures Target(TrainingSteps[j]) != Some(IsFrozen)
      {
      }
    }
    assert KeepsFrozenFlag(ExplorationSteps) by {
      forall j | 0 <= j < |ExplorationSteps|
        ensures Target(ExplorationSteps[j]) != Some(IsFrozen)
      {
      }
    }
    assert KeepsFrozenFlag(EvaluationSteps) by {
      forall j | 0 <= j < |EvaluationSteps|
        ensures Target(EvaluationSteps[j]) != Some(IsFrozen)
      {
      }
    }
    assert KeepsFrozenFlag(OfflineDataSteps) by {
      forall j | 0 <= j < |OfflineDataSteps|
        ensures Target(OfflineDataSteps[j]) != Some(IsFrozen)
      {
      }
    }
    assert KeepsFrozenFlag(MultiAgentSteps) by {
      forall j | 0 <= j < |MultiAgentSteps|
        ensures Target(MultiAgentSteps[j]) != Some(IsFrozen)
      {
      }
    }
    assert KeepsFrozenFlag(ReportingSteps) by {
      forall j | 0 <= j < |ReportingSteps|
        ensures Target(ReportingSteps[j]) != Some(IsFrozen)
      {
      }
    }
    assert KeepsFrozenFlag(CheckpointingSteps) by {
      forall j | 0 <= j < |CheckpointingSteps|
        ensures Target(CheckpointingSteps[j]) != Some(IsFrozen)
      {
      }
    }
    assert KeepsFrozenFlag(DebuggingSteps) by {
      forall j | 0 <= j < |DebuggingSteps|
        ensures Target(DebuggingSteps[j]) != Some(IsFrozen)
      {
      }
    }
    assert KeepsFrozenFlag(ExperimentalSteps) by {
      forall j | 0 <= j < |ExperimentalSteps|
        ensures Target(ExperimentalSteps[j]) != Some(IsFrozen)
      {
      }
    }
  }

  lemma RolloutsSimple()
    ensures Simple(RolloutsSteps) && KeepsFrozenFlag(RolloutsSteps)
  {
  }

  lemma RolloutsContract(c: Config, args: Kwargs, h: Collaborators)
    ensures SimpleSetterSpec(c, RolloutsSteps, {}, args, Rollouts(c, args, h))
  {
    RolloutsSimple();
    SimpleSetter(c, RolloutsSteps, {}, args, h);
  }

  /** Step 1 of the rollouts table is the one step that writes `num_envs_per_worker`. */
  lemma NumEnvsOnlyWriter()
    ensures RolloutsSteps[1] == Assign(Declared(NumEnvsPerWorker), NumEnvsPerWorker, Positive)
    ensures FirstWriter(RolloutsSteps, 1) && LastWriter(RolloutsSteps, 1)
  {
    assert FirstWriter(RolloutsSteps, 1) by {
      forall j | 0 <= j < 1
        ensures Target(RolloutsSteps[j]) != Target(RolloutsSteps[1])
      {
      }
    }
    assert LastWriter(RolloutsSteps, 1) by {
      forall j | 1 < j < |RolloutsSteps|
        ensures Target(RolloutsSteps[j]) != Target(RolloutsSteps[1])
      {
      }
    }
  }

  /** Step 6 of the rollouts table is the one step that writes `rollout_fragment_length`. */
  lemma FragmentLengthOnlyWriter()
    ensures RolloutsSteps[6] == Assign(Declared(RolloutFragmentLength), RolloutFragmentLength, PositiveIntOrAuto)
    ensures FirstWriter(RolloutsSteps, 6) && LastWriter(RolloutsSteps, 6)
  {
    assert FirstWriter(RolloutsSteps, 6) by {
      forall j | 0 <= j < 6
        ensures Target(RolloutsSteps[j]) != Target(RolloutsSteps[6])
      {
      }
    }
    assert LastWriter(RolloutsSteps, 6) by {
      forall j | 6 < j < |RolloutsSteps|
        ensures Target(RolloutsSteps[j]) != Target(RolloutsSteps[6])
      {
      }
    }
  }

  /** Step 7 of the rollouts table is the one step that writes `batch_mode`. */
  lemma BatchModeOnlyWriter()
    ensures RolloutsSteps[7] == Assign(Declared(BatchMode), BatchMode, OneOf([StrV("truncate_episodes"), StrV("complete_episodes")]))
    ensures FirstWriter(RolloutsSteps, 7) && LastWriter(RolloutsSteps, 7)
  {
    assert FirstWriter(RolloutsSteps, 7) by {
      forall j | 0 <= j < 7
        ensures Target(RolloutsSteps[j]) != Target(RolloutsSteps[7])
      {
      }
    }
    assert LastWriter(RolloutsSteps, 7) by {
      forall j | 7 < j < |RolloutsSteps|
        ensures Target(RolloutsSteps[j]) != Target(RolloutsSteps[7])
      {
      }
    }
  }

  /** Step 18 of the rollouts table is the one step that writes `preprocessor_pref`. */
  lemma PreprocessorPrefOnlyWriter()
    ensures RolloutsSteps[18] == Assign(Declared(PreprocessorPref), PreprocessorPref, AssertOneOf([StrV("rllib"), StrV("deepmind"), NoneV]))
    ensures FirstWriter(RolloutsSteps, 18) && LastWriter(RolloutsSteps, 18)
  {
    assert FirstWriter(RolloutsSteps, 18) by {
      forall j | 0 <= j < 18
        ensures Target(RolloutsSteps[j]) != Target(RolloutsSteps[18])
      {
      }
    }
    assert LastWriter(RolloutsSteps, 18) by {
      forall j | 18 < j < |RolloutsSteps|
        ensures Target(RolloutsSteps[j]) != Target(RolloutsSteps[18])
      {
      }
    }
  }

  /** Membership in a two-item choice list, spelled out. */
  lemma OneOfTwo(v: Value, a: Value, b: Value)
    ensures (exists i :: 0 <= i < |[a, b]| && PyEq(v, [a, b][i])) <==> PyEq(v, a) || PyEq(v, b)
  {
    if PyEq(v, a) {
      assert PyEq(v, [a, b][0]);
    } else if PyEq(v, b) {
      assert PyEq(v, [a, b][1]);
    }
  }

  /** Membership in a three-item choice list, spelled out. */
  lemma OneOfThree(v: Value, a: Value, b: Value, c: Value)
    ensures (exists i :: 0 <= i < |[a, b, c]| && PyEq(v, [a, b, c][i])) <==> PyEq(v, a) || PyEq(v, b) || PyEq(v, c)
  {
    if PyEq(v, a) {
      assert PyEq(v, [a, b, c][0]);
    } else if PyEq(v, b) {
      assert PyEq(v, [a, b, c][1]);
    } else if PyEq(v, c) {
      assert PyEq(v, [a, b, c][2]);
    }
  }

  /** `num_envs_per_worker` must be a number greater than 0. */
  lemma RolloutsNumEnvsChecked(c: Config, args: Kwargs, h: Collaborators)
    ensures var p, r := Declared(NumEnvsPerWorker), Rollouts(c, args, h);
            p in args && !(NumberOf(args[p]).Some? && NumberOf(args[p]).value > 0.0) ==>
              r.Raised? && Get(r.config, p) == Get(c, p)
    ensures var p, r := Declared(NumEnvsPerWorker), Rollouts(c, args, h);
            r.Done? && p in args ==> Get(r.config, p) == Some(args[p]) && NumberOf(args[p]).value > 0.0
  {
    NumEnvsOnlyWriter();
    CheckedAssignment(c, RolloutsSteps, {}, args, h, 1);
  }

  /** `rollout_fragment_length` must be an int greater than 0 or "auto". */
  lemma RolloutsFragmentLengthChecked(c: Config, args: Kwargs, h: Collaborators)
    ensures var p, r := Declared(RolloutFragmentLength), Rollouts(c, args, h);
            p in args && !((IsInt(args[p]) && NumberOf(args[p]).value > 0.0) || args[p] == StrV("auto")) ==>
              r.Raised? && Get(r.config, p) == Get(c, p)
    ensures var p, r := Declared(RolloutFragmentLength), Rollouts(c, args, h);
            r.Done? && p in args ==>
              Get(r.config, p) == Some(args[p]) &&
              ((IsInt(args[p]) && NumberOf(args[p]).value > 0.0) || args[p] == StrV("auto"))
  {
    FragmentLengthOnlyWriter();
    CheckedAssignment(c, RolloutsSteps, {}, args, h, 6);
  }

  /** `batch_mode` must be "truncate_episodes" or "complete_episodes". */
  lemma RolloutsBatchModeChecked(c: Config, args: Kwargs, h: Collaborators)
    ensures var p, r := Declared(BatchMode), Rollouts(c, args, h);
            p in args && !PyEq(args[p], StrV("truncate_episodes")) && !PyEq(args[p], StrV("complete_episodes")) ==>
              r.Raised? && Get(r.config, p) == Get(c, p)
    ensures var p, r := Declared(BatchMode), Rollouts(c, args, h);
            r.Done? && p in args ==>
              Get(r.config, p) == Some(args[p]) &&
              (PyEq(args[p], StrV("truncate_episodes")) || PyEq(args[p], StrV("complete_episodes")))
  {
    var choices := [StrV("truncate_episodes"), StrV("complete_episodes")];
    BatchModeOnlyWriter();
    CheckedAssignment(c, RolloutsSteps, {}, args, h, 7);
    var p := Declared(BatchMode);
    if p in args {
      OneOfTwo(args[p], choices[0], choices[1]);
    }
  }

  /** `preprocessor_pref` must be "rllib", "deepmind" or None (an assertion, not a ValueError). */
  lemma RolloutsPreprocessorPrefChecked(c: Config, args: Kwargs, h: Collaborators)
    ensures var p, r := Declared(PreprocessorPref), Rollouts(c, args, h);
            p in args && !PyEq(args[p], StrV("rllib")) && !PyEq(args[p], StrV("deepmind")) && !PyEq(args[p], NoneV) ==>
              r.Raised? && Get(r.config, p) == Get(c, p)
    ensures var p, r := Declared(PreprocessorPref), Rollouts(c, args, h);
            r.Done? && p in args ==>
              Get(r.config, p) == Some(args[p]) &&
              (PyEq(args[p], StrV("rllib")) || PyEq(args[p], StrV("deepmind")) || PyEq(args[p], NoneV))
  {
    var choices := [StrV("rllib"), StrV("deepmind"), NoneV];
    PreprocessorPrefOnlyWriter();
    CheckedAssignment(c, RolloutsSteps, {}, args, h, 18);
    var p := Declared(PreprocessorPref);
    if p in args {
      OneOfThree(args[p], choices[0], choices[1], choices[2]);
    }
  }

  lemma OfflineDataContract(c: Config, args: Kwargs, h: Collaborators)
    ensures SimpleSetterSpec(c, OfflineDataSteps, {}, args, OfflineData(c, args, h))
  {
    SimpleSetter(c, OfflineDataSteps, {}, args, h);
  }

  lemma ReportingContract(c: Config, args: Kwargs, h: Collaborators)
    ensures SimpleSetterSpec(c, ReportingSteps, {}, args, Reporting(c, args, h))
  {
    SimpleSetter(c, ReportingSteps, {}, args, h);
  }

  lemma CheckpointingContract(c: Config, args: Kwargs, h: Collaborators)
    ensures SimpleSetterSpec(c, CheckpointingSteps, {}, args, Checkpointing(c, args, h))
  {
    SimpleSetter(c, CheckpointingSteps, {}, args, h);
  }

  lemma DebuggingContract(c: Config, args: Kwargs, h: Collaborators)
    ensures SimpleSetterSpec(c, DebuggingSteps, {}, args, Debugging(c, args, h))
  {
    SimpleSetter(c, DebuggingSteps, {}, args, h);
  }

  lemma ExperimentalContract(c: Config, args: Kwargs, h: Collaborators)
    ensures SimpleSetterSpec(c, ExperimentalSteps, {}, args, Experimental(c, args, h))
  {
    SimpleSetter(c, ExperimentalSteps, {}, args, h);
  }
}
