# AlgorithmConfig, BCConfig and the dashboard node list, in Dafny

This project models three parts of Ray.

**RLlib's `AlgorithmConfig`.** This is the configuration object of every RLlib algorithm. The model covers:
- the frozen-state gatekeeper (`__setattr__`);
- item assignment and item reads (`__setitem__`, `__getitem__`);
- `freeze` and `copy`;
- the fluent setters (`rollouts(...)`, `training(...)`, `multi_agent(...)` and the others);
- `validate()`;
- the legacy dict: `to_dict`, `update_from_dict`, `from_dict` and `_translate_special_keys`;
- `get_rollout_fragment_length`;
- `get_evaluation_config_object`.

**RLlib's `BCConfig`.** The behavioural-cloning config: its defaults and its `validate()`.

**The dashboard's `useNodeList` hook.** How the node table is:
- filtered (`changeFilter` and the filter);
- derived and sorted (`nodeListWithState`, the `sortBy` on head node, state and node id);
- paginated (`setPage`).

A config is a value: `Config(attrs, dynamic)`.
- `attrs` maps each attribute that `__init__` declares to its current Python value.
- `dynamic` holds the attributes assigned later under other names, such as `beta` or `lambda_`.

Python values are a small datatype, `Value`, and Python's truthiness, `==` and `in` are written out for it. An operation that mutates a config in place returns an `Outcome`. That is either `Done(config)` or `Raised(config, error)`; the latter keeps the state reached when the exception was raised, because earlier assignments are not undone. The exceptions are two in-place dict updates made just before a raise, which the raised state does not show; "## Left out" lists them.

Library code whose internals are not modelled is passed in as a `Collaborators` value:
- `deep_update` and `merge_dicts`;
- `from_config`;
- `validate_policy_id`;
- the multi-GPU capability query on policy classes.

Files, in dependency order:

| file | module | contents |
|---|---|---|
| wrappers.dfy | Wrappers | `Option`, `Result` |
| strings.dfy | Strings | prefix and substring predicates |
| attributes.dfy | Attributes | the declared attributes and their Python names |
| pyobjects.dfy | PyObjects | `Value`, `Config`, truthiness, `==`, `in`, dict lookup |
| config_object.dfy | ConfigObject | `__setattr__`, `__setitem__`, `freeze`, `copy` |
| defaults.dfy | Defaults | `AlgorithmConfig.__init__` |
| setter_engine.dfy | SetterEngine | the shape every setter shares, proved once |
| setters.dfy | Setters | each setter as its table of steps |
| setter_properties.dfy | SetterProperties | each setter's contract |
| legacy_dict.dfy | LegacyDict | `_translate_special_keys`, `to_dict`, `update_from_dict`, `from_dict`, `__getitem__` |
| fragment_length.dfy | FragmentLength | `get_rollout_fragment_length` |
| evaluation_object.dfy | EvaluationObject | `get_evaluation_config_object` |
| validate.dfy | Validation | `validate()` |
| bc_config.dfy | BehaviorCloning | `BCConfig.__init__`, `BCConfig.validate()` |
| node_list.dfy | NodeList | `useNodeList` |

## Model

In the source column, paths of the RLlib files are abbreviated: `algorithm_config.py` stands for `rllib/algorithms/algorithm_config.py`, and `bc.py` for `rllib/algorithms/bc/bc.py`.

| member | source | states |
|---|---|---|
| ConfigObject.SetAttr | rllib/algorithms/algorithm_config.py:2188-2200 | an assignment completes exactly when the config is not frozen or the key is `simple_optimizer`, `worker_index` or `_is_frozen` (and the key is not a property without setter); it stores the value and changes no other attribute; a refused assignment leaves the config as it was |
| ConfigObject.SetAttrKeepsFrozen | rllib/algorithms/algorithm_config.py:2188-2200 | assigning any declared attribute other than `_is_frozen` leaves the frozen state as it was |
| ConfigObject.SetItem | rllib/algorithms/algorithm_config.py:2226-2242 | as written: `config[k] = v` is refused only for "multiagent" (and read-only properties), whatever the frozen state; it stores the value and nothing else changes |
| ConfigObject.SetItemBypassesFreeze | rllib/algorithms/algorithm_config.py:2226-2242 | a frozen config accepts `config["lr"] = v` and then holds `v` |
| ConfigObject.SetItemGated | rllib/algorithms/algorithm_config.py:2226-2242 | corrected: item assignment goes through the gatekeeper, so a frozen config refuses every key but the three exempt ones and stays unchanged |
| ConfigObject.FreezeFreezes | rllib/algorithms/algorithm_config.py:515-527 | `freeze` leaves the config frozen; an already frozen config is returned unchanged; a nested evaluation AlgorithmConfig is frozen too; nothing but `_is_frozen` and the nested config changes |
| ConfigObject.FreezeIdempotent | rllib/algorithms/algorithm_config.py:515-527 | freezing twice is freezing once |
| ConfigObject.FreezeDeep | rllib/algorithms/algorithm_config.py:523-527 | a chain of nested evaluation configs none of which is frozen becomes frozen at every level |
| ConfigObject.Freeze | rllib/algorithms/algorithm_config.py:515-527 | the definition of `freeze`; `FreezeFreezes`, `FreezeIdempotent` and `FreezeDeep` state its contract |
| ConfigObject.CopyModes | rllib/algorithms/algorithm_config.py:496-513 | `copy(True)` is frozen, `copy(False)` is unfrozen together with a nested evaluation config, any other argument keeps the state; the copy has the same dynamic attributes and differs from the original in no declared attribute but `_is_frozen` and `evaluation_config` |
| ConfigObject.CopyNested | rllib/algorithms/algorithm_config.py:506-512 | `copy(True)` also freezes a nested evaluation config; `copy(False)` changes nothing in it but its frozen flag, and keeps any other `evaluation_config` value |
| ConfigObject.Copy | rllib/algorithms/algorithm_config.py:496-513 | the definition of `copy`; `CopyModes` and `CopyNested` state its contract |
| Defaults.Init | rllib/algorithms/algorithm_config.py:164-360 | `AlgorithmConfig(algo_class)` declares every attribute, each with its `__init__` value, and no dynamic attribute |
| Defaults.InitNotFrozen | rllib/algorithms/algorithm_config.py:335 | a new config is not frozen |
| Defaults.InitSingleAgent | rllib/algorithms/algorithm_config.py:268-269 | a new config holds only the default policy and is not multi-agent |
| Defaults.InitNotEvaluation | rllib/algorithms/algorithm_config.py:297-306 | a new config is not an evaluation config and has no evaluation settings |
| Defaults.InitFramework | rllib/algorithms/algorithm_config.py:176-185 | a new config uses framework "tf" and 0 GPUs |
| Defaults.InitEvaluationWorkers | rllib/algorithms/algorithm_config.py:296-300 | a new config has 0 evaluation workers and no evaluation in parallel to training |
| Defaults.InitEvaluationDuration | rllib/algorithms/algorithm_config.py:275-293 | a new config has evaluation duration 10 and `policies_to_train` None |
| Defaults.InitModelFlags | rllib/algorithms/algorithm_config.py:330-331 | both experimental model flags start False |
| Defaults.InitSimpleOptimizer | rllib/algorithms/algorithm_config.py:340 | `simple_optimizer` starts at the DEPRECATED_VALUE placeholder |
| SetterEngine.StoredOnDone | rllib/algorithms/algorithm_config.py:1111-1186 | when a setter's run completes, every provided argument of a storing step that is the last to write its attribute is that attribute's value |
| SetterEngine.RaisingStep | rllib/algorithms/algorithm_config.py:1113-1119 | a step that raises for its argument makes the whole call raise, with its attribute untouched when no earlier step wrote it |
| SetterEngine.EffectOnDone | rllib/algorithms/algorithm_config.py:1111-1186 | for a step that is its attribute's only writer, a completed run leaves that attribute as the step alone would have |
| SetterEngine.CheckedAssignment | rllib/algorithms/algorithm_config.py:1128-1137 | a provided argument that fails its check makes the call raise with the attribute untouched; a completed call stored an argument that passed |
| SetterEngine.NoArgumentsNoChange | rllib/algorithms/algorithm_config.py:740-744 | a setter called without arguments changes nothing (every assignment is guarded by `is not NotProvided`) |
| SetterEngine.OnlyOneFires | rllib/algorithms/algorithm_config.py:1111-1186 | a call in which only one keyword fires is that one step |
| SetterEngine.StepAdmitsIff | rllib/algorithms/algorithm_config.py:1210-1229 | one statement of a setter body completes exactly when its argument passes the statement's checks, the collaborators it calls answer, the attribute it reads has the right shape, and the gatekeeper allows the write (in-place updates bypass it) |
| SetterEngine.LocalDoneIff | rllib/algorithms/algorithm_config.py:925-950 | a setter body whose statements write distinct attributes (never `_is_frozen`) completes exactly when every statement admits the call on the config as it was before the call |
| SetterProperties.MultiAgentCompletes | rllib/algorithms/algorithm_config.py:1581-1668 | `multi_agent(...)` returns self exactly when its checks pass, the config is not frozen and the resulting `policies` are iterable |
| SetterEngine.SimpleDoneIff | rllib/algorithms/algorithm_config.py:1111-1186 | a setter made of checked assignments completes exactly when every provided argument passes its check and the gatekeeper lets it through |
| SetterEngine.FrozenStays | rllib/algorithms/algorithm_config.py:2188-2200 | a setter that never writes `_is_frozen` leaves the frozen state as it found it |
| SetterEngine.EndsRaisingWhenFrozen | rllib/algorithms/algorithm_config.py:1664-1666 | a setter ending in the unconditional `_is_multi_agent` assignment always raises on a frozen config |
| SetterEngine.SimpleSetter | rllib/algorithms/algorithm_config.py:1111-1186 | a simple setter completes exactly when it declares every keyword and every step accepts; it then stores every provided argument and touches nothing else |
| SetterProperties.PythonEnvironmentContract | rllib/algorithms/algorithm_config.py:740-744 | `python_environment(...)` meets the simple-setter contract |
| SetterProperties.ResourcesContract | rllib/algorithms/algorithm_config.py:798-813 | `resources(...)` meets the simple-setter contract |
| SetterProperties.FrameworkContract | rllib/algorithms/algorithm_config.py:847-864 | `framework(...)` meets the simple-setter contract; `framework="tfe"` is refused |
| SetterProperties.EnvironmentContract | rllib/algorithms/algorithm_config.py:925-950 | `environment(...)` returns self exactly when it declares every keyword and every step admits the call (the `env_config` merge answers; the gatekeeper allows each other write); it then stores every provided argument and deep-updates `env_config` into the existing dict |
| SetterProperties.EnvConfigBypassesFreeze | rllib/algorithms/algorithm_config.py:925-932 | `env_config` is updated in place, so a frozen config accepts it and changes |
| SetterProperties.RolloutsContract | rllib/algorithms/algorithm_config.py:1111-1186 | `rollouts(...)` meets the simple-setter contract |
| SetterProperties.RolloutsNumEnvsChecked | rllib/algorithms/algorithm_config.py:1113-1119 | `num_envs_per_worker` <= 0 raises and is not stored; a completed call stored a positive number |
| SetterProperties.RolloutsFragmentLengthChecked | rllib/algorithms/algorithm_config.py:1128-1137 | `rollout_fragment_length` must be an int > 0 or "auto", otherwise the call raises |
| SetterProperties.RolloutsBatchModeChecked | rllib/algorithms/algorithm_config.py:1140-1146 | `batch_mode` must be "truncate_episodes" or "complete_episodes" |
| SetterProperties.RolloutsPreprocessorPrefChecked | rllib/algorithms/algorithm_config.py:1172-1174 | `preprocessor_pref` must be "rllib", "deepmind" or None (an assertion) |
| SetterProperties.TrainingContract | rllib/algorithms/algorithm_config.py:1210-1229 | `training(...)` returns self exactly when it declares every keyword and every step admits the call (`model` a dict without a live `lstm_use_prev_action_reward` over a model dict; the `optimizer` merge answers; the gatekeeper allows each assignment); it then stores gamma, lr and train_batch_size, merges `model` in place with `dict.update` and `optimizer` with `merge_dicts` |
| SetterProperties.TrainingRejectsPrevActionReward | rllib/algorithms/algorithm_config.py:1216-1225 | a `model` that sets `lstm_use_prev_action_reward` is a deprecation error and the model dict is left alone |
| SetterProperties.ModelBypassesFreeze | rllib/algorithms/algorithm_config.py:1225 | `model` is updated in place, so a frozen config accepts it |
| SetterProperties.ExplorationContract | rllib/algorithms/algorithm_config.py:1273-1287 | `exploration(...)` returns self exactly when it declares every keyword and every step admits the call (the `exploration_config` merge answers; the gatekeeper allows each assignment); it then stores `explore` and deep-updates `exploration_config` |
| SetterProperties.EvaluationContract | rllib/algorithms/algorithm_config.py:1385-1433 | `evaluation(...)` returns self exactly when it declares every keyword and every step admits the call once `evaluation_num_episodes` is folded in; a provided `evaluation_num_episodes` becomes `evaluation_duration`; `evaluation_config=None` stores None, any other value is merged into the current one |
| SetterProperties.MultiAgentContract | rllib/algorithms/algorithm_config.py:1581-1668 | `multi_agent(...)` returns self exactly when it declares every keyword, every step before the flag admits the call (iterable `policies` with valid ids and well-formed specs, an accepted `count_steps_by`, `policies_to_train` and `replay_mode`, a `from_config` that answers), the config is not frozen, and the resulting `policies` are iterable; it then stores every provided argument, the mapping function through `from_config` when it is a dict, and nothing else but the derived flag |
| SetterProperties.MultiAgentPoliciesChecked | rllib/algorithms/algorithm_config.py:1581-1608 | stored `policies` are iterable, every id passes `validate_policy_id`, and every spec in a dict is well formed |
| SetterProperties.MultiAgentCountStepsByChecked | rllib/algorithms/algorithm_config.py:1634-1640 | `count_steps_by` must be "env_steps" or "agent_steps" |
| SetterProperties.MultiAgentPoliciesToTrainChecked | rllib/algorithms/algorithm_config.py:1642-1660 | `policies_to_train` must be a list, set, tuple, callable or None |
| SetterProperties.MultiAgentRejectsReplayMode | rllib/algorithms/algorithm_config.py:1626-1632 | a `replay_mode` other than DEPRECATED_VALUE is a deprecation error |
| SetterProperties.MultiAgentDerivesFlag | rllib/algorithms/algorithm_config.py:1662-1666 | after a completed `multi_agent(...)`, `_is_multi_agent` holds exactly when there is more than one policy or none is the default one |
| SetterProperties.MultiAgentFrozenRaises | rllib/algorithms/algorithm_config.py:1664-1666 | `multi_agent(...)` on a frozen config raises whatever the arguments |
| SetterProperties.InitMultiAgentConsistent | rllib/algorithms/algorithm_config.py:268-269 | a new config's multi-agent flag agrees with its policies |
| SetterProperties.KeepsConsistent | rllib/algorithms/algorithm_config.py:1664-1666 | a setter that writes neither `policies` nor `_is_multi_agent` keeps the flag consistent |
| SetterProperties.OtherSettersLeaveMultiAgent | rllib/algorithms/algorithm_config.py:723-1866 | only `multi_agent(...)` writes `policies` or `_is_multi_agent` |
| SetterProperties.SettersKeepFrozenFlag | rllib/algorithms/algorithm_config.py:723-1866 | no setter writes `_is_frozen` |
| SetterProperties.OfflineDataContract | rllib/algorithms/algorithm_config.py:1497-1527 | `offline_data(...)` meets the simple-setter contract; `input_evaluation` is refused |
| SetterProperties.ReportingContract | rllib/algorithms/algorithm_config.py:1730-1745 | `reporting(...)` meets the simple-setter contract |
| SetterProperties.CheckpointingContract | rllib/algorithms/algorithm_config.py:1765-1768 | `checkpointing(...)` meets the simple-setter contract |
| SetterProperties.DebuggingContract | rllib/algorithms/algorithm_config.py:1803-1816 | `debugging(...)` meets the simple-setter contract |
| SetterProperties.ExperimentalContract | rllib/algorithms/algorithm_config.py:1854-1865 | `experimental(...)` meets the simple-setter contract |
| Setters.PythonEnvironment | rllib/algorithms/algorithm_config.py:723-744 | `python_environment(...)` with a keyword it does not declare is a TypeError that leaves the config as it was; `SetterProperties.PythonEnvironmentContract` states the rest of its contract |
| Setters.Resources | rllib/algorithms/algorithm_config.py:746-813 | `resources(...)` with a keyword it does not declare is a TypeError that leaves the config as it was; `SetterProperties.ResourcesContract` states the rest of its contract |
| Setters.Framework | rllib/algorithms/algorithm_config.py:815-864 | `framework(...)` with a keyword it does not declare is a TypeError that leaves the config as it was; `SetterProperties.FrameworkContract` states the rest of its contract |
| Setters.Environment | rllib/algorithms/algorithm_config.py:866-950 | `environment(...)` with a keyword it does not declare is a TypeError that leaves the config as it was; `SetterProperties.EnvironmentContract` states the rest of its contract |
| Setters.Rollouts | rllib/algorithms/algorithm_config.py:952-1186 | `rollouts(...)` with a keyword it does not declare is a TypeError that leaves the config as it was; `SetterProperties.RolloutsContract` states the rest of its contract |
| Setters.Training | rllib/algorithms/algorithm_config.py:1188-1229 | `training(...)` with a keyword it does not declare is a TypeError that leaves the config as it was; `SetterProperties.TrainingContract` states the rest of its contract |
| Setters.Exploration | rllib/algorithms/algorithm_config.py:1256-1287 | `exploration(...)` with a keyword it does not declare is a TypeError that leaves the config as it was; `SetterProperties.ExplorationContract` states the rest of its contract |
| Setters.Evaluation | rllib/algorithms/algorithm_config.py:1289-1433 | `evaluation(...)` with a keyword it does not declare is a TypeError that leaves the config as it was (besides its own, it accepts `evaluation_num_episodes`); `SetterProperties.EvaluationContract` states the rest of its contract |
| Setters.OfflineData | rllib/algorithms/algorithm_config.py:1435-1527 | `offline_data(...)` with a keyword it does not declare is a TypeError that leaves the config as it was; `SetterProperties.OfflineDataContract` states the rest of its contract |
| Setters.MultiAgent | rllib/algorithms/algorithm_config.py:1529-1668 | `multi_agent(...)` with a keyword it does not declare is a TypeError that leaves the config as it was; `SetterProperties.MultiAgentContract` states the rest of its contract |
| Setters.Reporting | rllib/algorithms/algorithm_config.py:1679-1745 | `reporting(...)` with a keyword it does not declare is a TypeError that leaves the config as it was; `SetterProperties.ReportingContract` states the rest of its contract |
| Setters.Checkpointing | rllib/algorithms/algorithm_config.py:1747-1768 | `checkpointing(...)` with a keyword it does not declare is a TypeError that leaves the config as it was; `SetterProperties.CheckpointingContract` states the rest of its contract |
| Setters.Debugging | rllib/algorithms/algorithm_config.py:1770-1816 | `debugging(...)` with a keyword it does not declare is a TypeError that leaves the config as it was; `SetterProperties.DebuggingContract` states the rest of its contract |
| Setters.Experimental | rllib/algorithms/algorithm_config.py:1818-1865 | `experimental(...)` with a keyword it does not declare is a TypeError that leaves the config as it was; `SetterProperties.ExperimentalContract` states the rest of its contract |
| Setters.Callbacks | rllib/algorithms/algorithm_config.py:1231-1254 | `callbacks(cls)` stores `cls`, or DefaultCallbacks for None; a value that is not callable raises; nothing else changes |
| LegacyDict.FindAttr | rllib/algorithms/algorithm_config.py:2271-2288 | the attribute found has the given Python name; none found means no attribute has it |
| LegacyDict.ParseKey | rllib/algorithms/algorithm_config.py:2271-2288 | a dict key is parsed as the old name, the attribute name or the other name it spells |
| LegacyDict.ParseKeyParsed | rllib/algorithms/algorithm_config.py:2271-2288 | a key parsed as another name is none of the attribute names, the old names or "multiagent" |
| LegacyDict.TranslateKey | rllib/algorithms/algorithm_config.py:2271-2343 | translation fails exactly when asked to warn on one of the eight deprecated names |
| LegacyDict.TranslateInvertsExport | rllib/algorithms/algorithm_config.py:376-390 | translating the key `to_dict` writes for an attribute gives the attribute back, except for a dynamic attribute spelled like an old name (`config["framework"] = ...`): its key translates to the renamed attribute |
| LegacyDict.ExportInvertsTranslate | rllib/algorithms/algorithm_config.py:2271-2288 | on the keys `to_dict` writes, exporting the translated key gives the key back |
| LegacyDict.ExportInjective | rllib/algorithms/algorithm_config.py:376-390 | distinct attributes are exported under distinct keys, unless one is a dynamic attribute spelled like an old name, which shares the renamed attribute's key |
| LegacyDict.FirstMissing | rllib/algorithms/algorithm_config.py:385-386 | the first attribute `to_dict` fails to read, or none when all are present |
| LegacyDict.ToDict | rllib/algorithms/algorithm_config.py:363-421 | `to_dict` succeeds exactly when `algo_class`, `_is_frozen` and the multi-agent attributes are present; otherwise it raises on one that is missing |
| LegacyDict.ExportOrigin | rllib/algorithms/algorithm_config.py:363-421 | every entry of the dict is the "multiagent" sub-dict, a `pop` default, a dynamic "input" or "lambda" left under that old name when the renamed attribute is missing, or the value of the attribute its key translates to |
| LegacyDict.ToDictDrops | rllib/algorithms/algorithm_config.py:371-419 | `to_dict` leaves out `algo_class`, `_is_frozen`, the multi-agent attributes and deprecated attributes still at DEPRECATED_VALUE |
| LegacyDict.ToDictKeeps | rllib/algorithms/algorithm_config.py:370-395 | every other declared attribute is written under its export key with its value, and so is every dynamic attribute whose name `to_dict` does not itself write ("multiagent", the six old names it pops with a default, and "input" or "lambda" when `input_` or `lambda_` exists) |
| LegacyDict.ToDictOverwrites | rllib/algorithms/algorithm_config.py:377-395 | a dynamic attribute whose name `to_dict` itself writes is lost: no entry keeps its name, and the old-name entry holds the renamed attribute or the `pop` default (`config["framework"] = "torch"` leaves `"framework"` holding `framework_str`) |
| LegacyDict.ToDictSound | rllib/algorithms/algorithm_config.py:363-421 | every entry but "multiagent" holds the value of the attribute its key names, or, when that attribute is missing, the `pop` default or the dynamic attribute spelled like the old name |
| LegacyDict.Export | rllib/algorithms/algorithm_config.py:363-421 | the dict `to_dict` builds; `ToDictKeeps`, `ToDictDrops`, `ToDictSound` and `ExportOrigin` state its contents |
| LegacyDict.GetItem | rllib/algorithms/algorithm_config.py:2202-2224 | `config[k]` refuses the deprecated names, reads the translated attribute, and reads "multiagent" through the property |
| LegacyDict.GetItemReadsExport | rllib/algorithms/algorithm_config.py:2202-2224 | reading a config by the keys of its own `to_dict()` gives the dict's values back, for every key except an old name written with its `pop` default (its attribute is missing) and the eight deprecated names `__getitem__` refuses (such as a `metrics_smoothing_episodes` that is not DEPRECATED_VALUE); a dynamic "input" or "lambda" left under that old name reads the missing renamed attribute and raises |
| LegacyDict.MultiagentKwargs | rllib/algorithms/algorithm_config.py:453-466 | the keyword arguments passed to `multi_agent` are exactly the parameter names present in the dict, with their values |
| LegacyDict.Route | rllib/algorithms/algorithm_config.py:452-491 | the dispatch of one entry: "multiagent", `callbacks_class`, `env_config`, `exploration_config`, `model`, `optimizer` and `replay_buffer_config` go through their setters, anything else through the gatekeeper; `RouteLeaves`, `RouteKeepsFrozenFlag` and `PlainEntry` state its contract |
| LegacyDict.Apply | rllib/algorithms/algorithm_config.py:443-493 | the loop over the entries, then one `evaluation(...)` call; `SkipsTrialInfo`, `DeferredMovesToEnd`, `ApplyLeaves` and `ApplyStores` state its contract |
| LegacyDict.UpdateFromDict | rllib/algorithms/algorithm_config.py:422-494 | the definition of `update_from_dict`: the loop starting with no evaluation arguments |
| LegacyDict.Without | rllib/algorithms/algorithm_config.py:160 | removing a key keeps every other entry and no entry with that key |
| LegacyDict.SkipsTrialInfo | rllib/algorithms/algorithm_config.py:447-450 | entries under TRIAL_INFO are ignored: removing them changes nothing |
| LegacyDict.DeferredMovesToEnd | rllib/algorithms/algorithm_config.py:476-477 | "evaluation_" entries take effect only at the end: moving one behind later entries changes nothing |
| LegacyDict.EvaluationWithoutArguments | rllib/algorithms/algorithm_config.py:493 | the final `evaluation()` call without arguments changes nothing |
| LegacyDict.PlainEntry | rllib/algorithms/algorithm_config.py:482-491 | a single entry for an ordinary attribute is an assignment through the gatekeeper |
| LegacyDict.RouteKeepsFrozenFlag | rllib/algorithms/algorithm_config.py:452-491 | only an entry for `_is_frozen` itself can change `_is_frozen` |
| LegacyDict.ApplyKeepsFrozenFlag | rllib/algorithms/algorithm_config.py:443-495 | `update_from_dict` keeps `_is_frozen` when no entry names it |
| LegacyDict.RouteLeaves | rllib/algorithms/algorithm_config.py:452-491 | an entry for another key leaves an attribute that only its own entries write: one whose entry goes through the gatekeeper, whose name does not start with "evaluation_", and that none of the routed setters nor the final `evaluation(...)` call targets |
| LegacyDict.ApplySuffix | rllib/algorithms/algorithm_config.py:443-493 | after any number of turns, a completed loop is the loop over the remaining entries from the state those turns leave |
| LegacyDict.ApplyLeaves | rllib/algorithms/algorithm_config.py:443-493 | `update_from_dict` keeps such an attribute when no entry names it |
| LegacyDict.ApplyStores | rllib/algorithms/algorithm_config.py:443-493 | when exactly one entry names such an attribute, a completed update leaves that entry's value there |
| LegacyDict.FromDict | rllib/algorithms/algorithm_config.py:141-163 | the definition of `from_dict`: a fresh config updated from the dict without its "_is_frozen" entry; `FromDictUnfrozen` states its contract |
| LegacyDict.FromDictUnfrozen | rllib/algorithms/algorithm_config.py:141-163 | `from_dict` never carries frozenness over, whatever the dict holds |
| FragmentLength.Trunc | rllib/algorithms/algorithm_config.py:1892-1898 | `int(x)` truncates toward zero |
| FragmentLength.GetRolloutFragmentLength | rllib/algorithms/algorithm_config.py:1867-1900 | a stored value other than "auto" is returned as it is; "auto" gives an int |
| FragmentLength.AutoLength | rllib/algorithms/algorithm_config.py:1889-1898 | the "auto" formula succeeds exactly when all three settings are numbers and neither factor of the divisor is 0; numbers with a zero factor are a ZeroDivisionError |
| FragmentLength.ReferenceBounds | rllib/algorithms/algorithm_config.py:1870-1888 | the documented split is within one step of the exact share, exact when the division is, and never below it for worker 0 |
| FragmentLength.AutoIsReference | rllib/algorithms/algorithm_config.py:1882-1898 | on whole-number settings "auto" computes the documented split for every worker index |
| FragmentLength.EarlierWorkersNotShorter | rllib/algorithms/algorithm_config.py:1892-1897 | a lower worker index never gets a shorter fragment |
| FragmentLength.WorkedExample | rllib/algorithms/algorithm_config.py:1886-1888 | a batch of 2500 over 4 workers with 3 environments each gives worker 1 a fragment of 209 and workers 2 to 4 one of 208 |
| EvaluationObject.Items | rllib/algorithms/algorithm_config.py:1917-1918 | the items of a dict list every key once with its value |
| EvaluationObject.Settings | rllib/algorithms/algorithm_config.py:1916-1928 | the evaluation settings are the items of `to_dict()` for a config, none for a falsy value, and the dict's own items otherwise; a value without items raises; the method fails exactly when the settings have no items |
| EvaluationObject.Precheck | rllib/algorithms/algorithm_config.py:1911-1916 | None exactly for an evaluation config whose `evaluation_config` is None; an assertion error when it is not None |
| EvaluationObject.Update | rllib/algorithms/algorithm_config.py:1927 | a completed update of the object built so far is `update_from_dict` of that object |
| EvaluationObject.TimestepFragmentLength | rllib/algorithms/algorithm_config.py:1946-1955 | 10 for an "auto" duration, otherwise the duration per evaluation worker, rounded up |
| EvaluationObject.ForUnit | rllib/algorithms/algorithm_config.py:1934-1955 | the rollout settings match the duration unit, and nothing else changes |
| EvaluationObject.MarkThroughGatekeeper | rllib/algorithms/algorithm_config.py:1925-1926 | marking is the two attribute assignments in order, each through the frozen-state gatekeeper |
| EvaluationObject.EpisodesThroughGatekeeper | rllib/algorithms/algorithm_config.py:1934-1936 | the episode-unit settings are the assignments of `batch_mode` and `rollout_fragment_length` through the gatekeeper |
| EvaluationObject.TimestepsThroughGatekeeper | rllib/algorithms/algorithm_config.py:1945-1955 | the timestep-unit settings are the assignments of `batch_mode` and the computed fragment length through the gatekeeper |
| EvaluationObject.MarkEvaluationSpec | rllib/algorithms/algorithm_config.py:1925-1926 | marking sets `in_evaluation` True and `evaluation_config` None on an unfrozen object, and changes nothing else |
| EvaluationObject.EvaluationObjectIsEvaluationConfig | rllib/algorithms/algorithm_config.py:1902-1957 | corrected: the built object is an unfrozen evaluation config that a second call recognises, with the rollout settings of the duration unit |
| EvaluationObject.EvaluationObject | rllib/algorithms/algorithm_config.py:1917-1955 | corrected: the unfrozen copy, updated from the settings, then marked, then given the unit settings; the lemmas below state its contract |
| EvaluationObject.EvaluationObjectAsWritten | rllib/algorithms/algorithm_config.py:1917-1955 | as written: the unfrozen copy, marked, then updated from the settings, then given the unit settings |
| EvaluationObject.EvaluationObjectFromSettings | rllib/algorithms/algorithm_config.py:1917-1955 | corrected: the built object agrees with the updated copy in every key but `in_evaluation`, `evaluation_config`, `batch_mode` and `rollout_fragment_length` |
| EvaluationObject.EvaluationObjectSucceeds | rllib/algorithms/algorithm_config.py:1917-1955 | corrected: the object is built exactly when the update completes on an unfrozen object and the duration unit's fragment length can be computed |
| EvaluationObject.EvaluationObjectTakesEntry | rllib/algorithms/algorithm_config.py:1917-1928 | corrected: a settings entry for an attribute only its own entries write, and that the method does not set, ends up in the object |
| EvaluationObject.EvaluationObjectKeepsUnnamed | rllib/algorithms/algorithm_config.py:1917-1928 | corrected: such an attribute that no settings entry names keeps self's value |
| EvaluationObject.AsWrittenTakesEntry | rllib/algorithms/algorithm_config.py:1917-1928 | as written: a settings entry for an attribute only its own entries write ends up in the object, even over `in_evaluation` and `evaluation_config` |
| EvaluationObject.AsWrittenKeepsUnnamed | rllib/algorithms/algorithm_config.py:1917-1928 | as written: such an attribute that no settings entry names keeps self's value |
| EvaluationObject.AsWrittenUnitSettings | rllib/algorithms/algorithm_config.py:1929-1955 | as written: the built object is unfrozen and has the rollout settings of the duration unit |
| EvaluationObject.GetEvaluationConfigObject | rllib/algorithms/algorithm_config.py:1902-1957 | corrected: None exactly for an evaluation config; otherwise the unfrozen copy of self updated from some listing of the settings, agreeing with that update everywhere but the four attributes the method sets, and an evaluation config with the rollout settings of the duration unit; settings without items raise; the call completes when the object builds for every listing, and otherwise reports the error of one |
| EvaluationObject.GetEvaluationConfigObjectAsWritten | rllib/algorithms/algorithm_config.py:1902-1957 | as written: None exactly for an evaluation config; otherwise the object built from some listing of the settings, unfrozen and with the rollout settings of the duration unit; for settings given as an AlgorithmConfig, its `in_evaluation` is the settings' own flag; the same completion and error conditions as the corrected method |
| EvaluationObject.AsWrittenTakesFlagFromSettings | rllib/algorithms/algorithm_config.py:1917-1928 | as written, the `in_evaluation` entry of the settings' `to_dict()` overwrites the True set before the update |
| EvaluationObject.AsWrittenNotRecognised | rllib/algorithms/algorithm_config.py:1911-1928 | as written, settings given as a fresh AlgorithmConfig yield an object that a second call does not recognise as an evaluation config |
| EvaluationObject.InEvaluationOnlyOwnEntry | rllib/algorithms/algorithm_config.py:723-1866 | no setter `update_from_dict` calls writes `in_evaluation`, and an entry for it is not deferred |
| Validation.Membership | rllib/algorithms/algorithm_config.py:559 | `pid in policies`, or the TypeError of a membership test Python refuses |
| Validation.FirstProblem | rllib/algorithms/algorithm_config.py:556-564 | the loop passes exactly when every id to train is a defined policy |
| Validation.FirstProblemIsFirst | rllib/algorithms/algorithm_config.py:556-564 | the loop raises at the first id that is not defined, after ids that all are |
| Validation.Enumerate | rllib/algorithms/algorithm_config.py:558 | the iteration order of a set visits each element once |
| Validation.CheckPoliciesToTrain | rllib/algorithms/algorithm_config.py:556-564 | the check passes exactly when every id in `policies_to_train` is in `policies`; an unknown id names one that is not |
| Validation.CheckWorkers | rllib/algorithms/algorithm_config.py:566-586 | 0 evaluation workers with evaluation in parallel to training is an error |
| Validation.CheckDuration | rllib/algorithms/algorithm_config.py:588-604 | an "auto" duration needs evaluation in parallel; any other duration must be an int > 0 |
| Validation.CheckEvaluation | rllib/algorithms/algorithm_config.py:566-604 | both evaluation checks pass exactly when the settings agree with each other |
| Validation.MarkModel | rllib/algorithms/algorithm_config.py:606-615 | a flag that is True is written into the model dict in place; a model that is not a dict raises |
| Validation.MarkModelKeepsOtherKeys | rllib/algorithms/algorithm_config.py:606-615 | writing one flag leaves every other key of the model dict |
| Validation.StoreSimpleOptimizer | rllib/algorithms/algorithm_config.py:636-673 | the gatekeeper always lets `simple_optimizer` through |
| Validation.ResolveSimpleOptimizer | rllib/algorithms/algorithm_config.py:617-681 | the `simple_optimizer` step completes exactly when the GPU count and framework allow the setting and, for a multi-agent tf or torch config with the placeholder, `algo_class` is not None and the policy-class query answers; an `algo_class` of None is an AttributeError; only `simple_optimizer` changes |
| Validation.SimpleOptimizerResolved | rllib/algorithms/algorithm_config.py:636-673 | after resolution the placeholder is gone: off with more than one GPU, on for a framework other than tf and torch, a bool wherever the placeholder was |
| Validation.DefaultsPass | rllib/algorithms/algorithm_config.py:534-681 | a config holding the `__init__` defaults of the checked attributes passes every check |
| Validation.NoneAlgoClassFails | rllib/algorithms/algorithm_config.py:640-650 | a multi-agent tf config with the placeholder, no GPU and `algo_class` None fails the checks, with the AttributeError of `None.get_default_policy_class` |
| Validation.Passes | rllib/algorithms/algorithm_config.py:534-681 | the conjunction of the checks `validate()` makes; `Validate`'s contract relates it to the method |
| Validation.MarkModelFlags | rllib/algorithms/algorithm_config.py:606-615 | the two model flags complete exactly when a set flag finds a dict, and write both flags asked for |
| Validation.Adjust | rllib/algorithms/algorithm_config.py:606-681 | the model flags then `simple_optimizer`: completes exactly when both are allowed (so not for a multi-agent config whose `algo_class` is None), touches nothing else, leaves no placeholder |
| Validation.Validate | rllib/algorithms/algorithm_config.py:534-681 | `validate()` completes exactly when every check passes (a multi-agent config whose `algo_class` is None fails); an unsupported framework returns at once; an unknown policy to train is reported; the config changes only in the model dict and `simple_optimizer` |
| BehaviorCloning.BCInit | rllib/algorithms/bc/bc.py:46-62 | `BCConfig(algo_class)`: algo_class or BC, beta 0.0, postprocess_inputs False, off_policy_estimation_methods {}, everything else the parent's defaults |
| BehaviorCloning.BCInitChecked | rllib/algorithms/bc/bc.py:46-62 | a fresh BCConfig holds the `__init__` defaults of every attribute `validate()` checks |
| BehaviorCloning.BCValidate | rllib/algorithms/bc/bc.py:64-69 | after the parent's checks pass, `validate()` raises exactly when beta != 0.0 |
| BehaviorCloning.FreshConfigPasses | rllib/algorithms/bc/bc.py:46-69 | a fresh BCConfig passes the parent's checks and the beta check |
| BehaviorCloning.NonZeroBetaFails | rllib/algorithms/bc/bc.py:64-69 | storing a non-zero beta in a config that passes the parent's checks makes the beta check fail |
| NodeList.FindFilter | dashboard/client/src/pages/node/hook/useNodeList.ts:19 | finds the first filter with the key exactly when one has it |
| NodeList.ChangeFilter | dashboard/client/src/pages/node/hook/useNodeList.ts:18-26 | an existing key's value is changed in place, otherwise exactly one filter is appended; other keys keep their values; unique keys stay unique |
| NodeList.ChangeFilterLastWins | dashboard/client/src/pages/node/hook/useNodeList.ts:18-26 | changing the same key twice is changing it once, to the last value |
| NodeList.ChangeFilterMatches | dashboard/client/src/pages/node/hook/useNodeList.ts:18-26 | after a change, a node matches exactly when it passes the new filter and the other filters |
| NodeList.AfterChanges | dashboard/client/src/pages/node/hook/useNodeList.ts:12-26 | any sequence of changes from the empty filter list has unique keys, exactly the keys changed |
| NodeList.WithState | dashboard/client/src/pages/node/hook/useNodeList.ts:54-58 | each node gets `state` from its raylet; every other field and the order stay |
| NodeList.WithStateIdempotent | dashboard/client/src/pages/node/hook/useNodeList.ts:54-58 | deriving the state twice is deriving it once |
| NodeList.StrBelowTotal | dashboard/client/src/pages/node/hook/useNodeList.ts:64-65 | string order is total on distinct strings |
| NodeList.RankBelowTransitive | dashboard/client/src/pages/node/hook/useNodeList.ts:61-66 | the sort key order is transitive |
| NodeList.Insert | dashboard/client/src/pages/node/hook/useNodeList.ts:61-66 | inserting adds exactly the one node |
| NodeList.SortNodes | dashboard/client/src/pages/node/hook/useNodeList.ts:61-66 | the sorted list is a permutation of the input |
| NodeList.SortNodesSorted | dashboard/client/src/pages/node/hook/useNodeList.ts:61-66 | the sorted list is ordered by head node first, then state with ALIVE as "0", then node id |
| NodeList.SortNodesStable | dashboard/client/src/pages/node/hook/useNodeList.ts:61-66 | nodes with equal sort keys keep their input order |
| NodeList.SortNodesKeepsSorted | dashboard/client/src/pages/node/hook/useNodeList.ts:61-66 | sorting an ordered list changes nothing |
| NodeList.HeadNodesFirst | dashboard/client/src/pages/node/hook/useNodeList.ts:62 | in an ordered list every head node comes before every other node |
| NodeList.AliveBeforeOthers | dashboard/client/src/pages/node/hook/useNodeList.ts:63-64 | among nodes of the same head-ness, an ALIVE node is never after a node whose state sorts after "0" |
| NodeList.FilterNodes | dashboard/client/src/pages/node/hook/useNodeList.ts:69-71 | the filter keeps exactly the matching nodes, each as often as in the input, in input order |
| NodeList.SublistSorted | dashboard/client/src/pages/node/hook/useNodeList.ts:69-71 | an order-preserving sublist of an ordered list is ordered |
| NodeList.NoFilterKeepsAll | dashboard/client/src/pages/node/hook/useNodeList.ts:70 | an empty filter list keeps every node |
| NodeList.EmptyFieldFails | dashboard/client/src/pages/node/hook/useNodeList.ts:70 | a node with an empty filtered field fails, even for the value "" |
| NodeList.EmptyValueTestsPresence | dashboard/client/src/pages/node/hook/useNodeList.ts:70 | the value "" passes exactly the nodes whose field is not empty |
| NodeList.ShownNodesProperties | dashboard/client/src/pages/node/hook/useNodeList.ts:54-71 | the shown list is ordered; every node in it matches and carries its raylet's state; it holds each matching node as often as the input does |
| NodeList.ShownNodes | dashboard/client/src/pages/node/hook/useNodeList.ts:54-71 | the shown list: states derived, sorted, then filtered; `ShownNodesProperties` states its contract |
| NodeList.SetPage | dashboard/client/src/pages/node/hook/useNodeList.ts:78 | `setPage(key, val)` sets `key` to `val` and keeps every other key |
| NodeList.SetPageUpdates | dashboard/client/src/pages/node/hook/useNodeList.ts:78 | updates of different keys commute; of the same key, the last wins |
| NodeList.PageKeepsSettings | dashboard/client/src/pages/node/hook/useNodeList.ts:15 | the page state always keeps `pageSize` and `pageNo` |

## Left out

- Framework import checks: `_check_if_correct_nn_framework_installed` and `_resolve_tf_settings` import tensorflow or torch, so `validate()` is modelled as if they pass.
- `build` and `get_multi_agent_setup`: they construct algorithms and policies.
- Collaborator internals: `deep_update`, `merge_dicts`, `from_config`, `validate_policy_id` and the policy classes' multi-GPU query are parameters (`Collaborators`), not definitions.
- Iteration order: the iteration order of a dict built by `to_dict` and of a Python set is chosen by a method (`Items`, `Enumerate`) that promises only to visit each element once.
- Floats: they are exact rationals (`real`); rounding is not modelled.
- Validation.Hashable: it treats policy specs and other objects as hashable and lists, sets and dicts as not; `__hash__` overrides are not modelled.
- Defaults: `MODEL_DEFAULTS` (ray.rllib.models) is not modelled; the model dict starts empty.
- Logging: the warnings (`evaluation_interval` None, empty `policies_to_train`, unknown keys in `update_from_dict`) have no effect on the state and are left out.
- `log_once`, `deprecation_warning(error=False)` and other logging calls are left out too.
- BehaviorCloning: MARWILConfig, the parent of BCConfig, is not part of this model. AlgorithmConfig's `__init__` and `validate()` stand in for MARWIL's, so MARWIL's own defaults and checks are missing.
- FragmentLength: the docstring's claim that the fragments "add up exactly" to the train batch size is not stated. It does not hold: 2500 over 4 workers with 3 environments gives 209·3 + 208·9 = 2499.
- The remaining dict shims: `__contains__`, `get`, `pop`, `keys`, `values`, `items` (lines 2244-2268) only forward to the attribute reads modelled here.
- The `num_workers` property forwards to `num_rollout_workers`; its deprecation message is left out.
- useNodeList, React: state hooks, the refresh timer, the network fetch (`getNodeList`), `msg`, `mode` and the refresh switch are left out. Each operation is modelled on the value of its state.
- useNodeList, `sorterFunc`: its order is unknown, so it is not modelled. Because `_.sortBy` is stable, the user's sort only decides the input order, and the sort properties hold for every input order.
- NodeList.StrBelow: JavaScript compares strings by UTF-16 code units, while Dafny's `char` order is by code point. The two differ only for characters outside the Basic Multilingual Plane.
- NodeList.FieldOf: an undefined `hostname`, `ip` or `state` is modelled as the empty string. Both are falsy, so the filter treats them the same way.
- NodeList.SetPage: page values are integers, and the React state update is a map update.
- Setters.Exploration: `deep_update` of `exploration_config` (lines 1278-1285) mutates the stored dict in place before the gated assignment; on a frozen config the model's `Raised` keeps the config unchanged, while the source's dict has already changed. SetterEngine.MergeAssign models both steps and has the same gap.
- Setters.Evaluation: the same holds for the merge of `evaluation_config` into `self.evaluation_config or {}` (lines 1412-1419); SetterEngine.EvaluationConfigStep has the same gap.
- LegacyDict.FromDict: `config_dict.pop("_is_frozen", None)` (line 160) also removes the entry from the caller's dict; the model works on a copy of the entries and leaves the caller's dict alone.
- Validation.ResolveSimpleOptimizer: `get_default_policy_class(self)` receives the whole config; the model's query sees only `algo_class`, `policies` and `framework_str`, and reports a raising query as None. The policy-spec conversion and the `issubclass` test are folded into the query's answer.
- EvaluationObject.Settings: a dict with a non-str key is refused before any entry is applied. The source raises at that key, after applying the entries before it, and with a different error when an earlier entry raises first.
- Validation.Validate: the `className` parameter is `type(self).__name__`, which the tf2 multi-GPU check compares with "AlphaStar". Which config classes carry that name is outside this model.

## Findings

| source | as written | input that shows it | evidently intended | confidence | as-written member | corrected member |
|---|---|---|---|---|---|---|
| rllib/algorithms/algorithm_config.py:2226-2242 | `__setitem__` assigns through `object.__setattr__`, past the frozen-state gatekeeper | `config.freeze(); config["lr"] = 0.1` completes and changes `lr` | a frozen config refuses item assignment as it refuses attribute assignment (`freeze` promises that no attributes can be set anymore) | not executed | ConfigObject.SetItemBypassesFreeze | ConfigObject.SetItemGated |
| rllib/algorithms/algorithm_config.py:1917-1928 | `in_evaluation = True` is set before `update_from_dict` applies the evaluation settings, and an AlgorithmConfig's `to_dict()` carries its own `in_evaluation` (False) | `evaluation_config` set to a fresh `AlgorithmConfig()`: the returned object has `in_evaluation` False, and calling `get_evaluation_config_object()` on it builds another object instead of returning None | the returned object is an evaluation config (`in_evaluation` True), as the method's docstring promises | not executed | EvaluationObject.AsWrittenNotRecognised | EvaluationObject.EvaluationObjectIsEvaluationConfig |
