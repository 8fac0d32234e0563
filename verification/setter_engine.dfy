/**
 * The shape shared by the AlgorithmConfig setters (`rollouts(...)`, `training(...)`, ...): each
 * keyword argument left at `NotProvided` is skipped; each provided one is checked and stored, in
 * the order the setter's body lists them, and the first failing check raises with the earlier
 * assignments already made. A setter is a table of steps run by `RunSteps`.
 */
module SetterEngine {
  import opened Wrappers
  import opened Attributes
  import opened PyObjects
  import opened ConfigObject
  import opened Defaults

  /** The call sites of the opaque dictionary mergers. */
  datatype MergeSite = EnvConfigMerge | ExplorationMerge | EvaluationConfigMerge | OptimizerMerge

  /**
   * Library code whose internals are not part of this model: `deep_update` and `merge_dicts`
   * (None when they raise), `from_config` (None when it raises), `validate_policy_id` (false when
   * it raises), and whether every configured policy class (a spec's own, or the algorithm class's
   * default) supports multi-GPU towers, asked with `algo_class`, `policies` and `framework_str`
   * (None when the query raises).
   */
  datatype Collaborators = Collaborators(
    merge: (MergeSite, Value, Value) -> Option<Value>,
    fromConfig: Value -> Option<Value>,
    isValidPolicyId: Value -> bool,
    multiGpuCapable: (Value, Value, Value) -> Option<bool>)

  /** The keyword arguments of a call: a key is present exactly when the caller provided it. */
  type Kwargs = map<Key, Value>

  /** A value check a setter applies to a provided argument before storing it. */
  datatype Check =
    | AnyValue
    | Positive                        // `if v <= 0: raise ValueError`
    | PositiveIntOrAuto               // `isinstance(v, int) and v > 0 or v == "auto"`, else ValueError
    | OneOf(choices: seq<Value>)      // `if v not in [...]: raise ValueError`
    | AssertOneOf(choices: seq<Value>)  // `assert v in (...)`
    | NotValue(bad: Value)            // `if v == bad: deprecation_warning(..., error=True)`
    | TrainableSpec                   // `assert isinstance(v, (list, set, tuple)) or callable(v) or v is None`

  /** One statement of a setter's body. */
  datatype Step =
    | Assign(param: Key, attr: Attr, check: Check)      // check, then `self.attr = v`
    | RejectArgument(param: Key)                        // any provided value is a deprecation error
    | RejectUnlessDeprecated(param: Key)                // `if v != DEPRECATED_VALUE: deprecation error`
    | MergeInPlace(param: Key, attr: Attr, site: MergeSite)  // `deep_update(self.attr, v)`, no `__setattr__`
    | MergeAssign(param: Key, attr: Attr, site: MergeSite)  // `self.attr = merge(self.attr, v)`
    | UpdateModel(param: Key, attr: Attr)               // the `model` argument of `training`
    | AssignEvaluationConfig(param: Key, attr: Attr)    // the `evaluation_config` argument of `evaluation`
    | AssignPolicies(param: Key, attr: Attr)            // the `policies` argument of `multi_agent`
    | AssignMappingFn(param: Key, attr: Attr)           // the `policy_mapping_fn` argument of `multi_agent`
    | DeriveMultiAgent                                  // `self._is_multi_agent = ...`, unconditional

  /** Whether a step does anything for these arguments. */
  predicate Fires(s: Step, args: Kwargs)
  {
    match s
    case DeriveMultiAgent => true
    case RejectUnlessDeprecated(p) => p in args && !PyEq(args[p], DEPRECATED_VALUE)
    case _ => s.param in args
  }

  /** The attribute a step may write. */
  function Target(s: Step): Option<Attr>
  {
    match s
    case RejectArgument(_) => None
    case RejectUnlessDeprecated(_) => None
    case DeriveMultiAgent => Some(IsMultiAgent)
    case _ => Some(s.attr)
  }

  /** Whether running `s` with `args` may write the attribute `k`. */
  predicate Writes(s: Step, args: Kwargs, k: Key)
  {
    Fires(s, args) && Target(s).Some? && k == Declared(Target(s).value)
  }

  /** The error a check reports for argument `p` with value `v`, or None when it passes. */
  function CheckArg(chk: Check, p: Key, v: Value): (r: Option<ConfigError>)
    ensures chk == AnyValue ==> r.None?
    ensures chk == Positive ==> (r.None? <==> NumberOf(v).Some? && NumberOf(v).value > 0.0)
    ensures chk == PositiveIntOrAuto ==>
              (r.None? <==> (IsInt(v) && NumberOf(v).value > 0.0) || v == StrV("auto"))
    ensures chk.OneOf? ==> (r.None? <==> exists i :: 0 <= i < |chk.choices| && PyEq(v, chk.choices[i]))
    ensures chk.AssertOneOf? ==> (r.None? <==> exists i :: 0 <= i < |chk.choices| && PyEq(v, chk.choices[i]))
    ensures chk.NotValue? ==> (r.None? <==> !PyEq(v, chk.bad))
    ensures r.Some? ==> r.value in {UnsupportedOperand(p), InvalidValue(p), FailedAssertion(p), DeprecatedArgument(p)}
  {
    match chk
    case AnyValue => None
    case Positive =>
      (match Compare(v, IntV(0))
       case None => Some(UnsupportedOperand(p))
       case Some(o) => if o <= 0 then Some(InvalidValue(p)) else None)
    case PositiveIntOrAuto =>
      if (IsInt(v) && NumberOf(v).value > 0.0) || PyEq(v, StrV("auto")) then None else Some(InvalidValue(p))
    case OneOf(choices) =>
      if exists i | 0 <= i < |choices| :: PyEq(v, choices[i]) then None else Some(InvalidValue(p))
    case AssertOneOf(choices) =>
      if exists i | 0 <= i < |choices| :: PyEq(v, choices[i]) then None else Some(FailedAssertion(p))
    case NotValue(bad) => if PyEq(v, bad) then Some(DeprecatedArgument(p)) else None
    case TrainableSpec =>
      if v.ListV? || v.SetV? || v.TupleV? || IsCallable(v) || v.NoneV? then None else Some(FailedAssertion(p))
  }

  /**
   * A policy spec `multi_agent` accepts: a PolicySpec whose config is an AlgorithmConfig, a dict
   * or None, or a list or tuple of four items.
   */
  predicate WellFormedSpec(spec: Value)
  {
    if spec.SpecV? then spec.config.ConfigV? || spec.config.DictV? || spec.config.NoneV?
    else (spec.ListV? || spec.TupleV?) && |spec.items| == 4
  }

  /**
   * `len(policies) > 1 or DEFAULT_POLICY_ID not in policies`; None when Python raises TypeError.
   */
  function MultiAgentFlag(policies: Value): (r: Option<bool>)
    ensures r.Some? && Len(policies).Some? && Len(policies).value > 1 ==> r.value
  {
    match Len(policies)
    case None => None
    case Some(n) =>
      if n > 1 then Some(true)
      else match Contains(policies, StrV(DEFAULT_POLICY_ID))
        case None => None
        case Some(m) => Some(!m)
  }

  /**
   * `_is_multi_agent` agrees with `policies`, as `multi_agent(...)` leaves it: set exactly when
   * there is more than one policy or the default policy is not among them.
   */
  predicate MultiAgentConsistent(c: Config)
  {
    Policies in c.attrs && MultiAgentFlag(c.attrs[Policies]).Some? &&
    Get(c, Declared(IsMultiAgent)) == Some(BoolV(MultiAgentFlag(c.attrs[Policies]).value))
  }

  /** `r` raised on `c` unchanged, or wrote nothing but the attribute `a`. */
  ghost predicate OnlyTouches(c: Config, r: Outcome, a: Attr)
  {
    (r.Raised? ==> r.config == c) && forall k :: k != Declared(a) ==> Get(r.config, k) == Get(c, k)
  }

  /** One step of a setter. A step that raises leaves the config as it found it. */
  function RunStep(c: Config, s: Step, args: Kwargs, h: Collaborators): (r: Outcome)
    ensures r.Raised? ==> r.config == c
    ensures !Fires(s, args) ==> r == Done(c)
    ensures forall k :: !Writes(s, args, k) ==> Get(r.config, k) == Get(c, k)
  {
    var r := StepOutcome(c, s, args, h);
    TouchesOnlyTarget(c, s, args, r);
    r
  }

  /** A step either does nothing, or raises on `c` unchanged, or writes only its target. */
  ghost predicate StepFrame(c: Config, s: Step, args: Kwargs, r: Outcome)
  {
    (r.Raised? ==> r.config == c) &&
    (!Fires(s, args) ==> r == Done(c)) &&
    (Target(s).None? ==> r.config == c) &&
    (Target(s).Some? ==> OnlyTouches(c, r, Target(s).value))
  }

  /** What `StepFrame` says, per key. */
  lemma TouchesOnlyTarget(c: Config, s: Step, args: Kwargs, r: Outcome)
    requires StepFrame(c, s, args, r)
    ensures forall k :: !Writes(s, args, k) ==> Get(r.config, k) == Get(c, k)
  {
  }

  /** The outcome of one step, case by case. */
  function StepOutcome(c: Config, s: Step, args: Kwargs, h: Collaborators): (r: Outcome)
    ensures StepFrame(c, s, args, r)
  {
    match s
    case Assign(p, a, chk) =>
      if p !in args then Done(c) else CheckedStep(c, p, a, chk, args[p])
    case RejectArgument(p) =>
      if p in args then Raised(c, DeprecatedArgument(p)) else Done(c)
    case RejectUnlessDeprecated(p) =>
      if p in args && !PyEq(args[p], DEPRECATED_VALUE) then Raised(c, DeprecatedArgument(p)) else Done(c)
    case MergeInPlace(p, a, site) =>
      if p !in args then Done(c) else MergeStep(c, p, a, site, args[p], true, h)
    case MergeAssign(p, a, site) =>
      if p !in args then Done(c) else MergeStep(c, p, a, site, args[p], false, h)
    case UpdateModel(p, a) =>
      if p !in args then Done(c) else UpdateModelStep(c, p, a, args[p])
    case AssignEvaluationConfig(p, a) =>
      if p !in args then Done(c) else EvaluationConfigStep(c, p, a, args[p], h)
    case AssignPolicies(p, a) =>
      if p !in args then Done(c) else PoliciesStep(c, p, a, args[p], h)
    case AssignMappingFn(p, a) =>
      if p !in args then Done(c) else MappingFnStep(c, p, a, args[p], h)
    case DeriveMultiAgent =>
      DeriveStep(c)
  }

  /** `self.a = v` through the gatekeeper once `v` passes the check `chk`. */
  function CheckedStep(c: Config, p: Key, a: Attr, chk: Check, v: Value): (r: Outcome)
    ensures OnlyTouches(c, r, a)
    ensures r.Done? ==> CheckArg(chk, p, v).None? && Get(r.config, Declared(a)) == Some(v)
  {
    match CheckArg(chk, p, v)
    case Some(e) => Raised(c, e)
    case None => SetAttr(c, Declared(a), v)
  }

  /**
   * `merge(site, self.attr, v)`, stored in place (`deep_update`, no `__setattr__`) or assigned
   * through the gatekeeper.
   */
  function MergeStep(c: Config, p: Key, a: Attr, site: MergeSite, v: Value, inPlace: bool, h: Collaborators): (r: Outcome)
    ensures OnlyTouches(c, r, a)
  {
    if a !in c.attrs then Raised(c, MissingAttribute(Declared(a)))
    else match h.merge(site, c.attrs[a], v)
      case None => Raised(c, CollaboratorError(p))
      case Some(m) => if inPlace then Done(Put(c, Declared(a), m)) else SetAttr(c, Declared(a), m)
  }

  /**
   * The `model` argument of `training`: a dict without a live `lstm_use_prev_action_reward`,
   * merged into the model dict in place with `dict.update`.
   */
  function UpdateModelStep(c: Config, p: Key, a: Attr, v: Value): (r: Outcome)
    ensures OnlyTouches(c, r, a)
  {
    if !v.DictV? then Raised(c, NotADict(p))
    else
      var prev := Lookup(v.entries, StrV("lstm_use_prev_action_reward"));
      if prev.Some? && !PyEq(prev.value, DEPRECATED_VALUE) then Raised(c, DeprecatedArgument(p))
      else if a !in c.attrs then Raised(c, MissingAttribute(Declared(a)))
      else if !c.attrs[a].DictV? then Raised(c, NotADict(Declared(a)))
      else Done(Put(c, Declared(a), DictV(DictUpdate(c.attrs[a].entries, v.entries))))
  }

  /** The `evaluation_config` argument of `evaluation`: None, or merged into the current settings. */
  function EvaluationConfigStep(c: Config, p: Key, a: Attr, v: Value, h: Collaborators): (r: Outcome)
    ensures OnlyTouches(c, r, a)
  {
    if v == NoneV then SetAttr(c, Declared(a), NoneV)
    else if a !in c.attrs then Raised(c, MissingAttribute(Declared(a)))
    else
      var base := if Truthy(c.attrs[a]) then c.attrs[a] else DictV([]);
      match h.merge(EvaluationConfigMerge, base, v)
      case None => Raised(c, CollaboratorError(p))
      case Some(m) => SetAttr(c, Declared(a), m)
  }

  /** The `policies` argument of `multi_agent`: iterable, valid ids, well-formed specs. */
  function PoliciesStep(c: Config, p: Key, a: Attr, v: Value, h: Collaborators): (r: Outcome)
    ensures OnlyTouches(c, r, a)
  {
    match Members(v)
    case None => Raised(c, NotIterable(p))
    case Some(ids) =>
      if exists pid | pid in ids :: !h.isValidPolicyId(pid) then Raised(c, InvalidPolicyId)
      else if v.DictV? && exists i | 0 <= i < |v.entries| :: !WellFormedSpec(v.entries[i].1)
      then Raised(c, InvalidPolicySpec)
      else SetAttr(c, Declared(a), v)
  }

  /** The `policy_mapping_fn` argument of `multi_agent`: a dict goes through `from_config`. */
  function MappingFnStep(c: Config, p: Key, a: Attr, v: Value, h: Collaborators): (r: Outcome)
    ensures OnlyTouches(c, r, a)
  {
    if v.DictV? then
      match h.fromConfig(v)
      case None => Raised(c, CollaboratorError(p))
      case Some(f) => SetAttr(c, Declared(a), f)
    else SetAttr(c, Declared(a), v)
  }

  /** `self._is_multi_agent = len(policies) > 1 or DEFAULT_POLICY_ID not in policies`. */
  function DeriveStep(c: Config): (r: Outcome)
    ensures OnlyTouches(c, r, IsMultiAgent)
  {
    if Policies !in c.attrs then Raised(c, MissingAttribute(Declared(Policies)))
    else match MultiAgentFlag(c.attrs[Policies])
      case None => Raised(c, NotIterable(Declared(Policies)))
      case Some(b) => SetAttr(c, Declared(IsMultiAgent), BoolV(b))
  }

  /** Whether some step of the table may write `k` for these arguments. */
  predicate AnyWrites(steps: seq<Step>, args: Kwargs, k: Key)
  {
    exists i :: 0 <= i < |steps| && Writes(steps[i], args, k)
  }

  /**
   * The steps in order; the first that raises ends the run. Attributes no firing step targets
   * keep their values, whatever the outcome.
   */
  function RunSteps(c: Config, steps: seq<Step>, args: Kwargs, h: Collaborators): (r: Outcome)
    ensures forall k :: !AnyWrites(steps, args, k) ==> Get(r.config, k) == Get(c, k)
    decreases |steps|
  {
    if steps == [] then Done(c)
    else
      var first := RunStep(c, steps[0], args, h);
      if first.Raised? then first
      else
        var r := RunSteps(first.config, steps[1..], args, h);
        forall k | AnyWrites(steps[1..], args, k)
          ensures AnyWrites(steps, args, k)
        {
          var i :| 0 <= i < |steps| - 1 && Writes(steps[1..][i], args, k);
          assert Writes(steps[i + 1], args, k);
        }
        forall k | Writes(steps[0], args, k)
          ensures AnyWrites(steps, args, k)
        {
        }
        r
  }

  /** The keyword parameters a table declares. */
  function Params(steps: seq<Step>): set<Key>
  {
    set i | 0 <= i < |steps| && !steps[i].DeriveMultiAgent? :: steps[i].param
  }

  /**
   * Calling a setter: a keyword it does not declare is a TypeError before anything happens;
   * otherwise its steps run. `extra` lists declared keywords no step consumes.
   */
  function RunSetter(c: Config, steps: seq<Step>, extra: set<Key>, args: Kwargs, h: Collaborators): (r: Outcome)
    ensures !(args.Keys <= Params(steps) + extra) ==> r == Raised(c, UnexpectedKeyword)
    ensures forall k :: !AnyWrites(steps, args, k) ==> Get(r.config, k) == Get(c, k)
  {
    if args.Keys <= Params(steps) + extra then RunSteps(c, steps, args, h)
    else Raised(c, UnexpectedKeyword)
  }

  /** No step after step `k` writes the attribute step `k` writes. */
  predicate LastWriter(steps: seq<Step>, k: nat)
    requires k < |steps|
  {
    forall j | k < j < |steps| :: Target(steps[j]) != Target(steps[k])
  }

  /** No step before step `k` writes the attribute step `k` writes. */
  predicate FirstWriter(steps: seq<Step>, k: nat)
    requires k < |steps|
  {
    forall j | 0 <= j < k :: Target(steps[j]) != Target(steps[k])
  }

  /** No step of the table writes `_is_frozen`. */
  predicate KeepsFrozenFlag(steps: seq<Step>)
  {
    forall i | 0 <= i < |steps| :: Target(steps[i]) != Some(IsFrozen)
  }

  /** A table that never writes `_is_frozen` leaves the frozen state as it found it. */
  lemma FrozenStays(c: Config, steps: seq<Step>, args: Kwargs, h: Collaborators)
    requires KeepsFrozenFlag(steps)
    ensures Frozen(RunSteps(c, steps, args, h).config) == Frozen(c)
  {
    var r := RunSteps(c, steps, args, h);
    assert Get(r.config, Declared(IsFrozen)) == Get(c, Declared(IsFrozen));
  }

  /** A table that never writes `_is_frozen` leaves that attribute alone, whatever the call does. */
  lemma FlagUntouched(c: Config, steps: seq<Step>, extra: set<Key>, args: Kwargs, h: Collaborators)
    requires KeepsFrozenFlag(steps)
    ensures Get(RunSetter(c, steps, extra, args, h).config, Declared(IsFrozen)) == Get(c, Declared(IsFrozen))
  {
  }

  /** Steps that store the provided argument itself. */
  predicate StoresArgument(s: Step)
  {
    s.Assign? || s.AssignPolicies?
  }

  /**
   * When the run completes, the provided argument of a storing step that is the last to write
   * its attribute is the value of that attribute afterwards.
   */
  lemma {:induction false} StoredOnDone(c: Config, steps: seq<Step>, args: Kwargs, h: Collaborators, k: nat)
    requires k < |steps| && StoresArgument(steps[k]) && steps[k].param in args
    requires LastWriter(steps, k)
    ensures RunSteps(c, steps, args, h).Done? ==>
              Get(RunSteps(c, steps, args, h).config, Declared(steps[k].attr)) == Some(args[steps[k].param])
    decreases |steps|
  {
    var first := RunStep(c, steps[0], args, h);
    if first.Done? {
      if k == 0 {
        var a := steps[0].attr;
        forall i | 0 <= i < |steps| - 1
          ensures !Writes(steps[1..][i], args, Declared(a))
        {
          assert Target(steps[0]) != Target(steps[i + 1]);
        }
      } else {
        assert LastWriter(steps[1..], k - 1) by {
          forall j | k - 1 < j < |steps| - 1
            ensures Target(steps[1..][j]) != Target(steps[1..][k - 1])
          {
            assert Target(steps[j + 1]) != Target(steps[k]);
          }
        }
        StoredOnDone(first.config, steps[1..], args, h, k - 1);
      }
    }
  }

  /** Steps that raise for these arguments whatever state the config is in. */
  predicate AlwaysRaises(s: Step, args: Kwargs)
  {
    match s
    case Assign(p, _, chk) => p in args && CheckArg(chk, p, args[p]).Some?
    case RejectArgument(p) => p in args
    case RejectUnlessDeprecated(_) => Fires(s, args)
    case UpdateModel(p, _) =>
      p in args &&
      (!args[p].DictV? ||
       var prev := Lookup(args[p].entries, StrV("lstm_use_prev_action_reward"));
       prev.Some? && !PyEq(prev.value, DEPRECATED_VALUE))
    case _ => false
  }

  /**
   * A step that always raises makes the run raise; the attribute it targets keeps the value it had
   * before the call when no earlier step targets it.
   */
  lemma {:induction false} RaisingStep(c: Config, steps: seq<Step>, args: Kwargs, h: Collaborators, k: nat)
    requires k < |steps| && AlwaysRaises(steps[k], args)
    ensures RunSteps(c, steps, args, h).Raised?
    ensures Target(steps[k]).Some? && FirstWriter(steps, k) ==>
              Get(RunSteps(c, steps, args, h).config, Declared(Target(steps[k]).value)) ==
              Get(c, Declared(Target(steps[k]).value))
    decreases |steps|
  {
    var first := RunStep(c, steps[0], args, h);
    if k > 0 && first.Done? {
      assert steps[1..][k - 1] == steps[k];
      RaisingStep(first.config, steps[1..], args, h, k - 1);
      if Target(steps[k]).Some? && FirstWriter(steps, k) {
        assert FirstWriter(steps[1..], k - 1) by {
          forall j | 0 <= j < k - 1
            ensures Target(steps[1..][j]) != Target(steps[1..][k - 1])
          {
            assert Target(steps[j + 1]) != Target(steps[k]);
          }
        }
        assert Target(steps[0]) != Target(steps[k]);
      }
    }
  }

  /**
   * A step other than the `_is_multi_agent` derivation reads only its own attribute and the frozen
   * flag: two configs that agree on those give it the same outcome there.
   */
  lemma StepLocal(c1: Config, c2: Config, s: Step, args: Kwargs, h: Collaborators)
    requires Target(s).Some? && !s.DeriveMultiAgent?
    requires Get(c1, Declared(s.attr)) == Get(c2, Declared(s.attr)) && Frozen(c1) == Frozen(c2)
    ensures RunStep(c1, s, args, h).Raised? == RunStep(c2, s, args, h).Raised?
    ensures Get(RunStep(c1, s, args, h).config, Declared(s.attr)) == Get(RunStep(c2, s, args, h).config, Declared(s.attr))
  {
    assert (s.attr in c1.attrs) == (s.attr in c2.attrs);
    if s.attr in c1.attrs {
      assert c1.attrs[s.attr] == c2.attrs[s.attr];
    }
  }

  /**
   * For the only step writing its attribute, in a table that keeps the frozen flag: a completed
   * run leaves that attribute as the step alone would have left it on the initial config.
   */
  lemma {:induction false} EffectOnDone(c: Config, steps: seq<Step>, args: Kwargs, h: Collaborators, k: nat)
    requires k < |steps| && Target(steps[k]).Some? && !steps[k].DeriveMultiAgent?
    requires FirstWriter(steps, k) && LastWriter(steps, k) && KeepsFrozenFlag(steps)
    ensures RunSteps(c, steps, args, h).Done? ==>
              RunStep(c, steps[k], args, h).Done? &&
              Get(RunSteps(c, steps, args, h).config, Declared(steps[k].attr)) ==
              Get(RunStep(c, steps[k], args, h).config, Declared(steps[k].attr))
    decreases |steps|
  {
    var a := steps[k].attr;
    var first := RunStep(c, steps[0], args, h);
    if first.Done? {
      if k == 0 {
        forall i | 0 <= i < |steps| - 1
          ensures !Writes(steps[1..][i], args, Declared(a))
        {
          assert Target(steps[0]) != Target(steps[i + 1]);
        }
      } else {
        assert steps[1..][k - 1] == steps[k];
        assert FirstWriter(steps[1..], k - 1) by {
          forall j | 0 <= j < k - 1
            ensures Target(steps[1..][j]) != Target(steps[1..][k - 1])
          {
            assert Target(steps[j + 1]) != Target(steps[k]);
          }
        }
        assert LastWriter(steps[1..], k - 1) by {
          forall j | k - 1 < j < |steps| - 1
            ensures Target(steps[1..][j]) != Target(steps[1..][k - 1])
          {
            assert Target(steps[j + 1]) != Target(steps[k]);
          }
        }
        assert KeepsFrozenFlag(steps[1..]) by {
          forall j | 0 <= j < |steps| - 1
            ensures Target(steps[1..][j]) != Some(IsFrozen)
          {
            assert Target(steps[j + 1]) != Some(IsFrozen);
          }
        }
        EffectOnDone(first.config, steps[1..], args, h, k - 1);
        assert Target(steps[0]) != Target(steps[k]);
        assert Target(steps[0]) != Some(IsFrozen);
        assert Get(first.config, Declared(IsFrozen)) == Get(c, Declared(IsFrozen));
        StepLocal(first.config, c, steps[k], args, h);
      }
    }
  }

  /** `EffectOnDone` for a whole setter call. */
  lemma SetterEffect(c: Config, steps: seq<Step>, extra: set<Key>, args: Kwargs, h: Collaborators, k: nat)
    requires k < |steps| && Target(steps[k]).Some? && !steps[k].DeriveMultiAgent?
    requires FirstWriter(steps, k) && LastWriter(steps, k) && KeepsFrozenFlag(steps)
    ensures var r := RunSetter(c, steps, extra, args, h);
            r.Done? ==> RunStep(c, steps[k], args, h).Done? &&
                        Get(r.config, Declared(steps[k].attr)) == Get(RunStep(c, steps[k], args, h).config, Declared(steps[k].attr))
  {
    EffectOnDone(c, steps, args, h, k);
  }

  /**
   * A checked assignment that is its attribute's only writer: a provided argument failing the
   * check makes the call raise with the attribute untouched, and a completed call stored an
   * argument that passed the check.
   */
  lemma CheckedAssignment(c: Config, steps: seq<Step>, extra: set<Key>, args: Kwargs, h: Collaborators, k: nat)
    requires k < |steps| && steps[k].Assign? && FirstWriter(steps, k) && LastWriter(steps, k)
    ensures var p, a, r := steps[k].param, Declared(steps[k].attr), RunSetter(c, steps, extra, args, h);
            p in args && CheckArg(steps[k].check, p, args[p]).Some? ==> r.Raised? && Get(r.config, a) == Get(c, a)
    ensures var p, a, r := steps[k].param, Declared(steps[k].attr), RunSetter(c, steps, extra, args, h);
            r.Done? && p in args ==> Get(r.config, a) == Some(args[p]) && CheckArg(steps[k].check, p, args[p]).None?
  {
    var p := steps[k].param;
    if p in args {
      if CheckArg(steps[k].check, p, args[p]).Some? {
        RaisingStep(c, steps, args, h, k);
      } else {
        StoredOnDone(c, steps, args, h, k);
      }
    }
  }

  /** A run in which no step fires changes nothing. */
  lemma {:induction false} NothingFires(c: Config, steps: seq<Step>, args: Kwargs, h: Collaborators)
    requires forall i | 0 <= i < |steps| :: !Fires(steps[i], args)
    ensures RunSteps(c, steps, args, h) == Done(c)
    decreases |steps|
  {
    if steps != [] {
      assert !Fires(steps[0], args);
      assert forall i | 0 <= i < |steps| - 1 :: steps[1..][i] == steps[i + 1];
      NothingFires(c, steps[1..], args, h);
    }
  }

  /** A setter called without arguments changes nothing (unless it has unconditional steps). */
  lemma NoArgumentsNoChange(c: Config, steps: seq<Step>, extra: set<Key>, h: Collaborators)
    requires forall i | 0 <= i < |steps| :: !steps[i].DeriveMultiAgent?
    ensures RunSetter(c, steps, extra, map[], h) == Done(c)
  {
    NothingFires(c, steps, map[], h);
  }

  /** A run in which only step `k` fires is that step alone. */
  lemma {:induction false} OnlyOneFires(c: Config, steps: seq<Step>, args: Kwargs, h: Collaborators, k: nat)
    requires k < |steps|
    requires forall i | 0 <= i < |steps| && i != k :: !Fires(steps[i], args)
    ensures RunSteps(c, steps, args, h) == RunStep(c, steps[k], args, h)
    decreases |steps|
  {
    assert forall i | 0 <= i < |steps| - 1 :: steps[1..][i] == steps[i + 1];
    if k == 0 {
      var first := RunStep(c, steps[0], args, h);
      if first.Done? {
        NothingFires(first.config, steps[1..], args, h);
      }
    } else {
      assert !Fires(steps[0], args);
      OnlyOneFires(c, steps[1..], args, h, k - 1);
    }
  }

  /** A table ending in the `_is_multi_agent` derivation leaves the flag consistent when it completes. */
  lemma EndsConsistent(c: Config, steps: seq<Step>, args: Kwargs, h: Collaborators)
    requires |steps| > 0 && steps[|steps| - 1] == DeriveMultiAgent
    ensures RunSteps(c, steps, args, h).Done? ==> MultiAgentConsistent(RunSteps(c, steps, args, h).config)
  {
    var init := steps[..|steps| - 1];
    assert steps == init + [DeriveMultiAgent];
    RunStepsSnoc(c, init, DeriveMultiAgent, args, h);
  }

  /**
   * A table that keeps the frozen flag and ends in the `_is_multi_agent` derivation always raises on
   * a frozen config.
   */
  lemma EndsRaisingWhenFrozen(c: Config, steps: seq<Step>, args: Kwargs, h: Collaborators)
    requires |steps| > 0 && steps[|steps| - 1] == DeriveMultiAgent && KeepsFrozenFlag(steps)
    requires Frozen(c)
    ensures RunSteps(c, steps, args, h).Raised?
  {
    var init := steps[..|steps| - 1];
    assert steps == init + [DeriveMultiAgent];
    assert KeepsFrozenFlag(init) by {
      forall j | 0 <= j < |init|
        ensures Target(init[j]) != Some(IsFrozen)
      {
        assert init[j] == steps[j];
      }
    }
    RunStepsSnoc(c, init, DeriveMultiAgent, args, h);
    FrozenStays(c, init, args, h);
  }

  /** Tables made only of checked assignments and rejected arguments. */
  predicate Simple(steps: seq<Step>)
  {
    forall i | 0 <= i < |steps| :: steps[i].Assign? || steps[i].RejectArgument?
  }

  /**
   * Whether a step lets the call go on: it does not fire, or it is an assignment whose check
   * passes and which the gatekeeper allows.
   */
  predicate Accepts(frozen: bool, s: Step, args: Kwargs)
  {
    !Fires(s, args) ||
    (s.Assign? && CheckArg(s.check, s.param, args[s.param]).None? && (!frozen || GateExempt(Declared(s.attr))))
  }

  /** A simple table completes exactly when every step accepts its argument. */
  lemma {:induction false} SimpleDoneIff(c: Config, steps: seq<Step>, args: Kwargs, h: Collaborators)
    requires Simple(steps) && KeepsFrozenFlag(steps)
    ensures RunSteps(c, steps, args, h).Done? <==> forall i | 0 <= i < |steps| :: Accepts(Frozen(c), steps[i], args)
    decreases |steps|
  {
    if steps != [] {
      var first := RunStep(c, steps[0], args, h);
      assert first.Done? <==> Accepts(Frozen(c), steps[0], args);
      if first.Done? {
        if steps[0].Assign? && steps[0].param in args {
          SetAttrKeepsFrozen(c, steps[0].attr, args[steps[0].param]);
        }
        assert Frozen(first.config) == Frozen(c);
        SimpleDoneIff(first.config, steps[1..], args, h);
        assert forall i | 0 <= i < |steps| - 1 :: steps[1..][i] == steps[i + 1];
      }
    }
  }

  /** Running a table one step longer: the extra step runs on whatever the table reached. */
  lemma {:induction false} RunStepsSnoc(c: Config, steps: seq<Step>, last: Step, args: Kwargs, h: Collaborators)
    ensures RunSteps(c, steps + [last], args, h) ==
              (var r := RunSteps(c, steps, args, h); if r.Raised? then r else RunStep(r.config, last, args, h))
    decreases |steps|
  {
    if steps == [] {
      assert steps + [last] == [last];
    } else {
      assert (steps + [last])[1..] == steps[1..] + [last];
      var first := RunStep(c, steps[0], args, h);
      if first.Done? {
        RunStepsSnoc(first.config, steps[1..], last, args, h);
      }
    }
  }

  /** A setter whose table ends in `last` completes when the rest of the table does and `last` then does. */
  lemma SnocSetterDone(c: Config, init: seq<Step>, last: Step, extra: set<Key>, args: Kwargs, h: Collaborators)
    ensures var r := RunSteps(c, init, args, h);
            RunSetter(c, init + [last], extra, args, h).Done? <==>
              args.Keys <= Params(init + [last]) + extra && r.Done? && RunStep(r.config, last, args, h).Done?
  {
    RunStepsSnoc(c, init, last, args, h);
  }

  /** The frame of a setter call: attributes no firing step targets keep their values. */
  ghost predicate SetterFrame(c: Config, steps: seq<Step>, args: Kwargs, r: Outcome)
  {
    forall k :: !AnyWrites(steps, args, k) ==> Get(r.config, k) == Get(c, k)
  }

  /**
   * After a completed call, the provided argument of every storing step is stored (the last one,
   * should two steps write the same attribute).
   */
  ghost predicate StoresProvided(steps: seq<Step>, args: Kwargs, r: Outcome)
  {
    r.Done? ==>
      forall k | 0 <= k < |steps| && StoresArgument(steps[k]) && steps[k].param in args && LastWriter(steps, k) ::
        Get(r.config, Declared(steps[k].attr)) == Some(args[steps[k].param])
  }

  /**
   * What a call of a simple setter promises: it completes exactly when it declares every keyword
   * and every step accepts; it then stores every provided argument; it touches nothing else.
   */
  ghost predicate SimpleSetterSpec(c: Config, steps: seq<Step>, extra: set<Key>, args: Kwargs, r: Outcome)
  {
    (r.Done? <==> args.Keys <= Params(steps) + extra && forall i | 0 <= i < |steps| :: Accepts(Frozen(c), steps[i], args)) &&
    StoresProvided(steps, args, r) &&
    SetterFrame(c, steps, args, r)
  }

  /** Every provided argument is stored when the call completes. */
  lemma StoresAll(c: Config, steps: seq<Step>, extra: set<Key>, args: Kwargs, h: Collaborators)
    ensures StoresProvided(steps, args, RunSetter(c, steps, extra, args, h))
    ensures SetterFrame(c, steps, args, RunSetter(c, steps, extra, args, h))
  {
    forall k | 0 <= k < |steps| && StoresArgument(steps[k]) && steps[k].param in args && LastWriter(steps, k) {
      StoredOnDone(c, steps, args, h, k);
    }
  }

  /** The contract every simple setter meets. */
  lemma SimpleSetter(c: Config, steps: seq<Step>, extra: set<Key>, args: Kwargs, h: Collaborators)
    requires Simple(steps) && KeepsFrozenFlag(steps)
    ensures SimpleSetterSpec(c, steps, extra, args, RunSetter(c, steps, extra, args, h))
  {
    SimpleDoneIff(c, steps, args, h);
    StoresAll(c, steps, extra, args, h);
  }

  /** Whether the gatekeeper lets `self.a = ...` through on `c`. */
  predicate Settable(c: Config, a: Attr)
  {
    !Frozen(c) || GateExempt(Declared(a))
  }

  /**
   * Whether a step lets the call go on from `c`, stated as conditions rather than outcomes: it does
   * not fire; or its argument passes the step's checks, the collaborators it asks answer, the
   * attribute it reads is there in the shape it needs, and the gatekeeper allows the write (the
   * in-place updates of `env_config` and `model` do not pass through it).
   */
  predicate StepAdmits(c: Config, s: Step, args: Kwargs, h: Collaborators)
  {
    !Fires(s, args) ||
    match s
    case Assign(p, a, chk) => CheckArg(chk, p, args[p]).None? && Settable(c, a)
    case RejectArgument(_) => false
    case RejectUnlessDeprecated(_) => false
    case MergeInPlace(p, a, site) => a in c.attrs && h.merge(site, c.attrs[a], args[p]).Some?
    case MergeAssign(p, a, site) => a in c.attrs && h.merge(site, c.attrs[a], args[p]).Some? && Settable(c, a)
    case UpdateModel(p, a) =>
      args[p].DictV? &&
      (var prev := Lookup(args[p].entries, StrV("lstm_use_prev_action_reward"));
       prev.None? || PyEq(prev.value, DEPRECATED_VALUE)) &&
      a in c.attrs && c.attrs[a].DictV?
    case AssignEvaluationConfig(p, a) =>
      Settable(c, a) &&
      (args[p] == NoneV ||
       (a in c.attrs &&
        h.merge(EvaluationConfigMerge, if Truthy(c.attrs[a]) then c.attrs[a] else DictV([]), args[p]).Some?))
    case AssignPolicies(p, a) =>
      Members(args[p]).Some? &&
      (forall pid | pid in Members(args[p]).value :: h.isValidPolicyId(pid)) &&
      (args[p].DictV? ==> forall i | 0 <= i < |args[p].entries| :: WellFormedSpec(args[p].entries[i].1)) &&
      Settable(c, a)
    case AssignMappingFn(p, a) => (args[p].DictV? ==> h.fromConfig(args[p]).Some?) && Settable(c, a)
    case DeriveMultiAgent =>
      Policies in c.attrs && MultiAgentFlag(c.attrs[Policies]).Some? && Settable(c, IsMultiAgent)
  }

  /** One step completes exactly when it admits the call. */
  lemma StepAdmitsIff(c: Config, s: Step, args: Kwargs, h: Collaborators)
    ensures RunStep(c, s, args, h).Done? <==> StepAdmits(c, s, args, h)
  {
  }

  /**
   * Whether a step admits the call depends only on the frozen flag and the step's own attribute
   * (the `_is_multi_agent` derivation reads `policies` instead).
   */
  lemma AdmitsLocal(c1: Config, c2: Config, s: Step, args: Kwargs, h: Collaborators)
    requires !s.DeriveMultiAgent? && Frozen(c1) == Frozen(c2)
    requires Target(s).Some? ==> Get(c1, Declared(s.attr)) == Get(c2, Declared(s.attr))
    ensures StepAdmits(c1, s, args, h) == StepAdmits(c2, s, args, h)
  {
    if Target(s).Some? {
      assert (s.attr in c1.attrs) == (s.attr in c2.attrs);
      if s.attr in c1.attrs {
        assert c1.attrs[s.attr] == c2.attrs[s.attr];
      }
    }
  }

  /** No two steps of the table write the same attribute. */
  predicate DistinctTargets(steps: seq<Step>)
  {
    forall i, j | 0 <= i < j < |steps| && Target(steps[i]).Some? :: Target(steps[j]) != Target(steps[i])
  }

  /**
   * Tables whose steps read only their own attribute and the frozen flag, write distinct attributes
   * and never `_is_frozen`: every step sees the initial config as far as it cares.
   */
  predicate LocalTable(steps: seq<Step>)
  {
    KeepsFrozenFlag(steps) && DistinctTargets(steps) &&
    forall i | 0 <= i < |steps| :: !steps[i].DeriveMultiAgent?
  }

  /** A local table completes exactly when every step admits the call on the initial config. */
  lemma {:induction false} LocalDoneIff(c: Config, steps: seq<Step>, args: Kwargs, h: Collaborators)
    requires LocalTable(steps)
    ensures RunSteps(c, steps, args, h).Done? <==> forall i | 0 <= i < |steps| :: StepAdmits(c, steps[i], args, h)
    decreases |steps|
  {
    if steps != [] {
      var first := RunStep(c, steps[0], args, h);
      StepAdmitsIff(c, steps[0], args, h);
      if first.Done? {
        var rest := steps[1..];
        assert forall i | 0 <= i < |rest| :: rest[i] == steps[i + 1];
        assert LocalTable(rest) by {
          forall i, j | 0 <= i < j < |rest| && Target(rest[i]).Some?
            ensures Target(rest[j]) != Target(rest[i])
          {
            assert Target(steps[j + 1]) != Target(steps[i + 1]);
          }
        }
        LocalDoneIff(first.config, rest, args, h);
        assert Get(first.config, Declared(IsFrozen)) == Get(c, Declared(IsFrozen)) by {
          assert Target(steps[0]) != Some(IsFrozen);
        }
        forall i | 0 <= i < |rest|
          ensures StepAdmits(first.config, rest[i], args, h) == StepAdmits(c, rest[i], args, h)
        {
          if Target(rest[i]).Some? {
            if Target(steps[0]).Some? {
              assert Target(steps[i + 1]) != Target(steps[0]);
            }
            assert !Writes(steps[0], args, Declared(rest[i].attr));
          }
          AdmitsLocal(first.config, c, rest[i], args, h);
        }
      }
    }
  }

  /** `LocalDoneIff` for a whole setter call. */
  lemma LocalSetterDoneIff(c: Config, steps: seq<Step>, extra: set<Key>, args: Kwargs, h: Collaborators)
    requires LocalTable(steps)
    ensures RunSetter(c, steps, extra, args, h).Done? <==>
              args.Keys <= Params(steps) + extra && forall i | 0 <= i < |steps| :: StepAdmits(c, steps[i], args, h)
  {
    LocalDoneIff(c, steps, args, h);
  }
}
