/**
 * The object protocol of AlgorithmConfig: attribute assignment through the frozen-state
 * gatekeeper (`__setattr__`), item assignment (`__setitem__`), `freeze` and `copy`.
 */
module ConfigObject {
  import opened Wrappers
  import opened Attributes
  import opened PyObjects

  /** The exceptions the modelled operations raise. */
  datatype ConfigError =
    | FrozenAttribute(key: Key)          // AttributeError from the gatekeeper of a frozen config
    | ReadOnlyProperty(key: Key)         // AttributeError: assigning a property that has no setter
    | MultiagentItem                     // AttributeError: `config["multiagent"] = ...`
    | MissingAttribute(key: Key)         // AttributeError: reading an attribute that was never set
    | UnexpectedKeyword                  // TypeError: a keyword the setter does not declare
    | UnsupportedOperand(param: Key)     // TypeError: an order comparison with a non-number
    | InvalidValue(param: Key)           // ValueError from a setter's value check
    | FailedAssertion(param: Key)        // AssertionError from a setter's `assert`
    | DeprecatedArgument(param: Key)     // deprecation_warning(..., error=True) on an argument
    | DeprecatedKey(key: Key)            // deprecation_warning(..., error=True) on a dict key
    | NotIterable(param: Key)            // TypeError: iterating a value that is not iterable
    | NotADict(param: Key)               // AttributeError/TypeError: a dict method on a non-dict
    | CollaboratorError(param: Key)      // an exception from deep_update, merge_dicts, from_config or the multi-GPU query
    | InvalidPolicyId                    // ValueError from validate_policy_id
    | InvalidPolicySpec                  // ValueError: a policy spec of the wrong shape
    | UnknownPolicyToTrain(pid: Value)   // ValueError from validate()
    | ParallelEvaluationWithoutWorkers   // ValueError from validate()
    | AutoDurationWithoutParallel        // ValueError from validate()
    | InvalidEvaluationDuration          // ValueError from validate()
    | MultiGpuUnsupportedFramework       // ValueError from validate()
    | SimpleOptimizerRequired            // ValueError from validate()
    | ZeroDivision                       // ZeroDivisionError
    | BetaMustBeZero                     // ValueError from BCConfig.validate()
    | NonStringKey                       // AttributeError: `startswith` on a dict key that is not a str
    | Unhashable(param: Key)             // TypeError: an unhashable value tested for set membership
    | NoneAttribute(key: Key)            // AttributeError: a method looked up on an attribute that is None

  /**
   * The result of an operation that mutates a config in place: the final state, or the exception
   * together with the state reached when it was raised (earlier assignments are not undone).
   */
  datatype Outcome = Done(config: Config) | Raised(config: Config, error: ConfigError)

  /** An outcome as a result: the exception, or the final state. */
  function OfOutcome(o: Outcome): (r: Result<Config, ConfigError>)
    ensures r.Success? <==> o.Done?
    ensures r.Success? ==> r.value == o.config
    ensures r.Failure? ==> r.error == o.error
  {
    match o
    case Done(c) => Success(c)
    case Raised(_, e) => Failure(e)
  }

  /** `hasattr(self, "_is_frozen") and self._is_frozen`: the gatekeeper's test. */
  predicate Frozen(c: Config)
  {
    IsFrozen in c.attrs && Truthy(c.attrs[IsFrozen])
  }

  /** The attributes a frozen config still lets callers set. */
  predicate GateExempt(k: Key)
  {
    k == Declared(SimpleOptimizer) || k == Dynamic("worker_index") || k == Declared(IsFrozen)
  }

  /** Class-level properties without a setter: assigning them raises AttributeError. */
  predicate IsReadOnlyProperty(k: Key)
  {
    k == Dynamic("multiagent") || k == Dynamic("num_workers")
  }

  /** Reading declared attribute `a`: its value, or the AttributeError of a missing attribute. */
  function GetAttr(c: Config, a: Attr): (r: Result<Value, ConfigError>)
    ensures r.Success? <==> a in c.attrs
    ensures r.Success? ==> r.value == c.attrs[a]
    ensures r.Failure? ==> r.error == MissingAttribute(Declared(a))
  {
    if a in c.attrs then Success(c.attrs[a]) else Failure(MissingAttribute(Declared(a)))
  }

  /** `setattr(config, k, v)`: the frozen-state gatekeeper, then `object.__setattr__`. */
  function SetAttr(c: Config, k: Key, v: Value): (r: Outcome)
    ensures r.Done? <==> (!Frozen(c) || GateExempt(k)) && !IsReadOnlyProperty(k)
    ensures r.Done? ==> Get(r.config, k) == Some(v)
    ensures forall k' :: k' != k ==> Get(r.config, k') == Get(c, k')
    ensures r.Raised? ==> r.config == c
    ensures Frozen(c) && !GateExempt(k) ==> r == Raised(c, FrozenAttribute(k))
  {
    if Frozen(c) && !GateExempt(k) then Raised(c, FrozenAttribute(k))
    else if IsReadOnlyProperty(k) then Raised(c, ReadOnlyProperty(k))
    else Done(Put(c, k, v))
  }

  /** Assigning a declared attribute other than `_is_frozen` leaves the frozen state as it was. */
  lemma SetAttrKeepsFrozen(c: Config, a: Attr, v: Value)
    requires a != IsFrozen
    ensures Frozen(SetAttr(c, Declared(a), v).config) == Frozen(c)
  {
    assert Get(SetAttr(c, Declared(a), v).config, Declared(IsFrozen)) == Get(c, Declared(IsFrozen));
  }

  /**
   * `config[k] = v` as written: only the "multiagent" key is refused, and the assignment goes to
   * `object.__setattr__` directly, past the gatekeeper.
   */
  function SetItem(c: Config, k: Key, v: Value): (r: Outcome)
    ensures r.Done? <==> k != Dynamic("multiagent") && !IsReadOnlyProperty(k)
    ensures r.Done? ==> Get(r.config, k) == Some(v)
    ensures forall k' :: k' != k ==> Get(r.config, k') == Get(c, k')
  {
    if k == Dynamic("multiagent") then Raised(c, MultiagentItem)
    else if IsReadOnlyProperty(k) then Raised(c, ReadOnlyProperty(k))
    else Done(Put(c, k, v))
  }

  /** A frozen config accepts an item assignment to an ordinary attribute and changes it. */
  lemma SetItemBypassesFreeze(c: Config, v: Value)
    requires Frozen(c)
    ensures SetItem(c, Declared(Lr), v).Done?
    ensures Get(SetItem(c, Declared(Lr), v).config, Declared(Lr)) == Some(v)
  {
  }

  /** `config[k] = v` routed through the gatekeeper, as the freeze contract requires. */
  function SetItemGated(c: Config, k: Key, v: Value): (r: Outcome)
    ensures r.Done? <==> k != Dynamic("multiagent") && (!Frozen(c) || GateExempt(k)) && !IsReadOnlyProperty(k)
    ensures Frozen(c) && !GateExempt(k) ==> r.Raised? && r.config == c
    ensures r.Done? ==> Get(r.config, k) == Some(v)
    ensures forall k' :: k' != k ==> Get(r.config, k') == Get(c, k')
  {
    if k == Dynamic("multiagent") then Raised(c, MultiagentItem)
    else SetAttr(c, k, v)
  }

  /**
   * The nesting depth of evaluation configs that are themselves AlgorithmConfig objects; it
   * bounds the recursion of `freeze`.
   */
  function EvalConfigOf(c: Config): (r: Option<Config>)
    ensures r.Some? ==> EvaluationConfig in c.attrs && c.attrs[EvaluationConfig] == ConfigV(r.value)
  {
    if EvaluationConfig in c.attrs && c.attrs[EvaluationConfig].ConfigV?
    then Some(c.attrs[EvaluationConfig].cfg) else None
  }

  /**
   * `freeze()`: returns at once when already frozen; otherwise sets `_is_frozen = True` and
   * freezes an evaluation config that is itself an AlgorithmConfig.
   */
  function Freeze(c: Config): (r: Outcome)
    decreases c
  {
    if IsFrozen !in c.attrs then Raised(c, MissingAttribute(Declared(IsFrozen)))
    else if Truthy(c.attrs[IsFrozen]) then Done(c)
    else
      var c1 := c.(attrs := c.attrs[IsFrozen := BoolV(true)]);
      if EvaluationConfig !in c.attrs then Raised(c1, MissingAttribute(Declared(EvaluationConfig)))
      else match c.attrs[EvaluationConfig]
        case ConfigV(e) =>
          var inner := Freeze(e);
          var c2 := c1.(attrs := c1.attrs[EvaluationConfig := ConfigV(inner.config)]);
          if inner.Raised? then Raised(c2, inner.error) else Done(c2)
        case _ => Done(c1)
  }

  /** A config, and each evaluation config nested in it, has both attributes `freeze` reads. */
  predicate FreezeReady(c: Config)
    decreases c
  {
    IsFrozen in c.attrs && EvaluationConfig in c.attrs &&
    (c.attrs[EvaluationConfig].ConfigV? ==> FreezeReady(c.attrs[EvaluationConfig].cfg))
  }

  /** Every level of the chain of nested evaluation configs is frozen. */
  predicate DeeplyFrozen(c: Config)
    decreases c
  {
    Frozen(c) && (EvaluationConfig in c.attrs && c.attrs[EvaluationConfig].ConfigV? ==>
                    DeeplyFrozen(c.attrs[EvaluationConfig].cfg))
  }

  /** No level of the chain of nested evaluation configs is frozen. */
  predicate NowhereFrozen(c: Config)
    decreases c
  {
    !Frozen(c) && (EvaluationConfig in c.attrs && c.attrs[EvaluationConfig].ConfigV? ==>
                     NowhereFrozen(c.attrs[EvaluationConfig].cfg))
  }

  /**
   * `freeze` leaves the config frozen; an already frozen config is returned as it is, otherwise a
   * nested evaluation config is frozen too. Nothing but `_is_frozen` and the nested evaluation
   * config changes.
   */
  lemma {:induction false} FreezeFreezes(c: Config)
    requires FreezeReady(c)
    ensures Freeze(c).Done?
    ensures Frozen(Freeze(c).config)
    ensures Frozen(c) ==> Freeze(c) == Done(c)
    ensures !Frozen(c) && EvalConfigOf(c).Some? ==>
              EvalConfigOf(Freeze(c).config).Some? && Frozen(EvalConfigOf(Freeze(c).config).value)
    ensures forall a :: a != IsFrozen && a != EvaluationConfig ==>
              Get(Freeze(c).config, Declared(a)) == Get(c, Declared(a))
    ensures Freeze(c).config.dynamic == c.dynamic
    decreases c
  {
    if !Truthy(c.attrs[IsFrozen]) && c.attrs[EvaluationConfig].ConfigV? {
      var e := c.attrs[EvaluationConfig].cfg;
      FreezeFreezes(e);
    }
  }

  /** Freezing twice is freezing once. */
  lemma FreezeIdempotent(c: Config)
    requires FreezeReady(c)
    ensures Freeze(Freeze(c).config) == Freeze(c)
  {
    FreezeFreezes(c);
  }

  /** A config none of whose levels is frozen becomes frozen at every level. */
  lemma {:induction false} FreezeDeep(c: Config)
    requires FreezeReady(c) && NowhereFrozen(c)
    ensures Freeze(c).Done? && DeeplyFrozen(Freeze(c).config)
    decreases c
  {
    FreezeFreezes(c);
    if c.attrs[EvaluationConfig].ConfigV? {
      var e := c.attrs[EvaluationConfig].cfg;
      FreezeDeep(e);
    }
  }

  /**
   * `copy(copy_frozen)`: a deep copy (a value, here) that is frozen when `copy_frozen is True`,
   * unfrozen together with an evaluation config object when `copy_frozen is False`, and
   * otherwise keeps the current state.
   */
  function Copy(c: Config, copyFrozen: Value): (r: Outcome)
  {
    if copyFrozen == BoolV(true) then Freeze(c)
    else if copyFrozen == BoolV(false) then
      var c1 := c.(attrs := c.attrs[IsFrozen := BoolV(false)]);
      if EvaluationConfig !in c.attrs then Raised(c1, MissingAttribute(Declared(EvaluationConfig)))
      else match c.attrs[EvaluationConfig]
        case ConfigV(e) =>
          Done(c1.(attrs := c1.attrs[EvaluationConfig := ConfigV(e.(attrs := e.attrs[IsFrozen := BoolV(false)]))]))
        case _ => Done(c1)
    else Done(c)
  }

  /**
   * The three modes of `copy`, and that a copy differs from the original in nothing else: besides
   * `_is_frozen`, only the frozen flag of a nested evaluation config can change.
   */
  lemma CopyModes(c: Config, copyFrozen: Value)
    requires FreezeReady(c)
    ensures copyFrozen == BoolV(true) ==> Copy(c, copyFrozen).Done? && Frozen(Copy(c, copyFrozen).config)
    ensures copyFrozen == BoolV(false) ==>
              Copy(c, copyFrozen).Done? && !Frozen(Copy(c, copyFrozen).config) &&
              (EvalConfigOf(c).Some? ==> !Frozen(EvalConfigOf(Copy(c, copyFrozen).config).value))
    ensures copyFrozen != BoolV(true) && copyFrozen != BoolV(false) ==> Copy(c, copyFrozen) == Done(c)
    ensures forall a :: a != IsFrozen && a != EvaluationConfig ==>
              Get(Copy(c, copyFrozen).config, Declared(a)) == Get(c, Declared(a))
    ensures Copy(c, copyFrozen).config.dynamic == c.dynamic
  {
    if copyFrozen == BoolV(true) {
      FreezeFreezes(c);
    }
  }

  /**
   * What a copy does to a nested evaluation config: `copy(True)` freezes it with the copy, and
   * `copy(False)` changes nothing in it but its frozen flag.
   */
  lemma CopyNested(c: Config, copyFrozen: Value)
    requires FreezeReady(c)
    ensures copyFrozen == BoolV(true) && !Frozen(c) && EvalConfigOf(c).Some? ==>
              EvalConfigOf(Copy(c, copyFrozen).config).Some? &&
              Frozen(EvalConfigOf(Copy(c, copyFrozen).config).value)
    ensures copyFrozen == BoolV(false) ==>
              match EvalConfigOf(c)
              case Some(e) => EvalConfigOf(Copy(c, copyFrozen).config) == Some(e.(attrs := e.attrs[IsFrozen := BoolV(false)]))
              case None => Get(Copy(c, copyFrozen).config, Declared(EvaluationConfig)) == Get(c, Declared(EvaluationConfig))
  {
    if copyFrozen == BoolV(true) {
      FreezeFreezes(c);
    }
  }
}
