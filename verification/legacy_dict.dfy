/**
 * The legacy python config dict: `to_dict`, `update_from_dict`, `from_dict` and the key
 * translation `_translate_special_keys` that connects the old key names to the attributes.
 *
 * Dict keys are modelled already parsed: the name of a declared attribute, one of the eight old
 * names, "multiagent", or any other name. The keys `ParseKey` produces satisfy `Parsed`: an
 * `OtherKey` name is none of the former.
 */
module LegacyDict {
  import opened Wrappers
  import opened Strings
  import opened Attributes
  import opened PyObjects
  import opened ConfigObject
  import opened Defaults
  import opened SetterEngine
  import opened Setters
  import opened SetterProperties

  /** The old key names `_translate_special_keys` renames. */
  datatype LegacyName =
    | LegacyCallbacks           // "callbacks"
    | LegacyCreateEnvOnDriver   // "create_env_on_driver"
    | LegacyCustomEvalFunction  // "custom_eval_function"
    | LegacyFramework           // "framework"
    | LegacyInput               // "input"
    | LegacyLambda              // "lambda"
    | LegacyNumCpusForDriver    // "num_cpus_for_driver"
    | LegacyNumWorkers          // "num_workers"

  /** The attribute an old name stands for; `lambda_` is not declared by the base class. */
  function LegacyTarget(l: LegacyName): Key
  {
    match l
    case LegacyCallbacks => Declared(CallbacksClass)
    case LegacyCreateEnvOnDriver => Declared(CreateEnvOnLocalWorker)
    case LegacyCustomEvalFunction => Declared(CustomEvaluationFunction)
    case LegacyFramework => Declared(FrameworkStr)
    case LegacyInput => Declared(Input)
    case LegacyLambda => Dynamic("lambda_")
    case LegacyNumCpusForDriver => Declared(NumCpusForLocalWorker)
    case LegacyNumWorkers => Declared(NumRolloutWorkers)
  }

  /** A key of a legacy config dict. */
  datatype DictKey =
    | AttrKey(attr: Attr)           // the attribute's own name
    | LegacyKey(legacy: LegacyName) // an old name
    | MultiagentKey                 // "multiagent"
    | OtherKey(name: string)        // any other name

  /** The old name itself. */
  function LegacyString(l: LegacyName): string
  {
    match l
    case LegacyCallbacks => "callbacks"
    case LegacyCreateEnvOnDriver => "create_env_on_driver"
    case LegacyCustomEvalFunction => "custom_eval_function"
    case LegacyFramework => "framework"
    case LegacyInput => "input"
    case LegacyLambda => "lambda"
    case LegacyNumCpusForDriver => "num_cpus_for_driver"
    case LegacyNumWorkers => "num_workers"
  }

  /** The first of `attrs` whose Python name is `s`. */
  function FindAttr(s: string, attrs: seq<Attr>): (r: Option<Attr>)
    ensures r.Some? ==> NameOf(r.value) == s && r.value in attrs
    ensures r.None? ==> forall i | 0 <= i < |attrs| :: NameOf(attrs[i]) != s
  {
    if attrs == [] then None
    else if NameOf(attrs[0]) == s then Some(attrs[0])
    else FindAttr(s, attrs[1..])
  }

  /** The old name `s` spells, if any. */
  function LegacySpelled(s: string): (r: Option<LegacyName>)
    ensures r.Some? ==> LegacyString(r.value) == s
    ensures r.None? ==> forall l: LegacyName :: LegacyString(l) != s
  {
    if s == "callbacks" then Some(LegacyCallbacks)
    else if s == "create_env_on_driver" then Some(LegacyCreateEnvOnDriver)
    else if s == "custom_eval_function" then Some(LegacyCustomEvalFunction)
    else if s == "framework" then Some(LegacyFramework)
    else if s == "input" then Some(LegacyInput)
    else if s == "lambda" then Some(LegacyLambda)
    else if s == "num_cpus_for_driver" then Some(LegacyNumCpusForDriver)
    else if s == "num_workers" then Some(LegacyNumWorkers)
    else None
  }

  /** A string key of a config dict, parsed: an old name, "multiagent", an attribute's name, or other. */
  function ParseKey(s: string): (d: DictKey)
    ensures d.LegacyKey? ==> LegacyString(d.legacy) == s
    ensures d.AttrKey? ==> NameOf(d.attr) == s
    ensures d.OtherKey? ==> d.name == s && forall i | 0 <= i < |AllAttrs| :: NameOf(AllAttrs[i]) != s
  {
    match LegacySpelled(s)
    case Some(l) => LegacyKey(l)
    case None =>
      if s == "multiagent" then MultiagentKey
      else match FindAttr(s, AllAttrs)
        case Some(a) => AttrKey(a)
        case None => OtherKey(s)
  }

  /** A dict key as `ParseKey` produces it: an `OtherKey` names no attribute, no old name and not "multiagent". */
  predicate Parsed(d: DictKey)
  {
    d.OtherKey? ==> ParseKey(d.name) == d
  }

  /** Every parsed string key is `Parsed`, and keeps its string. */
  lemma ParseKeyParsed(s: string)
    ensures Parsed(ParseKey(s))
    ensures ParseKey(s).OtherKey? ==> s != "multiagent" && forall l: LegacyName :: LegacyString(l) != s
  {
  }

  /**
   * The deprecated names `_translate_special_keys` refuses when asked to warn: a deprecation
   * error, not a warning.
   */
  predicate RefusedWhenWarning(a: Attr)
  {
    match a
    case CollectMetricsTimeout | MetricsSmoothingEpisodes | MinIterTimeS | MinTimeSPerReporting
      | MinSampleTimestepsPerReporting | MinTrainTimestepsPerReporting | TimestepsPerIteration
      | EvaluationNumEpisodes => true
    case _ => false
  }

  /** `_translate_special_keys(key, warn_deprecated)`: the attribute a dict key names. */
  function TranslateKey(k: DictKey, warn: bool): (r: Result<Key, ConfigError>)
    ensures !warn ==> r.Success?
    ensures r.Failure? <==> warn && k.AttrKey? && RefusedWhenWarning(k.attr)
  {
    match k
    case AttrKey(a) =>
      if warn && RefusedWhenWarning(a) then Failure(DeprecatedKey(Declared(a))) else Success(Declared(a))
    case LegacyKey(l) => Success(LegacyTarget(l))
    case MultiagentKey => Success(Dynamic("multiagent"))
    case OtherKey(n) => Success(Dynamic(n))
  }

  /**
   * The key under which `to_dict` writes an attribute: its old name for the renamed ones. A dynamic
   * attribute keeps its own spelling, which reads as an old name when it is one.
   */
  function ExportKey(k: Key): DictKey
  {
    match k
    case Declared(a) =>
      (match a
       case CallbacksClass => LegacyKey(LegacyCallbacks)
       case CreateEnvOnLocalWorker => LegacyKey(LegacyCreateEnvOnDriver)
       case CustomEvaluationFunction => LegacyKey(LegacyCustomEvalFunction)
       case FrameworkStr => LegacyKey(LegacyFramework)
       case Input => LegacyKey(LegacyInput)
       case NumCpusForLocalWorker => LegacyKey(LegacyNumCpusForDriver)
       case NumRolloutWorkers => LegacyKey(LegacyNumWorkers)
       case _ => AttrKey(a))
    case Dynamic(n) =>
      if n == "lambda_" then LegacyKey(LegacyLambda)
      else if n == "multiagent" then MultiagentKey
      else match LegacySpelled(n)
        case Some(l) => LegacyKey(l)
        case None => OtherKey(n)
  }

  /** A dynamic attribute spelled like an old name, say `config["framework"] = ...`. */
  predicate SpellsLegacy(k: Key)
  {
    k.Dynamic? && LegacySpelled(k.name).Some?
  }

  /**
   * Translating the key `to_dict` writes gives back the attribute, except for a dynamic attribute
   * spelled like an old name: its key translates to the renamed attribute.
   */
  lemma TranslateInvertsExport(k: Key)
    ensures TranslateKey(ExportKey(k), false) == Success(k) <==> !SpellsLegacy(k)
    ensures SpellsLegacy(k) ==> TranslateKey(ExportKey(k), false) == Success(LegacyTarget(LegacySpelled(k.name).value))
  {
  }

  /**
   * Keys `to_dict` itself would write: every key but the new name of a renamed attribute and the
   * spellings of "lambda_", "multiagent" and the old names as other names.
   */
  predicate Canonical(d: DictKey)
  {
    match d
    case AttrKey(a) => a !in {CallbacksClass, CreateEnvOnLocalWorker, CustomEvaluationFunction, FrameworkStr,
                              Input, NumCpusForLocalWorker, NumRolloutWorkers}
    case OtherKey(n) => n != "lambda_" && n != "multiagent" && LegacySpelled(n).None?
    case _ => true
  }

  /** On canonical keys the translation is one-to-one: exporting its result gives the key back. */
  lemma ExportInvertsTranslate(d: DictKey)
    requires Canonical(d)
    ensures ExportKey(TranslateKey(d, false).value) == d
  {
  }

  /** The attributes `to_dict` gathers under "multiagent", in the order of the `multiagent` property. */
  const MultiagentAttrs: seq<Attr> :=
    [Policies, PolicyMappingFn, PoliciesToTrain, PolicyMapCapacity, PolicyMapCache, CountStepsBy, ObservationFn]

  /** The attributes `to_dict` drops when they still hold DEPRECATED_VALUE. */
  predicate DroppedWhenDeprecated(a: Attr)
  {
    match a
    case Monitor | EvaluationNumEpisodes | MetricsSmoothingEpisodes | TimestepsPerIteration
      | MinIterTimeS | CollectMetricsTimeout | BufferSize | PrioritizedReplay | LearningStarts
      | ReplayBatchSize | ReplayMode | PrioritizedReplayAlpha | PrioritizedReplayBeta
      | PrioritizedReplayEps | MinTimeSPerReporting | MinTrainTimestepsPerReporting
      | MinSampleTimestepsPerReporting | InputEvaluation => true
    case _ => false
  }

  /** Whether `to_dict` writes attribute `a` of `c` under its own or old name. */
  predicate Exported(c: Config, a: Attr)
    requires a in c.attrs
  {
    a != AlgoClass && a != IsFrozen && a !in MultiagentAttrs &&
    !(DroppedWhenDeprecated(a) && PyEq(c.attrs[a], DEPRECATED_VALUE))
  }

  /** The value `to_dict` writes under an old name when the renamed attribute is missing. */
  function PopDefault(l: LegacyName): Option<Value>
  {
    match l
    case LegacyCallbacks => Some(DEFAULT_CALLBACKS)
    case LegacyCreateEnvOnDriver => Some(IntV(1))
    case LegacyCustomEvalFunction => Some(NoneV)
    case LegacyFramework => Some(NoneV)
    case LegacyNumCpusForDriver => Some(IntV(1))
    case LegacyNumWorkers => Some(IntV(0))
    case _ => None
  }

  /** The first of `attrs` that `c` lacks: the one whose read raises. */
  function FirstMissing(c: Config, attrs: seq<Attr>): (r: Option<Attr>)
    ensures r.None? <==> forall i | 0 <= i < |attrs| :: attrs[i] in c.attrs
    ensures r.Some? ==> r.value !in c.attrs && r.value in attrs
  {
    if attrs == [] then None
    else if attrs[0] !in c.attrs then Some(attrs[0])
    else FirstMissing(c, attrs[1..])
  }

  /** The "multiagent" sub-dict, from the attributes (all present). */
  function MultiagentDict(c: Config): Value
    requires forall i | 0 <= i < |MultiagentAttrs| :: MultiagentAttrs[i] in c.attrs
  {
    DictV(seq(|MultiagentAttrs|, i requires 0 <= i < |MultiagentAttrs| =>
                (StrV(NameOf(MultiagentAttrs[i])), c.attrs[MultiagentAttrs[i]])))
  }

  /** What `to_dict` needs: the attributes it pops without a default or reads through `multiagent`. */
  predicate Exportable(c: Config)
  {
    AlgoClass in c.attrs && IsFrozen in c.attrs && forall i | 0 <= i < |MultiagentAttrs| :: MultiagentAttrs[i] in c.attrs
  }

  /**
   * `to_dict()`. Raises when `algo_class`, `_is_frozen` or a multi-agent attribute is missing
   * (`pop` without default, or the `multiagent` property).
   */
  function ToDict(c: Config): (r: Result<map<DictKey, Value>, ConfigError>)
    ensures r.Success? <==> Exportable(c)
    ensures r.Failure? ==> r.error.MissingAttribute? && r.error.key.Declared? && r.error.key.attr !in c.attrs
  {
    if AlgoClass !in c.attrs then Failure(MissingAttribute(Declared(AlgoClass)))
    else if IsFrozen !in c.attrs then Failure(MissingAttribute(Declared(IsFrozen)))
    else if FirstMissing(c, MultiagentAttrs).Some? then
      Failure(MissingAttribute(Declared(FirstMissing(c, MultiagentAttrs).value)))
    else Success(Export(c))
  }

  /** The dict `to_dict` builds from a config that has what it needs. */
  function Export(c: Config): map<DictKey, Value>
    requires Exportable(c)
  {
    AttrPart(c) + DynamicPart(c) + DefaultPart(c) + map[MultiagentKey := MultiagentDict(c)]
  }

  function AttrPart(c: Config): map<DictKey, Value>
  {
    assert forall a1, a2 | ExportKey(Declared(a1)) == ExportKey(Declared(a2)) :: a1 == a2 by {
      forall a1, a2 | ExportKey(Declared(a1)) == ExportKey(Declared(a2)) ensures a1 == a2 {
        ExportInjective(Declared(a1), Declared(a2));
      }
    }
    map a | a in c.attrs && Exported(c, a) :: ExportKey(Declared(a)) := c.attrs[a]
  }

  /**
   * Whether `to_dict` writes the key spelled `n` from something else, overwriting a dynamic attribute
   * of that name: "multiagent", an old name it pops with a default, and "input" or "lambda" when the
   * renamed attribute exists.
   */
  predicate Overwritten(c: Config, n: string)
  {
    n == "multiagent" ||
    (LegacySpelled(n).Some? &&
     (PopDefault(LegacySpelled(n).value).Some? || Get(c, LegacyTarget(LegacySpelled(n).value)).Some?))
  }

  /**
   * An old-name entry that holds the dynamic attribute of that spelling: "input" or "lambda" when
   * the renamed attribute is missing. Reading it back reads the renamed attribute.
   */
  predicate Stray(c: Config, d: DictKey)
  {
    d.LegacyKey? && PopDefault(d.legacy).None? && Get(c, LegacyTarget(d.legacy)).None? &&
    LegacyString(d.legacy) in c.dynamic
  }

  function DynamicPart(c: Config): map<DictKey, Value>
  {
    assert forall n1, n2 | n1 in c.dynamic && !Overwritten(c, n1) && n2 in c.dynamic && !Overwritten(c, n2) &&
                           ExportKey(Dynamic(n1)) == ExportKey(Dynamic(n2)) :: n1 == n2 by {
      forall n1, n2 | n1 in c.dynamic && !Overwritten(c, n1) && n2 in c.dynamic && !Overwritten(c, n2) &&
                      ExportKey(Dynamic(n1)) == ExportKey(Dynamic(n2))
        ensures n1 == n2
      {
        DynamicKeysDistinct(c, n1, n2);
      }
    }
    map n | n in c.dynamic && !Overwritten(c, n) :: ExportKey(Dynamic(n)) := c.dynamic[n]
  }

  /** Two surviving dynamic attributes are written under distinct keys. */
  lemma DynamicKeysDistinct(c: Config, n1: string, n2: string)
    requires n1 in c.dynamic && !Overwritten(c, n1) && n2 in c.dynamic && !Overwritten(c, n2)
    requires ExportKey(Dynamic(n1)) == ExportKey(Dynamic(n2))
    ensures n1 == n2
  {
    if n1 == "lambda_" || n2 == "lambda_" {
      assert Get(c, LegacyTarget(LegacyLambda)).Some?;
    }
  }

  function DefaultPart(c: Config): map<DictKey, Value>
  {
    map l: LegacyName | PopDefault(l).Some? && Get(c, LegacyTarget(l)).None? :: LegacyKey(l) := PopDefault(l).value
  }

  /** `ExportKey` is one-to-one but for dynamic attributes spelled like an old name. */
  lemma ExportInjective(k1: Key, k2: Key)
    requires ExportKey(k1) == ExportKey(k2)
    ensures k1 == k2 || SpellsLegacy(k1) || SpellsLegacy(k2)
  {
    TranslateInvertsExport(k1);
    TranslateInvertsExport(k2);
  }

  /**
   * Where a key of the exported dict comes from: the "multiagent" sub-dict, a `pop` default, a
   * stray dynamic attribute spelled like an old name, or the attribute the key translates to.
   */
  lemma ExportOrigin(c: Config, d: DictKey)
    requires Exportable(c) && d in Export(c)
    ensures d in DefaultPart(c) ==>
              d.LegacyKey? && Get(c, LegacyTarget(d.legacy)).None? && Some(Export(c)[d]) == PopDefault(d.legacy)
    ensures Stray(c, d) ==>
              Export(c)[d] == c.dynamic[LegacyString(d.legacy)] && Get(c, TranslateKey(d, false).value).None?
    ensures d != MultiagentKey && d !in DefaultPart(c) && !Stray(c, d) ==>
              var k := TranslateKey(d, false).value;
              Get(c, k) == Some(Export(c)[d]) &&
              (k.Declared? ==> Exported(c, k.attr)) && (k.Dynamic? ==> k.name != "multiagent")
  {
    if d != MultiagentKey && d !in DefaultPart(c) {
      if d in DynamicPart(c) {
        var n :| n in c.dynamic && !Overwritten(c, n) && d == ExportKey(Dynamic(n));
        DynamicOrigin(c, n);
      } else {
        var a :| a in c.attrs && Exported(c, a) && d == ExportKey(Declared(a));
        AttrOrigin(c, a);
      }
    }
  }

  /**
   * The entry of a surviving dynamic attribute: stray when it is spelled like an old name, else read
   * back through its own name.
   */
  lemma DynamicOrigin(c: Config, n: string)
    requires Exportable(c) && n in c.dynamic && !Overwritten(c, n)
    ensures var d := ExportKey(Dynamic(n));
            d !in DefaultPart(c) && d != MultiagentKey && Export(c)[d] == c.dynamic[n] &&
            (SpellsLegacy(Dynamic(n)) ==>
               Stray(c, d) && LegacyString(d.legacy) == n && Get(c, TranslateKey(d, false).value).None?) &&
            (!SpellsLegacy(Dynamic(n)) ==> !Stray(c, d) && TranslateKey(d, false).value == Dynamic(n))
  {
    DynamicKept(c, n);
    match LegacySpelled(n)
    case Some(l) =>
      SpelledKey(n, l);
    case None =>
      UnspelledKey(c, n);
  }

  /** A dynamic attribute spelled like an old name is exported under that old name. */
  lemma SpelledKey(n: string, l: LegacyName)
    requires LegacySpelled(n) == Some(l)
    ensures ExportKey(Dynamic(n)) == LegacyKey(l) && n != "multiagent"
  {
    assert LegacyString(l) == n;
  }

  /** Any other surviving dynamic attribute is exported under a key that translates back to it. */
  lemma UnspelledKey(c: Config, n: string)
    requires LegacySpelled(n).None? && n in c.dynamic && n != "multiagent"
    ensures var d := ExportKey(Dynamic(n));
            d != MultiagentKey && !Stray(c, d) && TranslateKey(d, false).value == Dynamic(n)
  {
    TranslateInvertsExport(Dynamic(n));
    if n == "lambda_" {
      assert Get(c, LegacyTarget(LegacyLambda)).Some?;
    }
  }

  /** The entry of an exported attribute that no dynamic attribute shares: its value, read back through its name. */
  lemma AttrOrigin(c: Config, a: Attr)
    requires Exportable(c) && a in c.attrs && Exported(c, a)
    requires ExportKey(Declared(a)) !in DynamicPart(c) && ExportKey(Declared(a)) !in DefaultPart(c)
    ensures var d := ExportKey(Declared(a));
            d != MultiagentKey && !Stray(c, d) && TranslateKey(d, false).value == Declared(a) &&
            Export(c)[d] == c.attrs[a]
  {
    var d := ExportKey(Declared(a));
    TranslateInvertsExport(Declared(a));
    assert !Stray(c, d) by {
      if d.LegacyKey? {
        assert LegacyTarget(d.legacy) == Declared(a);
      }
    }
    assert AttrPart(c)[d] == c.attrs[a] by {
      forall a' | a' in c.attrs && Exported(c, a') && ExportKey(Declared(a')) == d
        ensures a' == a
      {
        ExportInjective(Declared(a'), Declared(a));
      }
    }
  }

  /** An attribute `to_dict` does not export does not appear under its own name. */
  lemma NotExportedNotKey(c: Config, b: Attr)
    requires Exportable(c) && b in c.attrs && !Exported(c, b)
    ensures AttrKey(b) !in Export(c)
  {
    if AttrKey(b) in Export(c) {
      ExportOrigin(c, AttrKey(b));
    }
  }

  /**
   * `to_dict` leaves out `algo_class`, `_is_frozen`, the multi-agent attributes (they move under
   * "multiagent") and the deprecated attributes still at DEPRECATED_VALUE.
   */
  lemma ToDictDrops(c: Config)
    requires Exportable(c)
    ensures AttrKey(AlgoClass) !in ToDict(c).value && AttrKey(IsFrozen) !in ToDict(c).value
    ensures forall i | 0 <= i < |MultiagentAttrs| :: AttrKey(MultiagentAttrs[i]) !in ToDict(c).value
    ensures forall a | a in c.attrs && DroppedWhenDeprecated(a) && PyEq(c.attrs[a], DEPRECATED_VALUE) ::
              AttrKey(a) !in ToDict(c).value
  {
    assert ToDict(c).value == Export(c);
    NotExportedNotKey(c, AlgoClass);
    NotExportedNotKey(c, IsFrozen);
    forall i | 0 <= i < |MultiagentAttrs|
      ensures AttrKey(MultiagentAttrs[i]) !in Export(c)
    {
      NotExportedNotKey(c, MultiagentAttrs[i]);
    }
    forall a | a in c.attrs && DroppedWhenDeprecated(a) && PyEq(c.attrs[a], DEPRECATED_VALUE)
      ensures AttrKey(a) !in Export(c)
    {
      NotExportedNotKey(c, a);
    }
  }

  /**
   * Every other attribute is written under the key `ExportKey` gives it, with its value; so is every
   * dynamic attribute whose key `to_dict` does not overwrite.
   */
  lemma ToDictKeeps(c: Config)
    requires Exportable(c)
    ensures forall a | a in c.attrs && Exported(c, a) ::
              ExportKey(Declared(a)) in ToDict(c).value && ToDict(c).value[ExportKey(Declared(a))] == c.attrs[a]
    ensures forall n | n in c.dynamic && !Overwritten(c, n) ::
              ExportKey(Dynamic(n)) in ToDict(c).value && ToDict(c).value[ExportKey(Dynamic(n))] == c.dynamic[n]
  {
    assert ToDict(c).value == Export(c);
    forall a | a in c.attrs && Exported(c, a)
      ensures ExportKey(Declared(a)) in Export(c) && Export(c)[ExportKey(Declared(a))] == c.attrs[a]
    {
      AttrKept(c, a);
    }
    forall n | n in c.dynamic && !Overwritten(c, n)
      ensures ExportKey(Dynamic(n)) in Export(c) && Export(c)[ExportKey(Dynamic(n))] == c.dynamic[n]
    {
      DynamicKept(c, n);
    }
  }

  /**
   * A dynamic attribute whose key `to_dict` overwrites is lost: no entry carries its own name, and
   * the old-name entry holds the renamed attribute or the `pop` default.
   */
  lemma ToDictOverwrites(c: Config, n: string)
    requires Exportable(c) && n in c.dynamic && Overwritten(c, n)
    ensures OtherKey(n) !in ToDict(c).value
    ensures n == "multiagent" ==> ToDict(c).value[MultiagentKey] == MultiagentDict(c)
    ensures n != "multiagent" ==>
              var l := LegacySpelled(n).value;
              LegacyKey(l) in ToDict(c).value &&
              Some(ToDict(c).value[LegacyKey(l)]) ==
                (if Get(c, LegacyTarget(l)).Some? then Get(c, LegacyTarget(l)) else PopDefault(l))
  {
    assert ToDict(c).value == Export(c);
    if OtherKey(n) in Export(c) {
      OtherKeysUnspelled(c, OtherKey(n));
    }
    if n != "multiagent" {
      var l := LegacySpelled(n).value;
      var d := LegacyKey(l);
      OldNameWritten(c, l);
      ExportOrigin(c, d);
    }
  }

  /** An other-name entry of the exported dict is no old name and not "multiagent". */
  lemma OtherKeysUnspelled(c: Config, d: DictKey)
    requires Exportable(c) && d in Export(c) && d.OtherKey?
    ensures LegacySpelled(d.name).None? && d.name != "multiagent"
  {
    assert d !in AttrPart(c) by {
      if d in AttrPart(c) {
        var a :| a in c.attrs && Exported(c, a) && d == ExportKey(Declared(a));
        DeclaredKeyNotOther(a);
      }
    }
    assert d in DynamicPart(c);
    var m :| m in c.dynamic && !Overwritten(c, m) && d == ExportKey(Dynamic(m));
    OtherKeyOfDynamic(m);
  }

  lemma DeclaredKeyNotOther(a: Attr)
    ensures !ExportKey(Declared(a)).OtherKey?
  {
  }

  lemma OtherKeyOfDynamic(n: string)
    requires ExportKey(Dynamic(n)).OtherKey?
    ensures ExportKey(Dynamic(n)).name == n && LegacySpelled(n).None? && n != "multiagent"
  {
  }

  /** `to_dict` writes an old name when it pops it with a default or the renamed attribute exists. */
  lemma OldNameWritten(c: Config, l: LegacyName)
    requires Exportable(c)
    requires PopDefault(l).Some? || Get(c, LegacyTarget(l)).Some?
    ensures LegacyKey(l) in Export(c)
  {
    TargetExportsAsOldName(l);
    if Get(c, LegacyTarget(l)).None? {
      assert LegacyKey(l) in DefaultPart(c);
    } else if l == LegacyLambda {
      DynamicKept(c, "lambda_");
    } else {
      TargetExported(c, LegacyTarget(l).attr);
      AttrKept(c, LegacyTarget(l).attr);
    }
  }

  /** An old name is the key its renamed attribute is exported under. */
  lemma TargetExportsAsOldName(l: LegacyName)
    ensures ExportKey(LegacyTarget(l)) == LegacyKey(l)
    ensures l != LegacyLambda ==> LegacyTarget(l).Declared?
  {
  }

  /** `to_dict` exports every renamed attribute that is present. */
  lemma TargetExported(c: Config, a: Attr)
    requires a in c.attrs && ExportKey(Declared(a)).LegacyKey?
    ensures Exported(c, a)
  {
  }

  lemma AttrKept(c: Config, a: Attr)
    requires Exportable(c) && a in c.attrs && Exported(c, a)
    ensures ExportKey(Declared(a)) in Export(c) && Export(c)[ExportKey(Declared(a))] == c.attrs[a]
  {
    var d := ExportKey(Declared(a));
    TranslateInvertsExport(Declared(a));
    assert d in AttrPart(c);
    assert d !in DefaultPart(c);
    AttrKeyNotDynamic(c, a);
    AttrOrigin(c, a);
  }

  /** No surviving dynamic attribute shares the key of a declared attribute that is present. */
  lemma AttrKeyNotDynamic(c: Config, a: Attr)
    requires a in c.attrs
    ensures ExportKey(Declared(a)) !in DynamicPart(c)
  {
    var d := ExportKey(Declared(a));
    if d in DynamicPart(c) {
      var n :| n in c.dynamic && !Overwritten(c, n) && d == ExportKey(Dynamic(n));
      SharedKeyOverwritten(c, a, n);
    }
  }

  /** A dynamic attribute exported under the key of a present declared attribute is overwritten. */
  lemma SharedKeyOverwritten(c: Config, a: Attr, n: string)
    requires a in c.attrs && ExportKey(Dynamic(n)) == ExportKey(Declared(a))
    ensures Overwritten(c, n)
  {
    ExportInjective(Dynamic(n), Declared(a));
    TranslateInvertsExport(Declared(a));
    TranslateInvertsExport(Dynamic(n));
  }

  /** `to_dict` writes an exported attribute under its exported name. */
  lemma ToDictKeepsAttr(c: Config, a: Attr)
    requires ToDict(c).Success? && a in c.attrs && Exported(c, a)
    ensures ExportKey(Declared(a)) in ToDict(c).value && ToDict(c).value[ExportKey(Declared(a))] == c.attrs[a]
  {
    AttrKept(c, a);
  }

  lemma DynamicKept(c: Config, n: string)
    requires Exportable(c) && n in c.dynamic && !Overwritten(c, n)
    ensures ExportKey(Dynamic(n)) in Export(c) && Export(c)[ExportKey(Dynamic(n))] == c.dynamic[n]
  {
    var d := ExportKey(Dynamic(n));
    assert d in DynamicPart(c);
    assert d !in DefaultPart(c);
    assert DynamicPart(c)[d] == c.dynamic[n] by {
      forall n' | n' in c.dynamic && !Overwritten(c, n') && ExportKey(Dynamic(n')) == d
        ensures n' == n
      {
        DynamicKeysDistinct(c, n', n);
      }
    }
  }

  /**
   * Every entry but "multiagent" is the value of the attribute its key translates to, or, for an
   * old name whose attribute is missing, the default `pop` falls back to or the dynamic attribute
   * of that spelling.
   */
  lemma ToDictSound(c: Config)
    requires Exportable(c)
    ensures forall d | d in ToDict(c).value && d != MultiagentKey ::
              var k := TranslateKey(d, false).value;
              Get(c, k) == Some(ToDict(c).value[d]) ||
              (Get(c, k).None? && d.LegacyKey? && PopDefault(d.legacy) == Some(ToDict(c).value[d])) ||
              (Get(c, k).None? && Stray(c, d) && Get(c, Dynamic(LegacyString(d.legacy))) == Some(ToDict(c).value[d]))
  {
    forall d | d in Export(c) && d != MultiagentKey
      ensures var k := TranslateKey(d, false).value;
              Get(c, k) == Some(Export(c)[d]) ||
              (Get(c, k).None? && d.LegacyKey? && PopDefault(d.legacy) == Some(Export(c)[d])) ||
              (Get(c, k).None? && Stray(c, d) && Get(c, Dynamic(LegacyString(d.legacy))) == Some(Export(c)[d]))
    {
      ExportOrigin(c, d);
    }
  }

  /**
   * `config[k]`: the key translated with the deprecated names refused, then read. "multiagent"
   * reads the property that gathers the multi-agent attributes into a dict.
   */
  function GetItem(c: Config, k: DictKey): (r: Result<Value, ConfigError>)
    ensures k.AttrKey? && RefusedWhenWarning(k.attr) ==> r == Failure(DeprecatedKey(Declared(k.attr)))
    ensures TranslateKey(k, false).value != Dynamic("multiagent") && !(k.AttrKey? && RefusedWhenWarning(k.attr)) ==>
              (r.Success? <==> Get(c, TranslateKey(k, false).value).Some?)
    ensures r.Success? && TranslateKey(k, false).value != Dynamic("multiagent") ==>
              Get(c, TranslateKey(k, false).value) == Some(r.value)
    ensures TranslateKey(k, false).value == Dynamic("multiagent") ==>
              (r.Success? <==> FirstMissing(c, MultiagentAttrs).None?) &&
              (r.Success? ==> r.value == MultiagentDict(c))
  {
    var key :- TranslateKey(k, true);
    if key == Dynamic("multiagent") then
      match FirstMissing(c, MultiagentAttrs)
      case Some(a) => Failure(MissingAttribute(Declared(a)))
      case None => Success(MultiagentDict(c))
    else match Get(c, key)
      case Some(v) => Success(v)
      case None => Failure(MissingAttribute(key))
  }

  /**
   * Reading a config by the keys of its own `to_dict()` gives the dict's values back, except for an
   * old name written with its `pop` default, a deprecated name the translation refuses, and a stray
   * "input" or "lambda": reading that one raises.
   */
  lemma GetItemReadsExport(c: Config, d: DictKey)
    requires Exportable(c) && d in ToDict(c).value && d !in DefaultPart(c)
    requires !(d.AttrKey? && RefusedWhenWarning(d.attr))
    ensures !Stray(c, d) ==> GetItem(c, d) == Success(ToDict(c).value[d])
    ensures Stray(c, d) ==> GetItem(c, d).Failure?
  {
    if d == MultiagentKey {
      MultiagentReadsExport(c);
    } else {
      ExportedReadsExport(c, d);
    }
  }

  /** Any other exported key reads back its value through the key it translates to, unless it is stray. */
  lemma ExportedReadsExport(c: Config, d: DictKey)
    requires Exportable(c) && d in Export(c) && d !in DefaultPart(c) && d != MultiagentKey
    requires !(d.AttrKey? && RefusedWhenWarning(d.attr))
    ensures !Stray(c, d) ==> GetItem(c, d) == Success(Export(c)[d])
    ensures Stray(c, d) ==> GetItem(c, d).Failure?
  {
    if Stray(c, d) {
      StrayReadFails(c, d);
    } else {
      ExportOrigin(c, d);
      var k := TranslateKey(d, false).value;
      assert Get(c, k) == Some(Export(c)[d]) && k != Dynamic("multiagent");
    }
  }

  /** Reading a stray old-name entry reads the missing renamed attribute, and raises. */
  lemma StrayReadFails(c: Config, d: DictKey)
    requires Stray(c, d)
    ensures GetItem(c, d).Failure?
  {
    assert TranslateKey(d, true) == Success(LegacyTarget(d.legacy));
  }

  /** `config["multiagent"]` on an exportable config is the dict `to_dict` writes under that key. */
  lemma MultiagentReadsExport(c: Config)
    requires Exportable(c)
    ensures GetItem(c, MultiagentKey) == Success(Export(c)[MultiagentKey])
  {
    assert TranslateKey(MultiagentKey, false).value == Dynamic("multiagent");
    assert Export(c)[MultiagentKey] == MultiagentDict(c);
  }

  /** The keyword arguments `multi_agent` accepts, in the order `update_from_dict` looks for them. */
  const MultiagentParams: seq<Attr> :=
    [Policies, PolicyMapCapacity, PolicyMapCache, PolicyMappingFn, PoliciesToTrain, ObservationFn, CountStepsBy]

  /**
   * The keyword arguments `update_from_dict` passes to `multi_agent` for a "multiagent" entry: each
   * parameter name found `in` the value, subscripted. Only a dict can be subscripted by a name.
   */
  function MultiagentKwargs(v: Value, params: seq<Attr>): (r: Result<Kwargs, ConfigError>)
    ensures r.Success? && v.DictV? ==>
              forall a :: Declared(a) in r.value <==> a in params && Lookup(v.entries, StrV(NameOf(a))).Some?
    ensures r.Success? && v.DictV? ==>
              forall a | Declared(a) in r.value :: Some(r.value[Declared(a)]) == Lookup(v.entries, StrV(NameOf(a)))
    ensures r.Success? ==> forall k | k in r.value :: k.Declared?
    ensures v.DictV? ==> r.Success?
  {
    if params == [] then Success(map[])
    else
      var name := StrV(NameOf(params[0]));
      match Contains(v, name)
      case None => Failure(NotIterable(Dynamic("multiagent")))
      case Some(found) =>
        if !found then MultiagentKwargs(v, params[1..])
        else if !v.DictV? then Failure(NotADict(Dynamic("multiagent")))
        else
          (match MultiagentKwargs(v, params[1..])
           case Failure(e) => Failure(e)
           case Success(rest) => Success(rest[Declared(params[0]) := Lookup(v.entries, name).value]))
  }

  /** The attribute name `update_from_dict` tests for the "evaluation_" prefix. */
  function KeyName(k: Key): string
  {
    match k
    case Declared(a) => NameOf(a)
    case Dynamic(n) => n
  }

  /** Keys `update_from_dict` collects for one `evaluation(...)` call at the end. */
  predicate Deferred(k: Key)
  {
    HasPrefix(KeyName(k), "evaluation_")
  }

  /**
   * What `update_from_dict` does with one entry that is neither deferred nor TRIAL_INFO: the keys
   * of sub-dicts go through their setters, everything else through the gatekeeper.
   */
  function Route(c: Config, k: Key, v: Value, h: Collaborators): Outcome
  {
    if k == Dynamic("multiagent") then
      (match MultiagentKwargs(v, MultiagentParams)
       case Failure(e) => Raised(c, e)
       case Success(kwargs) => MultiAgent(c, kwargs, h))
    else if k == Declared(CallbacksClass) then Callbacks(c, v)
    else if k == Declared(EnvConfig) then Environment(c, map[k := v], h)
    else if k == Declared(ExplorationConfig) then Exploration(c, map[k := v], h)
    else if k == Declared(Model) || k == Declared(Optimizer) || k == Dynamic("replay_buffer_config") then
      Training(c, map[k := v], h)
    else SetAttr(c, k, v)
  }

  /** Keys that `Route` sends to the gatekeeper. */
  predicate RoutedToGatekeeper(k: Key)
  {
    k != Dynamic("multiagent") && k != Declared(CallbacksClass) && k != Declared(EnvConfig) &&
    k != Declared(ExplorationConfig) && k != Declared(Model) && k != Declared(Optimizer) &&
    k != Dynamic("replay_buffer_config")
  }

  /** The loop of `update_from_dict` over the remaining entries, with the evaluation arguments so far. */
  function Apply(c: Config, entries: seq<(DictKey, Value)>, evalCall: Kwargs, h: Collaborators): Outcome
    decreases |entries|
  {
    if entries == [] then Evaluation(c, evalCall, h)
    else
      var k, v := TranslateKey(entries[0].0, false).value, entries[0].1;
      if k == Dynamic(TRIAL_INFO) then Apply(c, entries[1..], evalCall, h)
      else if Deferred(k) then Apply(c, entries[1..], evalCall[k := v], h)
      else
        match Route(c, k, v, h)
        case Raised(c', e) => Raised(c', e)
        case Done(c') => Apply(c', entries[1..], evalCall, h)
  }

  /** `update_from_dict(config_dict)`, the dict given as its entries in iteration order. */
  function UpdateFromDict(c: Config, entries: seq<(DictKey, Value)>, h: Collaborators): Outcome
  {
    Apply(c, entries, map[], h)
  }

  /** The entries whose key is not `d`. */
  function Without(entries: seq<(DictKey, Value)>, d: DictKey): (r: seq<(DictKey, Value)>)
    ensures forall i | 0 <= i < |r| :: r[i].0 != d
    ensures forall e | e in entries && e.0 != d :: e in r
    ensures forall e | e in r :: e in entries
  {
    if entries == [] then []
    else if entries[0].0 == d then Without(entries[1..], d)
    else [entries[0]] + Without(entries[1..], d)
  }

  /** `from_dict(config_dict)`: a fresh config, updated from the dict without its "_is_frozen" entry. */
  function FromDict(algoClass: Value, entries: seq<(DictKey, Value)>, h: Collaborators): Outcome
  {
    UpdateFromDict(Init(algoClass), Without(entries, AttrKey(IsFrozen)), h)
  }

  /** Entries under TRIAL_INFO are skipped: removing them changes nothing. */
  lemma {:induction false} SkipsTrialInfo(c: Config, entries: seq<(DictKey, Value)>, evalCall: Kwargs, h: Collaborators)
    ensures Apply(c, entries, evalCall, h) == Apply(c, Without(entries, OtherKey(TRIAL_INFO)), evalCall, h)
    decreases |entries|
  {
    if entries != [] {
      var rest := Without(entries[1..], OtherKey(TRIAL_INFO));
      var k := TranslateKey(entries[0].0, false).value;
      assert k == Dynamic(TRIAL_INFO) <==> entries[0].0 == OtherKey(TRIAL_INFO) by {
        if entries[0].0.LegacyKey? {
          assert LegacyTarget(entries[0].0.legacy) != Dynamic(TRIAL_INFO);
        }
      }
      if entries[0].0 != OtherKey(TRIAL_INFO) {
        assert ([entries[0]] + rest)[1..] == rest;
        var v := entries[0].1;
        if Deferred(k) {
          SkipsTrialInfo(c, entries[1..], evalCall[k := v], h);
        } else if Route(c, k, v, h).Done? {
          SkipsTrialInfo(Route(c, k, v, h).config, entries[1..], evalCall, h);
        }
      } else {
        SkipsTrialInfo(c, entries[1..], evalCall, h);
      }
    }
  }

  /** No entry of `entries` names key `k`. */
  predicate NotNamed(entries: seq<(DictKey, Value)>, k: Key)
  {
    forall i | 0 <= i < |entries| :: TranslateKey(entries[i].0, false).value != k
  }

  /** A deferred key is not TRIAL_INFO. */
  lemma DeferredNotTrialInfo(k: Key)
    requires Deferred(k)
    ensures k != Dynamic(TRIAL_INFO)
  {
    TrialInfoNotDeferred();
  }

  /** TRIAL_INFO does not start with "evaluation_". */
  lemma TrialInfoNotDeferred()
    ensures !Deferred(Dynamic(TRIAL_INFO))
  {
    assert KeyName(Dynamic(TRIAL_INFO))[0] != "evaluation_"[0];
  }

  /** A deferred first entry is only remembered for the final `evaluation(...)` call. */
  lemma ApplyDeferredFirst(c: Config, e: (DictKey, Value), rest: seq<(DictKey, Value)>, evalCall: Kwargs, h: Collaborators)
    requires Deferred(TranslateKey(e.0, false).value)
    ensures Apply(c, [e] + rest, evalCall, h) == Apply(c, rest, evalCall[TranslateKey(e.0, false).value := e.1], h)
  {
    DeferredNotTrialInfo(TranslateKey(e.0, false).value);
    assert ([e] + rest)[0] == e && ([e] + rest)[1..] == rest;
  }

  /**
   * Evaluation settings take effect only at the end: a deferred entry can be moved behind the
   * entries after it (none of which names the same key) without changing the outcome.
   */
  lemma {:induction false} DeferredMovesToEnd(c: Config, e: (DictKey, Value), post: seq<(DictKey, Value)>,
                                              evalCall: Kwargs, h: Collaborators)
    requires Deferred(TranslateKey(e.0, false).value)
    requires NotNamed(post, TranslateKey(e.0, false).value)
    ensures Apply(c, [e] + post, evalCall, h) == Apply(c, post + [e], evalCall, h)
    decreases |post|
  {
    var ke := TranslateKey(e.0, false).value;
    ApplyDeferredFirst(c, e, post, evalCall, h);
    if post == [] {
      assert post + [e] == [e];
      ApplyDeferredFirst(c, e, [], evalCall, h);
    } else {
      var k, v := TranslateKey(post[0].0, false).value, post[0].1;
      assert (post + [e])[0] == post[0] && (post + [e])[1..] == post[1..] + [e];
      assert NotNamed(post[1..], ke) by {
        forall i | 0 <= i < |post| - 1
          ensures TranslateKey(post[1..][i].0, false).value != ke
        {
          assert post[1..][i] == post[i + 1];
        }
      }
      assert k != ke by {
        assert TranslateKey(post[0].0, false).value != ke;
      }
      if k == Dynamic(TRIAL_INFO) {
        DeferredMovesToEnd(c, e, post[1..], evalCall, h);
        ApplyDeferredFirst(c, e, post[1..], evalCall, h);
      } else if Deferred(k) {
        assert evalCall[ke := e.1][k := v] == evalCall[k := v][ke := e.1];
        DeferredMovesToEnd(c, e, post[1..], evalCall[k := v], h);
        ApplyDeferredFirst(c, e, post[1..], evalCall[k := v], h);
      } else {
        match Route(c, k, v, h)
        case Raised(c', err) =>
        case Done(c') =>
          DeferredMovesToEnd(c', e, post[1..], evalCall, h);
          ApplyDeferredFirst(c', e, post[1..], evalCall, h);
      }
    }
  }

  /** An `evaluation()` call without arguments changes nothing. */
  lemma EvaluationWithoutArguments(c: Config, h: Collaborators)
    ensures Evaluation(c, map[], h) == Done(c)
  {
    NoArgumentsNoChange(c, EvaluationSteps, {Declared(EvaluationNumEpisodes)}, h);
    EvaluationIsSetter(c, map[], h);
    assert EvaluationArgs(map[]) == map[];
  }

  /** A single entry for an ordinary attribute is an assignment through the gatekeeper. */
  lemma PlainEntry(c: Config, d: DictKey, v: Value, h: Collaborators)
    requires var k := TranslateKey(d, false).value;
             k != Dynamic(TRIAL_INFO) && !Deferred(k) && RoutedToGatekeeper(k)
    ensures UpdateFromDict(c, [(d, v)], h) == SetAttr(c, TranslateKey(d, false).value, v)
  {
    var k := TranslateKey(d, false).value;
    assert Route(c, k, v, h) == SetAttr(c, k, v);
    assert [(d, v)][1..] == [];
    var r := SetAttr(c, k, v);
    if r.Done? {
      EvaluationWithoutArguments(r.config, h);
      assert Apply(r.config, [], map[], h) == Done(r.config);
    }
  }

  /** Only an entry for `_is_frozen` itself can change `_is_frozen`. */
  lemma RouteKeepsFrozenFlag(c: Config, k: Key, v: Value, h: Collaborators)
    requires k != Declared(IsFrozen)
    ensures Get(Route(c, k, v, h).config, Declared(IsFrozen)) == Get(c, Declared(IsFrozen))
  {
    if k == Dynamic("multiagent") {
      match MultiagentKwargs(v, MultiagentParams)
      case Failure(_) =>
      case Success(kwargs) => MultiAgentKeepsFrozenFlag(c, kwargs, h);
    } else if k == Declared(EnvConfig) {
      EnvironmentKeepsFrozenFlag(c, map[k := v], h);
    } else if k == Declared(ExplorationConfig) {
      ExplorationKeepsFrozenFlag(c, map[k := v], h);
    } else if k == Declared(Model) || k == Declared(Optimizer) || k == Dynamic("replay_buffer_config") {
      TrainingKeepsFrozenFlag(c, map[k := v], h);
    }
  }

  /** `multi_agent(...)` leaves `_is_frozen` as it was. */
  lemma MultiAgentKeepsFrozenFlag(c: Config, args: Kwargs, h: Collaborators)
    ensures Get(MultiAgent(c, args, h).config, Declared(IsFrozen)) == Get(c, Declared(IsFrozen))
  {
    SettersKeepFrozenFlag();
    FlagUntouched(c, MultiAgentSteps, {}, args, h);
  }

  /** `environment(...)` leaves `_is_frozen` as it was. */
  lemma EnvironmentKeepsFrozenFlag(c: Config, args: Kwargs, h: Collaborators)
    ensures Get(Environment(c, args, h).config, Declared(IsFrozen)) == Get(c, Declared(IsFrozen))
  {
    SettersKeepFrozenFlag();
    FlagUntouched(c, EnvironmentSteps, {}, args, h);
  }

  /** `exploration(...)` leaves `_is_frozen` as it was. */
  lemma ExplorationKeepsFrozenFlag(c: Config, args: Kwargs, h: Collaborators)
    ensures Get(Exploration(c, args, h).config, Declared(IsFrozen)) == Get(c, Declared(IsFrozen))
  {
    SettersKeepFrozenFlag();
    FlagUntouched(c, ExplorationSteps, {}, args, h);
  }

  /** `training(...)` leaves `_is_frozen` as it was. */
  lemma TrainingKeepsFrozenFlag(c: Config, args: Kwargs, h: Collaborators)
    ensures Get(Training(c, args, h).config, Declared(IsFrozen)) == Get(c, Declared(IsFrozen))
  {
    SettersKeepFrozenFlag();
    FlagUntouched(c, TrainingSteps, {}, args, h);
  }

  /** The loop of `update_from_dict` keeps `_is_frozen` when no entry names it. */
  lemma {:induction false} ApplyKeepsFrozenFlag(c: Config, entries: seq<(DictKey, Value)>, evalCall: Kwargs, h: Collaborators)
    requires forall i | 0 <= i < |entries| :: entries[i].0 != AttrKey(IsFrozen)
    ensures Get(Apply(c, entries, evalCall, h).config, Declared(IsFrozen)) == Get(c, Declared(IsFrozen))
    decreases |entries|
  {
    if entries == [] {
      SettersKeepFrozenFlag();
      EvaluationIsSetter(c, evalCall, h);
      FlagUntouched(c, EvaluationSteps, {Declared(EvaluationNumEpisodes)}, EvaluationArgs(evalCall), h);
    } else {
      var k, v := TranslateKey(entries[0].0, false).value, entries[0].1;
      assert k != Declared(IsFrozen) by {
        assert entries[0].0 != AttrKey(IsFrozen);
        if entries[0].0.LegacyKey? {
          assert LegacyTarget(entries[0].0.legacy) != Declared(IsFrozen);
        }
      }
      assert forall i | 0 <= i < |entries| - 1 :: entries[1..][i] == entries[i + 1];
      if k == Dynamic(TRIAL_INFO) {
        ApplyKeepsFrozenFlag(c, entries[1..], evalCall, h);
      } else if Deferred(k) {
        ApplyKeepsFrozenFlag(c, entries[1..], evalCall[k := v], h);
      } else {
        RouteKeepsFrozenFlag(c, k, v, h);
        if Route(c, k, v, h).Done? {
          ApplyKeepsFrozenFlag(Route(c, k, v, h).config, entries[1..], evalCall, h);
        }
      }
    }
  }

  /**
   * An attribute only an entry naming it can write in `update_from_dict`: such an entry goes
   * through the gatekeeper, and no setter the loop calls targets the attribute.
   */
  predicate OnlyOwnEntryWrites(a: Attr)
  {
    RoutedToGatekeeper(Declared(a)) && !Deferred(Declared(a)) && !SetterTarget(a)
  }

  /** The attributes the setters behind `Route` and the deferred `evaluation()` call may write. */
  predicate SetterTarget(a: Attr)
  {
    a == Policies || a == PolicyMapCapacity || a == PolicyMapCache || a == PolicyMappingFn ||
    a == ObservationFn || a == CountStepsBy || a == PoliciesToTrain || a == IsMultiAgent ||
    a == Env || a == EnvConfig || a == ObservationSpace || a == ActionSpace || a == EnvTaskFn ||
    a == RenderEnv || a == ClipRewards || a == NormalizeActions || a == ClipActions || a == DisableEnvChecking ||
    a == Gamma || a == Lr || a == TrainBatchSize || a == Model || a == Optimizer ||
    a == Explore || a == ExplorationConfig ||
    a == EvaluationInterval || a == EvaluationDuration || a == EvaluationDurationUnit ||
    a == EvaluationSampleTimeoutS || a == EvaluationParallelToTraining || a == EvaluationConfig ||
    a == OffPolicyEstimationMethods || a == EvaluationNumWorkers || a == CustomEvaluationFunction ||
    a == AlwaysAttachEvaluationResults || a == EnableAsyncEvaluation || a == OpeSplitBatchByEpisode
  }

  /** A setter all of whose targets are setter targets leaves any other attribute as it was. */
  lemma SetterLeaves(c: Config, steps: seq<Step>, extra: set<Key>, args: Kwargs, h: Collaborators, a: Attr)
    requires forall j | 0 <= j < |steps| :: Target(steps[j]).Some? ==> SetterTarget(Target(steps[j]).value)
    requires !SetterTarget(a)
    ensures Get(RunSetter(c, steps, extra, args, h).config, Declared(a)) == Get(c, Declared(a))
  {
    assert !AnyWrites(steps, args, Declared(a));
  }

  /** `multi_agent(...)` writes only setter targets. */
  lemma MultiAgentTargets()
    ensures forall j | 0 <= j < |MultiAgentSteps| :: Target(MultiAgentSteps[j]).Some? ==> SetterTarget(Target(MultiAgentSteps[j]).value)
  {
    forall j | 0 <= j < |MultiAgentSteps| && Target(MultiAgentSteps[j]).Some?
      ensures SetterTarget(Target(MultiAgentSteps[j]).value)
    {
    }
  }

  /** `environment(...)` writes only setter targets. */
  lemma EnvironmentTargets()
    ensures forall j | 0 <= j < |EnvironmentSteps| :: Target(EnvironmentSteps[j]).Some? ==> SetterTarget(Target(EnvironmentSteps[j]).value)
  {
    forall j | 0 <= j < |EnvironmentSteps| && Target(EnvironmentSteps[j]).Some?
      ensures SetterTarget(Target(EnvironmentSteps[j]).value)
    {
    }
  }

  /** `exploration(...)` writes only setter targets. */
  lemma ExplorationTargets()
    ensures forall j | 0 <= j < |ExplorationSteps| :: Target(ExplorationSteps[j]).Some? ==> SetterTarget(Target(ExplorationSteps[j]).value)
  {
    forall j | 0 <= j < |ExplorationSteps| && Target(ExplorationSteps[j]).Some?
      ensures SetterTarget(Target(ExplorationSteps[j]).value)
    {
    }
  }

  /** `training(...)` writes only setter targets. */
  lemma TrainingTargets()
    ensures forall j | 0 <= j < |TrainingSteps| :: Target(TrainingSteps[j]).Some? ==> SetterTarget(Target(TrainingSteps[j]).value)
  {
    forall j | 0 <= j < |TrainingSteps| && Target(TrainingSteps[j]).Some?
      ensures SetterTarget(Target(TrainingSteps[j]).value)
    {
    }
  }

  /** `evaluation(...)` writes only setter targets. */
  lemma EvaluationTargets()
    ensures forall j | 0 <= j < |EvaluationSteps| :: Target(EvaluationSteps[j]).Some? ==> SetterTarget(Target(EvaluationSteps[j]).value)
  {
    forall j | 0 <= j < |EvaluationSteps| && Target(EvaluationSteps[j]).Some?
      ensures SetterTarget(Target(EvaluationSteps[j]).value)
    {
    }
  }

  /** An entry for another key leaves an attribute that only its own entries write. */
  lemma RouteLeaves(c: Config, k: Key, v: Value, h: Collaborators, a: Attr)
    requires OnlyOwnEntryWrites(a) && k != Declared(a)
    ensures Get(Route(c, k, v, h).config, Declared(a)) == Get(c, Declared(a))
  {
    if k == Dynamic("multiagent") {
      match MultiagentKwargs(v, MultiagentParams)
      case Failure(_) =>
      case Success(kwargs) => MultiAgentLeaves(c, kwargs, h, a);
    } else if k == Declared(CallbacksClass) {
    } else if k == Declared(EnvConfig) {
      EnvironmentLeaves(c, map[k := v], h, a);
    } else if k == Declared(ExplorationConfig) {
      ExplorationLeaves(c, map[k := v], h, a);
    } else if k == Declared(Model) || k == Declared(Optimizer) || k == Dynamic("replay_buffer_config") {
      TrainingLeaves(c, map[k := v], h, a);
    }
  }

  /** `multi_agent(...)` leaves what no step of it targets. */
  lemma MultiAgentLeaves(c: Config, args: Kwargs, h: Collaborators, a: Attr)
    requires !SetterTarget(a)
    ensures Get(MultiAgent(c, args, h).config, Declared(a)) == Get(c, Declared(a))
  {
    MultiAgentTargets();
    SetterLeaves(c, MultiAgentSteps, {}, args, h, a);
  }

  /** `environment(...)` leaves what no step of it targets. */
  lemma EnvironmentLeaves(c: Config, args: Kwargs, h: Collaborators, a: Attr)
    requires !SetterTarget(a)
    ensures Get(Environment(c, args, h).config, Declared(a)) == Get(c, Declared(a))
  {
    EnvironmentTargets();
    SetterLeaves(c, EnvironmentSteps, {}, args, h, a);
  }

  /** `exploration(...)` leaves what no step of it targets. */
  lemma ExplorationLeaves(c: Config, args: Kwargs, h: Collaborators, a: Attr)
    requires !SetterTarget(a)
    ensures Get(Exploration(c, args, h).config, Declared(a)) == Get(c, Declared(a))
  {
    ExplorationTargets();
    SetterLeaves(c, ExplorationSteps, {}, args, h, a);
  }

  /** `training(...)` leaves what no step of it targets. */
  lemma TrainingLeaves(c: Config, args: Kwargs, h: Collaborators, a: Attr)
    requires !SetterTarget(a)
    ensures Get(Training(c, args, h).config, Declared(a)) == Get(c, Declared(a))
  {
    TrainingTargets();
    SetterLeaves(c, TrainingSteps, {}, args, h, a);
  }

  /** The final `evaluation(...)` call leaves an attribute that only its own entries write. */
  lemma EvaluationLeaves(c: Config, evalCall: Kwargs, h: Collaborators, a: Attr)
    requires OnlyOwnEntryWrites(a)
    ensures Get(Evaluation(c, evalCall, h).config, Declared(a)) == Get(c, Declared(a))
  {
    EvaluationIsSetter(c, evalCall, h);
    EvaluationTargets();
    SetterLeaves(c, EvaluationSteps, {Declared(EvaluationNumEpisodes)}, EvaluationArgs(evalCall), h, a);
  }

  /** The entries after the first still name none of what no entry names. */
  lemma NotNamedRest(entries: seq<(DictKey, Value)>, k: Key)
    requires entries != [] && NotNamed(entries, k)
    ensures NotNamed(entries[1..], k) && TranslateKey(entries[0].0, false).value != k
  {
    assert forall i | 0 <= i < |entries| - 1 :: entries[1..][i] == entries[i + 1];
  }

  /** The loop of `update_from_dict` keeps an attribute only its own entries write when no entry names it. */
  lemma {:induction false} ApplyLeaves(c: Config, entries: seq<(DictKey, Value)>, evalCall: Kwargs, h: Collaborators, a: Attr)
    requires OnlyOwnEntryWrites(a) && NotNamed(entries, Declared(a))
    ensures Get(Apply(c, entries, evalCall, h).config, Declared(a)) == Get(c, Declared(a))
    decreases |entries|
  {
    if entries == [] {
      EvaluationLeaves(c, evalCall, h, a);
    } else {
      var k, v := TranslateKey(entries[0].0, false).value, entries[0].1;
      NotNamedRest(entries, Declared(a));
      if k == Dynamic(TRIAL_INFO) {
        ApplyLeaves(c, entries[1..], evalCall, h, a);
      } else if Deferred(k) {
        ApplyLeaves(c, entries[1..], evalCall[k := v], h, a);
      } else {
        RouteLeaves(c, k, v, h, a);
        if Route(c, k, v, h).Done? {
          ApplyLeaves(Route(c, k, v, h).config, entries[1..], evalCall, h, a);
        }
      }
    }
  }

  /** Exactly the `i`th entry names `k`. */
  predicate OnlyEntryNaming(entries: seq<(DictKey, Value)>, i: nat, k: Key)
  {
    i < |entries| && TranslateKey(entries[i].0, false).value == k &&
    forall j | 0 <= j < |entries| && j != i :: TranslateKey(entries[j].0, false).value != k
  }

  /**
   * When exactly one entry names an attribute only its own entries write, a completed
   * `update_from_dict` leaves that entry's value there, whatever was set before.
   */
  lemma ApplyStores(c: Config, entries: seq<(DictKey, Value)>, evalCall: Kwargs, h: Collaborators, a: Attr, i: nat)
    requires OnlyOwnEntryWrites(a) && OnlyEntryNaming(entries, i, Declared(a))
    ensures Apply(c, entries, evalCall, h).Done? ==> Get(Apply(c, entries, evalCall, h).config, Declared(a)) == Some(entries[i].1)
  {
    var c', evalCall' := ApplySuffix(c, entries, evalCall, h, i);
    OnlyEntryNamingSuffix(entries, i, Declared(a));
    FirstEntryStores(c', entries[i..], evalCall', h, a);
  }

  /**
   * The loop of `update_from_dict` after `i` turns: a completed run is the run over the entries
   * from the `i`th on, from the config and evaluation arguments the first `i` entries leave.
   */
  lemma {:induction false} ApplySuffix(c: Config, entries: seq<(DictKey, Value)>, evalCall: Kwargs, h: Collaborators, i: nat)
      returns (c': Config, evalCall': Kwargs)
    requires i <= |entries|
    ensures Apply(c, entries, evalCall, h).Done? ==> Apply(c', entries[i..], evalCall', h) == Apply(c, entries, evalCall, h)
    decreases i
  {
    if i == 0 {
      c', evalCall' := c, evalCall;
    } else {
      var c1, evalCall1 := ApplyFirst(c, entries, evalCall, h);
      c', evalCall' := ApplySuffix(c1, entries[1..], evalCall1, h, i - 1);
      assert entries[1..][i - 1..] == entries[i..];
    }
  }

  /** From the `i`th entry on, the one entry naming `k` comes first. */
  lemma OnlyEntryNamingSuffix(entries: seq<(DictKey, Value)>, i: nat, k: Key)
    requires OnlyEntryNaming(entries, i, k)
    ensures OnlyEntryNaming(entries[i..], 0, k) && entries[i..][0] == entries[i]
  {
    assert forall j | 0 <= j < |entries| - i :: entries[i..][j] == entries[i + j];
  }

  /**
   * One turn of the loop of `update_from_dict`: a completed run is the run over the remaining
   * entries from the config and evaluation arguments the first entry leaves.
   */
  lemma ApplyFirst(c: Config, entries: seq<(DictKey, Value)>, evalCall: Kwargs, h: Collaborators)
      returns (c': Config, evalCall': Kwargs)
    requires entries != []
    ensures Apply(c, entries, evalCall, h).Done? ==> Apply(c', entries[1..], evalCall', h) == Apply(c, entries, evalCall, h)
  {
    var k, v := TranslateKey(entries[0].0, false).value, entries[0].1;
    if k == Dynamic(TRIAL_INFO) {
      c', evalCall' := c, evalCall;
    } else if Deferred(k) {
      c', evalCall' := c, evalCall[k := v];
    } else {
      c', evalCall' := Route(c, k, v, h).config, evalCall;
    }
  }

  /** The step of `ApplyStores` where the first entry is the one naming the attribute. */
  lemma FirstEntryStores(c: Config, entries: seq<(DictKey, Value)>, evalCall: Kwargs, h: Collaborators, a: Attr)
    requires OnlyOwnEntryWrites(a) && OnlyEntryNaming(entries, 0, Declared(a))
    ensures Apply(c, entries, evalCall, h).Done? ==> Get(Apply(c, entries, evalCall, h).config, Declared(a)) == Some(entries[0].1)
  {
    var k, v := Declared(a), entries[0].1;
    ApplyRouted(c, entries, evalCall, h);
    GatekeeperRoute(c, k, v, h);
    assert NotNamed(entries[1..], k) by {
      assert forall j | 0 <= j < |entries| - 1 :: entries[1..][j] == entries[j + 1];
    }
    if Route(c, k, v, h).Done? {
      ApplyLeaves(Route(c, k, v, h).config, entries[1..], evalCall, h, a);
    }
  }

  /** A first entry that is neither TRIAL_INFO nor deferred is routed, and the loop goes on from there. */
  lemma ApplyRouted(c: Config, entries: seq<(DictKey, Value)>, evalCall: Kwargs, h: Collaborators)
    requires entries != []
    requires TranslateKey(entries[0].0, false).value != Dynamic(TRIAL_INFO) && !Deferred(TranslateKey(entries[0].0, false).value)
    ensures var k, v := TranslateKey(entries[0].0, false).value, entries[0].1;
            Apply(c, entries, evalCall, h).Done? ==>
              Route(c, k, v, h).Done? && Apply(c, entries, evalCall, h) == Apply(Route(c, k, v, h).config, entries[1..], evalCall, h)
  { }

  /** A key routed to the gatekeeper is assigned by it, and nothing else is done. */
  lemma GatekeeperRoute(c: Config, k: Key, v: Value, h: Collaborators)
    requires RoutedToGatekeeper(k)
    ensures Route(c, k, v, h) == SetAttr(c, k, v)
  { }

  /**
   * `from_dict` never carries frozenness over: the dict's "_is_frozen" entry is removed, so the new
   * config is unfrozen whatever the dict holds and however the update ends.
   */
  lemma FromDictUnfrozen(algoClass: Value, entries: seq<(DictKey, Value)>, h: Collaborators)
    ensures !Frozen(FromDict(algoClass, entries, h).config)
  {
    var c := Init(algoClass);
    InitNotFrozen(algoClass);
    ApplyKeepsFrozenFlag(c, Without(entries, AttrKey(IsFrozen)), map[], h);
    var r := FromDict(algoClass, entries, h).config;
    assert Get(r, Declared(IsFrozen)) == Get(c, Declared(IsFrozen));
    assert (IsFrozen in r.attrs) == (IsFrozen in c.attrs);
  }
}
