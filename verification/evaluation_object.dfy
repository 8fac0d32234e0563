/**
 * `get_evaluation_config_object()`: the config the evaluation workers run with, built from an
 * unfrozen copy of the training config, the evaluation settings (`evaluation_config`, a dict or
 * itself an AlgorithmConfig) and the duration unit.
 *
 * Two versions: `EvaluationObjectAsWritten` follows the source, which switches `in_evaluation` on
 * before applying the settings; `EvaluationObject` applies the settings first, so that the result
 * is always an evaluation config.
 */
module EvaluationObject {
  import opened Wrappers
  import opened Strings
  import opened Attributes
  import opened PyObjects
  import opened ConfigObject
  import opened Defaults
  import opened SetterEngine
  import opened Setters
  import opened SetterProperties
  import opened LegacyDict
  import opened FragmentLength

  /** The keys of a list of dict items. */
  function KeysOf(items: seq<(DictKey, Value)>): set<DictKey>
  {
    if items == [] then {} else KeysOf(items[..|items| - 1]) + {items[|items| - 1].0}
  }

  /** A key of the list is the key of one of its items. */
  lemma {:induction false} KeyHasIndex(items: seq<(DictKey, Value)>, d: DictKey)
    requires d in KeysOf(items)
    ensures exists i :: 0 <= i < |items| && items[i].0 == d
    decreases |items|
  {
    var last := |items| - 1;
    if items[last].0 != d {
      KeyHasIndex(items[..last], d);
      var i :| 0 <= i < last && items[..last][i].0 == d;
      assert items[i].0 == d;
    }
  }

  /** `items` lists the entries of `m`: every key once, with its value. */
  predicate Lists(items: seq<(DictKey, Value)>, m: map<DictKey, Value>)
  {
    KeysOf(items) == m.Keys &&
    (forall i | 0 <= i < |items| :: items[i].0 in m && m[items[i].0] == items[i].1) &&
    (forall i, j | 0 <= i < j < |items| :: items[i].0 != items[j].0)
  }

  /** `items` lists the entries of `m` whose keys are not in `rest`, each once. */
  predicate ListsAllBut(items: seq<(DictKey, Value)>, m: map<DictKey, Value>, rest: set<DictKey>)
  {
    rest <= m.Keys && KeysOf(items) == m.Keys - rest &&
    (forall i | 0 <= i < |items| :: items[i].0 in m && m[items[i].0] == items[i].1 && items[i].0 !in rest) &&
    (forall i, j | 0 <= i < j < |items| :: items[i].0 != items[j].0)
  }

  /** Listing one more key keeps the listing exact. */
  lemma ListOneMore(items: seq<(DictKey, Value)>, m: map<DictKey, Value>, rest: set<DictKey>, k: DictKey)
    requires ListsAllBut(items, m, rest) && k in rest
    ensures ListsAllBut(items + [(k, m[k])], m, rest - {k})
  {
    var next := items + [(k, m[k])];
    assert next[..|next| - 1] == items;
    assert KeysOf(next) == KeysOf(items) + {k};
    forall i, j | 0 <= i < j < |next|
      ensures next[i].0 != next[j].0
    {
      if j == |items| {
        assert next[i] == items[i];
      } else {
        assert next[i] == items[i] && next[j] == items[j];
      }
    }
  }

  /** The items of a dict built by `to_dict`, in some iteration order. */
  method Items(m: map<DictKey, Value>) returns (items: seq<(DictKey, Value)>)
    ensures Lists(items, m)
  {
    items := [];
    var rest := m.Keys;
    while rest != {}
      invariant ListsAllBut(items, m, rest)
      decreases rest
    {
      var k :| k in rest;
      ListOneMore(items, m, rest, k);
      items := items + [(k, m[k])];
      rest := rest - {k};
    }
  }

  /** The entries of a dict whose keys are all strings, the keys parsed; None when one is not. */
  function StringKeyed(entries: seq<(Value, Value)>): (r: Option<seq<(DictKey, Value)>>)
    ensures r.Some? <==> forall i | 0 <= i < |entries| :: entries[i].0.StrV?
    ensures r.Some? ==> |r.value| == |entries| &&
                        forall i | 0 <= i < |entries| :: r.value[i] == (ParseKey(entries[i].0.s), entries[i].1)
  {
    if entries == [] then Some([])
    else if !entries[0].0.StrV? then None
    else match StringKeyed(entries[1..])
      case None => None
      case Some(rest) => Some([(ParseKey(entries[0].0.s), entries[0].1)] + rest)
  }

  /** Evaluation settings `v` that have no items: a config whose `to_dict()` raises, or a truthy non-dict. */
  predicate SettingsRefused(v: Value)
  {
    if v.ConfigV? then ToDict(v.cfg).Failure?
    else Truthy(v) && !(v.DictV? && StringKeyed(v.entries).Some?)
  }

  /** `items` is an iteration order of the items of the evaluation settings `v`. */
  predicate SettingsListing(v: Value, items: seq<(DictKey, Value)>)
  {
    if v.ConfigV? then ToDict(v.cfg).Success? && Lists(items, ToDict(v.cfg).value)
    else if !Truthy(v) then items == []
    else v.DictV? && StringKeyed(v.entries) == Some(items)
  }

  /**
   * The items `update_from_dict` iterates for the evaluation settings `v`: those of `v.to_dict()`
   * for an AlgorithmConfig, none for a falsy value (`evaluation_config or {}`), the dict's own
   * otherwise. Any other value has no `items()`.
   */
  method Settings(v: Value) returns (r: Result<seq<(DictKey, Value)>, ConfigError>)
    ensures r.Failure? <==> SettingsRefused(v)
    ensures r.Success? ==> SettingsListing(v, r.value)
    ensures v.ConfigV? && ToDict(v.cfg).Failure? ==> r == Failure(ToDict(v.cfg).error)
    ensures v.ConfigV? && ToDict(v.cfg).Success? ==> r.Success? && Lists(r.value, ToDict(v.cfg).value)
    ensures !Truthy(v) ==> r == Success([])
    ensures v.DictV? && Truthy(v) ==>
              if StringKeyed(v.entries).Some? then r == Success(StringKeyed(v.entries).value)
              else r == Failure(NonStringKey)
    ensures !v.ConfigV? && !v.DictV? && Truthy(v) ==> r == Failure(NotADict(Declared(EvaluationConfig)))
  {
    if v.ConfigV? {
      var d := ToDict(v.cfg);
      if d.Failure? {
        return Failure(d.error);
      }
      var items := Items(d.value);
      return Success(items);
    }
    if !Truthy(v) {
      return Success([]);
    }
    if v.DictV? {
      var parsed := StringKeyed(v.entries);
      if parsed.None? {
        return Failure(NonStringKey);
      }
      return Success(parsed.value);
    }
    return Failure(NotADict(Declared(EvaluationConfig)));
  }

  /**
   * The opening of `get_evaluation_config_object`: Success(None) for an evaluation config (whose
   * `evaluation_config` must be None), otherwise the evaluation settings to convert.
   */
  function Precheck(c: Config): (r: Result<Option<Value>, ConfigError>)
    ensures InEvaluation !in c.attrs ==> r == Failure(MissingAttribute(Declared(InEvaluation)))
    ensures r == Success(None) <==>
              InEvaluation in c.attrs && Truthy(c.attrs[InEvaluation]) &&
              EvaluationConfig in c.attrs && c.attrs[EvaluationConfig] == NoneV
    ensures (InEvaluation in c.attrs && Truthy(c.attrs[InEvaluation]) && EvaluationConfig in c.attrs &&
             c.attrs[EvaluationConfig] != NoneV) ==> r == Failure(FailedAssertion(Declared(EvaluationConfig)))
    ensures r.Success? && r.value.Some? ==>
              InEvaluation in c.attrs && !Truthy(c.attrs[InEvaluation]) &&
              EvaluationConfig in c.attrs && r.value.value == c.attrs[EvaluationConfig]
  {
    var inEvaluation :- GetAttr(c, InEvaluation);
    var settings :- GetAttr(c, EvaluationConfig);
    if Truthy(inEvaluation) then
      if settings == NoneV then Success(None) else Failure(FailedAssertion(Declared(EvaluationConfig)))
    else Success(Some(settings))
  }

  /** A config `get_evaluation_config_object` converts: not an evaluation config itself. */
  predicate Converting(c: Config)
  {
    InEvaluation in c.attrs && !Truthy(c.attrs[InEvaluation]) && EvaluationConfig in c.attrs
  }

  /** `obj.a = v` on the config object built so far. */
  function Assign(r: Result<Config, ConfigError>, a: Attr, v: Value): (r': Result<Config, ConfigError>)
    ensures r'.Success? ==> r.Success? && Get(r'.value, Declared(a)) == Some(v) &&
                            forall k | k != Declared(a) :: Get(r'.value, k) == Get(r.value, k)
    ensures r.Success? && !Frozen(r.value) && !IsReadOnlyProperty(Declared(a)) ==> r'.Success?
    ensures r'.Success? && a != IsFrozen ==> !Frozen(r.value) || GateExempt(Declared(a))
  {
    match r
    case Failure(e) => Failure(e)
    case Success(c) => OfOutcome(SetAttr(c, Declared(a), v))
  }

  /** `obj.update_from_dict(...)` on the config object built so far. */
  function Update(r: Result<Config, ConfigError>, items: seq<(DictKey, Value)>, h: Collaborators): (r': Result<Config, ConfigError>)
    ensures r'.Success? ==> r.Success? && UpdateFromDict(r.value, items, h) == Done(r'.value)
  {
    match r
    case Failure(e) => Failure(e)
    case Success(c) => OfOutcome(UpdateFromDict(c, items, h))
  }

  /** `math.ceil(x)`. */
  function Ceil(x: real): (r: int)
    ensures (r - 1) as real < x <= r as real
  {
    -((-x).Floor)
  }

  /**
   * The fragment length for a duration counted in timesteps: 10 for an "auto" duration, else the
   * duration shared out over the evaluation workers (`or 1`), rounded up.
   */
  function TimestepFragmentLength(c: Config): (r: Result<Value, ConfigError>)
    ensures EvaluationDuration in c.attrs && c.attrs[EvaluationDuration] == StrV("auto") ==> r == Success(IntV(10))
    ensures r.Success? && EvaluationDuration in c.attrs && c.attrs[EvaluationDuration] != StrV("auto") ==>
              EvaluationNumWorkers in c.attrs && r.value.IntV? &&
              var d, w := NumberOf(c.attrs[EvaluationDuration]), NumberOf(Or(c.attrs[EvaluationNumWorkers], IntV(1)));
              d.Some? && w.Some? && w.value != 0.0 && (r.value.i - 1) as real < d.value / w.value <= r.value.i as real
    ensures r.Success? ==> EvaluationDuration in c.attrs
  {
    var duration :- GetAttr(c, EvaluationDuration);
    if duration == StrV("auto") then Success(IntV(10))
    else
      var workers :- GetAttr(c, EvaluationNumWorkers);
      var w := Or(workers, IntV(1));
      if NumberOf(duration).None? then Failure(UnsupportedOperand(Declared(EvaluationDuration)))
      else if NumberOf(w).None? then Failure(UnsupportedOperand(Declared(EvaluationNumWorkers)))
      else
        assert NumberOf(w).value != 0.0 by {
          assert Truthy(w) || w == IntV(1);
        }
        Success(IntV(Ceil(NumberOf(duration).value / NumberOf(w).value)))
  }

  /** The rollout settings an evaluation config gets for the duration unit of `c`. */
  predicate RolloutsForUnit(c: Config, o: Config)
    requires EvaluationDurationUnit in c.attrs
  {
    if c.attrs[EvaluationDurationUnit] == StrV("episodes") then
      Get(o, Declared(BatchMode)) == Some(StrV("complete_episodes")) &&
      Get(o, Declared(RolloutFragmentLength)) == Some(IntV(1))
    else
      Get(o, Declared(BatchMode)) == Some(StrV("truncate_episodes")) &&
      TimestepFragmentLength(c).Success? &&
      Get(o, Declared(RolloutFragmentLength)) == Some(TimestepFragmentLength(c).value)
  }

  /**
   * The closing of `get_evaluation_config_object`: `batch_mode` and `rollout_fragment_length` of the
   * object built so far, chosen by the duration unit of the training config `c`.
   */
  function ForUnit(c: Config, r: Result<Config, ConfigError>): (r': Result<Config, ConfigError>)
    ensures r'.Success? ==> r.Success? && EvaluationDurationUnit in c.attrs && RolloutsForUnit(c, r'.value)
    ensures r'.Success? ==>
              forall k | k != Declared(BatchMode) && k != Declared(RolloutFragmentLength) :: Get(r'.value, k) == Get(r.value, k)
    ensures (r.Success? && !Frozen(r.value) && EvaluationDurationUnit in c.attrs &&
             (c.attrs[EvaluationDurationUnit] != StrV("episodes") ==> TimestepFragmentLength(c).Success?)) ==>
            r'.Success?
  {
    var o :- r;
    var unit :- GetAttr(c, EvaluationDurationUnit);
    if unit == StrV("episodes") then EpisodeRollouts(o) else TimestepRollouts(c, o)
  }

  /**
   * Unit "episodes": `batch_mode = "complete_episodes"`, `rollout_fragment_length = 1`, both
   * through the gatekeeper. The first assignment raises on a frozen object; the second cannot,
   * since the first leaves `_is_frozen` alone. `EpisodesThroughGatekeeper` relates this to `Assign`.
   */
  function EpisodeRollouts(o: Config): (r: Result<Config, ConfigError>)
    ensures r.Success? <==> !Frozen(o)
    ensures r.Success? ==>
              Get(r.value, Declared(BatchMode)) == Some(StrV("complete_episodes")) &&
              Get(r.value, Declared(RolloutFragmentLength)) == Some(IntV(1)) &&
              forall k | k != Declared(BatchMode) && k != Declared(RolloutFragmentLength) :: Get(r.value, k) == Get(o, k)
  {
    if Frozen(o) then Failure(FrozenAttribute(Declared(BatchMode)))
    else Success(o.(attrs := o.attrs[BatchMode := StrV("complete_episodes")][RolloutFragmentLength := IntV(1)]))
  }

  /**
   * Unit "timesteps": `batch_mode = "truncate_episodes"`, then the fragment length the duration
   * asks for.
   */
  function TimestepRollouts(c: Config, o: Config): (r: Result<Config, ConfigError>)
    ensures r.Success? <==> !Frozen(o) && TimestepFragmentLength(c).Success?
    ensures r.Failure? && !Frozen(o) ==> r.error == TimestepFragmentLength(c).error
    ensures r.Success? ==>
              Get(r.value, Declared(BatchMode)) == Some(StrV("truncate_episodes")) &&
              Get(r.value, Declared(RolloutFragmentLength)) == Some(TimestepFragmentLength(c).value) &&
              forall k | k != Declared(BatchMode) && k != Declared(RolloutFragmentLength) :: Get(r.value, k) == Get(o, k)
  {
    if Frozen(o) then Failure(FrozenAttribute(Declared(BatchMode)))
    else
      var length :- TimestepFragmentLength(c);
      Success(o.(attrs := o.attrs[BatchMode := StrV("truncate_episodes")][RolloutFragmentLength := length]))
  }

  /** Assigning an ordinary declared attribute through the gatekeeper, spelled out. */
  lemma AssignOrdinary(o: Config, a: Attr, v: Value)
    requires a != IsFrozen && a != SimpleOptimizer
    ensures Assign(Success(o), a, v) ==
            if Frozen(o) then Failure(FrozenAttribute(Declared(a))) else Success(o.(attrs := o.attrs[a := v]))
  {
    if !Frozen(o) {
      assert Put(o, Declared(a), v) == o.(attrs := o.attrs[a := v]);
    }
  }

  /** Storing an attribute other than `_is_frozen` leaves the frozen state as it was. */
  lemma OrdinaryKeepsFrozen(o: Config, a: Attr, v: Value)
    requires a != IsFrozen
    ensures Frozen(o.(attrs := o.attrs[a := v])) == Frozen(o)
  {
  }

  /** The "episodes" branch is the source's two gatekeeper assignments, in order. */
  lemma EpisodesThroughGatekeeper(o: Config)
    ensures EpisodeRollouts(o) ==
            Assign(Assign(Success(o), BatchMode, StrV("complete_episodes")), RolloutFragmentLength, IntV(1))
  {
    AssignOrdinary(o, BatchMode, StrV("complete_episodes"));
    if !Frozen(o) {
      var o1 := o.(attrs := o.attrs[BatchMode := StrV("complete_episodes")]);
      OrdinaryKeepsFrozen(o, BatchMode, StrV("complete_episodes"));
      AssignOrdinary(o1, RolloutFragmentLength, IntV(1));
    }
  }

  /** The "timesteps" branch is the source's gatekeeper assignments around the length computation. */
  lemma TimestepsThroughGatekeeper(c: Config, o: Config)
    ensures TimestepRollouts(c, o) ==
            (var o1 :- Assign(Success(o), BatchMode, StrV("truncate_episodes"));
             var length :- TimestepFragmentLength(c);
             Assign(Success(o1), RolloutFragmentLength, length))
  {
    AssignOrdinary(o, BatchMode, StrV("truncate_episodes"));
    if !Frozen(o) && TimestepFragmentLength(c).Success? {
      var o1 := o.(attrs := o.attrs[BatchMode := StrV("truncate_episodes")]);
      OrdinaryKeepsFrozen(o, BatchMode, StrV("truncate_episodes"));
      AssignOrdinary(o1, RolloutFragmentLength, TimestepFragmentLength(c).value);
    }
  }

  /** Two states that agree on `_is_frozen` agree on being frozen. */
  lemma SameFrozenFlag(c1: Config, c2: Config)
    requires Get(c1, Declared(IsFrozen)) == Get(c2, Declared(IsFrozen))
    ensures Frozen(c1) == Frozen(c2)
  {
  }

  /** `obj.in_evaluation = True; obj.evaluation_config = None`, both through the gatekeeper. */
  function MarkEvaluation(r: Result<Config, ConfigError>): Result<Config, ConfigError>
  {
    var o :- r;
    if Frozen(o) then Failure(FrozenAttribute(Declared(InEvaluation)))
    else Success(o.(attrs := o.attrs[InEvaluation := BoolV(true)][EvaluationConfig := NoneV]))
  }

  /** Marking is the source's two gatekeeper assignments, in order. */
  lemma MarkThroughGatekeeper(r: Result<Config, ConfigError>)
    ensures MarkEvaluation(r) == Assign(Assign(r, InEvaluation, BoolV(true)), EvaluationConfig, NoneV)
  {
    if r.Success? {
      var o := r.value;
      AssignOrdinary(o, InEvaluation, BoolV(true));
      if !Frozen(o) {
        var o1 := o.(attrs := o.attrs[InEvaluation := BoolV(true)]);
        OrdinaryKeepsFrozen(o, InEvaluation, BoolV(true));
        AssignOrdinary(o1, EvaluationConfig, NoneV);
      }
    }
  }

  /**
   * Marking completes exactly on an unfrozen object, leaves it unfrozen, and changes nothing but
   * the two attributes.
   */
  lemma MarkEvaluationSpec(r: Result<Config, ConfigError>)
    ensures MarkEvaluation(r).Success? <==> r.Success? && !Frozen(r.value)
    ensures var m := MarkEvaluation(r);
            m.Success? ==> Get(m.value, Declared(InEvaluation)) == Some(BoolV(true)) &&
                           Get(m.value, Declared(EvaluationConfig)) == Some(NoneV) && !Frozen(m.value)
    ensures var m := MarkEvaluation(r);
            m.Success? ==>
              forall k | k != Declared(InEvaluation) && k != Declared(EvaluationConfig) :: Get(m.value, k) == Get(r.value, k)
  {
    MarkedFlags(r);
    MarkedUnfrozen(r);
    MarkedFrame(r);
  }

  /** Marking sets the two attributes and leaves the object unfrozen. */
  lemma MarkedFlags(r: Result<Config, ConfigError>)
    ensures var m := MarkEvaluation(r);
            m.Success? ==> Get(m.value, Declared(InEvaluation)) == Some(BoolV(true)) &&
                           Get(m.value, Declared(EvaluationConfig)) == Some(NoneV)
  {
  }

  /** A marked object is still unfrozen. */
  lemma MarkedUnfrozen(r: Result<Config, ConfigError>)
    ensures var m := MarkEvaluation(r); m.Success? ==> !Frozen(m.value)
  {
    if r.Success? && !Frozen(r.value) {
      var o := r.value;
      var m := o.(attrs := o.attrs[InEvaluation := BoolV(true)][EvaluationConfig := NoneV]);
      assert MarkEvaluation(r) == Success(m);
      TwoStoresKeepFrozen(o, InEvaluation, BoolV(true), EvaluationConfig, NoneV);
    }
  }

  /** Storing two attributes other than `_is_frozen` leaves the frozen state as it was. */
  lemma TwoStoresKeepFrozen(o: Config, a: Attr, v: Value, b: Attr, w: Value)
    requires a != IsFrozen && b != IsFrozen
    ensures Frozen(o.(attrs := o.attrs[a := v][b := w])) == Frozen(o)
  {
    var attrs := o.attrs[a := v][b := w];
    assert (IsFrozen in attrs) == (IsFrozen in o.attrs);
    if IsFrozen in o.attrs {
      assert attrs[IsFrozen] == o.attrs[IsFrozen];
    }
  }

  /** Marking changes nothing but the two attributes. */
  lemma MarkedFrame(r: Result<Config, ConfigError>)
    ensures var m := MarkEvaluation(r);
            m.Success? ==>
              forall k | k != Declared(InEvaluation) && k != Declared(EvaluationConfig) :: Get(m.value, k) == Get(r.value, k)
  {
    if r.Success? && !Frozen(r.value) {
      TwoStoresFrame(r.value, InEvaluation, BoolV(true), EvaluationConfig, NoneV);
    }
  }


  /** Storing two declared attributes leaves every other key as it was. */
  lemma TwoStoresFrame(o: Config, a: Attr, v: Value, b: Attr, w: Value)
    ensures forall k | k != Declared(a) && k != Declared(b) :: Get(o.(attrs := o.attrs[a := v][b := w]), k) == Get(o, k)
  {
  }



  /**
   * `get_evaluation_config_object` past its opening, as written: the unfrozen copy gets
   * `in_evaluation = True` and `evaluation_config = None`, and only then the evaluation settings.
   */
  function EvaluationObjectAsWritten(c: Config, items: seq<(DictKey, Value)>, h: Collaborators): (r: Result<Config, ConfigError>)
  {
    ForUnit(c, Update(MarkEvaluation(OfOutcome(Copy(c, BoolV(false)))), items, h))
  }

  /**
   * `get_evaluation_config_object` past its opening, corrected: the evaluation settings go onto the
   * unfrozen copy first, and `in_evaluation = True`, `evaluation_config = None` after them.
   */
  function EvaluationObject(c: Config, items: seq<(DictKey, Value)>, h: Collaborators): Result<Config, ConfigError>
  {
    ForUnit(c, MarkEvaluation(UpdatedCopy(c, items, h)))
  }

  /** `self.copy(copy_frozen=False)` updated from the evaluation settings. */
  function UpdatedCopy(c: Config, items: seq<(DictKey, Value)>, h: Collaborators): Result<Config, ConfigError>
  {
    Update(OfOutcome(Copy(c, BoolV(false))), items, h)
  }

  /** The attributes `get_evaluation_config_object` assigns itself once the settings are applied. */
  predicate SetAfterUpdate(k: Key)
  {
    k == Declared(InEvaluation) || k == Declared(EvaluationConfig) ||
    k == Declared(BatchMode) || k == Declared(RolloutFragmentLength)
  }

  /**
   * `o` is the unfrozen copy of `c` updated from `items`, in everything but the attributes
   * `get_evaluation_config_object` assigns itself.
   */
  ghost predicate FromSettings(c: Config, items: seq<(DictKey, Value)>, h: Collaborators, o: Config)
  {
    UpdatedCopy(c, items, h).Success? &&
    forall k | !SetAfterUpdate(k) :: Get(o, k) == Get(UpdatedCopy(c, items, h).value, k)
  }

  /**
   * The corrected object is the updated copy with the four attributes set after it: it agrees with
   * that copy everywhere else, and it is built exactly when the update completes on an unfrozen
   * object and the duration unit's rollout settings can be computed.
   */
  lemma EvaluationObjectFromSettings(c: Config, items: seq<(DictKey, Value)>, h: Collaborators)
    ensures var r := EvaluationObject(c, items, h);
            r.Success? ==> FromSettings(c, items, h, r.value)
  {
    var u := UpdatedCopy(c, items, h);
    MarkEvaluationSpec(u);
    MarkedFrame(u);
  }

  /** When the corrected object is built. */
  lemma EvaluationObjectSucceeds(c: Config, items: seq<(DictKey, Value)>, h: Collaborators)
    ensures var u := UpdatedCopy(c, items, h);
            EvaluationObject(c, items, h).Success? <==>
              u.Success? && !Frozen(u.value) && EvaluationDurationUnit in c.attrs &&
              (c.attrs[EvaluationDurationUnit] != StrV("episodes") ==> TimestepFragmentLength(c).Success?)
  {
    var u := UpdatedCopy(c, items, h);
    MarkEvaluationSpec(u);
    MarkedUnfrozen(u);
  }

  /** A copy without frozen state keeps every attribute but `_is_frozen` and `evaluation_config`. */
  lemma CopyKeeps(c: Config, a: Attr)
    requires a != IsFrozen && a != EvaluationConfig
    ensures Copy(c, BoolV(false)).Done? ==> Get(Copy(c, BoolV(false)).config, Declared(a)) == Get(c, Declared(a))
  {
  }

  /**
   * A settings entry for an attribute that only its own entry writes, and that the method does not
   * assign itself, ends up in the corrected object.
   */
  lemma EvaluationObjectTakesEntry(c: Config, items: seq<(DictKey, Value)>, h: Collaborators, a: Attr, i: nat)
    requires OnlyOwnEntryWrites(a) && !SetAfterUpdate(Declared(a))
    requires OnlyEntryNaming(items, i, Declared(a))
    ensures var r := EvaluationObject(c, items, h);
            r.Success? ==> Get(r.value, Declared(a)) == Some(items[i].1)
  {
    EvaluationObjectFromSettings(c, items, h);
    var copied := OfOutcome(Copy(c, BoolV(false)));
    if EvaluationObject(c, items, h).Success? {
      ApplyStores(copied.value, items, map[], h, a, i);
    }
  }

  /**
   * An attribute no settings entry names keeps, in the corrected object, the value it has in the
   * training config (unless the method assigns it itself, or the copy resets it).
   */
  lemma EvaluationObjectKeepsUnnamed(c: Config, items: seq<(DictKey, Value)>, h: Collaborators, a: Attr)
    requires OnlyOwnEntryWrites(a) && !SetAfterUpdate(Declared(a)) && a != IsFrozen
    requires NotNamed(items, Declared(a))
    ensures var r := EvaluationObject(c, items, h);
            r.Success? ==> Get(r.value, Declared(a)) == Get(c, Declared(a))
  {
    EvaluationObjectFromSettings(c, items, h);
    var copied := OfOutcome(Copy(c, BoolV(false)));
    if EvaluationObject(c, items, h).Success? {
      ApplyLeaves(copied.value, items, map[], h, a);
      CopyKeeps(c, a);
    }
  }

  /**
   * The corrected object is an evaluation config whatever the settings hold: `in_evaluation` is
   * True, `evaluation_config` None, it is unfrozen, a second call recognises it, and its rollout
   * settings are those the duration unit asks for.
   */
  lemma EvaluationObjectIsEvaluationConfig(c: Config, items: seq<(DictKey, Value)>, h: Collaborators)
    ensures var r := EvaluationObject(c, items, h);
            r.Success? ==> Get(r.value, Declared(InEvaluation)) == Some(BoolV(true)) &&
                           Get(r.value, Declared(EvaluationConfig)) == Some(NoneV) &&
                           !Frozen(r.value) && Precheck(r.value) == Success(None)
    ensures var r := EvaluationObject(c, items, h);
            r.Success? ==> EvaluationDurationUnit in c.attrs && RolloutsForUnit(c, r.value)
  {
    MarkedThenUnit(c, UpdatedCopy(c, items, h));
  }

  /** Marking and then the unit settings, on any object built so far. */
  lemma MarkedThenUnit(c: Config, u: Result<Config, ConfigError>)
    ensures var r := ForUnit(c, MarkEvaluation(u));
            r.Success? ==> Get(r.value, Declared(InEvaluation)) == Some(BoolV(true)) &&
                           Get(r.value, Declared(EvaluationConfig)) == Some(NoneV) &&
                           !Frozen(r.value) && Precheck(r.value) == Success(None)
    ensures var r := ForUnit(c, MarkEvaluation(u));
            r.Success? ==> EvaluationDurationUnit in c.attrs && RolloutsForUnit(c, r.value)
  {
    MarkEvaluationSpec(u);
    if MarkEvaluation(u).Success? {
      UnitKeepsMarks(c, MarkEvaluation(u));
    }
  }

  /** The unit settings keep the marks of an evaluation config. */
  lemma UnitKeepsMarks(c: Config, m: Result<Config, ConfigError>)
    requires m.Success? && !Frozen(m.value)
    requires Get(m.value, Declared(InEvaluation)) == Some(BoolV(true))
    requires Get(m.value, Declared(EvaluationConfig)) == Some(NoneV)
    ensures var r := ForUnit(c, m);
            r.Success? ==> Get(r.value, Declared(InEvaluation)) == Some(BoolV(true)) &&
                           Get(r.value, Declared(EvaluationConfig)) == Some(NoneV) &&
                           !Frozen(r.value) && Precheck(r.value) == Success(None)
  {
    var r := ForUnit(c, m);
    if r.Success? {
      var o := r.value;
      assert Get(o, Declared(IsFrozen)) == Get(m.value, Declared(IsFrozen));
      SameFrozenFlag(o, m.value);
      assert Get(o, Declared(InEvaluation)) == Get(m.value, Declared(InEvaluation));
      assert Get(o, Declared(EvaluationConfig)) == Get(m.value, Declared(EvaluationConfig));
      Recognised(o);
    }
  }

  /** An object with `in_evaluation` True and no evaluation settings is an evaluation config. */
  lemma Recognised(o: Config)
    requires Get(o, Declared(InEvaluation)) == Some(BoolV(true))
    requires Get(o, Declared(EvaluationConfig)) == Some(NoneV)
    ensures Precheck(o) == Success(None)
  {
  }

  /**
   * `get_evaluation_config_object()`, corrected: None for a config that is itself an evaluation
   * config; otherwise an unfrozen evaluation config that a second call recognises as one, with the
   * rollout settings the duration unit asks for.
   */
  method GetEvaluationConfigObject(c: Config, h: Collaborators) returns (r: Result<Option<Config>, ConfigError>)
    ensures InEvaluation !in c.attrs ==> r == Failure(MissingAttribute(Declared(InEvaluation)))
    ensures r == Success(None) <==>
              InEvaluation in c.attrs && Truthy(c.attrs[InEvaluation]) &&
              EvaluationConfig in c.attrs && c.attrs[EvaluationConfig] == NoneV
    ensures r.Success? && r.value.Some? ==>
              InEvaluation in c.attrs && !Truthy(c.attrs[InEvaluation]) &&
              Get(r.value.value, Declared(InEvaluation)) == Some(BoolV(true)) &&
              Get(r.value.value, Declared(EvaluationConfig)) == Some(NoneV) &&
              !Frozen(r.value.value) &&
              EvaluationDurationUnit in c.attrs && RolloutsForUnit(c, r.value.value)
    ensures r.Success? && r.value.Some? ==>
              EvaluationConfig in c.attrs &&
              exists items | SettingsListing(c.attrs[EvaluationConfig], items) ::
                EvaluationObject(c, items, h) == Success(r.value.value) && FromSettings(c, items, h, r.value.value)
    ensures Converting(c) && SettingsRefused(c.attrs[EvaluationConfig]) ==> r.Failure?
    ensures Converting(c) && r.Failure? && !SettingsRefused(c.attrs[EvaluationConfig]) ==>
              exists items | SettingsListing(c.attrs[EvaluationConfig], items) :: EvaluationObject(c, items, h) == Failure(r.error)
    ensures Converting(c) && !SettingsRefused(c.attrs[EvaluationConfig]) &&
            (forall items | SettingsListing(c.attrs[EvaluationConfig], items) :: EvaluationObject(c, items, h).Success?) ==>
              r.Success? && r.value.Some?
  {
    var pre := Precheck(c);
    if pre.Failure? {
      return Failure(pre.error);
    }
    if pre.value.None? {
      return Success(None);
    }
    var items := Settings(pre.value.value);
    if items.Failure? {
      return Failure(items.error);
    }
    var o := EvaluationObject(c, items.value, h);
    if o.Failure? {
      return Failure(o.error);
    }
    EvaluationObjectIsEvaluationConfig(c, items.value, h);
    EvaluationObjectFromSettings(c, items.value, h);
    return Success(Some(o.value));
  }

  /**
   * `get_evaluation_config_object()` as written. When the evaluation settings are an AlgorithmConfig
   * `e`, its `to_dict()` carries `in_evaluation`, and the returned object ends up with `e`'s flag
   * instead of True.
   */
  method GetEvaluationConfigObjectAsWritten(c: Config, h: Collaborators) returns (r: Result<Option<Config>, ConfigError>)
    ensures InEvaluation !in c.attrs ==> r == Failure(MissingAttribute(Declared(InEvaluation)))
    ensures r == Success(None) <==>
              InEvaluation in c.attrs && Truthy(c.attrs[InEvaluation]) &&
              EvaluationConfig in c.attrs && c.attrs[EvaluationConfig] == NoneV
    ensures r.Success? && r.value.Some? ==>
              InEvaluation in c.attrs && !Truthy(c.attrs[InEvaluation]) &&
              !Frozen(r.value.value) && EvaluationDurationUnit in c.attrs && RolloutsForUnit(c, r.value.value)
    ensures r.Success? && r.value.Some? && EvalConfigOf(c).Some? && InEvaluation in EvalConfigOf(c).value.attrs ==>
              Get(r.value.value, Declared(InEvaluation)) == Some(EvalConfigOf(c).value.attrs[InEvaluation])
    ensures r.Success? && r.value.Some? ==>
              EvaluationConfig in c.attrs &&
              exists items | SettingsListing(c.attrs[EvaluationConfig], items) ::
                EvaluationObjectAsWritten(c, items, h) == Success(r.value.value)
    ensures Converting(c) && SettingsRefused(c.attrs[EvaluationConfig]) ==> r.Failure?
    ensures Converting(c) && r.Failure? && !SettingsRefused(c.attrs[EvaluationConfig]) ==>
              exists items | SettingsListing(c.attrs[EvaluationConfig], items) ::
                EvaluationObjectAsWritten(c, items, h) == Failure(r.error)
    ensures Converting(c) && !SettingsRefused(c.attrs[EvaluationConfig]) &&
            (forall items | SettingsListing(c.attrs[EvaluationConfig], items) :: EvaluationObjectAsWritten(c, items, h).Success?) ==>
              r.Success? && r.value.Some?
  {
    var pre := Precheck(c);
    if pre.Failure? {
      return Failure(pre.error);
    }
    if pre.value.None? {
      return Success(None);
    }
    var items := Settings(pre.value.value);
    if items.Failure? {
      return Failure(items.error);
    }
    var o := EvaluationObjectAsWritten(c, items.value, h);
    if o.Failure? {
      return Failure(o.error);
    }
    if EvalConfigOf(c).Some? && InEvaluation in EvalConfigOf(c).value.attrs {
      AsWrittenTakesFlagFromSettings(c, EvalConfigOf(c).value, items.value, h);
    }
    AsWrittenUnitSettings(c, items.value, h);
    return Success(Some(o.value));
  }

  /** Only an entry naming `in_evaluation` writes it: no setter `update_from_dict` calls targets it. */
  lemma InEvaluationOnlyOwnEntry()
    ensures OnlyOwnEntryWrites(InEvaluation)
  {
    FlagNotDeferred();
  }

  /** The key of a dict entry names `in_evaluation` only when it is that attribute's own name. */
  lemma OnlyOwnNameIsInEvaluation(d: DictKey)
    ensures TranslateKey(d, false).value == Declared(InEvaluation) <==> d == AttrKey(InEvaluation)
  {
    if d.LegacyKey? {
      assert LegacyTarget(d.legacy) != Declared(InEvaluation);
    }
  }

  /** "in_evaluation" does not start with "evaluation_". */
  lemma FlagNotDeferred()
    ensures !Deferred(Declared(InEvaluation))
  {
    var name := KeyName(Declared(InEvaluation));
    assert name == "in_evaluation";
    assert name[0] != "evaluation_"[0];
  }

  /**
   * As written, the settings of an AlgorithmConfig `e` decide `in_evaluation`: a completed call
   * leaves `e`'s flag in the result, not the True set before the update.
   */
  lemma AsWrittenTakesFlagFromSettings(c: Config, e: Config, items: seq<(DictKey, Value)>, h: Collaborators)
    requires ToDict(e).Success? && Lists(items, ToDict(e).value) && InEvaluation in e.attrs
    ensures EvaluationObjectAsWritten(c, items, h).Success? ==>
              Get(EvaluationObjectAsWritten(c, items, h).value, Declared(InEvaluation)) == Some(e.attrs[InEvaluation])
  {
    FlagExported(e);
    AsWrittenTakesListedFlag(c, items, ToDict(e).value, h);
  }

  /** `to_dict()` writes `in_evaluation` under its own name. */
  lemma FlagExported(e: Config)
    requires ToDict(e).Success? && InEvaluation in e.attrs
    ensures AttrKey(InEvaluation) in ToDict(e).value && ToDict(e).value[AttrKey(InEvaluation)] == e.attrs[InEvaluation]
  {
    FlagNotMultiagent();
    FlagNotDropped();
    assert Exported(e, InEvaluation);
    FlagKey();
    ToDictKeepsAttr(e, InEvaluation);
  }

  /** `in_evaluation` is not one of the multi-agent settings `to_dict` nests. */
  lemma FlagNotMultiagent()
    ensures InEvaluation !in MultiagentAttrs
  {
  }

  /** `in_evaluation` is not one of the deprecated settings `to_dict` may drop. */
  lemma FlagNotDropped()
    ensures !DroppedWhenDeprecated(InEvaluation)
  {
  }

  /** `in_evaluation` is exported under its own name. */
  lemma FlagKey()
    ensures ExportKey(Declared(InEvaluation)) == AttrKey(InEvaluation)
  {
  }

  /** As written, the listed `in_evaluation` entry ends up in the result. */
  lemma AsWrittenTakesListedFlag(c: Config, items: seq<(DictKey, Value)>, m: map<DictKey, Value>, h: Collaborators)
    requires Lists(items, m) && AttrKey(InEvaluation) in m
    ensures EvaluationObjectAsWritten(c, items, h).Success? ==>
              Get(EvaluationObjectAsWritten(c, items, h).value, Declared(InEvaluation)) == Some(m[AttrKey(InEvaluation)])
  {
    var i := IndexOf(items, m, AttrKey(InEvaluation));
    InEvaluationOnlyOwnEntry();
    forall j | 0 <= j < |items|
      ensures TranslateKey(items[j].0, false).value == Declared(InEvaluation) <==> j == i
    {
      OnlyOwnNameIsInEvaluation(items[j].0);
    }
    AsWrittenTakesEntry(c, items, h, InEvaluation, i);
  }

  /** The one position at which a listing holds the key `d`. */
  lemma IndexOf(items: seq<(DictKey, Value)>, m: map<DictKey, Value>, d: DictKey) returns (i: nat)
    requires Lists(items, m) && d in m
    ensures i < |items| && items[i] == (d, m[d])
    ensures forall j | 0 <= j < |items| && j != i :: items[j].0 != d
  {
    KeyHasIndex(items, d);
    i :| 0 <= i < |items| && items[i].0 == d;
    forall j | 0 <= j < |items| && j != i
      ensures items[j].0 != d
    {
      if j < i {
        assert items[j].0 != items[i].0;
      } else {
        assert items[i].0 != items[j].0;
      }
    }
  }

  /**
   * As written, the settings decide every attribute that only its own entry writes, the two marks
   * included: when exactly one entry names it, a completed call leaves that entry's value.
   */
  lemma AsWrittenTakesEntry(c: Config, items: seq<(DictKey, Value)>, h: Collaborators, a: Attr, i: nat)
    requires OnlyOwnEntryWrites(a) && a != BatchMode && a != RolloutFragmentLength
    requires OnlyEntryNaming(items, i, Declared(a))
    ensures var r := EvaluationObjectAsWritten(c, items, h);
            r.Success? ==> Get(r.value, Declared(a)) == Some(items[i].1)
  {
    var marked := MarkEvaluation(OfOutcome(Copy(c, BoolV(false))));
    var updated := Update(marked, items, h);
    if ForUnit(c, updated).Success? {
      ApplyStores(marked.value, items, map[], h, a, i);
      assert Get(updated.value, Declared(a)) == Some(items[i].1);
    }
  }

  /**
   * As written, an attribute no settings entry names keeps the training config's value, as in the
   * corrected object.
   */
  lemma AsWrittenKeepsUnnamed(c: Config, items: seq<(DictKey, Value)>, h: Collaborators, a: Attr)
    requires OnlyOwnEntryWrites(a) && !SetAfterUpdate(Declared(a)) && a != IsFrozen
    requires NotNamed(items, Declared(a))
    ensures var r := EvaluationObjectAsWritten(c, items, h);
            r.Success? ==> Get(r.value, Declared(a)) == Get(c, Declared(a))
  {
    var copied := OfOutcome(Copy(c, BoolV(false)));
    var marked := MarkEvaluation(copied);
    if EvaluationObjectAsWritten(c, items, h).Success? {
      MarkedFrame(copied);
      ApplyLeaves(marked.value, items, map[], h, a);
      CopyKeeps(c, a);
    }
  }

  /** As written too, a built object is unfrozen and has the rollout settings of the duration unit. */
  lemma AsWrittenUnitSettings(c: Config, items: seq<(DictKey, Value)>, h: Collaborators)
    ensures var r := EvaluationObjectAsWritten(c, items, h);
            r.Success? ==> !Frozen(r.value) && EvaluationDurationUnit in c.attrs && RolloutsForUnit(c, r.value)
  {
    UnitUnfrozen(c, Update(MarkEvaluation(OfOutcome(Copy(c, BoolV(false)))), items, h));
  }

  /** The unit settings complete only on an unfrozen object, and leave it unfrozen. */
  lemma UnitUnfrozen(c: Config, u: Result<Config, ConfigError>)
    ensures ForUnit(c, u).Success? ==> !Frozen(u.value) && !Frozen(ForUnit(c, u).value)
  {
    if ForUnit(c, u).Success? {
      var o := ForUnit(c, u).value;
      assert !Frozen(u.value);
      assert Get(o, Declared(IsFrozen)) == Get(u.value, Declared(IsFrozen));
      SameFrozenFlag(o, u.value);
    }
  }

  /**
   * As written, evaluation settings given as a fresh AlgorithmConfig yield an object that is not an
   * evaluation config: a second call does not return None.
   */
  lemma AsWrittenNotRecognised(c: Config, e: Config, items: seq<(DictKey, Value)>, h: Collaborators)
    requires ToDict(e).Success? && Lists(items, ToDict(e).value)
    requires InEvaluation in e.attrs && e.attrs[InEvaluation] == BoolV(false)
    requires EvaluationObjectAsWritten(c, items, h).Success?
    ensures Precheck(EvaluationObjectAsWritten(c, items, h).value) != Success(None)
  {
    AsWrittenTakesFlagFromSettings(c, e, items, h);
  }
}
