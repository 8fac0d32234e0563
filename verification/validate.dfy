/**
 * `AlgorithmConfig.validate()`: the cross-field checks that run once a config is complete, and the
 * two adjustments it makes on the way (flags propagated into the model dict, `simple_optimizer`
 * resolved from its placeholder).
 *
 * Importing TensorFlow or torch and checking their versions is not modelled: a supported framework
 * is taken to be installed.
 */
module Validation {
  import opened Wrappers
  import opened Attributes
  import opened PyObjects
  import opened ConfigObject
  import opened Defaults
  import opened SetterEngine

  /** The attributes `validate()` reads. */
  predicate Readable(c: Config)
  {
    FrameworkStr in c.attrs && PoliciesToTrain in c.attrs && Policies in c.attrs &&
    EvaluationNumWorkers in c.attrs && EvaluationInterval in c.attrs &&
    EvaluationParallelToTraining in c.attrs && EvaluationDuration in c.attrs &&
    DisablePreprocessorApi in c.attrs && DisableActionFlattening in c.attrs && Model in c.attrs &&
    SimpleOptimizer in c.attrs && NumGpus in c.attrs && IsMultiAgent in c.attrs
  }

  /** `hash(v)` succeeds: lists, sets and dicts (and tuples holding one) are unhashable. */
  predicate Hashable(v: Value)
  {
    match v
    case ListV(_) => false
    case SetV(_) => false
    case DictV(_) => false
    case TupleV(items) => forall i | 0 <= i < |items| :: Hashable(items[i])
    case _ => true
  }

  /** The frameworks `validate()` goes on to check; for any other it returns at once. */
  predicate Supported(fw: Value)
  {
    fw == StrV("tf") || fw == StrV("tf2") || fw == StrV("torch")
  }

  // ---------------------------------------------------------------------------------------------
  // policies_to_train
  // ---------------------------------------------------------------------------------------------

  /**
   * `pid in policies`: whether the policy is defined, or the TypeError of a membership test that
   * Python refuses (an unhashable id looked up in a set or dict, a non-str id in a str, a
   * container that is none of these).
   */
  function Membership(policies: Value, pid: Value): (r: Result<bool, ConfigError>)
    ensures r.Success? ==> Contains(policies, pid) == Some(r.value)
    ensures Contains(policies, pid).None? ==> r.Failure?
  {
    if (policies.SetV? || policies.DictV?) && !Hashable(pid) then Failure(Unhashable(Declared(PoliciesToTrain)))
    else
      match Contains(policies, pid)
      case None =>
        if policies.StrV? then Failure(UnsupportedOperand(Declared(PoliciesToTrain)))
        else Failure(NotIterable(Declared(Policies)))
      case Some(b) => Success(b)
  }

  /** The exception the loop raises at `pid`, when it raises one there. */
  function ProblemAt(policies: Value, pid: Value): ConfigError
  {
    match Membership(policies, pid)
    case Failure(e) => e
    case Success(_) => UnknownPolicyToTrain(pid)
  }

  /** Every id in `pids` is a defined policy. */
  predicate AllKnown(pids: seq<Value>, policies: Value)
  {
    forall i | 0 <= i < |pids| :: Membership(policies, pids[i]) == Success(true)
  }

  /** The loop over `policies_to_train` in iteration order `pids`: the first exception, if any. */
  function FirstProblem(pids: seq<Value>, policies: Value): (r: Result<(), ConfigError>)
    ensures r.Success? <==> AllKnown(pids, policies)
  {
    if pids == [] then Success(())
    else
      match Membership(policies, pids[0])
      case Failure(e) => Failure(e)
      case Success(known) =>
        if !known then Failure(UnknownPolicyToTrain(pids[0]))
        else
          var r := FirstProblem(pids[1..], policies);
          assert AllKnown(pids, policies) <==> AllKnown(pids[1..], policies) by {
            if AllKnown(pids[1..], policies) {
              forall i | 0 <= i < |pids| ensures Membership(policies, pids[i]) == Success(true) {
                if i > 0 { assert pids[i] == pids[1..][i - 1]; }
              }
            }
          }
          r
  }

  /**
   * The loop stops at the first id that is not a defined policy: every id before it is one, and
   * the exception is the one that id causes.
   */
  lemma {:induction false} FirstProblemIsFirst(pids: seq<Value>, policies: Value) returns (i: nat)
    requires FirstProblem(pids, policies).Failure?
    ensures i < |pids| && Membership(policies, pids[i]) != Success(true) && AllKnown(pids[..i], policies)
    ensures FirstProblem(pids, policies).error == ProblemAt(policies, pids[i])
  {
    if Membership(policies, pids[0]) != Success(true) {
      i := 0;
      assert pids[..0] == [];
    } else {
      var j := FirstProblemIsFirst(pids[1..], policies);
      i := j + 1;
      KnownPrefix(pids, policies, j);
    }
  }

  /** A known first id followed by known ids makes a known prefix. */
  lemma KnownPrefix(pids: seq<Value>, policies: Value, j: nat)
    requires j < |pids| - 1 && Membership(policies, pids[0]) == Success(true) && AllKnown(pids[1..][..j], policies)
    ensures AllKnown(pids[..j + 1], policies)
  {
    var prefix := pids[..j + 1];
    forall k | 0 <= k < |prefix| ensures Membership(policies, prefix[k]) == Success(true) {
      if k > 0 { assert prefix[k] == pids[1..][..j][k - 1]; }
    }
  }

  /** The ids `for pid in policies_to_train` visits; None when the value is not a list, set or tuple. */
  function TrainedIds(v: Value): (r: Option<set<Value>>)
  {
    match v
    case ListV(items) => Some(set i | 0 <= i < |items| :: items[i])
    case TupleV(items) => Some(set i | 0 <= i < |items| :: items[i])
    case SetV(elems) => Some(elems)
    case _ => None
  }

  /** Every id `policies_to_train` lists is a defined policy. */
  predicate PoliciesToTrainKnown(c: Config)
    requires Readable(c)
  {
    var ids := TrainedIds(c.attrs[PoliciesToTrain]);
    ids.Some? ==> forall pid | pid in ids.value :: Membership(c.attrs[Policies], pid) == Success(true)
  }

  /** The elements of a set in some order, each once: the iteration order of a Python set. */
  method Enumerate(s: set<Value>) returns (xs: seq<Value>)
    ensures forall i | 0 <= i < |xs| :: xs[i] in s
    ensures forall x | x in s :: x in xs
    ensures |xs| == |s|
  {
    xs := [];
    var rest := s;
    while rest != {}
      invariant rest <= s
      invariant forall i | 0 <= i < |xs| :: xs[i] in s - rest
      invariant forall x | x in s - rest :: x in xs
      invariant |xs| + |rest| == |s|
      decreases rest
    {
      var x :| x in rest;
      xs := xs + [x];
      rest := rest - {x};
    }
  }

  /**
   * The `policies_to_train` check of `validate()`. `policies` is read inside the loop, so an empty
   * list never reads it.
   */
  method CheckPoliciesToTrain(c: Config) returns (r: Result<(), ConfigError>)
    ensures Readable(c) ==> (r.Success? <==> PoliciesToTrainKnown(c))
    ensures r.Failure? ==> r.error != BetaMustBeZero
    ensures r.Failure? && r.error.UnknownPolicyToTrain? ==>
              PoliciesToTrain in c.attrs && Policies in c.attrs &&
              TrainedIds(c.attrs[PoliciesToTrain]).Some? && r.error.pid in TrainedIds(c.attrs[PoliciesToTrain]).value &&
              Membership(c.attrs[Policies], r.error.pid) == Success(false)
    ensures r.Failure? && PoliciesToTrain in c.attrs && c.attrs[PoliciesToTrain].ListV? && Policies in c.attrs ==>
              var items := c.attrs[PoliciesToTrain].items;
              exists i | 0 <= i < |items| :: AllKnown(items[..i], c.attrs[Policies]) && r.error == ProblemAt(c.attrs[Policies], items[i])
  {
    var ptt := GetAttr(c, PoliciesToTrain);
    if ptt.Failure? {
      return Failure(ptt.error);
    }
    var order: seq<Value>;
    match ptt.value {
      case ListV(items) => order := items;
      case TupleV(items) => order := items;
      case SetV(elems) => order := Enumerate(elems);
      case _ => return Success(());
    }
    assert forall pid | pid in TrainedIds(ptt.value).value :: pid in order;
    if order == [] {
      return Success(());
    }
    var policies := GetAttr(c, Policies);
    if policies.Failure? {
      return Failure(policies.error);
    }
    r := FirstProblem(order, policies.value);
    if r.Failure? {
      var i := FirstProblemIsFirst(order, policies.value);
      assert AllKnown(order[..i], policies.value) && r.error == ProblemAt(policies.value, order[i]);
    }
  }

  // ---------------------------------------------------------------------------------------------
  // evaluation settings
  // ---------------------------------------------------------------------------------------------

  /**
   * The evaluation settings agree with each other: a numeric worker count, at least one worker for
   * evaluation in parallel to training, an "auto" duration only in parallel, and otherwise a
   * duration that is a positive int.
   */
  predicate EvaluationValid(c: Config)
    requires Readable(c)
  {
    var w, p, d := c.attrs[EvaluationNumWorkers], c.attrs[EvaluationParallelToTraining], c.attrs[EvaluationDuration];
    NumberOf(w).Some? &&
    !(PyEq(w, IntV(0)) && Truthy(p)) &&
    (d == StrV("auto") ==> Truthy(p)) &&
    (d != StrV("auto") ==> IsInt(d) && NumberOf(d).value > 0.0)
  }

  /** The worker-count check: a warning for workers without an interval, an error for none in parallel. */
  function CheckWorkers(c: Config): (r: Result<(), ConfigError>)
    ensures EvaluationNumWorkers !in c.attrs ==> r == Failure(MissingAttribute(Declared(EvaluationNumWorkers)))
    ensures Readable(c) ==>
              (r.Success? <==> NumberOf(c.attrs[EvaluationNumWorkers]).Some? &&
                               !(PyEq(c.attrs[EvaluationNumWorkers], IntV(0)) && Truthy(c.attrs[EvaluationParallelToTraining])))
    ensures Readable(c) && PyEq(c.attrs[EvaluationNumWorkers], IntV(0)) && Truthy(c.attrs[EvaluationParallelToTraining]) ==>
              r == Failure(ParallelEvaluationWithoutWorkers)
    ensures Readable(c) && NumberOf(c.attrs[EvaluationNumWorkers]).None? ==>
              r == Failure(UnsupportedOperand(Declared(EvaluationNumWorkers)))
  {
    var workers :- GetAttr(c, EvaluationNumWorkers);
    var sign := Compare(workers, IntV(0));
    if sign.None? then Failure(UnsupportedOperand(Declared(EvaluationNumWorkers)))
    else if sign.value > 0 then
      var interval :- GetAttr(c, EvaluationInterval);
      Success(())
    else if PyEq(workers, IntV(0)) then
      var parallel :- GetAttr(c, EvaluationParallelToTraining);
      if Truthy(parallel) then Failure(ParallelEvaluationWithoutWorkers) else Success(())
    else Success(())
  }

  /** The duration check: "auto" needs evaluation in parallel, anything else must be an int > 0. */
  function CheckDuration(c: Config): (r: Result<(), ConfigError>)
    ensures Readable(c) ==>
              (r.Success? <==> var d := c.attrs[EvaluationDuration];
                               (d == StrV("auto") ==> Truthy(c.attrs[EvaluationParallelToTraining])) &&
                               (d != StrV("auto") ==> IsInt(d) && NumberOf(d).value > 0.0))
    ensures Readable(c) && c.attrs[EvaluationDuration] == StrV("auto") && !Truthy(c.attrs[EvaluationParallelToTraining]) ==>
              r == Failure(AutoDurationWithoutParallel)
    ensures Readable(c) && c.attrs[EvaluationDuration] != StrV("auto") &&
            !(IsInt(c.attrs[EvaluationDuration]) && NumberOf(c.attrs[EvaluationDuration]).value > 0.0) ==>
              r == Failure(InvalidEvaluationDuration)
  {
    var duration :- GetAttr(c, EvaluationDuration);
    if PyEq(duration, StrV("auto")) then
      var parallel :- GetAttr(c, EvaluationParallelToTraining);
      if !Truthy(parallel) then Failure(AutoDurationWithoutParallel) else Success(())
    else if !IsInt(duration) || NumberOf(duration).value <= 0.0 then Failure(InvalidEvaluationDuration)
    else Success(())
  }

  /** Both evaluation checks, workers first. */
  function CheckEvaluation(c: Config): (r: Result<(), ConfigError>)
    ensures Readable(c) ==> (r.Success? <==> EvaluationValid(c))
    ensures r.Failure? ==> !r.error.UnknownPolicyToTrain? && r.error != BetaMustBeZero
    ensures Readable(c) && PyEq(c.attrs[EvaluationNumWorkers], IntV(0)) && Truthy(c.attrs[EvaluationParallelToTraining]) ==>
              r == Failure(ParallelEvaluationWithoutWorkers)
    ensures Readable(c) && NumberOf(c.attrs[EvaluationNumWorkers]).Some? &&
            !(PyEq(c.attrs[EvaluationNumWorkers], IntV(0)) && Truthy(c.attrs[EvaluationParallelToTraining])) ==>
              r == CheckDuration(c)
  {
    var _ :- CheckWorkers(c);
    CheckDuration(c)
  }

  // ---------------------------------------------------------------------------------------------
  // model flags
  // ---------------------------------------------------------------------------------------------

  /** The model dict of `c` holds True under `key`. */
  predicate ModelHolds(c: Config, key: string)
  {
    Model in c.attrs && c.attrs[Model].DictV? && Lookup(c.attrs[Model].entries, StrV(key)) == Some(BoolV(true))
  }

  /**
   * `if self.<flag> is True: self.model[key] = True`. The dict is changed in place, so the
   * gatekeeper is not involved; a model that is not a dict raises.
   */
  function MarkModel(c: Config, flag: Attr, key: string): (r: Result<Config, ConfigError>)
    requires flag != Model
    ensures r.Failure? ==> r.error.NotADict? || r.error.MissingAttribute?
    ensures r.Success? ==> r.value.dynamic == c.dynamic &&
                           forall a | a != Model :: Get(r.value, Declared(a)) == Get(c, Declared(a))
    ensures r.Success? && flag in c.attrs && c.attrs[flag] == BoolV(true) ==>
              ModelHolds(r.value, key) && Model in c.attrs && c.attrs[Model].DictV?
    ensures flag in c.attrs && c.attrs[flag] != BoolV(true) ==> r == Success(c)
    ensures flag in c.attrs && Model in c.attrs ==>
              (r.Success? <==> (c.attrs[flag] == BoolV(true) ==> c.attrs[Model].DictV?))
  {
    var set_ :- GetAttr(c, flag);
    if set_ != BoolV(true) then Success(c)
    else
      var model :- GetAttr(c, Model);
      if !model.DictV? then Failure(NotADict(Declared(Model)))
      else Success(Put(c, Declared(Model), DictV(DictSet(model.entries, StrV(key), BoolV(true)))))
  }

  /** Writing one flag into the model dict leaves every other key of it as it was. */
  lemma MarkModelKeepsOtherKeys(c: Config, flag: Attr, key: string, k: Value)
    requires flag != Model && !PyEq(k, StrV(key))
    requires MarkModel(c, flag, key).Success? && Model in c.attrs && c.attrs[Model].DictV?
    ensures var c' := MarkModel(c, flag, key).value;
            Model in c'.attrs && c'.attrs[Model].DictV? &&
            Lookup(c'.attrs[Model].entries, k) == Lookup(c.attrs[Model].entries, k)
  {
  }

  /** A flag set to True finds a dict to write into. */
  predicate ModelFlagsApplicable(c: Config)
    requires Readable(c)
  {
    (c.attrs[DisablePreprocessorApi] == BoolV(true) || c.attrs[DisableActionFlattening] == BoolV(true)) ==>
      c.attrs[Model].DictV?
  }

  // ---------------------------------------------------------------------------------------------
  // simple_optimizer
  // ---------------------------------------------------------------------------------------------

  /** `self.simple_optimizer = v`, through the gatekeeper, which always lets it through. */
  function StoreSimpleOptimizer(c: Config, v: Value): (r: Result<Config, ConfigError>)
    ensures r.Success? && Get(r.value, Declared(SimpleOptimizer)) == Some(v) && r.value.dynamic == c.dynamic
    ensures forall k | k != Declared(SimpleOptimizer) :: Get(r.value, k) == Get(c, k)
  {
    OfOutcome(SetAttr(c, Declared(SimpleOptimizer), v))
  }

  /**
   * `simple_optimizer` and `num_gpus` allow the framework. `className` is `type(self).__name__`,
   * the name of the config's own class, which the tf2 check compares with "AlphaStar".
   */
  predicate SimpleOptimizerAllowed(c: Config, className: string, h: Collaborators)
    requires Readable(c)
  {
    var so, gpus, fw := c.attrs[SimpleOptimizer], c.attrs[NumGpus], c.attrs[FrameworkStr];
    so == BoolV(true) ||
    (NumberOf(gpus).Some? &&
     (NumberOf(gpus).value > 1.0 ==> !(fw == StrV("tf2") && className != "AlphaStar")) &&
     (NumberOf(gpus).value <= 1.0 && so == BoolV(false) ==> fw != StrV("tf2")) &&
     (NumberOf(gpus).value <= 1.0 && AsksPolicyClasses(c) ==> MultiGpuQueryAnswers(c, h)))
  }

  /**
   * The placeholder is resolved for a multi-agent tf or torch config by asking the policy classes,
   * which starts with `algo_class.get_default_policy_class`.
   */
  predicate AsksPolicyClasses(c: Config)
    requires Readable(c)
  {
    var fw := c.attrs[FrameworkStr];
    PyEq(c.attrs[SimpleOptimizer], DEPRECATED_VALUE) && (PyEq(fw, StrV("tf")) || PyEq(fw, StrV("torch"))) &&
    Truthy(c.attrs[IsMultiAgent])
  }

  /** `algo_class` is set and not None, and the multi-GPU query on the policy classes answers. */
  predicate MultiGpuQueryAnswers(c: Config, h: Collaborators)
    requires Readable(c)
  {
    AlgoClass in c.attrs && c.attrs[AlgoClass] != NoneV &&
    h.multiGpuCapable(c.attrs[AlgoClass], c.attrs[Policies], c.attrs[FrameworkStr]).Some?
  }

  /**
   * The `simple_optimizer` part of `validate()`: with more than one GPU it must be off (and tf2 is
   * refused, except for AlphaStar); the placeholder DEPRECATED_VALUE is resolved (on for a framework
   * other than tf or torch, for multi-agent setups on unless every policy supports the multi-GPU
   * path, off otherwise); an explicit False is refused for tf2.
   */
  function ResolveSimpleOptimizer(c: Config, className: string, h: Collaborators): (r: Result<Config, ConfigError>)
    ensures r.Success? ==> r.value.dynamic == c.dynamic && forall k | k != Declared(SimpleOptimizer) :: Get(r.value, k) == Get(c, k)
    ensures r.Failure? ==> !r.error.UnknownPolicyToTrain? && r.error != BetaMustBeZero
    ensures Readable(c) ==> (r.Success? <==> SimpleOptimizerAllowed(c, className, h))
    ensures Readable(c) && r.Failure? ==>
              (r.error == MultiGpuUnsupportedFramework <==> NumberOf(c.attrs[NumGpus]).Some? && NumberOf(c.attrs[NumGpus]).value > 1.0) &&
              (r.error == SimpleOptimizerRequired <==>
                 NumberOf(c.attrs[NumGpus]).Some? && NumberOf(c.attrs[NumGpus]).value <= 1.0 && c.attrs[SimpleOptimizer] == BoolV(false))
    ensures Readable(c) && NumberOf(c.attrs[NumGpus]).Some? && NumberOf(c.attrs[NumGpus]).value <= 1.0 && AsksPolicyClasses(c) &&
            AlgoClass in c.attrs && c.attrs[AlgoClass] == NoneV ==>
              r == Failure(NoneAttribute(Declared(AlgoClass)))
  {
    var so :- GetAttr(c, SimpleOptimizer);
    if so == BoolV(true) then Success(c)
    else
      var gpus :- GetAttr(c, NumGpus);
      var sign := Compare(gpus, IntV(1));
      if sign.None? then Failure(UnsupportedOperand(Declared(NumGpus)))
      else if sign.value > 0 then
        var fw :- GetAttr(c, FrameworkStr);
        if fw == StrV("tf2") && className != "AlphaStar" then Failure(MultiGpuUnsupportedFramework)
        else StoreSimpleOptimizer(c, BoolV(false))
      else if PyEq(so, DEPRECATED_VALUE) then
        var fw :- GetAttr(c, FrameworkStr);
        if !PyEq(fw, StrV("tf")) && !PyEq(fw, StrV("torch")) then StoreSimpleOptimizer(c, BoolV(true))
        else
          var multi :- GetAttr(c, IsMultiAgent);
          if Truthy(multi) then
            var algo :- GetAttr(c, AlgoClass);
            if algo == NoneV then Failure(NoneAttribute(Declared(AlgoClass)))
            else
              var policies :- GetAttr(c, Policies);
              match h.multiGpuCapable(algo, policies, fw)
              case None => Failure(CollaboratorError(Declared(AlgoClass)))
              case Some(capable) => StoreSimpleOptimizer(c, BoolV(!capable))
          else StoreSimpleOptimizer(c, BoolV(false))
      else if so == BoolV(false) then
        var fw :- GetAttr(c, FrameworkStr);
        if fw == StrV("tf2") then Failure(SimpleOptimizerRequired) else Success(c)
      else Success(c)
  }

  /**
   * After a completed resolution `simple_optimizer` is never the placeholder: it is off with more
   * than one GPU, on for a framework other than tf and torch, and a bool in every case the
   * placeholder was there; any other value the user set stays.
   */
  lemma SimpleOptimizerResolved(c: Config, className: string, h: Collaborators)
    requires Readable(c)
    requires ResolveSimpleOptimizer(c, className, h).Success?
    ensures var so, so' := c.attrs[SimpleOptimizer], ResolveSimpleOptimizer(c, className, h).value.attrs[SimpleOptimizer];
            var gpus := NumberOf(c.attrs[NumGpus]);
            SimpleOptimizer in ResolveSimpleOptimizer(c, className, h).value.attrs &&
            (so == BoolV(true) ==> so' == so) &&
            (so != BoolV(true) && gpus.value > 1.0 ==> so' == BoolV(false)) &&
            (PyEq(so, DEPRECATED_VALUE) ==> so'.BoolV?) &&
            (PyEq(so, DEPRECATED_VALUE) && gpus.value <= 1.0 && !Supported(c.attrs[FrameworkStr]) ==> so' == BoolV(true)) &&
            (PyEq(so, DEPRECATED_VALUE) && gpus.value <= 1.0 && c.attrs[FrameworkStr] == StrV("tf2") ==> so' == BoolV(true)) &&
            (!PyEq(so, DEPRECATED_VALUE) && (so == BoolV(true) || gpus.value <= 1.0) ==> so' == so)
  {
    var r := ResolveSimpleOptimizer(c, className, h);
    assert Get(r.value, Declared(SimpleOptimizer)).Some?;
  }

  // ---------------------------------------------------------------------------------------------
  // validate()
  // ---------------------------------------------------------------------------------------------

  /** Every check of `validate()` passes for `c`. */
  predicate Passes(c: Config, className: string, h: Collaborators)
    requires Readable(c)
  {
    var fw := c.attrs[FrameworkStr];
    Hashable(fw) &&
    (Supported(fw) ==>
      PoliciesToTrainKnown(c) && EvaluationValid(c) && ModelFlagsApplicable(c) && SimpleOptimizerAllowed(c, className, h))
  }

  /**
   * A config whose checked attributes hold the values AlgorithmConfig's `__init__` gives them
   * passes every check: the defaults agree with `validate()`.
   */
  lemma DefaultsPass(c: Config, className: string, h: Collaborators)
    requires Readable(c)
    requires c.attrs[FrameworkStr] == StrV("tf") && c.attrs[PoliciesToTrain] == NoneV
    requires c.attrs[EvaluationNumWorkers] == IntV(0) && c.attrs[EvaluationParallelToTraining] == BoolV(false) &&
             c.attrs[EvaluationDuration] == IntV(10)
    requires c.attrs[DisablePreprocessorApi] == BoolV(false) && c.attrs[DisableActionFlattening] == BoolV(false)
    requires c.attrs[SimpleOptimizer] == DEPRECATED_VALUE && c.attrs[NumGpus] == IntV(0) &&
             c.attrs[IsMultiAgent] == BoolV(false)
    ensures Passes(c, className, h)
  {
  }

  /**
   * A multi-agent config with the placeholder `simple_optimizer`, no GPU and no `algo_class` (a
   * plain `AlgorithmConfig()`) fails validation: asking `None` for its default policy class raises.
   */
  lemma NoneAlgoClassFails(c: Config, className: string, h: Collaborators)
    requires Readable(c) && AlgoClass in c.attrs && c.attrs[AlgoClass] == NoneV
    requires c.attrs[FrameworkStr] == StrV("tf") && c.attrs[SimpleOptimizer] == DEPRECATED_VALUE &&
             c.attrs[NumGpus] == IntV(0) && c.attrs[IsMultiAgent] == BoolV(true)
    ensures !Passes(c, className, h)
    ensures ResolveSimpleOptimizer(c, className, h) == Failure(NoneAttribute(Declared(AlgoClass)))
  {
  }

  /** The model flags keep every attribute but the model dict, and so keep the config readable. */
  lemma MarkModelFrame(c: Config, flag: Attr, key: string)
    requires Readable(c) && flag != Model
    requires MarkModel(c, flag, key).Success?
    ensures var c' := MarkModel(c, flag, key).value;
            Readable(c') && c'.attrs[FrameworkStr] == c.attrs[FrameworkStr] &&
            c'.attrs[SimpleOptimizer] == c.attrs[SimpleOptimizer] && c'.attrs[NumGpus] == c.attrs[NumGpus] &&
            c'.attrs[IsMultiAgent] == c.attrs[IsMultiAgent] && c'.attrs[Policies] == c.attrs[Policies] &&
            c'.attrs[DisableActionFlattening] == c.attrs[DisableActionFlattening] &&
            (c'.attrs[Model].DictV? <==> c.attrs[Model].DictV?)
  {
    var c' := MarkModel(c, flag, key).value;
    assert Get(c', Declared(FrameworkStr)) == Get(c, Declared(FrameworkStr));
    assert Get(c', Declared(PoliciesToTrain)) == Get(c, Declared(PoliciesToTrain));
    assert Get(c', Declared(Policies)) == Get(c, Declared(Policies));
    assert Get(c', Declared(EvaluationNumWorkers)) == Get(c, Declared(EvaluationNumWorkers));
    assert Get(c', Declared(EvaluationInterval)) == Get(c, Declared(EvaluationInterval));
    assert Get(c', Declared(EvaluationParallelToTraining)) == Get(c, Declared(EvaluationParallelToTraining));
    assert Get(c', Declared(EvaluationDuration)) == Get(c, Declared(EvaluationDuration));
    assert Get(c', Declared(DisablePreprocessorApi)) == Get(c, Declared(DisablePreprocessorApi));
    assert Get(c', Declared(DisableActionFlattening)) == Get(c, Declared(DisableActionFlattening));
    assert Get(c', Declared(SimpleOptimizer)) == Get(c, Declared(SimpleOptimizer));
    assert Get(c', Declared(NumGpus)) == Get(c, Declared(NumGpus));
    assert Get(c', Declared(IsMultiAgent)) == Get(c, Declared(IsMultiAgent));
    assert Get(c', Declared(Model)).Some?;
  }

  /** Strings of different lengths are different keys. */
  lemma StringsOfDifferentLengths(a: string, b: string)
    requires |a| != |b|
    ensures !PyEq(StrV(a), StrV(b))
  {
  }

  /** Writing the action-flattening flag keeps the preprocessor flag in the model dict. */
  lemma SecondFlagKeepsFirst(c1: Config)
    requires ModelHolds(c1, "_disable_preprocessor_api")
    requires MarkModel(c1, DisableActionFlattening, "_disable_action_flattening").Success?
    ensures ModelHolds(MarkModel(c1, DisableActionFlattening, "_disable_action_flattening").value, "_disable_preprocessor_api")
  {
    StringsOfDifferentLengths("_disable_preprocessor_api", "_disable_action_flattening");
    MarkModelKeepsOtherKeys(c1, DisableActionFlattening, "_disable_action_flattening", StrV("_disable_preprocessor_api"));
  }

  /** Resolving `simple_optimizer` leaves the model dict alone. */
  lemma SimpleOptimizerKeepsModel(c: Config, className: string, h: Collaborators)
    requires ResolveSimpleOptimizer(c, className, h).Success?
    ensures forall key :: ModelHolds(c, key) ==> ModelHolds(ResolveSimpleOptimizer(c, className, h).value, key)
  {
    assert Get(ResolveSimpleOptimizer(c, className, h).value, Declared(Model)) == Get(c, Declared(Model));
  }

  /**
   * The two model flags, in the order `validate()` writes them. They complete exactly when a set
   * flag finds a dict, touch nothing but the model dict, and write both flags the config asks for.
   * An exception carries the state reached when it was raised.
   */
  method MarkModelFlags(c: Config) returns (r: Outcome)
    ensures Readable(c) ==> (r.Done? <==> ModelFlagsApplicable(c))
    ensures r.Raised? ==> r.error.NotADict? || r.error.MissingAttribute?
    ensures r.Done? ==> r.config.dynamic == c.dynamic &&
                        forall a | a != Model :: Get(r.config, Declared(a)) == Get(c, Declared(a))
    ensures r.Done? && Readable(c) ==>
              Readable(r.config) && r.config.attrs[FrameworkStr] == c.attrs[FrameworkStr] &&
              r.config.attrs[SimpleOptimizer] == c.attrs[SimpleOptimizer] && r.config.attrs[NumGpus] == c.attrs[NumGpus] &&
              r.config.attrs[IsMultiAgent] == c.attrs[IsMultiAgent] && r.config.attrs[Policies] == c.attrs[Policies]
    ensures r.Done? && Readable(c) && c.attrs[DisablePreprocessorApi] == BoolV(true) ==>
              ModelHolds(r.config, "_disable_preprocessor_api")
    ensures r.Done? && Readable(c) && c.attrs[DisableActionFlattening] == BoolV(true) ==>
              ModelHolds(r.config, "_disable_action_flattening")
  {
    var m1 := MarkModel(c, DisablePreprocessorApi, "_disable_preprocessor_api");
    if m1.Failure? {
      return Raised(c, m1.error);
    }
    if Readable(c) {
      MarkModelFrame(c, DisablePreprocessorApi, "_disable_preprocessor_api");
    }
    var m2 := MarkModel(m1.value, DisableActionFlattening, "_disable_action_flattening");
    if m2.Failure? {
      return Raised(m1.value, m2.error);
    }
    if Readable(c) {
      MarkModelFrame(m1.value, DisableActionFlattening, "_disable_action_flattening");
      if c.attrs[DisablePreprocessorApi] == BoolV(true) {
        SecondFlagKeepsFirst(m1.value);
      }
    }
    return Done(m2.value);
  }

  /**
   * The part of `validate()` after the checks: the model flags, then `simple_optimizer`. It
   * completes exactly when a set flag finds a dict and `simple_optimizer` is allowed; it touches
   * nothing but the model dict and `simple_optimizer`, writes both flags the config asks for, and
   * leaves no placeholder behind. Each exception carries the state reached when it was raised.
   */
  method Adjust(c: Config, className: string, h: Collaborators) returns (r: Outcome)
    ensures Readable(c) ==> (r.Done? <==> ModelFlagsApplicable(c) && SimpleOptimizerAllowed(c, className, h))
    ensures r.Raised? ==> !r.error.UnknownPolicyToTrain? && r.error != BetaMustBeZero
    ensures r.Done? ==> r.config.dynamic == c.dynamic &&
                        forall a | a != Model && a != SimpleOptimizer :: Get(r.config, Declared(a)) == Get(c, Declared(a))
    ensures r.Done? && Readable(c) && c.attrs[DisablePreprocessorApi] == BoolV(true) ==>
              ModelHolds(r.config, "_disable_preprocessor_api")
    ensures r.Done? && Readable(c) && c.attrs[DisableActionFlattening] == BoolV(true) ==>
              ModelHolds(r.config, "_disable_action_flattening")
    ensures r.Done? && Readable(c) && PyEq(c.attrs[SimpleOptimizer], DEPRECATED_VALUE) ==>
              SimpleOptimizer in r.config.attrs && r.config.attrs[SimpleOptimizer].BoolV?
  {
    var marked := MarkModelFlags(c);
    if marked.Raised? {
      return marked;
    }
    var m := marked.config;
    var resolved := ResolveSimpleOptimizer(m, className, h);
    if Readable(c) {
      ResolveAfterMarks(c, m, className, h);
    }
    if resolved.Failure? {
      return Raised(m, resolved.error);
    }
    FrameComposes(c, m, resolved.value);
    if Readable(c) {
      MarksSurvive(c, m, className, h);
    }
    return Done(resolved.value);
  }

  /** The model flags leave everything `simple_optimizer` depends on as it was. */
  lemma ResolveAfterMarks(c: Config, m: Config, className: string, h: Collaborators)
    requires Readable(c) && Readable(m)
    requires m.attrs[FrameworkStr] == c.attrs[FrameworkStr] && m.attrs[SimpleOptimizer] == c.attrs[SimpleOptimizer] &&
             m.attrs[NumGpus] == c.attrs[NumGpus] && m.attrs[IsMultiAgent] == c.attrs[IsMultiAgent] &&
             m.attrs[Policies] == c.attrs[Policies] && Get(m, Declared(AlgoClass)) == Get(c, Declared(AlgoClass))
    ensures ResolveSimpleOptimizer(m, className, h).Success? <==> SimpleOptimizerAllowed(c, className, h)
    ensures ResolveSimpleOptimizer(m, className, h).Success? && PyEq(c.attrs[SimpleOptimizer], DEPRECATED_VALUE) ==>
              SimpleOptimizer in ResolveSimpleOptimizer(m, className, h).value.attrs &&
              ResolveSimpleOptimizer(m, className, h).value.attrs[SimpleOptimizer].BoolV?
  {
    if ResolveSimpleOptimizer(m, className, h).Success? {
      SimpleOptimizerResolved(m, className, h);
    }
  }

  /** The flags the model step wrote are still there after `simple_optimizer` is resolved. */
  lemma MarksSurvive(c: Config, m: Config, className: string, h: Collaborators)
    requires Readable(c) && ResolveSimpleOptimizer(m, className, h).Success?
    requires c.attrs[DisablePreprocessorApi] == BoolV(true) ==> ModelHolds(m, "_disable_preprocessor_api")
    requires c.attrs[DisableActionFlattening] == BoolV(true) ==> ModelHolds(m, "_disable_action_flattening")
    ensures c.attrs[DisablePreprocessorApi] == BoolV(true) ==>
              ModelHolds(ResolveSimpleOptimizer(m, className, h).value, "_disable_preprocessor_api")
    ensures c.attrs[DisableActionFlattening] == BoolV(true) ==>
              ModelHolds(ResolveSimpleOptimizer(m, className, h).value, "_disable_action_flattening")
  {
    SimpleOptimizerKeepsModel(m, className, h);
  }

  /** Touching only the model dict, then only `simple_optimizer`, touches nothing else. */
  lemma FrameComposes(c: Config, m: Config, r: Config)
    requires m.dynamic == c.dynamic && forall a | a != Model :: Get(m, Declared(a)) == Get(c, Declared(a))
    requires r.dynamic == m.dynamic && forall k | k != Declared(SimpleOptimizer) :: Get(r, k) == Get(m, k)
    ensures r.dynamic == c.dynamic &&
            forall a | a != Model && a != SimpleOptimizer :: Get(r, Declared(a)) == Get(c, Declared(a))
  {
    forall a | a != Model && a != SimpleOptimizer
      ensures Get(r, Declared(a)) == Get(c, Declared(a))
    {
      assert Get(r, Declared(a)) == Get(m, Declared(a));
    }
  }

  /**
   * `validate()` on a config whose class is named `className` (`type(self).__name__`). It either
   * returns, with the model flags propagated and `simple_optimizer` resolved, or raises the
   * first check that fails, in the order: framework, policies_to_train, evaluation workers,
   * evaluation duration, model, GPUs.
   */
  method Validate(c: Config, className: string, h: Collaborators) returns (r: Outcome)
    ensures Readable(c) ==> (r.Done? <==> Passes(c, className, h))
    ensures Readable(c) && Hashable(c.attrs[FrameworkStr]) && !Supported(c.attrs[FrameworkStr]) ==> r == Done(c)
    ensures r.Done? ==> r.config.dynamic == c.dynamic &&
                        forall a | a != Model && a != SimpleOptimizer :: Get(r.config, Declared(a)) == Get(c, Declared(a))
    ensures r.Raised? ==> r.error != BetaMustBeZero
    ensures r.Raised? && r.error.UnknownPolicyToTrain? ==>
              PoliciesToTrain in c.attrs && Policies in c.attrs &&
              TrainedIds(c.attrs[PoliciesToTrain]).Some? && r.error.pid in TrainedIds(c.attrs[PoliciesToTrain]).value &&
              Membership(c.attrs[Policies], r.error.pid) == Success(false)
    ensures Readable(c) && Supported(c.attrs[FrameworkStr]) && PoliciesToTrainKnown(c) ==>
              (PyEq(c.attrs[EvaluationNumWorkers], IntV(0)) && Truthy(c.attrs[EvaluationParallelToTraining]) ==>
                 r == Raised(c, ParallelEvaluationWithoutWorkers)) &&
              (NumberOf(c.attrs[EvaluationNumWorkers]).Some? && c.attrs[EvaluationDuration] == StrV("auto") &&
               !Truthy(c.attrs[EvaluationParallelToTraining]) ==>
                 r == Raised(c, AutoDurationWithoutParallel)) &&
              (NumberOf(c.attrs[EvaluationNumWorkers]).Some? &&
               !(PyEq(c.attrs[EvaluationNumWorkers], IntV(0)) && Truthy(c.attrs[EvaluationParallelToTraining])) &&
               c.attrs[EvaluationDuration] != StrV("auto") &&
               !(IsInt(c.attrs[EvaluationDuration]) && NumberOf(c.attrs[EvaluationDuration]).value > 0.0) ==>
                 r == Raised(c, InvalidEvaluationDuration))
    ensures r.Done? && Readable(c) && Supported(c.attrs[FrameworkStr]) && c.attrs[DisablePreprocessorApi] == BoolV(true) ==>
              ModelHolds(r.config, "_disable_preprocessor_api")
    ensures r.Done? && Readable(c) && Supported(c.attrs[FrameworkStr]) && c.attrs[DisableActionFlattening] == BoolV(true) ==>
              ModelHolds(r.config, "_disable_action_flattening")
    ensures r.Done? && Readable(c) && PyEq(c.attrs[SimpleOptimizer], DEPRECATED_VALUE) && Supported(c.attrs[FrameworkStr]) ==>
              SimpleOptimizer in r.config.attrs && r.config.attrs[SimpleOptimizer].BoolV?
  {
    var fw := GetAttr(c, FrameworkStr);
    if fw.Failure? {
      return Raised(c, fw.error);
    }
    if !Hashable(fw.value) {
      return Raised(c, Unhashable(Declared(FrameworkStr)));
    }
    if !Supported(fw.value) {
      return Done(c);
    }
    var policiesCheck := CheckPoliciesToTrain(c);
    if policiesCheck.Failure? {
      return Raised(c, policiesCheck.error);
    }
    var evaluationCheck := CheckEvaluation(c);
    if evaluationCheck.Failure? {
      return Raised(c, evaluationCheck.error);
    }
    r := Adjust(c, className, h);
  }
}
