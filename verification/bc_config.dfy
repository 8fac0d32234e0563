/**
 * BCConfig, the configuration of behavioural cloning: MARWIL with `beta` fixed at 0.0, no
 * postprocessing of the inputs and no off-policy estimation. MARWILConfig, its parent, is not
 * part of this model; it stands in as AlgorithmConfig, whose `__init__` and `validate()` it
 * extends.
 */
module BehaviorCloning {
  import opened Wrappers
  import opened Attributes
  import opened PyObjects
  import opened ConfigObject
  import opened Defaults
  import opened SetterEngine
  import opened FragmentLength
  import opened Validation

  /** The algorithm class BC. */
  const BC_CLASS := ObjectV("BC", true)

  /** `type(self).__name__` of a BCConfig, which `validate()` compares with "AlphaStar". */
  const BC_CONFIG_NAME := "BCConfig"

  /** `beta`, an attribute AlgorithmConfig does not declare. */
  const BETA := Dynamic("beta")

  /**
   * `BCConfig(algo_class)`: the parent's `__init__` with `algo_class or BC`, then `beta`,
   * `postprocess_inputs` and `off_policy_estimation_methods` assigned through the gatekeeper of
   * an object that is not frozen yet.
   */
  function BCInit(algoClass: Value): (r: Outcome)
    ensures r.Done? && !Frozen(r.config) && Complete(r.config)
    ensures Truthy(algoClass) ==> r.config.attrs[AlgoClass] == algoClass
    ensures !Truthy(algoClass) ==> r.config.attrs[AlgoClass] == BC_CLASS
    ensures Get(r.config, BETA) == Some(FloatV(0.0)) && r.config.dynamic.Keys == {"beta"}
    ensures r.config.attrs[PostprocessInputs] == BoolV(false)
    ensures r.config.attrs[OffPolicyEstimationMethods] == DictV([])
    ensures r.config.attrs == Init(r.config.attrs[AlgoClass]).attrs[PostprocessInputs := BoolV(false)]
                                                                   [OffPolicyEstimationMethods := DictV([])]
  {
    var base := Init(Or(algoClass, BC_CLASS));
    InitNotFrozen(Or(algoClass, BC_CLASS));
    var withBeta := SetAttr(base, BETA, FloatV(0.0));
    var withPostprocess := SetAttr(withBeta.config, Declared(PostprocessInputs), BoolV(false));
    SetAttr(withPostprocess.config, Declared(OffPolicyEstimationMethods), DictV([]))
  }

  /**
   * `BCConfig.validate()`: the parent's checks, then `beta`, which must equal 0.0 (as a number:
   * 0, 0.0 and False all pass). `className` is `type(self).__name__`.
   */
  method BCValidate(c: Config, className: string, h: Collaborators) returns (r: Outcome)
    ensures Readable(c) ==>
              (r.Done? <==> Passes(c, className, h) && "beta" in c.dynamic && PyEq(c.dynamic["beta"], FloatV(0.0)))
    ensures r.Raised? && r.error == BetaMustBeZero ==>
              "beta" in c.dynamic && !PyEq(c.dynamic["beta"], FloatV(0.0)) && (Readable(c) ==> Passes(c, className, h))
    ensures Readable(c) && Passes(c, className, h) && "beta" in c.dynamic && !PyEq(c.dynamic["beta"], FloatV(0.0)) ==>
              r.Raised? && r.error == BetaMustBeZero
    ensures r.Done? ==> r.config.dynamic == c.dynamic &&
                        forall a | a != Model && a != SimpleOptimizer :: Get(r.config, Declared(a)) == Get(c, Declared(a))
  {
    var base := Validate(c, className, h);
    if base.Raised? {
      return base;
    }
    var beta := Get(base.config, BETA);
    if beta.None? {
      return Raised(base.config, MissingAttribute(BETA));
    }
    if !PyEq(beta.value, FloatV(0.0)) {
      return Raised(base.config, BetaMustBeZero);
    }
    return base;
  }

  /**
   * A fresh BCConfig passes `validate()`: the defaults pass the parent's checks, and `beta` is
   * 0.0, so the behavioural-cloning check never fires before the user changes `beta`.
   */
  lemma FreshConfigPasses(algoClass: Value, className: string, h: Collaborators)
    ensures var c := BCInit(algoClass).config;
            Readable(c) && Passes(c, className, h) && "beta" in c.dynamic && PyEq(c.dynamic["beta"], FloatV(0.0))
  {
    var c := BCInit(algoClass).config;
    BCInitChecked(algoClass);
    DefaultsPass(c, className, h);
  }

  /** A fresh BCConfig holds the `__init__` defaults of every attribute `validate()` checks. */
  lemma BCInitChecked(algoClass: Value)
    ensures var c := BCInit(algoClass).config;
            Readable(c) && c.attrs[FrameworkStr] == StrV("tf") && c.attrs[PoliciesToTrain] == NoneV &&
            c.attrs[EvaluationNumWorkers] == IntV(0) && c.attrs[EvaluationParallelToTraining] == BoolV(false) &&
            c.attrs[EvaluationDuration] == IntV(10) &&
            c.attrs[DisablePreprocessorApi] == BoolV(false) && c.attrs[DisableActionFlattening] == BoolV(false) &&
            c.attrs[SimpleOptimizer] == DEPRECATED_VALUE && c.attrs[NumGpus] == IntV(0) &&
            c.attrs[IsMultiAgent] == BoolV(false)
  {
    var cls := BCInit(algoClass).config.attrs[AlgoClass];
    InitFramework(cls);
    InitEvaluationWorkers(cls);
    InitEvaluationDuration(cls);
    InitModelFlags(cls);
    InitSimpleOptimizer(cls);
    InitSingleAgent(cls);
  }

  /**
   * Storing a `beta` that is not 0 (the MARWIL setting BC must leave alone) turns a config that
   * passes the parent's checks into one that fails the behavioural-cloning check.
   */
  lemma NonZeroBetaFails(c: Config, className: string, h: Collaborators, beta: Value)
    requires Readable(c) && Passes(c, className, h) && !PyEq(beta, FloatV(0.0))
    ensures var c' := Put(c, BETA, beta);
            Readable(c') && Passes(c', className, h) && "beta" in c'.dynamic && !PyEq(c'.dynamic["beta"], FloatV(0.0))
  {
    var c' := Put(c, BETA, beta);
    assert c'.attrs == c.attrs;
  }
}
