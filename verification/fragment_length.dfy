/**
 * `get_rollout_fragment_length(worker_index)`: the stored rollout fragment length, or, when it is
 * "auto", one derived from the train batch size and the number of environments sampling.
 *
 * Python's true division and `int()` are modelled on exact rationals (`real`), `int()` truncating
 * toward zero; the rounding of floats is not modelled.
 */
module FragmentLength {
  import opened Wrappers
  import opened Attributes
  import opened PyObjects
  import opened ConfigObject

  /** `int(x)` for a number `x`: truncation toward zero. */
  function Trunc(x: real): (r: int)
    ensures 0.0 <= x ==> r as real <= x < r as real + 1.0
    ensures x < 0.0 ==> r as real - 1.0 < x <= r as real
  {
    if x >= 0.0 then x.Floor else -((-x).Floor)
  }

  /** `a or b`. */
  function Or(a: Value, b: Value): Value
  {
    if Truthy(a) then a else b
  }

  /**
   * `get_rollout_fragment_length(worker_index)`. A stored value other than "auto" is returned as
   * it is; "auto" reads the three settings the formula needs.
   */
  function GetRolloutFragmentLength(c: Config, workerIndex: int): (r: Result<Value, ConfigError>)
    ensures RolloutFragmentLength !in c.attrs ==> r == Failure(MissingAttribute(Declared(RolloutFragmentLength)))
    ensures RolloutFragmentLength in c.attrs && c.attrs[RolloutFragmentLength] != StrV("auto") ==>
              r == Success(c.attrs[RolloutFragmentLength])
    ensures RolloutFragmentLength in c.attrs && c.attrs[RolloutFragmentLength] == StrV("auto") && r.Success? ==>
              r.value.IntV?
  {
    var stored :- GetAttr(c, RolloutFragmentLength);
    if stored != StrV("auto") then Success(stored)
    else
      var batch :- GetAttr(c, TrainBatchSize);
      var envs :- GetAttr(c, NumEnvsPerWorker);
      var workers :- GetAttr(c, NumRolloutWorkers);
      AutoLength(batch, envs, Or(workers, IntV(1)), workerIndex)
  }

  /**
   * The "auto" branch: `train_batch_size / (num_envs_per_worker * workers)` truncated, plus one
   * for a worker whose environments still fit into the remainder when the division is not exact.
   * A non-number operand is a TypeError, a zero product a ZeroDivisionError; on exact rationals
   * the product is zero exactly when a factor is.
   */
  function AutoLength(batch: Value, envs: Value, workers: Value, workerIndex: int): (r: Result<Value, ConfigError>)
    ensures r.Success? <==> NumberOf(batch).Some? && NumberOf(envs).Some? && NumberOf(workers).Some? &&
                            NumberOf(envs).value != 0.0 && NumberOf(workers).value != 0.0
    ensures r.Failure? && NumberOf(batch).Some? && NumberOf(envs).Some? && NumberOf(workers).Some? ==>
              r.error == ZeroDivision
    ensures r.Success? ==> r.value.IntV?
  {
    if NumberOf(envs).None? then Failure(UnsupportedOperand(Declared(NumEnvsPerWorker)))
    else if NumberOf(workers).None? then Failure(UnsupportedOperand(Declared(NumRolloutWorkers)))
    else if NumberOf(batch).None? then Failure(UnsupportedOperand(Declared(TrainBatchSize)))
    else if NumberOf(envs).value == 0.0 || NumberOf(workers).value == 0.0 then Failure(ZeroDivision)
    else Success(IntV(Share(NumberOf(batch).value, NumberOf(envs).value, NumberOf(workers).value, workerIndex)))
  }

  /**
   * The fragment of worker `workerIndex` when a batch of `t` steps is split over `w` workers
   * with `e` environments each: the truncated exact share, one more while the worker's
   * environments fit into what truncation leaves over.
   */
  function Share(t: real, e: real, w: real, workerIndex: int): int
    requires e != 0.0 && w != 0.0
  {
    var n := e * w;
    var q := t / n;
    if Trunc(q) as real != q && (workerIndex as real) * e <= t - (Trunc(q) as real) * n
    then Trunc(q) + 1
    else Trunc(q)
  }

  /**
   * The documented formula on whole numbers: the batch split evenly over all sampling
   * environments, one step more for the workers whose environments cover the remainder.
   */
  function ReferenceLength(batch: nat, envs: nat, workers: nat, workerIndex: int): int
    requires envs > 0
  {
    var n := envs * (if workers == 0 then 1 else workers);
    var q := batch / n;
    if batch % n != 0 && workerIndex * envs <= batch - q * n then q + 1 else q
  }

  /**
   * Every worker's share is within one step of the exact share, exact when the division is, and
   * never below it for worker 0.
   */
  lemma ReferenceBounds(batch: nat, envs: nat, workers: nat, workerIndex: int)
    requires envs > 0
    ensures var r, n := ReferenceLength(batch, envs, workers, workerIndex), envs * (if workers == 0 then 1 else workers);
            (r - 1) * n < batch < (r + 1) * n && (batch % n == 0 ==> r * n == batch) &&
            (workerIndex <= 0 ==> batch <= r * n)
  {
    var n := envs * (if workers == 0 then 1 else workers);
    var q, m := batch / n, batch % n;
    assert batch == q * n + m && 0 <= m < n;
    assert (q + 1) * n == q * n + n && (q - 1) * n == q * n - n && (q + 2) * n == q * n + 2 * n;
  }

  /** Multiplying by a positive number keeps orders and equality both ways. */
  lemma Scale(a: real, b: real, n: real)
    requires n > 0.0
    ensures a * n < b * n <==> a < b
    ensures a * n == b * n <==> a == b
  {
    assert (b - a) * n == b * n - a * n;
    if a < b {
      assert (b - a) * n > 0.0;
    } else if b < a {
      assert (a - b) * n > 0.0;
    }
  }

  /** Comparing with a quotient is comparing with the product. */
  lemma QuotientBounds(t: real, n: real, a: real)
    requires n > 0.0
    ensures a <= t / n <==> a * n <= t
    ensures t / n < a <==> t < a * n
    ensures a == t / n <==> a * n == t
  {
    var x := t / n;
    assert x * n == t;
    Scale(a, x, n);
    Scale(x, a, n);
  }

  /** Exact division of naturals as rationals agrees with floor division. */
  lemma RealDivision(t: nat, n: nat)
    requires n > 0
    ensures Trunc(t as real / n as real) == t / n
    ensures ((t / n) as real == t as real / n as real) <==> t % n == 0
  {
    var q, m := t / n, t % n;
    var nr := n as real;
    assert t == q * n + m && 0 <= m < n;
    assert (q as real) * nr == (q * n) as real by { CastProduct(q, n); }
    assert (q as real + 1.0) * nr == (q as real) * nr + nr;
    QuotientBounds(t as real, nr, q as real);
    QuotientBounds(t as real, nr, q as real + 1.0);
    var x := t as real / nr;
    assert q as real <= x < q as real + 1.0;
    assert x.Floor == q;
  }

  /**
   * On whole-number settings with at least one environment per worker, "auto" computes the
   * reference formula for every worker index.
   */
  lemma AutoIsReference(c: Config, workerIndex: int, batch: nat, envs: nat, workers: nat)
    requires envs > 0
    requires RolloutFragmentLength in c.attrs && c.attrs[RolloutFragmentLength] == StrV("auto")
    requires TrainBatchSize in c.attrs && c.attrs[TrainBatchSize] == IntV(batch)
    requires NumEnvsPerWorker in c.attrs && c.attrs[NumEnvsPerWorker] == IntV(envs)
    requires NumRolloutWorkers in c.attrs && c.attrs[NumRolloutWorkers] == IntV(workers)
    ensures GetRolloutFragmentLength(c, workerIndex) == Success(IntV(ReferenceLength(batch, envs, workers, workerIndex)))
  {
    var w := if workers == 0 then 1 else workers;
    assert Or(IntV(workers), IntV(1)) == IntV(w);
    AutoLengthOnNaturals(batch, envs, w, workerIndex);
  }

  /** Casting to a rational commutes with multiplication. */
  lemma CastProduct(a: int, b: int)
    ensures (a as real) * (b as real) == (a * b) as real
  {
  }

  /** The "auto" branch on whole numbers is floor division with the remainder rule. */
  lemma AutoLengthOnNaturals(batch: nat, envs: nat, w: nat, workerIndex: int)
    requires envs > 0 && w > 0
    ensures AutoLength(IntV(batch), IntV(envs), IntV(w), workerIndex) ==
            Success(IntV(ReferenceLength(batch, envs, w, workerIndex)))
  {
    assert AutoLength(IntV(batch), IntV(envs), IntV(w), workerIndex) ==
           Success(IntV(Share(batch as real, envs as real, w as real, workerIndex)));
    ShareOnNaturals(batch, envs, w, workerIndex);
  }

  /** On whole numbers the share is the reference formula. */
  lemma ShareOnNaturals(batch: nat, envs: nat, w: nat, workerIndex: int)
    requires envs > 0 && w > 0
    ensures Share(batch as real, envs as real, w as real, workerIndex) == ReferenceLength(batch, envs, w, workerIndex)
  {
    var m := envs * w;
    var q := batch / m;
    var extra := batch % m != 0 && workerIndex * envs <= batch - q * m;
    assert ReferenceLength(batch, envs, w, workerIndex) == if extra then q + 1 else q;
    ShareOnRemainder(batch, envs, w, workerIndex, m, q, extra);
  }

  /** The share, once the product, the quotient and the remainder test are named. */
  lemma ShareOnRemainder(batch: nat, envs: nat, w: nat, workerIndex: int, m: int, q: int, extra: bool)
    requires envs > 0 && w > 0 && m == envs * w && q == batch / m
    requires extra == (batch % m != 0 && workerIndex * envs <= batch - q * m)
    ensures Share(batch as real, envs as real, w as real, workerIndex) == if extra then q + 1 else q
  {
    var t, n := batch as real, (envs as real) * (w as real);
    assert n == m as real by { CastProduct(envs, w); }
    var x := t / n;
    assert Trunc(x) == q && ((q as real != x) == (batch % m != 0)) by { RealDivision(batch, m); }
    assert (q as real != x && (workerIndex as real) * (envs as real) <= t - (q as real) * n) == extra by {
      CastProduct(q, m);
      CastProduct(workerIndex, envs);
    }
    ShareUnfolded(t, envs as real, w as real, workerIndex, n, x, q, extra);
  }

  /** The share with its product, quotient, truncation and test named. */
  lemma ShareUnfolded(t: real, e: real, w: real, workerIndex: int, n: real, x: real, q: int, extra: bool)
    requires e != 0.0 && w != 0.0 && n == e * w && x == t / n && Trunc(x) == q
    requires extra == (q as real != x && (workerIndex as real) * e <= t - (q as real) * n)
    ensures Share(t, e, w, workerIndex) == if extra then q + 1 else q
  {
  }

  /** A lower worker index never gets a shorter fragment. */
  lemma {:induction false} EarlierWorkersNotShorter(batch: nat, envs: nat, workers: nat, i: int, j: int)
    requires envs > 0 && i <= j
    ensures ReferenceLength(batch, envs, workers, i) >= ReferenceLength(batch, envs, workers, j)
  {
    assert i * envs <= j * envs;
  }

  /**
   * The example worked in the source's comment: a train batch of 2500 over 4 workers with 3
   * environments each gives worker 1 a fragment of 209 steps and workers 2 to 4 one of 208.
   */
  lemma WorkedExample(c: Config)
    requires RolloutFragmentLength in c.attrs && c.attrs[RolloutFragmentLength] == StrV("auto")
    requires TrainBatchSize in c.attrs && c.attrs[TrainBatchSize] == IntV(2500)
    requires NumEnvsPerWorker in c.attrs && c.attrs[NumEnvsPerWorker] == IntV(3)
    requires NumRolloutWorkers in c.attrs && c.attrs[NumRolloutWorkers] == IntV(4)
    ensures GetRolloutFragmentLength(c, 1) == Success(IntV(209))
    ensures forall i | 2 <= i <= 4 :: GetRolloutFragmentLength(c, i) == Success(IntV(208))
  {
    AutoIsReference(c, 1, 2500, 3, 4);
    forall i | 2 <= i <= 4
      ensures GetRolloutFragmentLength(c, i) == Success(IntV(208))
    {
      AutoIsReference(c, i, 2500, 3, 4);
      assert i * 3 > 4;
    }
  }
}
