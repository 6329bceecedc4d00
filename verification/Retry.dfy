/** The retry decorator (src/bptl/utils/decorators.py).

    The wrapped callable is an oracle: Calls(i) is what its i-th invocation does.
    `Expected` stands for "is an instance of `exceptions` and passes `condition`",
    and `OnFailure` says what the `on_failure` hook raises, if anything. */
module Retry {
  import opened Wrappers

  datatype Outcome<+V, +E> = Return(value: V) | Raise(error: E)

  /** How control leaves the wrapper.  A wrapper without attempts falls out of its loop;
      SleepRefused is the error that sleeping for a negative time raises. */
  datatype Exit<+V, +E> = Returned(value: V) | FellThrough | Raised(error: E) | SleepRefused

  function Pow(base: real, n: nat): real
  {
    if n == 0 then 1.0 else base * Pow(base, n - 1)
  }

  datatype Config = Config(times: int, rate: real, maxTimes: int, maxBackoff: real, delay: real)
  {
    /** Number of calls the wrapper is prepared to make. */
    function Attempts(): int
    {
      (if times <= maxTimes then times else maxTimes) + 1
    }

    /** The sleep after the k-th failed call, counted from one. */
    function Backoff(k: nat): real
      requires k > 0
    {
      var wanted := delay * Pow(rate, k - 1);
      if wanted <= maxBackoff then wanted else maxBackoff
    }
  }

  /** What one use of the wrapper did. */
  datatype Usage<+V, +E> = Usage(calls: nat, sleeps: seq<real>, failures: nat, exit: Exit<V, E>)

  function Total(sleeps: seq<real>): real
  {
    if sleeps == [] then 0.0 else Total(sleeps[..|sleeps| - 1]) + sleeps[|sleeps| - 1]
  }

  ghost predicate ExpectedFailure<V, E>(outcome: Outcome<V, E>, expected: E -> bool)
  {
    outcome.Raise? && expected(outcome.error)
  }

  /** What a use of the wrapper must look like, in terms of the calls it made. */
  ghost predicate Meets<V, E>(config: Config, calls: nat -> Outcome<V, E>, expected: E -> bool,
                              onFailure: E -> Option<E>, usage: Usage<V, E>)
  {
    var attempts := config.Attempts();
    if attempts <= 0 then
      usage == Usage(0, [], 0, FellThrough)
    else
      && 1 <= usage.calls <= attempts
      && |usage.sleeps| == usage.calls - 1
      // every call but the last failed in the expected way and was followed by its own sleep
      && (forall i | 0 <= i < usage.calls - 1 :: ExpectedFailure(calls(i), expected))
      && (forall k | 0 <= k < usage.calls - 1 :: usage.sleeps[k] == config.Backoff(k + 1) && usage.sleeps[k] >= 0.0)
      // the last call decides
      && match calls(usage.calls - 1)
         case Return(v) => usage.exit == Returned(v) && usage.failures == 0
         case Raise(e) =>
           if !expected(e) then
             usage.exit == Raised(e) && usage.failures == 0
           else if usage.calls == attempts then
             usage.failures == 1 && usage.exit == Raised(if onFailure(e).Some? then onFailure(e).value else e)
           else
             usage.failures == 0 && usage.exit == SleepRefused && config.Backoff(usage.calls) < 0.0
  }

  /** The wrapper, as the loop it is. */
  method Wrapper<V, E>(config: Config, calls: nat -> Outcome<V, E>, expected: E -> bool,
                       onFailure: E -> Option<E>)
    returns (usage: Usage<V, E>)
    ensures Meets(config, calls, expected, onFailure, usage)
  {
    var triesLeft := config.Attempts();
    var made: nat := 0;
    var sleeps: seq<real> := [];
    while triesLeft > 0
      invariant triesLeft > 0 ==> made + triesLeft == config.Attempts()
      invariant triesLeft <= 0 ==> made == 0 && config.Attempts() <= 0
      invariant |sleeps| == made
      invariant forall i | 0 <= i < made :: ExpectedFailure(calls(i), expected)
      invariant forall k | 0 <= k < made :: sleeps[k] == config.Backoff(k + 1) && sleeps[k] >= 0.0
    {
      var outcome := calls(made);
      made := made + 1;
      match outcome {
        case Return(v) => return Usage(made, sleeps, 0, Returned(v));
        case Raise(e) =>
          if !expected(e) {
            return Usage(made, sleeps, 0, Raised(e));
          }
          triesLeft := triesLeft - 1;
          if triesLeft < 1 {
            var raisedByHook := onFailure(e);
            return Usage(made, sleeps, 1, Raised(if raisedByHook.Some? then raisedByHook.value else e));
          }
      }
      var retries := config.Attempts() - 1;
      var backoff := config.delay * Pow(config.rate, retries - triesLeft);
      backoff := if backoff <= config.maxBackoff then backoff else config.maxBackoff;
      if backoff < 0.0 {
        return Usage(made, sleeps, 0, SleepRefused);
      }
      sleeps := sleeps + [backoff];
    }
    return Usage(0, [], 0, FellThrough);
  }

  /** A call that was not the last failed as expected and was followed by a possible sleep. */
  lemma CallBeforeLast<V, E>(config: Config, calls: nat -> Outcome<V, E>, expected: E -> bool,
                             onFailure: E -> Option<E>, usage: Usage<V, E>, k: int)
    requires Meets(config, calls, expected, onFailure, usage)
    requires 1 <= k < usage.calls
    ensures ExpectedFailure(calls(k - 1), expected) && k < config.Attempts() && config.Backoff(k) >= 0.0
  {
    assert usage.sleeps[k - 1] >= 0.0;
  }

  /** The contract leaves no freedom: it determines the calls, the sleeps and the exit. */
  lemma ContractIsExact<V, E>(config: Config, calls: nat -> Outcome<V, E>, expected: E -> bool,
                              onFailure: E -> Option<E>, u1: Usage<V, E>, u2: Usage<V, E>)
    requires Meets(config, calls, expected, onFailure, u1)
    requires Meets(config, calls, expected, onFailure, u2)
    ensures u1 == u2
  {
    if config.Attempts() > 0 {
      if u1.calls < u2.calls {
        CallBeforeLast(config, calls, expected, onFailure, u2, u1.calls);
        assert false;
      }
      if u2.calls < u1.calls {
        CallBeforeLast(config, calls, expected, onFailure, u1, u2.calls);
        assert false;
      }
      assert u1.sleeps == u2.sleeps;
    }
  }

  lemma {:induction false} PowRange(base: real, n: nat)
    requires base >= 0.0
    ensures Pow(base, n) >= 0.0
  {
    if n == 0 {
    } else {
      PowRange(base, n - 1);
    }
  }

  lemma BackoffRange(config: Config, k: nat)
    requires k > 0
    requires config.delay >= 0.0 && config.rate >= 0.0 && config.maxBackoff >= 0.0
    ensures 0.0 <= config.Backoff(k) <= config.maxBackoff
    ensures config.Backoff(k) <= config.delay * Pow(config.rate, k - 1)
  {
    PowRange(config.rate, k - 1);
  }

  /** No pause up to the k-th would be of negative length. */
  predicate PausesUpTo(config: Config, k: int)
  {
    forall i | 0 < i <= k :: config.Backoff(i) >= 0.0
  }

  /** The number of calls is limited by both settings, and by nothing else. */
  lemma AttemptsAreCapped(config: Config)
    ensures config.Attempts() <= config.times + 1 && config.Attempts() <= config.maxTimes + 1
    ensures config.Attempts() == config.times + 1 || config.Attempts() == config.maxTimes + 1
  {
  }

  lemma PausesMade<V, E>(config: Config, calls: nat -> Outcome<V, E>, expected: E -> bool,
                         onFailure: E -> Option<E>, usage: Usage<V, E>)
    requires Meets(config, calls, expected, onFailure, usage)
    ensures PausesUpTo(config, usage.calls - 1)
    ensures forall i | 0 <= i < usage.calls - 1 :: ExpectedFailure(calls(i), expected)
  {
    forall k: int | 0 < k <= usage.calls - 1
      ensures config.Backoff(k) >= 0.0
    {
      CallBeforeLast(config, calls, expected, onFailure, usage, k);
    }
  }

  /** on_failure runs exactly once if and only if every permitted call failed as expected and every pause
      between them was possible, and otherwise not at all. */
  lemma HookIffAllCallsFail<V, E>(config: Config, calls: nat -> Outcome<V, E>, expected: E -> bool,
                                  onFailure: E -> Option<E>, usage: Usage<V, E>)
    requires Meets(config, calls, expected, onFailure, usage)
    ensures usage.failures <= 1
    ensures usage.failures == 1 <==>
              && config.Attempts() > 0 && PausesUpTo(config, config.Attempts() - 1)
              && forall i | 0 <= i < config.Attempts() :: ExpectedFailure(calls(i), expected)
    ensures usage.failures == 1 ==>
              var error := calls(config.Attempts() - 1).error;
              usage.exit == Raised(if onFailure(error).Some? then onFailure(error).value else error)
    ensures usage.exit.SleepRefused? ==> !PausesUpTo(config, config.Attempts() - 1)
  {
    PausesMade(config, calls, expected, onFailure, usage);
    if usage.failures == 0 && config.Attempts() > 0 {
      assert !ExpectedFailure(calls(usage.calls - 1), expected)
          || (usage.calls < config.Attempts() && config.Backoff(usage.calls) < 0.0);
    }
  }

  /** An unexpected exception of a call escapes from that call, without the hook, if and only if every pause
      before it was possible. */
  lemma UnexpectedEscapesAtOnce<V, E>(config: Config, calls: nat -> Outcome<V, E>, expected: E -> bool,
                                      onFailure: E -> Option<E>, usage: Usage<V, E>, i: nat)
    requires Meets(config, calls, expected, onFailure, usage)
    requires i < config.Attempts()
    requires calls(i).Raise? && !expected(calls(i).error)
    requires forall j | 0 <= j < i :: ExpectedFailure(calls(j), expected)
    ensures usage.failures == 0
    ensures usage.calls == i + 1 && usage.exit == Raised(calls(i).error) <==> PausesUpTo(config, i)
  {
    PausesMade(config, calls, expected, onFailure, usage);
    if usage.calls <= i {
      assert ExpectedFailure(calls(usage.calls - 1), expected);
    }
  }

  /** With a delay, a rate and a cap that are not negative every pause is possible. */
  lemma PausesPossible(config: Config, k: int)
    requires config.delay >= 0.0 && config.rate >= 0.0 && config.maxBackoff >= 0.0
    ensures PausesUpTo(config, k)
  {
    forall i: int | 0 < i <= k
      ensures config.Backoff(i) >= 0.0
    {
      BackoffRange(config, i);
    }
  }

  ghost predicate SleepsOf(config: Config, sleeps: seq<real>)
  {
    forall k | 0 <= k < |sleeps| :: sleeps[k] == config.Backoff(k + 1)
  }

  /** Sleeps that are never negative and never above a limit: n of them take at most n times the limit. */
  lemma {:induction false} TotalBelowLimit(sleeps: seq<real>, limit: real, n: nat)
    requires forall k | 0 <= k < |sleeps| :: 0.0 <= sleeps[k] <= limit
    requires |sleeps| <= n && limit >= 0.0
    ensures Total(sleeps) <= n as real * limit
    decreases n
  {
    if n == 0 {
    } else {
      TotalBelowLimit(if sleeps == [] then [] else sleeps[..|sleeps| - 1], limit, n - 1);
      assert n as real * limit == (n - 1) as real * limit + limit;
    }
  }

  /** delay + delay * rate + ... + delay * rate^(n-1), the sleeps without the cap. */
  function Geometric(delay: real, rate: real, n: nat): real
  {
    if n == 0 then 0.0 else Geometric(delay, rate, n - 1) + delay * Pow(rate, n - 1)
  }

  lemma {:induction false} TotalBelowGeometric(config: Config, sleeps: seq<real>)
    requires config.delay >= 0.0 && config.rate >= 0.0 && config.maxBackoff >= 0.0
    requires SleepsOf(config, sleeps)
    ensures Total(sleeps) <= Geometric(config.delay, config.rate, |sleeps|)
  {
    if sleeps == [] {
    } else {
      var n := |sleeps| - 1;
      TotalBelowGeometric(config, sleeps[..n]);
      BackoffRange(config, n + 1);
      assert sleeps[n] == config.Backoff(n + 1);
    }
  }

  /** What the closed form says of a sum, without the division. */
  predicate SumsTo(delay: real, rate: real, power: real, total: real)
  {
    total * (rate - 1.0) == delay * (power - 1.0)
  }

  lemma OneMoreTerm(delay: real, rate: real, power: real, total: real)
    requires SumsTo(delay, rate, power, total)
    ensures SumsTo(delay, rate, rate * power, total + delay * power)
  {
    calc {
      (total + delay * power) * (rate - 1.0);
      total * (rate - 1.0) + delay * power * (rate - 1.0);
      delay * (power - 1.0) + delay * power * (rate - 1.0);
      delay * (rate * power - 1.0);
    }
  }

  lemma GeometricStep(delay: real, rate: real, n: nat, power: real, total: real)
    requires n > 0 && power == Pow(rate, n - 1) && total == Geometric(delay, rate, n - 1)
    requires SumsTo(delay, rate, power, total)
    ensures SumsTo(delay, rate, Pow(rate, n), Geometric(delay, rate, n))
  {
    OneMoreTerm(delay, rate, power, total);
  }

  lemma {:induction false} GeometricClosed(delay: real, rate: real, n: nat)
    ensures SumsTo(delay, rate, Pow(rate, n), Geometric(delay, rate, n))
  {
    if n == 0 {
    } else {
      GeometricClosed(delay, rate, n - 1);
      GeometricStep(delay, rate, n, Pow(rate, n - 1), Geometric(delay, rate, n - 1));
    }
  }

  lemma {:induction false} GeometricGrows(delay: real, rate: real, m: nat, n: nat)
    requires delay >= 0.0 && rate >= 0.0 && m <= n
    ensures Geometric(delay, rate, m) <= Geometric(delay, rate, n)
  {
    if m == n {
    } else {
      GeometricGrows(delay, rate, m, n - 1);
      PowRange(rate, n - 1);
    }
  }

  lemma SleepsAreCapped<V, E>(config: Config, calls: nat -> Outcome<V, E>, expected: E -> bool,
                              onFailure: E -> Option<E>, usage: Usage<V, E>)
    requires Meets(config, calls, expected, onFailure, usage)
    ensures forall k | 0 <= k < |usage.sleeps| :: 0.0 <= usage.sleeps[k] <= config.maxBackoff
  {
    forall k | 0 <= k < |usage.sleeps|
      ensures 0.0 <= usage.sleeps[k] <= config.maxBackoff
    {
      assert usage.sleeps[k] == config.Backoff(k + 1);
    }
  }

  /** With N retries there are at most N sleeps of at most max_backoff each. */
  lemma TotalSleepBound<V, E>(config: Config, calls: nat -> Outcome<V, E>, expected: E -> bool,
                              onFailure: E -> Option<E>, usage: Usage<V, E>)
    requires Meets(config, calls, expected, onFailure, usage)
    requires config.maxBackoff >= 0.0 && config.Attempts() > 0
    ensures usage.calls <= config.Attempts()
    ensures Total(usage.sleeps) <= (config.Attempts() - 1) as real * config.maxBackoff
  {
    SleepsAreCapped(config, calls, expected, onFailure, usage);
    TotalBelowLimit(usage.sleeps, config.maxBackoff, config.Attempts() - 1);
  }

  /** The closed form of the series. */
  function SeriesSum(delay: real, rate: real, n: nat): real
    requires rate > 1.0
  {
    delay * (Pow(rate, n) - 1.0) / (rate - 1.0)
  }

  lemma ScaleUpStrictly(x: real, y: real, factor: real)
    requires x < y && factor > 0.0
    ensures x * factor < y * factor
  {
  }

  lemma DivideOut(x: real, y: real, divisor: real)
    requires divisor > 0.0 && x * divisor <= y
    ensures x <= y / divisor
  {
    assert y / divisor * divisor == y;
    if x > y / divisor {
      ScaleUpStrictly(y / divisor, x, divisor);
      assert false;
    }
  }

  lemma SeriesSumIsTheSum(delay: real, rate: real, n: nat)
    requires delay >= 0.0 && rate > 1.0
    ensures Geometric(delay, rate, n) <= SeriesSum(delay, rate, n)
  {
    GeometricClosed(delay, rate, n);
    DivideOut(Geometric(delay, rate, n), delay * (Pow(rate, n) - 1.0), rate - 1.0);
  }

  /** For a rate above one, all sleep together stays below the closed form of the series,
      however many attempts were needed. */
  lemma ExponentialSleepBound<V, E>(config: Config, calls: nat -> Outcome<V, E>, expected: E -> bool,
                                    onFailure: E -> Option<E>, usage: Usage<V, E>)
    requires Meets(config, calls, expected, onFailure, usage)
    requires config.delay >= 0.0 && config.rate > 1.0 && config.maxBackoff >= 0.0
    requires config.Attempts() > 0
    ensures Total(usage.sleeps) <= SeriesSum(config.delay, config.rate, config.Attempts() - 1)
  {
    TotalBelowGeometric(config, usage.sleeps);
    GeometricGrows(config.delay, config.rate, |usage.sleeps|, config.Attempts() - 1);
    SeriesSumIsTheSum(config.delay, config.rate, config.Attempts() - 1);
  }

  /** The configuration of the Camunda calls: four attempts, one second apart. */
  const CAMUNDA := Config(3, 1.0, 10, 30.0, 1.0)

  lemma {:induction false} PowOfOne(n: nat)
    ensures Pow(1.0, n) == 1.0
  {
    if n == 0 {
    } else {
      PowOfOne(n - 1);
    }
  }

  lemma CamundaPauses(k: nat)
    requires 0 < k
    ensures CAMUNDA.Attempts() == 4 && CAMUNDA.Backoff(k) == 1.0
  {
    PowOfOne(k - 1);
  }

  /** The configuration of the OpenKlant worker: six attempts, 3, 6, 12, 24 and 30 seconds apart. */
  const OPENKLANT := Config(5, 2.0, 10, 30.0, 3.0)

  lemma OpenKlantPauses()
    ensures OPENKLANT.Attempts() == 6
    ensures OPENKLANT.Backoff(1) == 3.0 && OPENKLANT.Backoff(2) == 6.0 && OPENKLANT.Backoff(3) == 12.0
    ensures OPENKLANT.Backoff(4) == 24.0 && OPENKLANT.Backoff(5) == 30.0
  {
    assert Pow(2.0, 1) == 2.0;
    assert Pow(2.0, 2) == 4.0;
    assert Pow(2.0, 3) == 8.0;
    assert Pow(2.0, 4) == 16.0;
  }
}
