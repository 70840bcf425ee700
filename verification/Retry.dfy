/** packages/shared/retry.py: the delay before the next attempt, and the sums of
    delays that the back-off timeline is made of. */
module Retry {
  datatype RetryStrategy = Fixed | Linear | Exponential

  datatype PolicyRow = PolicyRow(strategy: RetryStrategy, baseDelay: nat, maxDelay: nat)

  /** The retry_policies table only holds rows that meet its check constraints. */
  type RetryPolicy = p: PolicyRow | p.baseDelay <= p.maxDelay witness PolicyRow(Fixed, 60, 3600)

  /** 2 to the power attempt - 1; one half for attempt 0, as Python computes it. */
  function Doubling(attempt: nat): (d: real)
    ensures d > 0.0
  {
    if attempt == 0 then 0.5 else 2.0 * Doubling(attempt - 1)
  }

  function RawDelay(strategy: RetryStrategy, attempt: nat, base: nat): real {
    match strategy
    case Fixed => base as real
    case Linear => base as real * attempt as real
    case Exponential => base as real * Doubling(attempt)
  }

  function CalculateRetryDelay(strategy: RetryStrategy, attempt: nat, base: nat, cap: nat): real {
    var delay := RawDelay(strategy, attempt, base);
    if delay < cap as real then delay else cap as real
  }

  function Delay(p: RetryPolicy, attempt: nat): real {
    CalculateRetryDelay(p.strategy, attempt, p.baseDelay, p.maxDelay)
  }

  /** Total back-off after the first n failed attempts. */
  function BackoffSum(p: RetryPolicy, n: nat): real {
    if n == 0 then 0.0 else BackoffSum(p, n - 1) + Delay(p, n)
  }

  // ---- arithmetic helpers

  lemma ScaleLeq(k: real, a: real, b: real)
    requires 0.0 <= k && a <= b
    ensures k * a <= k * b
  {
  }

  lemma {:induction false} DoublingGrows(n: nat, m: nat)
    requires n <= m
    ensures Doubling(n) <= Doubling(m)
    decreases m - n
  {
    if n < m {
      DoublingGrows(n + 1, m);
    }
  }

  lemma {:induction false} DoublingBeatsCounting(n: nat)
    requires n >= 1
    ensures n as real <= Doubling(n)
  {
    if n == 1 {
      assert Doubling(1) == 2.0 * Doubling(0);
    } else {
      DoublingBeatsCounting(n - 1);
    }
  }

  lemma RawDelayGrows(strategy: RetryStrategy, n: nat, m: nat, base: nat)
    requires n <= m
    ensures RawDelay(strategy, n, base) <= RawDelay(strategy, m, base)
  {
    DoublingGrows(n, m);
    ScaleLeq(base as real, n as real, m as real);
    ScaleLeq(base as real, Doubling(n), Doubling(m));
  }

  // ---- what the strategies promise

  function PowerOfTwo(n: nat): nat {
    if n == 0 then 1 else 2 * PowerOfTwo(n - 1)
  }

  lemma {:induction false} DoublingIsPower(n: nat)
    requires n >= 1
    ensures Doubling(n) == PowerOfTwo(n - 1) as real
  {
    if n == 1 {
      assert Doubling(1) == 2.0 * Doubling(0);
    } else {
      DoublingIsPower(n - 1);
    }
  }

  /** From the first attempt on the delay is a whole number of seconds: the base, the base
      times the attempt, or the base times 2^(attempt - 1), but never more than the cap. */
  lemma DelayIsTheCappedFormula(strategy: RetryStrategy, attempt: nat, base: nat, cap: nat)
    requires attempt >= 1
    ensures var raw := match strategy
                       case Fixed => base
                       case Linear => base * attempt
                       case Exponential => base * PowerOfTwo(attempt - 1);
            CalculateRetryDelay(strategy, attempt, base, cap) == (if raw <= cap then raw else cap) as real
  {
    DoublingIsPower(attempt);
    ProductOfReals(base, attempt);
    ProductOfReals(base, PowerOfTwo(attempt - 1));
  }

  lemma ProductOfReals(a: nat, b: nat)
    ensures (a * b) as real == a as real * b as real
  {
  }

  /** Delays never shrink as attempts go on, and stay between base and cap. */
  lemma DelayMonotoneAndBounded(p: RetryPolicy, n: nat, m: nat)
    requires 1 <= n <= m
    ensures p.baseDelay as real <= Delay(p, n) <= Delay(p, m) <= p.maxDelay as real
  {
    RawDelayGrows(p.strategy, n, m, p.baseDelay);
    RawDelayGrows(p.strategy, 1, n, p.baseDelay);
    assert Doubling(1) == 2.0 * Doubling(0);
    assert RawDelay(p.strategy, 1, p.baseDelay) == p.baseDelay as real;
  }

  /** Fixed <= linear <= exponential at every attempt, after capping too. */
  lemma StrategiesAreOrdered(attempt: nat, base: nat, cap: nat)
    requires attempt >= 1
    ensures CalculateRetryDelay(Fixed, attempt, base, cap) <= CalculateRetryDelay(Linear, attempt, base, cap)
    ensures CalculateRetryDelay(Linear, attempt, base, cap) <= CalculateRetryDelay(Exponential, attempt, base, cap)
  {
    DoublingBeatsCounting(attempt);
    ScaleLeq(base as real, 1.0, attempt as real);
    ScaleLeq(base as real, attempt as real, Doubling(attempt));
    assert RawDelay(Fixed, attempt, base) <= RawDelay(Linear, attempt, base);
    assert RawDelay(Linear, attempt, base) <= RawDelay(Exponential, attempt, base);
  }

  /** From the attempt that first reaches the cap on, every retry costs exactly the
      cap; so a sum that has reached it grows by the cap per attempt. */
  lemma {:induction false} CapIsPermanent(p: RetryPolicy, c: nat, n: nat)
    requires 1 <= c <= n && Delay(p, c) == p.maxDelay as real
    ensures Delay(p, n) == p.maxDelay as real
    ensures BackoffSum(p, n) == BackoffSum(p, c) + p.maxDelay as real * (n - c) as real
    decreases n
  {
    DelayMonotoneAndBounded(p, c, n);
    if c < n {
      CapIsPermanent(p, c, n - 1);
      OneMoreCap(p.maxDelay as real, n - 1 - c);
    }
  }

  lemma OneMoreCap(cap: real, m: nat)
    ensures cap * (m + 1) as real == cap * m as real + cap
  {
    assert (m + 1) as real == m as real + 1.0;
    Distribute(cap, m as real, 1.0);
  }

  /** Uncapped sums: base*n, base*n*(n+1)/2 and base*(2^n - 1). */
  function ClosedForm(strategy: RetryStrategy, n: nat, b: real): real {
    match strategy
    case Fixed => b * n as real
    case Linear => b * (n as real * (n as real + 1.0) / 2.0)
    case Exponential => b * (2.0 * Doubling(n) - 1.0)
  }

  lemma {:induction false} BackoffClosedForm(p: RetryPolicy, n: nat)
    requires RawDelay(p.strategy, n, p.baseDelay) <= p.maxDelay as real
    ensures BackoffSum(p, n) == ClosedForm(p.strategy, n, p.baseDelay as real)
  {
    if n > 0 {
      RawDelayGrows(p.strategy, n - 1, n, p.baseDelay);
      BackoffClosedForm(p, n - 1);
      ClosedFormStep(p.strategy, n, p.baseDelay);
    }
  }

  lemma ClosedFormStep(strategy: RetryStrategy, n: nat, base: nat)
    requires n > 0
    ensures ClosedForm(strategy, n - 1, base as real) + RawDelay(strategy, n, base)
         == ClosedForm(strategy, n, base as real)
  {
    var b, k := base as real, n as real;
    assert (n - 1) as real == k - 1.0;
    match strategy {
      case Fixed => Distribute(b, k - 1.0, 1.0);
      case Linear =>
        Distribute(b, (k - 1.0) * k / 2.0, k);
        assert (k - 1.0) * k / 2.0 + k == k * (k + 1.0) / 2.0;
      case Exponential =>
        Distribute(b, 2.0 * Doubling(n - 1) - 1.0, Doubling(n));
    }
  }

  lemma Distribute(k: real, a: real, b: real)
    ensures k * (a + b) == k * a + k * b
  {
  }
}
