/** Retrying a call with capped geometric backoff. Delays are exact reals. */
module Backoff {
  import opened Outcomes

  /** A Retry-After header as read by `float`. */
  datatype RetryAfter = NoHeader | NotANumber | Seconds(value: real)

  /** What one call does: answer with a status, or raise. */
  datatype Answer = Response(status: int, retryAfter: RetryAfter) | Failure(transient: bool)

  predicate RetryableStatus(status: int) {
    status in {429, 500, 502, 503, 504}
  }

  predicate Retryable(a: Answer) {
    match a case Response(status, _) => RetryableStatus(status) case Failure(transient) => transient
  }

  function Min(x: real, y: real): real {
    if x <= y then x else y
  }

  function Pow(f: real, n: nat): real {
    if n == 0 then 1.0 else f * Pow(f, n - 1)
  }

  /** base + base * f + ... : n terms. */
  function Geometric(base: real, f: real, n: nat): real {
    if n == 0 then 0.0 else Geometric(base, f, n - 1) + base * Pow(f, n - 1)
  }

  datatype Policy = Policy(retries: nat, base: real, maxDelay: real, factor: real)

  function Delay(p: Policy, attempt: nat): real {
    Min(p.base * Pow(p.factor, attempt), p.maxDelay)
  }

  function DelayAfter(p: Policy, a: Answer, attempt: nat): real {
    if a.Response? && a.status == 429 && a.retryAfter.Seconds? then Min(a.retryAfter.value, p.maxDelay) else Delay(p, attempt)
  }

  /** A numeric Retry-After of a 429 is slept as it stands, up to the cap; the other delays grow by the factor until they reach it. */
  lemma DelayIs(p: Policy, a: Answer, attempt: nat)
    ensures a.Response? && a.status == 429 && a.retryAfter.Seconds? ==>
      DelayAfter(p, a, attempt) == if a.retryAfter.value <= p.maxDelay then a.retryAfter.value else p.maxDelay
    ensures !(a.Response? && a.status == 429 && a.retryAfter.Seconds?) ==> DelayAfter(p, a, attempt) == Delay(p, attempt)
    ensures Delay(p, 0) == if p.base <= p.maxDelay then p.base else p.maxDelay
    ensures p.base >= 0.0 && p.maxDelay >= 0.0 && p.factor > 1.0 ==>
      Delay(p, attempt + 1) == Min(Delay(p, attempt) * p.factor, p.maxDelay)
  {
    assert Pow(p.factor, 0) == 1.0;
    if p.base >= 0.0 && p.maxDelay >= 0.0 && p.factor > 1.0 {
      NextDelay(p.base, p.factor, Pow(p.factor, attempt), p.maxDelay);
    }
  }

  /** Capping before or after the multiplication makes no difference. */
  lemma NextDelay(base: real, f: real, power: real, cap: real)
    requires f > 1.0 && cap >= 0.0
    ensures Min(base * (f * power), cap) == Min(Min(base * power, cap) * f, cap)
  {
    var x := base * power;
    assert base * (f * power) == x * f;
    if x > cap {
      Scales(cap, x, f);
    }
  }

  lemma Scales(x: real, y: real, f: real)
    requires 0.0 <= x <= y && f > 1.0
    ensures x <= x * f <= y * f
  {
    assert x * f - x == x * (f - 1.0);
    assert y * f - x * f == (y - x) * f;
  }

  /** No answer carries a numeric Retry-After. */
  predicate NoNumericHeader(answers: seq<Answer>) {
    forall a :: a in answers && a.Response? ==> !a.retryAfter.Seconds?
  }

  predicate NonNegativeHeaders(answers: seq<Answer>) {
    forall a :: a in answers && a.Response? && a.retryAfter.Seconds? ==> a.retryAfter.value >= 0.0
  }

  lemma {:induction false} PowPositive(f: real, n: nat)
    requires f > 0.0
    ensures Pow(f, n) > 0.0
  {
    if n > 0 {
      PowPositive(f, n - 1);
    }
  }

  lemma ClosedStep(base: real, f: real, p: real, sum: real)
    requires sum * (f - 1.0) == base * (p - 1.0)
    ensures (sum + base * p) * (f - 1.0) == base * (f * p - 1.0)
  {
    assert (sum + base * p) * (f - 1.0) == sum * (f - 1.0) + base * p * (f - 1.0);
  }

  /** The closed form of the geometric sum. */
  lemma {:induction false} GeometricClosed(base: real, f: real, n: nat)
    ensures Geometric(base, f, n) * (f - 1.0) == base * (Pow(f, n) - 1.0)
  {
    if n > 0 {
      GeometricClosed(base, f, n - 1);
      var power, sum := Pow(f, n - 1), Geometric(base, f, n - 1);
      assert Geometric(base, f, n) == sum + base * power && Pow(f, n) == f * power;
      ClosedStep(base, f, power, sum);
    }
  }

  /** The same sum written as a quotient. */
  function ClosedForm(base: real, f: real, power: real): real
    requires f > 1.0
  {
    base * (power - 1.0) / (f - 1.0)
  }

  lemma ClosedQuotient(base: real, f: real, power: real, sum: real)
    requires f > 1.0 && sum * (f - 1.0) == base * (power - 1.0)
    ensures sum == ClosedForm(base, f, power)
  {
    var y, d := base * (power - 1.0), f - 1.0;
    assert sum == y / d;
  }

  lemma GeometricQuotient(base: real, f: real, n: nat)
    requires f > 1.0
    ensures Geometric(base, f, n) == ClosedForm(base, f, Pow(f, n))
  {
    GeometricClosed(base, f, n);
    ClosedQuotient(base, f, Pow(f, n), Geometric(base, f, n));
  }

  /** More terms never make the sum smaller. */
  lemma {:induction false} GeometricGrows(base: real, f: real, n: nat, m: nat)
    requires base >= 0.0 && f > 0.0 && n <= m
    ensures Geometric(base, f, n) <= Geometric(base, f, m)
  {
    if n < m {
      GeometricGrows(base, f, n, m - 1);
      PowPositive(f, m - 1);
    }
  }

  /** The sleep after the first n answers. */
  function TotalDelay(p: Policy, answers: seq<Answer>, n: nat): real
    requires n <= |answers|
  {
    if n == 0 then 0.0 else TotalDelay(p, answers, n - 1) + DelayAfter(p, answers[n - 1], n - 1)
  }

  /** `retry_request`: the response it returned, or None when it raised. */
  method RetryRequest(answers: seq<Answer>, p: Policy) returns (result: Option<Answer>, calls: nat, slept: real)
    requires |answers| > p.retries
    ensures 1 <= calls <= p.retries + 1
    ensures result.Some? ==> result == Some(answers[calls - 1])
    ensures result.Some? <==> answers[calls - 1].Response? && answers[calls - 1].status !in {429, 500, 502, 503, 504}
    ensures result.None? ==> RaisesAt(p, answers[calls - 1], calls)
    ensures forall k :: 0 <= k < calls - 1 ==> Retryable(answers[k])
    ensures forall k :: 0 <= k < calls - 1 && answers[k].Response? ==> answers[k].status in {429, 500, 502, 503, 504}
    ensures slept == TotalDelay(p, answers, calls - 1)
  {
    calls, slept := 0, 0.0;
    while true
      invariant calls <= p.retries
      invariant forall k :: 0 <= k < calls ==> Retryable(answers[k])
      invariant slept == TotalDelay(p, answers, calls)
      decreases p.retries - calls
    {
      var attempt, answer := calls, answers[calls];
      calls := calls + 1;
      if answer.Failure? {
        if !answer.transient || attempt == p.retries {
          return None, calls, slept;
        }
      } else if RetryableStatus(answer.status) {
        if attempt == p.retries {
          return None, calls, slept;
        }
      } else {
        return Some(answer), calls, slept;
      }
      slept := slept + DelayAfter(p, answer, attempt);
    }
  }

  /** An exception comes out of a call that cannot be retried, or out of the last one allowed. */
  predicate RaisesAt(p: Policy, a: Answer, calls: nat) {
    (a.Failure? && !a.transient) || (Retryable(a) && calls == p.retries + 1)
  }

  /** n sleeps of the longest delay. */
  function Capped(cap: real, n: nat): real {
    if n == 0 then 0.0 else Capped(cap, n - 1) + cap
  }

  lemma {:induction false} CappedIsProduct(cap: real, n: nat)
    ensures Capped(cap, n) == n as real * cap
  {
    if n > 0 {
      CappedIsProduct(cap, n - 1);
      OneMore(cap, (n - 1) as real, n as real);
    }
  }

  lemma OneMore(cap: real, fewer: real, n: real)
    requires n == fewer + 1.0
    ensures n * cap == fewer * cap + cap
  {
  }

  lemma {:induction false} CappedGrows(cap: real, n: nat, m: nat)
    requires cap >= 0.0 && n <= m
    ensures Capped(cap, n) <= Capped(cap, m)
  {
    if n < m {
      CappedGrows(cap, n, m - 1);
    }
  }

  lemma {:induction false} CappedDelay(p: Policy, answers: seq<Answer>, n: nat)
    requires n <= |answers|
    ensures TotalDelay(p, answers, n) <= Capped(p.maxDelay, n)
  {
    if n > 0 {
      CappedDelay(p, answers, n - 1);
    }
  }

  lemma {:induction false} GeometricDelay(p: Policy, answers: seq<Answer>, n: nat)
    requires n <= |answers| && NoNumericHeader(answers)
    ensures TotalDelay(p, answers, n) <= Geometric(p.base, p.factor, n)
  {
    if n > 0 {
      assert answers[n - 1] in answers;
      GeometricDelay(p, answers, n - 1);
    }
  }

  /** A delay is never negative, so the sleep is one the loop can take. */
  lemma DelaysAreSleepable(p: Policy, answers: seq<Answer>, n: nat)
    requires n < |answers| && NonNegativeHeaders(answers)
    requires p.base >= 0.0 && p.maxDelay >= 0.0 && p.factor > 1.0
    ensures 0.0 <= DelayAfter(p, answers[n], n)
  {
    assert answers[n] in answers;
    PowPositive(p.factor, n);
  }

  /** However many of its calls the loop makes, it sleeps at most the cap once per retry. */
  lemma TotalSleepCapped(p: Policy, answers: seq<Answer>, calls: nat)
    requires p.maxDelay >= 0.0 && 1 <= calls <= p.retries + 1 && calls <= |answers|
    ensures TotalDelay(p, answers, calls - 1) <= p.retries as real * p.maxDelay
  {
    CappedDelay(p, answers, calls - 1);
    CappedGrows(p.maxDelay, calls - 1, p.retries);
    CappedIsProduct(p.maxDelay, p.retries);
  }

  /** Without a numeric Retry-After the geometric sum of the uncapped delays bounds it as well. */
  lemma TotalSleepGeometric(p: Policy, answers: seq<Answer>, calls: nat)
    requires p.base >= 0.0 && p.factor > 1.0 && NoNumericHeader(answers)
    requires 1 <= calls <= p.retries + 1 && calls <= |answers|
    ensures TotalDelay(p, answers, calls - 1) <= ClosedForm(p.base, p.factor, Pow(p.factor, p.retries))
  {
    GeometricDelay(p, answers, calls - 1);
    GeometricGrows(p.base, p.factor, calls - 1, p.retries);
    GeometricQuotient(p.base, p.factor, p.retries);
  }
}
