/** Capped exponential backoff between delivery attempts. */
module Backoff {

  datatype Policy = Policy(maxAttempts: nat, base: real, cap: real)

  ghost predicate Sane(p: Policy) {
    p.maxAttempts >= 1 && p.base > 0.0 && p.cap > 0.0
  }

  function Pow2(n: nat): real {
    if n == 0 then 1.0 else 2.0 * Pow2(n - 1)
  }

  function Min(a: real, b: real): real {
    if b < a then b else a
  }

  function Delay(p: Policy, attempts: nat): real
    requires attempts >= 1
  {
    Min(p.cap, p.base * Pow2(attempts - 1))
  }

  function NextAt(p: Policy, attempts: nat, now: real): real
    requires attempts >= 1
  {
    now + Delay(p, attempts)
  }

  /** The delays scheduled by the first n failing attempts. */
  function TotalDelay(p: Policy, n: nat): real {
    if n == 0 then 0.0 else TotalDelay(p, n - 1) + Delay(p, n)
  }

  lemma {:induction false} Pow2AtLeastOne(n: nat)
    ensures Pow2(n) >= 1.0
  {
    if n > 0 { Pow2AtLeastOne(n - 1); }
  }

  lemma Scale(base: real, x: real)
    requires base > 0.0 && x >= 1.0
    ensures base * x >= base && base * (2.0 * x) == 2.0 * (base * x)
  {
  }

  /** Every delay is positive and at most the cap, and delays never shrink. */
  lemma DelayBounds(p: Policy, attempts: nat)
    requires Sane(p) && attempts >= 1
    ensures 0.0 < Delay(p, attempts) <= p.cap
    ensures Delay(p, attempts) <= Delay(p, attempts + 1)
  {
    Pow2AtLeastOne(attempts - 1);
    Scale(p.base, Pow2(attempts - 1));
  }

  lemma {:induction false} DelaysNondecreasing(p: Policy, a: nat, b: nat)
    requires Sane(p) && 1 <= a <= b
    ensures Delay(p, a) <= Delay(p, b)
    decreases b
  {
    if a < b {
      DelaysNondecreasing(p, a, b - 1);
      DelayBounds(p, b - 1);
    }
  }

  function Twice(x: real, times: nat): real
    decreases times
  {
    if times == 0 then x else Twice(x + x, times - 1)
  }

  lemma {:induction false} TwiceIsPow(x: real, times: nat)
    ensures Twice(x, times) == x * Pow2(times)
    decreases times
  {
    if times > 0 {
      TwiceIsPow(x + x, times - 1);
      assert (x + x) * Pow2(times - 1) == x * Pow2(times);
    }
  }

  /** The n-th delay is the base doubled n - 1 times, or the cap where that is more. */
  lemma DelayIsBaseDoubled(p: Policy, n: nat)
    requires n >= 1
    ensures Delay(p, n) == if Twice(p.base, n - 1) <= p.cap then Twice(p.base, n - 1) else p.cap
  {
    TwiceIsPow(p.base, n - 1);
  }

  /** The first delay is the base and each next one twice the last, both up to the cap. */
  lemma DelayDoubles(p: Policy, n: nat)
    requires n >= 1 && p.cap >= 0.0
    ensures Delay(p, 1) == if p.base <= p.cap then p.base else p.cap
    ensures Delay(p, n + 1) == if 2.0 * Delay(p, n) <= p.cap then 2.0 * Delay(p, n) else p.cap
  {
    var x := Pow2(n - 1);
    assert p.base * (2.0 * x) == 2.0 * (p.base * x);
  }

  /** A base of one second and a cap of sixty. */
  lemma DefaultSchedule(p: Policy)
    requires p.base == 1.0 && p.cap == 60.0
    ensures Delay(p, 1) == 1.0 && Delay(p, 2) == 2.0 && Delay(p, 3) == 4.0 && Delay(p, 4) == 8.0
  {
    DelayDoubles(p, 1);
    DelayDoubles(p, 2);
    DelayDoubles(p, 3);
  }

  /** What n delays would sum to uncapped, and all capped. */
  function Geometric(p: Policy, n: nat): real {
    p.base * (Pow2(n) - 1.0)
  }

  function AllCapped(p: Policy, n: nat): real {
    n as real * p.cap
  }

  lemma {:induction false} TotalUnderCap(p: Policy, n: nat)
    requires Sane(p)
    ensures 0.0 <= TotalDelay(p, n) <= AllCapped(p, n)
  {
    if n > 0 {
      TotalUnderCap(p, n - 1);
      DelayBounds(p, n);
      assert n as real * p.cap == (n - 1) as real * p.cap + p.cap;
    }
  }

  lemma {:induction false} TotalUnderSum(p: Policy, n: nat)
    requires Sane(p)
    ensures TotalDelay(p, n) <= Geometric(p, n)
  {
    if n > 0 {
      TotalUnderSum(p, n - 1);
      Distribute(p.base, Pow2(n - 1));
    }
  }

  lemma Distribute(base: real, x: real)
    ensures base * (x - 1.0) + base * x == base * (2.0 * x - 1.0)
  {
  }

  /** The whole schedule is bounded by the geometric sum and by the cap. */
  lemma TotalDelayBound(p: Policy, n: nat)
    requires Sane(p)
    ensures 0.0 <= TotalDelay(p, n) <= Min(Geometric(p, n), AllCapped(p, n))
  {
    TotalUnderCap(p, n);
    TotalUnderSum(p, n);
  }
}
