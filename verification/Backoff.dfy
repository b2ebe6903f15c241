/** The exponential backoff of session recovery, in exact arithmetic. */
module Backoff {

  datatype Policy = Policy(minWait: real, maxWait: real)

  function Pow2(n: nat): (p: nat)
    ensures p > n
  {
    if n == 0 then 1 else 2 * Pow2(n - 1)
  }

  /** Doubling from the first wait on. */
  function Grown(p: Policy, attempts: nat): real
    requires attempts > 0
  {
    p.minWait * (Pow2(attempts - 1) as real)
  }

  /** The wait after so many failures: doubled each time, up to the cap. */
  function Delay(p: Policy, attempts: nat): real
    requires attempts > 0
  {
    if Grown(p, attempts) <= p.maxWait then Grown(p, attempts) else p.maxWait
  }

  lemma ScaleMonotone(k: real, x: real, y: real)
    requires k >= 0.0 && x <= y
    ensures k * x <= k * y
  {
    assert k * (y - x) >= 0.0;
  }

  lemma Doubled(k: real, x: nat, y: nat)
    requires k >= 0.0 && y == 2 * x
    ensures 0.0 <= k * (x as real) <= k * (y as real)
  {
    ScaleMonotone(k, x as real, y as real);
  }

  lemma {:induction false} GrownMonotone(p: Policy, m: nat, n: nat)
    requires 0 < m <= n && p.minWait >= 0.0
    ensures Grown(p, m) <= Grown(p, n)
    decreases n
  {
    if m < n {
      GrownMonotone(p, m, n - 1);
      Doubled(p.minWait, Pow2(n - 2), Pow2(n - 1));
    }
  }

  /** Waits never shrink as failures mount, and never exceed the cap. */
  lemma DelayGrowsToCap(p: Policy, m: nat, n: nat)
    requires 0 < m <= n && p.minWait >= 0.0
    ensures Delay(p, m) <= Delay(p, n) <= p.maxWait
  {
    GrownMonotone(p, m, n);
  }

  /** The number of failures after which every wait is as long as the cap allows. */
  function Saturation(p: Policy): nat
    requires p.minWait > 0.0
  {
    if p.maxWait <= 0.0 then 1 else (p.maxWait / p.minWait).Floor + 2
  }

  lemma Quotient(x: real, k: real)
    requires k > 0.0
    ensures k * (x / k) == x
  {
  }

  lemma GrownPast(p: Policy, n: nat, power: real)
    requires n > 0 && p.minWait > 0.0 && power <= Pow2(n - 1) as real
    ensures p.minWait * power <= Grown(p, n)
  {
    ScaleMonotone(p.minWait, power, Pow2(n - 1) as real);
  }

  /** With a positive first wait the cap is reached, and kept. */
  lemma DelayReachesCap(p: Policy, n: nat)
    requires p.minWait > 0.0 && n >= Saturation(p)
    ensures n > 0 && Delay(p, n) == p.maxWait
  {
    if p.maxWait <= 0.0 {
      GrownPast(p, n, 1.0);
    } else {
      var ratio := p.maxWait / p.minWait;
      assert ratio <= Pow2(n - 1) as real;
      GrownPast(p, n, ratio);
      Quotient(p.maxWait, p.minWait);
    }
  }

  /** A wait is a real wait exactly when both bounds of the policy are positive. */
  lemma DelayPositive(p: Policy, n: nat)
    requires n > 0
    ensures Delay(p, n) > 0.0 <==> p.minWait > 0.0 && p.maxWait > 0.0
  {
    if p.minWait > 0.0 {
      GrownPast(p, n, 1.0);
    } else {
      ScaleMonotone(Pow2(n - 1) as real, p.minWait, 0.0);
    }
  }
}
