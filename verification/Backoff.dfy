/** `computeBackoff`: the delay before a retry, in exact arithmetic (values below the int64 range). */
module Backoff {
  import opened Domain

  function Pow(b: real, e: nat): real {
    if e == 0 then 1.0 else b * Pow(b, e - 1)
  }

  /** `math.Pow` with an integer exponent. */
  function PowInt(b: real, e: int): real
    requires b >= 1.0
  {
    PowPositive(b, if e < 0 then -e else e);
    if e >= 0 then Pow(b, e) else 1.0 / Pow(b, -e)
  }

  function Initial(p: RetryPolicy): (d: Time)
    ensures d > 0
  {
    if p.initialDelay <= 0 then SECOND else p.initialDelay
  }

  function Multiplier(p: RetryPolicy): (m: real)
    ensures m >= 1.0
  {
    if p.multiplier < 1.0 then 2.0 else p.multiplier
  }

  /** The delay before the cap and before jitter. */
  function Grown(p: RetryPolicy, attempt: int): Time {
    if p.exponential then (Initial(p) as real * PowInt(Multiplier(p), attempt - 1)).Floor else Initial(p)
  }

  function Capped(p: RetryPolicy, attempt: int): Time {
    if p.maxDelay > 0 && Grown(p, attempt) > p.maxDelay then p.maxDelay else Grown(p, attempt)
  }

  /** `x` is the random draw. */
  function Delay(p: RetryPolicy, attempt: int, x: real): Time
    requires 0.0 <= x < 1.0
  {
    if p.jitter then Jitter(Capped(p, attempt), x) else Capped(p, attempt)
  }

  /** Between the truncated half and one and a half times the value. */
  function Jitter(c: Time, x: real): (d: Time)
    requires 0.0 <= x < 1.0
    ensures c >= 0 ==> (c as real * 0.5).Floor <= d && 2 * d <= 3 * c
  {
    Jittered(c, x);
    (c as real * (0.5 + x)).Floor
  }

  // ----- powers

  lemma {:induction false} PowPositive(b: real, e: nat)
    requires b >= 1.0
    ensures Pow(b, e) >= 1.0
    decreases e
  {
    if e > 0 {
      PowPositive(b, e - 1);
      MulAtLeast(b, Pow(b, e - 1));
    }
  }

  lemma MulAtLeast(b: real, y: real)
    requires b >= 1.0 && y >= 0.0
    ensures b * y >= y
  {
    assert b * y - y == (b - 1.0) * y;
  }

  lemma PowStep(b: real, e: int)
    requires b >= 1.0
    ensures 0.0 < PowInt(b, e) <= PowInt(b, e + 1)
  {
    if e >= 0 {
      PowPositive(b, e);
      MulAtLeast(b, Pow(b, e));
    } else {
      PowPositive(b, -e - 1);
      MulAtLeast(b, Pow(b, -e - 1));
      Reciprocal(Pow(b, -e - 1), Pow(b, -e));
    }
  }

  lemma Reciprocal(x: real, y: real)
    requires 0.0 < x <= y
    ensures 0.0 < 1.0 / y <= 1.0 / x
  {
    var u, v := 1.0 / x, 1.0 / y;
    assert u > 0.0 && v > 0.0;
    assert u - v == u * (v * y) - v * (u * x) == (u * v) * (y - x);
  }

  lemma ScaleUp(k: real, x: real, y: real)
    requires k >= 0.0 && x <= y
    ensures k * x <= k * y
  {
    assert k * y - k * x == k * (y - x);
  }

  lemma ScaledFloor(k: real, x: real, y: real)
    requires k >= 0.0 && 0.0 <= x <= y
    ensures 0 <= (k * x).Floor <= (k * y).Floor
    ensures k * x <= k * y
  {
    ScaleUp(k, x, y);
    ScaleUp(k, 0.0, x);
  }

  // ----- results

  lemma {:induction false} GrownGrows(p: RetryPolicy, a: int, b: int)
    requires a <= b
    ensures 0 <= Grown(p, a) <= Grown(p, b)
    decreases b - a
  {
    GrownStep(p, a);
    if a < b { GrownGrows(p, a + 1, b); }
  }

  lemma GrownStep(p: RetryPolicy, a: int)
    ensures 0 <= Grown(p, a) <= Grown(p, a + 1)
  {
    if p.exponential {
      PowStep(Multiplier(p), a - 1);
      ScaledFloor(Initial(p) as real, PowInt(Multiplier(p), a - 1), PowInt(Multiplier(p), a));
    }
  }

  /** Without jitter the delay begins with the initial one, never shrinks from one attempt to a later one, and
      never exceeds a positive cap. */
  lemma DelayGrows(p: RetryPolicy, a: int, b: int, x: real, y: real)
    requires !p.jitter && a <= b && 0.0 <= x < 1.0 && 0.0 <= y < 1.0
    ensures 0 <= Delay(p, a, x) <= Delay(p, b, y)
    ensures p.maxDelay > 0 ==> Delay(p, b, y) <= p.maxDelay
    ensures a == 1 ==> var d := if p.initialDelay > 0 then p.initialDelay else 1_000_000_000;
      Delay(p, a, x) == if 0 < p.maxDelay < d then p.maxDelay else d
  {
    GrownGrows(p, a, b);
    FirstDelay(p, x);
  }

  /** Powers grow at least linearly. */
  lemma {:induction false} Bernoulli(b: real, e: nat)
    requires b >= 1.0
    ensures Pow(b, e) >= 1.0 + e as real * (b - 1.0)
    decreases e
  {
    if e > 0 {
      Bernoulli(b, e - 1);
      BernoulliStep(b, (e - 1) as real, Pow(b, e - 1));
    }
  }

  lemma BernoulliStep(b: real, n: real, p: real)
    requires b >= 1.0 && n >= 0.0 && p >= 1.0 + n * (b - 1.0)
    ensures b * p >= 1.0 + (n + 1.0) * (b - 1.0)
  {
    var g := b - 1.0;
    ScaleUp(b, 1.0 + n * g, p);
    ScaleUp(n * g, 0.0, g);
    assert b * (1.0 + n * g) == 1.0 + n * g + g + n * g * g;
    assert (n + 1.0) * g == n * g + g;
  }

  /** An exponent from which `d` times the power is at least `m`. */
  lemma PowReaches(d: real, b: real, m: real) returns (e: nat)
    requires d > 0.0 && b > 1.0
    ensures d * Pow(b, e) >= m
  {
    var k := if m <= 0.0 then 0.0 else m / d / (b - 1.0);
    e := if k < 0.0 then 0 else k.Floor + 1;
    Bernoulli(b, e);
    ReachesWith(d, b - 1.0, m, e as real, Pow(b, e));
  }

  lemma ReachesWith(d: real, g: real, m: real, e: real, p: real)
    requires d > 0.0 && g > 0.0 && e >= 0.0 && p >= 1.0 + e * g && (m > 0.0 ==> m / d / g <= e)
    ensures d * p >= m
  {
    ScaleUp(e, 0.0, g);
    ScaleUp(d, 0.0, p);
    if m > 0.0 {
      var q := m / d;
      ScaleUp(g, q / g, e);
      assert g * (q / g) == q;
      ScaleUp(d, q, p);
      assert d * q == m;
    }
  }

  /** Exponential growth reaches the cap: with a multiplier above one and MaxDelay set there is an attempt
      from which every delay without jitter is exactly MaxDelay. */
  lemma DelaySaturates(p: RetryPolicy) returns (n: int)
    requires p.exponential && Multiplier(p) > 1.0 && p.maxDelay > 0 && !p.jitter
    ensures forall a: int, x: real {:trigger Delay(p, a, x)} ::
      n <= a && 0.0 <= x < 1.0 ==> Delay(p, a, x) == p.maxDelay
  {
    var e := PowReaches(Initial(p) as real, Multiplier(p), p.maxDelay as real);
    n := e + 1;
    forall a: int, x: real | n <= a && 0.0 <= x < 1.0 ensures Delay(p, a, x) == p.maxDelay {
      GrownReaches(p, e);
      GrownGrows(p, n, a);
    }
  }

  lemma GrownReaches(p: RetryPolicy, e: nat)
    requires p.exponential && Initial(p) as real * Pow(Multiplier(p), e) >= p.maxDelay as real
    ensures Grown(p, e + 1) >= p.maxDelay
  {
    assert PowInt(Multiplier(p), e + 1 - 1) == Pow(Multiplier(p), e);
  }

  lemma Jittered(c: int, x: real)
    requires 0.0 <= x < 1.0
    ensures c >= 0 ==>
      (c as real * 0.5).Floor <= (c as real * (0.5 + x)).Floor && 2 * (c as real * (0.5 + x)).Floor <= 3 * c
  {
    if c >= 0 {
      Stretched(c as real, x, c as real * (0.5 + x));
      StretchedFloor(c, c as real * (0.5 + x));
    }
  }

  lemma Stretched(d: real, x: real, y: real)
    requires 0.0 <= d && 0.0 <= x < 1.0 && y == d * (0.5 + x)
    ensures d * 0.5 <= y <= d * 1.5
  {
    ScaleUp(d, 0.5, 0.5 + x);
    ScaleUp(d, 0.5 + x, 1.5);
  }

  lemma StretchedFloor(c: int, y: real)
    requires c as real * 0.5 <= y <= c as real * 1.5
    ensures (c as real * 0.5).Floor <= y.Floor && 2 * y.Floor <= 3 * c
  { }

  /** With jitter the delay lies between the truncated half of the capped value and one and a half
      times it: the cap comes before the jitter. */
  lemma JitterRange(p: RetryPolicy, attempt: int, x: real)
    requires 0.0 <= x < 1.0 && p.jitter
    ensures (Capped(p, attempt) as real * 0.5).Floor <= Delay(p, attempt, x)
    ensures 2 * Delay(p, attempt, x) <= 3 * Capped(p, attempt)
  {
    GrownGrows(p, attempt, attempt);
  }

  lemma DelayIsNotNegative(p: RetryPolicy, attempt: int, x: real)
    requires 0.0 <= x < 1.0
    ensures 0 <= Delay(p, attempt, x)
  {
    GrownGrows(p, attempt, attempt);
    FloorIsNotNegative(Capped(p, attempt));
  }

  lemma FloorIsNotNegative(c: Time)
    requires c >= 0
    ensures 0 <= (c as real * 0.5).Floor
  {
  }

  /** With a cap set, no delay exceeds one and a half times the cap. */
  lemma DelayBound(p: RetryPolicy, attempt: int, x: real)
    requires 0.0 <= x < 1.0 && p.maxDelay > 0
    ensures 0 <= 2 * Delay(p, attempt, x) <= 3 * p.maxDelay
  {
    GrownGrows(p, attempt, attempt);
    if p.jitter { JitterRange(p, attempt, x); }
  }

  /** Every jitter of a value stays within a bound exactly when one and a half times the value is less
      than one over it. */
  lemma JitterWithin(c: Time, bound: Time)
    requires 0 <= c <= bound
    ensures (forall x: real {:trigger Jitter(c, x)} :: 0.0 <= x < 1.0 ==> Jitter(c, x) <= bound)
      <==> 3 * c <= 2 * (bound + 1)
  {
    var d, m := c as real, (bound + 1) as real;
    if 3 * c <= 2 * (bound + 1) {
      forall x: real | 0.0 <= x < 1.0 ensures Jitter(c, x) <= bound {
        BelowLimit(d, x, m);
      }
    } else {
      ReachesLimit(d, m);
      assert Jitter(c, m / d - 0.5) == bound + 1;
    }
  }

  /** MaxDelay is no bound on a jittered delay: every draw stays within it exactly when one and a half
      times the capped value is less than a nanosecond over it. */
  lemma CapHoldsExactly(p: RetryPolicy, attempt: int)
    requires p.jitter && p.maxDelay > 0
    ensures (forall x: real {:trigger Delay(p, attempt, x)} :: 0.0 <= x < 1.0 ==> Delay(p, attempt, x) <= p.maxDelay)
      <==> 3 * Capped(p, attempt) <= 2 * (p.maxDelay + 1)
  {
    GrownGrows(p, attempt, attempt);
    JitterWithin(Capped(p, attempt), p.maxDelay);
    assert forall x: real {:trigger Delay(p, attempt, x)} {:trigger Jitter(Capped(p, attempt), x)} :: 0.0 <= x < 1.0 ==>
      Delay(p, attempt, x) == Jitter(Capped(p, attempt), x);
  }

  lemma BelowLimit(d: real, x: real, m: real)
    requires 0.0 <= d && 0.0 <= x < 1.0 && 0.0 < m && 3.0 * d <= 2.0 * m
    ensures d * (0.5 + x) < m
  {
    if d > 0.0 {
      assert d * (0.5 + x) == d * 1.5 - d * (1.0 - x);
      assert d * (1.0 - x) > 0.0;
    }
  }

  lemma ReachesLimit(d: real, m: real)
    requires 0.0 < d <= m && 2.0 * m < 3.0 * d
    ensures var x := m / d - 0.5; 0.0 <= x < 1.0 && d * (0.5 + x) == m
  {
    var q := m / d;
    assert d * q == m;
    if q < 0.5 { ScaleUp(d, q, 0.5); }
    if q >= 1.5 { ScaleUp(d, 1.5, q); }
  }

  // ----- the delay itself

  /** A geometric sequence. */
  predicate Geometric(u: seq<real>, first: real, ratio: real) {
    u != [] && u[0] == first && forall n :: 0 < n < |u| ==> u[n] == u[n - 1] * ratio
  }

  /** And downwards. */
  predicate GeometricDown(u: seq<real>, first: real, ratio: real) {
    u != [] && u[0] == first && forall n :: 0 < n < |u| ==> u[n] * ratio == u[n - 1]
  }

  /** The value after a cap that is set, then after jitter by a half up to one and a half. */
  function Limited(p: RetryPolicy, grown: Time, x: real): Time {
    var c := if p.maxDelay > 0 && p.maxDelay < grown then p.maxDelay else grown;
    if p.jitter then (c as real * (0.5 + x)).Floor else c
  }

  lemma {:induction false} GeometricTerm(u: seq<real>, a: real, m: real, k: nat)
    requires Geometric(u, a, m) && k < |u|
    ensures u[k] == a * Pow(m, k)
    decreases k
  {
    if k > 0 {
      GeometricTerm(u, a, m, k - 1);
      NextTerm(a, m, Pow(m, k - 1), u[k - 1], u[k]);
    }
  }

  lemma NextTerm(a: real, m: real, b: real, x: real, y: real)
    requires x == a * b && y == x * m
    ensures y == a * (m * b)
  {
  }

  /** Attempt `k + 1` of an exponential policy is delayed by term `k` of the geometric sequence that begins
      with the initial delay, one second if none is set, with the policy's multiplier, two if that is
      below one. */
  lemma ExponentialDelay(p: RetryPolicy, u: seq<real>, k: nat, x: real)
    requires p.exponential && k < |u| && 0.0 <= x < 1.0
    requires Geometric(u, (if p.initialDelay > 0 then p.initialDelay else 1_000_000_000) as real,
                       if p.multiplier >= 1.0 then p.multiplier else 2.0)
    ensures Delay(p, k + 1, x) == Limited(p, u[k].Floor, x)
  {
    GeometricTerm(u, Initial(p) as real, Multiplier(p), k);
    GrownTo(p, k + 1, Pow(Multiplier(p), k), u[k]);
    DelayLimits(p, k + 1, x);
  }

  lemma GrownTo(p: RetryPolicy, attempt: int, power: real, y: real)
    requires p.exponential && PowInt(Multiplier(p), attempt - 1) == power && y == Initial(p) as real * power
    ensures Grown(p, attempt) == y.Floor
  {
  }

  lemma DelayLimits(p: RetryPolicy, attempt: int, x: real)
    requires 0.0 <= x < 1.0
    ensures Delay(p, attempt, x) == Limited(p, Grown(p, attempt), x)
  {
  }

  lemma {:induction false} ShrunkTerm(u: seq<real>, a: real, m: real, k: nat)
    requires GeometricDown(u, a, m) && k < |u|
    ensures u[k] * Pow(m, k) == a
    decreases k
  {
    if k > 0 {
      ShrunkTerm(u, a, m, k - 1);
      TermBefore(a, m, Pow(m, k - 1), u[k - 1], u[k]);
    }
  }

  lemma TermBefore(a: real, m: real, b: real, x: real, y: real)
    requires x * b == a && y * m == x
    ensures y * (m * b) == a
  {
  }

  /** Reports may carry attempt numbers below one; the sequence goes on downwards for them. */
  lemma DelayBelowOne(p: RetryPolicy, u: seq<real>, k: nat, x: real)
    requires p.exponential && k < |u| && 0.0 <= x < 1.0
    requires GeometricDown(u, (if p.initialDelay > 0 then p.initialDelay else 1_000_000_000) as real,
                           if p.multiplier >= 1.0 then p.multiplier else 2.0)
    ensures Delay(p, 1 - k, x) == Limited(p, u[k].Floor, x)
  {
    TermBelow(u, Initial(p) as real, Multiplier(p), k);
    GrownTo(p, 1 - k, PowInt(Multiplier(p), 1 - k - 1), u[k]);
    DelayLimits(p, 1 - k, x);
  }

  lemma TermBelow(u: seq<real>, a: real, m: real, k: nat)
    requires GeometricDown(u, a, m) && k < |u| && m >= 1.0
    ensures u[k] == a * PowInt(m, 1 - k - 1)
  {
    ShrunkTerm(u, a, m, k);
    Downwards(m, k);
    Quotient(u[k], Pow(m, k), a);
  }

  lemma Downwards(m: real, k: nat)
    requires m >= 1.0
    ensures Pow(m, k) > 0.0 && PowInt(m, 1 - k - 1) == 1.0 / Pow(m, k)
  {
    PowPositive(m, k);
  }

  lemma Quotient(u: real, b: real, a: real)
    requires b > 0.0 && u * b == a
    ensures a * (1.0 / b) == u
  {
    var q := 1.0 / b;
    assert b * q == 1.0;
    assert (u * b) * q == u * (b * q);
  }

  /** Any other policy delays every attempt by the initial delay. */
  lemma ConstantDelay(p: RetryPolicy, attempt: int, x: real)
    requires !p.exponential && 0.0 <= x < 1.0
    ensures Delay(p, attempt, x) ==
      Limited(p, if p.initialDelay > 0 then p.initialDelay else 1_000_000_000, x)
  {
  }

  /** Without jitter the first delay is the initial one, or the cap if that is set and smaller. */
  lemma FirstDelay(p: RetryPolicy, x: real)
    requires !p.jitter && 0.0 <= x < 1.0
    ensures var d := if p.initialDelay > 0 then p.initialDelay else 1_000_000_000;
      Delay(p, 1, x) == if 0 < p.maxDelay < d then p.maxDelay else d
  {
    if p.exponential {
      ExponentialDelay(p, [Initial(p) as real], 0, x);
    } else {
      ConstantDelay(p, 1, x);
    }
  }
}
