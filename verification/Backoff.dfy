/** The delay between two attempts of a retried task, and what the delays of a whole run add up to. Times are reals. */
module Backoff {

  const DEFAULT_RETRY_MULTIPLIER := 2.0

  datatype Config = Config(interval: real, enabled: bool, multiplier: real, maxDelay: real)

  /** Multiplication under a name, which keeps products of variables out of the way of proofs that only rearrange them. */
  function Times(a: real, b: real): real {
    a * b
  }

  /** A multiplier below 1 is replaced by the default. */
  function Multiplier(c: Config): (m: real)
    ensures m >= 1.0
  {
    if c.multiplier < 1.0 then DEFAULT_RETRY_MULTIPLIER else c.multiplier
  }

  function Power(m: real, n: nat): real {
    if n == 0 then 1.0 else Times(m, Power(m, n - 1))
  }

  /** Math.pow(m, attempt - 1); the attempt counter is 0 only when it was reset during the attempt. */
  function Growth(c: Config, attempt: nat): real {
    if attempt == 0 then 1.0 / Multiplier(c) else Power(Multiplier(c), attempt - 1)
  }

  /** The wait before any cap. */
  function Uncapped(c: Config, attempt: nat): real {
    Times(c.interval, Growth(c, attempt))
  }

  function Min(a: real, b: real): real {
    if a <= b then a else b
  }

  /** The wait after the given number of attempts. */
  function Delay(c: Config, attempt: nat): real {
    if c.enabled then Min(Uncapped(c, attempt), c.maxDelay) else c.interval
  }

  /** All waits after attempts 1 to n. */
  function TotalDelay(c: Config, n: nat): real {
    if n == 0 then 0.0 else TotalDelay(c, n - 1) + Delay(c, n)
  }

  // ---- growth of the uncapped wait ----

  lemma {:induction false} Scale(a: real, x: real, y: real)
    requires a >= 0.0 && x <= y
    ensures Times(a, x) <= Times(a, y)
  {
  }

  lemma {:induction false} PowerPositive(m: real, n: nat)
    requires m >= 1.0
    ensures Power(m, n) >= 1.0 && Power(m, n + 1) >= Power(m, n)
  {
    if n > 0 {
      PowerPositive(m, n - 1);
      PowerStep(m, Power(m, n - 1), Power(m, n));
    }
  }

  lemma {:induction false} PowerStep(m: real, p: real, q: real)
    requires m >= 1.0 && p >= 1.0 && q == Times(m, p)
    ensures q >= p && Times(m, q) >= q
  {
    assert (m - 1.0) * p >= 0.0;
    assert (m - 1.0) * q >= 0.0;
  }

  lemma {:induction false} UncappedStep(c: Config, k: nat)
    requires c.interval >= 0.0 && k >= 1
    ensures Uncapped(c, k) <= Uncapped(c, k + 1)
  {
    PowerPositive(Multiplier(c), k - 1);
    Scale(c.interval, Growth(c, k), Growth(c, k + 1));
  }

  lemma {:induction false} UncappedGrows(c: Config, j: nat, k: nat)
    requires c.interval >= 0.0 && 1 <= j <= k
    ensures Uncapped(c, j) <= Uncapped(c, k)
    decreases k
  {
    if j < k {
      UncappedGrows(c, j, k - 1);
      UncappedStep(c, k - 1);
    }
  }

  /** Once a wait is capped, every later one is the cap. */
  lemma {:induction false} CappedStaysCapped(c: Config, j: nat, k: nat)
    requires c.enabled && c.interval >= 0.0 && 1 <= j <= k && Delay(c, j) == c.maxDelay
    ensures Delay(c, k) == c.maxDelay
  {
    UncappedGrows(c, j, k);
  }

  // ---- when the waits never decrease ----

  ghost predicate NeverDecreases(c: Config) {
    forall k: nat :: k >= 1 ==> Delay(c, k) <= Delay(c, k + 1)
  }

  lemma {:induction false} DelayGrows(c: Config, k: nat)
    requires k >= 1 && (!c.enabled || c.interval >= 0.0 || Multiplier(c) == 1.0)
    ensures Delay(c, k) <= Delay(c, k + 1)
  {
    if c.interval >= 0.0 {
      UncappedStep(c, k);
    } else if c.enabled {
      assert Growth(c, k + 1) == Times(1.0, Growth(c, k));
    }
  }

  /** The waits never decrease exactly when back-off is off, or the base interval is not negative, or nothing grows. */
  lemma {:induction false} NeverDecreasesIff(c: Config)
    ensures NeverDecreases(c) <==> !c.enabled || c.interval >= 0.0 || Multiplier(c) == 1.0
  {
    if !c.enabled || c.interval >= 0.0 || Multiplier(c) == 1.0 {
      forall k: nat | k >= 1
        ensures Delay(c, k) <= Delay(c, k + 1)
      {
        DelayGrows(c, k);
      }
    } else {
      var k := FirstBelow(c);
    }
  }

  lemma {:induction false} BernoulliStep(m: real, p: real, x: real)
    requires m >= 1.0 && p >= 1.0 && p >= 1.0 + Times(x, m - 1.0)
    ensures Times(m, p) >= 1.0 + Times(x + 1.0, m - 1.0)
  {
    assert (m - 1.0) * (p - 1.0) >= 0.0;
  }

  /** Bernoulli: powers of a number above 1 outgrow every bound. */
  lemma {:induction false} PowerGrows(m: real, n: nat)
    requires m >= 1.0
    ensures Power(m, n) >= 1.0 + Times(n as real, m - 1.0)
  {
    if n > 0 {
      PowerGrows(m, n - 1);
      PowerPositive(m, n - 1);
      BernoulliStep(m, Power(m, n - 1), (n - 1) as real);
      assert n as real == (n - 1) as real + 1.0;
    }
  }

  lemma {:induction false} Archimedes(step: real, goal: real) returns (n: nat)
    requires step > 0.0
    ensures Times(n as real, step) > goal
  {
    var steps := if goal > 0.0 then goal / step else 0.0;
    assert steps >= 0.0 && steps * step >= goal;
    n := steps.Floor + 1;
    assert (n as real - steps) * step > 0.0;
  }

  lemma {:induction false} FallsBelow(i: real, cap: real, m: real, p: real, q: real)
    requires i < 0.0 && m > 1.0 && p >= 1.0 && p > cap / i && q == Times(m, p)
    ensures Times(i, q) < Times(i, p) < cap
  {
    assert i * (cap / i) == cap;
    assert -i * (p - cap / i) > 0.0;
    assert (m - 1.0) * p > 0.0;
    assert -i * (q - p) > 0.0;
  }

  /** With a negative interval the uncapped wait eventually falls below the cap, and goes on falling. */
  lemma {:induction false} FirstBelow(c: Config) returns (k: nat)
    requires c.enabled && c.interval < 0.0 && Multiplier(c) > 1.0
    ensures k >= 1 && Delay(c, k + 1) < Delay(c, k)
  {
    var m := Multiplier(c);
    var n := Archimedes(m - 1.0, c.maxDelay / c.interval);
    PowerGrows(m, n);
    PowerPositive(m, n);
    FallsBelow(c.interval, c.maxDelay, m, Power(m, n), Power(m, n + 1));
    k := n + 1;
  }

  // ---- the sum of all waits ----

  /** interval * (1 + m + ... + m^(n-1)). */
  function Geometric(c: Config, n: nat): real {
    if n == 0 then 0.0 else Geometric(c, n - 1) + Uncapped(c, n)
  }

  lemma {:induction false} GeometricStep(m: real, i: real, g: real, p: real)
    requires Times(m - 1.0, g) == Times(i, p - 1.0)
    ensures Times(m - 1.0, g + Times(i, p)) == Times(i, Times(m, p) - 1.0)
  {
    assert (m - 1.0) * (g + i * p) == (m - 1.0) * g + (m - 1.0) * (i * p);
    assert (m - 1.0) * (i * p) == i * (m * p) - i * p;
  }

  lemma {:induction false} GeometricClosedForm(c: Config, n: nat)
    ensures Times(Multiplier(c) - 1.0, Geometric(c, n)) == Times(c.interval, Power(Multiplier(c), n) - 1.0)
  {
    if n > 0 {
      GeometricClosedForm(c, n - 1);
      GeometricStep(Multiplier(c), c.interval, Geometric(c, n - 1), Power(Multiplier(c), n - 1));
    }
  }

  /** The first s of n waits are uncapped, the others capped. */
  ghost predicate Saturates(c: Config, n: nat, s: nat) {
    s <= n &&
    (forall k: nat :: 1 <= k <= s ==> Delay(c, k) == Uncapped(c, k)) &&
    (forall k: nat :: s < k <= n ==> Delay(c, k) == c.maxDelay < Uncapped(c, k))
  }

  lemma {:induction false} SaturationPoint(c: Config, n: nat) returns (s: nat)
    requires c.enabled && c.interval >= 0.0
    ensures Saturates(c, n, s)
  {
    if n == 0 {
      s := 0;
    } else {
      s := SaturationPoint(c, n - 1);
      if s == n - 1 && Delay(c, n) == Uncapped(c, n) {
        s := n;
      } else if s < n - 1 {
        UncappedStep(c, n - 1);
      }
    }
  }

  lemma {:induction false} TotalWhileUncapped(c: Config, s: nat)
    requires forall k: nat :: 1 <= k <= s ==> Delay(c, k) == Uncapped(c, k)
    ensures TotalDelay(c, s) == Geometric(c, s)
  {
    if s > 0 {
      TotalWhileUncapped(c, s - 1);
    }
  }

  lemma {:induction false} OneMore(a: real, x: real)
    ensures Times(a, x + 1.0) == Times(a, x) + a
  {
  }

  lemma {:induction false} TotalWhenCapped(c: Config, s: nat, n: nat)
    requires s <= n && forall k: nat :: s < k <= n ==> Delay(c, k) == c.maxDelay
    ensures TotalDelay(c, n) == TotalDelay(c, s) + Times(c.maxDelay, (n - s) as real)
    decreases n
  {
    if s < n {
      TotalWhenCapped(c, s, n - 1);
      OneMore(c.maxDelay, (n - 1 - s) as real);
      assert (n - s) as real == (n - 1 - s) as real + 1.0;
    }
  }

  lemma {:induction false} TotalIsBounded(c: Config, n: nat)
    requires c.enabled
    ensures TotalDelay(c, n) <= Times(c.maxDelay, n as real)
  {
    if n > 0 {
      TotalIsBounded(c, n - 1);
      OneMore(c.maxDelay, (n - 1) as real);
      assert n as real == (n - 1) as real + 1.0;
    }
  }

  /** The n waits of a run: a geometric sum while uncapped, the cap from then on, and never more than n caps in all. */
  lemma {:induction false} TotalIsGeometricThenCap(c: Config, n: nat) returns (s: nat)
    requires c.enabled && c.interval >= 0.0
    ensures Saturates(c, n, s)
    ensures TotalDelay(c, n) == Geometric(c, s) + Times(c.maxDelay, (n - s) as real)
    ensures Times(Multiplier(c) - 1.0, Geometric(c, s)) == Times(c.interval, Power(Multiplier(c), s) - 1.0)
    ensures TotalDelay(c, n) <= Times(c.maxDelay, n as real)
  {
    s := SaturationPoint(c, n);
    TotalWhileUncapped(c, s);
    TotalWhenCapped(c, s, n);
    GeometricClosedForm(c, s);
    TotalIsBounded(c, n);
  }

  // ---- what the configuration means ----

  /** Without back-off every wait is the interval. */
  lemma {:induction false} TotalWithoutBackoff(c: Config, n: nat)
    requires !c.enabled
    ensures TotalDelay(c, n) == Times(c.interval, n as real)
  {
    if n > 0 {
      TotalWithoutBackoff(c, n - 1);
      OneMore(c.interval, (n - 1) as real);
      assert n as real == (n - 1) as real + 1.0;
    }
  }

  /** While it is below the cap a wait is the one before times the multiplier, or twice the one before if the multiplier
      is below 1; the first one is the interval. */
  lemma {:induction false} WaitsMultiply(c: Config, k: nat)
    requires c.enabled && k >= 1
    ensures k == 1 && c.interval <= c.maxDelay ==> Delay(c, k) == c.interval
    ensures Uncapped(c, k + 1) <= c.maxDelay && Uncapped(c, k) <= c.maxDelay ==>
              Delay(c, k + 1) == Times(if c.multiplier < 1.0 then 2.0 else c.multiplier, Delay(c, k))
  {
    var m, g := Multiplier(c), Growth(c, k);
    assert Growth(c, k + 1) == Times(m, g);
    Swap(c.interval, m, g);
  }

  /** Behind a reset during the attempt the wait is one step below the interval, and capped like any other. */
  lemma {:induction false} WaitBehindReset(c: Config)
    requires c.enabled
    ensures var m := if c.multiplier < 1.0 then 2.0 else c.multiplier;
            Times(m, Uncapped(c, 0)) == c.interval &&
            Delay(c, 0) == if Uncapped(c, 0) <= c.maxDelay then Uncapped(c, 0) else c.maxDelay
  {
    var m := Multiplier(c);
    Swap(m, c.interval, 1.0 / m);
    assert m * (1.0 / m) == 1.0;
    assert Times(c.interval, Times(m, 1.0 / m)) == c.interval;
  }

  lemma {:induction false} Swap(a: real, b: real, x: real)
    ensures Times(a, Times(b, x)) == Times(b, Times(a, x))
  {
    assert a * (b * x) == b * (a * x);
  }
}
