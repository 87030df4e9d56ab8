/** The capped, truncating backoff recurrence of `WithRetry`.  The multiplier is a ratio of integers, which every
    finite float is. */
module Backoff {
  import opened Wrappers
  import opened Durations

  datatype Ratio = Ratio(num: int, den: int)
  type Multiplier = r: Ratio | r.den > 0 witness Ratio(1, 1)

  datatype RetryConfig = RetryConfig(maxAttempts: int, initialWait: int, maxWait: int, multiplier: Multiplier)

  function DefaultRetryConfig(): RetryConfig {
    RetryConfig(3, 500 * MILLISECOND, 10 * SECOND, Ratio(2, 1))
  }

  /** Quotient rounded toward zero, as Go's conversion to an integer duration rounds. */
  function Truncate(a: int, b: int): int
    requires b > 0
  {
    if a >= 0 then a / b else -((-a) / b)
  }

  function NextWait(cfg: RetryConfig, wait: int): int {
    var grown := Truncate(wait * cfg.multiplier.num, cfg.multiplier.den);
    if grown > cfg.maxWait then cfg.maxWait else grown
  }

  /** The wait that follows failed attempt `k`. */
  function Wait(cfg: RetryConfig, k: nat): int
    requires k >= 1
  {
    if k == 1 then cfg.initialWait else NextWait(cfg, Wait(cfg, k - 1))
  }

  function Pow(b: int, e: nat): int {
    if e == 0 then 1 else b * Pow(b, e - 1)
  }

  ghost predicate IntegerMultiplier(cfg: RetryConfig, m: int) {
    m >= 1 && cfg.multiplier.num == m * cfg.multiplier.den
  }

  /** Durations are not negative and the waits do not shrink. */
  ghost predicate Growing(cfg: RetryConfig) {
    cfg.initialWait >= 0 && cfg.maxWait >= 0 && cfg.multiplier.num >= cfg.multiplier.den
  }

  lemma CancelFactor(a: int, b: int, d: int)
    requires d > 0 && a * d < b * d
    ensures a < b
  {
    assert (b - a) * d > 0;
  }

  lemma DivideExact(x: nat, d: int)
    requires d > 0
    ensures (x * d) / d == x
  {
    var q := (x * d) / d;
    assert x * d == q * d + (x * d) % d;
    CancelFactor(q - 1, x, d);
    CancelFactor(x, q + 1, d);
  }

  lemma TruncateExact(x: int, d: int)
    requires d > 0
    ensures Truncate(x * d, d) == x
  {
    if x >= 0 {
      DivideExact(x, d);
      assert x * d >= 0;
    } else {
      DivideExact(-x, d);
      assert -(x * d) == (-x) * d > 0;
    }
  }

  lemma PowPositive(b: int, e: nat)
    requires b >= 1
    ensures Pow(b, e) >= 1
    ensures e >= 1 ==> Pow(b, e) >= b
  {
    if e > 0 {
      PowPositive(b, e - 1);
      assert b * Pow(b, e - 1) >= b * 1;
    }
  }

  lemma NextWaitInteger(cfg: RetryConfig, m: int, wait: int)
    requires IntegerMultiplier(cfg, m)
    ensures NextWait(cfg, wait) == Min(wait * m, cfg.maxWait)
  {
    assert wait * cfg.multiplier.num == (wait * m) * cfg.multiplier.den;
    TruncateExact(wait * m, cfg.multiplier.den);
  }

  /** Every further wait is the product rounded toward zero, or the cap if the product exceeds it. */
  lemma NextWaitExactly(cfg: RetryConfig, wait: int)
    ensures var product, den, next := wait * cfg.multiplier.num, cfg.multiplier.den, NextWait(cfg, wait);
            && next <= cfg.maxWait
            && (next < cfg.maxWait ==>
                  if product >= 0 then 0 <= next * den <= product < next * den + den
                  else next * den - den < product <= next * den <= 0)
            && (next == cfg.maxWait && product >= 0 && cfg.maxWait >= 0 ==> cfg.maxWait * den <= product)
  {
    var product, den, grown := wait * cfg.multiplier.num, cfg.multiplier.den,
      Truncate(wait * cfg.multiplier.num, cfg.multiplier.den);
    if product >= 0 {
      assert product == grown * den + product % den;
      assert grown >= 0 by {
        CancelFactor(-1, grown, den);
      }
      if grown > cfg.maxWait {
        assert (grown - cfg.maxWait) * den > 0;
      }
    } else {
      assert -product == (-grown) * den + (-product) % den;
      assert -grown >= 0 by {
        CancelFactor(-1, -grown, den);
      }
    }
  }

  /** The parameters for which truncated, repeatedly capped growth is capped geometric growth. */
  ghost predicate CapIsStable(cfg: RetryConfig, m: int) {
    cfg.maxWait >= 0 || m == 1 || cfg.initialWait * m <= cfg.maxWait
  }

  lemma {:induction false} ClosedForm(cfg: RetryConfig, m: int, k: nat)
    requires IntegerMultiplier(cfg, m) && CapIsStable(cfg, m) && k >= 2
    ensures Wait(cfg, k) == Min(cfg.initialWait * Pow(m, k - 1), cfg.maxWait)
  {
    var init, cap, p := cfg.initialWait, cfg.maxWait, Pow(m, k - 2);
    NextWaitInteger(cfg, m, Wait(cfg, k - 1));
    assert Pow(m, k - 1) == m * p;
    if k == 2 {
      assert m * p == m;
    } else {
      ClosedForm(cfg, m, k - 1);
      PowPositive(m, k - 2);
      CapStep(init, m, p, cap);
      Regroup(init, m, p);
    }
  }

  lemma Regroup(a: int, b: int, c: int)
    ensures (a * c) * b == a * (b * c)
  {
  }

  lemma CapStep(init: int, m: int, p: int, cap: int)
    requires m >= 1 && p >= m && (cap >= 0 || m == 1 || init * m <= cap)
    ensures Min(Min(init * p, cap) * m, cap) == Min((init * p) * m, cap)
  {
    if cap < 0 && m > 1 {
      UncappedStaysBelow(init, m, p, cap);
    } else if init * p > cap && m > 1 {
      assert (init * p - cap) * m >= 0;
      assert cap * (m - 1) >= 0;
    }
  }

  lemma UncappedStaysBelow(init: int, m: int, p: int, cap: int)
    requires cap < 0 && m >= 1 && p >= m && init * m <= cap
    ensures init * p <= cap
  {
    CancelFactor(init, 0, m);
    assert init * p == init * m + init * (p - m);
    assert init * (p - m) <= 0;
  }

  /** The closed form holds for every wait exactly when the cap is stable. */
  lemma ClosedFormExactly(cfg: RetryConfig, m: int)
    requires IntegerMultiplier(cfg, m)
    ensures CapIsStable(cfg, m) <==>
            forall k: nat | k >= 2 :: Wait(cfg, k) == Min(cfg.initialWait * Pow(m, k - 1), cfg.maxWait)
  {
    if CapIsStable(cfg, m) {
      forall k: nat | k >= 2 ensures Wait(cfg, k) == Min(cfg.initialWait * Pow(m, k - 1), cfg.maxWait) {
        ClosedForm(cfg, m, k);
      }
    } else {
      ThirdWaitDiffers(cfg, m);
      assert Wait(cfg, 3) != Min(cfg.initialWait * Pow(m, 3 - 1), cfg.maxWait);
    }
  }

  lemma ThirdWaitDiffers(cfg: RetryConfig, m: int)
    requires IntegerMultiplier(cfg, m) && !CapIsStable(cfg, m)
    ensures Wait(cfg, 3) != Min(cfg.initialWait * Pow(m, 2), cfg.maxWait)
  {
    var cap, init := cfg.maxWait, cfg.initialWait;
    NextWaitInteger(cfg, m, init);
    NextWaitInteger(cfg, m, cap);
    assert Wait(cfg, 2) == cap && Wait(cfg, 3) == Min(cap * m, cap);
    assert Pow(m, 2) == m * Pow(m, 1) && Pow(m, 1) == m * Pow(m, 0) == m;
    OvershootsNegativeCap(init, m, cap);
  }

  lemma OvershootsNegativeCap(init: int, m: int, cap: int)
    requires cap < 0 && m > 1 && init * m > cap
    ensures cap * m < cap && init * (m * m) > cap * m
  {
    assert cap * (m - 1) < 0;
    assert (init * m - cap) * m > 0;
    Regroup(init, m, m);
  }

  lemma TruncateBounds(w: int, r: Multiplier)
    requires w >= 0 && r.num >= r.den
    ensures w <= Truncate(w * r.num, r.den)
    ensures Truncate(w * r.num, r.den) * r.den <= w * r.num
  {
    assert w * r.num >= w * r.den >= 0;
    var q := w * r.num / r.den;
    assert (q + 1) * r.den == q * r.den + r.den > w * r.den;
    CancelFactor(w, q + 1, r.den);
  }

  /** With truncation the waits stay below capped geometric growth (cross-multiplied to avoid fractions). */
  lemma {:induction false} GeometricEnvelope(cfg: RetryConfig, k: nat)
    requires Growing(cfg) && k >= 1
    ensures 0 <= Wait(cfg, k)
    ensures k >= 2 ==> Wait(cfg, k) <= cfg.maxWait
    ensures Wait(cfg, k) * Pow(cfg.multiplier.den, k - 1) <= cfg.initialWait * Pow(cfg.multiplier.num, k - 1)
  {
    if k > 1 {
      GeometricEnvelope(cfg, k - 1);
      var w, num, den := Wait(cfg, k - 1), cfg.multiplier.num, cfg.multiplier.den;
      TruncateBounds(w, cfg.multiplier);
      var w', dk, nk := Wait(cfg, k), Pow(den, k - 2), Pow(num, k - 2);
      PowPositive(den, k - 2);
      assert w' <= Truncate(w * num, den);
      ScaleUp(w', Truncate(w * num, den), den, w * num);
      EnvelopeStep(w, w', num, den, dk, nk, cfg.initialWait);
    }
  }

  lemma ScaleUp(w: int, t: int, den: int, bound: int)
    requires w <= t && den > 0 && t * den <= bound
    ensures w * den <= bound
  {
    assert w * den <= t * den;
  }

  lemma EnvelopeStep(w: int, w': int, num: int, den: int, dk: int, nk: int, init: int)
    requires w' * den <= w * num && dk >= 1 && num >= 1 && w * dk <= init * nk
    ensures w' * (den * dk) <= init * (num * nk)
  {
    calc {
      w' * (den * dk);
    ==
      (w' * den) * dk;
    <= { assert (w * num - w' * den) * dk >= 0; }
      (w * num) * dk;
    ==
      (w * dk) * num;
    <= { assert (init * nk - w * dk) * num >= 0; }
      (init * nk) * num;
    ==
      init * (num * nk);
    }
  }

  lemma NonDecreasing(cfg: RetryConfig, k: nat)
    requires Growing(cfg) && k >= 2
    ensures Wait(cfg, k) <= Wait(cfg, k + 1)
  {
    GeometricEnvelope(cfg, k);
    TruncateBounds(Wait(cfg, k), cfg.multiplier);
  }

  lemma {:induction false} StaysAtCap(cfg: RetryConfig, k: nat, j: nat)
    requires Growing(cfg) && 1 <= k <= j && Wait(cfg, k) == cfg.maxWait
    ensures Wait(cfg, j) == cfg.maxWait
    decreases j
  {
    if k < j {
      StaysAtCap(cfg, k, j - 1);
      TruncateBounds(cfg.maxWait, cfg.multiplier);
    }
  }

  /** Time spent in the sleeps that precede attempt `n`; a timer with a negative duration fires at once. */
  function BackoffSum(cfg: RetryConfig, n: nat): nat
    requires n >= 1
  {
    if n == 1 then 0 else BackoffSum(cfg, n - 1) + Max(Wait(cfg, n - 1), 0)
  }

  lemma {:induction false} BackoffSumBound(cfg: RetryConfig, n: nat)
    requires cfg.initialWait >= 0 && cfg.maxWait >= 0 && n >= 2
    ensures BackoffSum(cfg, n) <= cfg.initialWait + (n - 2) * cfg.maxWait
  {
    if n == 2 {
      assert BackoffSum(cfg, 1) == 0;
    } else {
      BackoffSumBound(cfg, n - 1);
      assert Wait(cfg, n - 1) <= cfg.maxWait;
      assert (n - 2) * cfg.maxWait == (n - 3) * cfg.maxWait + cfg.maxWait;
    }
  }

  lemma DefaultWaits()
    ensures var cfg := DefaultRetryConfig();
            Wait(cfg, 1) == 500 * MILLISECOND && Wait(cfg, 2) == 1000 * MILLISECOND
              && BackoffSum(cfg, 3) == 1500 * MILLISECOND
  {
    var cfg := DefaultRetryConfig();
    assert Wait(cfg, 1) == 500 * MILLISECOND;
    assert Wait(cfg, 2) == NextWait(cfg, Wait(cfg, 1));
    assert BackoffSum(cfg, 2) == BackoffSum(cfg, 1) + Max(Wait(cfg, 1), 0);
    assert BackoffSum(cfg, 3) == BackoffSum(cfg, 2) + Max(Wait(cfg, 2), 0);
  }
}
