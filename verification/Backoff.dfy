/** Equal-jitter backoff: half of the capped exponential is fixed, half is random. */
module Backoff {

  function Pow2(n: nat): nat {
    if n == 0 then 1 else 2 * Pow2(n - 1)
  }

  function Min(a: int, b: int): int {
    if a < b then a else b
  }

  function Max(a: int, b: int): int {
    if a < b then b else a
  }

  /** The exponential term for a 1-based attempt; attempts below 1 count as the first. */
  function Exponential(attempt: int, baseMs: nat, maxMs: nat): nat {
    Min(maxMs, baseMs * Pow2(Max(0, attempt - 1)))
  }

  function Half(attempt: int, baseMs: nat, maxMs: nat): nat {
    Max(1, Exponential(attempt, baseMs, maxMs) / 2)
  }

  /** Half plus a random share of half; random is a draw from [0, 1). */
  function Jitter(half: nat, random: real): int {
    half + (random * half as real).Floor
  }

  function ComputeBackoffMs(attempt: int, baseMs: nat, maxMs: nat, random: real): int {
    Jitter(Half(attempt, baseMs, maxMs), random)
  }

  lemma DrawInRange(half: nat, random: real)
    requires 0.0 <= random < 1.0 && half >= 1
    ensures half <= Jitter(half, random) < 2 * half
  {
    var extra := random * half as real;
    assert 0.0 <= extra < half as real;
    assert extra.Floor as real <= extra;
  }

  lemma DrawFor(half: nat, delay: int) returns (random: real)
    requires half <= delay < 2 * half
    ensures 0.0 <= random < 1.0 && Jitter(half, random) == delay
  {
    random := (delay - half) as real / half as real;
    assert random * half as real == (delay - half) as real;
  }

  /** The delays a draw can produce are exactly the integers from half up to twice half. */
  lemma BackoffRange(attempt: int, baseMs: nat, maxMs: nat, delay: int)
    ensures (exists random: real :: 0.0 <= random < 1.0 && ComputeBackoffMs(attempt, baseMs, maxMs, random) == delay)
            <==> Half(attempt, baseMs, maxMs) <= delay < 2 * Half(attempt, baseMs, maxMs)
  {
    var half := Half(attempt, baseMs, maxMs);
    forall random: real | 0.0 <= random < 1.0
      ensures half <= ComputeBackoffMs(attempt, baseMs, maxMs, random) < 2 * half
    {
      DrawInRange(half, random);
    }
    if half <= delay < 2 * half {
      var random := DrawFor(half, delay);
      assert ComputeBackoffMs(attempt, baseMs, maxMs, random) == delay;
    }
  }

  /** With the configuration's minima of one, a delay stays within the exponential term. */
  lemma DelayBounds(attempt: int, baseMs: nat, maxMs: nat, delay: int)
    requires attempt >= 1 && baseMs >= 1 && maxMs >= 1
    requires Half(attempt, baseMs, maxMs) <= delay < 2 * Half(attempt, baseMs, maxMs)
    ensures 1 <= delay <= maxMs && delay <= baseMs * Pow2(attempt - 1)
  {
    Pow2Positive(attempt - 1);
    assert baseMs * Pow2(attempt - 1) >= 1 by { Product(baseMs, Pow2(attempt - 1)); }
  }

  /** No configuration delays an attempt past the ceiling, or past one millisecond if there is none. */
  lemma WithinCeiling(attempt: int, baseMs: nat, maxMs: nat, delay: int)
    requires Half(attempt, baseMs, maxMs) <= delay < 2 * Half(attempt, baseMs, maxMs)
    ensures 1 <= delay <= Max(1, maxMs)
  {
  }

  /** A draw lies between half of the exponential, rounded down, and the whole of it: the n-th delay
      is about base * 2^(n-1) while that is under the ceiling, and about the ceiling from then on. */
  lemma DelayTracksExponential(n: nat, baseMs: nat, maxMs: nat, random: real)
    requires n >= 1 && baseMs >= 2 && maxMs >= 2 && 0.0 <= random < 1.0
    ensures var d := ComputeBackoffMs(n, baseMs, maxMs, random);
            if baseMs * Pow2(n - 1) <= maxMs then baseMs * Pow2(n - 1) <= 2 * d + 1 && d <= baseMs * Pow2(n - 1)
            else maxMs <= 2 * d + 1 && d <= maxMs
  {
    DrawInRange(Half(n, baseMs, maxMs), random);
    Pow2Positive(n - 1);
    assert baseMs * Pow2(n - 1) >= 2 by { ProductAtLeast(baseMs, Pow2(n - 1)); }
  }

  lemma ProductAtLeast(a: nat, b: nat)
    requires b >= 1
    ensures a * b >= a
  {
  }

  /** Until the ceiling is reached no delay is shorter than the one before, whatever the draws. */
  lemma NeverShorter(n: nat, baseMs: nat, maxMs: nat, random: real, next: real)
    requires n >= 1 && baseMs * Pow2(n) <= maxMs && 0.0 <= random < 1.0 && 0.0 <= next < 1.0
    ensures ComputeBackoffMs(n, baseMs, maxMs, random) <= ComputeBackoffMs(n + 1, baseMs, maxMs, next)
  {
    var e := baseMs * Pow2(n - 1);
    Twice(baseMs, Pow2(n - 1));
    HalfBelowCeiling(n, baseMs, maxMs, e);
    HalfBelowCeiling(n + 1, baseMs, maxMs, 2 * e);
    DrawInRange(Half(n, baseMs, maxMs), random);
    DrawInRange(Half(n + 1, baseMs, maxMs), next);
  }

  lemma Twice(a: nat, b: nat)
    ensures a * (2 * b) == 2 * (a * b)
  {
  }

  lemma HalfBelowCeiling(n: nat, baseMs: nat, maxMs: nat, e: nat)
    requires n >= 1 && e == baseMs * Pow2(n - 1) && e <= maxMs
    ensures Half(n, baseMs, maxMs) == Max(1, e / 2)
  {
  }

  /** With the default configuration the fourth delay lies between four and eight seconds. */
  lemma FourthDelay(random: real)
    requires 0.0 <= random < 1.0
    ensures 4000 <= ComputeBackoffMs(4, 1000, 300000, random) <= 8000
  {
    assert Pow2(3) == 8;
    DelayTracksExponential(4, 1000, 300000, random);
    DrawInRange(Half(4, 1000, 300000), random);
  }

  lemma {:induction false} Pow2Positive(n: nat)
    ensures Pow2(n) >= 1
  {
    if n > 0 {
      Pow2Positive(n - 1);
    }
  }

  lemma Product(a: nat, b: nat)
    requires a >= 1 && b >= 1
    ensures a * b >= 1
  {
    assert a * b >= a * 1;
  }

  /** The delays recorded for the attempts 1..n. */
  function TotalDelay(delays: map<nat, nat>, n: nat): nat {
    if n == 0 then 0 else TotalDelay(delays, n - 1) + if n in delays then delays[n] else 0
  }

  lemma Doubling(base: nat, power: nat)
    ensures base * (2 * power - 1) == base * (power - 1) + base * power
  {
  }

  lemma OneMore(n: nat, ceiling: nat)
    ensures (n + 1) * ceiling == n * ceiling + ceiling
  {
  }

  /** Whatever the draws, n retries wait at most n ceilings and at most base * (2^n - 1). */
  lemma {:induction false} TotalDelayBound(delays: map<nat, nat>, n: nat, baseMs: nat, maxMs: nat)
    requires baseMs >= 1 && maxMs >= 1
    requires forall a :: a in delays ==> a >= 1 && Half(a, baseMs, maxMs) <= delays[a] < 2 * Half(a, baseMs, maxMs)
    ensures TotalDelay(delays, n) <= n * maxMs
    ensures TotalDelay(delays, n) <= baseMs * (Pow2(n) - 1)
  {
    if n > 0 {
      TotalDelayBound(delays, n - 1, baseMs, maxMs);
      Doubling(baseMs, Pow2(n - 1));
      OneMore(n - 1, maxMs);
      LastDelay(delays, n, baseMs, maxMs);
    }
  }

  lemma LastDelay(delays: map<nat, nat>, n: nat, baseMs: nat, maxMs: nat)
    requires baseMs >= 1 && maxMs >= 1 && n >= 1
    requires n in delays ==> Half(n, baseMs, maxMs) <= delays[n] < 2 * Half(n, baseMs, maxMs)
    ensures (if n in delays then delays[n] else 0) <= maxMs
    ensures (if n in delays then delays[n] else 0) <= baseMs * Pow2(n - 1)
  {
    if n in delays {
      DelayBounds(n, baseMs, maxMs, delays[n]);
    }
    assert 0 <= baseMs * Pow2(n - 1) by {
      Pow2Positive(n - 1);
      Product(baseMs, Pow2(n - 1));
    }
  }

  /** The base, doubled so many times. */
  function Doubled(baseMs: nat, n: nat): nat {
    if n == 0 then baseMs else 2 * Doubled(baseMs, n - 1)
  }

  lemma {:induction false} DoubledIs(baseMs: nat, n: nat)
    ensures Doubled(baseMs, n) == baseMs * Pow2(n) >= baseMs
  {
    if n > 0 {
      DoubledIs(baseMs, n - 1);
      Twice(baseMs, Pow2(n - 1));
    }
  }

  lemma OneDelayAtLeast(n: nat, baseMs: nat, maxMs: nat, delay: nat)
    requires n >= 1 && Doubled(baseMs, n - 1) <= maxMs && Half(n, baseMs, maxMs) <= delay
    ensures Doubled(baseMs, n - 1) <= 2 * delay + 1
  {
    DoubledIs(baseMs, n - 1);
    HalfBelowCeiling(n, baseMs, maxMs, Doubled(baseMs, n - 1));
  }

  lemma {:induction false} DoublingsAtLeast(delays: map<nat, nat>, n: nat, baseMs: nat, maxMs: nat)
    requires n > 0 ==> Doubled(baseMs, n - 1) <= maxMs
    requires forall a :: 1 <= a <= n ==> a in delays && Half(a, baseMs, maxMs) <= delays[a]
    ensures Doubled(baseMs, n) - baseMs <= 2 * TotalDelay(delays, n) + n
  {
    if n > 0 {
      DoublingsAtLeast(delays, n - 1, baseMs, maxMs);
      OneDelayAtLeast(n, baseMs, maxMs, delays[n]);
    }
  }

  lemma LessOne(a: nat, b: nat)
    requires b >= 1
    ensures a * (b - 1) == a * b - a
  {
  }

  /** Below the ceiling, n retries wait at least half of base * (2^n - 1), but for rounding. */
  lemma TotalDelayAtLeast(delays: map<nat, nat>, n: nat, baseMs: nat, maxMs: nat)
    requires n > 0 ==> baseMs * Pow2(n - 1) <= maxMs
    requires forall a :: 1 <= a <= n ==> a in delays
    requires forall a :: a in delays ==> a >= 1 && Half(a, baseMs, maxMs) <= delays[a] < 2 * Half(a, baseMs, maxMs)
    ensures baseMs * (Pow2(n) - 1) <= 2 * TotalDelay(delays, n) + n
  {
    DoubledIs(baseMs, n);
    if n > 0 {
      DoubledIs(baseMs, n - 1);
    }
    DoublingsAtLeast(delays, n, baseMs, maxMs);
    Pow2Positive(n);
    LessOne(baseMs, Pow2(n));
  }
}
