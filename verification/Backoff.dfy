/** Reconnect delays of a replica, in nanoseconds. */
module Backoff {

  /** A duration: arithmetic on it is checked against the 64-bit range. */
  newtype Duration = x: int | -0x8000_0000_0000_0000 <= x < 0x8000_0000_0000_0000

  const MILLISECOND: Duration := 1_000_000
  const DEFAULT_INITIAL: Duration := 500_000_000
  const DEFAULT_MAX: Duration := 5_000_000_000

  function Pow2(n: nat): nat {
    if n == 0 then 1 else 2 * Pow2(n - 1)
  }

  lemma {:induction false} PowersMultiply(m: nat, n: nat)
    ensures Pow2(m + n) == Pow2(m) * Pow2(n)
    ensures Pow2(0) == 1 && Pow2(1) == 2
  {
    if m > 0 {
      PowersMultiply(m - 1, n);
      TwiceProduct(Pow2(m - 1), Pow2(n), Pow2(m - 1 + n));
    }
  }

  lemma TwiceProduct(a: int, b: int, product: int)
    requires product == a * b
    ensures 2 * product == (2 * a) * b
  {
  }

  function Min(a: int, b: int): int {
    if a <= b then a else b
  }

  /** A delay doubled a number of times. */
  function Doubled(first: int, n: nat): int {
    if n == 0 then first else 2 * Doubled(first, n - 1)
  }

  lemma {:induction false} DoubledIsProduct(first: int, n: nat)
    ensures Doubled(first, n) == first * Pow2(n)
  {
    if n == 0 {
    } else {
      DoubledIsProduct(first, n - 1);
      assert first * (2 * Pow2(n - 1)) == 2 * (first * Pow2(n - 1));
    }
  }

  lemma {:induction false} DoubledMonotone(first: int, m: nat, n: nat)
    requires first > 0 && m <= n
    ensures first <= Doubled(first, m) <= Doubled(first, n)
    decreases n
  {
    if m < n {
      DoubledMonotone(first, m, n - 1);
    } else if n > 0 {
      DoubledMonotone(first, m - 1, n - 1);
    }
  }

  /** The first delay: a default when the configured one is not positive. */
  function InitialDelay(initial: Duration): Duration {
    if initial <= 0 then DEFAULT_INITIAL else initial
  }

  /** The cap, never below the first delay. */
  function DelayCap(initial: Duration, cap: Duration): Duration {
    if cap <= 0 || cap < InitialDelay(initial) then InitialDelay(initial) else cap
  }

  /** The delay after a number of failed attempts, without a width limit. */
  function IdealDelay(initial: Duration, cap: Duration, attempt: int): int {
    var first := InitialDelay(initial) as int;
    if attempt <= 0 then first
    else Min(DelayCap(initial, cap) as int, Doubled(first, attempt))
  }

  /** Doubling with the cap checked first: no intermediate value passes the cap, so none leaves 64 bits,
      at any attempt count. */
  method ExponentialBackoff(initial: Duration, cap: Duration, attempt: int) returns (delay: Duration)
    ensures delay as int == IdealDelay(initial, cap, attempt)
    ensures InitialDelay(initial) <= delay <= DelayCap(initial, cap)
  {
    var first := if initial <= 0 then DEFAULT_INITIAL else initial;
    var limit := if cap <= 0 || cap < first then first else cap;
    if attempt <= 0 {
      return first;
    }
    delay := first;
    var i := 0;
    while i < attempt
      invariant 0 <= i <= attempt
      invariant first <= delay <= limit
      invariant delay as int == Doubled(first as int, i)
    {
      DoubledMonotone(first as int, i + 1, attempt);
      if delay >= limit {
        return limit;
      }
      if delay > limit / 2 {
        return limit;
      }
      delay := delay * 2;
      i := i + 1;
    }
  }

  /** Waiting longer never shortens the next delay. */
  lemma DelayMonotone(initial: Duration, cap: Duration, m: int, n: int)
    requires m <= n
    ensures IdealDelay(initial, cap, m) <= IdealDelay(initial, cap, n)
  {
    var first := InitialDelay(initial) as int;
    if m <= 0 {
      if n > 0 {
        DoubledMonotone(first, 0, n);
      }
    } else {
      DoubledMonotone(first, m, n);
    }
  }

  datatype Config = Config(initial: Duration, max: Duration)

  function Normalize(cfg: Config): (result: Config)
    ensures result.max > 0 && result.initial <= result.max && result.initial != 0
    ensures result.initial == cfg.initial || (cfg.initial == 0 && result.initial == 500_000_000)
    ensures result.max == result.initial || (cfg.max > 0 && result.max == cfg.max) ||
            (cfg.max <= 0 && result.max == 5_000_000_000)
    ensures cfg.max > 0 && cfg.max >= result.initial ==> result.max == cfg.max
    ensures cfg.max <= 0 && result.initial <= 5_000_000_000 ==> result.max == 5_000_000_000
  {
    var initial := if cfg.initial == 0 then DEFAULT_INITIAL else cfg.initial;
    var max := if cfg.max <= 0 then DEFAULT_MAX else cfg.max;
    Config(initial, if max < initial then initial else max)
  }

  /** The scaled delay fits a duration. */
  predicate Fits(delay: int) {
    -0x8000_0000_0000_0000 <= delay < 0x8000_0000_0000_0000
  }

  /** A conversion from floating point: a value that does not fit becomes an arbitrary duration. */
  method Convert(scaled: int) returns (delay: Duration)
    ensures Fits(scaled) ==> delay as int == scaled
  {
    if Fits(scaled) {
      delay := scaled as Duration;
    } else {
      delay := *;
    }
  }

  /** A scaled delay within its bounds: at most the maximum, else at least a millisecond; whatever a value that does
      not fit is converted to. */
  method JitteredDelay(base: Duration, max: Duration, random: real) returns (delay: Duration)
    ensures FollowsJitterRule(base as int, max, random, delay)
    ensures delay <= max || delay == MILLISECOND
  {
    var jitter := 0.5 + random;
    if jitter < 0.1 {
      jitter := 0.1;
    }
    if jitter > 2.0 {
      jitter := 2.0;
    }
    delay := Convert((base as real * jitter).Floor);
    if delay > max {
      return max;
    }
    if delay < MILLISECOND {
      return MILLISECOND;
    }
  }

  /** How a base delay becomes a wait: times a half plus the random draw, the factor kept between 0.1 and 2, without
      the fraction; and that not more than the maximum, or else not less than a millisecond. Only a product that
      leaves 64 bits is not fixed further. */
  ghost predicate FollowsJitterRule(base: int, max: Duration, random: real, delay: Duration) {
    var factor := if 0.5 + random < 0.1 then 0.1 else if 0.5 + random > 2.0 then 2.0 else 0.5 + random;
    var scaled := (base as real * factor).Floor;
    && (max >= 1_000_000 ==> 1_000_000 <= delay <= max)
    && (-0x8000_0000_0000_0000 <= scaled < 0x8000_0000_0000_0000 ==>
        delay as int == if scaled > max as int then max as int else if scaled < 1_000_000 then 1_000_000 else scaled)
  }

  /** How long to wait after a number of failed attempts: the base is the first delay times two to that power, but not
      more than the cap. */
  ghost predicate FollowsDelayRule(cfg: Config, attempt: nat, random: real, delay: Duration) {
    var first := if cfg.initial <= 0 then 500_000_000 else cfg.initial as int;
    var cap := if cfg.max as int < first then first else cfg.max as int;
    var doubled := first * Pow2(attempt);
    FollowsJitterRule(if doubled < cap then doubled else cap, cfg.max, random, delay)
  }

  /** The base delay, as a product. */
  lemma IdealIsProduct(initial: Duration, cap: Duration, attempt: nat)
    ensures
      var first := if initial <= 0 then 500_000_000 else initial as int;
      var limit := if cap as int < first then first else cap as int;
      IdealDelay(initial, cap, attempt) ==
        if first * Pow2(attempt) < limit then first * Pow2(attempt) else limit
  {
    DoubledIsProduct(InitialDelay(initial) as int, attempt);
    DoubledMonotone(InitialDelay(initial) as int, 0, attempt);
  }

  lemma TimesMonotone(b: real, x: real, y: real)
    requires b >= 0.0 && x <= y
    ensures b * x <= b * y
  {
    assert b * (y - x) >= 0.0;
  }

  /** For every random draw the scaled delay is at most twice the base and never negative. */
  lemma JitterBounds(base: int, random: real)
    requires base >= 0
    ensures
      var factor := if 0.5 + random < 0.1 then 0.1 else if 0.5 + random > 2.0 then 2.0 else 0.5 + random;
      0 <= (base as real * factor).Floor <= 2 * base
  {
    var factor := if 0.5 + random < 0.1 then 0.1 else if 0.5 + random > 2.0 then 2.0 else 0.5 + random;
    ScaledBetween(base, base as real, factor, base as real * factor);
  }

  lemma ScaledBetween(base: int, b: real, factor: real, x: real)
    requires base >= 0 && b == base as real && 0.0 <= factor <= 2.0 && x == b * factor
    ensures 0 <= x.Floor <= 2 * base
  {
    TimesBetween(b, factor);
    assert 0.0 <= x <= b + b;
    FloorBetween(x, b, base);
  }

  /** So for a base delay below 2^62 ns the rule fixes the wait, whatever the random draw. */
  lemma JitterFits(base: int, max: Duration, random: real, d1: Duration, d2: Duration)
    requires 0 <= base < 0x4000_0000_0000_0000
    requires FollowsJitterRule(base, max, random, d1) && FollowsJitterRule(base, max, random, d2)
    ensures d1 == d2
  {
    JitterBounds(base, random);
  }

  lemma TimesBetween(b: real, x: real)
    requires b >= 0.0 && 0.0 <= x <= 2.0
    ensures 0.0 <= b * x <= b + b
  {
    TimesMonotone(b, 0.0, x);
    TimesMonotone(b, x, 2.0);
  }

  lemma FloorBetween(x: real, b: real, n: int)
    requires b == n as real && 0.0 <= x <= b + b
    ensures 0 <= x.Floor <= 2 * n
  {
    assert b + b == (n + n) as real;
  }
}
