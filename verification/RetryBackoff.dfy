/** The wait before a task's next attempt (retryDelay in internal/scheduler/scheduler.go), with the
    64-bit arithmetic of time.Duration.

    The shift can overflow: a comment in the parser says that its bound of 30 days on retry_delay and
    retry_delay_max keeps the shift inside int64, but it does not, and a default_retry_delay that a task
    inherits may be up to 365 days. The wait stays within bounds all the same; without a
    retry_delay_max it is always the documented one, and with one exactly when the wrapped product is
    out of the way. */
module RetryBackoff {

  const SECOND: int := 1_000_000_000
  const DAY: int := 24 * 3600 * SECOND
  const MAX_DELAY_SECONDS: int := 30 * 24 * 3600
  const MAX_DEFAULT_SECONDS: int := 365 * 24 * 3600
  const TWO_63: int := 0x8000_0000_0000_0000
  const TWO_64: int := 0x1_0000_0000_0000_0000
  const SATURATED: int := 0x3fff_ffff_ffff_ffff

  /** Two's complement wrap-around. */
  function Wrap64(x: int): (r: int)
    ensures -TWO_63 <= r < TWO_63 && (-TWO_63 <= x < TWO_63 ==> r == x)
  {
    var low := x % TWO_64;
    if low >= TWO_63 then low - TWO_64 else low
  }

  function Pow2(n: nat): (p: int)
    ensures p >= 1
  {
    if n == 0 then 1 else 2 * Pow2(n - 1)
  }

  function Shift(tries: int): nat {
    if tries - 1 < 0 then 0 else if tries - 1 > 20 then 20 else tries - 1
  }

  /** Delays are in seconds, as configured; the result is in nanoseconds. */
  function RetryDelay(delay: int, maxDelay: int, exponential: bool, tries: int): int {
    var base := Wrap64(delay * SECOND);
    if !exponential || base <= 0 then base
    else
      var shifted := Wrap64(base * Pow2(Shift(tries)));
      var d := if shifted < base then SATURATED else shifted;
      if maxDelay > 0 then
        var cap := Wrap64(maxDelay * SECOND);
        if d > cap then cap else d
      else if d > DAY then DAY
      else d
  }

  /** What the parser accepts: retry_delay up to 30 days, or a default_retry_delay up to 365 days
      inherited by a task that sets none; retry_delay_max up to 30 days. */
  predicate Accepted(delay: int, maxDelay: int) {
    0 <= delay <= MAX_DEFAULT_SECONDS && 0 <= maxDelay <= MAX_DELAY_SECONDS
  }

  /** Durations that exist: a base inside int64, and a cap no longer than the saturated wait. */
  predicate Representable(delay: int, maxDelay: int) {
    0 <= delay && delay * SECOND < TWO_63 && 0 <= maxDelay && maxDelay * SECOND <= SATURATED
  }

  lemma AcceptedIsRepresentable(delay: int, maxDelay: int)
    requires Accepted(delay, maxDelay)
    ensures Representable(delay, maxDelay)
  {
  }

  function Cap(maxDelay: int): int {
    if maxDelay > 0 then maxDelay * SECOND else DAY
  }

  function Min(a: int, b: int): int {
    if a < b then a else b
  }

  /** The documented delay: the base doubled for each retry, up to the cap. */
  function Doubled(delay: int, maxDelay: int, tries: int): int {
    Min(delay * SECOND * Pow2(Shift(tries)), Cap(maxDelay))
  }

  lemma {:induction false} Pow2Grows(m: nat, n: nat)
    requires m <= n
    ensures Pow2(m) <= Pow2(n)
    decreases n
  {
    if m < n {
      Pow2Grows(m, n - 1);
    }
  }

  lemma TimesAtLeast(base: int, a: int, b: int)
    requires base >= 0 && a <= b
    ensures base * a <= base * b
  {
  }

  /** However often a task has failed, and whether or not the shift overflows, the wait lies between the
      base (or the cap, if smaller) and the cap: never negative, never a hot loop. */
  lemma DelayIsBounded(delay: int, maxDelay: int, tries: int)
    requires Representable(delay, maxDelay) && delay > 0
    ensures Min(delay * SECOND, Cap(maxDelay)) <= RetryDelay(delay, maxDelay, true, tries) <= Cap(maxDelay)
  {
  }

  /** With the fixed backoff, the default, every wait is the base, whatever the cap and the number of tries; and a
      task without a delay is retried at once under either. */
  lemma FixedWaitsBase(delay: int, maxDelay: int, exponential: bool, tries: int)
    requires Representable(delay, maxDelay) && (!exponential || delay == 0)
    ensures RetryDelay(delay, maxDelay, exponential, tries) == delay * SECOND
  {
  }

  /** The shifted base as the code sees it. */
  function Shifted(delay: int, tries: int): int {
    Wrap64(delay * SECOND * Pow2(Shift(tries)))
  }

  predicate Overflows(delay: int, tries: int) {
    delay * SECOND * Pow2(Shift(tries)) >= TWO_63
  }

  /** The wait is the documented one if and only if the shift does not overflow, or the wrapped product is
      below the base (the code then saturates) or at least the cap. */
  lemma ExactIff(delay: int, maxDelay: int, tries: int)
    requires Representable(delay, maxDelay) && delay > 0
    ensures RetryDelay(delay, maxDelay, true, tries) == Doubled(delay, maxDelay, tries) <==>
              (!Overflows(delay, tries) || Shifted(delay, tries) < delay * SECOND ||
                  Shifted(delay, tries) >= Cap(maxDelay))
  {
    var base, p := delay * SECOND, Pow2(Shift(tries));
    TimesAtLeast(base, 1, p);
    assert Wrap64(base) == base && Wrap64(Cap(maxDelay)) == Cap(maxDelay);
  }

  /** With a base small enough that no shift overflows, the wait is exact and never shrinks as attempts
      accumulate. */
  lemma SmallBaseDoubles(delay: int, maxDelay: int, tries: int, later: int)
    requires Representable(delay, maxDelay) && delay > 0 && delay * SECOND * Pow2(20) < TWO_63 && tries <= later
    ensures RetryDelay(delay, maxDelay, true, tries) == Doubled(delay, maxDelay, tries)
    ensures RetryDelay(delay, maxDelay, true, tries) <= RetryDelay(delay, maxDelay, true, later)
  {
    var base := delay * SECOND;
    Pow2Grows(Shift(tries), Shift(later));
    Pow2Grows(Shift(later), 20);
    TimesAtLeast(base, Pow2(Shift(tries)), Pow2(Shift(later)));
    TimesAtLeast(base, Pow2(Shift(later)), Pow2(20));
    ExactIff(delay, maxDelay, tries);
    ExactIff(delay, maxDelay, later);
  }

  /** With such a base the first retry waits the base, or the cap if that is shorter. */
  lemma FirstWaitIsBase(delay: int, maxDelay: int, tries: int)
    requires Representable(delay, maxDelay) && delay > 0 && delay * SECOND * Pow2(20) < TWO_63 && tries <= 1
    ensures RetryDelay(delay, maxDelay, true, tries) == Min(delay * SECOND, Cap(maxDelay))
  {
    SmallBaseDoubles(delay, maxDelay, tries, tries);
    assert Pow2(Shift(tries)) == 1;
  }

  lemma DoubledDoubles(base: int, p: int, cap: int)
    requires base > 0 && cap > 0
    ensures Min(base * (2 * p), cap) == Min(2 * Min(base * p, cap), cap)
  {
    assert base * (2 * p) == 2 * (base * p);
  }

  /** Each further one waits twice as long as the one before it, until the cap or the 20th doubling. */
  lemma EachWaitDoubles(delay: int, maxDelay: int, tries: int)
    requires Representable(delay, maxDelay) && delay > 0 && delay * SECOND * Pow2(20) < TWO_63 && tries >= 1
    ensures var wait, next := RetryDelay(delay, maxDelay, true, tries), RetryDelay(delay, maxDelay, true, tries + 1);
            next == if tries <= 20 then Min(2 * wait, Cap(maxDelay)) else wait
  {
    SmallBaseDoubles(delay, maxDelay, tries, tries);
    SmallBaseDoubles(delay, maxDelay, tries + 1, tries + 1);
    DoubledDoubles(delay * SECOND, Pow2(Shift(tries)), Cap(maxDelay));
    assert tries <= 20 ==> Pow2(Shift(tries + 1)) == 2 * Pow2(Shift(tries));
  }

  lemma Pow2Values()
    ensures Pow2(17) == 131072 && Pow2(18) == 262144 && Pow2(19) == 524288 && Pow2(20) == 1048576
  {
    assert Pow2(5) == 32 && Pow2(10) == 1024 by { assert Pow2(7) == 128; }
    assert Pow2(13) == 8192;
    assert Pow2(16) == 65536;
    assert Pow2(19) == 524288;
  }

  lemma WrapOnce(x: int, j: int)
    requires j * TWO_64 <= x < (j + 1) * TWO_64
    ensures Wrap64(x) == if x - j * TWO_64 >= TWO_63 then x - (j + 1) * TWO_64 else x - j * TWO_64
  {
    assert x % TWO_64 == x - j * TWO_64;
  }

  /** Between `q` and `q + 1` steps of `unit` there is no multiple of it in the day after `from`. */
  lemma NoMultipleInDay(n: int, unit: int, from: int, q: int)
    requires unit > 0 && q * unit <= from && (q + 1) * unit >= from + DAY
    ensures n * unit <= from || n * unit >= from + DAY
  {
    if n <= q {
      assert n * unit <= q * unit;
    } else {
      assert n * unit >= (q + 1) * unit;
    }
  }

  /** A wrapped product that does not lie in the day after a multiple of 2^64. */
  lemma WrapMisses(t: int, base: int, j: int)
    requires 0 < base < DAY && j * TWO_64 <= t < (j + 1) * TWO_64
    requires t <= j * TWO_64 || t >= j * TWO_64 + DAY
    ensures Wrap64(t) < base || Wrap64(t) >= DAY
  {
    WrapOnce(t, j);
  }

  lemma MissesAtShift20(delay: int)
    requires 0 < delay < 86400 && delay * 1_048_576_000_000_000 >= TWO_63
    ensures var w := Wrap64(delay * 1_048_576_000_000_000); w < delay * SECOND || w >= DAY
  {
    var unit := 1_048_576_000_000_000;
    var t := delay * unit;
    if t < TWO_64 {
      WrapOnce(t, 0);
    } else if t < 2 * TWO_64 {
      NoMultipleInDay(delay, unit, TWO_64, 17592);
      WrapMisses(t, delay * SECOND, 1);
    } else if t < 3 * TWO_64 {
      NoMultipleInDay(delay, unit, 2 * TWO_64, 35184);
      WrapMisses(t, delay * SECOND, 2);
    } else if t < 4 * TWO_64 {
      NoMultipleInDay(delay, unit, 3 * TWO_64, 52776);
      WrapMisses(t, delay * SECOND, 3);
    } else {
      NoMultipleInDay(delay, unit, 4 * TWO_64, 70368);
      WrapMisses(t, delay * SECOND, 4);
    }
  }

  lemma MissesAtShift19(delay: int)
    requires 0 < delay < 86400 && delay * 524_288_000_000_000 >= TWO_63
    ensures var w := Wrap64(delay * 524_288_000_000_000); w < delay * SECOND || w >= DAY
  {
    var unit := 524_288_000_000_000;
    var t := delay * unit;
    if t < TWO_64 {
      WrapOnce(t, 0);
    } else if t < 2 * TWO_64 {
      NoMultipleInDay(delay, unit, TWO_64, 35184);
      WrapMisses(t, delay * SECOND, 1);
    } else {
      NoMultipleInDay(delay, unit, 2 * TWO_64, 70368);
      WrapMisses(t, delay * SECOND, 2);
    }
  }

  /** The one near miss, 70369 steps, wraps to less than its base. */
  lemma MissesAtShift18(delay: int)
    requires 0 < delay < 86400 && delay * 262_144_000_000_000 >= TWO_63
    ensures var w := Wrap64(delay * 262_144_000_000_000); w < delay * SECOND || w >= DAY
  {
    var t := delay * 262_144_000_000_000;
    WrapOnce(t, if t < TWO_64 then 0 else 1);
  }

  lemma LowShiftsWrapNegative(delay: int, p: int)
    requires 0 < delay && delay * SECOND < DAY && 1 <= p <= 131072 && delay * SECOND * p >= TWO_63
    ensures Wrap64(delay * SECOND * p) < 0
  {
    TimesAtLeast(delay * SECOND, p, 131072);
    WrapOnce(delay * SECOND * p, 0);
  }

  lemma OverflowMissesTheDay(delay: int, tries: int)
    requires 0 < delay < 86400 && Overflows(delay, tries)
    ensures Shifted(delay, tries) < delay * SECOND || Shifted(delay, tries) >= DAY
  {
    var shift := Shift(tries);
    Pow2Values();
    if shift <= 17 {
      Pow2Grows(shift, 17);
      LowShiftsWrapNegative(delay, Pow2(shift));
    } else if shift == 18 {
      assert delay * SECOND * Pow2(shift) == delay * 262_144_000_000_000;
      MissesAtShift18(delay);
    } else if shift == 19 {
      assert delay * SECOND * Pow2(shift) == delay * 524_288_000_000_000;
      MissesAtShift19(delay);
    } else {
      assert delay * SECOND * Pow2(shift) == delay * 1_048_576_000_000_000;
      MissesAtShift20(delay);
    }
  }

  /** Without retry_delay_max the wait is the documented one for every base, overflow or not. */
  lemma DefaultCapIsExact(delay: int, tries: int)
    requires Representable(delay, 0) && delay > 0
    ensures RetryDelay(delay, 0, true, tries) == Doubled(delay, 0, tries)
  {
    ExactIff(delay, 0, tries);
    if delay < 86400 && Overflows(delay, tries) {
      OverflowMissesTheDay(delay, tries);
    }
  }

  /** An accepted configuration that overflows: a base of 17593 s with the longest cap waits 30 days before
      the 20th retry and less than 10 days before the 21st. */
  lemma AcceptedConfigOverflows()
    ensures Accepted(17593, MAX_DELAY_SECONDS) && Overflows(17593, 21)
    ensures RetryDelay(17593, MAX_DELAY_SECONDS, true, 20) == MAX_DELAY_SECONDS * SECOND
    ensures RetryDelay(17593, MAX_DELAY_SECONDS, true, 21) < 10 * DAY
  {
    Pow2Values();
  }
}
