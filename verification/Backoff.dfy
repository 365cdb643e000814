/** The two exponential delays: the outbox relay's, which guards its doubling, and the RPC policy's, which
    does not. Delays are signed 64-bit nanosecond counts. */
module Backoff {
  import opened Text

  function Pow2(n: nat): (r: nat)
    ensures r >= 1
  {
    if n == 0 then 1 else 2 * Pow2(n - 1)
  }

  /** The delay after a number of doublings: exponential, up to a ceiling. */
  function Capped(base: int, max: int, doublings: nat): (r: int) {
    if base * Pow2(doublings) > max then max else base * Pow2(doublings)
  }

  lemma CappedStep(base: int, max: int, n: nat)
    requires 0 < base <= max
    ensures Capped(base, max, n) == max ==> Capped(base, max, n + 1) == max
    ensures Capped(base, max, n) < max ==> Capped(base, max, n) == base * Pow2(n)
    ensures base * Pow2(n + 1) == 2 * (base * Pow2(n))
    ensures 0 < base * Pow2(n) && base <= Capped(base, max, n) <= max
  {
  }

  lemma {:induction false} CappedStays(base: int, max: int, n: nat, m: nat)
    requires 0 < base <= max && n <= m && Capped(base, max, n) == max
    ensures Capped(base, max, m) == max
    decreases m - n
  {
    if n < m {
      CappedStep(base, max, n);
      CappedStays(base, max, n + 1, m);
    }
  }

  /** The relay's delay for every attempt and every valid configuration, without overflow. */
  method RetryDelay(base: int64, max: int64, attempt: int64) returns (delay: int64)
    requires 0 < base <= max
    ensures delay as int == if attempt >= 1 then Capped(base as int, max as int, attempt as int - 1) else base as int
  {
    hide Capped;
    delay := base;
    var index: int64 := 1;
    assert Capped(base as int, max as int, 0) == base as int by { CappedStart(base as int, max as int); }
    while index < attempt && delay < max
      invariant 1 <= index && (index <= attempt || index == 1)
      invariant delay as int == Capped(base as int, max as int, index as int - 1)
      invariant 0 < delay <= max
      decreases attempt as int - index as int
    {
      DelayStep(base as int, max as int, index as int - 1);
      if delay > max / 2 {
        CappedStays(base as int, max as int, index as int, attempt as int - 1);
        return max;
      }
      delay := delay * 2;
      index := index + 1;
    }
    if index < attempt {
      CappedStays(base as int, max as int, index as int - 1, attempt as int - 1);
    }
    if delay > max {
      return max;
    }
  }

  lemma CappedStart(base: int, max: int)
    requires 0 < base <= max
    ensures Capped(base, max, 0) == base
  {
  }

  lemma DelayStep(base: int, max: int, n: nat)
    requires 0 < base <= max && Capped(base, max, n) < max
    ensures Capped(base, max, n + 1) == if 2 * Capped(base, max, n) > max then max else 2 * Capped(base, max, n)
  {
    CappedStep(base, max, n);
  }

  // ---------------------------------------------------------------- the unguarded loop

  /** Doubling in 64-bit arithmetic first, comparing afterwards. */
  function WrappedDouble(delay: int, max: int): (r: int) {
    var doubled := Wrap64(2 * delay);
    if doubled > max then max else doubled
  }

  function Doublings(delay: int, max: int, steps: nat): (r: int)
    decreases steps
  {
    if steps == 0 || delay >= max then delay else Doublings(WrappedDouble(delay, max), max, steps - 1)
  }

  /** The RPC policy's backoff with no jitter. */
  method RpcBackoff(base: Int64, max: Int64, attempt: Int64) returns (delay: Int64)
    ensures delay == Doublings(base, max, if attempt > 1 then attempt - 1 else 0)
  {
    delay := base;
    var step := 1;
    while step < attempt && delay < max
      invariant 1 <= step
      invariant attempt > 1 ==> step <= attempt && Doublings(base, max, attempt - 1) == Doublings(delay, max, attempt - step)
      invariant attempt <= 1 ==> delay == base
      decreases attempt - step
    {
      delay := Wrap64(2 * delay);
      if delay > max {
        delay := max;
      }
      step := step + 1;
    }
  }

  const HALF: int := 0x4000_0000_0000_0000  // 2 to the 62nd

  /** Some delay below the ceiling doubles past the 64-bit range. */
  ghost predicate Overflows(base: int, max: int) {
    exists k: nat :: HALF <= base * Pow2(k) < max
  }

  lemma DoubleIsSafe(delay: int, max: int)
    requires 0 < delay < max <= MAX_INT64
    ensures delay < HALF ==> WrappedDouble(delay, max) == if 2 * delay > max then max else 2 * delay
    ensures HALF <= delay ==> WrappedDouble(delay, max) < 0
  {
  }

  lemma AtMax(max: int, steps: nat)
    ensures Doublings(max, max, steps) == max
  {
  }

  /** As long as no doubling overflows, the unguarded loop meets the same formula. */
  lemma {:induction false} SafeDoublings(base: int, max: int, n: nat, steps: nat)
    requires 0 < base <= max <= MAX_INT64 && !Overflows(base, max)
    ensures Doublings(Capped(base, max, n), max, steps) == Capped(base, max, n + steps)
    decreases steps
  {
    var delay := Capped(base, max, n);
    CappedStep(base, max, n);
    if delay == max {
      CappedStays(base, max, n, n + steps);
      AtMax(max, steps);
    } else if steps > 0 {
      assert !(HALF <= base * Pow2(n) < max);
      DoubleIsSafe(delay, max);
      DelayStep(base, max, n);
      SafeDoublings(base, max, n + 1, steps - 1);
    }
  }

  lemma {:induction false} FirstOverflow(base: int, max: int, n: nat, k: nat)
    requires 0 < base <= max <= MAX_INT64 && n <= k && HALF <= base * Pow2(k) < max
    requires forall i: nat :: i < k ==> base * Pow2(i) < HALF
    ensures Doublings(Capped(base, max, n), max, k - n + 1) < 0
    decreases k - n
  {
    hide Capped;
    hide WrappedDouble;
    Below(base, max, n, k);
    DoubleIsSafe(base * Pow2(n), max);
    CappedStep(base, max, n);
    var delay := base * Pow2(n);
    assert Doublings(delay, max, k - n + 1) == Doublings(WrappedDouble(delay, max), max, k - n);
    if n < k {
      DelayStep(base, max, n);
      FirstOverflow(base, max, n + 1, k);
    }
  }

  lemma Twice(base: int, n: nat)
    ensures base * Pow2(n + 1) == 2 * (base * Pow2(n))
  {
  }

  lemma {:induction false} Below(base: int, max: int, n: nat, k: nat)
    requires 0 < base && n <= k && base * Pow2(k) < max
    ensures 0 < base * Pow2(n) < max && Capped(base, max, n) == base * Pow2(n)
    decreases k - n
  {
    hide Pow2;
    Twice(base, n);
    if n < k {
      Below(base, max, n + 1, k);
    }
  }

  lemma {:induction false} LeastOverflow(base: int, max: int, k: nat) returns (least: nat)
    requires 0 < base && HALF <= base * Pow2(k) < max
    ensures HALF <= base * Pow2(least) < max && forall i: nat :: i < least ==> base * Pow2(i) < HALF
  {
    if k == 0 || base * Pow2(k - 1) < HALF {
      least := k;
      forall i: nat | i < k
        ensures base * Pow2(i) < HALF
      {
        Below(base, HALF, i, k - 1);
      }
    } else {
      least := LeastOverflow(base, max, k - 1);
    }
  }

  /** The unguarded loop equals min(max, base * 2^(attempt - 1)) for every attempt exactly when no delay below
      the ceiling is 2^62 or more. */
  lemma BackoffExactly(base: int, max: int)
    requires 0 < base <= max <= MAX_INT64
    ensures (forall steps: nat :: Doublings(base, max, steps) == Capped(base, max, steps)) <==> !Overflows(base, max)
  {
    CappedStart(base, max);
    if Overflows(base, max) {
      var k: nat :| HALF <= base * Pow2(k) < max;
      var least := LeastOverflow(base, max, k);
      FirstOverflow(base, max, 0, least);
      CappedStep(base, max, least + 1);
      hide Doublings;
      hide Capped;
      assert Doublings(base, max, least + 1) != Capped(base, max, least + 1);
    } else {
      forall steps: nat
        ensures Doublings(base, max, steps) == Capped(base, max, steps)
      {
        SafeDoublings(base, max, 0, steps);
      }
    }
  }

  /** In particular it holds for every ceiling up to 2^62. */
  lemma SafeCeiling(base: int, max: int, steps: nat)
    requires 0 < base <= max <= HALF
    ensures Doublings(base, max, steps) == Capped(base, max, steps)
  {
    CappedStart(base, max);
    SafeDoublings(base, max, 0, steps);
  }

  /** A valid configuration whose third delay is negative. */
  lemma UnguardedOverflow()
    ensures Doublings(HALF / 2, MAX_INT64, 2) < 0 < Capped(HALF / 2, MAX_INT64, 2)
  {
    var first := WrappedDouble(HALF / 2, MAX_INT64);
    assert first == HALF;
    assert WrappedDouble(first, MAX_INT64) < 0;
    assert Doublings(HALF / 2, MAX_INT64, 2) == Doublings(first, MAX_INT64, 1) == Doublings(WrappedDouble(first, MAX_INT64), MAX_INT64, 0);
    assert Pow2(2) == 4;
  }
}
