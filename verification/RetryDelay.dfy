// When a retryable failure is tried again: two capped doubling loops, a floor
// under queue pressure and a random spread, all in int64 nanoseconds.
module RetryDelay {
  import opened Wrappers

  const INT64_LIMIT: int := 0x8000_0000_0000_0000
  const INT32_MAX: int := 0x7FFF_FFFF
  const SECOND: int := 1_000_000_000
  const SAFE: int := 0x4000_0000_0000_0000   // 2^62 ns, about 146 years

  datatype RetryPolicy = RetryPolicy(
    baseDelay: int,
    maxDelay: int,
    exponential: bool,
    jitter: int,
    softLimit: int,
    pressureMultiplier: int,
    pressureMinDelay: int)

  // The retry columns of the resolved delivery policy, in seconds.
  datatype Overrides = Overrides(baseSeconds: Option<int>, maxSeconds: Option<int>)

  // Two's-complement reduction of an int64 result.
  function Wrap(x: int): (r: int)
    ensures -INT64_LIMIT <= r < INT64_LIMIT
    ensures -INT64_LIMIT <= x < INT64_LIMIT ==> r == x
  {
    (x + INT64_LIMIT) % (2 * INT64_LIMIT) - INT64_LIMIT
  }

  function Min(x: int, y: int): (m: int)
    ensures m <= x && m <= y && m in {x, y}
  {
    if x <= y then x else y
  }

  function Max(x: int, y: int): (m: int)
    ensures m >= x && m >= y && m in {x, y}
  {
    if x <= y then y else x
  }

  function Chosen(seconds: Option<int>, fallback: int): int {
    if seconds.Some? && seconds.value > 0 then Wrap(seconds.value * SECOND) else fallback
  }

  // `rounds` passes of a doubling loop that stops at its cap.
  function Doubled(delay: int, cap: int, rounds: int): int
    decreases rounds
  {
    if rounds <= 0 then delay
    else if Wrap(delay * 2) >= cap then cap
    else Doubled(Wrap(delay * 2), cap, rounds - 1)
  }

  function Backoff(p: RetryPolicy, o: Overrides, attempt: int): int {
    var base, max := Chosen(o.baseSeconds, p.baseDelay), Chosen(o.maxSeconds, p.maxDelay);
    Min(if p.exponential then Doubled(base, max, attempt - 1) else base, p.maxDelay)
  }

  predicate UnderPressure(p: RetryPolicy, depth: Option<int>) {
    p.softLimit > 0 && depth.Some? && depth.value >= p.softLimit
  }

  function Pressured(p: RetryPolicy, delay: int): int {
    Max(Doubled(delay, p.maxDelay, p.pressureMultiplier - 1), p.pressureMinDelay)
  }

  // The delay before the random spread.
  function PlainDelay(p: RetryPolicy, o: Overrides, attempt: int, depth: Option<int>): int {
    var delay := Backoff(p, o, attempt);
    if UnderPressure(p, depth) then Pressured(p, delay) else delay
  }

  // `draw` is the random number, between 0 and twice the jitter.
  function RetryIn(p: RetryPolicy, o: Overrides, attempt: int, depth: Option<int>, draw: nat): int {
    var delay := PlainDelay(p, o, attempt, depth);
    if p.jitter > 0 then Max(Wrap(delay + Wrap(draw - p.jitter)), SECOND) else delay
  }

  // The loop both stages run: `for i := 1; i < limit; i++`.
  method DoubleUpTo(start: int, cap: int, limit: int) returns (delay: int)
    ensures delay == Doubled(start, cap, limit - 1)
  {
    delay := start;
    var i := 1;
    while i < limit
      invariant i == 1 || i <= limit
      invariant Doubled(delay, cap, limit - i) == Doubled(start, cap, limit - 1)
    {
      delay := Wrap(delay * 2);
      if delay >= cap {
        delay := cap;
        break;
      }
      i := i + 1;
    }
  }

  method NextRetryDelay(p: RetryPolicy, o: Overrides, attempt: int, depth: Option<int>, draw: nat)
    returns (delay: int)
    ensures delay == RetryIn(p, o, attempt, depth, draw)
  {
    delay := p.baseDelay;
    var maxDelay := p.maxDelay;
    if o.baseSeconds.Some? && o.baseSeconds.value > 0 {
      delay := Wrap(o.baseSeconds.value * SECOND);
    }
    if o.maxSeconds.Some? && o.maxSeconds.value > 0 {
      maxDelay := Wrap(o.maxSeconds.value * SECOND);
    }
    if p.exponential {
      delay := DoubleUpTo(delay, maxDelay, attempt);
    }
    if delay > p.maxDelay {
      delay := p.maxDelay;
    }
    if p.softLimit > 0 && depth.Some? && depth.value >= p.softLimit {
      delay := DoubleUpTo(delay, p.maxDelay, p.pressureMultiplier);
      if delay < p.pressureMinDelay {
        delay := p.pressureMinDelay;
      }
    }
    if p.jitter > 0 {
      delay := Wrap(delay + Wrap(draw - p.jitter));
      if delay < SECOND {
        delay := SECOND;
      }
    }
  }

  // -------------------------------------------------------------- closed form

  function Pow2(k: nat): (r: int)
    ensures r >= 1
  {
    if k == 0 then 1 else 2 * Pow2(k - 1)
  }

  // Configured durations below 2^62 ns, overrides that fit an INTEGER column.
  predicate Configured(p: RetryPolicy, o: Overrides) {
    && 0 < p.baseDelay < SAFE && 0 < p.maxDelay < SAFE
    && p.jitter < SAFE && 0 <= p.pressureMinDelay < SAFE && p.pressureMultiplier > 0
    && (o.baseSeconds.Some? ==> o.baseSeconds.value <= INT32_MAX)
    && (o.maxSeconds.Some? ==> o.maxSeconds.value <= INT32_MAX)
  }

  lemma ChosenInRange(p: RetryPolicy, o: Overrides)
    requires Configured(p, o)
    ensures 0 < Chosen(o.baseSeconds, p.baseDelay) < SAFE
    ensures 0 < Chosen(o.maxSeconds, p.maxDelay) < SAFE
    ensures o.baseSeconds.Some? && o.baseSeconds.value > 0 ==>
      Chosen(o.baseSeconds, p.baseDelay) == o.baseSeconds.value * SECOND
    ensures o.maxSeconds.Some? && o.maxSeconds.value > 0 ==>
      Chosen(o.maxSeconds, p.maxDelay) == o.maxSeconds.value * SECOND
  {
  }

  lemma {:induction false} Doublings(delay: int, k: nat)
    requires k > 0
    ensures delay * Pow2(k) == (2 * delay) * Pow2(k - 1)
  {
    assert delay * (2 * Pow2(k - 1)) == (2 * delay) * Pow2(k - 1);
  }

  lemma Grows(delay: int, k: nat)
    requires delay > 0
    ensures delay * Pow2(k) >= delay
  {
  }

  // The loop computes a capped power of two and never leaves the int64 range.
  lemma {:induction false} DoubledClosedForm(delay: int, cap: int, rounds: int)
    requires 0 < delay < SAFE && 0 < cap < SAFE
    ensures Doubled(delay, cap, rounds) == if rounds <= 0 then delay else Min(delay * Pow2(rounds), cap)
    decreases rounds
  {
    if rounds > 0 {
      Doublings(delay, rounds);
      Grows(2 * delay, rounds - 1);
      if 2 * delay < cap {
        DoubledClosedForm(2 * delay, cap, rounds - 1);
      }
    }
  }

  // The loop stops at its cap, also where the doubling has wrapped.
  lemma CapStops(delay: int, cap: int, rounds: int)
    requires rounds >= 1 && Wrap(2 * delay) >= cap
    ensures Doubled(delay, cap, rounds) == cap
  {
  }

  // A base delay of 2^62 ns or more is tried again in the past.
  lemma LargeBaseWraps(delay: int, cap: int)
    requires SAFE <= delay < INT64_LIMIT && cap > 0
    ensures Doubled(delay, cap, 1) < 0
  {
    assert Wrap(delay * 2) == delay * 2 - 2 * INT64_LIMIT;
    assert Doubled(Wrap(delay * 2), cap, 0) == Wrap(delay * 2);
  }

  lemma BackoffClosedForm(p: RetryPolicy, o: Overrides, attempt: nat)
    requires Configured(p, o) && attempt >= 1
    ensures var base, max := Chosen(o.baseSeconds, p.baseDelay), Chosen(o.maxSeconds, p.maxDelay);
      Backoff(p, o, attempt) ==
        if !p.exponential || attempt == 1 then Min(base, p.maxDelay)
        else Min(Min(base * Pow2(attempt - 1), max), p.maxDelay)
    ensures 0 < Backoff(p, o, attempt) <= p.maxDelay
  {
    ChosenInRange(p, o);
    var base, max := Chosen(o.baseSeconds, p.baseDelay), Chosen(o.maxSeconds, p.maxDelay);
    DoubledClosedForm(base, max, attempt - 1);
    Grows(base, attempt - 1);
  }

  // The whole delay before the spread: an override counts if it is positive, the
  // system maximum caps every stage, and the queue is under pressure from the
  // soft limit on.
  lemma DelayClosedForm(p: RetryPolicy, o: Overrides, attempt: nat, depth: Option<int>)
    requires Configured(p, o) && attempt >= 1
    ensures
      var base := if o.baseSeconds.Some? && o.baseSeconds.value > 0 then o.baseSeconds.value * 1_000_000_000 else p.baseDelay;
      var max := if o.maxSeconds.Some? && o.maxSeconds.value > 0 then o.maxSeconds.value * 1_000_000_000 else p.maxDelay;
      var grown := if p.exponential && attempt > 1 then Min(base * Pow2(attempt - 1), max) else base;
      var backoff := Min(grown, p.maxDelay);
      PlainDelay(p, o, attempt, depth) ==
        if p.softLimit > 0 && depth.Some? && depth.value >= p.softLimit
        then Max(Min(backoff * Pow2(p.pressureMultiplier - 1), p.maxDelay), p.pressureMinDelay)
        else backoff
  {
    ChosenInRange(p, o);
    BackoffClosedForm(p, o, attempt);
    PressuredClosedForm(p, o, Backoff(p, o, attempt));
  }

  lemma PressuredClosedForm(p: RetryPolicy, o: Overrides, delay: int)
    requires Configured(p, o) && 0 < delay <= p.maxDelay
    ensures Pressured(p, delay) == Max(Min(delay * Pow2(p.pressureMultiplier - 1), p.maxDelay), p.pressureMinDelay)
  {
    DoubledClosedForm(delay, p.maxDelay, p.pressureMultiplier - 1);
  }

  lemma PlainInRange(p: RetryPolicy, o: Overrides, attempt: nat, depth: Option<int>)
    requires Configured(p, o) && attempt >= 1
    ensures 0 < PlainDelay(p, o, attempt, depth) <= Max(p.maxDelay, p.pressureMinDelay)
    ensures UnderPressure(p, depth) ==> PlainDelay(p, o, attempt, depth) >= p.pressureMinDelay
  {
    BackoffClosedForm(p, o, attempt);
    PressuredClosedForm(p, o, Backoff(p, o, attempt));
    Grows(Backoff(p, o, attempt), p.pressureMultiplier - 1);
  }

  // A retry is never due in the past, and with jitter never within a second;
  // the system cap bounds it but for the pressure floor and the spread.
  lemma DelayBounds(p: RetryPolicy, o: Overrides, attempt: nat, depth: Option<int>, draw: nat)
    requires Configured(p, o) && attempt >= 1 && (p.jitter > 0 ==> draw <= 2 * p.jitter)
    ensures var delay := RetryIn(p, o, attempt, depth, draw);
      && 0 < delay <= Max(SECOND, Max(p.maxDelay, p.pressureMinDelay) + Max(p.jitter, 0))
      && (p.jitter > 0 ==> delay >= SECOND)
      && delay == if p.jitter > 0 then Max(PlainDelay(p, o, attempt, depth) + draw - p.jitter, SECOND)
                  else PlainDelay(p, o, attempt, depth)
  {
    PlainInRange(p, o, attempt, depth);
  }

  // -------------------------------------------------------------- monotonicity

  lemma {:induction false} Pow2Grows(j: nat, k: nat)
    requires j <= k
    ensures Pow2(j) <= Pow2(k)
  {
    if j < k {
      Pow2Grows(j, k - 1);
    }
  }

  lemma ScaledGrows(d: int, e: int, x: int, y: int)
    requires 0 <= d <= e && 0 <= x <= y
    ensures d * x <= e * y
  {
    assert d * x <= e * x;
    assert e * x <= e * y;
  }

  // The guard a policy writer would have to check: nothing compares a base
  // override with the maximum override.
  predicate BaseWithinMax(p: RetryPolicy, o: Overrides) {
    Min(Chosen(o.baseSeconds, p.baseDelay), p.maxDelay) <= Chosen(o.maxSeconds, p.maxDelay)
  }

  ghost predicate NeverShrinks(p: RetryPolicy, o: Overrides) {
    forall m, n: nat :: 1 <= m <= n ==> Backoff(p, o, m) <= Backoff(p, o, n)
  }

  lemma BackoffGrows(p: RetryPolicy, o: Overrides, m: nat, n: nat)
    requires Configured(p, o) && 1 <= m <= n && BaseWithinMax(p, o)
    ensures Backoff(p, o, m) <= Backoff(p, o, n)
  {
    ChosenInRange(p, o);
    BackoffClosedForm(p, o, m);
    BackoffClosedForm(p, o, n);
    var base := Chosen(o.baseSeconds, p.baseDelay);
    Pow2Grows(m - 1, n - 1);
    ScaledGrows(base, base, Pow2(m - 1), Pow2(n - 1));
    Grows(base, n - 1);
  }

  // Later attempts wait at least as long, exactly when the base does not exceed
  // the maximum; otherwise the second wait is shorter than the first.
  lemma NeverShrinksIff(p: RetryPolicy, o: Overrides)
    requires Configured(p, o)
    ensures NeverShrinks(p, o) <==> !p.exponential || BaseWithinMax(p, o)
  {
    ChosenInRange(p, o);
    if !p.exponential {
      forall m, n: nat | 1 <= m <= n ensures Backoff(p, o, m) <= Backoff(p, o, n) {
        BackoffClosedForm(p, o, m);
        BackoffClosedForm(p, o, n);
      }
    } else if BaseWithinMax(p, o) {
      forall m, n: nat | 1 <= m <= n ensures Backoff(p, o, m) <= Backoff(p, o, n) {
        BackoffGrows(p, o, m, n);
      }
    } else {
      BackoffClosedForm(p, o, 1);
      BackoffClosedForm(p, o, 2);
      assert Backoff(p, o, 1) > Backoff(p, o, 2);
    }
  }

  // Pressure and its floor keep the order.
  lemma DelayGrows(p: RetryPolicy, o: Overrides, m: nat, n: nat, depth: Option<int>)
    requires Configured(p, o) && 1 <= m <= n && (!p.exponential || BaseWithinMax(p, o))
    ensures PlainDelay(p, o, m, depth) <= PlainDelay(p, o, n, depth)
  {
    NeverShrinksIff(p, o);
    BackoffClosedForm(p, o, m);
    BackoffClosedForm(p, o, n);
    var d, e := Backoff(p, o, m), Backoff(p, o, n);
    PressuredClosedForm(p, o, d);
    PressuredClosedForm(p, o, e);
    ScaledGrows(d, e, Pow2(p.pressureMultiplier - 1), Pow2(p.pressureMultiplier - 1));
  }

  // An hour of base delay against a maximum of one minute, both accepted.
  lemma OverrideCanShrink()
    ensures var p := RetryPolicy(5 * SECOND, 3600 * SECOND, true, 0, 0, 1, 0);
      var o := Overrides(Some(3600), Some(60));
      Configured(p, o) && Backoff(p, o, 1) == 3600 * SECOND && Backoff(p, o, 2) == 60 * SECOND
  {
    var p := RetryPolicy(5 * SECOND, 3600 * SECOND, true, 0, 0, 1, 0);
    var o := Overrides(Some(3600), Some(60));
    BackoffClosedForm(p, o, 1);
    BackoffClosedForm(p, o, 2);
  }
}
