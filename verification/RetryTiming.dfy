/** Waiting times between attempts: the back-off schedule, its jitter and the server's
    Retry-After hint, in nanoseconds and under Go's 64-bit wrap-around. */
module RetryTiming {
  import opened Outcomes

  const SECOND: int := 1_000_000_000
  const MAX_BACKOFF: int := 10 * SECOND
  const MAX_RETRY_AFTER: int := 60 * SECOND
  const TWO_63: int := 0x8000_0000_0000_0000
  const TWO_64: int := 0x1_0000_0000_0000_0000
  const MAX_DURATION: int := TWO_63 - 1

  function Pow2(k: nat): (p: int)
    ensures p >= 1
  {
    if k == 0 then 1 else 2 * Pow2(k - 1)
  }

  function Min(a: int, b: int): int {
    if a < b then a else b
  }

  /** The int64 that holds `v` modulo 2^64. */
  function Wrap64(v: int): int {
    var low := v % TWO_64;
    if low < TWO_63 then low else low - TWO_64
  }

  /** Go's `x << k` on int64, for any shift count. */
  function ShiftLeft64(x: int, k: nat): int {
    Wrap64(x * Pow2(k))
  }

  /** The wait before retry `attempt`, counted from 1. */
  function BackoffDelay(attempt: nat): (delay: int)
    requires attempt >= 1
    ensures 0 < delay <= MAX_BACKOFF
  {
    var delay := ShiftLeft64(SECOND, attempt - 1);
    if delay <= 0 || delay > MAX_BACKOFF then MAX_BACKOFF else delay
  }

  lemma {:induction false} Pow2Sum(a: nat, b: nat)
    ensures Pow2(a + b) == Pow2(a) * Pow2(b)
  {
    if a > 0 {
      Pow2Sum(a - 1, b);
      assert Pow2(a + b) == 2 * Pow2(a - 1 + b);
    }
  }

  lemma {:induction false} Pow2Monotone(a: nat, b: nat)
    requires a <= b
    ensures Pow2(a) <= Pow2(b)
    decreases b
  {
    if a < b { Pow2Monotone(a, b - 1); }
  }

  /** A multiple of 2^34 stays one when it wraps, so it never lands in (0, 10 s]. */
  lemma WrappedMultipleIsNeverShort(m: int)
    ensures Wrap64(m * 0x4_0000_0000) <= 0 || Wrap64(m * 0x4_0000_0000) > MAX_BACKOFF
  {
    var v := m * 0x4_0000_0000;
    var q := v / TWO_64;
    var low := v % TWO_64;
    assert TWO_64 == 0x4_0000_0000 * 0x4000_0000;
    assert low == 0x4_0000_0000 * (m - q * 0x4000_0000);
    var units := m - q * 0x4000_0000;
    assert units >= 1 ==> low >= 0x4_0000_0000;
  }

  lemma Pow2Of25()
    ensures Pow2(4) == 16 && Pow2(25) == 0x200_0000
  {
    assert Pow2(1) == 2 && Pow2(2) == 4 && Pow2(3) == 8 && Pow2(4) == 16 && Pow2(5) == 32;
    Pow2Sum(5, 5);
    Pow2Sum(10, 10);
    Pow2Sum(20, 5);
  }

  lemma ShortShiftsDoNotWrap(k: nat)
    requires 4 <= k < 25
    ensures Wrap64(SECOND * Pow2(k)) == SECOND * Pow2(k) > MAX_BACKOFF
  {
    Pow2Monotone(4, k);
    Pow2Monotone(k, 25);
    Pow2Of25();
  }

  lemma LongShiftsAreMultiples(k: nat)
    requires k >= 25
    ensures SECOND * Pow2(k) == 1953125 * Pow2(k - 25) * 0x4_0000_0000
    ensures Pow2(k) >= 16
  {
    Pow2Sum(25, k - 25);
    Pow2Monotone(4, k);
    Pow2Of25();
  }

  /** No shift count, however far it wraps, yields a wait other than the capped doubling. */
  lemma BackoffIsCappedDoubling(attempt: nat)
    requires attempt >= 1
    ensures BackoffDelay(attempt) == Min(Pow2(attempt - 1) * SECOND, MAX_BACKOFF)
  {
    var k := attempt - 1;
    if k < 4 {
      assert Pow2(0) == 1 && Pow2(1) == 2 && Pow2(2) == 4 && Pow2(3) == 8;
    } else if k < 25 {
      ShortShiftsDoNotWrap(k);
    } else {
      LongShiftsAreMultiples(k);
      WrappedMultipleIsNeverShort(1953125 * Pow2(k - 25));
    }
  }

  /** The schedule in nanoseconds: one second, two, four, eight, and ten from then on. */
  lemma ScheduleIs(attempt: nat)
    requires attempt >= 1
    ensures BackoffDelay(attempt) == (
      if attempt == 1 then 1_000_000_000 else if attempt == 2 then 2_000_000_000
      else if attempt == 3 then 4_000_000_000 else if attempt == 4 then 8_000_000_000 else 10_000_000_000)
  {
    BackoffIsCappedDoubling(attempt);
    if attempt >= 5 {
      Pow2Of25();
      Pow2Monotone(4, attempt - 1);
    } else {
      assert Pow2(0) == 1 && Pow2(1) == 2 && Pow2(2) == 4 && Pow2(3) == 8;
    }
  }

  /** A wait within a fifth of the delay, cut down to a whole nanosecond. */
  predicate Jittered(delay: int, d: int) {
    8 * delay - 10 < 10 * d <= 12 * delay
  }

  function Scaled(x: real, factor: real): real {
    x * factor
  }

  /** jitter: the delay times 0.8 + 0.4 * r for a random r in [0, 1), cut down. */
  function Jitter(delay: int, r: real): (d: int)
    requires delay >= 0 && 0.0 <= r < 1.0
  {
    Scaled(delay as real, 0.8 + 0.4 * r).Floor
  }

  lemma JitterStaysWithinAFifth(delay: int, r: real)
    requires delay > 0 && 0.0 <= r < 1.0
    ensures Jittered(delay, Jitter(delay, r)) && 10 * Jitter(delay, r) < 12 * delay
  {
    hide Scaled;
    if r > 0.0 { ScalingIsMonotone(delay as real, 0.8, 0.8 + 0.4 * r); }
    ScalingIsMonotone(delay as real, 0.8 + 0.4 * r, 1.2);
    CutDown(delay, Scaled(delay as real, 0.8 + 0.4 * r));
  }

  lemma ScalingIsMonotone(x: real, a: real, b: real)
    requires x > 0.0 && a < b
    ensures Scaled(x, a) < Scaled(x, b)
  {
    assert x * b - x * a == x * (b - a);
  }

  lemma CutDown(delay: int, y: real)
    requires Scaled(delay as real, 0.8) <= y < Scaled(delay as real, 1.2)
    ensures 8 * delay - 10 < 10 * y.Floor < 12 * delay
  {
    var d := y.Floor;
    assert d as real <= y < d as real + 1.0;
    assert (10 * d) as real < (12 * delay) as real;
    assert (8 * delay - 10) as real < (10 * d) as real;
  }

  /** delayFor in production: the schedule, widened by a random factor. */
  method DelayFor(attempt: nat) returns (d: int)
    requires attempt >= 1
    ensures Jittered(BackoffDelay(attempt), d)
    ensures 8 * BackoffDelay(attempt) - 10 < 10 * d <= 12 * BackoffDelay(attempt)
  {
    var r: real := *;      // rand.Float64()
    if r < 0.0 || r >= 1.0 { r := 0.0; }
    JitterStaysWithinAFifth(BackoffDelay(attempt), r);
    d := Jitter(BackoffDelay(attempt), r);
  }

  predicate AllDigits(s: string) {
    forall i :: 0 <= i < |s| ==> '0' <= s[i] <= '9'
  }

  function DecimalValue(s: string): (v: int)
    requires AllDigits(s)
    ensures v >= 0
  {
    if s == "" then 0
    else 10 * DecimalValue(s[..|s| - 1]) + (s[|s| - 1] as int - '0' as int)
  }

  /** strconv.ParseUint(value, 10, 64) */
  function ParseUint64(value: string): Option<int> {
    if value != "" && AllDigits(value) && DecimalValue(value) < TWO_64
    then Some(DecimalValue(value)) else None
  }

  /** time.Time.Sub saturates instead of wrapping. */
  function Saturate(d: int): int {
    if d > MAX_DURATION then MAX_DURATION else if d < -TWO_63 then -TWO_63 else d
  }

  /** parseRetryAfter; `date` is what http.ParseTime makes of `value`. */
  function ParseRetryAfter(value: string, date: Option<int>, now: int): Option<int> {
    if value == "" then None
    else
      var seconds := ParseUint64(value);
      if seconds.Some? then
        Some(if seconds.value > MAX_DURATION / SECOND then MAX_DURATION
             else Wrap64(seconds.value * SECOND))
      else if date.Some? then
        var delay := Saturate(date.value - now);
        Some(if delay < 0 then 0 else delay)
      else None
  }

  function BoundedRetryAfter(delay: int): int {
    if delay < 0 then 0 else if delay > MAX_RETRY_AFTER then MAX_RETRY_AFTER else delay
  }

  /** The hint send really waits for. */
  function Hint(value: string, date: Option<int>, now: int): (wait: Option<int>)
    ensures wait.Some? ==> 0 <= wait.value <= MAX_RETRY_AFTER
    ensures date.Some? && ParseUint64(value).None? && value != "" && 0 <= date.value - now <= MAX_RETRY_AFTER
            ==> wait == Some(date.value - now)
  {
    var parsed := ParseRetryAfter(value, date, now);
    if parsed.Some? then Some(BoundedRetryAfter(parsed.value)) else None
  }

  /** A digit string is honoured, capped at one minute, if and only if it is below 2^64:
      a longer number is no date either, so the hint is then dropped, not capped. */
  lemma DeltaSecondsAreCapped(value: string, now: int)
    requires value != "" && AllDigits(value)
    ensures Hint(value, None, now).Some? <==> DecimalValue(value) < TWO_64
    ensures DecimalValue(value) < TWO_64 ==>
              Hint(value, None, now) == Some(Min(DecimalValue(value), 60) * SECOND)
  {
    var v := DecimalValue(value);
    if v <= MAX_DURATION / SECOND {
      assert 0 <= v * SECOND < TWO_63;
      assert Wrap64(v * SECOND) == v * SECOND;
    }
  }

  /** All of the hint: none for an empty header; a digit string below 2^64 is that many seconds,
      a minute at most; a date is the time until then, nothing if it is past and a minute at most;
      anything else is no hint. */
  lemma HintIsExact(value: string, date: Option<int>, now: int)
    ensures Hint(value, date, now) == (
      if value == "" then None
      else if AllDigits(value) && DecimalValue(value) < 0x1_0000_0000_0000_0000 then
        Some(if DecimalValue(value) < 60 then DecimalValue(value) * 1_000_000_000 else 60_000_000_000)
      else if date.Some? then
        Some(if date.value <= now then 0
             else if date.value >= now + 60_000_000_000 then 60_000_000_000 else date.value - now)
      else None)
  {
    if value != "" && AllDigits(value) && DecimalValue(value) < TWO_64 {
      var v := DecimalValue(value);
      if v <= MAX_DURATION / SECOND {
        assert 0 <= v * SECOND < TWO_63;
        assert Wrap64(v * SECOND) == v * SECOND;
      }
    }
  }

  function Pow10(k: nat): int {
    if k == 0 then 1 else 10 * Pow10(k - 1)
  }

  /** A one followed by `k` zeros. */
  function RoundNumber(k: nat): string {
    if k == 0 then "1" else RoundNumber(k - 1) + "0"
  }

  lemma {:induction false} RoundNumberValue(k: nat)
    ensures AllDigits(RoundNumber(k))
    ensures DecimalValue(RoundNumber(k)) == Pow10(k)
  {
    var s := RoundNumber(k);
    if k == 0 {
      assert s[..0] == "";
    } else {
      RoundNumberValue(k - 1);
      assert s[..|s| - 1] == RoundNumber(k - 1);
    }
  }

  /** A concrete header that is ignored rather than capped: 10^20 seconds. */
  lemma HugeRetryAfterIsIgnored(now: int)
    ensures Hint(RoundNumber(20), None, now) == None
  {
    RoundNumberValue(20);
    assert Pow10(4) == 10_000;
    assert Pow10(8) == 100_000_000;
    assert Pow10(12) == 1_000_000_000_000;
    assert Pow10(16) == 10_000_000_000_000_000;
    assert Pow10(20) == 100_000_000_000_000_000_000;
    DeltaSecondsAreCapped(RoundNumber(20), now);
  }
}
