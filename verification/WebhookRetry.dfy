/** Retry classification and the backoff schedule (webhooks/webhook-retry.ts). */
module WebhookRetry {
  import opened Common
  import opened Text

  /** What the destination's answer means. */
  datatype OutcomeKind = Accepted | Retry | Rejected

  datatype Policy = Policy(maxAttempts: nat, baseDelayMs: nat, maxBackoffMs: nat)

  /** The configuration only admits positive values. */
  predicate ValidPolicy(policy: Policy) {
    policy.maxAttempts > 0 && policy.baseDelayMs > 0 && policy.maxBackoffMs > 0
  }

  const BACKOFF_FACTOR: nat := 5

  function ClassifyResponseStatus(status: int): OutcomeKind {
    if 200 <= status < 300 then Accepted
    else if status == 408 || status == 425 || status == 429 || status >= 500 then Retry
    else Rejected
  }

  /** Bounds a delay to [0, maxBackoffMs]. */
  function Clamp(delayMs: int, maxBackoffMs: int): int {
    if delayMs < 0 then 0 else Min(delayMs, Max(0, maxBackoffMs))
  }

  /**
   * Section 10.2.3 of RFC 9110: a delay in seconds, or an HTTP date. `asDate` is the instant the
   * text denotes when it is a date. A delay that is not positive counts as no header.
   */
  function ParseRetryAfter(header: Option<string>, asDate: Option<Time>, now: Time, maxBackoffMs: int): Option<int> {
    if header.None? || |Trim(header.value)| == 0 then None
    else
      var raw := Trim(header.value);
      if AllNumerals(raw, 10) then
        var delay := ParseNumeral(raw, 10) * 1000;
        if delay > 0 then Some(Clamp(delay, maxBackoffMs)) else None
      else if !IsLetter(raw[0]) || asDate.None? then None
      else
        var delay := asDate.value - now;
        if delay > 0 then Some(Clamp(delay, maxBackoffMs)) else None
  }

  /** Deterministic ceiling: nothing for the first attempt, then base·5^(n-2), capped. */
  function BackoffCeilingMs(attempt: int, baseDelayMs: int, maxBackoffMs: int): int {
    if attempt <= 1 then 0
    else Clamp(baseDelayMs * Power(BACKOFF_FACTOR, Min(attempt - 2, 30)), maxBackoffMs)
  }

  /** Full jitter: uniform in [0, ceiling] for a random number in [0, 1). */
  function NextAttemptDelayMs(attempt: int, policy: Policy, random: real): int {
    var ceiling := BackoffCeilingMs(attempt, policy.baseDelayMs, policy.maxBackoffMs);
    if ceiling == 0 then 0 else (random * (ceiling + 1) as real).Floor
  }

  predicate HasAttemptsRemaining(attemptsMade: nat, maxAttempts: nat) {
    attemptsMade < maxAttempts
  }

  lemma ScaleMonotone(factor: nat, x: nat, y: nat)
    requires x <= y
    ensures 0 <= factor * x <= factor * y
  {
    assert factor * y == factor * x + factor * (y - x);
  }

  lemma ClampMonotone(a: int, b: int, cap: nat)
    requires a <= b
    ensures 0 <= Clamp(a, cap) <= Clamp(b, cap) <= cap
  {
  }

  /** The ladder never goes down from one attempt to a later one, and never passes the cap. */
  lemma CeilingIsMonotoneAndCapped(attempt: int, later: int, policy: Policy)
    requires attempt <= later
    ensures 0 <= BackoffCeilingMs(attempt, policy.baseDelayMs, policy.maxBackoffMs)
              <= BackoffCeilingMs(later, policy.baseDelayMs, policy.maxBackoffMs)
              <= policy.maxBackoffMs
  {
    if attempt > 1 {
      var (i, j) := (Min(attempt - 2, 30), Min(later - 2, 30));
      var (x, y) := (Power(BACKOFF_FACTOR, i), Power(BACKOFF_FACTOR, j));
      PowerMonotone(BACKOFF_FACTOR, i, j);
      ScaleMonotone(policy.baseDelayMs, x, y);
      ClampMonotone(policy.baseDelayMs * x, policy.baseDelayMs * y, policy.maxBackoffMs);
    } else {
      ClampMonotone(0, 0, policy.maxBackoffMs);
    }
  }

  lemma FiveTimes(factor: nat, x: nat)
    ensures factor * (BACKOFF_FACTOR * x) == BACKOFF_FACTOR * (factor * x)
  {
  }

  /**
   * No wait before the first attempt, up to the base delay before the second, before each later one
   * up to five times as long until the cap binds, and no longer from the thirty-second on.
   */
  lemma LadderStep(attempt: int, policy: Policy)
    ensures attempt <= 1 ==> BackoffCeilingMs(attempt, policy.baseDelayMs, policy.maxBackoffMs) == 0
    ensures BackoffCeilingMs(2, policy.baseDelayMs, policy.maxBackoffMs) == Min(policy.baseDelayMs, policy.maxBackoffMs)
    ensures 2 <= attempt ==>
              BackoffCeilingMs(attempt + 1, policy.baseDelayMs, policy.maxBackoffMs)
                == if attempt < 32 then Min(5 * BackoffCeilingMs(attempt, policy.baseDelayMs, policy.maxBackoffMs), policy.maxBackoffMs)
                   else BackoffCeilingMs(attempt, policy.baseDelayMs, policy.maxBackoffMs)
  {
    assert Power(BACKOFF_FACTOR, 0) == 1;
    if 2 <= attempt < 32 {
      var power := Power(BACKOFF_FACTOR, attempt - 2);
      assert Power(BACKOFF_FACTOR, attempt - 1) == BACKOFF_FACTOR * power;
      FiveTimes(policy.baseDelayMs, power);
      ScaleMonotone(policy.baseDelayMs, 0, power);
    }
  }

  lemma Scaled(random: real, k: nat, n: nat)
    requires n > 0
    ensures k as real <= random * n as real < (k + 1) as real <==> k as real / n as real <= random < (k + 1) as real / n as real
  {
    ScaledBound(random, k, n);
    ScaledBound(random, k + 1, n);
  }

  lemma ScaledBound(random: real, k: nat, n: nat)
    requires n > 0
    ensures k as real <= random * n as real <==> k as real / n as real <= random
  {
    var (x, m) := (k as real / n as real, n as real);
    assert x * m == k as real;
    assert (random - x) * m == random * m - x * m;
  }

  /**
   * Full jitter: the random numbers that give a delay of `k` are one (ceiling + 1)th of [0, 1), for
   * every whole number of milliseconds up to the ceiling.
   */
  lemma JitterIsUniform(attempt: int, policy: Policy, random: real, k: nat)
    requires 0.0 <= random < 1.0
    ensures var n := BackoffCeilingMs(attempt, policy.baseDelayMs, policy.maxBackoffMs) + 1;
            && n > 0
            && (k < n ==> (NextAttemptDelayMs(attempt, policy, random) == k <==> k as real / n as real <= random < (k + 1) as real / n as real))
  {
    CeilingIsMonotoneAndCapped(attempt, attempt, policy);
    var n := BackoffCeilingMs(attempt, policy.baseDelayMs, policy.maxBackoffMs) + 1;
    Scaled(random, k, n);
    FloorIs(random * n as real, k);
    if n == 1 {
      assert random * 1.0 == random;
      FloorIs(random, k);
    }
  }

  lemma FloorIs(x: real, k: int)
    ensures x.Floor == k <==> k as real <= x < (k + 1) as real
  {
  }

  lemma JitterInRange(ceiling: nat, random: real)
    requires 0.0 <= random < 1.0
    ensures 0 <= (random * (ceiling + 1) as real).Floor <= ceiling
  {
    var top := (ceiling + 1) as real;
    assert 0.0 <= random * top < top;
  }

  /** What `attempt` books: `Retry-After` on 429 and 503 when it yields a delay, else the ladder. */
  function BookedDelayMs(attemptNumber: nat, status: Option<int>, header: Option<string>, asDate: Option<Time>,
                         now: Time, random: real, policy: Policy): int
  {
    var retryAfter := if status == Some(429) || status == Some(503)
                      then ParseRetryAfter(header, asDate, now, policy.maxBackoffMs) else None;
    if retryAfter.Some? && retryAfter.value > 0 then retryAfter.value
    else NextAttemptDelayMs(attemptNumber + 1, policy, random)
  }

  lemma NextDelayInRange(attempt: int, policy: Policy, random: real)
    requires 0.0 <= random < 1.0
    ensures 0 <= NextAttemptDelayMs(attempt, policy, random) <= policy.maxBackoffMs
  {
    CeilingIsMonotoneAndCapped(attempt, attempt, policy);
    JitterInRange(BackoffCeilingMs(attempt, policy.baseDelayMs, policy.maxBackoffMs), random);
  }

  lemma RetryAfterInRange(header: Option<string>, asDate: Option<Time>, now: Time, maxBackoffMs: nat)
    ensures var delay := ParseRetryAfter(header, asDate, now, maxBackoffMs);
            delay.Some? ==> 0 <= delay.value <= maxBackoffMs && (maxBackoffMs > 0 ==> delay.value > 0)
  {
  }

  /** No destination and no dice can book a delay outside [0, maxBackoffMs]. */
  lemma BookedDelayInRange(attemptNumber: nat, status: Option<int>, header: Option<string>, asDate: Option<Time>,
                           now: Time, random: real, policy: Policy)
    requires 0.0 <= random < 1.0
    ensures 0 <= BookedDelayMs(attemptNumber, status, header, asDate, now, random, policy) <= policy.maxBackoffMs
  {
    RetryAfterInRange(header, asDate, now, policy.maxBackoffMs);
    NextDelayInRange(attemptNumber + 1, policy, random);
  }

  /** A printed number of seconds is honoured exactly, up to the cap; zero is not an override. */
  lemma DelaySecondsAreHonoured(seconds: nat, asDate: Option<Time>, now: Time, maxBackoffMs: nat)
    ensures ParseRetryAfter(Some(PrintNumeral(seconds, 10)), asDate, now, maxBackoffMs)
              == if seconds > 0 then Some(Min(seconds * 1000, maxBackoffMs)) else None
  {
    NumeralRoundTrip(seconds, 10);
    var raw := PrintNumeral(seconds, 10);
    assert IsNumeral(raw[0], 10) && IsNumeral(raw[|raw| - 1], 10);
    assert Trim(raw) == raw;
  }

  /** A date is honoured as the time that is left until it, up to the cap; a date that has passed is no override. */
  lemma DatesAreHonoured(header: string, date: Time, now: Time, maxBackoffMs: nat)
    requires |Trim(header)| > 0 && IsLetter(Trim(header)[0])
    ensures ParseRetryAfter(Some(header), Some(date), now, maxBackoffMs) == if date > now then Some(Min(date - now, maxBackoffMs)) else None
  {
    assert !IsNumeral(Trim(header)[0], 10);
  }

  /** `Retry-After` overrides the ladder on 429 and 503 and on no other answer; the ladder is that of the next attempt. */
  lemma OverrideOnBusyOnly(attemptNumber: nat, status: Option<int>, seconds: nat, asDate: Option<Time>, now: Time, random: real, policy: Policy)
    requires ValidPolicy(policy)
    ensures BookedDelayMs(attemptNumber, status, Some(PrintNumeral(seconds, 10)), asDate, now, random, policy)
              == if seconds > 0 && status.Some? && status.value in {429, 503} then Min(seconds * 1000, policy.maxBackoffMs)
                 else NextAttemptDelayMs(attemptNumber + 1, policy, random)
    ensures BookedDelayMs(attemptNumber, status, None, asDate, now, random, policy) == NextAttemptDelayMs(attemptNumber + 1, policy, random)
  {
    DelaySecondsAreHonoured(seconds, asDate, now, policy.maxBackoffMs);
  }

  /** Blanks around a number do not matter; what is neither a number nor a date is no override. */
  lemma OtherHeadersAreRead(header: string, asDate: Option<Time>, now: Time, maxBackoffMs: nat)
    ensures (exists seconds :: Trim(header) == PrintNumeral(seconds, 10)) ==>
              ParseRetryAfter(Some(header), asDate, now, maxBackoffMs) == ParseRetryAfter(Some(Trim(header)), asDate, now, maxBackoffMs)
    ensures Trim(header) == "" ==> ParseRetryAfter(Some(header), asDate, now, maxBackoffMs) == None
    ensures !AllNumerals(Trim(header), 10) && (!IsLetter(Trim(header)[0]) || asDate == None) ==>
              ParseRetryAfter(Some(header), asDate, now, maxBackoffMs) == None
  {
    if seconds :| Trim(header) == PrintNumeral(seconds, 10) {
      NumeralRoundTrip(seconds, 10);
      var raw := Trim(header);
      assert IsNumeral(raw[0], 10) && IsNumeral(raw[|raw| - 1], 10);
      assert Trim(raw) == raw;
    }
  }
}
