/** Fixed-window counting for one bucket (rate-limiting/rate-limit-counter.service.ts). */
module FixedWindow {
  import opened Common

  /** A window anchored at its first attempt. */
  datatype Bucket = Bucket(count: nat, startedAt: Time)

  predicate IsLive(bucket: Bucket, now: Time, windowMs: int) {
    now - bucket.startedAt < windowMs
  }

  /** One attempt: counted in the live window, or as the first of a new one. */
  function Hit(bucket: Option<Bucket>, now: Time, windowMs: int): Bucket {
    if bucket.Some? && IsLive(bucket.value, now, windowMs) then bucket.value.(count := bucket.value.count + 1)
    else Bucket(1, now)
  }

  predicate IsAllowed(bucket: Bucket, limit: nat) {
    bucket.count <= limit
  }

  // ---------------------------------------------------------------------------------------------
  // A run of attempts
  // ---------------------------------------------------------------------------------------------

  predicate NonDecreasing(times: seq<Time>) {
    forall i, j :: 0 <= i < j < |times| ==> times[i] <= times[j]
  }

  /** The bucket after attempts at these times. */
  function After(times: seq<Time>, windowMs: int): Option<Bucket> {
    if |times| == 0 then None
    else Some(Hit(After(times[..|times| - 1], windowMs), times[|times| - 1], windowMs))
  }

  /** The attempts that fell into the window started at `start`. */
  function AttemptsIn(times: seq<Time>, windowMs: int, start: Time): nat {
    if |times| == 0 then 0
    else
      AttemptsIn(times[..|times| - 1], windowMs, start)
      + (if After(times, windowMs).value.startedAt == start then 1 else 0)
  }

  /** Those of them that were admitted. */
  function AdmittedIn(times: seq<Time>, windowMs: int, limit: nat, start: Time): nat {
    if |times| == 0 then 0
    else
      AdmittedIn(times[..|times| - 1], windowMs, limit, start)
      + (if After(times, windowMs).value.startedAt == start && IsAllowed(After(times, windowMs).value, limit) then 1 else 0)
  }

  /** The admitted attempts in the half-open interval [from, to). */
  function AdmittedBetween(times: seq<Time>, windowMs: int, limit: nat, from: Time, to: Time): nat {
    if |times| == 0 then 0
    else
      AdmittedBetween(times[..|times| - 1], windowMs, limit, from, to)
      + (if from <= times[|times| - 1] < to && IsAllowed(After(times, windowMs).value, limit) then 1 else 0)
  }

  /** The last window holds the last attempt, counts what fell into it, and no attempt fell into a later one. */
  lemma {:induction false} LastWindow(times: seq<Time>, windowMs: int, limit: nat, start: Time)
    requires windowMs > 0 && NonDecreasing(times) && |times| > 0
    ensures var last := After(times, windowMs).value;
            && last.count >= 1 && last.startedAt <= times[|times| - 1] < last.startedAt + windowMs
            && AttemptsIn(times, windowMs, last.startedAt) == last.count
            && (start > last.startedAt ==> AttemptsIn(times, windowMs, start) == 0)
            && AdmittedIn(times, windowMs, limit, start) == Min(limit, AttemptsIn(times, windowMs, start))
  {
    var before := times[..|times| - 1];
    if |before| > 0 {
      LastWindow(before, windowMs, limit, start);
      LastWindow(before, windowMs, limit, After(times, windowMs).value.startedAt);
    }
  }

  /** Every window admits its first `limit` attempts and no other. */
  lemma WindowAdmitsMin(times: seq<Time>, windowMs: int, limit: nat, start: Time)
    requires windowMs > 0 && NonDecreasing(times)
    ensures AdmittedIn(times, windowMs, limit, start) == Min(limit, AttemptsIn(times, windowMs, start))
  {
    if |times| > 0 {
      LastWindow(times, windowMs, limit, start);
    }
  }

  /**
   * A window that began before the interval has its first attempt outside it; one that began inside
   * leaves no room for a third.
   */
  lemma {:induction false} SlidingCount(times: seq<Time>, windowMs: int, limit: nat, from: Time)
    requires windowMs > 0 && NonDecreasing(times) && |times| > 0
    ensures var (last, admitted) := (After(times, windowMs).value, AdmittedBetween(times, windowMs, limit, from, from + windowMs));
            && (times[|times| - 1] < from ==> admitted == 0)
            && (last.startedAt < from ==> admitted <= Max(0, Min(limit, last.count) - 1))
            && (from <= last.startedAt < from + windowMs ==> admitted <= Max(0, limit - 1) + Min(limit, last.count))
            && admitted <= Max(0, 2 * limit - 1)
  {
    var before := times[..|times| - 1];
    if |before| > 0 {
      SlidingCount(before, windowMs, limit, from);
      LastWindow(before, windowMs, limit, from);
    }
    LastWindow(times, windowMs, limit, from);
  }

  /** Wherever an interval as long as the window is laid, it holds fewer than twice the limit. */
  lemma BelowTwiceTheLimit(times: seq<Time>, windowMs: int, limit: nat, from: Time)
    requires windowMs > 0 && NonDecreasing(times)
    ensures AdmittedBetween(times, windowMs, limit, from, from + windowMs) <= Max(0, 2 * limit - 1)
  {
    if |times| > 0 {
      SlidingCount(times, windowMs, limit, from);
    }
  }

  /** Attempts at one instant. */
  function Burst(at: Time, n: nat): (times: seq<Time>)
    ensures |times| == n && forall i :: 0 <= i < n ==> times[i] == at
  {
    seq(n, _ => at)
  }

  /** A burst into a live window with room for it is admitted whole. */
  lemma {:induction false} BurstAdmitted(times: seq<Time>, at: Time, n: nat, windowMs: int, limit: nat, from: Time)
    requires After(times, windowMs).Some? && IsLive(After(times, windowMs).value, at, windowMs)
    requires After(times, windowMs).value.count + n <= limit && from <= at < from + windowMs
    ensures var bucket := After(times, windowMs).value;
            After(times + Burst(at, n), windowMs) == Some(bucket.(count := bucket.count + n))
    ensures AdmittedBetween(times + Burst(at, n), windowMs, limit, from, from + windowMs)
              == AdmittedBetween(times, windowMs, limit, from, from + windowMs) + n
  {
    var all := times + Burst(at, n);
    if n == 0 {
      assert all == times;
    } else {
      BurstAdmitted(times, at, n - 1, windowMs, limit, from);
      assert all[..|all| - 1] == times + Burst(at, n - 1);
    }
  }

  /** One attempt opens a window, the rest of its budget comes at its end, and a full budget right after. */
  function Straddling(windowMs: nat, limit: nat): seq<Time>
    requires windowMs > 1 && limit > 0
  {
    [0] + Burst(windowMs - 1, limit - 1) + [windowMs] + Burst(windowMs, limit - 1)
  }

  /** The bound is met, for every window and limit. */
  lemma BoundIsMet(windowMs: nat, limit: nat)
    requires windowMs > 1 && limit > 0
    ensures NonDecreasing(Straddling(windowMs, limit))
    ensures AdmittedBetween(Straddling(windowMs, limit), windowMs, limit, windowMs - 1, windowMs - 1 + windowMs) == 2 * limit - 1
  {
    var from := windowMs - 1;
    var opening: seq<Time> := [0];
    assert opening[..0] == [];
    var first := opening + Burst(windowMs - 1, limit - 1);
    BurstAdmitted(opening, windowMs - 1, limit - 1, windowMs, limit, from);
    var reopened := first + [windowMs];
    assert reopened[..|reopened| - 1] == first;
    BurstAdmitted(reopened, windowMs, limit - 1, windowMs, limit, from);
  }

  // ---------------------------------------------------------------------------------------------
  // The Redis script
  // ---------------------------------------------------------------------------------------------

  /** A key and the instant Redis drops it, if one is set. */
  datatype RedisKey = RedisKey(count: nat, expiresAt: Option<Time>)

  datatype Reply = Reply(count: nat, ttlSeconds: int)

  function Alive(key: Option<RedisKey>, now: Time): Option<RedisKey> {
    if key.Some? && key.value.expiresAt.Some? && now >= key.value.expiresAt.value then None else key
  }

  /** TTL answers in rounded seconds. */
  function Seconds(ms: int): int {
    (ms + 500) / 1000
  }

  /** INCR; EXPIRE on the first; TTL; EXPIRE again on a key found without one. */
  function Script(key: Option<RedisKey>, now: Time, windowSeconds: nat): (RedisKey, Reply) {
    var found := Alive(key, now);
    var expiry := now + windowSeconds * 1000;
    var current := if found.Some? then found.value.count + 1 else 1;
    var expiresAt := if current == 1 then Some(expiry) else found.value.expiresAt;
    if expiresAt.None? then (RedisKey(current, Some(expiry)), Reply(current, windowSeconds))
    else (RedisKey(current, expiresAt), Reply(current, Seconds(expiresAt.value - now)))
  }

  /** The key after executions at these times, whatever it held before. */
  function RedisFrom(key: Option<RedisKey>, times: seq<Time>, windowSeconds: nat): Option<RedisKey> {
    if |times| == 0 then key
    else Some(Script(RedisFrom(key, times[..|times| - 1], windowSeconds), times[|times| - 1], windowSeconds).0)
  }

  /** What the last of them replied. */
  function LastReply(key: Option<RedisKey>, times: seq<Time>, windowSeconds: nat): Reply
    requires |times| > 0
  {
    Script(RedisFrom(key, times[..|times| - 1], windowSeconds), times[|times| - 1], windowSeconds).1
  }

  /** The bucket after attempts at these times, starting from any. */
  function AfterFrom(bucket: Option<Bucket>, times: seq<Time>, windowMs: int): Option<Bucket> {
    if |times| == 0 then bucket
    else Some(Hit(AfterFrom(bucket, times[..|times| - 1], windowMs), times[|times| - 1], windowMs))
  }

  /**
   * The window a stored key stands for. A key found without an expiry is repaired: its window
   * begins with the execution that finds it.
   */
  function AsBucket(key: Option<RedisKey>, first: Time, windowMs: int): Option<Bucket> {
    if key.None? || key.value.count == 0 then None
    else if key.value.expiresAt.None? then Some(Bucket(key.value.count, first))
    else Some(Bucket(key.value.count, key.value.expiresAt.value - windowMs))
  }

  /**
   * From any stored key, one without an expiry included, the script counts the windows of that
   * bucket: the stored count and expiry are the window's, the reply tells its count and how long it
   * still lasts, and no key is left without an expiry.
   */
  lemma {:induction false} ScriptIsFixedWindow(key: Option<RedisKey>, times: seq<Time>, windowSeconds: nat)
    requires windowSeconds > 0 && |times| > 0
    ensures var windowMs := windowSeconds * 1000;
            var bucket := AfterFrom(AsBucket(key, times[0], windowMs), times, windowMs).value;
            && RedisFrom(key, times, windowSeconds) == Some(RedisKey(bucket.count, Some(bucket.startedAt + windowMs)))
            && LastReply(key, times, windowSeconds) == Reply(bucket.count, Seconds(bucket.startedAt + windowMs - times[|times| - 1]))
            && bucket.count >= 1
  {
    var before := times[..|times| - 1];
    if |before| > 0 {
      ScriptIsFixedWindow(key, before, windowSeconds);
    }
  }

  /** The time to live is told to the nearest second. */
  lemma SecondsAreNearest(ms: int)
    ensures -500 <= Seconds(ms) * 1000 - ms <= 500
  {
  }

  // ---------------------------------------------------------------------------------------------
  // The bound for the script
  // ---------------------------------------------------------------------------------------------

  lemma {:induction false} AfterConcat(before: seq<Time>, times: seq<Time>, windowMs: int)
    ensures After(before + times, windowMs) == AfterFrom(After(before, windowMs), times, windowMs)
  {
    var all := before + times;
    if |times| == 0 {
      assert all == before;
    } else {
      AfterConcat(before, times[..|times| - 1], windowMs);
      assert all[..|all| - 1] == before + times[..|times| - 1];
    }
  }

  lemma {:induction false} BurstIsBucket(at: Time, n: nat, windowMs: int)
    requires n > 0 && windowMs > 0
    ensures After(Burst(at, n), windowMs) == Some(Bucket(n, at))
  {
    var burst := Burst(at, n);
    if n > 1 {
      BurstIsBucket(at, n - 1, windowMs);
      assert burst[..n - 1] == Burst(at, n - 1);
    }
  }

  /** The executions in [from, to) whose reply admits the request. */
  function AdmittedReplies(key: Option<RedisKey>, times: seq<Time>, windowSeconds: nat, limit: nat, from: Time, to: Time): nat {
    if |times| == 0 then 0
    else
      AdmittedReplies(key, times[..|times| - 1], windowSeconds, limit, from, to)
      + (if from <= times[|times| - 1] < to && LastReply(key, times, windowSeconds).count <= limit then 1 else 0)
  }

  /** The replies admit no more than a run of attempts that begins by filling the stored bucket. */
  lemma {:induction false} RepliesAreAdmissions(key: Option<RedisKey>, first: Time, before: seq<Time>, times: seq<Time>,
                                                windowSeconds: nat, limit: nat, from: Time, to: Time)
    requires windowSeconds > 0 && (|times| > 0 ==> times[0] == first)
    requires After(before, windowSeconds * 1000) == AsBucket(key, first, windowSeconds * 1000)
    ensures AdmittedReplies(key, times, windowSeconds, limit, from, to)
              <= AdmittedBetween(before + times, windowSeconds * 1000, limit, from, to)
  {
    if |times| > 0 {
      var (init, all) := (times[..|times| - 1], before + times);
      RepliesAreAdmissions(key, first, before, init, windowSeconds, limit, from, to);
      assert all[..|all| - 1] == before + init;
      ScriptIsFixedWindow(key, times, windowSeconds);
      AfterConcat(before, times, windowSeconds * 1000);
    }
  }

  /**
   * The documented bound for what Redis answers: in any interval as long as the window fewer than
   * twice the limit are admitted, whatever the key held. Its expiry, if it has one, was set by an
   * execution with the same window, so it lies at most one window ahead.
   */
  lemma ScriptBelowTwiceTheLimit(key: Option<RedisKey>, times: seq<Time>, windowSeconds: nat, limit: nat, from: Time)
    requires windowSeconds > 0 && |times| > 0 && NonDecreasing(times)
    requires key.Some? && key.value.expiresAt.Some? ==> key.value.expiresAt.value <= times[0] + windowSeconds * 1000
    ensures AdmittedReplies(key, times, windowSeconds, limit, from, from + windowSeconds * 1000) <= Max(0, 2 * limit - 1)
  {
    var windowMs := windowSeconds * 1000;
    var bucket := AsBucket(key, times[0], windowMs);
    var before := if bucket.None? then [] else Burst(bucket.value.startedAt, bucket.value.count);
    if bucket.Some? {
      BurstIsBucket(bucket.value.startedAt, bucket.value.count, windowMs);
    }
    RepliesAreAdmissions(key, times[0], before, times, windowSeconds, limit, from, from + windowMs);
    assert NonDecreasing(before + times);
    BelowTwiceTheLimit(before + times, windowMs, limit, from);
  }
}
