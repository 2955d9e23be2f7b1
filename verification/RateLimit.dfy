/** The limiter's counter service and its bounded in-process store (rate-limiting/rate-limit-counter.service.ts). */
module RateLimit {
  import opened Common
  import opened FixedWindow

  const FALLBACK_STORE_MAX_ENTRIES: nat := 10_000
  const FALLBACK_SWEEP_INTERVAL_MS: int := 1_000

  /** What the hashed key is derived from; the hash is injective. */
  datatype Key = Key(scope: string, discriminator: string, routeClass: string, windowSeconds: nat)

  datatype Counter = Counter(bucket: Bucket, windowMs: int)

  datatype Consumption = Consumption(allowed: bool, remaining: nat, resetSeconds: int)

  /** What Redis came back with: the script's pair, something else, or nothing in time. */
  datatype RedisAnswer = Answered(reply: Reply) | Malformed | Failed

  function WindowMs(key: Key): int {
    key.windowSeconds * 1000
  }

  /** Whole seconds, rounded up. */
  function CeilSeconds(ms: int): int {
    (ms + 999) / 1000
  }

  function Report(bucket: Bucket, limit: nat, windowMs: int, now: Time): Consumption {
    Consumption(bucket.count <= limit, Max(0, limit - bucket.count), Max(1, CeilSeconds(bucket.startedAt + windowMs - now)))
  }

  function Lookup(counters: map<Key, Counter>, key: Key): Option<Bucket> {
    if key in counters then Some(counters[key].bucket) else None
  }

  predicate IsExpired(counter: Counter, now: Time) {
    now - counter.bucket.startedAt >= counter.windowMs
  }

  /** The counters a sweep leaves. */
  function Swept(counters: map<Key, Counter>, now: Time): map<Key, Counter> {
    map k | k in counters && !IsExpired(counters[k], now) :: counters[k]
  }

  predicate WindowsOk(counters: map<Key, Counter>) {
    forall k :: k in counters ==> counters[k].windowMs == WindowMs(k)
  }

  /** From its own time on, a sweep changes the outcome of no attempt. */
  lemma SweepChangesNothing(counters: map<Key, Counter>, now: Time, key: Key, later: Time)
    requires WindowsOk(counters) && now <= later
    ensures Hit(Lookup(Swept(counters, now), key), later, WindowMs(key)) == Hit(Lookup(counters, key), later, WindowMs(key))
  {
  }

  // ---------------------------------------------------------------------------------------------
  // The unbounded map
  // ---------------------------------------------------------------------------------------------

  datatype Attempt = Attempt(key: Key, at: Time)

  /** What a map that never drops an entry holds for a key. */
  function Entry(attempts: seq<Attempt>, key: Key): Option<Bucket> {
    if |attempts| == 0 then None
    else
      var (before, last) := (attempts[..|attempts| - 1], attempts[|attempts| - 1]);
      if last.key == key then Some(Hit(Entry(before, key), last.at, WindowMs(key))) else Entry(before, key)
  }

  function TimesOf(attempts: seq<Attempt>, key: Key): seq<Time> {
    if |attempts| == 0 then []
    else
      var (before, last) := (attempts[..|attempts| - 1], attempts[|attempts| - 1]);
      if last.key == key then TimesOf(before, key) + [last.at] else TimesOf(before, key)
  }

  /** Keys do not interfere: each has the fixed windows of its own attempts. */
  lemma {:induction false} EntryIsFixedWindow(attempts: seq<Attempt>, key: Key)
    ensures Entry(attempts, key) == After(TimesOf(attempts, key), WindowMs(key))
  {
    if |attempts| > 0 {
      var (before, last) := (attempts[..|attempts| - 1], attempts[|attempts| - 1]);
      EntryIsFixedWindow(before, key);
      if last.key == key {
        var times := TimesOf(attempts, key);
        assert times[..|times| - 1] == TimesOf(before, key);
      }
    }
  }

  // ---------------------------------------------------------------------------------------------
  // What was decided
  // ---------------------------------------------------------------------------------------------

  /** The limit an attempt was held against, and the outcome. */
  datatype Decision = Decision(limit: nat, allowed: bool)

  /** Attempts in the order of the clock. */
  predicate InOrder(attempts: seq<Attempt>, latest: Time) {
    && (forall i, j :: 0 <= i < j < |attempts| ==> attempts[i].at <= attempts[j].at)
    && forall i :: 0 <= i < |attempts| ==> attempts[i].at <= latest
  }

  /** The decisions on every key that has lost no live counter are the unbounded map's. */
  ghost predicate Decided(attempts: seq<Attempt>, decisions: seq<Decision>, lost: set<Key>)
    requires |decisions| == |attempts|
  {
    forall i :: 0 <= i < |attempts| && attempts[i].key !in lost ==>
      DecidedAt(attempts[..i + 1], attempts[i].key, decisions[i])
  }

  predicate DecidedAt(attempts: seq<Attempt>, key: Key, decision: Decision) {
    Entry(attempts, key).Some? && (decision.allowed <==> Entry(attempts, key).value.count <= decision.limit)
  }

  lemma {:induction false} DecidedOneMore(attempts: seq<Attempt>, decisions: seq<Decision>, lost: set<Key>, lostNow: set<Key>, attempt: Attempt, decision: Decision)
    requires |decisions| == |attempts| && Decided(attempts, decisions, lost) && lost <= lostNow
    requires attempt.key !in lost ==> (decision.allowed <==> Hit(Entry(attempts, attempt.key), attempt.at, WindowMs(attempt.key)).count <= decision.limit)
    ensures Decided(attempts + [attempt], decisions + [decision], lostNow)
  {
    var (more, outcomes) := (attempts + [attempt], decisions + [decision]);
    forall i | 0 <= i < |more| && more[i].key !in lostNow
      ensures DecidedAt(more[..i + 1], more[i].key, outcomes[i])
    {
      if i < |attempts| {
        assert more[..i + 1] == attempts[..i + 1];
        assert DecidedAt(attempts[..i + 1], attempts[i].key, decisions[i]);
      } else {
        assert more[..i + 1] == more && more[..|more| - 1] == attempts;
      }
    }
  }

  /** The attempts on a key in [from, to) that were allowed. */
  function AllowedBetween(attempts: seq<Attempt>, decisions: seq<Decision>, key: Key, from: Time, to: Time): nat
    requires |decisions| == |attempts|
  {
    if |attempts| == 0 then 0
    else
      var (n, last) := (|attempts| - 1, attempts[|attempts| - 1]);
      AllowedBetween(attempts[..n], decisions[..n], key, from, to)
      + (if last.key == key && from <= last.at < to && decisions[n].allowed then 1 else 0)
  }

  predicate SameLimit(attempts: seq<Attempt>, decisions: seq<Decision>, key: Key, limit: nat)
    requires |decisions| == |attempts|
  {
    forall i :: 0 <= i < |attempts| && attempts[i].key == key ==> decisions[i].limit == limit
  }

  lemma DecidedPrefix(attempts: seq<Attempt>, decisions: seq<Decision>, lost: set<Key>)
    requires |decisions| == |attempts| > 0 && Decided(attempts, decisions, lost)
    ensures var n := |attempts| - 1; Decided(attempts[..n], decisions[..n], lost)
    ensures attempts[|attempts| - 1].key !in lost ==> DecidedAt(attempts, attempts[|attempts| - 1].key, decisions[|attempts| - 1])
  {
    var n := |attempts| - 1;
    assert attempts[..n + 1] == attempts;
    forall i | 0 <= i < n && attempts[i].key !in lost
      ensures DecidedAt(attempts[..n][..i + 1], attempts[i].key, decisions[i])
    {
      assert attempts[..n][..i + 1] == attempts[..i + 1];
    }
  }

  lemma {:induction false} AllowedIsAdmitted(attempts: seq<Attempt>, decisions: seq<Decision>, lost: set<Key>, key: Key, limit: nat, from: Time, to: Time)
    requires |decisions| == |attempts| && Decided(attempts, decisions, lost) && key !in lost
    requires SameLimit(attempts, decisions, key, limit)
    ensures AllowedBetween(attempts, decisions, key, from, to) == AdmittedBetween(TimesOf(attempts, key), WindowMs(key), limit, from, to)
  {
    if |attempts| > 0 {
      var n := |attempts| - 1;
      DecidedPrefix(attempts, decisions, lost);
      AllowedIsAdmitted(attempts[..n], decisions[..n], lost, key, limit, from, to);
      if attempts[n].key == key {
        EntryIsFixedWindow(attempts, key);
        var times := TimesOf(attempts, key);
        assert times[..|times| - 1] == TimesOf(attempts[..n], key);
      }
    }
  }

  lemma {:induction false} TimesInOrder(attempts: seq<Attempt>, key: Key, latest: Time)
    requires InOrder(attempts, latest)
    ensures NonDecreasing(TimesOf(attempts, key))
    ensures forall i :: 0 <= i < |TimesOf(attempts, key)| ==> TimesOf(attempts, key)[i] <= latest
  {
    if |attempts| > 0 {
      var n := |attempts| - 1;
      TimesInOrder(attempts[..n], key, attempts[n].at);
    }
  }

  /** The documented bound for what the store decided: in any interval as long as the window fewer than twice the limit are allowed. */
  lemma DecisionsBelowTwiceTheLimit(attempts: seq<Attempt>, decisions: seq<Decision>, latest: Time, lost: set<Key>, key: Key, limit: nat, from: Time)
    requires |decisions| == |attempts| && InOrder(attempts, latest) && Decided(attempts, decisions, lost)
    requires key !in lost && key.windowSeconds > 0 && SameLimit(attempts, decisions, key, limit)
    ensures AllowedBetween(attempts, decisions, key, from, from + WindowMs(key)) <= Max(0, 2 * limit - 1)
  {
    AllowedIsAdmitted(attempts, decisions, lost, key, limit, from, from + WindowMs(key));
    TimesInOrder(attempts, key, latest);
    BelowTwiceTheLimit(TimesOf(attempts, key), WindowMs(key), limit, from);
  }

  // ---------------------------------------------------------------------------------------------
  // Agreement
  // ---------------------------------------------------------------------------------------------

  /** The store agrees with the unbounded map on a key: the same counter, or none where that one is dead. */
  predicate Agrees(counters: map<Key, Counter>, attempts: seq<Attempt>, latest: Time, key: Key) {
    if key in counters then Entry(attempts, key) == Some(counters[key].bucket)
    else Entry(attempts, key).None? || !IsLive(Entry(attempts, key).value, latest, WindowMs(key))
  }

  ghost predicate AgreesExcept(counters: map<Key, Counter>, attempts: seq<Attempt>, latest: Time, lost: set<Key>) {
    forall k :: k !in lost ==> Agrees(counters, attempts, latest, k)
  }

  lemma AgreeingHit(counters: map<Key, Counter>, attempts: seq<Attempt>, latest: Time, key: Key, now: Time)
    requires Agrees(counters, attempts, latest, key) && latest <= now
    ensures Hit(Lookup(counters, key), now, WindowMs(key)) == Hit(Entry(attempts, key), now, WindowMs(key))
  {
  }

  lemma AgreeingHitExcept(counters: map<Key, Counter>, attempts: seq<Attempt>, latest: Time, lost: set<Key>, key: Key, now: Time)
    requires AgreesExcept(counters, attempts, latest, lost) && latest <= now
    ensures key !in lost ==> Hit(Lookup(counters, key), now, WindowMs(key)) == Hit(Entry(attempts, key), now, WindowMs(key))
  {
    if key !in lost {
      AgreeingHit(counters, attempts, latest, key, now);
    }
  }

  /** Recording an attempt keeps the agreement on every key. */
  lemma RecordedAgrees(counters: map<Key, Counter>, attempts: seq<Attempt>, now: Time, lost: set<Key>, key: Key, bucket: Bucket)
    requires AgreesExcept(counters, attempts, now, lost)
    requires key !in lost ==> bucket == Hit(Entry(attempts, key), now, WindowMs(key))
    ensures AgreesExcept(counters[key := Counter(bucket, WindowMs(key))], attempts + [Attempt(key, now)], now, lost)
  {
    var more := attempts + [Attempt(key, now)];
    assert more[..|more| - 1] == attempts;
    forall k | k !in lost
      ensures Agrees(counters[key := Counter(bucket, WindowMs(key))], more, now, k)
    {
      assert Agrees(counters, attempts, now, k);
    }
  }

  // ---------------------------------------------------------------------------------------------
  // The store
  // ---------------------------------------------------------------------------------------------

  /** The keys of the map in insertion order, each once. */
  ghost predicate IsOrderOf(order: seq<Key>, counters: map<Key, Counter>) {
    && |order| == |counters|
    && (forall i :: 0 <= i < |order| ==> order[i] in counters)
    && (forall i, j :: 0 <= i < j < |order| ==> order[i] != order[j])
    && (forall k :: k in counters ==> k in order)
  }

  lemma OrderExtended(order: seq<Key>, counters: map<Key, Counter>, key: Key, counter: Counter)
    requires IsOrderOf(order, counters) && key !in counters
    ensures IsOrderOf(order + [key], counters[key := counter])
  {
    forall k | k in counters[key := counter]
      ensures k in order + [key]
    {
      assert k == key || k in order;
    }
  }

  lemma OrderKept(order: seq<Key>, counters: map<Key, Counter>, key: Key, counter: Counter)
    requires IsOrderOf(order, counters) && key in counters
    ensures IsOrderOf(order, counters[key := counter])
  {
    assert counters[key := counter].Keys == counters.Keys;
    assert |counters[key := counter].Keys| == |counters[key := counter]| && |counters.Keys| == |counters|;
  }

  lemma OrderWithoutFirst(order: seq<Key>, counters: map<Key, Counter>)
    requires IsOrderOf(order, counters) && |order| > 0
    ensures IsOrderOf(order[1..], counters - {order[0]})
  {
    var (first, rest) := (order[0], counters - {order[0]});
    assert rest.Keys == counters.Keys - {first};
    assert |rest.Keys| == |rest| && |counters.Keys| == |counters|;
    forall k | k in rest
      ensures k in order[1..]
    {
      var i :| 0 <= i < |order| && order[i] == k;
      assert order[1..][i - 1] == k;
    }
  }

  /** `after` is what is left of `before`; exactly the live counters that are gone have been added to the lost keys. */
  ghost predicate Dropped(before: map<Key, Counter>, after: map<Key, Counter>, now: Time, lost: set<Key>, lostNow: set<Key>) {
    && (forall k :: k in after ==> k in before && after[k] == before[k])
    && lost <= lostNow
    && (forall k :: k in before && k !in after && !IsExpired(before[k], now) ==> k in lostNow)
    && (forall k :: k in lostNow && k !in lost ==> k in before && k !in after && !IsExpired(before[k], now))
  }

  /** Only as many as needed, and always the first in line. */
  ghost predicate DroppedOldest(orderBefore: seq<Key>, before: map<Key, Counter>, order: seq<Key>, after: map<Key, Counter>, now: Time,
                                lost: set<Key>, lostNow: set<Key>) {
    && Dropped(before, after, now, lost, lostNow)
    && |order| <= |orderBefore| && order == orderBefore[|orderBefore| - |order|..]
    && (|order| < |orderBefore| ==> |order| >= FALLBACK_STORE_MAX_ENTRIES - 1)
  }

  lemma StartDropping(order: seq<Key>, counters: map<Key, Counter>, now: Time, lost: set<Key>)
    ensures DroppedOldest(order, counters, order, counters, now, lost, lost)
  {
  }

  lemma DropOne(orderBefore: seq<Key>, before: map<Key, Counter>, order: seq<Key>, current: map<Key, Counter>, now: Time,
                lost: set<Key>, lostSoFar: set<Key>)
    returns (lostNow: set<Key>)
    requires DroppedOldest(orderBefore, before, order, current, now, lost, lostSoFar)
    requires |order| >= FALLBACK_STORE_MAX_ENTRIES && order[0] in current
    ensures DroppedOldest(orderBefore, before, order[1..], current - {order[0]}, now, lost, lostNow)
  {
    lostNow := if IsExpired(current[order[0]], now) then lostSoFar else lostSoFar + {order[0]};
  }

  /** A sweep in front costs nothing: what it drops is expired. */
  lemma SweptThenDropped(before: map<Key, Counter>, after: map<Key, Counter>, now: Time, lost: set<Key>, lostNow: set<Key>)
    requires Dropped(Swept(before, now), after, now, lost, lostNow)
    ensures Dropped(before, after, now, lost, lostNow)
  {
  }

  lemma EvictionDrops(before: map<Key, Counter>, swept: map<Key, Counter>, after: map<Key, Counter>, now: Time,
                      lost: set<Key>, lostNow: set<Key>, due: bool)
    requires swept == if due then Swept(before, now) else before
    requires Dropped(swept, after, now, lost, lostNow)
    ensures Dropped(before, after, now, lost, lostNow)
  {
    if due {
      SweptThenDropped(before, after, now, lost, lostNow);
    }
  }

  /** Dropping dead counters keeps the agreement, dropping live ones costs it for their keys only. */
  lemma DroppedAgrees(counters: map<Key, Counter>, attempts: seq<Attempt>, latest: Time, lost: set<Key>, kept: map<Key, Counter>,
                      now: Time, lostNow: set<Key>)
    requires AgreesExcept(counters, attempts, latest, lost) && WindowsOk(counters) && latest <= now
    requires Dropped(counters, kept, now, lost, lostNow)
    ensures AgreesExcept(kept, attempts, now, lostNow)
  {
    forall k | k !in lostNow
      ensures Agrees(kept, attempts, now, k)
    {
      assert Agrees(counters, attempts, latest, k);
    }
  }

  /** The counters of the first `i` keys that are not expired. */
  function SweptUpTo(counters: map<Key, Counter>, order: seq<Key>, i: nat, now: Time): map<Key, Counter>
    requires i <= |order|
  {
    map k | k in counters && k in order[..i] && !IsExpired(counters[k], now) :: counters[k]
  }

  /** The keys that a sweep leaves, in their order. */
  function LiveOrder(counters: map<Key, Counter>, order: seq<Key>, now: Time): seq<Key>
    requires forall i :: 0 <= i < |order| ==> order[i] in counters
  {
    if |order| == 0 then []
    else
      var (before, last) := (order[..|order| - 1], order[|order| - 1]);
      LiveOrder(counters, before, now) + (if IsExpired(counters[last], now) then [] else [last])
  }

  lemma SweepBounds(counters: map<Key, Counter>, order: seq<Key>, now: Time)
    requires IsOrderOf(order, counters)
    ensures SweptUpTo(counters, order, 0, now) == map[]
    ensures SweptUpTo(counters, order, |order|, now) == Swept(counters, now)
  {
    assert order[..|order|] == order;
  }

  lemma SweepStep(counters: map<Key, Counter>, order: seq<Key>, i: nat, now: Time)
    requires IsOrderOf(order, counters) && i < |order|
    ensures order[i] !in SweptUpTo(counters, order, i, now)
    ensures SweptUpTo(counters, order, i + 1, now)
              == if IsExpired(counters[order[i]], now) then SweptUpTo(counters, order, i, now)
                 else SweptUpTo(counters, order, i, now)[order[i] := counters[order[i]]]
    ensures LiveOrder(counters, order[..i + 1], now)
              == LiveOrder(counters, order[..i], now) + (if IsExpired(counters[order[i]], now) then [] else [order[i]])
  {
    assert order[..i + 1] == order[..i] + [order[i]];
    assert order[..i + 1][..i] == order[..i];
  }

  /** One attempt on the store and on the unbounded map. */
  lemma HitAgrees(counters: map<Key, Counter>, attempts: seq<Attempt>, latest: Time, lost: set<Key>, kept: map<Key, Counter>,
                  lostNow: set<Key>, key: Key, bucket: Bucket, now: Time)
    requires AgreesExcept(counters, attempts, latest, lost) && WindowsOk(counters) && latest <= now
    requires Dropped(counters, kept, now, lost, lostNow)
    requires bucket == Hit(Lookup(counters, key), now, WindowMs(key))
    ensures AgreesExcept(kept[key := Counter(bucket, WindowMs(key))], attempts + [Attempt(key, now)], now, lostNow)
  {
    AgreeingHitExcept(counters, attempts, latest, lost, key, now);
    DroppedAgrees(counters, attempts, latest, lost, kept, now, lostNow);
    RecordedAgrees(kept, attempts, now, lostNow, key, bucket);
  }

  /** With a steady clock the store has decided, and will decide, as the unbounded map does. */
  ghost predicate Faithful(counters: map<Key, Counter>, attempts: seq<Attempt>, decisions: seq<Decision>, latest: Time, lost: set<Key>)
    requires |decisions| == |attempts|
  {
    && AgreesExcept(counters, attempts, latest, lost)
    && InOrder(attempts, latest)
    && Decided(attempts, decisions, lost)
  }

  lemma FaithfulOneMore(before: map<Key, Counter>, attempts: seq<Attempt>, decisions: seq<Decision>, latest: Time, lost: set<Key>,
                        kept: map<Key, Counter>, lostNow: set<Key>, key: Key, bucket: Bucket, limit: nat, now: Time)
    requires |decisions| == |attempts| && Faithful(before, attempts, decisions, latest, lost) && WindowsOk(before) && latest <= now
    requires Dropped(before, kept, now, lost, lostNow)
    requires bucket == Hit(Lookup(before, key), now, WindowMs(key))
    ensures Faithful(kept[key := Counter(bucket, WindowMs(key))], attempts + [Attempt(key, now)],
                     decisions + [Decision(limit, bucket.count <= limit)], now, lostNow)
    ensures key !in lost ==> bucket == Hit(Entry(attempts, key), now, WindowMs(key))
  {
    AgreeingHitExcept(before, attempts, latest, lost, key, now);
    HitAgrees(before, attempts, latest, lost, kept, lostNow, key, bucket, now);
    DecidedOneMore(attempts, decisions, lost, lostNow, Attempt(key, now), Decision(limit, bucket.count <= limit));
  }

  /** One pass over the entries. */
  method SweepEntries(all: map<Key, Counter>, entries: seq<Key>, now: Time) returns (live: map<Key, Counter>, kept: seq<Key>)
    requires IsOrderOf(entries, all)
    ensures IsOrderOf(kept, live) && live == Swept(all, now) && kept == LiveOrder(all, entries, now)
  {
    live, kept := map[], [];
    SweepBounds(all, entries, now);
    for i := 0 to |entries|
      invariant live == SweptUpTo(all, entries, i, now) && IsOrderOf(kept, live)
      invariant kept == LiveOrder(all, entries[..i], now)
    {
      var key := entries[i];
      SweepStep(all, entries, i, now);
      if !IsExpired(all[key], now) {
        OrderExtended(kept, live, key, all[key]);
        kept := kept + [key];
        live := live[key := all[key]];
      }
    }
    assert entries[..|entries|] == entries;
  }

  /** Deletes the first in line while there is no room; a live one is lost. */
  method DropEntries(all: map<Key, Counter>, entries: seq<Key>, now: Time, ghost lost: set<Key>)
    returns (current: map<Key, Counter>, order: seq<Key>, ghost lostNow: set<Key>)
    requires IsOrderOf(entries, all)
    ensures IsOrderOf(order, current) && |current| < FALLBACK_STORE_MAX_ENTRIES
    ensures DroppedOldest(entries, all, order, current, now, lost, lostNow)
  {
    current, order, lostNow := all, entries, lost;
    StartDropping(entries, all, now, lost);
    while |current| >= FALLBACK_STORE_MAX_ENTRIES
      invariant IsOrderOf(order, current)
      invariant DroppedOldest(entries, all, order, current, now, lost, lostNow)
      decreases |order|
    {
      OrderWithoutFirst(order, current);
      lostNow := DropOne(entries, all, order, current, now, lost, lostNow);
      current, order := current - {order[0]}, order[1..];
    }
  }

  class FallbackStore {
    var counters: map<Key, Counter>
    var order: seq<Key>
    var lastSweepAt: Time

    /** All attempts and decisions so far; the keys whose live counter made room; whether the clock never went back. */
    ghost var attempts: seq<Attempt>
    ghost var decisions: seq<Decision>
    ghost var lost: set<Key>
    ghost var latest: Time
    ghost var steady: bool

    ghost predicate Valid()
      reads this
    {
      && |counters| <= FALLBACK_STORE_MAX_ENTRIES
      && IsOrderOf(order, counters) && WindowsOk(counters)
      && |decisions| == |attempts|
      && (steady ==> Faithful(counters, attempts, decisions, latest, lost))
    }

    constructor ()
      ensures Valid() && counters == map[] && attempts == [] && lost == {} && steady
    {
      counters, order, lastSweepAt := map[], [], 0;
      attempts, decisions, lost, latest, steady := [], [], {}, 0, true;
    }

    /** Deletes every expired entry; the others keep their order. */
    method Sweep(now: Time)
      requires IsOrderOf(order, counters)
      modifies this`counters, this`order
      ensures IsOrderOf(order, counters) && counters == Swept(old(counters), now)
      ensures order == LiveOrder(old(counters), old(order), now)
      ensures forall k :: k in old(counters) ==>
                (k in counters <==> now - old(counters)[k].bucket.startedAt < old(counters)[k].windowMs)
    {
      counters, order := SweepEntries(counters, order, now);
    }

    /** Oldest first, until there is room. */
    method DropOldest(now: Time)
      requires IsOrderOf(order, counters)
      modifies this`counters, this`order, this`lost
      ensures IsOrderOf(order, counters) && |counters| < FALLBACK_STORE_MAX_ENTRIES
      ensures DroppedOldest(old(order), old(counters), order, counters, now, old(lost), lost)
    {
      counters, order, lost := DropEntries(counters, order, now, lost);
    }

    /** The sweep, at most once an interval, and then the oldest-first loop. */
    method Evict(now: Time)
      requires IsOrderOf(order, counters)
      modifies this`counters, this`order, this`lastSweepAt, this`lost
      ensures IsOrderOf(order, counters) && |counters| < FALLBACK_STORE_MAX_ENTRIES
      ensures Dropped(old(counters), counters, now, old(lost), lost)
      ensures now - old(lastSweepAt) >= 1_000 ==>
                && lastSweepAt == now
                && DroppedOldest(LiveOrder(old(counters), old(order), now), Swept(old(counters), now), order, counters, now, old(lost), lost)
      ensures now - old(lastSweepAt) < 1_000 ==>
                && lastSweepAt == old(lastSweepAt)
                && DroppedOldest(old(order), old(counters), order, counters, now, old(lost), lost)
    {
      var due := now - lastSweepAt >= FALLBACK_SWEEP_INTERVAL_MS;
      if due {
        lastSweepAt := now;
        Sweep(now);
      }
      ghost var swept := counters;
      DropOldest(now);
      EvictionDrops(old(counters), swept, counters, now, old(lost), lost, due);
    }

    /** Stores a counter; a new key at the ceiling makes room first. Setting a key again keeps its place. */
    method Remember(key: Key, counter: Counter, now: Time) returns (ghost kept: map<Key, Counter>)
      requires IsOrderOf(order, counters) && |counters| <= FALLBACK_STORE_MAX_ENTRIES
      modifies this`counters, this`order, this`lastSweepAt, this`lost
      ensures IsOrderOf(order, counters) && |counters| <= FALLBACK_STORE_MAX_ENTRIES
      ensures Dropped(old(counters), kept, now, old(lost), lost) && counters == kept[key := counter]
      ensures key in old(counters) || |old(counters)| < FALLBACK_STORE_MAX_ENTRIES ==>
                lost == old(lost) && order == old(order) + (if key in old(counters) then [] else [key])
    {
      if key !in counters && |counters| >= FALLBACK_STORE_MAX_ENTRIES {
        Evict(now);
      }
      kept := counters;
      if key in counters {
        OrderKept(order, counters, key, counter);
      } else {
        OrderExtended(order, counters, key, counter);
        order := order + [key];
      }
      counters := counters[key := counter];
    }

    /**
     * The degraded path. The outcome is the unbounded map's for every key that has not lost a live
     * counter, as long as the clock does not go back; and only live counters are ever lost.
     */
    method ConsumeInMemory(key: Key, limit: nat, now: Time) returns (consumption: Consumption)
      requires Valid()
      modifies this
      ensures Valid()
      ensures attempts == old(attempts) + [Attempt(key, now)]
      ensures decisions == old(decisions) + [Decision(limit, consumption.allowed)]
      ensures steady == (old(steady) && old(latest) <= now) && latest == now
      ensures steady && key !in old(lost) ==>
                consumption == Report(Hit(Entry(old(attempts), key), now, WindowMs(key)), limit, WindowMs(key), now)
      ensures var bucket := Hit(Lookup(old(counters), key), now, WindowMs(key));
              && consumption == Report(bucket, limit, WindowMs(key), now)
              && key in counters && counters[key] == Counter(bucket, WindowMs(key))
      ensures old(lost) <= lost
      ensures forall k :: k in lost && k !in old(lost) ==> k in old(counters) && !IsExpired(old(counters)[k], now)
      ensures key in old(counters) || |old(counters)| < FALLBACK_STORE_MAX_ENTRIES ==>
                lost == old(lost) && order == old(order) + (if key in old(counters) then [] else [key])
      ensures |counters| <= 10_000 && (key in old(counters) || |old(counters)| < 10_000 ==> lost == old(lost))
    {
      var windowMs := WindowMs(key);
      var existing := Lookup(counters, key);
      var current := if existing.Some? && now - existing.value.startedAt < windowMs then existing.value else Bucket(0, now);
      current := current.(count := current.count + 1);
      consumption := Report(current, limit, windowMs, now);
      assert current == Hit(Lookup(counters, key), now, windowMs);
      ghost var kept := Remember(key, Counter(current, windowMs), now);
      Account(old(counters), kept, old(lost), key, limit, now, current);
    }

    /** The bookkeeping of one attempt. */
    ghost method Account(before: map<Key, Counter>, kept: map<Key, Counter>, lostBefore: set<Key>, key: Key, limit: nat, now: Time, bucket: Bucket)
      requires |counters| <= FALLBACK_STORE_MAX_ENTRIES && IsOrderOf(order, counters) && WindowsOk(before)
      requires |decisions| == |attempts|
      requires steady ==> Faithful(before, attempts, decisions, latest, lostBefore)
      requires Dropped(before, kept, now, lostBefore, lost) && counters == kept[key := Counter(bucket, WindowMs(key))]
      requires bucket == Hit(Lookup(before, key), now, WindowMs(key))
      modifies this`steady, this`latest, this`attempts, this`decisions
      ensures Valid()
      ensures attempts == old(attempts) + [Attempt(key, now)]
      ensures decisions == old(decisions) + [Decision(limit, bucket.count <= limit)]
      ensures steady == (old(steady) && old(latest) <= now) && latest == now
      ensures steady && key !in lostBefore ==> bucket == Hit(Entry(old(attempts), key), now, WindowMs(key))
    {
      if steady && latest <= now {
        FaithfulOneMore(before, attempts, decisions, latest, lostBefore, kept, lost, key, bucket, limit, now);
      }
      steady, latest := steady && latest <= now, now;
      attempts, decisions := attempts + [Attempt(key, now)], decisions + [Decision(limit, bucket.count <= limit)];
    }
  }

  /** The documented bound, for a store at any moment and a key that has lost no live counter. */
  lemma StoreBelowTwiceTheLimit(store: FallbackStore, key: Key, limit: nat, from: Time)
    requires store.Valid() && store.steady && key !in store.lost && key.windowSeconds > 0
    requires SameLimit(store.attempts, store.decisions, key, limit)
    ensures AllowedBetween(store.attempts, store.decisions, key, from, from + key.windowSeconds * 1000) <= Max(0, 2 * limit - 1)
  {
    DecisionsBelowTwiceTheLimit(store.attempts, store.decisions, store.latest, store.lost, key, limit, from);
  }

  // ---------------------------------------------------------------------------------------------
  // The service
  // ---------------------------------------------------------------------------------------------

  class CounterService {
    const failClosed: bool
    const store: FallbackStore
    var degraded: bool

    constructor (failClosed: bool)
      ensures this.failClosed == failClosed && !degraded && fresh(store)
      ensures store.Valid() && store.attempts == [] && store.lost == {} && store.steady
    {
      this.failClosed := failClosed;
      this.degraded := false;
      this.store := new FallbackStore();
    }

    /**
     * One unit of one bucket. While Redis answers, its count decides and the store is not touched;
     * otherwise the fail mode does.
     */
    method Consume(key: Key, limit: nat, answer: RedisAnswer, now: Time) returns (consumption: Consumption)
      requires store.Valid()
      modifies this`degraded, store
      ensures store.Valid()
      ensures degraded == answer.Failed?
      ensures !answer.Failed? || failClosed ==> store.attempts == old(store.attempts) && store.counters == old(store.counters)
      ensures answer.Answered? ==>
                consumption == Consumption(answer.reply.count <= limit, Max(0, limit - answer.reply.count), Max(1, answer.reply.ttlSeconds))
      ensures answer.Malformed? ==> consumption == Consumption(true, limit, 1)
      ensures answer.Failed? && failClosed ==> consumption == Consumption(false, 0, key.windowSeconds)
      ensures answer.Failed? && !failClosed && store.steady && key !in old(store.lost) ==>
                && store.attempts == old(store.attempts) + [Attempt(key, now)]
                && consumption == Report(Hit(Entry(old(store.attempts), key), now, WindowMs(key)), limit, WindowMs(key), now)
    {
      if answer.Failed? {
        degraded := true;
        if failClosed {
          return Consumption(false, 0, key.windowSeconds);
        }
        consumption := store.ConsumeInMemory(key, limit, now);
        return;
      }
      var (count, ttl) := if answer.Answered? then (answer.reply.count, answer.reply.ttlSeconds) else (0, 0);
      degraded := false;
      consumption := Consumption(count <= limit, Max(0, limit - count), Max(1, ttl));
    }
  }

  /** A caller is never told to come back in zero or negative seconds, nor that it has less than nothing left. */
  lemma ReportIsSane(bucket: Bucket, limit: nat, windowMs: int, now: Time)
    requires bucket.startedAt <= now && IsLive(bucket, now, windowMs)
    ensures var report := Report(bucket, limit, windowMs, now);
            && 1 <= report.resetSeconds
            && now + report.resetSeconds * 1000 >= bucket.startedAt + windowMs > now + (report.resetSeconds - 1) * 1000
            && (if bucket.count <= limit then report.allowed && bucket.count + report.remaining == limit
                else !report.allowed && report.remaining == 0)
  {
  }
}
