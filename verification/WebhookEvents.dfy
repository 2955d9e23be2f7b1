/**
 * Persisting events and repairing their fan-out (webhooks/webhook-event.service.ts), one call at a
 * time. The rows and the matching rule are those of `WebhookPlane`.
 */
module WebhookEvents {
  import opened Common
  import opened WebhookDelivery
  import opened WebhookPlane
  import opened WebhookInvariant
  import opened Ordering

  const RECONCILIATION_BATCH: nat := 200
  const RECONCILIATION_MIN_AGE_MS: int := 30_000
  const DISPATCH_LIMIT: nat := 500

  // ---------------------------------------------------------------------------------------------
  // What a pass should leave
  // ---------------------------------------------------------------------------------------------

  /** The (event, endpoint) pairs that have a delivery, replays aside. */
  function Pairs(deliveries: map<Id, Delivery>): set<(Id, Id)> {
    set d | d in deliveries && !deliveries[d].isReplay :: (deliveries[d].event, deliveries[d].endpoint)
  }

  function PairsOf(event: Id, targets: set<Id>): set<(Id, Id)> {
    set e | e in targets :: (event, e)
  }

  /** The pairs that one event implies for the endpoints as they are. */
  function ImpliedBy(endpoints: map<Id, Endpoint>, event: Id, row: EventRow): set<(Id, Id)> {
    PairsOf(event, Matching(endpoints, row))
  }

  function Implied(endpoints: map<Id, Endpoint>, events: map<Id, EventRow>, chosen: set<Id>): set<(Id, Id)> {
    set v, e | v in chosen && v in events && e in Matching(endpoints, events[v]) :: (v, e)
  }

  /** The events a pass considers: old enough not to race their own fan-out, recent enough to repair. */
  function InWindow(events: map<Id, EventRow>, now: Time, horizonMs: int): set<Id> {
    set v | v in events && now - horizonMs <= events[v].createdAt <= now - RECONCILIATION_MIN_AGE_MS
  }

  /** ORDER BY created_at DESC as an ascending key. */
  function NewestFirst(events: map<Id, EventRow>): map<Id, int> {
    map v | v in events :: -events[v].createdAt
  }

  /** ORDER BY created_at. */
  function OldestFirst(deliveries: map<Id, Delivery>): map<Id, int> {
    map d | d in deliveries :: deliveries[d].createdAt
  }

  function PendingOf(deliveries: map<Id, Delivery>, event: Id): set<Id> {
    set d | d in deliveries && deliveries[d].event == event && deliveries[d].status == Pending
  }

  function Stranded(deliveries: map<Id, Delivery>, now: Time): set<Id> {
    set d | d in deliveries && RequeueSelects(deliveries[d], now)
  }

  /** Pending and due for a quarter of a minute, or never scheduled. */
  ghost predicate IsStranded(row: Delivery, now: Time) {
    row.status == Pending && (row.nextAttemptAt == None || row.nextAttemptAt.value <= now - 15_000)
  }

  lemma StrandedTaken(deliveries: map<Id, Delivery>, now: Time, taken: seq<Id>)
    requires IsFirstBy(OldestFirst(deliveries), Stranded(deliveries, now), RECONCILIATION_BATCH, taken)
    ensures forall i :: 0 <= i < |taken| ==> taken[i] in deliveries && IsStranded(deliveries[taken[i]], now)
    ensures forall d :: d in deliveries && IsStranded(deliveries[d], now) && d !in taken ==>
              |taken| == 200 && forall i :: 0 <= i < |taken| ==> deliveries[taken[i]].createdAt <= deliveries[d].createdAt
  {
    assert forall i :: 0 <= i < |taken| ==> taken[i] in Stranded(deliveries, now);
    forall d | d in deliveries && IsStranded(deliveries[d], now) && d !in taken
      ensures |taken| == 200 && forall i :: 0 <= i < |taken| ==> deliveries[taken[i]].createdAt <= deliveries[d].createdAt
    {
      assert d in Stranded(deliveries, now);
      FirstByLeaves(OldestFirst(deliveries), Stranded(deliveries, now), RECONCILIATION_BATCH, taken, d);
    }
  }

  /** What a dispatch takes: pending deliveries of the event, and all of them when there is room. */
  lemma PendingTaken(deliveries: map<Id, Delivery>, event: Id, found: seq<Id>)
    requires found == FirstOf(PendingOf(deliveries, event), DISPATCH_LIMIT)
    ensures forall i :: 0 <= i < |found| ==> found[i] in PendingOf(deliveries, event)
    ensures ToSet(found) <= PendingOf(deliveries, event)
    ensures |ToSet(found)| == |found| == Min(|PendingOf(deliveries, event)|, DISPATCH_LIMIT)
    ensures forall d :: d in PendingOf(deliveries, event) && d !in found ==> |found| == 500
  {
    DistinctCount(found);
    forall d | d in PendingOf(deliveries, event) && d !in found
      ensures |found| == 500
    {
      if |found| == |PendingOf(deliveries, event)| {
        DistinctIsWhole(found, PendingOf(deliveries, event), d);
      }
    }
  }

  lemma NewestTaken(events: map<Id, EventRow>, now: Time, horizonMs: int, batch: seq<Id>, v: Id)
    requires IsFirstBy(NewestFirst(events), InWindow(events, now, horizonMs), RECONCILIATION_BATCH, batch)
    requires v in events && now - horizonMs <= events[v].createdAt <= now - 30_000 && v !in batch
    ensures forall i :: 0 <= i < |batch| ==> batch[i] in events
    ensures |batch| == 200 && forall i :: 0 <= i < |batch| ==> events[v].createdAt <= events[batch[i]].createdAt
  {
    assert v in InWindow(events, now, horizonMs);
    FirstByLeaves(NewestFirst(events), InWindow(events, now, horizonMs), RECONCILIATION_BATCH, batch, v);
    forall i | 0 <= i < |batch|
      ensures batch[i] in events && events[v].createdAt <= events[batch[i]].createdAt
    {
      assert batch[i] in InWindow(events, now, horizonMs);
      assert NewestFirst(events)[batch[i]] <= NewestFirst(events)[v];
    }
  }

  /** The queue once it holds one more job for each of these deliveries, to run at once. */
  function Enqueued(jobs: seq<Job>, deliveries: map<Id, Delivery>, ids: seq<Id>): (after: seq<Job>)
    requires forall i :: 0 <= i < |ids| ==> ids[i] in deliveries
    ensures jobs <= after
  {
    if |ids| == 0 then jobs
    else
      var d := ids[|ids| - 1];
      Enqueued(jobs, deliveries, ids[..|ids| - 1]) + [Job(d, deliveries[d].attempts + 1, 0)]
  }

  /** Those of the deliveries whose job the queue took. */
  function Reached(ids: seq<Id>, unreachable: set<Id>): (reached: seq<Id>)
    ensures forall i :: 0 <= i < |reached| ==> reached[i] in ids
  {
    if |ids| == 0 then []
    else
      var (before, d) := (ids[..|ids| - 1], ids[|ids| - 1]);
      if d in unreachable then Reached(before, unreachable) else Reached(before, unreachable) + [d]
  }

  /** Everything is queued that the queue takes, and nothing else. */
  lemma {:induction false} ReachedExactly(ids: seq<Id>, unreachable: set<Id>, d: Id)
    ensures d in Reached(ids, unreachable) <==> d in ids && d !in unreachable
  {
    if |ids| > 0 {
      var before := ids[..|ids| - 1];
      ReachedExactly(before, unreachable, d);
      assert ids == before + [ids[|ids| - 1]];
    }
  }

  lemma ReachedNext(ids: seq<Id>, unreachable: set<Id>, i: nat)
    requires i < |ids|
    ensures Reached(ids[..i + 1], unreachable)
              == if ids[i] in unreachable then Reached(ids[..i], unreachable) else Reached(ids[..i], unreachable) + [ids[i]]
  {
    assert ids[..i + 1][..i] == ids[..i];
  }

  lemma EnqueuedNext(jobs: seq<Job>, deliveries: map<Id, Delivery>, ids: seq<Id>, d: Id)
    requires d in deliveries && forall k :: 0 <= k < |ids| ==> ids[k] in deliveries
    ensures Enqueued(jobs, deliveries, ids + [d]) == Enqueued(jobs, deliveries, ids) + [Job(d, deliveries[d].attempts + 1, 0)]
  {
    assert (ids + [d])[..|ids|] == ids;
  }

  lemma PairsAt(deliveries: map<Id, Delivery>, event: Id, endpoint: Id)
    ensures (event, endpoint) in Pairs(deliveries) <==> HasPair(deliveries, event, endpoint)
  {
    if HasPair(deliveries, event, endpoint) {
      var d :| d in deliveries && IsPair(deliveries[d], event, endpoint);
      assert (deliveries[d].event, deliveries[d].endpoint) in Pairs(deliveries);
    }
  }

  /** What a pass is for: every event it repaired is then delivered to every endpoint that matches it. */
  lemma RepairedMeansDelivered(endpoints: map<Id, Endpoint>, events: map<Id, EventRow>, chosen: set<Id>,
                               deliveries: map<Id, Delivery>, v: Id, e: Id)
    requires Pairs(deliveries) >= Implied(endpoints, events, chosen)
    requires v in chosen && v in events && e in endpoints && Matches(endpoints[e], events[v])
    ensures HasPair(deliveries, v, e)
  {
    assert (v, e) in Implied(endpoints, events, chosen);
    PairsAt(deliveries, v, e);
  }

  lemma ImpliedNext(endpoints: map<Id, Endpoint>, events: map<Id, EventRow>, chosen: set<Id>, v: Id)
    requires v in events && v !in chosen
    ensures Implied(endpoints, events, chosen + {v}) == Implied(endpoints, events, chosen) + ImpliedBy(endpoints, v, events[v])
    ensures Implied(endpoints, events, chosen) !! ImpliedBy(endpoints, v, events[v])
  {
  }

  /** Counting what is new, first in one set of pairs and then in another. */
  lemma CountNew(before: set<(Id, Id)>, first: set<(Id, Id)>, second: set<(Id, Id)>)
    requires first !! second
    ensures |(first + second) - before| == |first - before| + |second - (before + first)|
  {
    assert (first + second) - before == (first - before) + (second - (before + first));
  }

  // ---------------------------------------------------------------------------------------------
  // The service
  // ---------------------------------------------------------------------------------------------

  /** `before` grown by new deliveries of the given events to endpoints that match them. */
  ghost predicate Extended(before: map<Id, Delivery>, after: map<Id, Delivery>, endpoints: map<Id, Endpoint>,
                           events: map<Id, EventRow>, chosen: set<Id>, now: Time)
  {
    && (forall d :: d in before ==> d in after && after[d] == before[d])
    && (forall d :: d in after && d !in before ==>
          && after[d].event in chosen && after[d].event in events
          && after[d].endpoint in Matching(endpoints, events[after[d].event])
          && after[d] == NewDelivery(after[d].event, after[d].endpoint, false, now))
  }

  /**
   * The same on the columns: each new row is due at once, has no attempt behind it, and goes to an
   * endpoint that is switched on, subscribed to the event's type, and of its project and environment.
   */
  ghost predicate OnlySubscribersAdded(before: map<Id, Delivery>, after: map<Id, Delivery>, endpoints: map<Id, Endpoint>,
                                       events: map<Id, EventRow>, chosen: set<Id>, now: Time)
  {
    && (forall d :: d in before ==> d in after && after[d] == before[d])
    && (forall d :: d in after && d !in before ==>
          && after[d].event in chosen && after[d].event in events && after[d].endpoint in endpoints
          && after[d].status == Pending && after[d].attempts == 0 && after[d].responseStatus == None
          && after[d].nextAttemptAt == Some(now) && after[d].createdAt == now && !after[d].isReplay
          && var (endpoint, event) := (endpoints[after[d].endpoint], events[after[d].event]);
             && endpoint.enabled && event.kind in endpoint.types
             && endpoint.scope.project == event.scope.project && endpoint.scope.environment == event.scope.environment)
  }

  /** Every such endpoint has a delivery of every chosen event that is no replay. */
  ghost predicate SubscribersServed(deliveries: map<Id, Delivery>, endpoints: map<Id, Endpoint>, events: map<Id, EventRow>, chosen: set<Id>) {
    forall v, e | v in chosen && v in events && e in endpoints && endpoints[e].enabled && events[v].kind in endpoints[e].types
                  && endpoints[e].scope.project == events[v].scope.project
                  && endpoints[e].scope.environment == events[v].scope.environment ::
      exists d :: d in deliveries && deliveries[d].event == v && deliveries[d].endpoint == e && !deliveries[d].isReplay
  }

  lemma ExtendedToSubscribers(before: map<Id, Delivery>, after: map<Id, Delivery>, endpoints: map<Id, Endpoint>,
                              events: map<Id, EventRow>, chosen: set<Id>, now: Time)
    requires Extended(before, after, endpoints, events, chosen, now)
    ensures OnlySubscribersAdded(before, after, endpoints, events, chosen, now)
  {
  }

  lemma ImpliedServes(deliveries: map<Id, Delivery>, endpoints: map<Id, Endpoint>, events: map<Id, EventRow>, chosen: set<Id>)
    requires Pairs(deliveries) >= Implied(endpoints, events, chosen)
    ensures SubscribersServed(deliveries, endpoints, events, chosen)
  {
    forall v, e | v in chosen && v in events && e in endpoints && endpoints[e].enabled && events[v].kind in endpoints[e].types
                  && endpoints[e].scope.project == events[v].scope.project
                  && endpoints[e].scope.environment == events[v].scope.environment
      ensures exists d :: d in deliveries && deliveries[d].event == v && deliveries[d].endpoint == e && !deliveries[d].isReplay
    {
      RepairedMeansDelivered(endpoints, events, chosen, deliveries, v, e);
      var d :| d in deliveries && IsPair(deliveries[d], v, e);
      assert d in deliveries && deliveries[d].event == v;
    }
  }

  lemma ImpliedByOne(endpoints: map<Id, Endpoint>, event: Id, row: EventRow)
    ensures ImpliedBy(endpoints, event, row) == Implied(endpoints, map[event := row], {event})
  {
  }

  ghost predicate Inserted(before: map<Id, Delivery>, after: map<Id, Delivery>, id: Id, event: Id, endpoint: Id, now: Time) {
    id !in before && after == before[id := NewDelivery(event, endpoint, false, now)]
  }

  lemma InsertedExtends(before: map<Id, Delivery>, after: map<Id, Delivery>, id: Id, endpoint: Id, now: Time,
                        endpoints: map<Id, Endpoint>, event: Id, row: EventRow)
    requires after == before || Inserted(before, after, id, event, endpoint, now)
    requires endpoint in Matching(endpoints, row)
    ensures Extended(before, after, endpoints, map[event := row], {event}, now)
  {
  }

  lemma OneMoreTarget(event: Id, done: set<Id>, e: Id, before: set<(Id, Id)>)
    requires e !in done
    ensures before + PairsOf(event, done + {e}) == before + PairsOf(event, done) + {(event, e)}
    ensures |PairsOf(event, done + {e}) - before|
              == |PairsOf(event, done) - before| + if (event, e) in before + PairsOf(event, done) then 0 else 1
  {
    CountNew(before, PairsOf(event, done), {(event, e)});
    assert {(event, e)} - (before + PairsOf(event, done)) == if (event, e) in before + PairsOf(event, done) then {} else {(event, e)};
    assert PairsOf(event, done + {e}) == PairsOf(event, done) + {(event, e)};
  }

  /** Growth adds up. */
  lemma ExtendedBy(before: map<Id, Delivery>, current: map<Id, Delivery>, after: map<Id, Delivery>,
                   endpoints: map<Id, Endpoint>, events: map<Id, EventRow>, chosen: set<Id>, now: Time)
    requires Extended(before, current, endpoints, events, chosen, now)
    requires Extended(current, after, endpoints, events, chosen, now)
    ensures Extended(before, after, endpoints, events, chosen, now)
  {
    forall d | d in after && d !in before
      ensures after[d].event in chosen && after[d].event in events
      ensures after[d].endpoint in Matching(endpoints, events[after[d].event])
      ensures after[d] == NewDelivery(after[d].event, after[d].endpoint, false, now)
    {
      assert d in current ==> after[d] == current[d];
    }
  }

  /** The deliveries once the endpoints of `done` have been seen to, `count` of them with a new row. */
  ghost predicate Progress(before: map<Id, Delivery>, current: map<Id, Delivery>, endpoints: map<Id, Endpoint>,
                           event: Id, row: EventRow, done: set<Id>, now: Time, count: nat)
  {
    && Pairs(current) == Pairs(before) + PairsOf(event, done)
    && count == |PairsOf(event, done) - Pairs(before)| && |current| == |before| + count
    && Extended(before, current, endpoints, map[event := row], {event}, now)
  }

  lemma NoProgress(deliveries: map<Id, Delivery>, endpoints: map<Id, Endpoint>, event: Id, row: EventRow, now: Time)
    ensures Progress(deliveries, deliveries, endpoints, event, row, {}, now, 0)
  {
    assert PairsOf(event, {}) == {};
  }

  lemma MoreProgress(before: map<Id, Delivery>, current: map<Id, Delivery>, after: map<Id, Delivery>, id: Id,
                     endpoints: map<Id, Endpoint>, event: Id, row: EventRow, done: set<Id>, e: Id, now: Time, count: nat)
    requires Progress(before, current, endpoints, event, row, done, now, count)
    requires e in Matching(endpoints, row) && e !in done
    requires Pairs(after) == Pairs(current) + {(event, e)}
    requires if (event, e) in Pairs(current) then after == current else Inserted(current, after, id, event, e, now)
    ensures Progress(before, after, endpoints, event, row, done + {e}, now,
                     if (event, e) in Pairs(current) then count else count + 1)
  {
    OneMoreTarget(event, done, e, Pairs(before));
    InsertedExtends(current, after, id, e, now, endpoints, event, row);
    ExtendedBy(before, current, after, endpoints, map[event := row], {event}, now);
  }

  /** The deliveries once the events of `chosen` have been repaired, with `count` new rows. */
  ghost predicate Repaired(before: map<Id, Delivery>, current: map<Id, Delivery>, endpoints: map<Id, Endpoint>,
                           events: map<Id, EventRow>, chosen: set<Id>, now: Time, count: nat)
  {
    && Pairs(current) == Pairs(before) + Implied(endpoints, events, chosen)
    && count == |Implied(endpoints, events, chosen) - Pairs(before)| && |current| == |before| + count
    && Extended(before, current, endpoints, events, chosen, now)
  }

  lemma NothingRepaired(deliveries: map<Id, Delivery>, endpoints: map<Id, Endpoint>, events: map<Id, EventRow>, now: Time)
    ensures Repaired(deliveries, deliveries, endpoints, events, {}, now, 0)
  {
    assert Implied(endpoints, events, {}) == {};
  }

  lemma OneMoreRepaired(before: map<Id, Delivery>, current: map<Id, Delivery>, after: map<Id, Delivery>,
                        endpoints: map<Id, Endpoint>, events: map<Id, EventRow>, chosen: set<Id>, v: Id, now: Time,
                        count: nat, more: nat)
    requires Repaired(before, current, endpoints, events, chosen, now, count)
    requires v in events && v !in chosen
    requires Pairs(after) == Pairs(current) + ImpliedBy(endpoints, v, events[v])
    requires more == |ImpliedBy(endpoints, v, events[v]) - Pairs(current)| && |after| == |current| + more
    requires Extended(current, after, endpoints, map[v := events[v]], {v}, now)
    ensures Repaired(before, after, endpoints, events, chosen + {v}, now, count + more)
  {
    ImpliedNext(endpoints, events, chosen, v);
    AddAndCount(Pairs(before), Implied(endpoints, events, chosen), ImpliedBy(endpoints, v, events[v]));
    AlsoExtended(before, current, endpoints, events, chosen, chosen + {v}, now);
    OneExtended(current, after, endpoints, events, chosen, v, now);
    ExtendedBy(before, current, after, endpoints, events, chosen + {v}, now);
  }

  lemma AddAndCount(before: set<(Id, Id)>, first: set<(Id, Id)>, second: set<(Id, Id)>)
    requires first !! second
    ensures (before + first) + second == before + (first + second)
    ensures |(first + second) - before| == |first - before| + |second - (before + first)|
  {
    CountNew(before, first, second);
  }

  lemma OneExtended(current: map<Id, Delivery>, after: map<Id, Delivery>, endpoints: map<Id, Endpoint>,
                    events: map<Id, EventRow>, chosen: set<Id>, v: Id, now: Time)
    requires v in events && Extended(current, after, endpoints, map[v := events[v]], {v}, now)
    ensures Extended(current, after, endpoints, events, chosen + {v}, now)
  {
  }

  lemma AlsoExtended(before: map<Id, Delivery>, after: map<Id, Delivery>, endpoints: map<Id, Endpoint>,
                     events: map<Id, EventRow>, chosen: set<Id>, wider: set<Id>, now: Time)
    requires Extended(before, after, endpoints, events, chosen, now) && chosen <= wider
    ensures Extended(before, after, endpoints, events, wider, now)
  {
  }

  /** The events of the first `i` whose repair goes through. */
  function Chosen(found: seq<Id>, i: nat, failing: set<Id>): set<Id>
    requires i <= |found|
  {
    ToSet(found[..i]) - failing
  }

  lemma NextChosen(found: seq<Id>, i: nat, failing: set<Id>)
    requires i < |found| && forall j, k :: 0 <= j < k < |found| ==> found[j] != found[k]
    ensures found[i] !in Chosen(found, i, failing)
    ensures Chosen(found, i + 1, failing)
              == if found[i] in failing then Chosen(found, i, failing) else Chosen(found, i, failing) + {found[i]}
  {
    assert found[..i + 1] == found[..i] + [found[i]];
    assert ToSet(found[..i + 1]) == ToSet(found[..i]) + {found[i]};
  }

  lemma AllChosen(targets: seq<Id>, s: set<Id>)
    requires forall x :: x in targets <==> x in s
    ensures Chosen(targets, |targets|, {}) == s
    ensures forall i :: 0 <= i < |targets| ==> targets[i] in s
  {
    assert targets[..|targets|] == targets;
  }

  lemma PersistedToSubscribers(before: map<Id, Delivery>, after: map<Id, Delivery>, endpoints: map<Id, Endpoint>,
                               events: map<Id, EventRow>, event: Id, now: Time)
    requires event in events
    requires OnlySubscribersAdded(before, after, endpoints, map[event := events[event]], {event}, now)
    requires SubscribersServed(after, endpoints, map[event := events[event]], {event})
    ensures OnlySubscribersAdded(before, after, endpoints, events, {event}, now)
    ensures SubscribersServed(after, endpoints, events, {event})
  {
  }

  /** A job for the first attempt of a delivery was added since the queue was `from` long. */
  ghost predicate FirstJobAdded(jobs: seq<Job>, from: nat, d: Id) {
    exists j :: from <= j < |jobs| && jobs[j] == Job(d, 1, 0)
  }

  /** Every new row got its job, unless the queue refused it or its event has more than one dispatch takes. */
  ghost predicate NewRowsQueued(before: map<Id, Delivery>, current: map<Id, Delivery>, jobs: seq<Job>, from: nat, unreachable: set<Id>) {
    forall d :: d in current && d !in before && d !in unreachable && |PendingOf(current, current[d].event)| <= 500 ==> FirstJobAdded(jobs, from, d)
  }

  lemma {:induction false} EnqueuedHas(jobs: seq<Job>, deliveries: map<Id, Delivery>, ids: seq<Id>, k: nat)
    requires forall i :: 0 <= i < |ids| ==> ids[i] in deliveries
    requires k < |ids|
    ensures exists j :: |jobs| <= j < |Enqueued(jobs, deliveries, ids)|
                        && Enqueued(jobs, deliveries, ids)[j] == Job(ids[k], deliveries[ids[k]].attempts + 1, 0)
  {
    var n := |ids| - 1;
    var (init, all) := (Enqueued(jobs, deliveries, ids[..n]), Enqueued(jobs, deliveries, ids));
    if k == n {
      assert all[|init|] == Job(ids[k], deliveries[ids[k]].attempts + 1, 0);
    } else {
      EnqueuedHas(jobs, deliveries, ids[..n], k);
      var j :| |jobs| <= j < |init| && init[j] == Job(ids[k], deliveries[ids[k]].attempts + 1, 0);
      assert all[j] == init[j];
    }
  }

  /** A delivery that was taken and that the queue accepts has its job. */
  lemma TakenIsQueued(jobs: seq<Job>, deliveries: map<Id, Delivery>, taken: seq<Id>, unreachable: set<Id>, d: Id)
    requires forall i :: 0 <= i < |taken| ==> taken[i] in deliveries
    requires d in taken && d !in unreachable && deliveries[d].attempts == 0
    ensures FirstJobAdded(Enqueued(jobs, deliveries, Reached(taken, unreachable)), |jobs|, d)
  {
    ReachedExactly(taken, unreachable, d);
    var reached := Reached(taken, unreachable);
    var k :| 0 <= k < |reached| && reached[k] == d;
    EnqueuedHas(jobs, deliveries, reached, k);
  }

  /** Fewer were taken than there are, so one more does not fit. */
  lemma OneTooMany(taken: seq<Id>, all: set<Id>, d: Id)
    requires d in all && d !in taken && |ToSet(taken)| == |taken| == Min(|all|, DISPATCH_LIMIT) && ToSet(taken) <= all
    ensures |all| > 500
  {
    assert all == ToSet(taken) + (all - ToSet(taken));
    assert d in all - ToSet(taken);
  }

  /** No row, no job to add. */
  lemma SameSizeSameRows(before: map<Id, Delivery>, after: map<Id, Delivery>)
    requires |after| == |before| && forall d :: d in before ==> d in after
    ensures forall d :: d in after ==> d in before
  {
    assert after.Keys == before.Keys + (after.Keys - before.Keys);
    assert |after.Keys| == |after| && |before.Keys| == |before|;
    assert |after.Keys - before.Keys| == 0;
  }

  /** A repair leaves the rows as they are and adds fresh ones of its event, or none. */
  ghost predicate RepairAdded(before: map<Id, Delivery>, after: map<Id, Delivery>, event: Id, repaired: nat) {
    && (forall d :: d in before ==> d in after && after[d] == before[d])
    && (forall d :: d in after && d !in before ==> after[d].event == event && after[d].status == Pending && after[d].attempts == 0)
    && (repaired == 0 ==> forall d :: d in after ==> d in before)
  }

  lemma AddedByRepair(before: map<Id, Delivery>, after: map<Id, Delivery>, endpoints: map<Id, Endpoint>, row: EventRow, event: Id,
                      now: Time, repaired: nat)
    requires OnlySubscribersAdded(before, after, endpoints, map[event := row], {event}, now) && |after| == |before| + repaired
    ensures RepairAdded(before, after, event, repaired)
  {
    if repaired == 0 {
      SameSizeSameRows(before, after);
    }
  }

  lemma StillQueued(a: map<Id, Delivery>, b: map<Id, Delivery>, c: map<Id, Delivery>, jobs: seq<Job>, more: seq<Job>, from: nat, unreachable: set<Id>)
    requires NewRowsQueued(a, b, jobs, from, unreachable) && NewRowsQueued(b, c, more, |jobs|, unreachable)
    requires jobs <= more && from <= |jobs| && forall d :: d in b ==> d in c && c[d] == b[d]
    ensures NewRowsQueued(a, c, more, from, unreachable)
  {
    forall d | d in c && d !in a && d !in unreachable && |PendingOf(c, c[d].event)| <= 500
      ensures FirstJobAdded(more, from, d)
    {
      if d in b {
        FewerPending(b, c, b[d].event);
        var j :| from <= j < |jobs| && jobs[j] == Job(d, 1, 0);
        assert more[j] == Job(d, 1, 0);
      } else {
        var j :| |jobs| <= j < |more| && more[j] == Job(d, 1, 0);
        assert FirstJobAdded(more, from, d);
      }
    }
  }

  lemma FewerPending(b: map<Id, Delivery>, c: map<Id, Delivery>, event: Id)
    requires forall d :: d in b ==> d in c && c[d] == b[d]
    ensures |PendingOf(b, event)| <= |PendingOf(c, event)|
  {
    assert PendingOf(c, event) == PendingOf(b, event) + (PendingOf(c, event) - PendingOf(b, event));
  }

  class EventService {
    var endpoints: map<Id, Endpoint>
    var events: map<Id, EventRow>
    var deliveries: map<Id, Delivery>
    /** The jobs added, in order. */
    var jobs: seq<Job>
    var nextId: Id
    const horizonMs: int

    /** At most one delivery a pair, and ids still to be handed out. */
    ghost predicate Valid()
      reads this
    {
      Unique(deliveries) && forall d :: d in deliveries ==> d < nextId
    }

    constructor (horizonMs: int)
      ensures Valid() && this.horizonMs == horizonMs
      ensures endpoints == map[] && events == map[] && deliveries == map[] && jobs == []
    {
      this.horizonMs := horizonMs;
      endpoints, events, deliveries, jobs, nextId := map[], map[], map[], [], 0;
    }

    /** One row of INSERT … ON CONFLICT DO NOTHING. */
    method InsertDelivery(event: Id, endpoint: Id, now: Time) returns (added: bool)
      requires Valid()
      modifies this`deliveries, this`nextId
      ensures Valid()
      ensures Pairs(deliveries) == old(Pairs(deliveries)) + {(event, endpoint)}
      ensures added <==> (event, endpoint) !in old(Pairs(deliveries))
      ensures if added then Inserted(old(deliveries), deliveries, old(nextId), event, endpoint, now) else deliveries == old(deliveries)
    {
      PairsAt(deliveries, event, endpoint);
      added := !exists d :: d in deliveries && IsPair(deliveries[d], event, endpoint);
      if added {
        PairsAdded(deliveries, nextId, NewDelivery(event, endpoint, false, now));
        deliveries := deliveries[nextId := NewDelivery(event, endpoint, false, now)];
        nextId := nextId + 1;
      }
    }

    /** The row for one target of a fan-out. */
    method InsertTarget(event: Id, row: EventRow, endpoint: Id, now: Time,
                        ghost before: map<Id, Delivery>, ghost done: set<Id>, count: nat) returns (after: nat)
      requires Valid() && endpoint in Matching(endpoints, row) && endpoint !in done
      requires Progress(before, deliveries, endpoints, event, row, done, now, count)
      modifies this`deliveries, this`nextId
      ensures Valid()
      ensures Progress(before, deliveries, endpoints, event, row, done + {endpoint}, now, after)
    {
      var added := InsertDelivery(event, endpoint, now);
      MoreProgress(before, old(deliveries), deliveries, old(nextId), endpoints, event, row, done, endpoint, now, count);
      after := if added then count + 1 else count;
    }

    /** The rows for all targets, one after the other. */
    method InsertTargets(event: Id, row: EventRow, targets: seq<Id>, now: Time) returns (count: nat)
      requires Valid()
      requires forall i :: 0 <= i < |targets| ==> targets[i] in Matching(endpoints, row)
      requires forall i, j :: 0 <= i < j < |targets| ==> targets[i] != targets[j]
      modifies this`deliveries, this`nextId
      ensures Valid()
      ensures Progress(old(deliveries), deliveries, endpoints, event, row, Chosen(targets, |targets|, {}), now, count)
    {
      count := 0;
      NoProgress(deliveries, endpoints, event, row, now);
      assert Chosen(targets, 0, {}) == {};
      for i := 0 to |targets|
        invariant Valid()
        invariant Progress(old(deliveries), deliveries, endpoints, event, row, Chosen(targets, i, {}), now, count)
      {
        NextChosen(targets, i, {});
        count := InsertTarget(event, row, targets[i], now, old(deliveries), Chosen(targets, i, {}), count);
      }
    }

    /** One delivery for every endpoint that matches and has none; counts the rows it added. */
    method CreateDeliveries(event: Id, row: EventRow, now: Time) returns (count: nat)
      requires Valid()
      modifies this`deliveries, this`nextId
      ensures Valid()
      ensures Pairs(deliveries) == old(Pairs(deliveries)) + ImpliedBy(endpoints, event, row)
      ensures count == |ImpliedBy(endpoints, event, row) - old(Pairs(deliveries))|
      ensures |deliveries| == |old(deliveries)| + count
      ensures Extended(old(deliveries), deliveries, endpoints, map[event := row], {event}, now)
      ensures OnlySubscribersAdded(old(deliveries), deliveries, endpoints, map[event := row], {event}, now)
      ensures SubscribersServed(deliveries, endpoints, map[event := row], {event})
    {
      var targets := Sorted(Matching(endpoints, row));
      AllChosen(targets, Matching(endpoints, row));
      count := InsertTargets(event, row, targets, now);
      ExtendedToSubscribers(old(deliveries), deliveries, endpoints, map[event := row], {event}, now);
      ImpliedByOne(endpoints, event, row);
      ImpliedServes(deliveries, endpoints, map[event := row], {event});
    }

    /** Inside the caller's transaction: an event already there is left alone, deliveries and all. */
    method Persist(event: Id, row: EventRow, now: Time)
      requires Valid()
      modifies this`events, this`deliveries, this`nextId
      ensures Valid()
      ensures event in old(events) ==> events == old(events) && deliveries == old(deliveries)
      ensures event !in old(events) ==>
                && events == old(events)[event := row]
                && Pairs(deliveries) == old(Pairs(deliveries)) + ImpliedBy(endpoints, event, row)
                && OnlySubscribersAdded(old(deliveries), deliveries, endpoints, events, {event}, now)
                && SubscribersServed(deliveries, endpoints, events, {event})
    {
      if event in events {
        return;
      }
      events := events[event := row];
      var _ := CreateDeliveries(event, row, now);
      PersistedToSubscribers(old(deliveries), deliveries, endpoints, events, event, now);
    }

    /** Best effort, job by job: one the queue does not take is lost, and reconciliation recovers it. */
    method Enqueue(ids: seq<Id>, unreachable: set<Id>) returns (queued: nat)
      requires forall i :: 0 <= i < |ids| ==> ids[i] in deliveries
      modifies this`jobs
      ensures queued == |Reached(ids, unreachable)|
      ensures jobs == Enqueued(old(jobs), deliveries, Reached(ids, unreachable))
    {
      queued := 0;
      for i := 0 to |ids|
        invariant queued == |Reached(ids[..i], unreachable)|
        invariant jobs == Enqueued(old(jobs), deliveries, Reached(ids[..i], unreachable))
      {
        ReachedNext(ids, unreachable, i);
        if ids[i] !in unreachable {
          EnqueuedNext(old(jobs), deliveries, Reached(ids[..i], unreachable), ids[i]);
          jobs := jobs + [Job(ids[i], deliveries[ids[i]].attempts + 1, 0)];
          queued := queued + 1;
        }
      }
      assert ids[..|ids|] == ids;
    }

    /** Queues the pending deliveries of a committed event. */
    method Dispatch(event: Id, unreachable: set<Id>) returns (ghost taken: seq<Id>)
      modifies this`jobs
      ensures forall i :: 0 <= i < |taken| ==> taken[i] in deliveries
      ensures ToSet(taken) <= PendingOf(deliveries, event)
      ensures |ToSet(taken)| == |taken| == Min(|PendingOf(deliveries, event)|, DISPATCH_LIMIT)
      ensures forall i :: 0 <= i < |taken| ==> deliveries[taken[i]].event == event && deliveries[taken[i]].status == Pending
      ensures forall d :: d in deliveries && deliveries[d].event == event && deliveries[d].status == Pending && d !in taken ==> |taken| == 500
      ensures jobs == Enqueued(old(jobs), deliveries, Reached(taken, unreachable))
    {
      var found := FirstOf(PendingOf(deliveries, event), DISPATCH_LIMIT);
      PendingTaken(deliveries, event, found);
      taken := found;
      var _ := Enqueue(found, unreachable);
    }

    /** Re-queues the pending deliveries that have been due for the grace period, oldest first. */
    method RequeueDueDeliveries(now: Time, unreachable: set<Id>) returns (queued: nat, ghost taken: seq<Id>)
      modifies this`jobs
      ensures forall i :: 0 <= i < |taken| ==> taken[i] in deliveries
      ensures IsFirstBy(OldestFirst(deliveries), Stranded(deliveries, now), RECONCILIATION_BATCH, taken)
      ensures queued == |Reached(taken, unreachable)|
      ensures jobs == Enqueued(old(jobs), deliveries, Reached(taken, unreachable))
      ensures forall i :: 0 <= i < |taken| ==> IsStranded(deliveries[taken[i]], now)
      ensures forall d :: d in deliveries && IsStranded(deliveries[d], now) && d !in taken ==>
                |taken| == 200 && forall i :: 0 <= i < |taken| ==> deliveries[taken[i]].createdAt <= deliveries[d].createdAt
    {
      var found := FirstBy(OldestFirst(deliveries), Stranded(deliveries, now), RECONCILIATION_BATCH);
      StrandedTaken(deliveries, now, found);
      taken := found;
      queued := Enqueue(found, unreachable);
    }

    /** The transaction that repairs one event. */
    method RepairOne(event: Id, now: Time, ghost before: map<Id, Delivery>, ghost chosen: set<Id>, created: nat) returns (repaired: nat)
      requires Valid() && event in events && event !in chosen
      requires Repaired(before, deliveries, endpoints, events, chosen, now, created)
      modifies this`deliveries, this`nextId
      ensures Valid()
      ensures Repaired(before, deliveries, endpoints, events, chosen + {event}, now, created + repaired)
      ensures RepairAdded(old(deliveries), deliveries, event, repaired)
    {
      repaired := CreateDeliveries(event, events[event], now);
      AddedByRepair(old(deliveries), deliveries, endpoints, events[event], event, now, repaired);
      OneMoreRepaired(before, old(deliveries), deliveries, endpoints, events, chosen, event, now, created, repaired);
    }

    /** Queues the event's pending deliveries if the repair added any. */
    method DispatchRepaired(event: Id, repaired: nat, unreachable: set<Id>, ghost before: map<Id, Delivery>)
      requires RepairAdded(before, deliveries, event, repaired)
      modifies this`jobs
      ensures old(jobs) <= jobs && (repaired == 0 ==> jobs == old(jobs))
      ensures NewRowsQueued(before, deliveries, jobs, |old(jobs)|, unreachable)
    {
      if repaired > 0 {
        ghost var taken := Dispatch(event, unreachable);
        forall d | d in deliveries && d !in before && d !in unreachable && |PendingOf(deliveries, deliveries[d].event)| <= 500
          ensures FirstJobAdded(jobs, |old(jobs)|, d)
        {
          if d !in taken {
            OneTooMany(taken, PendingOf(deliveries, event), d);
          }
          TakenIsQueued(old(jobs), deliveries, taken, unreachable, d);
        }
      }
    }

    /** The repair of one event and, if it added anything, the dispatch of the event. No job is taken back. */
    method RepairAndDispatch(event: Id, now: Time, unreachable: set<Id>, ghost before: map<Id, Delivery>, ghost chosen: set<Id>, created: nat)
      returns (repaired: nat)
      requires Valid() && event in events && event !in chosen
      requires Repaired(before, deliveries, endpoints, events, chosen, now, created)
      modifies this`deliveries, this`nextId, this`jobs
      ensures Valid() && old(jobs) <= jobs
      ensures Repaired(before, deliveries, endpoints, events, chosen + {event}, now, created + repaired)
      ensures NewRowsQueued(old(deliveries), deliveries, jobs, |old(jobs)|, unreachable)
      ensures RepairAdded(old(deliveries), deliveries, event, repaired)
    {
      repaired := RepairOne(event, now, before, chosen, created);
      DispatchRepaired(event, repaired, unreachable, old(deliveries));
    }

    /** The newest events of the window, at most a batch. */
    method SelectEvents(now: Time) returns (batch: seq<Id>)
      ensures IsFirstBy(NewestFirst(events), InWindow(events, now, horizonMs), RECONCILIATION_BATCH, batch)
      ensures forall i :: 0 <= i < |batch| ==> batch[i] in events
      ensures forall i, j :: 0 <= i < j < |batch| ==> batch[i] != batch[j]
      ensures forall i :: 0 <= i < |batch| ==> now - horizonMs <= events[batch[i]].createdAt <= now - 30_000
      ensures forall v :: v in events && now - horizonMs <= events[v].createdAt <= now - 30_000 && v !in batch ==>
                |batch| == 200 && forall i :: 0 <= i < |batch| ==> events[v].createdAt <= events[batch[i]].createdAt
    {
      batch := FirstBy(NewestFirst(events), InWindow(events, now, horizonMs), RECONCILIATION_BATCH);
      forall v | v in events && now - horizonMs <= events[v].createdAt <= now - 30_000 && v !in batch
        ensures |batch| == 200 && forall i :: 0 <= i < |batch| ==> events[v].createdAt <= events[batch[i]].createdAt
      {
        NewestTaken(events, now, horizonMs, batch, v);
      }
      assert forall i :: 0 <= i < |batch| ==> batch[i] in InWindow(events, now, horizonMs);
    }

    /** Repairs the selected events one after the other; a failing one rolls back and is logged. */
    method RepairAll(batch: seq<Id>, now: Time, failing: set<Id>, unreachable: set<Id>) returns (created: nat)
      requires Valid()
      requires forall i :: 0 <= i < |batch| ==> batch[i] in events
      requires forall i, j :: 0 <= i < j < |batch| ==> batch[i] != batch[j]
      modifies this`deliveries, this`nextId, this`jobs
      ensures Valid() && old(jobs) <= jobs
      ensures Repaired(old(deliveries), deliveries, endpoints, events, Chosen(batch, |batch|, failing), now, created)
      ensures NewRowsQueued(old(deliveries), deliveries, jobs, |old(jobs)|, unreachable)
    {
      created := 0;
      NothingRepaired(deliveries, endpoints, events, now);
      assert Chosen(batch, 0, failing) == {};
      for i := 0 to |batch|
        invariant Valid() && old(jobs) <= jobs
        invariant Repaired(old(deliveries), deliveries, endpoints, events, Chosen(batch, i, failing), now, created)
        invariant NewRowsQueued(old(deliveries), deliveries, jobs, |old(jobs)|, unreachable)
      {
        NextChosen(batch, i, failing);
        if batch[i] !in failing {
          ghost var (rows, queue) := (deliveries, jobs);
          var repaired := RepairAndDispatch(batch[i], now, unreachable, old(deliveries), Chosen(batch, i, failing), created);
          created := created + repaired;
          StillQueued(old(deliveries), rows, deliveries, queue, jobs, |old(jobs)|, unreachable);
        }
      }
    }

    /**
     * One pass over the newest events of the window. Every pair that an event outside `failing`
     * implies is there afterwards, and the result is the number of rows added: none for pairs that
     * had a delivery already.
     */
    method Reconcile(now: Time, failing: set<Id>, unreachable: set<Id>) returns (created: nat, ghost batch: seq<Id>)
      requires Valid()
      modifies this`deliveries, this`nextId, this`jobs
      ensures Valid() && old(jobs) <= jobs
      ensures IsFirstBy(NewestFirst(events), InWindow(events, now, horizonMs), RECONCILIATION_BATCH, batch)
      ensures Pairs(deliveries) == old(Pairs(deliveries)) + Implied(endpoints, events, Chosen(batch, |batch|, failing))
      ensures created == |Implied(endpoints, events, Chosen(batch, |batch|, failing)) - old(Pairs(deliveries))|
      ensures |deliveries| == |old(deliveries)| + created
      ensures Implied(endpoints, events, Chosen(batch, |batch|, failing)) <= old(Pairs(deliveries)) ==> created == 0
      ensures OnlySubscribersAdded(old(deliveries), deliveries, endpoints, events, Chosen(batch, |batch|, failing), now)
      ensures SubscribersServed(deliveries, endpoints, events, Chosen(batch, |batch|, failing))
      ensures NewRowsQueued(old(deliveries), deliveries, jobs, |old(jobs)|, unreachable)
    {
      var found := SelectEvents(now);
      batch := found;
      created := RepairAll(found, now, failing, unreachable);
      ExtendedToSubscribers(old(deliveries), deliveries, endpoints, events, Chosen(found, |found|, failing), now);
      ImpliedServes(deliveries, endpoints, events, Chosen(found, |found|, failing));
    }
  }

  lemma PairsAdded(deliveries: map<Id, Delivery>, d: Id, row: Delivery)
    requires d !in deliveries && !row.isReplay
    ensures Pairs(deliveries[d := row]) == Pairs(deliveries) + {(row.event, row.endpoint)}
  {
    var after := deliveries[d := row];
    forall p | p in Pairs(deliveries) + {(row.event, row.endpoint)}
      ensures p in Pairs(after)
    {
      if p in Pairs(deliveries) {
        var c :| c in deliveries && !deliveries[c].isReplay && p == (deliveries[c].event, deliveries[c].endpoint);
        assert after[c] == deliveries[c];
      } else {
        assert after[d] == row;
      }
    }
  }
}
