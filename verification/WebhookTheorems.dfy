/** What the webhook tables promise over every run. */
module WebhookTheorems {
  import opened Common
  import opened WebhookDelivery
  import opened WebhookRetry
  import opened WebhookPlane
  import opened WebhookInvariant
  import opened WebhookRuns

  // ---------------------------------------------------------------------------------------------
  // Every reachable state
  // ---------------------------------------------------------------------------------------------

  /** However emits, repairs, replays and endpoint changes interleave, a pair is delivered once, replays aside. */
  lemma AtMostOneDelivery(s: State, d: Id, c: Id)
    requires Reachable(s) && d in s.deliveries && c in s.deliveries
    requires !s.deliveries[d].isReplay && !s.deliveries[c].isReplay
    requires s.deliveries[d].event == s.deliveries[c].event && s.deliveries[d].endpoint == s.deliveries[c].endpoint
    ensures d == c
  {
    ReachableInv(s);
    assert IsPair(s.deliveries[c], s.deliveries[d].event, s.deliveries[d].endpoint);
  }

  /** No delivery, replays included, crosses a project or an environment. */
  lemma DeliveryStaysInScope(s: State, d: Id)
    requires Reachable(s) && d in s.deliveries
    ensures s.deliveries[d].event in s.events && s.deliveries[d].endpoint in s.endpoints
    ensures s.events[s.deliveries[d].event].scope == s.endpoints[s.deliveries[d].endpoint].scope
  {
    ReachableDelivery(s, d);
  }

  /** Overlapping attempts cannot leave a delivery without attempts or without a schedule while it is pending. */
  lemma DeliverySafety(s: State, d: Id)
    requires Reachable(s) && d in s.deliveries
    ensures var row := s.deliveries[d];
            && (row.status == Pending <==> row.nextAttemptAt.Some?)
            && (row.status == Pending ==> row.attempts < s.policy.maxAttempts)
            && row.attempts <= s.policy.maxAttempts
  {
    ReachableDelivery(s, d);
  }

  /**
   * A pending delivery is selected exactly when it has been due for the grace period, and that is
   * the case at the latest one maximal backoff and one grace period after its row was last written.
   */
  lemma StrandedDeliveriesAreFound(a: State, b: State, d: Id)
    requires Reachable(a) && Runs(a, b) && d in a.deliveries && d in b.deliveries
    requires a.deliveries[d] == b.deliveries[d] && b.deliveries[d].status == Pending
    ensures b.deliveries[d].nextAttemptAt.Some?
    ensures RequeueSelects(b.deliveries[d], b.clock) <==> b.deliveries[d].nextAttemptAt.value + REQUEUE_GRACE_MS <= b.clock
    ensures b.clock >= a.clock + a.policy.maxBackoffMs + REQUEUE_GRACE_MS ==> RequeueSelects(b.deliveries[d], b.clock)
  {
    ReachableDelivery(a, d);
  }

  // ---------------------------------------------------------------------------------------------
  // Along a run
  // ---------------------------------------------------------------------------------------------

  /** A delivery keeps its event and endpoint, and all of its row once it is finished; its id is not taken again. */
  ghost predicate Keeps(d: Id, row: Delivery, s: State) {
    && d in s.used
    && (forall tid :: tid in s.tasks ==> d !in HeldRows(s.tasks[tid]))
    && (d in s.deliveries ==> SamePair(s.deliveries[d], row) && (row.status != Pending ==> s.deliveries[d] == row))
  }

  lemma InsertDeliveriesKeeps(s: State, tid: Id, t: FanTask, s': State, d: Id, row: Delivery)
    requires InsertDeliveries(s, tid, t, s') && Keeps(d, row, s)
    ensures Keeps(d, row, s')
  {
    var rows :| InsertsRows(s, tid, t, rows, s');
    InsertsRowsEffect(s, tid, t, rows, s');
    assert d !in rows;
  }

  lemma InsertEventKeeps(s: State, tid: Id, t: FanTask, s': State, d: Id, row: Delivery)
    requires tid in s.tasks && s.tasks[tid] == Fan(t) && InsertEvent(s, tid, t, s') && Keeps(d, row, s)
    ensures Keeps(d, row, s')
  {
    assert d !in HeldRows(s.tasks[tid]);
    var pc := if t.event in s.events then Duplicate else EventIn;
    assert s'.deliveries == s.deliveries && s'.used == s.used && s'.tasks == s.tasks[tid := Fan(t.(pc := pc))];
  }

  lemma ReadEndpointsKeeps(s: State, tid: Id, t: FanTask, s': State, d: Id, row: Delivery)
    requires tid in s.tasks && s.tasks[tid] == Fan(t) && ReadEndpoints(s, tid, t, s') && Keeps(d, row, s)
    ensures Keeps(d, row, s')
  {
    assert d !in HeldRows(s.tasks[tid]);
    var read := t.(pc := Read, targets := Matching(s.endpoints, t.row), seen := s.endpoints);
    assert s'.deliveries == s.deliveries && s'.used == s.used && s'.tasks == s.tasks[tid := Fan(read)];
  }

  lemma CommitFanKeeps(s: State, tid: Id, t: FanTask, s': State, d: Id, row: Delivery)
    requires tid in s.tasks && s.tasks[tid] == Fan(t) && CommitFan(s, tid, t, s') && Keeps(d, row, s)
    ensures Keeps(d, row, s')
  {
    assert d !in HeldRows(s.tasks[tid]);
    assert s'.deliveries == s.deliveries + t.rows && s'.used == s.used && s'.tasks == s.tasks - {tid};
  }

  lemma FanStepKeeps(s: State, tid: Id, s': State, d: Id, row: Delivery)
    requires FanStep(s, tid, s') && Keeps(d, row, s)
    ensures Keeps(d, row, s')
  {
    var t := s.tasks[tid].f;
    if InsertEvent(s, tid, t, s') {
      InsertEventKeeps(s, tid, t, s', d, row);
    } else if ReadEndpoints(s, tid, t, s') {
      ReadEndpointsKeeps(s, tid, t, s', d, row);
    } else if InsertDeliveries(s, tid, t, s') {
      InsertDeliveriesKeeps(s, tid, t, s', d, row);
    } else {
      CommitFanKeeps(s, tid, t, s', d, row);
    }
  }

  lemma ReplayStepKeeps(s: State, id: Id, s': State, d: Id, row: Delivery)
    requires ReplayStep(s, id, s') && Keeps(d, row, s)
    ensures Keeps(d, row, s')
  {
    var r := s.tasks[id].r;
    if !ReadReplayed(s, id, r, s') {
      var c, now :| InsertsReplay(s, id, r, c, now, s');
      assert c != d;
    }
  }

  lemma AttemptStepKeeps(s: State, id: Id, s': State, d: Id, row: Delivery)
    requires AttemptStep(s, id, s') && Keeps(d, row, s)
    ensures Keeps(d, row, s')
  {
    AttemptStepEffect(s, id, s');
  }

  lemma EndpointStepKeeps(s: State, id: Id, s': State, d: Id, row: Delivery)
    requires EndpointStep(s, id, s') && Keeps(d, row, s)
    ensures Keeps(d, row, s')
  {
    EndpointStepEffect(s, id, s');
  }

  lemma NextKeeps(s: State, s': State, d: Id, row: Delivery)
    requires Inv(s) && Next(s, s') && Keeps(d, row, s)
    ensures Keeps(d, row, s')
  {
    if !Tick(s, s') {
      var id :| StepOf(s, id, s');
      if FanStep(s, id, s') {
        FanStepKeeps(s, id, s', d, row);
      } else if Begin(s, id, s') {
        BegunOk(s, s', s'.tasks[id]);
      } else if ReplayStep(s, id, s') {
        ReplayStepKeeps(s, id, s', d, row);
      } else if AttemptStep(s, id, s') {
        AttemptStepKeeps(s, id, s', d, row);
      } else if EndpointStep(s, id, s') {
        EndpointStepKeeps(s, id, s', d, row);
      }
    }
  }

  lemma {:induction false} PathKeeps(path: seq<State>, i: nat, d: Id, row: Delivery)
    requires IsPath(path) && Inv(path[0]) && Keeps(d, row, path[0]) && i < |path|
    ensures Keeps(d, row, path[i])
  {
    if i > 0 {
      PathKeeps(path, i - 1, d, row);
      PathKeepsInv(path, i - 1);
      NextKeeps(path[i - 1], path[i], d, row);
    }
  }

  lemma HeldElsewhere(s: State, t: Task)
    requires TaskOk(s, t)
    ensures forall d :: d in HeldRows(t) ==> d !in s.deliveries
  {
    forall d | d in HeldRows(t)
      ensures d !in s.deliveries
    {
      assert HeldRowOk(s, t.f, d);
    }
  }

  /** `delivered` and `failed` absorb: nothing rewrites a finished delivery, it can only be deleted with its event or endpoint. */
  lemma FinishedIsFinal(a: State, b: State, d: Id)
    requires Reachable(a) && Runs(a, b) && d in a.deliveries && d in b.deliveries
    ensures SamePair(b.deliveries[d], a.deliveries[d])
    ensures a.deliveries[d].status != Pending ==> b.deliveries[d] == a.deliveries[d]
  {
    ReachableInv(a);
    forall tid | tid in a.tasks
      ensures d !in HeldRows(a.tasks[tid])
    {
      HeldElsewhere(a, a.tasks[tid]);
    }
    var path :| IsPath(path) && path[0] == a && path[|path| - 1] == b;
    PathKeeps(path, |path| - 1, d, a.deliveries[d]);
  }

  /** The event or the endpoint was deleted; their ids are not taken again. */
  ghost predicate Orphan(s: State, event: Id, endpoint: Id) {
    (event in s.emitted && event !in s.events) || (endpoint in s.scopes && endpoint !in s.endpoints)
  }

  ghost predicate StillThere(s: State, d: Id, event: Id, endpoint: Id) {
    || (d in s.deliveries && s.deliveries[d].event == event && s.deliveries[d].endpoint == endpoint)
    || Orphan(s, event, endpoint)
  }

  lemma StillThereKept(s: State, s': State, d: Id, event: Id, endpoint: Id)
    requires StillThere(s, d, event, endpoint)
    requires s'.events == s.events && s'.emitted == s.emitted && s'.endpoints == s.endpoints && s'.scopes == s.scopes
    requires d in s.deliveries ==> d in s'.deliveries && s'.deliveries[d] == s.deliveries[d]
    ensures StillThere(s', d, event, endpoint)
  {
  }

  lemma InsertDeliveriesStays(s: State, tid: Id, t: FanTask, s': State, d: Id, event: Id, endpoint: Id)
    requires DeliveriesOk(s) && InsertDeliveries(s, tid, t, s') && StillThere(s, d, event, endpoint)
    ensures StillThere(s', d, event, endpoint)
  {
    var rows :| InsertsRows(s, tid, t, rows, s');
    InsertsRowsEffect(s, tid, t, rows, s');
    assert d in s.deliveries ==> d !in rows;
    StillThereKept(s, s', d, event, endpoint);
  }

  lemma InsertEventStays(s: State, tid: Id, t: FanTask, s': State, d: Id, event: Id, endpoint: Id)
    requires InsertEvent(s, tid, t, s') && StillThere(s, d, event, endpoint)
    ensures StillThere(s', d, event, endpoint)
  {
    InsertEventEffect(s, tid, t, s');
  }

  lemma ReadEndpointsStays(s: State, tid: Id, t: FanTask, s': State, d: Id, event: Id, endpoint: Id)
    requires ReadEndpoints(s, tid, t, s') && StillThere(s, d, event, endpoint)
    ensures StillThere(s', d, event, endpoint)
  {
    assert s' == s.(emitted := s'.emitted, tasks := s'.tasks) && s.emitted.Keys <= s'.emitted.Keys;
  }

  lemma FanStepStays(s: State, tid: Id, s': State, d: Id, event: Id, endpoint: Id)
    requires Inv(s) && FanStep(s, tid, s') && StillThere(s, d, event, endpoint)
    ensures StillThere(s', d, event, endpoint)
  {
    var t := s.tasks[tid].f;
    if InsertDeliveries(s, tid, t, s') {
      InsertDeliveriesStays(s, tid, t, s', d, event, endpoint);
    } else if CommitFan(s, tid, t, s') {
      assert TaskOk(s, s.tasks[tid]);
      CommitFanStays(s, tid, t, s', d);
    } else if InsertEvent(s, tid, t, s') {
      InsertEventStays(s, tid, t, s', d, event, endpoint);
    } else {
      ReadEndpointsStays(s, tid, t, s', d, event, endpoint);
    }
  }

  lemma CommitFanStays(s: State, tid: Id, t: FanTask, s': State, d: Id)
    requires FanOk(s, t) && CommitFan(s, tid, t, s')
    ensures d in s.deliveries ==> d in s'.deliveries && s'.deliveries[d] == s.deliveries[d]
    ensures s'.endpoints == s.endpoints && s'.scopes == s.scopes && s.emitted.Keys <= s'.emitted.Keys
    ensures forall v :: v in s'.events && v !in s.events ==> v !in s.emitted
  {
    forall c | c in t.rows
      ensures c !in s.deliveries
    {
      assert HeldRowOk(s, t, c);
    }
  }

  lemma ReplayStepStays(s: State, tid: Id, s': State, d: Id, event: Id, endpoint: Id)
    requires DeliveriesOk(s) && ReplayStep(s, tid, s') && StillThere(s, d, event, endpoint)
    ensures StillThere(s', d, event, endpoint)
  {
    var r := s.tasks[tid].r;
    if !ReadReplayed(s, tid, r, s') {
      var c, now :| InsertsReplay(s, tid, r, c, now, s');
      assert d in s.deliveries ==> d in s.used;
    }
  }

  lemma EndpointStepStays(s: State, e: Id, s': State, d: Id, event: Id, endpoint: Id)
    requires RegistryOk(s) && EndpointStep(s, e, s') && StillThere(s, d, event, endpoint)
    ensures StillThere(s', d, event, endpoint)
  {
    EndpointStepEffect(s, e, s');
  }

  lemma AttemptStepStays(s: State, id: Id, s': State, d: Id, event: Id, endpoint: Id)
    requires AttemptStep(s, id, s') && StillThere(s, d, event, endpoint)
    ensures StillThere(s', d, event, endpoint)
  {
    AttemptStepEffect(s, id, s');
  }

  lemma StepStays(s: State, id: Id, s': State, d: Id, event: Id, endpoint: Id)
    requires Inv(s) && StepOf(s, id, s') && StillThere(s, d, event, endpoint)
    ensures StillThere(s', d, event, endpoint)
  {
    if Begin(s, id, s') || Abort(s, id, s') {
      assert s' == s.(tasks := s'.tasks);
    } else if FanStep(s, id, s') {
      FanStepStays(s, id, s', d, event, endpoint);
    } else if ReplayStep(s, id, s') {
      ReplayStepStays(s, id, s', d, event, endpoint);
    } else if AttemptStep(s, id, s') {
      AttemptStepStays(s, id, s', d, event, endpoint);
    } else {
      EndpointStepStays(s, id, s', d, event, endpoint);
    }
  }

  lemma NextStays(s: State, s': State, d: Id, event: Id, endpoint: Id)
    requires Inv(s) && Next(s, s') && StillThere(s, d, event, endpoint)
    ensures StillThere(s', d, event, endpoint)
  {
    if !Tick(s, s') {
      var id :| StepOf(s, id, s');
      StepStays(s, id, s', d, event, endpoint);
    }
  }

  lemma {:induction false} PathStays(path: seq<State>, i: nat, d: Id, event: Id, endpoint: Id)
    requires IsPath(path) && Inv(path[0]) && StillThere(path[0], d, event, endpoint) && i < |path|
    ensures StillThere(path[i], d, event, endpoint)
  {
    if i > 0 {
      PathStays(path, i - 1, d, event, endpoint);
      PathKeepsInv(path, i - 1);
      NextStays(path[i - 1], path[i], d, event, endpoint);
    }
  }

  /** A delivery is lost only with its event or its endpoint: while both are there, so is it. */
  lemma NoDeliveryIsLost(a: State, b: State, d: Id)
    requires Reachable(a) && Runs(a, b) && d in a.deliveries
    requires a.deliveries[d].event in b.events && a.deliveries[d].endpoint in b.endpoints
    ensures d in b.deliveries
  {
    ReachableInv(a);
    var path :| IsPath(path) && path[0] == a && path[|path| - 1] == b;
    PathStays(path, |path| - 1, d, a.deliveries[d].event, a.deliveries[d].endpoint);
  }

  // ---------------------------------------------------------------------------------------------
  // Concrete runs
  // ---------------------------------------------------------------------------------------------

  lemma StartReachable(s: State)
    requires Init(s)
    ensures Reachable(s)
  {
    assert IsPath([s]);
    assert [s][0] == s && [s][|[s]| - 1] == s;
    assert Runs(s, s);
  }

  lemma StepReachable(s: State, id: Id, s': State)
    requires Reachable(s) && StepOf(s, id, s')
    ensures Reachable(s')
  {
    var start :| Init(start) && Runs(start, s);
    var path :| IsPath(path) && path[0] == start && path[|path| - 1] == s;
    assert Next(s, s');
    var longer := path + [s'];
    forall i | 0 <= i < |longer| - 1
      ensures Next(longer[i], longer[i + 1])
    {
      assert i < |path| - 1 ==> Next(path[i], path[i + 1]);
    }
    assert IsPath(longer) && longer[0] == start && longer[|longer| - 1] == s';
    assert Runs(start, s');
  }

  const SAMPLE_POLICY := Policy(3, 30_000, 3_600_000)
  const SAMPLE_SCOPE := Scope(0, "test")
  const SAMPLE_ENDPOINT := Endpoint(SAMPLE_SCOPE, {"payment.created"}, true)
  const SAMPLE_EVENT := EventRow(SAMPLE_SCOPE, "payment.created", 0)

  /** One endpoint, and a fan-out of the given kind that has read it. */
  function WithEndpoint(tasks: map<Id, Task>): State {
    State(SAMPLE_POLICY, 0, map[0 := SAMPLE_ENDPOINT], map[], map[], tasks, map[0 := SAMPLE_SCOPE], map[], {}, map[])
  }

  lemma WithEndpointReachable()
    ensures Reachable(WithEndpoint(map[]))
  {
    var s0 := State(SAMPLE_POLICY, 0, map[], map[], map[], map[], map[], map[], {}, map[]);
    StartReachable(s0);
    assert CreateEndpoint(s0, 0, SAMPLE_ENDPOINT, WithEndpoint(map[]));
    assert EndpointStep(s0, 0, WithEndpoint(map[]));
    StepReachable(s0, 0, WithEndpoint(map[]));
  }

  function SampleFan(kind: FanKind, pc: FanPc): FanTask {
    FanTask(kind, 0, SAMPLE_EVENT, pc, if pc == Read then {0} else {}, if pc == Read then map[0 := SAMPLE_ENDPOINT] else map[], map[])
  }

  lemma SampleMatching()
    ensures Matching(map[0 := SAMPLE_ENDPOINT], SAMPLE_EVENT) == {0}
  {
    assert Matches(SAMPLE_ENDPOINT, SAMPLE_EVENT);
  }

  /** The emitter stops between the event and its deliveries: an event, an endpoint for it, and nothing to deliver. */
  function Orphaned(): State {
    WithEndpoint(map[]).(events := map[0 := SAMPLE_EVENT], emitted := map[0 := Emission(SAMPLE_EVENT, false, Some({0}), map[0 := SAMPLE_ENDPOINT])])
  }

  lemma OrphanedReachable()
    ensures Reachable(Orphaned())
  {
    WithEndpointReachable();
    var s1 := WithEndpoint(map[]);
    var s2 := WithEndpoint(map[0 := Fan(SampleFan(Direct, Begun))]);
    assert Begin(s1, 0, s2);
    StepReachable(s1, 0, s2);
    var s3 := WithEndpoint(map[0 := Fan(SampleFan(Direct, EventIn))]).(events := map[0 := SAMPLE_EVENT],
                           emitted := map[0 := Emission(SAMPLE_EVENT, false, None, map[])]);
    assert InsertEvent(s2, 0, SampleFan(Direct, Begun), s3);
    StepReachable(s2, 0, s3);
    var s4 := Orphaned().(tasks := map[0 := Fan(SampleFan(Direct, Read))]);
    SampleMatching();
    assert ReadEndpoints(s3, 0, SampleFan(Direct, EventIn), s4);
    StepReachable(s3, 0, s4);
    assert Abort(s4, 0, Orphaned());
    StepReachable(s4, 0, Orphaned());
  }

  /**
   * An event and the fan-out its emitter read are there together in every reachable state exactly
   * when `persist` runs in a transaction. Without one, as for a payment created without an
   * idempotency key, a crash can leave the event alone for the repair pass to find.
   */
  lemma FanOutCompleteIffTransactional(atomic: bool)
    ensures atomic <==> forall s, v :: Reachable(s) && v in s.events && v in s.emitted && s.emitted[v].atomic == atomic ==> FannedOut(s, v)
  {
    if atomic {
      forall s, v | Reachable(s) && v in s.events && v in s.emitted && s.emitted[v].atomic == atomic
        ensures FannedOut(s, v)
      {
        ReachableInv(s);
      }
    } else {
      OrphanedReachable();
      assert !HasPair(Orphaned().deliveries, 0, 0);
      assert !FannedOut(Orphaned(), 0);
    }
  }

  // ---------------------------------------------------------------------------------------------
  // Overlapping attempts
  // ---------------------------------------------------------------------------------------------

  /** One pending delivery with this many attempts made. */
  function Delivering(attempts: nat, tasks: map<Id, Task>): State {
    var row := NewDelivery(0, 0, false, 0).(attempts := attempts, nextAttemptAt := Some(0));
    WithEndpoint(tasks).(events := map[0 := SAMPLE_EVENT], deliveries := map[0 := row], used := {0}, origins := map[0 := SAMPLE_ENDPOINT],
                         emitted := map[0 := Emission(SAMPLE_EVENT, true, Some({0}), map[0 := SAMPLE_ENDPOINT])])
  }

  lemma DeliveringReachable()
    ensures Reachable(Delivering(0, map[]))
  {
    WithEndpointReachable();
    var s1 := WithEndpoint(map[]);
    var s2 := WithEndpoint(map[0 := Fan(SampleFan(Business, Begun))]);
    assert Begin(s1, 0, s2);
    StepReachable(s1, 0, s2);
    var s3 := WithEndpoint(map[0 := Fan(SampleFan(Business, EventIn))]);
    assert InsertEvent(s2, 0, SampleFan(Business, Begun), s3);
    StepReachable(s2, 0, s3);
    var s4 := WithEndpoint(map[0 := Fan(SampleFan(Business, Read))]);
    SampleMatching();
    assert ReadEndpoints(s3, 0, SampleFan(Business, EventIn), s4);
    StepReachable(s3, 0, s4);
    DeliveringFilled(s4);
  }

  function SampleRows(): map<Id, Delivery> {
    map[0 := NewDelivery(0, 0, false, 0)]
  }

  function SampleFilled(): FanTask {
    SampleFan(Business, Read).(pc := Filled, rows := SampleRows())
  }

  lemma SampleFills(s4: State, s5: State)
    requires s4 == WithEndpoint(map[0 := Fan(SampleFan(Business, Read))])
    requires s5 == WithEndpoint(map[0 := Fan(SampleFilled())]).(used := {0}, origins := map[0 := SAMPLE_ENDPOINT])
    ensures FanStep(s4, 0, s5)
  {
    var (t, rows) := (SampleFan(Business, Read), SampleRows());
    assert IsPair(rows[0], 0, 0) && HasPair(rows, 0, 0);
    assert Fills(s4, 0, {0}, rows) && Refers(s4, t, rows);
    assert s5 == s4.(used := s4.used + rows.Keys, origins := s4.origins + OriginsOf(t, rows), tasks := s4.tasks[0 := Fan(t.(pc := Filled, rows := rows))]);
    assert InsertsRows(s4, 0, t, rows, s5);
    assert InsertDeliveries(s4, 0, t, s5);
  }

  lemma SampleCommits(s5: State)
    requires s5 == WithEndpoint(map[0 := Fan(SampleFilled())]).(used := {0}, origins := map[0 := SAMPLE_ENDPOINT])
    ensures FanStep(s5, 0, Delivering(0, map[]))
  {
    assert Delivering(0, map[]).deliveries == s5.deliveries + SampleRows();
    assert CommitFan(s5, 0, SampleFilled(), Delivering(0, map[]));
  }

  lemma DeliveringFilled(s4: State)
    requires Reachable(s4) && s4 == WithEndpoint(map[0 := Fan(SampleFan(Business, Read))])
    ensures Reachable(Delivering(0, map[]))
  {
    var s5 := WithEndpoint(map[0 := Fan(SampleFilled())]).(used := {0}, origins := map[0 := SAMPLE_ENDPOINT]);
    SampleFills(s4, s5);
    StepReachable(s4, 0, s5);
    SampleCommits(s5);
    StepReachable(s5, 0, Delivering(0, map[]));
  }

  const UNANSWERED := Trial(Unreachable, 0, 0.0)

  /** An attempt that read the count `from` gets no answer and books the next attempt at once. */
  lemma Unanswered(from: nat, row: Delivery)
    requires from + 1 < SAMPLE_POLICY.maxAttempts && row.responseStatus == None
    ensures Recorded(from, row, UNANSWERED, SAMPLE_POLICY) == row.(attempts := from + 1, nextAttemptAt := Some(0))
  {
  }

  lemma AttemptStarts(attempts: nat, tasks: map<Id, Task>, tid: Id)
    requires Reachable(Delivering(attempts, tasks)) && tid !in tasks
    ensures Reachable(Delivering(attempts, tasks[tid := Attempt(AttemptTask(0, attempts))]))
  {
    var (s, s') := (Delivering(attempts, tasks), Delivering(attempts, tasks[tid := Attempt(AttemptTask(0, attempts))]));
    assert Begin(s, tid, s');
    StepReachable(s, tid, s');
  }

  lemma AttemptEnds(attempts: nat, tasks: map<Id, Task>, tid: Id, from: nat)
    requires tid in tasks && tasks[tid] == Attempt(AttemptTask(0, from)) && from + 1 < SAMPLE_POLICY.maxAttempts
    ensures AttemptStep(Delivering(attempts, tasks), tid, Delivering(from + 1, tasks - {tid}))
  {
    var (s, s') := (Delivering(attempts, tasks), Delivering(from + 1, tasks - {tid}));
    Unanswered(from, s.deliveries[0]);
    assert FinishAttempt(s, tid, AttemptTask(0, from), UNANSWERED, s');
  }

  lemma LastStep(s: State, s': State)
    requires AttemptStep(s, 0, s')
    ensures Next(s, s')
  {
    assert StepOf(s, 0, s');
  }

  /**
   * Because the write is conditional on the status only, a slow attempt puts back the count it read:
   * `attempts` is not monotone once attempts of one delivery overlap.
   */
  lemma AttemptsMayGoBack()
    ensures exists s, s' :: Reachable(s) && Next(s, s') && 0 in s.deliveries && 0 in s'.deliveries
              && s'.deliveries[0].attempts < s.deliveries[0].attempts
  {
    var slow := Attempt(AttemptTask(0, 0));
    DeliveringReachable();
    AttemptStarts(0, map[], 0);
    AttemptStarts(0, map[0 := slow], 1);
    var both := map[0 := slow, 1 := slow];
    assert map[0 := slow][1 := slow] == both;
    AttemptEnds(0, both, 1, 0);
    StepReachable(Delivering(0, both), 1, Delivering(1, both - {1}));
    assert both - {1} == map[0 := slow];
    AttemptStarts(1, map[0 := slow], 1);
    var mixed := map[0 := slow, 1 := Attempt(AttemptTask(0, 1))];
    assert map[0 := slow][1 := Attempt(AttemptTask(0, 1))] == mixed;
    AttemptEnds(1, mixed, 1, 1);
    StepReachable(Delivering(1, mixed), 1, Delivering(2, mixed - {1}));
    assert mixed - {1} == map[0 := slow];
    AttemptEnds(2, map[0 := slow], 0, 0);
    LastStep(Delivering(2, map[0 := slow]), Delivering(1, map[0 := slow] - {0}));
  }
}
