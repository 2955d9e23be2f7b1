/**
 * To whom deliveries go, written on the columns of the tables: every delivery of every run went to
 * an endpoint that was enabled and subscribed when its fan-out or its replay read it, and no such
 * endpoint of a transactional fan-out was left out.
 */
module WebhookHistory {
  import opened Common
  import opened WebhookDelivery
  import opened WebhookRetry
  import opened WebhookPlane
  import opened WebhookInvariant
  import opened WebhookRuns

  /** Endpoint rows that were in the table at some moment. */
  type Shown = iset<(Id, Endpoint)>

  /** Switched on, subscribed to the type of the event, and of its project and environment. */
  ghost predicate Subscribed(endpoint: Endpoint, row: EventRow) {
    && endpoint.enabled && row.kind in endpoint.types
    && endpoint.scope.project == row.scope.project && endpoint.scope.environment == row.scope.environment
  }

  /** A row read before: it was in the table then, switched on and subscribed. */
  ghost predicate ReadOk(s: State, shown: Shown, d: Id, endpoint: Id, row: EventRow) {
    d in s.origins && (endpoint, s.origins[d]) in shown && Subscribed(s.origins[d], row)
  }

  ghost predicate TableShown(endpoints: map<Id, Endpoint>, shown: Shown) {
    forall e :: e in endpoints ==> (e, endpoints[e]) in shown
  }

  /** Exactly the subscribed endpoints of a table. */
  ghost predicate TargetsOk(targets: set<Id>, seen: map<Id, Endpoint>, row: EventRow) {
    forall e :: e in targets <==> e in seen && Subscribed(seen[e], row)
  }

  ghost predicate FanHistoryOk(s: State, shown: Shown, t: FanTask) {
    && TableShown(t.seen, shown)
    && (t.pc == Read || t.pc == Filled ==> TargetsOk(t.targets, t.seen, t.row))
    && forall d :: d in t.rows ==> ReadOk(s, shown, d, t.rows[d].endpoint, t.row)
  }

  ghost predicate ReplayHistoryOk(shown: Shown, r: ReplayTask) {
    && (r.endpoint, r.snapshot) in shown
    && (r.found.Some? ==> Subscribed(r.snapshot, r.found.value))
  }

  ghost predicate TaskHistoryOk(s: State, shown: Shown, t: Task) {
    match t
    case Fan(f) => FanHistoryOk(s, shown, f)
    case Replay(r) => ReplayHistoryOk(shown, r)
    case Attempt(_) => true
  }

  ghost predicate DeliveryHistoryOk(s: State, shown: Shown, d: Id)
    requires d in s.deliveries
  {
    var row := s.deliveries[d];
    row.event in s.emitted && ReadOk(s, shown, d, row.endpoint, s.emitted[row.event].row)
  }

  ghost predicate HistoryOk(s: State, shown: Shown) {
    && s.origins.Keys <= s.used
    && (forall d :: d in s.deliveries ==> DeliveryHistoryOk(s, shown, d))
    && (forall tid :: tid in s.tasks ==> TaskHistoryOk(s, shown, s.tasks[tid]))
    && (forall v :: v in s.emitted && s.emitted[v].targets.Some? ==>
          TargetsOk(s.emitted[v].targets.value, s.emitted[v].seen, s.emitted[v].row))
  }

  // ---------------------------------------------------------------------------------------------
  // Steps
  // ---------------------------------------------------------------------------------------------

  /** What was read stays on record. */
  ghost predicate Remembers(s: State, s': State) {
    && (forall d :: d in s.origins ==> d in s'.origins && s'.origins[d] == s.origins[d])
    && (forall v :: v in s.emitted ==> v in s'.emitted && s'.emitted[v].row == s.emitted[v].row)
  }

  lemma TaskRemembered(s: State, s': State, shown: Shown, t: Task)
    requires TaskHistoryOk(s, shown, t) && Remembers(s, s')
    ensures TaskHistoryOk(s', shown, t)
  {
  }

  lemma DeliveryRemembered(s: State, s': State, shown: Shown, d: Id)
    requires d in s.deliveries && DeliveryHistoryOk(s, shown, d) && Remembers(s, s')
    requires d in s'.deliveries && s'.deliveries[d].event == s.deliveries[d].event && s'.deliveries[d].endpoint == s.deliveries[d].endpoint
    ensures DeliveryHistoryOk(s', shown, d)
  {
  }

  /** The tables as before but for events and endpoints, one task changed or gone. */
  lemma OneTaskHistory(s: State, s': State, shown: Shown, tid: Id)
    requires HistoryOk(s, shown) && Remembers(s, s')
    requires s'.deliveries == s.deliveries && s'.origins.Keys <= s'.used
    requires s'.tasks == s.tasks - {tid} || (tid in s'.tasks && s'.tasks == s.tasks[tid := s'.tasks[tid]] && TaskHistoryOk(s', shown, s'.tasks[tid]))
    requires forall v :: v in s'.emitted && s'.emitted[v].targets.Some? ==>
               TargetsOk(s'.emitted[v].targets.value, s'.emitted[v].seen, s'.emitted[v].row)
    ensures HistoryOk(s', shown)
  {
    forall d | d in s'.deliveries
      ensures DeliveryHistoryOk(s', shown, d)
    {
      DeliveryRemembered(s, s', shown, d);
    }
    forall other | other in s'.tasks
      ensures TaskHistoryOk(s', shown, s'.tasks[other])
    {
      if other in s.tasks && s'.tasks[other] == s.tasks[other] {
        TaskRemembered(s, s', shown, s.tasks[other]);
      }
    }
  }

  lemma MatchingIsSubscribed(endpoints: map<Id, Endpoint>, row: EventRow)
    ensures TargetsOk(Matching(endpoints, row), endpoints, row)
  {
  }

  lemma BeginHistory(s: State, tid: Id, s': State, shown: Shown)
    requires HistoryOk(s, shown) && TableShown(s.endpoints, shown) && Begin(s, tid, s')
    ensures HistoryOk(s', shown)
  {
    OneTaskHistory(s, s', shown, tid);
  }

  /** A statement of a fan-out that adds no delivery. */
  ghost predicate OnlyTask(s: State, tid: Id, t': FanTask, s': State) {
    && s'.deliveries == s.deliveries && s'.origins == s.origins && s'.used == s.used
    && s'.tasks == s.tasks[tid := Fan(t')] && Remembers(s, s')
  }

  lemma InsertEventOnly(s: State, tid: Id, t: FanTask, s': State)
    requires InsertEvent(s, tid, t, s')
    ensures OnlyTask(s, tid, t.(pc := if t.event in s.events then Duplicate else EventIn), s') && t.pc == Begun
    ensures forall v :: v in s'.emitted && s'.emitted[v].targets.Some? ==> v in s.emitted && s'.emitted[v] == s.emitted[v]
  {
    InsertEventEffect(s, tid, t, s');
  }

  lemma InsertEventHistory(s: State, tid: Id, t: FanTask, s': State, shown: Shown)
    requires HistoryOk(s, shown) && tid in s.tasks && s.tasks[tid] == Fan(t) && InsertEvent(s, tid, t, s')
    ensures HistoryOk(s', shown)
  {
    assert TaskHistoryOk(s, shown, Fan(t));
    InsertEventOnly(s, tid, t, s');
    OneTaskHistory(s, s', shown, tid);
  }

  lemma ReadEndpointsEffect(s: State, tid: Id, t: FanTask, s': State)
    requires FanOk(s, t) && ReadEndpoints(s, tid, t, s')
    ensures OnlyTask(s, tid, t.(pc := Read, targets := Matching(s.endpoints, t.row), seen := s.endpoints), s') && t.rows == map[]
    ensures forall v :: v in s'.emitted && s'.emitted[v].targets.Some? ==>
              && v in s.emitted
              && (s'.emitted[v] == s.emitted[v]
                  || s'.emitted[v] == Emission(t.row, s.emitted[v].atomic, Some(Matching(s.endpoints, t.row)), s.endpoints))
  {
  }

  lemma ReadEndpointsHistory(s: State, tid: Id, t: FanTask, s': State, shown: Shown)
    requires FanOk(s, t) && HistoryOk(s, shown) && TableShown(s.endpoints, shown)
    requires tid in s.tasks && s.tasks[tid] == Fan(t) && ReadEndpoints(s, tid, t, s')
    ensures HistoryOk(s', shown)
  {
    MatchingIsSubscribed(s.endpoints, t.row);
    ReadEndpointsEffect(s, tid, t, s');
    OneTaskHistory(s, s', shown, tid);
  }

  lemma NewOrigins(s: State, t: FanTask, rows: map<Id, Delivery>)
    requires Fills(s, t.event, t.targets, rows) && s.origins.Keys <= s.used
    ensures forall d :: d in s.origins ==> d in s.origins + OriginsOf(t, rows) && (s.origins + OriginsOf(t, rows))[d] == s.origins[d]
    ensures forall d :: d in rows && rows[d].endpoint in t.seen ==>
              d in s.origins + OriginsOf(t, rows) && (s.origins + OriginsOf(t, rows))[d] == t.seen[rows[d].endpoint]
    ensures (s.origins + OriginsOf(t, rows)).Keys <= s.used + rows.Keys
  {
    assert forall d :: d in OriginsOf(t, rows) ==> d in rows && d !in s.origins;
  }

  lemma OriginsAdded(s: State, tid: Id, t: FanTask, rows: map<Id, Delivery>, s': State)
    requires InsertsRows(s, tid, t, rows, s') && s.origins.Keys <= s.used
    ensures Remembers(s, s') && s'.origins.Keys <= s'.used && s'.emitted == s.emitted
    ensures forall d :: d in rows ==> rows[d].endpoint in t.targets && rows[d].event == t.event
    ensures forall d :: d in rows && rows[d].endpoint in t.seen ==> d in s'.origins && s'.origins[d] == t.seen[rows[d].endpoint]
  {
    NewOrigins(s, t, rows);
    assert s'.origins == s.origins + OriginsOf(t, rows) && s'.used == s.used + rows.Keys;
  }

  lemma FilledReadOk(s': State, t: FanTask, rows: map<Id, Delivery>, shown: Shown)
    requires TableShown(t.seen, shown) && TargetsOk(t.targets, t.seen, t.row)
    requires forall d :: d in rows ==> rows[d].endpoint in t.targets
    requires forall d :: d in rows && rows[d].endpoint in t.seen ==> d in s'.origins && s'.origins[d] == t.seen[rows[d].endpoint]
    ensures forall d :: d in rows ==> ReadOk(s', shown, d, rows[d].endpoint, t.row)
  {
  }

  lemma RememberedTasks(s: State, s': State, shown: Shown, tid: Id)
    requires HistoryOk(s, shown) && Remembers(s, s')
    ensures forall other :: other in s.tasks && other != tid ==> TaskHistoryOk(s', shown, s.tasks[other])
  {
    forall other | other in s.tasks && other != tid
      ensures TaskHistoryOk(s', shown, s.tasks[other])
    {
      TaskRemembered(s, s', shown, s.tasks[other]);
    }
  }

  /** Rows join the table: those a fan-out inserts at once, or those it commits. */
  lemma AddedDeliveriesHistory(s: State, s': State, shown: Shown, rows: map<Id, Delivery>)
    requires HistoryOk(s, shown) && Remembers(s, s') && s'.deliveries == s.deliveries + rows
    requires forall d :: d in rows ==> rows[d].event in s'.emitted
    requires forall d :: d in rows ==> ReadOk(s', shown, d, rows[d].endpoint, s'.emitted[rows[d].event].row)
    ensures forall d :: d in s'.deliveries ==> DeliveryHistoryOk(s', shown, d)
  {
    forall d | d in s'.deliveries
      ensures DeliveryHistoryOk(s', shown, d)
    {
      if d !in rows {
        DeliveryRemembered(s, s', shown, d);
      }
    }
  }

  lemma FilledHistory(s: State, tid: Id, t: FanTask, rows: map<Id, Delivery>, s': State, shown: Shown)
    requires FanOk(s, t) && FanHistoryOk(s, shown, t) && t.pc == Read && s.origins.Keys <= s.used
    requires InsertsRows(s, tid, t, rows, s')
    ensures Remembers(s, s') && s'.origins.Keys <= s'.used && s'.emitted == s.emitted
    ensures forall d :: d in rows ==> rows[d].event == t.event && ReadOk(s', shown, d, rows[d].endpoint, t.row)
  {
    OriginsAdded(s, tid, t, rows, s');
    FilledReadOk(s', t, rows, shown);
  }

  lemma InsertDirectHistory(s: State, tid: Id, t: FanTask, rows: map<Id, Delivery>, s': State, shown: Shown)
    requires FanOk(s, t) && HistoryOk(s, shown) && tid in s.tasks && s.tasks[tid] == Fan(t) && t.pc == Read && t.kind == Direct
    requires InsertsRows(s, tid, t, rows, s')
    ensures HistoryOk(s', shown)
  {
    assert TaskHistoryOk(s, shown, Fan(t));
    FilledHistory(s, tid, t, rows, s', shown);
    RememberedTasks(s, s', shown, tid);
    AddedDeliveriesHistory(s, s', shown, rows);
  }

  lemma InsertBufferedHistory(s: State, tid: Id, t: FanTask, rows: map<Id, Delivery>, s': State, shown: Shown)
    requires FanOk(s, t) && HistoryOk(s, shown) && tid in s.tasks && s.tasks[tid] == Fan(t) && t.pc == Read && t.kind != Direct
    requires InsertsRows(s, tid, t, rows, s')
    ensures HistoryOk(s', shown)
  {
    assert TaskHistoryOk(s, shown, Fan(t));
    FilledHistory(s, tid, t, rows, s', shown);
    OneTaskHistory(s, s', shown, tid);
  }

  lemma InsertDeliveriesHistory(s: State, tid: Id, t: FanTask, s': State, shown: Shown)
    requires FanOk(s, t) && HistoryOk(s, shown) && tid in s.tasks && s.tasks[tid] == Fan(t) && InsertDeliveries(s, tid, t, s')
    ensures HistoryOk(s', shown)
  {
    var rows :| InsertsRows(s, tid, t, rows, s');
    if t.kind == Direct {
      InsertDirectHistory(s, tid, t, rows, s', shown);
    } else {
      InsertBufferedHistory(s, tid, t, rows, s', shown);
    }
  }

  lemma CommitFanEffect(s: State, tid: Id, t: FanTask, s': State)
    requires FanOk(s, t) && CommitFan(s, tid, t, s')
    ensures s'.deliveries == s.deliveries + t.rows && s'.origins == s.origins && s'.used == s.used && s'.tasks == s.tasks - {tid}
    ensures Remembers(s, s') && (t.rows != map[] ==> t.event in s'.emitted && s'.emitted[t.event].row == t.row)
    ensures forall v :: v in s'.emitted ==>
              || (v in s.emitted && s'.emitted[v] == s.emitted[v])
              || (t.pc == Filled && s'.emitted[v] == Emission(t.row, true, Some(t.targets), t.seen))
  {
  }

  lemma CommitFanHistory(s: State, tid: Id, t: FanTask, s': State, shown: Shown)
    requires FanOk(s, t) && HistoryOk(s, shown) && tid in s.tasks && s.tasks[tid] == Fan(t) && CommitFan(s, tid, t, s')
    ensures HistoryOk(s', shown)
  {
    assert TaskHistoryOk(s, shown, Fan(t));
    CommitFanEffect(s, tid, t, s');
    CommittedRowsRead(s, t, s', shown);
    RememberedTasks(s, s', shown, tid);
    AddedDeliveriesHistory(s, s', shown, t.rows);
  }

  lemma CommittedRowsRead(s: State, t: FanTask, s': State, shown: Shown)
    requires FanOk(s, t) && FanHistoryOk(s, shown, t) && s'.origins == s.origins
    requires t.rows != map[] ==> t.event in s'.emitted && s'.emitted[t.event].row == t.row
    ensures forall d :: d in t.rows ==> t.rows[d].event in s'.emitted
    ensures forall d :: d in t.rows ==> ReadOk(s', shown, d, t.rows[d].endpoint, s'.emitted[t.rows[d].event].row)
  {
    forall d | d in t.rows
      ensures t.rows[d].event == t.event && ReadOk(s', shown, d, t.rows[d].endpoint, t.row)
    {
      assert HeldRowOk(s, t, d) && ReadOk(s, shown, d, t.rows[d].endpoint, t.row);
    }
  }

  lemma FanStepHistory(s: State, tid: Id, s': State, shown: Shown)
    requires Inv(s) && HistoryOk(s, shown) && TableShown(s.endpoints, shown) && FanStep(s, tid, s')
    ensures HistoryOk(s', shown)
  {
    var t := s.tasks[tid].f;
    assert TaskOk(s, s.tasks[tid]);
    if InsertEvent(s, tid, t, s') {
      InsertEventHistory(s, tid, t, s', shown);
    } else if ReadEndpoints(s, tid, t, s') {
      ReadEndpointsHistory(s, tid, t, s', shown);
    } else if InsertDeliveries(s, tid, t, s') {
      InsertDeliveriesHistory(s, tid, t, s', shown);
    } else {
      CommitFanHistory(s, tid, t, s', shown);
    }
  }

  lemma InsertReplayHistory(s: State, tid: Id, r: ReplayTask, d: Id, now: Time, s': State, shown: Shown)
    requires Inv(s) && HistoryOk(s, shown) && tid in s.tasks && s.tasks[tid] == Replay(r) && r.found.Some?
    requires InsertsReplay(s, tid, r, d, now, s')
    ensures HistoryOk(s', shown)
  {
    assert TaskHistoryOk(s, shown, Replay(r)) && TaskOk(s, Replay(r));
    assert DeliveryHistoryOk(s', shown, d);
    forall c | c in s'.deliveries && c != d
      ensures DeliveryHistoryOk(s', shown, c)
    {
      DeliveryRemembered(s, s', shown, c);
    }
    forall other | other in s'.tasks
      ensures TaskHistoryOk(s', shown, s'.tasks[other])
    {
      TaskRemembered(s, s', shown, s.tasks[other]);
    }
  }

  lemma ReplayStepHistory(s: State, tid: Id, s': State, shown: Shown)
    requires Inv(s) && HistoryOk(s, shown) && ReplayStep(s, tid, s')
    ensures HistoryOk(s', shown)
  {
    var r := s.tasks[tid].r;
    if ReadReplayed(s, tid, r, s') {
      assert TaskHistoryOk(s, shown, Replay(r));
      OneTaskHistory(s, s', shown, tid);
    } else {
      var d, now :| InsertsReplay(s, tid, r, d, now, s');
      InsertReplayHistory(s, tid, r, d, now, s', shown);
    }
  }

  /** Deliveries may go or be written, but keep their event and endpoint; nothing else on record changes. */
  lemma FewerDeliveriesHistory(s: State, s': State, shown: Shown)
    requires HistoryOk(s, shown) && s'.origins == s.origins && s'.emitted == s.emitted && s.used == s'.used
    requires forall tid :: tid in s'.tasks ==> tid in s.tasks && s'.tasks[tid] == s.tasks[tid]
    requires forall d :: d in s'.deliveries ==>
               d in s.deliveries && s'.deliveries[d].event == s.deliveries[d].event && s'.deliveries[d].endpoint == s.deliveries[d].endpoint
    ensures HistoryOk(s', shown)
  {
    forall d | d in s'.deliveries
      ensures DeliveryHistoryOk(s', shown, d)
    {
      DeliveryRemembered(s, s', shown, d);
    }
    forall tid | tid in s'.tasks
      ensures TaskHistoryOk(s', shown, s'.tasks[tid])
    {
      TaskRemembered(s, s', shown, s.tasks[tid]);
    }
  }

  lemma EndpointStepHistory(s: State, e: Id, s': State, shown: Shown)
    requires HistoryOk(s, shown) && EndpointStep(s, e, s')
    ensures HistoryOk(s', shown)
  {
    EndpointStepEffect(s, e, s');
    FewerDeliveriesHistory(s, s', shown);
  }

  lemma AttemptStepHistory(s: State, tid: Id, s': State, shown: Shown)
    requires HistoryOk(s, shown) && AttemptStep(s, tid, s')
    ensures HistoryOk(s', shown)
  {
    AttemptStepEffect(s, tid, s');
    FewerDeliveriesHistory(s, s', shown);
  }

  lemma StepHistory(s: State, id: Id, s': State, shown: Shown)
    requires Inv(s) && HistoryOk(s, shown) && TableShown(s.endpoints, shown) && StepOf(s, id, s')
    ensures HistoryOk(s', shown)
  {
    if Begin(s, id, s') {
      BeginHistory(s, id, s', shown);
    } else if Abort(s, id, s') {
      FewerDeliveriesHistory(s, s', shown);
    } else if FanStep(s, id, s') {
      FanStepHistory(s, id, s', shown);
    } else if ReplayStep(s, id, s') {
      ReplayStepHistory(s, id, s', shown);
    } else if AttemptStep(s, id, s') {
      AttemptStepHistory(s, id, s', shown);
    } else {
      EndpointStepHistory(s, id, s', shown);
    }
  }

  lemma NextHistory(s: State, s': State, shown: Shown)
    requires Inv(s) && HistoryOk(s, shown) && TableShown(s.endpoints, shown) && Next(s, s')
    ensures HistoryOk(s', shown)
  {
    if Tick(s, s') {
      FewerDeliveriesHistory(s, s', shown);
    } else {
      var id :| StepOf(s, id, s');
      StepHistory(s, id, s', shown);
    }
  }

  // ---------------------------------------------------------------------------------------------
  // Runs
  // ---------------------------------------------------------------------------------------------

  /** The endpoint was in the table, as this row, at some state up to the `i`th. */
  ghost predicate WasShown(path: seq<State>, i: int, e: Id, endpoint: Endpoint) {
    exists k :: 0 <= k <= i && k < |path| && e in path[k].endpoints && path[k].endpoints[e] == endpoint
  }

  ghost function ShownUpTo(path: seq<State>, i: int): Shown {
    iset e: Id, endpoint: Endpoint | WasShown(path, i, e, endpoint) :: (e, endpoint)
  }

  lemma ShownIff(path: seq<State>, i: int, e: Id, endpoint: Endpoint)
    ensures (e, endpoint) in ShownUpTo(path, i) <==> WasShown(path, i, e, endpoint)
  {
  }

  lemma ShownGrows(path: seq<State>, i: int, j: int)
    requires 0 <= i <= j < |path|
    ensures ShownUpTo(path, i) <= ShownUpTo(path, j) && TableShown(path[j].endpoints, ShownUpTo(path, j))
  {
    forall e, endpoint | (e, endpoint) in ShownUpTo(path, i)
      ensures (e, endpoint) in ShownUpTo(path, j)
    {
      ShownIff(path, i, e, endpoint);
      ShownIff(path, j, e, endpoint);
      var k :| 0 <= k <= i && k < |path| && e in path[k].endpoints && path[k].endpoints[e] == endpoint;
      assert WasShown(path, j, e, endpoint);
    }
    forall e | e in path[j].endpoints
      ensures (e, path[j].endpoints[e]) in ShownUpTo(path, j)
    {
      assert WasShown(path, j, e, path[j].endpoints[e]);
      ShownIff(path, j, e, path[j].endpoints[e]);
    }
  }

  lemma MoreShown(s: State, shown: Shown, more: Shown)
    requires HistoryOk(s, shown) && shown <= more
    ensures HistoryOk(s, more)
  {
    forall d | d in s.deliveries
      ensures DeliveryHistoryOk(s, more, d)
    {
      assert DeliveryHistoryOk(s, shown, d);
    }
    forall tid | tid in s.tasks
      ensures TaskHistoryOk(s, more, s.tasks[tid])
    {
      assert TaskHistoryOk(s, shown, s.tasks[tid]);
    }
  }

  lemma InitHistory(s: State, shown: Shown)
    requires Init(s)
    ensures HistoryOk(s, shown)
  {
  }

  lemma OneMoreState(path: seq<State>, i: nat)
    requires i + 1 < |path| && Inv(path[i]) && Next(path[i], path[i + 1])
    requires HistoryOk(path[i], ShownUpTo(path, i))
    ensures HistoryOk(path[i + 1], ShownUpTo(path, i + 1))
  {
    ShownGrows(path, i, i);
    ShownGrows(path, i, i + 1);
    NextHistory(path[i], path[i + 1], ShownUpTo(path, i));
    MoreShown(path[i + 1], ShownUpTo(path, i), ShownUpTo(path, i + 1));
  }

  lemma {:induction false} PathHistory(path: seq<State>, i: nat)
    requires IsPath(path) && Init(path[0]) && i < |path|
    ensures HistoryOk(path[i], ShownUpTo(path, i))
  {
    if i == 0 {
      InitHistory(path[0], ShownUpTo(path, 0));
    } else {
      PathHistory(path, i - 1);
      PathKeepsInv(path, i - 1);
      OneMoreState(path, i - 1);
    }
  }

  /**
   * To nobody else: every delivery of every run, replays included, is to an endpoint that at some
   * earlier moment was in the table switched on, subscribed to the type of the event, and of the
   * event's project and environment; that is the row its fan-out or its replay had read.
   */
  lemma DeliveredToASubscriber(path: seq<State>, i: nat, d: Id) returns (k: nat)
    requires IsPath(path) && Init(path[0]) && i < |path| && d in path[i].deliveries
    ensures var row := path[i].deliveries[d];
            && k <= i && row.event in path[i].events && row.endpoint in path[k].endpoints
            && var (endpoint, event) := (path[k].endpoints[row.endpoint], path[i].events[row.event]);
               && d in path[i].origins && endpoint == path[i].origins[d]
               && endpoint.enabled && event.kind in endpoint.types
               && endpoint.scope.project == event.scope.project && endpoint.scope.environment == event.scope.environment
  {
    PathHistory(path, i);
    PathKeepsInv(path, i);
    var (s, row) := (path[i], path[i].deliveries[d]);
    assert DeliveryHistoryOk(s, ShownUpTo(path, i), d) && DeliveryOk(s, row);
    ShownIff(path, i, row.endpoint, s.origins[d]);
    k :| 0 <= k <= i && k < |path| && row.endpoint in path[k].endpoints && path[k].endpoints[row.endpoint] == s.origins[d];
  }

  /**
   * And to everybody: when `persist` runs in a transaction, every endpoint that its fan-out read as
   * switched on, subscribed and of the event's project and environment, and that is still there, has
   * its delivery.
   */
  lemma NoSubscriberLeftOut(s: State, v: Id, e: Id)
    requires Reachable(s) && v in s.events && v in s.emitted && s.emitted[v].atomic
    requires e in s.emitted[v].seen && e in s.endpoints
    requires var (endpoint, event) := (s.emitted[v].seen[e], s.events[v]);
             && endpoint.enabled && event.kind in endpoint.types
             && endpoint.scope.project == event.scope.project && endpoint.scope.environment == event.scope.environment
    ensures exists d :: d in s.deliveries && s.deliveries[d].event == v && s.deliveries[d].endpoint == e && !s.deliveries[d].isReplay
  {
    ReachableInv(s);
    var start :| Init(start) && Runs(start, s);
    var path :| IsPath(path) && path[0] == start && path[|path| - 1] == s;
    PathHistory(path, |path| - 1);
    assert FannedOut(s, v) && HasPair(s.deliveries, v, e);
    var d :| d in s.deliveries && IsPair(s.deliveries[d], v, e);
    assert d in s.deliveries && s.deliveries[d].event == v;
  }
}
