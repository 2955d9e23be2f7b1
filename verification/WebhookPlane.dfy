/**
 * The webhook tables as a transition system: events persisted by business transactions, the
 * repair pass, replays, endpoint changes, retention and delivery attempts, interleaved in any order.
 *
 * As in the ledger, a transaction's rows stay in its own task until it commits, and a statement
 * that would wait for another transaction is not enabled. Jobs are not part of the state: any
 * delivery may be attempted at any time and any number of times at once, which is what lost,
 * duplicated and re-queued jobs amount to.
 */
module WebhookPlane {
  import opened Common
  import opened WebhookDelivery
  import opened WebhookRetry

  // ---------------------------------------------------------------------------------------------
  // State
  // ---------------------------------------------------------------------------------------------

  /** Project and environment, the isolation boundary. */
  datatype Scope = Scope(project: Id, environment: string)

  datatype Endpoint = Endpoint(scope: Scope, types: set<string>, enabled: bool)

  datatype EventRow = EventRow(scope: Scope, kind: string, createdAt: Time)

  /**
   * `Business`: `persist` inside the emitting transaction. `Direct`: `persist` on a client with no
   * transaction, as a payment create without a key calls it. `Repair`: one event of a reconciliation pass.
   */
  datatype FanKind = Business | Direct | Repair

  datatype FanPc = Begun | Duplicate | EventIn | Read | Filled

  /**
   * `targets` are the endpoints it found, `seen` the whole table as it read it, `rows` the
   * deliveries it has inserted and not committed.
   */
  datatype FanTask = FanTask(
    kind: FanKind, event: Id, row: EventRow, pc: FanPc, targets: set<Id>, seen: map<Id, Endpoint>, rows: map<Id, Delivery>)

  /** A replay request that has read its endpoint, and then its event. */
  datatype ReplayTask = ReplayTask(endpoint: Id, snapshot: Endpoint, event: Id, found: Option<EventRow>)

  /** An attempt that has read its delivery as pending with this count. */
  datatype AttemptTask = AttemptTask(delivery: Id, attempts: nat)

  datatype Task = Fan(f: FanTask) | Replay(r: ReplayTask) | Attempt(a: AttemptTask)

  /**
   * An event ever committed. `targets` are the endpoints its emitter's fan-out found, `seen` the
   * table as that fan-out read it. History only.
   */
  datatype Emission = Emission(row: EventRow, atomic: bool, targets: Option<set<Id>>, seen: map<Id, Endpoint>)

  /**
   * `scopes`, `emitted` and `used` are history: the ids ever taken by endpoints, events and
   * deliveries; so is `origins`, the endpoint of each delivery as whoever inserted it had read it.
   */
  datatype State = State(
    policy: Policy, clock: Time, endpoints: map<Id, Endpoint>, events: map<Id, EventRow>,
    deliveries: map<Id, Delivery>, tasks: map<Id, Task>,
    scopes: map<Id, Scope>, emitted: map<Id, Emission>, used: set<Id>, origins: map<Id, Endpoint>)

  ghost predicate Init(s: State) {
    && ValidPolicy(s.policy)
    && s.endpoints == map[] && s.events == map[] && s.deliveries == map[] && s.tasks == map[]
    && s.scopes == map[] && s.emitted == map[] && s.used == {} && s.origins == map[]
  }

  /** Enabled, subscribed, and of the event's project and environment. */
  predicate Matches(endpoint: Endpoint, row: EventRow) {
    endpoint.scope == row.scope && endpoint.enabled && row.kind in endpoint.types
  }

  function Matching(endpoints: map<Id, Endpoint>, row: EventRow): set<Id> {
    set e | e in endpoints && Matches(endpoints[e], row)
  }

  /** The pair that the partial unique index covers. */
  predicate IsPair(delivery: Delivery, event: Id, endpoint: Id) {
    delivery.event == event && delivery.endpoint == endpoint && !delivery.isReplay
  }

  ghost predicate HasPair(deliveries: map<Id, Delivery>, event: Id, endpoint: Id) {
    exists d :: d in deliveries && IsPair(deliveries[d], event, endpoint)
  }

  /** The event row a business transaction has inserted and not committed. */
  function HeldEvent(t: Task): Option<Id> {
    if t.Fan? && t.f.kind == Business && (t.f.pc == EventIn || t.f.pc == Read || t.f.pc == Filled)
    then Some(t.f.event) else None
  }

  function HeldRows(t: Task): map<Id, Delivery> {
    if t.Fan? then t.f.rows else map[]
  }

  // ---------------------------------------------------------------------------------------------
  // Fan-out (webhook-event.service.ts)
  // ---------------------------------------------------------------------------------------------

  /** A repair works from the event row the pass listed, which retention may have deleted since. */
  ghost predicate BeginsFan(s: State, t: FanTask) {
    && t.targets == {} && t.seen == map[] && t.rows == map[]
    && match t.kind
       case Business => t.pc == Begun
       case Direct => t.pc == Begun
       case Repair => t.pc == EventIn && t.event in s.emitted && s.emitted[t.event].row == t.row
  }

  /** Waits while another transaction holds the same event id uncommitted. */
  ghost predicate EventFree(s: State, tid: Id, event: Id) {
    forall other :: other in s.tasks && other != tid ==> HeldEvent(s.tasks[other]) != Some(event)
  }

  /** INSERT of the event ON CONFLICT DO NOTHING. The emitter never takes the id of an event that is gone. */
  ghost predicate InsertEvent(s: State, tid: Id, t: FanTask, s': State) {
    && t.pc == Begun && EventFree(s, tid, t.event)
    && if t.event in s.events then s' == s.(tasks := s.tasks[tid := Fan(t.(pc := Duplicate))])
       else
         && t.event !in s.emitted
         && if t.kind == Direct then
              s' == s.(events := s.events[t.event := t.row], emitted := s.emitted[t.event := Emission(t.row, false, None, map[])],
                       tasks := s.tasks[tid := Fan(t.(pc := EventIn))])
            else s' == s.(tasks := s.tasks[tid := Fan(t.(pc := EventIn))])
  }

  ghost predicate ReadEndpoints(s: State, tid: Id, t: FanTask, s': State) {
    && t.pc == EventIn
    && var read := t.(pc := Read, targets := Matching(s.endpoints, t.row), seen := s.endpoints);
       if t.kind == Direct then
         && t.event in s.emitted
         && s' == s.(tasks := s.tasks[tid := Fan(read)],
                     emitted := s.emitted[t.event := s.emitted[t.event].(targets := Some(read.targets), seen := read.seen)])
       else s' == s.(tasks := s.tasks[tid := Fan(read)])
  }

  /** No other transaction has inserted a delivery of this event to one of the targets. */
  ghost predicate PairsFree(s: State, tid: Id, event: Id, targets: set<Id>) {
    forall other, d :: other in s.tasks && other != tid && d in HeldRows(s.tasks[other]) ==>
      var held := HeldRows(s.tasks[other])[d];
      !(held.event == event && held.endpoint in targets)
  }

  /** The rows ON CONFLICT DO NOTHING adds: one for every target that has no delivery yet. */
  ghost predicate Fills(s: State, event: Id, targets: set<Id>, rows: map<Id, Delivery>) {
    && (forall d :: d in rows ==>
          && d !in s.used && rows[d].endpoint in targets && !HasPair(s.deliveries, event, rows[d].endpoint)
          && rows[d].createdAt <= s.clock && rows[d] == NewDelivery(event, rows[d].endpoint, false, rows[d].createdAt))
    && (forall e :: e in targets && !HasPair(s.deliveries, event, e) ==> HasPair(rows, event, e))
    && (forall d, c :: d in rows && c in rows && rows[d].endpoint == rows[c].endpoint ==> d == c)
  }

  /** Foreign keys: a row refers to endpoints and to an event that are there, the event possibly its own. */
  ghost predicate Refers(s: State, t: FanTask, rows: map<Id, Delivery>) {
    && (forall d :: d in rows ==> rows[d].endpoint in s.endpoints)
    && (rows != map[] && t.kind != Business ==> t.event in s.events)
  }

  /** The endpoints of new deliveries, as their fan-out read them. */
  function OriginsOf(t: FanTask, rows: map<Id, Delivery>): map<Id, Endpoint> {
    map d | d in rows && rows[d].endpoint in t.seen :: t.seen[rows[d].endpoint]
  }

  ghost predicate InsertsRows(s: State, tid: Id, t: FanTask, rows: map<Id, Delivery>, s': State) {
    && Fills(s, t.event, t.targets, rows) && Refers(s, t, rows)
    && if t.kind == Direct then
         s' == s.(deliveries := s.deliveries + rows, used := s.used + rows.Keys, origins := s.origins + OriginsOf(t, rows),
                  tasks := s.tasks - {tid})
       else
         s' == s.(used := s.used + rows.Keys, origins := s.origins + OriginsOf(t, rows),
                  tasks := s.tasks[tid := Fan(t.(pc := Filled, rows := rows))])
  }

  ghost predicate InsertDeliveries(s: State, tid: Id, t: FanTask, s': State) {
    && t.pc == Read && PairsFree(s, tid, t.event, t.targets)
    && exists rows :: InsertsRows(s, tid, t, rows, s')
  }

  ghost predicate CommitFan(s: State, tid: Id, t: FanTask, s': State) {
    && t.kind != Direct && (t.pc == Filled || t.pc == Duplicate)
    && if t.kind == Business && t.pc == Filled then
         s' == s.(events := s.events[t.event := t.row], deliveries := s.deliveries + t.rows,
                  emitted := s.emitted[t.event := Emission(t.row, true, Some(t.targets), t.seen)], tasks := s.tasks - {tid})
       else s' == s.(deliveries := s.deliveries + t.rows, tasks := s.tasks - {tid})
  }

  // ---------------------------------------------------------------------------------------------
  // Replay (webhooks.service.ts)
  // ---------------------------------------------------------------------------------------------

  /** The endpoint read, in the caller's project. */
  ghost predicate BeginsReplay(s: State, r: ReplayTask) {
    && r.endpoint in s.endpoints && r.snapshot == s.endpoints[r.endpoint] && r.found == None
  }

  /** The event of the endpoint's project and environment; then the two preconditions. */
  ghost predicate ReadReplayed(s: State, tid: Id, r: ReplayTask, s': State) {
    && r.found == None
    && r.event in s.events && s.events[r.event].scope == r.snapshot.scope
    && r.snapshot.enabled && s.events[r.event].kind in r.snapshot.types
    && s' == s.(tasks := s.tasks[tid := Replay(r.(found := Some(s.events[r.event])))])
  }

  ghost predicate InsertsReplay(s: State, tid: Id, r: ReplayTask, d: Id, now: Time, s': State) {
    && d !in s.used && now <= s.clock
    && s' == s.(deliveries := s.deliveries[d := NewDelivery(r.event, r.endpoint, true, now)],
                used := s.used + {d}, origins := s.origins[d := r.snapshot], tasks := s.tasks - {tid})
  }

  ghost predicate InsertReplay(s: State, tid: Id, r: ReplayTask, s': State) {
    && r.found.Some? && r.endpoint in s.endpoints && r.event in s.events
    && exists d, now :: InsertsReplay(s, tid, r, d, now, s')
  }

  // ---------------------------------------------------------------------------------------------
  // Attempts (webhook-delivery.service.ts)
  // ---------------------------------------------------------------------------------------------

  ghost predicate BeginsAttempt(s: State, a: AttemptTask) {
    && a.delivery in s.deliveries && s.deliveries[a.delivery].status == Pending
    && a.attempts == s.deliveries[a.delivery].attempts
  }

  /** UPDATE … WHERE id = ? AND status = 'pending', whatever happened since the read. */
  ghost predicate FinishAttempt(s: State, tid: Id, a: AttemptTask, trial: Trial, s': State) {
    && trial.now <= s.clock && 0.0 <= trial.random < 1.0
    && if a.delivery in s.deliveries && s.deliveries[a.delivery].status == Pending then
         s' == s.(deliveries := s.deliveries[a.delivery := Recorded(a.attempts, s.deliveries[a.delivery], trial, s.policy)],
                  tasks := s.tasks - {tid})
       else s' == s.(tasks := s.tasks - {tid})
  }

  // ---------------------------------------------------------------------------------------------
  // Endpoints and retention
  // ---------------------------------------------------------------------------------------------

  ghost predicate CreateEndpoint(s: State, e: Id, endpoint: Endpoint, s': State) {
    && e !in s.scopes
    && s' == s.(endpoints := s.endpoints[e := endpoint], scopes := s.scopes[e := endpoint.scope])
  }

  /** Only the subscription and the switch change here; the URL is not modelled. */
  ghost predicate UpdateEndpoint(s: State, e: Id, types: set<string>, enabled: bool, s': State) {
    && e in s.endpoints
    && s' == s.(endpoints := s.endpoints[e := s.endpoints[e].(types := types, enabled := enabled)])
  }

  function Without(deliveries: map<Id, Delivery>, gone: Delivery -> bool): map<Id, Delivery> {
    map d | d in deliveries && !gone(deliveries[d]) :: deliveries[d]
  }

  /** Waits while a transaction holds a row that refers to the endpoint; then cascades. */
  ghost predicate DeleteEndpoint(s: State, e: Id, s': State) {
    && e in s.endpoints
    && (forall tid, d :: tid in s.tasks && d in HeldRows(s.tasks[tid]) ==> HeldRows(s.tasks[tid])[d].endpoint != e)
    && s' == s.(endpoints := s.endpoints - {e}, deliveries := Without(s.deliveries, (row: Delivery) => row.endpoint == e))
  }

  /** Retention, likewise. */
  ghost predicate DeleteEvent(s: State, v: Id, s': State) {
    && v in s.events
    && (forall tid, d :: tid in s.tasks && d in HeldRows(s.tasks[tid]) ==> HeldRows(s.tasks[tid])[d].event != v)
    && s' == s.(events := s.events - {v}, deliveries := Without(s.deliveries, (row: Delivery) => row.event == v))
  }

  // ---------------------------------------------------------------------------------------------
  // Steps
  // ---------------------------------------------------------------------------------------------

  ghost predicate Tick(s: State, s': State) {
    s.clock <= s'.clock && s' == s.(clock := s'.clock)
  }

  ghost predicate Begins(s: State, t: Task) {
    (t.Fan? && BeginsFan(s, t.f)) || (t.Replay? && BeginsReplay(s, t.r)) || (t.Attempt? && BeginsAttempt(s, t.a))
  }

  ghost predicate Begin(s: State, tid: Id, s': State) {
    tid !in s.tasks && tid in s'.tasks && Begins(s, s'.tasks[tid]) && s' == s.(tasks := s.tasks[tid := s'.tasks[tid]])
  }

  /** A rejected request, a rollback, a time-out or a crash. */
  ghost predicate Abort(s: State, tid: Id, s': State) {
    tid in s.tasks && s' == s.(tasks := s.tasks - {tid})
  }

  ghost predicate FanStep(s: State, tid: Id, s': State) {
    && tid in s.tasks && s.tasks[tid].Fan?
    && var t := s.tasks[tid].f;
       InsertEvent(s, tid, t, s') || ReadEndpoints(s, tid, t, s') || InsertDeliveries(s, tid, t, s') || CommitFan(s, tid, t, s')
  }

  ghost predicate ReplayStep(s: State, tid: Id, s': State) {
    tid in s.tasks && s.tasks[tid].Replay? && (ReadReplayed(s, tid, s.tasks[tid].r, s') || InsertReplay(s, tid, s.tasks[tid].r, s'))
  }

  ghost predicate AttemptStep(s: State, tid: Id, s': State) {
    tid in s.tasks && s.tasks[tid].Attempt? && exists trial :: FinishAttempt(s, tid, s.tasks[tid].a, trial, s')
  }

  ghost predicate EndpointStep(s: State, e: Id, s': State) {
    || (exists endpoint :: CreateEndpoint(s, e, endpoint, s'))
    || (exists types, enabled :: UpdateEndpoint(s, e, types, enabled, s'))
    || DeleteEndpoint(s, e, s')
    || DeleteEvent(s, e, s')
  }

  ghost predicate StepOf(s: State, id: Id, s': State) {
    || Begin(s, id, s') || Abort(s, id, s') || FanStep(s, id, s') || ReplayStep(s, id, s')
    || AttemptStep(s, id, s') || EndpointStep(s, id, s')
  }

  ghost predicate Next(s: State, s': State) {
    Tick(s, s') || exists id: Id :: StepOf(s, id, s')
  }

  ghost predicate IsPath(path: seq<State>) {
    |path| > 0 && forall i, j :: 0 <= i && j == i + 1 && j < |path| ==> Next(path[i], path[j])
  }

  /** `b` follows from `a` in some number of steps. */
  ghost predicate Runs(a: State, b: State) {
    exists path :: IsPath(path) && path[0] == a && path[|path| - 1] == b
  }

  ghost predicate Reachable(s: State) {
    exists start :: Init(start) && Runs(start, s)
  }
}
