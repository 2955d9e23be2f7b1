/** What every reachable state of the webhook tables satisfies. */
module WebhookInvariant {
  import opened Common
  import opened WebhookDelivery
  import opened WebhookRetry
  import opened WebhookPlane

  // ---------------------------------------------------------------------------------------------
  // The invariant
  // ---------------------------------------------------------------------------------------------

  /** Rows agree with history: scopes never change and ids are never taken again. */
  ghost predicate RegistryOk(s: State) {
    && (forall e :: e in s.endpoints ==> e in s.scopes && s.endpoints[e].scope == s.scopes[e])
    && (forall v :: v in s.events ==> v in s.emitted && s.emitted[v].row == s.events[v])
    && (forall v :: v in s.emitted && s.emitted[v].targets.Some? ==> s.emitted[v].targets.value <= s.scopes.Keys)
  }

  ghost predicate DeliveryOk(s: State, row: Delivery) {
    && row.event in s.events && row.endpoint in s.endpoints
    && s.events[row.event].scope == s.endpoints[row.endpoint].scope
    && ScheduleOk(row, s.policy)
    && (row.nextAttemptAt.Some? ==> row.nextAttemptAt.value <= s.clock + s.policy.maxBackoffMs)
  }

  ghost predicate DeliveriesOk(s: State) {
    forall d :: d in s.deliveries ==> d in s.used && DeliveryOk(s, s.deliveries[d])
  }

  /** At most one delivery that is not a replay for an event and an endpoint. */
  ghost predicate Unique(deliveries: map<Id, Delivery>) {
    forall d, c | d in deliveries && c in deliveries && !deliveries[d].isReplay
                  && IsPair(deliveries[c], deliveries[d].event, deliveries[d].endpoint) :: d == c
  }

  /** The emitter's fan-out is there, for every endpoint of it that still is. */
  ghost predicate FannedOut(s: State, v: Id)
    requires v in s.emitted
  {
    && s.emitted[v].targets.Some?
    && forall e :: e in s.emitted[v].targets.value && e in s.endpoints ==> HasPair(s.deliveries, v, e)
  }

  ghost predicate FanOutsOk(s: State) {
    forall v :: v in s.events && v in s.emitted && s.emitted[v].atomic ==> FannedOut(s, v)
  }

  predicate HasEvent(pc: FanPc) {
    pc == EventIn || pc == Read || pc == Filled
  }

  /** A buffered delivery: new, to a target that is locked in place, and for a pair nobody else has. */
  ghost predicate HeldRowOk(s: State, t: FanTask, d: Id)
    requires d in t.rows
  {
    var row := t.rows[d];
    && row == NewDelivery(t.event, row.endpoint, false, row.createdAt) && row.createdAt <= s.clock
    && row.endpoint in t.targets && row.endpoint in s.endpoints
    && d in s.used && d !in s.deliveries && !HasPair(s.deliveries, t.event, row.endpoint)
  }

  ghost predicate FanOk(s: State, t: FanTask) {
    && (HasEvent(t.pc) ==> if t.kind == Business then t.event !in s.emitted
                           else t.event in s.emitted && s.emitted[t.event].row == t.row)
    && (HasEvent(t.pc) && t.kind == Direct ==> !s.emitted[t.event].atomic)
    && (t.pc == Begun || t.pc == Duplicate ==> t.kind != Repair)
    && (t.pc != Filled ==> t.rows == map[])
    && (t.pc == Filled ==> t.kind != Direct)
    && (forall e :: e in t.targets ==> e in s.scopes && s.scopes[e] == t.row.scope)
    && (forall d :: d in t.rows ==> HeldRowOk(s, t, d))
    && (t.rows != map[] && t.kind == Repair ==> t.event in s.events)
    && Unique(t.rows)
    && (t.pc == Filled && t.kind == Business ==> forall e :: e in t.targets ==> HasPair(t.rows, t.event, e))
  }

  ghost predicate ReplayOk(s: State, r: ReplayTask) {
    && r.endpoint in s.scopes && s.scopes[r.endpoint] == r.snapshot.scope
    && (r.found.Some? ==>
          r.event in s.emitted && s.emitted[r.event].row == r.found.value && r.found.value.scope == r.snapshot.scope)
  }

  ghost predicate TaskOk(s: State, t: Task) {
    match t
    case Fan(f) => FanOk(s, f)
    case Replay(r) => ReplayOk(s, r)
    case Attempt(a) => a.attempts < s.policy.maxAttempts
  }

  ghost predicate RowsApart(rows: map<Id, Delivery>, others: map<Id, Delivery>) {
    forall d, c :: d in rows && c in others ==>
      d != c && !(rows[d].event == others[c].event && rows[d].endpoint == others[c].endpoint)
  }

  /** No two transactions hold the same event id, delivery id or pair. */
  ghost predicate Apart(t: Task, u: Task) {
    && (HeldEvent(t).Some? ==> HeldEvent(t) != HeldEvent(u))
    && RowsApart(HeldRows(t), HeldRows(u))
  }

  ghost predicate TablesOk(s: State) {
    && ValidPolicy(s.policy) && RegistryOk(s) && DeliveriesOk(s) && Unique(s.deliveries) && FanOutsOk(s)
  }

  ghost predicate TasksOk(s: State) {
    && (forall tid :: tid in s.tasks ==> TaskOk(s, s.tasks[tid]))
    && (forall tid, other :: tid in s.tasks && other in s.tasks && tid != other ==> Apart(s.tasks[tid], s.tasks[other]))
  }

  ghost predicate Inv(s: State) {
    TablesOk(s) && TasksOk(s)
  }

  // ---------------------------------------------------------------------------------------------
  // What a step leaves as it was
  // ---------------------------------------------------------------------------------------------

  predicate SameEmission(a: Emission, b: Emission) {
    a.row == b.row && a.atomic == b.atomic
  }

  /** Time and history only go forward. */
  ghost predicate Advances(s: State, s': State) {
    && s'.policy == s.policy && s.clock <= s'.clock && s.used <= s'.used
    && (forall e :: e in s.scopes ==> e in s'.scopes && s'.scopes[e] == s.scopes[e])
    && (forall v :: v in s.emitted ==> v in s'.emitted && SameEmission(s.emitted[v], s'.emitted[v]))
  }

  /** Nothing a task relies on was taken by somebody else. */
  ghost predicate Undisturbed(s: State, s': State, t: Task) {
    && (HeldEvent(t).Some? ==> HeldEvent(t).value !in s'.emitted)
    && (forall d :: d in HeldRows(t) ==> RowUndisturbed(s', d, HeldRows(t)[d]))
    && (HeldRows(t) != map[] && t.f.kind == Repair ==> t.f.event in s.events ==> t.f.event in s'.events)
  }

  ghost predicate RowUndisturbed(s': State, d: Id, row: Delivery) {
    row.endpoint in s'.endpoints && d !in s'.deliveries && !HasPair(s'.deliveries, row.event, row.endpoint)
  }

  lemma TaskKept(s: State, s': State, t: Task)
    requires TaskOk(s, t) && Advances(s, s') && Undisturbed(s, s', t)
    ensures TaskOk(s', t)
  {
    if t.Fan? {
      FanKept(s, s', t.f);
    }
  }

  lemma FanKept(s: State, s': State, t: FanTask)
    requires FanOk(s, t) && Advances(s, s') && Undisturbed(s, s', Fan(t))
    ensures FanOk(s', t)
  {
    forall d | d in t.rows
      ensures HeldRowOk(s', t, d)
    {
      assert HeldRowOk(s, t, d) && RowUndisturbed(s', d, HeldRows(Fan(t))[d]);
    }
  }

  /** With the tables as they were, a task that holds nothing in the way of the new history is fine. */
  lemma TaskUndisturbed(s: State, s': State, t: Task)
    requires TaskOk(s, t) && Advances(s, s')
    requires s'.endpoints.Keys >= s.endpoints.Keys && s'.events.Keys >= s.events.Keys && s'.deliveries == s.deliveries
    requires HeldEvent(t).Some? ==> HeldEvent(t).value !in s'.emitted
    ensures TaskOk(s', t)
  {
    forall d | d in HeldRows(t)
      ensures RowUndisturbed(s', d, HeldRows(t)[d])
    {
      assert HeldRowOk(s, t.f, d);
    }
    TaskKept(s, s', t);
  }

  lemma DeliveryKept(s: State, s': State, row: Delivery)
    requires DeliveryOk(s, row) && s'.policy == s.policy && s.clock <= s'.clock
    requires row.event in s'.events && s'.events[row.event].scope == s.events[row.event].scope
    requires row.endpoint in s'.endpoints && s'.endpoints[row.endpoint].scope == s.endpoints[row.endpoint].scope
    ensures DeliveryOk(s', row)
  {
  }

  // ---------------------------------------------------------------------------------------------
  // Steps that leave the deliveries alone
  // ---------------------------------------------------------------------------------------------

  /** Every other task holds what it held, and every delivery is what it was. */
  lemma TablesUntouched(s: State, s': State, tid: Id)
    requires Inv(s) && Advances(s, s') && s'.deliveries == s.deliveries
    requires forall e :: e in s.endpoints ==> e in s'.endpoints && s'.endpoints[e].scope == s.endpoints[e].scope
    requires forall v :: v in s.events ==> v in s'.events && s'.events[v].scope == s.events[v].scope
    requires forall other :: other in s.tasks && other != tid && HeldEvent(s.tasks[other]).Some?
               ==> HeldEvent(s.tasks[other]).value !in s'.emitted
    ensures DeliveriesOk(s')
    ensures forall other :: other in s.tasks && other != tid ==> TaskOk(s', s.tasks[other])
  {
    forall d | d in s'.deliveries
      ensures d in s'.used && DeliveryOk(s', s'.deliveries[d])
    {
      DeliveryKept(s, s', s.deliveries[d]);
    }
    forall other | other in s.tasks && other != tid
      ensures TaskOk(s', s.tasks[other])
    {
      TaskUndisturbed(s, s', s.tasks[other]);
    }
  }

  /** One task changed, the others are as they were: only its own condition is left to show. */
  lemma OneTaskChanged(s: State, s': State, tid: Id, t: Task)
    requires TasksOk(s) && s'.tasks == s.tasks[tid := t]
    requires forall other :: other in s.tasks && other != tid ==> TaskOk(s', s.tasks[other])
    requires TaskOk(s', t)
    requires forall other :: other in s.tasks && other != tid ==> Apart(t, s.tasks[other]) && Apart(s.tasks[other], t)
    ensures TasksOk(s')
  {
  }

  /** A task that holds nothing is apart from every other. */
  lemma NothingHeld(t: Task, u: Task)
    requires HeldEvent(t) == None && HeldRows(t) == map[]
    ensures Apart(t, u) && Apart(u, t)
  {
  }

  lemma BeginKeepsInv(s: State, tid: Id, s': State)
    requires Inv(s) && Begin(s, tid, s')
    ensures Inv(s')
  {
    TablesUntouched(s, s', tid);
    var t := s'.tasks[tid];
    BegunOk(s, s', t);
    forall other | other in s.tasks && other != tid
      ensures Apart(t, s.tasks[other]) && Apart(s.tasks[other], t)
    {
      NothingHeld(t, s.tasks[other]);
    }
    OneTaskChanged(s, s', tid, t);
  }

  lemma BegunOk(s: State, s': State, t: Task)
    requires TablesOk(s) && Begins(s, t) && s' == s.(tasks := s'.tasks)
    ensures TaskOk(s', t) && HeldEvent(t) == None && HeldRows(t) == map[]
  {
    if t.Attempt? {
      assert DeliveryOk(s, s.deliveries[t.a.delivery]);
    }
  }

  lemma AbortKeepsInv(s: State, tid: Id, s': State)
    requires Inv(s) && Abort(s, tid, s')
    ensures Inv(s')
  {
    TablesUntouched(s, s', tid);
  }

  lemma TickKeepsInv(s: State, s': State)
    requires Inv(s) && Tick(s, s')
    ensures Inv(s')
  {
    forall tid | tid in s.tasks
      ensures DeliveriesOk(s') && TaskOk(s', s'.tasks[tid])
    {
      assert TaskOk(s, s.tasks[tid]);
      TaskUndisturbed(s, s', s.tasks[tid]);
      TablesUntouched(s, s', tid);
    }
  }

  /** What a statement of a fan-out that adds no delivery changes: its own task, and perhaps its own event. */
  ghost predicate EarlyEffect(s: State, tid: Id, t': FanTask, s': State) {
    && Advances(s, s') && s'.deliveries == s.deliveries && s'.endpoints == s.endpoints
    && s'.tasks == s.tasks[tid := Fan(t')] && t'.rows == map[]
    && (forall v :: v in s.events ==> v in s'.events && s'.events[v] == s.events[v])
    && RegistryOk(s') && FanOutsOk(s') && FanOk(s', t')
  }

  ghost predicate HoldsApart(s: State, tid: Id, t': FanTask, s': State) {
    forall other :: other in s.tasks && other != tid && HeldEvent(s.tasks[other]).Some? ==>
      HeldEvent(s.tasks[other]).value !in s'.emitted && HeldEvent(s.tasks[other]) != HeldEvent(Fan(t'))
  }

  lemma EarlyKeepsInv(s: State, tid: Id, t': FanTask, s': State)
    requires Inv(s) && tid in s.tasks && EarlyEffect(s, tid, t', s') && HoldsApart(s, tid, t', s')
    ensures Inv(s')
  {
    TablesUntouched(s, s', tid);
    forall other | other in s.tasks && other != tid
      ensures Apart(Fan(t'), s.tasks[other]) && Apart(s.tasks[other], Fan(t'))
    {
      assert HeldRows(Fan(t')) == map[];
    }
    OneTaskChanged(s, s', tid, Fan(t'));
  }

  lemma InsertBusinessEffect(s: State, tid: Id, t: FanTask, s': State)
    requires RegistryOk(s) && FanOutsOk(s) && FanOk(s, t) && InsertEvent(s, tid, t, s') && t.event !in s.events
    requires t.kind == Business
    ensures EarlyEffect(s, tid, t.(pc := EventIn), s')
  {
    forall v | v in s'.events && v in s'.emitted && s'.emitted[v].atomic
      ensures FannedOut(s', v)
    {
      assert FannedOut(s, v);
    }
  }

  lemma InsertDirectEffect(s: State, tid: Id, t: FanTask, s': State)
    requires RegistryOk(s) && FanOutsOk(s) && FanOk(s, t) && InsertEvent(s, tid, t, s') && t.event !in s.events
    requires t.kind == Direct
    ensures EarlyEffect(s, tid, t.(pc := EventIn), s')
  {
    forall v | v in s'.events && v in s'.emitted && s'.emitted[v].atomic
      ensures FannedOut(s', v)
    {
      assert v != t.event && v in s.events && FannedOut(s, v);
    }
  }

  lemma DuplicateEffect(s: State, tid: Id, t: FanTask, s': State)
    requires RegistryOk(s) && FanOutsOk(s) && FanOk(s, t) && InsertEvent(s, tid, t, s') && t.event in s.events
    ensures EarlyEffect(s, tid, t.(pc := Duplicate), s')
  {
    forall v | v in s'.events && v in s'.emitted && s'.emitted[v].atomic
      ensures FannedOut(s', v)
    {
      assert FannedOut(s, v);
    }
  }

  lemma HeldEventNew(s: State, tid: Id)
    requires TasksOk(s) && tid in s.tasks && HeldEvent(s.tasks[tid]).Some?
    ensures HeldEvent(s.tasks[tid]).value !in s.emitted
  {
    assert TaskOk(s, s.tasks[tid]);
  }

  lemma InsertEffect(s: State, tid: Id, t: FanTask, s': State)
    requires RegistryOk(s) && FanOutsOk(s) && FanOk(s, t) && InsertEvent(s, tid, t, s')
    ensures EarlyEffect(s, tid, t.(pc := if t.event in s.events then Duplicate else EventIn), s')
  {
    if t.event in s.events {
      DuplicateEffect(s, tid, t, s');
    } else if t.kind == Direct {
      InsertDirectEffect(s, tid, t, s');
    } else {
      InsertBusinessEffect(s, tid, t, s');
    }
  }

  lemma InsertHoldsApart(s: State, tid: Id, t: FanTask, t': FanTask, s': State)
    requires TasksOk(s) && tid in s.tasks && s.tasks[tid] == Fan(t) && InsertEvent(s, tid, t, s')
    requires t' == t.(pc := t'.pc)
    ensures HoldsApart(s, tid, t', s')
  {
    forall other | other in s.tasks && other != tid && HeldEvent(s.tasks[other]).Some?
      ensures HeldEvent(s.tasks[other]).value !in s'.emitted && HeldEvent(s.tasks[other]) != HeldEvent(Fan(t'))
    {
      HeldEventNew(s, other);
    }
  }

  lemma InsertEventKeepsInv(s: State, tid: Id, t: FanTask, s': State)
    requires Inv(s) && tid in s.tasks && s.tasks[tid] == Fan(t) && InsertEvent(s, tid, t, s')
    ensures Inv(s')
  {
    assert TaskOk(s, Fan(t));
    var t' := t.(pc := if t.event in s.events then Duplicate else EventIn);
    InsertEffect(s, tid, t, s');
    InsertHoldsApart(s, tid, t, t', s');
    EarlyKeepsInv(s, tid, t', s');
  }

  lemma ReadBufferedEffect(s: State, tid: Id, t: FanTask, s': State)
    requires RegistryOk(s) && FanOutsOk(s) && FanOk(s, t) && ReadEndpoints(s, tid, t, s') && t.kind != Direct
    ensures EarlyEffect(s, tid, t.(pc := Read, targets := Matching(s.endpoints, t.row), seen := s.endpoints), s')
  {
    forall v | v in s'.events && v in s'.emitted && s'.emitted[v].atomic
      ensures FannedOut(s', v)
    {
      assert FannedOut(s, v);
    }
  }

  lemma ReadDirectEffect(s: State, tid: Id, t: FanTask, s': State)
    requires RegistryOk(s) && FanOutsOk(s) && FanOk(s, t) && ReadEndpoints(s, tid, t, s') && t.kind == Direct
    ensures EarlyEffect(s, tid, t.(pc := Read, targets := Matching(s.endpoints, t.row), seen := s.endpoints), s')
  {
    forall v | v in s'.events && v in s'.emitted && s'.emitted[v].atomic
      ensures FannedOut(s', v)
    {
      assert v != t.event && FannedOut(s, v);
    }
  }

  lemma ReadEndpointsKeepsInv(s: State, tid: Id, t: FanTask, s': State)
    requires Inv(s) && tid in s.tasks && s.tasks[tid] == Fan(t) && ReadEndpoints(s, tid, t, s')
    ensures Inv(s')
  {
    assert TaskOk(s, Fan(t));
    if t.kind == Direct {
      ReadDirectEffect(s, tid, t, s');
    } else {
      ReadBufferedEffect(s, tid, t, s');
    }
    var t' := t.(pc := Read, targets := Matching(s.endpoints, t.row), seen := s.endpoints);
    forall other | other in s.tasks && other != tid && HeldEvent(s.tasks[other]).Some?
      ensures HeldEvent(s.tasks[other]).value !in s'.emitted && HeldEvent(s.tasks[other]) != HeldEvent(Fan(t'))
    {
      HeldEventNew(s, other);
      assert Apart(s.tasks[other], Fan(t));
    }
    EarlyKeepsInv(s, tid, t', s');
  }

  // ---------------------------------------------------------------------------------------------
  // What the larger steps amount to
  // ---------------------------------------------------------------------------------------------

  lemma InsertsRowsEffect(s: State, tid: Id, t: FanTask, rows: map<Id, Delivery>, s': State)
    requires InsertsRows(s, tid, t, rows, s')
    ensures s'.deliveries == if t.kind == Direct then s.deliveries + rows else s.deliveries
    ensures s'.used == s.used + rows.Keys && s'.events == s.events && s'.emitted == s.emitted
    ensures s'.endpoints == s.endpoints && s'.scopes == s.scopes
    ensures s'.tasks == if t.kind == Direct then s.tasks - {tid} else s.tasks[tid := Fan(t.(pc := Filled, rows := rows))]
    ensures forall d :: d in rows ==> d !in s.used
  {
  }

  lemma InsertEventEffect(s: State, tid: Id, t: FanTask, s': State)
    requires InsertEvent(s, tid, t, s')
    ensures var t' := t.(pc := if t.event in s.events then Duplicate else EventIn);
            if t.event in s.events || t.kind != Direct then s' == s.(tasks := s.tasks[tid := Fan(t')])
            else
              && t.event !in s.emitted
              && s' == s.(events := s.events[t.event := t.row], emitted := s.emitted[t.event := Emission(t.row, false, None, map[])],
                          tasks := s.tasks[tid := Fan(t')])
  {
  }

  /** Deliveries go with their event or their endpoint, and for no other reason. */
  lemma EndpointStepEffect(s: State, e: Id, s': State)
    requires EndpointStep(s, e, s')
    ensures s'.tasks == s.tasks && s'.used == s.used && s'.origins == s.origins && s'.emitted == s.emitted
    ensures forall d :: d in s'.deliveries ==> d in s.deliveries && s'.deliveries[d] == s.deliveries[d]
    ensures forall d :: d in s.deliveries && d !in s'.deliveries ==>
              || (s.deliveries[d].event in s.events && s.deliveries[d].event !in s'.events)
              || (s.deliveries[d].endpoint in s.endpoints && s.deliveries[d].endpoint !in s'.endpoints)
    ensures s'.events.Keys <= s.events.Keys && s.scopes.Keys <= s'.scopes.Keys
    ensures forall x :: x in s'.endpoints && x !in s.endpoints ==> x !in s.scopes
  {
    if DeleteEndpoint(s, e, s') {
      DeleteEndpointEffect(s, e, s');
    } else if DeleteEvent(s, e, s') {
      DeleteEventEffect(s, e, s');
    } else {
      EndpointWrittenEffect(s, e, s');
    }
  }

  lemma EndpointWrittenEffect(s: State, e: Id, s': State)
    requires (exists endpoint :: CreateEndpoint(s, e, endpoint, s')) || (exists types, enabled :: UpdateEndpoint(s, e, types, enabled, s'))
    ensures s'.tasks == s.tasks && s'.used == s.used && s'.origins == s.origins && s'.emitted == s.emitted
    ensures s'.deliveries == s.deliveries && s'.events == s.events && s.scopes.Keys <= s'.scopes.Keys
    ensures forall x :: x in s'.endpoints && x !in s.endpoints ==> x !in s.scopes
  {
  }

  lemma DeleteEndpointEffect(s: State, e: Id, s': State)
    requires DeleteEndpoint(s, e, s')
    ensures s' == s.(endpoints := s.endpoints - {e}, deliveries := s'.deliveries)
    ensures forall d :: d in s'.deliveries <==> d in s.deliveries && s.deliveries[d].endpoint != e
    ensures forall d :: d in s'.deliveries ==> s'.deliveries[d] == s.deliveries[d]
  {
  }

  lemma DeleteEventEffect(s: State, v: Id, s': State)
    requires DeleteEvent(s, v, s')
    ensures s' == s.(events := s.events - {v}, deliveries := s'.deliveries)
    ensures forall d :: d in s'.deliveries <==> d in s.deliveries && s.deliveries[d].event != v
    ensures forall d :: d in s'.deliveries ==> s'.deliveries[d] == s.deliveries[d]
  {
  }

  predicate SameAim(a: Delivery, b: Delivery) {
    a.event == b.event && a.endpoint == b.endpoint && a.isReplay == b.isReplay
  }

  lemma RecordedAim(attempts: nat, row: Delivery, trial: Trial, policy: Policy)
    ensures SameAim(Recorded(attempts, row, trial, policy), row)
  {
  }

  lemma FinishAttemptEffect(s: State, tid: Id, a: AttemptTask, trial: Trial, s': State)
    requires FinishAttempt(s, tid, a, trial, s')
    ensures s' == s.(deliveries := s'.deliveries, tasks := s.tasks - {tid}) && s'.deliveries.Keys == s.deliveries.Keys
    ensures forall d :: d in s'.deliveries && s'.deliveries[d] != s.deliveries[d] ==>
              s.deliveries[d].status == Pending && SameAim(s'.deliveries[d], s.deliveries[d])
  {
    if a.delivery in s.deliveries {
      RecordedAim(a.attempts, s.deliveries[a.delivery], trial, s.policy);
    }
  }

  lemma AttemptStepEffect(s: State, tid: Id, s': State)
    requires AttemptStep(s, tid, s')
    ensures s' == s.(deliveries := s'.deliveries, tasks := s.tasks - {tid}) && s'.deliveries.Keys == s.deliveries.Keys
    ensures forall d :: d in s'.deliveries && s'.deliveries[d] != s.deliveries[d] ==>
              s.deliveries[d].status == Pending && SameAim(s'.deliveries[d], s.deliveries[d])
  {
    var trial :| FinishAttempt(s, tid, s.tasks[tid].a, trial, s');
    FinishAttemptEffect(s, tid, s.tasks[tid].a, trial, s');
  }
}
