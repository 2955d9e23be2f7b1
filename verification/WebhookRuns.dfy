/** Every step that writes or deletes deliveries keeps the invariant, so every run does. */
module WebhookRuns {
  import opened Common
  import opened WebhookDelivery
  import opened WebhookRetry
  import opened WebhookPlane
  import opened WebhookInvariant

  // ---------------------------------------------------------------------------------------------
  // Adding deliveries
  // ---------------------------------------------------------------------------------------------

  /** The added rows take no id and no pair from the table. */
  ghost predicate Addable(s: State, s': State, rows: map<Id, Delivery>) {
    && s'.deliveries == s.deliveries + rows && Unique(rows)
    && forall d :: d in rows ==> AddableRow(s, s', d, rows[d])
  }

  ghost predicate AddableRow(s: State, s': State, d: Id, row: Delivery) {
    && d !in s.deliveries && d in s'.used && DeliveryOk(s', row)
    && (row.isReplay || !HasPair(s.deliveries, row.event, row.endpoint))
  }

  /** Nor from a task in flight. */
  ghost predicate Clear(held: map<Id, Delivery>, rows: map<Id, Delivery>) {
    forall d :: d in held ==> d !in rows && !HasPair(rows, held[d].event, held[d].endpoint)
  }

  ghost predicate OthersClear(s: State, s': State, tid: Id, rows: map<Id, Delivery>) {
    forall other :: other in s.tasks && other != tid ==>
      && Clear(HeldRows(s.tasks[other]), rows)
      && (HeldEvent(s.tasks[other]).Some? ==> HeldEvent(s.tasks[other]).value !in s'.emitted)
  }

  ghost predicate TablesGrow(s: State, s': State) {
    && Advances(s, s') && s'.endpoints == s.endpoints
    && forall v :: v in s.events ==> v in s'.events && s'.events[v] == s.events[v]
  }

  lemma AddedUnique(s: State, s': State, rows: map<Id, Delivery>)
    requires Unique(s.deliveries) && Addable(s, s', rows)
    ensures Unique(s'.deliveries)
  {
    forall d, c | d in rows && c in s.deliveries && !rows[d].isReplay
      ensures !IsPair(s.deliveries[c], rows[d].event, rows[d].endpoint)
    {
      assert AddableRow(s, s', d, rows[d]);
    }
  }

  lemma AddedDeliveriesOk(s: State, s': State, rows: map<Id, Delivery>)
    requires DeliveriesOk(s) && Addable(s, s', rows) && TablesGrow(s, s')
    ensures DeliveriesOk(s')
  {
    forall d | d in s'.deliveries
      ensures d in s'.used && DeliveryOk(s', s'.deliveries[d])
    {
      if d in rows {
        assert AddableRow(s, s', d, rows[d]);
      } else {
        DeliveryKept(s, s', s.deliveries[d]);
      }
    }
  }

  lemma PairKept(before: map<Id, Delivery>, after: map<Id, Delivery>, event: Id, endpoint: Id)
    requires HasPair(before, event, endpoint)
    requires forall d :: d in before && IsPair(before[d], event, endpoint) ==> d in after && IsPair(after[d], event, endpoint)
    ensures HasPair(after, event, endpoint)
  {
    var d :| d in before && IsPair(before[d], event, endpoint);
    assert d in after && IsPair(after[d], event, endpoint);
  }

  lemma AddedFanOut(s: State, s': State, rows: map<Id, Delivery>, v: Id)
    requires Addable(s, s', rows) && TablesGrow(s, s')
    requires v in s.emitted && FannedOut(s, v) && s'.emitted[v] == s.emitted[v]
    ensures FannedOut(s', v)
  {
    forall e | e in s'.emitted[v].targets.value && e in s'.endpoints
      ensures HasPair(s'.deliveries, v, e)
    {
      assert forall d :: d in rows ==> AddableRow(s, s', d, rows[d]);
      PairKept(s.deliveries, s'.deliveries, v, e);
    }
  }

  lemma AddedUndisturbed(s: State, s': State, rows: map<Id, Delivery>, t: Task)
    requires TaskOk(s, t) && Addable(s, s', rows) && TablesGrow(s, s') && Clear(HeldRows(t), rows)
    requires HeldEvent(t).Some? ==> HeldEvent(t).value !in s'.emitted
    ensures TaskOk(s', t)
  {
    forall d | d in HeldRows(t)
      ensures RowUndisturbed(s', d, HeldRows(t)[d])
    {
      var row := HeldRows(t)[d];
      assert HeldRowOk(s, t.f, d) && !HasPair(s.deliveries, row.event, row.endpoint) && !HasPair(rows, row.event, row.endpoint);
    }
    TaskKept(s, s', t);
  }

  /** Rows added by a task that ends: the tables stay well formed if its own event does. */
  lemma AddedKeepsInv(s: State, s': State, tid: Id, rows: map<Id, Delivery>)
    requires Inv(s) && tid in s.tasks && s'.tasks == s.tasks - {tid}
    requires TablesGrow(s, s') && Addable(s, s', rows) && OthersClear(s, s', tid, rows)
    requires RegistryOk(s') && FanOutsOk(s')
    ensures Inv(s')
  {
    AddedUnique(s, s', rows);
    AddedDeliveriesOk(s, s', rows);
    forall other | other in s'.tasks
      ensures TaskOk(s', s'.tasks[other])
    {
      assert TaskOk(s, s.tasks[other]);
      AddedUndisturbed(s, s', rows, s.tasks[other]);
    }
    TaskRemoved(s, s', tid);
  }

  lemma TaskRemoved(s: State, s': State, tid: Id)
    requires TasksOk(s) && s'.tasks == s.tasks - {tid} && forall other :: other in s'.tasks ==> TaskOk(s', s'.tasks[other])
    ensures TasksOk(s')
  {
  }

  // ---------------------------------------------------------------------------------------------
  // Replay
  // ---------------------------------------------------------------------------------------------

  lemma ReadReplayedKeepsInv(s: State, tid: Id, r: ReplayTask, s': State)
    requires Inv(s) && tid in s.tasks && s.tasks[tid] == Replay(r) && ReadReplayed(s, tid, r, s')
    ensures Inv(s')
  {
    assert TaskOk(s, Replay(r));
    var t := Replay(r.(found := Some(s.events[r.event])));
    TablesUntouched(s, s', tid);
    forall other | other in s.tasks && other != tid
      ensures Apart(t, s.tasks[other]) && Apart(s.tasks[other], t)
    {
      NothingHeld(t, s.tasks[other]);
    }
    OneTaskChanged(s, s', tid, t);
  }

  lemma InsertReplayKeepsInv(s: State, tid: Id, r: ReplayTask, d: Id, now: Time, s': State)
    requires Inv(s) && tid in s.tasks && s.tasks[tid] == Replay(r)
    requires r.found.Some? && r.endpoint in s.endpoints && r.event in s.events
    requires InsertsReplay(s, tid, r, d, now, s')
    ensures Inv(s')
  {
    var rows := map[d := NewDelivery(r.event, r.endpoint, true, now)];
    assert TaskOk(s, Replay(r));
    ReplayScope(s, r);
    ReplayAddable(s, r, d, now, s');
    forall other | other in s.tasks && other != tid
      ensures Clear(HeldRows(s.tasks[other]), rows)
      ensures HeldEvent(s.tasks[other]).Some? ==> HeldEvent(s.tasks[other]).value !in s'.emitted
    {
      ReplayClear(s, s.tasks[other], d, rows[d]);
    }
    forall v | v in s'.events && v in s'.emitted && s'.emitted[v].atomic
      ensures FannedOut(s', v)
    {
      AddedFanOut(s, s', rows, v);
    }
    AddedKeepsInv(s, s', tid, rows);
  }

  lemma ReplayAddable(s: State, r: ReplayTask, d: Id, now: Time, s': State)
    requires ValidPolicy(s.policy) && DeliveriesOk(s)
    requires r.endpoint in s.endpoints && r.event in s.events && s.events[r.event].scope == s.endpoints[r.endpoint].scope
    requires d !in s.used && now <= s.clock
    requires s' == s.(deliveries := s.deliveries[d := NewDelivery(r.event, r.endpoint, true, now)],
                      used := s.used + {d}, origins := s'.origins, tasks := s'.tasks)
    ensures Addable(s, s', map[d := NewDelivery(r.event, r.endpoint, true, now)])
  {
    var row := NewDelivery(r.event, r.endpoint, true, now);
    assert d !in s.deliveries;
    assert DeliveryOk(s', row);
    assert AddableRow(s, s', d, row);
  }

  lemma ReplayClear(s: State, t: Task, d: Id, row: Delivery)
    requires TaskOk(s, t) && d !in s.used && row.isReplay
    ensures Clear(HeldRows(t), map[d := row])
    ensures HeldEvent(t).Some? ==> HeldEvent(t).value !in s.emitted
  {
    forall c | c in HeldRows(t)
      ensures c in s.used
    {
      assert HeldRowOk(s, t.f, c);
    }
  }

  lemma ReplayScope(s: State, r: ReplayTask)
    requires RegistryOk(s) && ReplayOk(s, r) && r.found.Some? && r.endpoint in s.endpoints && r.event in s.events
    ensures s.events[r.event].scope == s.endpoints[r.endpoint].scope
  {
  }

  // ---------------------------------------------------------------------------------------------
  // Fan-out
  // ---------------------------------------------------------------------------------------------

  /** Rows filled for a task that will hold them or commit them at once. */
  lemma FilledRows(s: State, t: FanTask, rows: map<Id, Delivery>)
    requires Fills(s, t.event, t.targets, rows)
    ensures Unique(rows)
    ensures forall d :: d in rows ==> rows[d].event == t.event && !rows[d].isReplay && rows[d].endpoint in t.targets
  {
  }

  lemma FilledApart(s: State, tid: Id, t: FanTask, rows: map<Id, Delivery>, other: Id)
    requires Fills(s, t.event, t.targets, rows) && PairsFree(s, tid, t.event, t.targets)
    requires other in s.tasks && other != tid && TaskOk(s, s.tasks[other])
    ensures RowsApart(rows, HeldRows(s.tasks[other])) && RowsApart(HeldRows(s.tasks[other]), rows)
    ensures Clear(HeldRows(s.tasks[other]), rows)
  {
    var held := HeldRows(s.tasks[other]);
    forall c | c in held
      ensures c in s.used && !(held[c].event == t.event && held[c].endpoint in t.targets)
    {
      assert HeldRowOk(s, s.tasks[other].f, c);
    }
    FilledRows(s, t, rows);
  }

  lemma FilledApartFromAll(s: State, tid: Id, t: FanTask, rows: map<Id, Delivery>)
    requires TasksOk(s) && tid in s.tasks && s.tasks[tid] == Fan(t) && t.pc == Read
    requires PairsFree(s, tid, t.event, t.targets) && Fills(s, t.event, t.targets, rows)
    ensures forall other :: other in s.tasks && other != tid ==>
              Apart(Fan(t.(pc := Filled, rows := rows)), s.tasks[other]) && Apart(s.tasks[other], Fan(t.(pc := Filled, rows := rows)))
  {
    forall other | other in s.tasks && other != tid
      ensures Apart(Fan(t.(pc := Filled, rows := rows)), s.tasks[other]) && Apart(s.tasks[other], Fan(t.(pc := Filled, rows := rows)))
    {
      assert Apart(Fan(t), s.tasks[other]) && Apart(s.tasks[other], Fan(t));
      FilledApart(s, tid, t, rows, other);
    }
  }

  lemma FillBufferedKeepsInv(s: State, tid: Id, t: FanTask, rows: map<Id, Delivery>, s': State)
    requires Inv(s) && tid in s.tasks && s.tasks[tid] == Fan(t) && t.pc == Read && t.kind != Direct
    requires PairsFree(s, tid, t.event, t.targets) && InsertsRows(s, tid, t, rows, s')
    ensures Inv(s')
  {
    assert TaskOk(s, Fan(t));
    InsertsRowsEffect(s, tid, t, rows, s');
    forall other | other in s.tasks && other != tid && HeldEvent(s.tasks[other]).Some?
      ensures HeldEvent(s.tasks[other]).value !in s'.emitted
    {
      HeldEventNew(s, other);
    }
    TablesUntouched(s, s', tid);
    FillBufferedOwn(s, t, rows, s');
    FilledApartFromAll(s, tid, t, rows);
    OneTaskChanged(s, s', tid, Fan(t.(pc := Filled, rows := rows)));
  }

  lemma FillBufferedOwn(s: State, t: FanTask, rows: map<Id, Delivery>, s': State)
    requires RegistryOk(s) && DeliveriesOk(s) && FanOk(s, t) && t.pc == Read && t.kind != Direct
    requires Fills(s, t.event, t.targets, rows) && Refers(s, t, rows)
    requires s' == s.(used := s.used + rows.Keys, origins := s'.origins, tasks := s'.tasks)
    ensures FanOk(s', t.(pc := Filled, rows := rows))
  {
    var t' := t.(pc := Filled, rows := rows);
    FilledRows(s, t, rows);
    forall d | d in rows
      ensures HeldRowOk(s', t', d)
    {
      assert d !in s.used;
    }
    if t.kind == Business {
      forall e | e in t.targets
        ensures HasPair(rows, t.event, e)
      {
        NewEventHasNoPair(s, t.event, e);
      }
    }
  }

  lemma NewEventHasNoPair(s: State, event: Id, e: Id)
    requires RegistryOk(s) && DeliveriesOk(s) && event !in s.emitted
    ensures !HasPair(s.deliveries, event, e)
  {
    forall d | d in s.deliveries
      ensures !IsPair(s.deliveries[d], event, e)
    {
      assert DeliveryOk(s, s.deliveries[d]);
    }
  }

  /** A row of a fan-out, once committed, is a well-formed delivery within one scope. */
  lemma FanRowOk(s: State, t: FanTask, s': State, row: Delivery)
    requires RegistryOk(s) && FanOk(s, t) && ValidPolicy(s.policy)
    requires s'.policy == s.policy && s'.clock == s.clock && s'.endpoints == s.endpoints
    requires row.createdAt <= s.clock && row == NewDelivery(t.event, row.endpoint, false, row.createdAt)
    requires row.endpoint in t.targets && row.endpoint in s.endpoints
    requires t.event in s'.events && s'.events[t.event] == t.row
    ensures DeliveryOk(s', row)
  {
  }

  lemma FillDirectKeepsInv(s: State, tid: Id, t: FanTask, rows: map<Id, Delivery>, s': State)
    requires Inv(s) && tid in s.tasks && s.tasks[tid] == Fan(t) && t.pc == Read && t.kind == Direct
    requires PairsFree(s, tid, t.event, t.targets) && InsertsRows(s, tid, t, rows, s')
    ensures Inv(s')
  {
    assert TaskOk(s, Fan(t));
    FilledRows(s, t, rows);
    forall d | d in rows
      ensures AddableRow(s, s', d, rows[d])
    {
      FanRowOk(s, t, s', rows[d]);
    }
    forall other | other in s.tasks && other != tid
      ensures Clear(HeldRows(s.tasks[other]), rows)
      ensures HeldEvent(s.tasks[other]).Some? ==> HeldEvent(s.tasks[other]).value !in s'.emitted
    {
      assert TaskOk(s, s.tasks[other]);
      FilledApart(s, tid, t, rows, other);
    }
    forall v | v in s'.events && v in s'.emitted && s'.emitted[v].atomic
      ensures FannedOut(s', v)
    {
      AddedFanOut(s, s', rows, v);
    }
    AddedKeepsInv(s, s', tid, rows);
  }

  /** What a task holds is addable, and clear of every other task. */
  lemma HeldAddable(s: State, s': State, tid: Id, t: FanTask)
    requires Inv(s) && tid in s.tasks && s.tasks[tid] == Fan(t)
    requires s'.policy == s.policy && s'.clock == s.clock && s'.endpoints == s.endpoints && s'.used == s.used
    requires s'.deliveries == s.deliveries + t.rows
    requires t.rows != map[] ==> t.event in s'.events && s'.events[t.event] == t.row
    ensures Addable(s, s', t.rows)
    ensures forall other :: other in s.tasks && other != tid ==> Clear(HeldRows(s.tasks[other]), t.rows)
  {
    assert TaskOk(s, Fan(t));
    forall d | d in t.rows
      ensures AddableRow(s, s', d, t.rows[d])
    {
      assert HeldRowOk(s, t, d);
      FanRowOk(s, t, s', t.rows[d]);
    }
    forall other | other in s.tasks && other != tid
      ensures Clear(HeldRows(s.tasks[other]), t.rows)
    {
      assert Apart(s.tasks[other], Fan(t));
    }
  }

  /** A repair, or a persist that found its event already there. */
  lemma CommitPlainKeepsInv(s: State, tid: Id, t: FanTask, s': State)
    requires Inv(s) && tid in s.tasks && s.tasks[tid] == Fan(t)
    requires CommitFan(s, tid, t, s') && !(t.kind == Business && t.pc == Filled)
    ensures Inv(s')
  {
    assert TaskOk(s, Fan(t));
    HeldAddable(s, s', tid, t);
    forall other | other in s.tasks && other != tid && HeldEvent(s.tasks[other]).Some?
      ensures HeldEvent(s.tasks[other]).value !in s'.emitted
    {
      HeldEventNew(s, other);
    }
    forall v | v in s'.events && v in s'.emitted && s'.emitted[v].atomic
      ensures FannedOut(s', v)
    {
      AddedFanOut(s, s', t.rows, v);
    }
    AddedKeepsInv(s, s', tid, t.rows);
  }

  lemma CommitBusinessKeepsInv(s: State, tid: Id, t: FanTask, s': State)
    requires Inv(s) && tid in s.tasks && s.tasks[tid] == Fan(t)
    requires CommitFan(s, tid, t, s') && t.kind == Business && t.pc == Filled
    ensures Inv(s')
  {
    assert FanOk(s, t) by {
      assert TaskOk(s, Fan(t));
    }
    HeldAddable(s, s', tid, t);
    forall other | other in s.tasks && other != tid && HeldEvent(s.tasks[other]).Some?
      ensures HeldEvent(s.tasks[other]).value !in s'.emitted
    {
      HeldEventNew(s, other);
      assert Apart(s.tasks[other], Fan(t));
    }
    CommitRegistry(s, tid, t, s');
    CommitFanOuts(s, tid, t, s');
    AddedKeepsInv(s, s', tid, t.rows);
  }

  lemma CommitRegistry(s: State, tid: Id, t: FanTask, s': State)
    requires RegistryOk(s) && FanOk(s, t) && CommitFan(s, tid, t, s') && t.kind == Business && t.pc == Filled
    ensures TablesGrow(s, s') && RegistryOk(s')
  {
  }

  lemma CommitFanOuts(s: State, tid: Id, t: FanTask, s': State)
    requires FanOutsOk(s) && FanOk(s, t) && CommitFan(s, tid, t, s') && t.kind == Business && t.pc == Filled
    requires RegistryOk(s) && TablesGrow(s, s') && Addable(s, s', t.rows)
    ensures FanOutsOk(s')
  {
    forall v | v in s'.events && v in s'.emitted && s'.emitted[v].atomic
      ensures FannedOut(s', v)
    {
      if v == t.event {
        forall e | e in t.targets && e in s'.endpoints
          ensures HasPair(s'.deliveries, v, e)
        {
          PairKept(t.rows, s'.deliveries, v, e);
        }
      } else {
        AddedFanOut(s, s', t.rows, v);
      }
    }
  }

  lemma FanStepKeepsInv(s: State, tid: Id, s': State)
    requires Inv(s) && FanStep(s, tid, s')
    ensures Inv(s')
  {
    var t := s.tasks[tid].f;
    if InsertEvent(s, tid, t, s') {
      InsertEventKeepsInv(s, tid, t, s');
    } else if ReadEndpoints(s, tid, t, s') {
      ReadEndpointsKeepsInv(s, tid, t, s');
    } else if InsertDeliveries(s, tid, t, s') {
      InsertDeliveriesKeepsInv(s, tid, t, s');
    } else if t.kind == Business && t.pc == Filled {
      CommitBusinessKeepsInv(s, tid, t, s');
    } else {
      CommitPlainKeepsInv(s, tid, t, s');
    }
  }

  lemma InsertDeliveriesKeepsInv(s: State, tid: Id, t: FanTask, s': State)
    requires Inv(s) && tid in s.tasks && s.tasks[tid] == Fan(t) && InsertDeliveries(s, tid, t, s')
    ensures Inv(s')
  {
    var rows :| InsertsRows(s, tid, t, rows, s');
    if t.kind == Direct {
      FillDirectKeepsInv(s, tid, t, rows, s');
    } else {
      FillBufferedKeepsInv(s, tid, t, rows, s');
    }
  }

  // ---------------------------------------------------------------------------------------------
  // Attempts and deletions
  // ---------------------------------------------------------------------------------------------

  predicate SamePair(a: Delivery, b: Delivery) {
    a.event == b.event && a.endpoint == b.endpoint && a.isReplay == b.isReplay
  }

  /** No delivery is added, and those that stay keep their event and endpoint. */
  ghost predicate Shrinks(s: State, s': State) {
    && Advances(s, s') && s'.emitted == s.emitted
    && forall d :: d in s'.deliveries ==> d in s.deliveries && SamePair(s'.deliveries[d], s.deliveries[d])
  }

  lemma ShrunkUndisturbed(s: State, s': State, t: Task)
    requires TaskOk(s, t) && Shrinks(s, s')
    requires forall d :: d in HeldRows(t) ==> HeldRows(t)[d].endpoint in s'.endpoints && (t.f.event in s.events ==> t.f.event in s'.events)
    ensures TaskOk(s', t)
  {
    forall d | d in HeldRows(t)
      ensures RowUndisturbed(s', d, HeldRows(t)[d])
    {
      var row := HeldRows(t)[d];
      assert HeldRowOk(s, t.f, d);
      if HasPair(s'.deliveries, row.event, row.endpoint) {
        PairKept(s'.deliveries, s.deliveries, row.event, row.endpoint);
      }
    }
    TaskKept(s, s', t);
  }

  lemma ShrunkUnique(s: State, s': State)
    requires Unique(s.deliveries) && Shrinks(s, s')
    ensures Unique(s'.deliveries)
  {
    forall d | d in s'.deliveries
      ensures SamePair(s'.deliveries[d], s.deliveries[d])
    {
    }
  }

  lemma AttemptDeliveryOk(s: State, row: Delivery, attempts: nat, trial: Trial)
    requires DeliveryOk(s, row) && row.status == Pending && attempts < s.policy.maxAttempts
    requires trial.now <= s.clock && 0.0 <= trial.random < 1.0
    ensures DeliveryOk(s, Recorded(attempts, row, trial, s.policy))
  {
    RecordedScheduleOk(attempts, row, trial, s.policy);
    DelayInRange(attempts, trial, s.policy);
  }

  lemma FinishAttemptKeepsInv(s: State, tid: Id, a: AttemptTask, trial: Trial, s': State)
    requires Inv(s) && tid in s.tasks && s.tasks[tid] == Attempt(a) && FinishAttempt(s, tid, a, trial, s')
    ensures Inv(s')
  {
    assert TaskOk(s, Attempt(a));
    AttemptDeliveries(s, tid, a, trial, s');
    ShrunkUnique(s, s');
    forall v | v in s'.events && v in s'.emitted && s'.emitted[v].atomic
      ensures FannedOut(s', v)
    {
      AttemptFanOut(s, tid, a, trial, s', v);
    }
    forall other | other in s'.tasks
      ensures TaskOk(s', s'.tasks[other])
    {
      HeldInPlace(s, s.tasks[other]);
      ShrunkUndisturbed(s, s', s.tasks[other]);
    }
    TaskRemoved(s, s', tid);
  }

  lemma HeldInPlace(s: State, t: Task)
    requires TaskOk(s, t)
    ensures forall d :: d in HeldRows(t) ==> HeldRows(t)[d].endpoint in s.endpoints && HeldRows(t)[d].event == t.f.event
  {
    forall d | d in HeldRows(t)
      ensures HeldRows(t)[d].endpoint in s.endpoints && HeldRows(t)[d].event == t.f.event
    {
      assert HeldRowOk(s, t.f, d);
    }
  }

  lemma AttemptShrinks(s: State, tid: Id, a: AttemptTask, trial: Trial, s': State)
    requires FinishAttempt(s, tid, a, trial, s')
    ensures Shrinks(s, s') && s'.endpoints == s.endpoints && s'.events == s.events
  {
  }

  /** The row an attempt leaves, its own or another. */
  lemma AttemptRowOk(s: State, tid: Id, a: AttemptTask, trial: Trial, s': State, d: Id)
    requires FinishAttempt(s, tid, a, trial, s') && a.attempts < s.policy.maxAttempts
    requires d in s'.deliveries && d in s.deliveries && DeliveryOk(s, s.deliveries[d])
    ensures DeliveryOk(s, s'.deliveries[d])
  {
    if d == a.delivery && s.deliveries[d].status == Pending {
      AttemptDeliveryOk(s, s.deliveries[d], a.attempts, trial);
    }
  }

  lemma AttemptDeliveries(s: State, tid: Id, a: AttemptTask, trial: Trial, s': State)
    requires DeliveriesOk(s) && a.attempts < s.policy.maxAttempts && FinishAttempt(s, tid, a, trial, s')
    ensures DeliveriesOk(s') && Shrinks(s, s')
  {
    AttemptShrinks(s, tid, a, trial, s');
    forall d | d in s'.deliveries
      ensures d in s'.used && DeliveryOk(s', s'.deliveries[d])
    {
      AttemptRowOk(s, tid, a, trial, s', d);
      DeliveryKept(s, s', s'.deliveries[d]);
    }
  }

  lemma AttemptFanOut(s: State, tid: Id, a: AttemptTask, trial: Trial, s': State, v: Id)
    requires FinishAttempt(s, tid, a, trial, s') && v in s.emitted && FannedOut(s, v)
    ensures FannedOut(s', v)
  {
    forall e | e in s'.emitted[v].targets.value && e in s'.endpoints
      ensures HasPair(s'.deliveries, v, e)
    {
      PairKept(s.deliveries, s'.deliveries, v, e);
    }
  }

  /** A change to the endpoint table alone that removes no endpoint. */
  lemma EndpointsChanged(s: State, s': State)
    requires Inv(s) && s' == s.(endpoints := s'.endpoints, scopes := s'.scopes) && Advances(s, s')
    requires forall e :: e in s.endpoints ==> e in s'.endpoints && s'.endpoints[e].scope == s.endpoints[e].scope
    ensures DeliveriesOk(s') && TasksOk(s')
  {
    forall d | d in s'.deliveries
      ensures DeliveryOk(s', s'.deliveries[d])
    {
      DeliveryKept(s, s', s.deliveries[d]);
    }
    forall tid | tid in s'.tasks
      ensures TaskOk(s', s'.tasks[tid])
    {
      assert TaskOk(s, s.tasks[tid]);
      HeldInPlace(s, s.tasks[tid]);
      ShrunkUndisturbed(s, s', s.tasks[tid]);
    }
  }

  lemma CreateEndpointKeepsInv(s: State, e: Id, endpoint: Endpoint, s': State)
    requires Inv(s) && CreateEndpoint(s, e, endpoint, s')
    ensures Inv(s')
  {
    EndpointsChanged(s, s');
    forall v | v in s'.events && v in s'.emitted && s'.emitted[v].atomic
      ensures FannedOut(s', v)
    {
      assert FannedOut(s, v) && e !in s.emitted[v].targets.value;
    }
  }

  lemma UpdateEndpointKeepsInv(s: State, e: Id, types: set<string>, enabled: bool, s': State)
    requires Inv(s) && UpdateEndpoint(s, e, types, enabled, s')
    ensures Inv(s')
  {
    EndpointsChanged(s, s');
    forall v | v in s'.events && v in s'.emitted && s'.emitted[v].atomic
      ensures FannedOut(s', v)
    {
      assert FannedOut(s, v);
    }
  }

  /** The tables after deleting an endpoint or an event with its deliveries. */
  lemma CascadeTables(s: State, s': State, gone: Delivery -> bool)
    requires TablesOk(s) && s' == s.(endpoints := s'.endpoints, events := s'.events, deliveries := Without(s.deliveries, gone))
    requires forall e :: e in s'.endpoints ==> e in s.endpoints && s'.endpoints[e] == s.endpoints[e]
    requires forall v :: v in s'.events ==> v in s.events && s'.events[v] == s.events[v]
    requires forall row: Delivery :: !gone(row) && row.endpoint in s.endpoints && row.event in s.events ==>
               row.endpoint in s'.endpoints && row.event in s'.events
    requires forall row: Delivery :: row.endpoint in s'.endpoints && row.event in s'.events ==> !gone(row)
    ensures TablesOk(s') && Shrinks(s, s')
  {
    forall d | d in s'.deliveries
      ensures d in s'.used && DeliveryOk(s', s'.deliveries[d])
    {
      assert DeliveryOk(s, s.deliveries[d]) && !gone(s.deliveries[d]);
      DeliveryKept(s, s', s.deliveries[d]);
    }
    ShrunkUnique(s, s');
    forall v | v in s'.events && v in s'.emitted && s'.emitted[v].atomic
      ensures FannedOut(s', v)
    {
      assert FannedOut(s, v);
      forall e | e in s'.emitted[v].targets.value && e in s'.endpoints
        ensures HasPair(s'.deliveries, v, e)
      {
        PairKept(s.deliveries, s'.deliveries, v, e);
      }
    }
  }

  lemma CascadeTasks(s: State, s': State)
    requires Inv(s) && Shrinks(s, s') && s'.tasks == s.tasks
    requires forall tid, d :: tid in s.tasks && d in HeldRows(s.tasks[tid]) ==>
               var row := HeldRows(s.tasks[tid])[d];
               (row.endpoint in s.endpoints ==> row.endpoint in s'.endpoints) && (row.event in s.events ==> row.event in s'.events)
    ensures TasksOk(s')
  {
    forall tid | tid in s'.tasks
      ensures TaskOk(s', s'.tasks[tid])
    {
      assert TaskOk(s, s.tasks[tid]);
      HeldInPlace(s, s.tasks[tid]);
      ShrunkUndisturbed(s, s', s.tasks[tid]);
    }
  }

  lemma DeleteEndpointKeepsInv(s: State, e: Id, s': State)
    requires Inv(s) && DeleteEndpoint(s, e, s')
    ensures Inv(s')
  {
    CascadeTables(s, s', (row: Delivery) => row.endpoint == e);
    CascadeTasks(s, s');
  }

  lemma DeleteEventKeepsInv(s: State, v: Id, s': State)
    requires Inv(s) && DeleteEvent(s, v, s')
    ensures Inv(s')
  {
    CascadeTables(s, s', (row: Delivery) => row.event == v);
    CascadeTasks(s, s');
  }

  // ---------------------------------------------------------------------------------------------
  // Runs
  // ---------------------------------------------------------------------------------------------

  lemma EndpointStepKeepsInv(s: State, e: Id, s': State)
    requires Inv(s) && EndpointStep(s, e, s')
    ensures Inv(s')
  {
    if endpoint :| CreateEndpoint(s, e, endpoint, s') {
      CreateEndpointKeepsInv(s, e, endpoint, s');
    } else if types, enabled :| UpdateEndpoint(s, e, types, enabled, s') {
      UpdateEndpointKeepsInv(s, e, types, enabled, s');
    } else if DeleteEndpoint(s, e, s') {
      DeleteEndpointKeepsInv(s, e, s');
    } else {
      DeleteEventKeepsInv(s, e, s');
    }
  }

  lemma ReplayStepKeepsInv(s: State, tid: Id, s': State)
    requires Inv(s) && ReplayStep(s, tid, s')
    ensures Inv(s')
  {
    var r := s.tasks[tid].r;
    if ReadReplayed(s, tid, r, s') {
      ReadReplayedKeepsInv(s, tid, r, s');
    } else {
      var d, now :| InsertsReplay(s, tid, r, d, now, s');
      InsertReplayKeepsInv(s, tid, r, d, now, s');
    }
  }

  lemma NextKeepsInv(s: State, s': State)
    requires Inv(s) && Next(s, s')
    ensures Inv(s')
  {
    if Tick(s, s') {
      TickKeepsInv(s, s');
    } else {
      var id :| StepOf(s, id, s');
      StepKeepsInv(s, id, s');
    }
  }

  lemma StepKeepsInv(s: State, id: Id, s': State)
    requires Inv(s) && StepOf(s, id, s')
    ensures Inv(s')
  {
    if Begin(s, id, s') {
      BeginKeepsInv(s, id, s');
    } else if Abort(s, id, s') {
      AbortKeepsInv(s, id, s');
    } else if FanStep(s, id, s') {
      FanStepKeepsInv(s, id, s');
    } else if ReplayStep(s, id, s') {
      ReplayStepKeepsInv(s, id, s');
    } else if AttemptStep(s, id, s') {
      var trial :| FinishAttempt(s, id, s.tasks[id].a, trial, s');
      FinishAttemptKeepsInv(s, id, s.tasks[id].a, trial, s');
    } else {
      EndpointStepKeepsInv(s, id, s');
    }
  }

  lemma {:induction false} PathKeepsInv(path: seq<State>, i: nat)
    requires IsPath(path) && Inv(path[0]) && i < |path|
    ensures Inv(path[i])
  {
    if i > 0 {
      PathKeepsInv(path, i - 1);
      NextKeepsInv(path[i - 1], path[i]);
    }
  }

  lemma ReachableInv(s: State)
    requires Reachable(s)
    ensures Inv(s)
  {
    var start :| Init(start) && Runs(start, s);
    var path :| IsPath(path) && path[0] == start && path[|path| - 1] == s;
    PathKeepsInv(path, |path| - 1);
  }

  lemma ReachableDelivery(s: State, d: Id)
    requires Reachable(s) && d in s.deliveries
    ensures DeliveryOk(s, s.deliveries[d])
  {
    ReachableInv(s);
  }
}
