/** A commit, or an autocommitted statement, keeps the invariant. */
module LedgerCommit {
  import opened Common
  import opened PaymentScenarios
  import opened PaymentSimulation
  import opened LedgerState
  import opened LedgerInvariant

  // ---------------------------------------------------------------------------------------------
  // Counting over one more row
  // ---------------------------------------------------------------------------------------------

  lemma EventAppended(events: seq<Event>, event: Option<Event>, payment: Id, kind: EventType)
    ensures CountEvents(Append(events, event), payment, kind)
            == CountEvents(events, payment, kind)
               + (if event.Some? && event.value.payment == payment && event.value.kind == kind then 1 else 0)
  {
    if event.Some? {
      assert (events + [event.value])[..|events|] == events;
    }
  }

  lemma AuditAppended(audit: seq<AuditEntry>, entry: Option<AuditEntry>, payment: Id, action: EventType)
    ensures CountAudit(Append(audit, entry), payment, action)
            == CountAudit(audit, payment, action)
               + (if entry.Some? && entry.value.payment == payment && entry.value.action == action then 1 else 0)
  {
    if entry.Some? {
      assert (audit + [entry.value])[..|audit|] == audit;
    }
  }

  lemma RefundAppended(refunds: seq<Refund>, refund: Option<Refund>, payment: Id)
    ensures var hit := refund.Some? && refund.value.payment == payment;
            && SumRefunds(Append(refunds, refund), payment) == SumRefunds(refunds, payment) + (if hit then refund.value.amount else 0)
            && CountRefunds(Append(refunds, refund), payment) == CountRefunds(refunds, payment) + (if hit then 1 else 0)
  {
    if refund.Some? {
      assert (refunds + [refund.value])[..|refunds|] == refunds;
    }
  }

  lemma {:induction false} NoEventsCountZero(events: seq<Event>, payment: Id, kind: EventType)
    requires forall i :: 0 <= i < |events| ==> events[i].payment != payment
    ensures CountEvents(events, payment, kind) == 0
  {
    if |events| > 0 {
      NoEventsCountZero(events[..|events| - 1], payment, kind);
    }
  }

  lemma {:induction false} NoAuditCountZero(audit: seq<AuditEntry>, payment: Id, action: EventType)
    requires forall i :: 0 <= i < |audit| ==> audit[i].payment != payment
    ensures CountAudit(audit, payment, action) == 0
  {
    if |audit| > 0 {
      NoAuditCountZero(audit[..|audit| - 1], payment, action);
    }
  }

  lemma {:induction false} NoRefundsSumZero(refunds: seq<Refund>, payment: Id)
    requires forall i :: 0 <= i < |refunds| ==> refunds[i].payment != payment
    ensures SumRefunds(refunds, payment) == 0 && CountRefunds(refunds, payment) == 0
  {
    if |refunds| > 0 {
      NoRefundsSumZero(refunds[..|refunds| - 1], payment);
    }
  }

  // ---------------------------------------------------------------------------------------------
  // What other transactions notice
  // ---------------------------------------------------------------------------------------------

  /**
   * From one database to the next: payments keep their identity, only the row held under `lock`
   * changes or gains refunds, only `added` appears, and only `own` gains creation rows.
   */
  ghost predicate Interferes(a: Db, ao: map<Id, Origin>, b: Db, bo: map<Id, Origin>,
                             lock: Option<Id>, added: Option<Id>, own: Option<Id>)
  {
    && (forall p :: p in a.payments ==> p in b.payments && SameIdentity(a.payments[p], b.payments[p]))
    && (forall p :: p in ao && p in a.payments ==> p in bo && bo[p] == ao[p])
    && (forall p :: p in a.payments && lock != Some(p) ==>
          b.payments[p] == a.payments[p] && SumRefunds(b.refunds, p) == SumRefunds(a.refunds, p))
    && (forall p :: p in b.payments && p !in a.payments ==> added == Some(p))
    && (forall p :: p in a.payments && own != Some(p) ==>
          && CountEvents(b.events, p, Created) == CountEvents(a.events, p, Created)
          && CountAudit(b.audit, p, Created) == CountAudit(a.audit, p, Created))
  }

  lemma RequestUndisturbed(a: Db, ao: map<Id, Origin>, b: Db, bo: map<Id, Origin>,
                           lock: Option<Id>, added: Option<Id>, own: Option<Id>, t: RequestTx, clock: Time)
    requires Interferes(a, ao, b, bo, lock, added, own)
    requires LockOf(Request(t)).Some? ==> LockOf(Request(t)) != lock
    requires InsertedId(Request(t)).Some? ==> InsertedId(Request(t)) != added
    ensures t.op.CreatePayment? && CreateOk(a, t, clock) ==> CreateOk(b, t, clock)
    ensures t.op.CreateRefund? && RefundOk(a, t) ==> RefundOk(b, t)
  {
  }

  lemma EdgeUndisturbed(a: Db, ao: map<Id, Origin>, b: Db, bo: map<Id, Origin>,
                        lock: Option<Id>, added: Option<Id>, own: Option<Id>, t: EdgeTx, clock: Time, delays: SimulationDelays)
    requires Interferes(a, ao, b, bo, lock, added, own)
    requires LockOf(Edge(t)).Some? ==> LockOf(Edge(t)) != lock
    requires EdgeOk(a, ao, clock, delays, t)
    ensures EdgeOk(b, bo, clock, delays, t)
  {
  }

  lemma DirectUndisturbed(a: Db, ao: map<Id, Origin>, b: Db, bo: map<Id, Origin>,
                          lock: Option<Id>, added: Option<Id>, own: Option<Id>, t: DirectTx, clock: Time)
    requires Interferes(a, ao, b, bo, lock, added, own)
    requires DirectId(Direct(t)).Some? ==> DirectId(Direct(t)) != own
    requires DirectOk(a, ao, clock, t)
    ensures DirectOk(b, bo, clock, t)
  {
  }

  /** Deleting one's own rows and inserting under one's own key leaves other claims alone. */
  lemma ClaimUndisturbed(records: map<Key, Record>, r: RequestTx, t: RequestTx, retentionMs: nat)
    requires ClaimOk(records, r, retentionMs) && ClaimOk(records, t, retentionMs)
    requires Apart(Request(r), Request(t)) && Apart(Request(t), Request(r))
    ensures ClaimOk(AfterClaims(records, r), t, retentionMs)
  {
  }

  lemma ReplayStillOk(log: seq<Outcome>, entry: Outcome, at: Time, key: Key, found: Record, now: Time, startedAt: nat, foundAt: nat)
    requires ReplayOk(log, at, key, found, now, startedAt, foundAt)
    ensures ReplayOk(log + [entry], at, key, found, now, startedAt, foundAt)
  {
    var i :| i < foundAt && IsExecution(log, i, key, found);
    assert IsExecution(log + [entry], i, key, found);
    forall j, r | IsExecution(log + [entry], j, key, r) && j < foundAt && r.expiresAt > at
      ensures r == found
    {
      assert IsExecution(log, j, key, r);
    }
  }

  // ---------------------------------------------------------------------------------------------
  // The log and the idempotency records
  // ---------------------------------------------------------------------------------------------

  lemma ExecutionsAfter(log: seq<Outcome>, entry: Outcome)
    ensures forall i, key, r :: IsExecution(log, i, key, r) ==> IsExecution(log + [entry], i, key, r)
    ensures forall i, key, r :: IsExecution(log + [entry], i, key, r) ==>
              IsExecution(log, i, key, r) || (i == |log| && entry.Executed? && entry.claim == Some((key, r)))
  {
  }

  /** An execution under a key commits only once every earlier record of that key has expired. */
  lemma EarlierRecordsExpired(s: State, t: RequestTx, i: int, record: Record)
    requires RecordsOk(s.db.records, s.log, s.clock) && RequestOk(s, t)
    requires t.claim.Some? && t.key.Some? && IsExecution(s.log, i, t.key.value, record)
    ensures record.expiresAt <= s.clock
  {
  }

  lemma LogAfterCommit(s: State, t: RequestTx)
    requires LogOk(s.log, s.clock) && RecordsOk(s.db.records, s.log, s.clock) && RequestOk(s, t)
    requires ReadyToCommit(Request(t))
    ensures LogOk(s.log + [OutcomeOf(t, s.clock)], s.clock)
  {
    var entry := OutcomeOf(t, s.clock);
    var log' := s.log + [entry];
    ExecutionsAfter(s.log, entry);
    forall i, j, key, r, q | i < j && IsExecution(log', i, key, r) && IsExecution(log', j, key, q)
      ensures r.expiresAt <= log'[j].at
    {
      if j == |s.log| {
        EarlierRecordsExpired(s, t, i, r);
      } else {
        assert IsExecution(s.log, j, key, q) && IsExecution(s.log, i, key, r);
      }
    }
    forall n | 0 <= n < |log'| && log'[n].Replayed?
      ensures ReplayOk(log'[..n], log'[n].at, log'[n].key, log'[n].found, log'[n].now, log'[n].startedAt, log'[n].foundAt)
    {
      assert log'[..n] == s.log[..n];
      assert n == |s.log| ==> s.log[..n] == s.log;
    }
  }

  lemma RecordsAfterCommit(s: State, t: RequestTx)
    requires LogOk(s.log, s.clock) && RecordsOk(s.db.records, s.log, s.clock) && RequestOk(s, t)
    requires ReadyToCommit(Request(t))
    ensures RecordsOk(AfterClaims(s.db.records, t), s.log + [OutcomeOf(t, s.clock)], s.clock)
  {
    var entry := OutcomeOf(t, s.clock);
    var log' := s.log + [entry];
    var records' := AfterClaims(s.db.records, t);
    ExecutionsAfter(s.log, entry);
    forall i, key, r | IsExecution(log', i, key, r)
      ensures r.expiresAt <= s.clock || (key in records' && records'[key] == r)
    {
      if i < |s.log| && t.claim.Some? && t.key == Some(key) {
        EarlierRecordsExpired(s, t, i, r);
      }
    }
    forall key | key in records'
      ensures records'[key].response.Some? && exists i :: IsExecution(log', i, key, records'[key])
    {
      if t.claim.Some? && t.key == Some(key) {
        assert IsExecution(log', |s.log|, key, records'[key]);
      } else {
        var i :| IsExecution(s.log, i, key, s.db.records[key]);
        assert IsExecution(log', i, key, records'[key]);
      }
    }
  }

  // ---------------------------------------------------------------------------------------------
  // One payment after a commit
  // ---------------------------------------------------------------------------------------------

  /** The payment one transaction's writes are about. */
  ghost function Subject(w: Writes): Option<Id> {
    if w.inserted.Some? then Some(w.inserted.value.0) else w.lock
  }

  /** Every buffered row belongs to the subject. */
  ghost predicate AboutSubject(w: Writes) {
    && (w.refund.Some? ==> Subject(w) == Some(w.refund.value.payment))
    && (w.event.Some? ==> Subject(w) == Some(w.event.value.payment))
    && (w.audit.Some? ==> Subject(w) == Some(w.audit.value.payment))
  }

  lemma OtherEventsKept(events: seq<Event>, event: Option<Event>, p: Id, row: PaymentRow, atomic: bool)
    requires EventsOk(events, p, row, atomic) && (event.Some? ==> event.value.payment != p)
    ensures EventsOk(Append(events, event), p, row, atomic)
  {
    EventAppended(events, event, p, Terminal(PaymentSucceeded));
    EventAppended(events, event, p, Terminal(PaymentFailed));
    EventAppended(events, event, p, Created);
  }

  lemma OtherAuditKept(audit: seq<AuditEntry>, entry: Option<AuditEntry>, p: Id, row: PaymentRow, origin: Origin)
    requires AuditOk(audit, p, row, origin) && (entry.Some? ==> entry.value.payment != p || entry.value.action == RefundCreated)
    ensures AuditOk(Append(audit, entry), p, row, origin)
  {
    AuditAppended(audit, entry, p, Terminal(PaymentSucceeded));
    AuditAppended(audit, entry, p, Terminal(PaymentFailed));
    AuditAppended(audit, entry, p, Created);
  }

  lemma OtherRefundsKept(refunds: seq<Refund>, refund: Option<Refund>, events: seq<Event>, event: Option<Event>, p: Id, row: PaymentRow)
    requires RefundsOk(refunds, events, p, row)
    requires refund.Some? ==> refund.value.payment != p
    requires event.Some? ==> event.value.payment != p
    ensures RefundsOk(Append(refunds, refund), Append(events, event), p, row)
  {
    EventAppended(events, event, p, RefundCreated);
    RefundAppended(refunds, refund, p);
    PrefixesKept(refunds, refund, p);
  }

  lemma OtherPaymentKept(db: Db, origins: map<Id, Origin>, origins': map<Id, Origin>, clock: Time, delays: SimulationDelays,
                         w: Writes, p: Id)
    requires p in db.payments && PaymentOk(db, origins, clock, delays, p)
    requires AboutSubject(w) && Subject(w) != Some(p)
    requires p in origins' && origins'[p] == origins[p]
    ensures p in AfterWrites(db, w).payments && PaymentOk(AfterWrites(db, w), origins', clock, delays, p)
  {
    var db' := AfterWrites(db, w);
    assert db'.payments[p] == db.payments[p];
    OtherEventsKept(db.events, w.event, p, db.payments[p], origins[p].atomic);
    OtherAuditKept(db.audit, w.audit, p, db.payments[p], origins[p]);
    OtherRefundsKept(db.refunds, w.refund, db.events, w.event, p, db.payments[p]);
  }

  lemma PrefixesKept(refunds: seq<Refund>, refund: Option<Refund>, payment: Id)
    ensures forall i :: 0 <= i < |refunds| ==>
              RefundedThrough(Append(refunds, refund), i, payment) == RefundedThrough(refunds, i, payment)
  {
    forall i | 0 <= i < |refunds|
      ensures RefundedThrough(Append(refunds, refund), i, payment) == RefundedThrough(refunds, i, payment)
    {
      assert Append(refunds, refund)[..i + 1] == refunds[..i + 1];
    }
  }

  lemma UnusedKept(db: Db, w: Writes, p: Id)
    requires Unused(db, p) && AboutSubject(w) && Subject(w) != Some(p)
    ensures Unused(AfterWrites(db, w), p)
  {
  }

  lemma NewPaymentOk(db: Db, origins': map<Id, Origin>, clock: Time, delays: SimulationDelays, w: Writes, p: Id, origin: Origin)
    requires Unused(db, p) && w.inserted.Some? && w.inserted.value.0 == p && IsNewRow(w.inserted.value.1, clock)
    requires w.refund == None
    requires w.event == None || w.event == Some(CreatedEvent(p, w.inserted.value.1))
    requires w.audit == None || (w.audit.value.action == Created && w.audit.value.payment == p && Names(w.audit.value, w.inserted.value.1, origin))
    requires origin.atomic ==> w.event.Some? && w.audit.Some?
    requires p in origins' && origins'[p] == origin
    ensures p in AfterWrites(db, w).payments && PaymentOk(AfterWrites(db, w), origins', clock, delays, p)
  {
    NoEventsCountZero(db.events, p, Terminal(PaymentSucceeded));
    NoEventsCountZero(db.events, p, Terminal(PaymentFailed));
    NoEventsCountZero(db.events, p, Created);
    NoEventsCountZero(db.events, p, RefundCreated);
    NoAuditCountZero(db.audit, p, Terminal(PaymentSucceeded));
    NoAuditCountZero(db.audit, p, Terminal(PaymentFailed));
    NoAuditCountZero(db.audit, p, Created);
    NoRefundsSumZero(db.refunds, p);
    EventAppended(db.events, w.event, p, Terminal(PaymentSucceeded));
    EventAppended(db.events, w.event, p, Terminal(PaymentFailed));
    EventAppended(db.events, w.event, p, Created);
    EventAppended(db.events, w.event, p, RefundCreated);
    AuditAppended(db.audit, w.audit, p, Terminal(PaymentSucceeded));
    AuditAppended(db.audit, w.audit, p, Terminal(PaymentFailed));
    AuditAppended(db.audit, w.audit, p, Created);
  }

  lemma RefundEventKept(events: seq<Event>, event: Event, p: Id, row: PaymentRow, atomic: bool)
    requires EventsOk(events, p, row, atomic) && event.kind == RefundCreated
    ensures EventsOk(Append(events, Some(event)), p, row, atomic)
  {
    EventAppended(events, Some(event), p, Terminal(PaymentSucceeded));
    EventAppended(events, Some(event), p, Terminal(PaymentFailed));
    EventAppended(events, Some(event), p, Created);
  }

  /** The lock makes the balance read before the insert still the balance at the commit. */
  lemma BalanceAfterRefund(refunds: seq<Refund>, refund: Refund, events: seq<Event>, event: Event, p: Id, row: PaymentRow)
    requires RefundsOk(refunds, events, p, row) && row.status == Succeeded
    requires refund.payment == p && event.payment == p && event.kind == RefundCreated
    requires 0 < refund.amount <= row.amount - SumRefunds(refunds, p)
    requires refund.full ==> refund.amount == row.amount - SumRefunds(refunds, p)
    ensures RefundsOk(Append(refunds, Some(refund)), Append(events, Some(event)), p, row)
  {
    EventAppended(events, Some(event), p, RefundCreated);
    RefundAppended(refunds, Some(refund), p);
    PrefixesKept(refunds, Some(refund), p);
    var after := Append(refunds, Some(refund));
    assert after[..|after| - 1 + 1] == after;
  }

  lemma RefundedPaymentOk(db: Db, origins: map<Id, Origin>, clock: Time, delays: SimulationDelays, t: RequestTx)
    requires t.op.CreateRefund? && RefundOk(db, t) && Mutated(t.pc) && t.w.event.Some?
    requires t.op.paymentId in db.payments && PaymentOk(db, origins, clock, delays, t.op.paymentId)
    ensures t.op.paymentId in AfterWrites(db, t.w).payments
    ensures PaymentOk(AfterWrites(db, t.w), origins, clock, delays, t.op.paymentId)
  {
    var p, w, row, db' := t.op.paymentId, t.w, db.payments[t.op.paymentId], AfterWrites(db, t.w);
    RefundEventKept(db.events, w.event.value, p, row, origins[p].atomic);
    OtherAuditKept(db.audit, w.audit, p, row, origins[p]);
    BalanceAfterRefund(db.refunds, w.refund.value, db.events, w.event.value, p, row);
    assert db'.payments[p] == row;
  }

  lemma {:induction false} UncountedEventsAbsent(events: seq<Event>, payment: Id, kind: EventType)
    requires CountEvents(events, payment, kind) == 0
    ensures forall i :: 0 <= i < |events| && events[i].payment == payment ==> events[i].kind != kind
  {
    if |events| > 0 {
      UncountedEventsAbsent(events[..|events| - 1], payment, kind);
      forall i | 0 <= i < |events| && events[i].payment == payment
        ensures events[i].kind != kind
      {
        assert i < |events| - 1 ==> events[..|events| - 1][i] == events[i];
      }
    }
  }

  lemma TwoTerminalKinds(kind: EventType)
    ensures kind.Terminal? ==> kind == Terminal(PaymentSucceeded) || kind == Terminal(PaymentFailed)
  {
    if kind.Terminal? {
      match kind.kind
      case PaymentSucceeded =>
      case PaymentFailed =>
    }
  }

  /** What a due edge does to the columns of its row. */
  lemma AdvancedRowOk(row: PaymentRow, clock: Time, delays: SimulationDelays, t: EdgeTx)
    requires RowOk(row, clock, delays) && t.now <= clock
    requires SameIdentity(t.current, row) && row.status == t.transition.from
    requires ScheduledTransition(t.transition.from, t.current.createdAt, t.now, delays, IntentOf(t.current).scenario) == Some(t.transition)
    ensures RowOk(EdgeRow(row, t), clock, delays) && !IsTerminal(row.status)
    ensures EdgeRow(t.current, t) == EdgeRow(row, t)
    ensures t.transition.event == SettlesWith(t.transition.to)
  {
    DueEdgeStaysOnSchedule(t.transition.from, t.current.createdAt, t.now, delays, IntentOf(t.current).scenario);
  }

  function SettlesWith(status: PaymentStatus): Option<TerminalEvent> {
    if status == Succeeded then Some(PaymentSucceeded) else if status == Failed then Some(PaymentFailed) else None
  }

  /** A row that is not settled has had no terminal event. */
  lemma NoTerminalEventYet(events: seq<Event>, p: Id, row: PaymentRow, atomic: bool)
    requires EventsOk(events, p, row, atomic) && !IsTerminal(row.status)
    ensures forall i :: 0 <= i < |events| && events[i].payment == p ==> !events[i].kind.Terminal?
  {
    UncountedEventsAbsent(events, p, Terminal(PaymentSucceeded));
    UncountedEventsAbsent(events, p, Terminal(PaymentFailed));
    forall i | 0 <= i < |events| && events[i].payment == p
      ensures !events[i].kind.Terminal?
    {
      TwoTerminalKinds(events[i].kind);
    }
  }

  lemma AdvancedCounts(events: seq<Event>, event: Option<Event>, p: Id, row: PaymentRow, row': PaymentRow, atomic: bool)
    requires EventsOk(events, p, row, atomic) && !IsTerminal(row.status)
    requires event.Some? <==> IsTerminal(row'.status)
    requires event.Some? ==> event.value.payment == p && event.value.kind == Terminal(SettlesWith(row'.status).value)
    ensures CountEvents(Append(events, event), p, Terminal(PaymentSucceeded)) == (if row'.status == Succeeded then 1 else 0)
    ensures CountEvents(Append(events, event), p, Terminal(PaymentFailed)) == (if row'.status == Failed then 1 else 0)
    ensures CountEvents(Append(events, event), p, Created) == CountEvents(events, p, Created)
  {
    EventAppended(events, event, p, Terminal(PaymentSucceeded));
    EventAppended(events, event, p, Terminal(PaymentFailed));
    EventAppended(events, event, p, Created);
  }

  lemma AdvancedEventsOk(events: seq<Event>, event: Option<Event>, p: Id, row: PaymentRow, row': PaymentRow, atomic: bool)
    requires EventsOk(events, p, row, atomic) && SameIdentity(row, row') && !IsTerminal(row.status)
    requires event.Some? <==> IsTerminal(row'.status)
    requires event.Some? ==>
               && event.value.payment == p && event.value.payload == PaymentBody(p, row') && event.value.createdAt == row'.updatedAt
               && event.value.kind == Terminal(SettlesWith(row'.status).value)
    ensures EventsOk(Append(events, event), p, row', atomic)
  {
    AdvancedCounts(events, event, p, row, row', atomic);
    NoTerminalEventYet(events, p, row, atomic);
    forall i | 0 <= i < |events| && events[i].payment == p && events[i].kind == Created
      ensures events[i].payload.PaymentBody? && SameIdentity(events[i].payload.row, row')
    {
      IdentityComposes(events[i].payload.row, row, row');
    }
  }

  lemma IdentityComposes(a: PaymentRow, b: PaymentRow, c: PaymentRow)
    requires SameIdentity(a, b) && SameIdentity(b, c)
    ensures SameIdentity(a, c)
  {
  }

  lemma AdvancedAuditOk(audit: seq<AuditEntry>, entry: Option<AuditEntry>, p: Id, row: PaymentRow, row': PaymentRow, origin: Origin)
    requires AuditOk(audit, p, row, origin) && SameIdentity(row, row') && !IsTerminal(row.status)
    requires entry.Some? ==>
               && IsTerminal(row'.status) && entry.value.payment == p && Names(entry.value, row', origin)
               && entry.value.action == Terminal(SettlesWith(row'.status).value)
    requires origin.atomic && IsTerminal(row'.status) ==> entry.Some?
    ensures AuditOk(Append(audit, entry), p, row', origin)
  {
    AuditAppended(audit, entry, p, Terminal(PaymentSucceeded));
    AuditAppended(audit, entry, p, Terminal(PaymentFailed));
    AuditAppended(audit, entry, p, Created);
  }

  /** A row with a due edge has no refunds yet. */
  lemma AdvancedRefundsOk(refunds: seq<Refund>, events: seq<Event>, event: Option<Event>, p: Id, row: PaymentRow, row': PaymentRow)
    requires RefundsOk(refunds, events, p, row) && SameIdentity(row, row') && !IsTerminal(row.status)
    requires event.Some? ==> event.value.kind.Terminal?
    ensures RefundsOk(refunds, Append(events, event), p, row')
  {
    EventAppended(events, event, p, RefundCreated);
  }

  lemma AdvancedPaymentOk(db: Db, origins: map<Id, Origin>, clock: Time, delays: SimulationDelays, t: EdgeTx)
    requires EdgeOk(db, origins, clock, delays, t) && t.pc.Done? && t.w != NO_WRITES
    requires PaymentOk(db, origins, clock, delays, t.payment)
    ensures t.payment in AfterWrites(db, t.w).payments
    ensures PaymentOk(AfterWrites(db, t.w), origins, clock, delays, t.payment)
  {
    var p, w, row := t.payment, t.w, db.payments[t.payment];
    var row' := EdgeRow(row, t);
    AdvancedRowOk(row, clock, delays, t);
    assert AfterWrites(db, w).payments[p] == row';
    AdvancedEventsOk(db.events, w.event, p, row, row', origins[p].atomic);
    AdvancedAuditOk(db.audit, w.audit, p, row, row', origins[p]);
    AdvancedRefundsOk(db.refunds, db.events, w.event, p, row, row');
  }
}
