/**
 * What is on record about each effect, column by column: payments are as they were requested, their
 * created events describe them, refund events and refund entries are those of the committed refunds
 * one by one, and every stored response names an effect that was committed.
 */
module LedgerHistory {
  import opened Common
  import opened PaymentScenarios
  import opened PaymentSimulation
  import opened LedgerState
  import opened LedgerInvariant
  import opened LedgerRuns
  import opened LedgerTheorems

  /** The columns a create takes from its request. */
  ghost predicate IsRequested(row: PaymentRow, origin: Origin) {
    && origin.op.CreatePayment? && row.project == origin.scope.project
    && row.environment == origin.op.environment && row.customer == origin.op.customer
    && row.amount == origin.op.amount && row.scenario == origin.op.scenario
  }

  /** The refunds that the events carry, in order. */
  function RefundPayloads(events: seq<Event>): seq<Refund> {
    if |events| == 0 then []
    else
      var (before, last) := (events[..|events| - 1], events[|events| - 1]);
      if last.kind == RefundCreated && last.payload.RefundBody? then RefundPayloads(before) + [last.payload.refund] else RefundPayloads(before)
  }

  function RefundEntries(audit: seq<AuditEntry>): seq<AuditEntry> {
    if |audit| == 0 then []
    else
      var (before, last) := (audit[..|audit| - 1], audit[|audit| - 1]);
      if last.action == RefundCreated then RefundEntries(before) + [last] else RefundEntries(before)
  }

  ghost predicate EntryFor(entry: AuditEntry, refund: Refund) {
    entry.payment == refund.payment && entry.project == refund.project && entry.environment == refund.environment
  }

  ghost predicate EntriesFor(entries: seq<AuditEntry>, refunds: seq<Refund>) {
    |entries| == |refunds| && forall k :: 0 <= k < |refunds| ==> EntryFor(entries[k], refunds[k])
  }

  /** A refund is of a payment that is there, in its project and environment. */
  ghost predicate IsRefundOf(refund: Refund, payments: map<Id, PaymentRow>) {
    && refund.payment in payments
    && refund.project == payments[refund.payment].project && refund.environment == payments[refund.payment].environment
  }

  /** The payload of a created event is the row as it was inserted. */
  ghost predicate DescribesNew(event: Event, payments: map<Id, PaymentRow>, origins: map<Id, Origin>) {
    && event.payment in payments && event.payment in origins
    && event.payload.PaymentBody? && event.payload.id == event.payment
    && var row := event.payload.row;
       && IsRequested(row, origins[event.payment]) && row.status == Pending && row.failureCode == None
       && row.createdAt == row.updatedAt == event.createdAt == payments[event.payment].createdAt
  }

  ghost predicate EventRecorded(event: Event, payments: map<Id, PaymentRow>, origins: map<Id, Origin>) {
    && (event.kind == Created ==> DescribesNew(event, payments, origins))
    && (event.kind == RefundCreated ==> event.payload.RefundBody?)
  }

  ghost predicate PaymentsRecorded(payments: map<Id, PaymentRow>, origins: map<Id, Origin>) {
    forall p :: p in payments ==> p in origins && IsRequested(payments[p], origins[p])
  }

  ghost predicate EventsRecorded(events: seq<Event>, payments: map<Id, PaymentRow>, origins: map<Id, Origin>) {
    forall i :: 0 <= i < |events| ==> EventRecorded(events[i], payments, origins)
  }

  ghost predicate RefundsRecorded(db: Db) {
    && RefundPayloads(db.events) == db.refunds && EntriesFor(RefundEntries(db.audit), db.refunds)
    && forall k :: 0 <= k < |db.refunds| ==> IsRefundOf(db.refunds[k], db.payments)
  }

  /** A stored response: of the key's project and scope, kept for the retention window, and naming a committed effect. */
  ghost predicate NamesEffect(key: Key, record: Record, now: Time, retentionMs: nat, payments: map<Id, PaymentRow>, refunds: seq<Refund>) {
    && record.expiresAt == now + retentionMs
    && record.response.Some? && record.response.value.status == 201
    && match record.response.value.body
       case RefundBody(refund) => key.scope == RefundsCreate && refund in refunds && refund.project == key.project
       case PaymentBody(id, row) =>
         && key.scope == PaymentsCreate && id in payments && SameIdentity(row, payments[id])
         && row.project == key.project && row.status == Pending
  }

  ghost predicate OutcomeRecorded(entry: Outcome, retentionMs: nat, payments: map<Id, PaymentRow>, refunds: seq<Refund>) {
    entry.Executed? && entry.claim.Some? ==>
      NamesEffect(entry.claim.value.0, entry.claim.value.1, entry.now, retentionMs, payments, refunds)
  }

  ghost predicate LogRecorded(log: seq<Outcome>, retentionMs: nat, payments: map<Id, PaymentRow>, refunds: seq<Refund>) {
    forall i :: 0 <= i < |log| ==> OutcomeRecorded(log[i], retentionMs, payments, refunds)
  }

  /** What a refund request has buffered. */
  ghost predicate RefundTxRecorded(payments: map<Id, PaymentRow>, t: RequestTx) {
    && (t.pc.PaymentRead? || t.pc.Checked? ==> t.pc.row.project == t.scope.project)
    && (t.w.refund.Some? ==> IsRefundOf(t.w.refund.value, payments) && t.w.refund.value.project == t.scope.project)
    && (t.w.event.Some? ==> t.w.refund.Some? && t.w.event.value.payload == RefundBody(t.w.refund.value))
    && (t.w.audit.Some? ==> t.w.refund.Some? && EntryFor(t.w.audit.value, t.w.refund.value))
  }

  ghost predicate ResponseBuffered(t: RequestTx) {
    t.claim.Some? && t.claim.value.response.Some? ==>
      && t.claim.value.response.value.status == 201
      && if t.op.CreatePayment? then
           t.w.inserted.Some? && t.claim.value.response.value.body == PaymentBody(t.w.inserted.value.0, t.w.inserted.value.1)
         else t.w.refund.Some? && t.claim.value.response.value.body == RefundBody(t.w.refund.value)
  }

  ghost predicate RequestRecorded(payments: map<Id, PaymentRow>, t: RequestTx) {
    && (t.key.Some? ==> t.key.value.project == t.scope.project
                        && t.key.value.scope == if t.op.CreatePayment? then PaymentsCreate else RefundsCreate)
    && (t.w.inserted.Some? ==> IsRequested(t.w.inserted.value.1, Origin(true, t.scope, t.op)))
    && (t.op.CreateRefund? ==> RefundTxRecorded(payments, t))
    && ResponseBuffered(t)
  }

  ghost predicate TxRecorded(payments: map<Id, PaymentRow>, t: Tx) {
    match t
    case Request(r) => RequestRecorded(payments, r)
    case Edge(_) => true
    case Direct(d) => d.row.Some? ==> IsRequested(d.row.value.1, Origin(false, d.scope, d.op))
  }

  ghost predicate Recorded(s: State) {
    && PaymentsRecorded(s.db.payments, s.origins)
    && EventsRecorded(s.db.events, s.db.payments, s.origins)
    && RefundsRecorded(s.db)
    && LogRecorded(s.log, s.config.retentionMs, s.db.payments, s.db.refunds)
    && forall tid :: tid in s.txs ==> TxRecorded(s.db.payments, s.txs[tid])
  }

  // ---------------------------------------------------------------------------------------------
  // One statement
  // ---------------------------------------------------------------------------------------------

  lemma ClaimRecorded(s: State, tid: Id, t: RequestTx, t': RequestTx)
    requires RequestOk(s, t) && RequestRecorded(s.db.payments, t)
    requires InsertClaim(s, tid, t, t') || FindRecord(s, tid, t, t') || DeleteExpired(s, tid, t, t')
    ensures RequestRecorded(s.db.payments, t')
  {
    assert t'.w == t.w && t'.key == t.key && t'.scope == t.scope && t'.op == t.op;
  }

  lemma EndRecorded(s: State, tid: Id, t: RequestTx, t': RequestTx)
    requires RequestOk(s, t) && RequestRecorded(s.db.payments, t)
    requires StoreResponse(s, tid, t, t') || PruneRow(s, tid, t, t') || EndPrune(s, tid, t, t') || EndKeyless(s, tid, t, t')
    ensures RequestRecorded(s.db.payments, t')
  {
    assert t'.w == t.w && t'.key == t.key && t'.scope == t.scope && t'.op == t.op;
  }

  lemma ClaimStatementRecorded(s: State, tid: Id, t: RequestTx, t': RequestTx)
    requires RequestOk(s, t) && RequestRecorded(s.db.payments, t) && ClaimStatement(s, tid, t, t')
    ensures RequestRecorded(s.db.payments, t')
  {
    if InsertClaim(s, tid, t, t') || FindRecord(s, tid, t, t') || DeleteExpired(s, tid, t, t') {
      ClaimRecorded(s, tid, t, t');
    } else {
      EndRecorded(s, tid, t, t');
    }
  }

  lemma PaymentStatementRecorded(s: State, tid: Id, t: RequestTx, t': RequestTx)
    requires RequestOk(s, t) && RequestRecorded(s.db.payments, t) && PaymentStatement(s, tid, t, t')
    ensures RequestRecorded(s.db.payments, t')
  {
  }

  lemma RefundReadRecorded(s: State, tid: Id, t: RequestTx, t': RequestTx)
    requires RequestOk(s, t) && RequestRecorded(s.db.payments, t)
    requires LockPayment(s, tid, t, t') || ReadPayment(s, tid, t, t') || ReadBalance(s, tid, t, t')
    ensures RequestRecorded(s.db.payments, t')
  {
  }

  lemma RefundWriteRecorded(s: State, tid: Id, t: RequestTx, t': RequestTx)
    requires RequestOk(s, t) && RequestRecorded(s.db.payments, t)
    requires InsertRefund(s, tid, t, t') || PersistRefundEvent(s, tid, t, t') || AuditRefund(s, tid, t, t')
    ensures RequestRecorded(s.db.payments, t')
  {
  }

  lemma RefundStatementRecorded(s: State, tid: Id, t: RequestTx, t': RequestTx)
    requires RequestOk(s, t) && RequestRecorded(s.db.payments, t) && RefundStatement(s, tid, t, t')
    ensures RequestRecorded(s.db.payments, t')
  {
    if InsertRefund(s, tid, t, t') || PersistRefundEvent(s, tid, t, t') || AuditRefund(s, tid, t, t') {
      RefundWriteRecorded(s, tid, t, t');
    } else {
      RefundReadRecorded(s, tid, t, t');
    }
  }

  lemma LocalRecorded(s: State, tid: Id, s': State)
    requires Reachable(s) && Recorded(s) && Local(s, tid, s')
    ensures Recorded(s')
  {
    ReachableTx(s, tid);
    var t, t' := s.txs[tid], s'.txs[tid];
    if t.Request? {
      if ClaimStatement(s, tid, t.r, t'.r) {
        ClaimStatementRecorded(s, tid, t.r, t'.r);
      } else if PaymentStatement(s, tid, t.r, t'.r) {
        PaymentStatementRecorded(s, tid, t.r, t'.r);
      } else {
        RefundStatementRecorded(s, tid, t.r, t'.r);
      }
    }
  }

  // ---------------------------------------------------------------------------------------------
  // What survives a commit
  // ---------------------------------------------------------------------------------------------

  /** Rows stay and keep who they are; the log of origins only grows. */
  ghost predicate Survive(a: map<Id, PaymentRow>, ao: map<Id, Origin>, b: map<Id, PaymentRow>, bo: map<Id, Origin>) {
    && (forall p :: p in a ==> p in b && SameIdentity(a[p], b[p]))
    && (forall p :: p in a && p in ao ==> p in bo && bo[p] == ao[p])
  }

  lemma EventsSurvive(events: seq<Event>, a: map<Id, PaymentRow>, ao: map<Id, Origin>, b: map<Id, PaymentRow>, bo: map<Id, Origin>)
    requires EventsRecorded(events, a, ao) && Survive(a, ao, b, bo)
    ensures EventsRecorded(events, b, bo)
  {
    forall i | 0 <= i < |events|
      ensures EventRecorded(events[i], b, bo)
    {
      assert EventRecorded(events[i], a, ao);
    }
  }

  lemma EffectSurvives(entry: Outcome, retentionMs: nat, a: map<Id, PaymentRow>, b: map<Id, PaymentRow>, before: seq<Refund>, after: seq<Refund>)
    requires OutcomeRecorded(entry, retentionMs, a, before)
    requires (forall p :: p in a ==> p in b && SameIdentity(a[p], b[p])) && (forall r :: r in before ==> r in after)
    ensures OutcomeRecorded(entry, retentionMs, b, after)
  {
  }

  lemma LogSurvives(log: seq<Outcome>, retentionMs: nat, a: map<Id, PaymentRow>, b: map<Id, PaymentRow>, before: seq<Refund>, after: seq<Refund>)
    requires LogRecorded(log, retentionMs, a, before)
    requires (forall p :: p in a ==> p in b && SameIdentity(a[p], b[p])) && (forall r :: r in before ==> r in after)
    ensures LogRecorded(log, retentionMs, b, after)
  {
    forall i | 0 <= i < |log|
      ensures OutcomeRecorded(log[i], retentionMs, b, after)
    {
      EffectSurvives(log[i], retentionMs, a, b, before, after);
    }
  }

  lemma TxSurvives(t: Tx, a: map<Id, PaymentRow>, b: map<Id, PaymentRow>)
    requires TxRecorded(a, t) && forall p :: p in a ==> p in b && SameIdentity(a[p], b[p])
    ensures TxRecorded(b, t)
  {
  }

  lemma PayloadsAppended(events: seq<Event>, event: Option<Event>)
    ensures RefundPayloads(Append(events, event))
            == RefundPayloads(events)
               + if event.Some? && event.value.kind == RefundCreated && event.value.payload.RefundBody? then [event.value.payload.refund] else []
  {
    if event.Some? {
      assert (events + [event.value])[..|events|] == events;
    }
  }

  lemma EntriesAppended(audit: seq<AuditEntry>, entry: Option<AuditEntry>)
    ensures RefundEntries(Append(audit, entry))
            == RefundEntries(audit) + if entry.Some? && entry.value.action == RefundCreated then [entry.value] else []
  {
    if entry.Some? {
      assert (audit + [entry.value])[..|audit|] == audit;
    }
  }

  lemma EventAdded(events: seq<Event>, event: Event, payments: map<Id, PaymentRow>, origins: map<Id, Origin>)
    requires EventsRecorded(events, payments, origins) && EventRecorded(event, payments, origins)
    ensures EventsRecorded(events + [event], payments, origins)
  {
  }

  /** Writes that bring no refund. */
  lemma NoRefundRecorded(db: Db, w: Writes)
    requires RefundsRecorded(db) && w.refund == None
    requires w.event.Some? ==> w.event.value.kind != RefundCreated
    requires w.audit.Some? ==> w.audit.value.action != RefundCreated
    requires forall p :: p in db.payments ==> p in AfterWrites(db, w).payments && SameIdentity(db.payments[p], AfterWrites(db, w).payments[p])
    ensures RefundsRecorded(AfterWrites(db, w))
  {
    PayloadsAppended(db.events, w.event);
    EntriesAppended(db.audit, w.audit);
  }

  /** Writes of one refund with its event and its entry. */
  lemma OneRefundRecorded(db: Db, w: Writes)
    requires RefundsRecorded(db) && w.refund.Some? && w.event.Some? && w.audit.Some? && w.inserted == None && w.updated == None
    requires w.event.value.kind == RefundCreated && w.event.value.payload == RefundBody(w.refund.value)
    requires w.audit.value.action == RefundCreated && EntryFor(w.audit.value, w.refund.value)
    requires IsRefundOf(w.refund.value, db.payments)
    ensures RefundsRecorded(AfterWrites(db, w))
  {
    PayloadsAppended(db.events, w.event);
    EntriesAppended(db.audit, w.audit);
  }

  // ---------------------------------------------------------------------------------------------
  // Commits
  // ---------------------------------------------------------------------------------------------

  /** The tables after the writes of a request that is ready to commit. */
  ghost function CommittedTables(s: State, t: RequestTx): Db {
    AfterWrites(s.db, t.w)
  }

  lemma CreateTablesRecorded(s: State, t: RequestTx)
    requires Recorded(s) && RequestOk(s, t) && RequestRecorded(s.db.payments, t) && t.op.CreatePayment? && t.pc.Done?
    ensures var (db, origins) := (CommittedTables(s, t), AfterOrigins(s.origins, t));
            PaymentsRecorded(db.payments, origins) && EventsRecorded(db.events, db.payments, origins) && RefundsRecorded(db)
  {
    var (db, origins) := (CommittedTables(s, t), AfterOrigins(s.origins, t));
    var (id, row) := t.w.inserted.value;
    assert t.w.event == Some(CreatedEvent(id, row)) && t.w.audit == Some(CreatedEntry(t.scope, id, row));
    EventsSurvive(s.db.events, s.db.payments, s.origins, db.payments, origins);
    assert EventRecorded(t.w.event.value, db.payments, origins);
    NoRefundRecorded(s.db, t.w);
  }

  lemma RefundTablesRecorded(s: State, t: RequestTx)
    requires Recorded(s) && RequestOk(s, t) && RequestRecorded(s.db.payments, t) && t.op.CreateRefund? && t.pc.Done?
    ensures var (db, origins) := (CommittedTables(s, t), AfterOrigins(s.origins, t));
            && origins == s.origins && db.payments == s.db.payments
            && PaymentsRecorded(db.payments, origins) && EventsRecorded(db.events, db.payments, origins) && RefundsRecorded(db)
  {
    OneRefundRecorded(s.db, t.w);
    assert EventRecorded(t.w.event.value, s.db.payments, s.origins);
  }

  lemma ReplayTablesRecorded(s: State, t: RequestTx)
    requires Recorded(s) && RequestOk(s, t) && t.pc.Replaying?
    ensures CommittedTables(s, t) == s.db && AfterOrigins(s.origins, t) == s.origins
  {
  }

  /** The entry a request adds to the log names what it commits. */
  lemma CommittedOutcome(s: State, t: RequestTx)
    requires RequestOk(s, t) && RequestRecorded(s.db.payments, t) && ReadyToCommit(Request(t))
    ensures OutcomeRecorded(OutcomeOf(t, s.clock), s.config.retentionMs, CommittedTables(s, t).payments, CommittedTables(s, t).refunds)
  {
    if t.pc.Done? && t.key.Some? && t.claim.Some? {
      if t.op.CreatePayment? {
        assert t.w.inserted.Some?;
      } else {
        assert t.w.refund.value in CommittedTables(s, t).refunds;
      }
    }
  }

  lemma RequestTables(s: State, t: RequestTx)
    requires Recorded(s) && RequestOk(s, t) && RequestRecorded(s.db.payments, t) && ReadyToCommit(Request(t))
    ensures var (db, origins) := (CommittedTables(s, t), AfterOrigins(s.origins, t));
            PaymentsRecorded(db.payments, origins) && EventsRecorded(db.events, db.payments, origins) && RefundsRecorded(db)
  {
    if t.pc.Replaying? {
      ReplayTablesRecorded(s, t);
    } else if t.op.CreatePayment? {
      CreateTablesRecorded(s, t);
    } else {
      RefundTablesRecorded(s, t);
    }
  }

  lemma RequestSurvive(s: State, t: RequestTx)
    requires RequestOk(s, t) && ReadyToCommit(Request(t))
    ensures forall p :: p in s.db.payments ==>
              p in CommittedTables(s, t).payments && SameIdentity(s.db.payments[p], CommittedTables(s, t).payments[p])
    ensures forall r :: r in s.db.refunds ==> r in CommittedTables(s, t).refunds
  {
  }

  lemma RequestCommitRecorded(s: State, tid: Id, s': State)
    requires Reachable(s) && Recorded(s) && Commit(s, tid, s') && s.txs[tid].Request?
    ensures Recorded(s')
  {
    var t := s.txs[tid].r;
    ReachableTx(s, tid);
    assert TxRecorded(s.db.payments, s.txs[tid]);
    RequestTables(s, t);
    RequestSurvive(s, t);
    CommittedOutcome(s, t);
    LogSurvives(s.log, s.config.retentionMs, s.db.payments, s'.db.payments, s.db.refunds, s'.db.refunds);
    forall other | other in s'.txs
      ensures TxRecorded(s'.db.payments, s'.txs[other])
    {
      TxSurvives(s.txs[other], s.db.payments, s'.db.payments);
    }
  }

  lemma EdgeRowsSurvive(s: State, t: EdgeTx)
    requires PaymentsRecorded(s.db.payments, s.origins) && EdgeOk(s.db, s.origins, s.clock, s.config.delays, t) && t.pc.Done?
    ensures var db := AfterWrites(s.db, t.w);
            && db.refunds == s.db.refunds && db.payments.Keys == s.db.payments.Keys
            && (forall p :: p in s.db.payments ==> SameIdentity(s.db.payments[p], db.payments[p]))
            && PaymentsRecorded(db.payments, s.origins)
    ensures t.w.event.Some? ==> t.w.event.value.kind.Terminal?
    ensures t.w.audit.Some? ==> t.w.audit.value.action.Terminal?
  {
  }

  lemma EdgeWritesRecorded(s: State, t: EdgeTx)
    requires Recorded(s) && EdgeOk(s.db, s.origins, s.clock, s.config.delays, t) && t.pc.Done?
    ensures var db := AfterWrites(s.db, t.w);
            && db.refunds == s.db.refunds
            && (forall p :: p in s.db.payments ==> p in db.payments && SameIdentity(s.db.payments[p], db.payments[p]))
            && PaymentsRecorded(db.payments, s.origins) && EventsRecorded(db.events, db.payments, s.origins) && RefundsRecorded(db)
  {
    var db := AfterWrites(s.db, t.w);
    EdgeRowsSurvive(s, t);
    EventsSurvive(s.db.events, s.db.payments, s.origins, db.payments, s.origins);
    if t.w.event.Some? {
      EventAdded(s.db.events, t.w.event.value, db.payments, s.origins);
    }
    NoRefundRecorded(s.db, t.w);
  }

  lemma EdgeCommitRecorded(s: State, tid: Id, s': State)
    requires Reachable(s) && Recorded(s) && Commit(s, tid, s') && s.txs[tid].Edge?
    ensures Recorded(s')
  {
    ReachableTx(s, tid);
    EdgeWritesRecorded(s, s.txs[tid].e);
    LogSurvives(s.log, s.config.retentionMs, s.db.payments, s'.db.payments, s.db.refunds, s'.db.refunds);
    forall other | other in s'.txs
      ensures TxRecorded(s'.db.payments, s'.txs[other])
    {
      TxSurvives(s.txs[other], s.db.payments, s'.db.payments);
    }
  }

  lemma DirectInsertRecorded(s: State, tid: Id, s': State)
    requires Recorded(s) && DirectStatement(s, tid, s') && s.txs[tid].d.pc.Running?
    ensures s'.db.refunds == s.db.refunds
    ensures forall p :: p in s.db.payments ==> p in s'.db.payments && s'.db.payments[p] == s.db.payments[p]
    ensures PaymentsRecorded(s'.db.payments, s'.origins) && EventsRecorded(s'.db.events, s'.db.payments, s'.origins) && RefundsRecorded(s'.db)
  {
    EventsSurvive(s.db.events, s.db.payments, s.origins, s'.db.payments, s'.origins);
    assert s'.db.events == s.db.events && s'.db.audit == s.db.audit && s'.db.refunds == s.db.refunds;
  }

  lemma NewRowDescribed(s: State, t: DirectTx)
    requires DirectOk(s.db, s.origins, s.clock, t) && TxRecorded(s.db.payments, Direct(t)) && t.pc.RowWritten?
    ensures EventRecorded(CreatedEvent(t.row.value.0, t.row.value.1), s.db.payments, s.origins)
  {
  }

  lemma DirectEventRecorded(s: State, tid: Id, s': State)
    requires Recorded(s) && DirectStatement(s, tid, s') && DirectOk(s.db, s.origins, s.clock, s.txs[tid].d) && s.txs[tid].d.pc.RowWritten?
    ensures s'.db.refunds == s.db.refunds && s'.db.payments == s.db.payments && s'.origins == s.origins
    ensures EventsRecorded(s'.db.events, s.db.payments, s.origins) && RefundsRecorded(s'.db)
  {
    var t := s.txs[tid].d;
    var event := CreatedEvent(t.row.value.0, t.row.value.1);
    assert TxRecorded(s.db.payments, s.txs[tid]);
    PayloadsAppended(s.db.events, Some(event));
    assert s'.db.events == s.db.events + [event] && s'.db.audit == s.db.audit;
    NewRowDescribed(s, t);
    EventAdded(s.db.events, event, s.db.payments, s.origins);
  }

  lemma DirectEntryRecorded(s: State, tid: Id, s': State)
    requires Recorded(s) && DirectStatement(s, tid, s') && s.txs[tid].d.pc.EventWritten?
    ensures s'.db.refunds == s.db.refunds && s'.db.payments == s.db.payments && s'.origins == s.origins && s'.db.events == s.db.events
    ensures RefundsRecorded(s'.db)
  {
    var t := s.txs[tid].d;
    var entry := CreatedEntry(t.scope, t.row.value.0, t.row.value.1);
    EntriesAppended(s.db.audit, Some(entry));
    assert s'.db.audit == Append(s.db.audit, Some(entry));
  }

  lemma DirectTablesRecorded(s: State, tid: Id, s': State)
    requires Recorded(s) && DirectStatement(s, tid, s') && DirectOk(s.db, s.origins, s.clock, s.txs[tid].d)
    ensures s'.db.refunds == s.db.refunds
    ensures forall p :: p in s.db.payments ==> p in s'.db.payments && s'.db.payments[p] == s.db.payments[p]
    ensures PaymentsRecorded(s'.db.payments, s'.origins) && EventsRecorded(s'.db.events, s'.db.payments, s'.origins) && RefundsRecorded(s'.db)
  {
    if s.txs[tid].d.pc.Running? {
      DirectInsertRecorded(s, tid, s');
    } else if s.txs[tid].d.pc.RowWritten? {
      DirectEventRecorded(s, tid, s');
    } else {
      DirectEntryRecorded(s, tid, s');
    }
  }

  lemma DirectRecorded(s: State, tid: Id, s': State)
    requires Reachable(s) && Recorded(s) && DirectStatement(s, tid, s')
    ensures Recorded(s')
  {
    ReachableTx(s, tid);
    DirectTablesRecorded(s, tid, s');
    LogSurvives(s.log, s.config.retentionMs, s.db.payments, s'.db.payments, s.db.refunds, s'.db.refunds);
    forall other | other in s'.txs
      ensures TxRecorded(s'.db.payments, s'.txs[other])
    {
      if other != tid {
        TxSurvives(s.txs[other], s.db.payments, s'.db.payments);
      } else {
        assert TxRecorded(s.db.payments, s.txs[tid]);
      }
    }
  }

  lemma QuietRecorded(s: State, tid: Id, s': State)
    requires Reachable(s) && Recorded(s) && (Begin(s, tid, s') || Abort(s, tid, s'))
    ensures Recorded(s')
  {
    assert s' == s.(txs := s'.txs);
    if Begin(s, tid, s') {
      assert TxRecorded(s.db.payments, s'.txs[tid]);
    }
  }

  lemma CommitRecorded(s: State, tid: Id, s': State)
    requires Reachable(s) && Recorded(s) && Commit(s, tid, s')
    ensures Recorded(s')
  {
    match s.txs[tid]
    case Request(_) => RequestCommitRecorded(s, tid, s');
    case Edge(_) => EdgeCommitRecorded(s, tid, s');
    case Direct(_) =>
  }

  lemma NextRecorded(s: State, s': State)
    requires Reachable(s) && Recorded(s) && Next(s, s')
    ensures Recorded(s')
  {
    if Tick(s, s') {
      assert s' == s.(clock := s'.clock);
    } else {
      var tid :| StepOf(s, tid, s');
      if Local(s, tid, s') {
        LocalRecorded(s, tid, s');
      } else if Commit(s, tid, s') {
        CommitRecorded(s, tid, s');
      } else if DirectStatement(s, tid, s') {
        DirectRecorded(s, tid, s');
      } else {
        QuietRecorded(s, tid, s');
      }
    }
  }

  lemma {:induction false} RunRecorded(run: seq<State>, i: nat)
    requires IsRun(run) && i < |run|
    ensures Recorded(run[i])
  {
    if i > 0 {
      RunRecorded(run, i - 1);
      InitReachable(run[0]);
      PathReaches(run, i - 1);
      NextRecorded(run[i - 1], run[i]);
    }
  }

  lemma ReachableRecorded(s: State)
    requires Reachable(s)
    ensures Recorded(s)
  {
    var run :| IsRun(run) && run[|run| - 1] == s;
    RunRecorded(run, |run| - 1);
  }

  // ---------------------------------------------------------------------------------------------
  // Theorems
  // ---------------------------------------------------------------------------------------------

  /** Every committed payment has the project, environment, customer, amount and scenario it was requested with. */
  lemma PaymentIsAsRequested(s: State, p: Id)
    requires Reachable(s) && p in s.db.payments
    ensures p in s.origins && s.origins[p].op.CreatePayment?
    ensures var (row, scope, op) := (s.db.payments[p], s.origins[p].scope, s.origins[p].op);
            && row.project == scope.project && row.environment == op.environment && row.customer == op.customer
            && row.amount == op.amount && row.scenario == op.scenario
  {
    ReachableRecorded(s);
  }

  /** A created event carries its own payment as it was requested, pending and fresh. */
  lemma EventDescribesItsPayment(s: State, i: nat)
    requires Reachable(s) && i < |s.db.events| && s.db.events[i].kind == Created
    ensures var event := s.db.events[i];
            && event.payment in s.db.payments && event.payment in s.origins && s.origins[event.payment].op.CreatePayment?
            && event.payload.PaymentBody? && event.payload.id == event.payment
            && var (row, scope, op) := (event.payload.row, s.origins[event.payment].scope, s.origins[event.payment].op);
               && row.project == scope.project && row.environment == op.environment && row.customer == op.customer
               && row.amount == op.amount && row.scenario == op.scenario
               && row.status == Pending && row.failureCode == None
               && row.createdAt == row.updatedAt == event.createdAt == s.db.payments[event.payment].createdAt
  {
    ReachableRecorded(s);
    assert EventRecorded(s.db.events[i], s.db.payments, s.origins);
  }

  /** The refund events carry exactly the committed refunds, in the order in which they were committed. */
  lemma RefundEventsAreTheRefunds(s: State)
    requires Reachable(s)
    ensures RefundPayloads(s.db.events) == s.db.refunds
    ensures forall i :: 0 <= i < |s.db.events| && s.db.events[i].kind == RefundCreated ==> s.db.events[i].payload.RefundBody?
  {
    ReachableRecorded(s);
    forall i | 0 <= i < |s.db.events| && s.db.events[i].kind == RefundCreated
      ensures s.db.events[i].payload.RefundBody?
    {
      assert EventRecorded(s.db.events[i], s.db.payments, s.origins);
    }
  }

  /** Each refund has its audit entry, in the same order, and is of its payment's project and environment. */
  lemma RefundEntriesMatch(s: State, k: nat)
    requires Reachable(s) && k < |s.db.refunds|
    ensures |RefundEntries(s.db.audit)| == |s.db.refunds|
    ensures var (entry, refund) := (RefundEntries(s.db.audit)[k], s.db.refunds[k]);
            && refund.payment in s.db.payments && entry.payment == refund.payment
            && entry.project == refund.project == s.db.payments[refund.payment].project
            && entry.environment == refund.environment == s.db.payments[refund.payment].environment
  {
    ReachableRecorded(s);
  }

  /**
   * What is stored for replay is never invented: the response of every execution is a 201 about a
   * refund or a payment that was committed, of the project and the operation the key belongs to, and
   * it is kept for exactly the retention window from the request's `now`.
   */
  lemma ResponseNamesACommittedEffect(s: State, i: nat, key: Key, record: Record)
    requires Reachable(s) && IsExecution(s.log, i, key, record)
    ensures record.expiresAt == s.log[i].now + s.config.retentionMs
    ensures record.response.Some? && record.response.value.status == 201
    ensures match record.response.value.body
            case RefundBody(refund) => key.scope == RefundsCreate && refund in s.db.refunds && refund.project == key.project
            case PaymentBody(id, row) =>
              && key.scope == PaymentsCreate && id in s.db.payments && row.project == key.project
              && row.amount == s.db.payments[id].amount && row.customer == s.db.payments[id].customer
              && row.environment == s.db.payments[id].environment && row.status == Pending
  {
    ReachableRecorded(s);
    assert OutcomeRecorded(s.log[i], s.config.retentionMs, s.db.payments, s.db.refunds);
  }

  /** So does the answer of every replay: an effect of the project and operation the key belongs to. */
  lemma ReplayNamesACommittedEffect(s: State, n: nat)
    requires Reachable(s) && n < |s.log| && s.log[n].Replayed?
    ensures s.log[n].found.response.Some?
    ensures match s.log[n].found.response.value.body
            case RefundBody(refund) => s.log[n].key.scope == RefundsCreate && refund in s.db.refunds && refund.project == s.log[n].key.project
            case PaymentBody(id, row) => s.log[n].key.scope == PaymentsCreate && id in s.db.payments && row.project == s.log[n].key.project
  {
    var i := ReplayHasAnOrigin(s, n);
    ResponseNamesACommittedEffect(s, i, s.log[n].key, s.log[n].found);
  }
}
