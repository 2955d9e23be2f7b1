/** What every reachable state of the ledger satisfies. */
module LedgerInvariant {
  import opened Common
  import opened PaymentScenarios
  import opened PaymentSimulation
  import opened LedgerState

  // ---------------------------------------------------------------------------------------------
  // Counting
  // ---------------------------------------------------------------------------------------------

  function CountEvents(events: seq<Event>, payment: Id, kind: EventType): nat {
    if |events| == 0 then 0
    else
      var last := events[|events| - 1];
      CountEvents(events[..|events| - 1], payment, kind) + (if last.payment == payment && last.kind == kind then 1 else 0)
  }

  function CountAudit(audit: seq<AuditEntry>, payment: Id, action: EventType): nat {
    if |audit| == 0 then 0
    else
      var last := audit[|audit| - 1];
      CountAudit(audit[..|audit| - 1], payment, action) + (if last.payment == payment && last.action == action then 1 else 0)
  }

  function CountRefunds(refunds: seq<Refund>, payment: Id): nat {
    if |refunds| == 0 then 0
    else CountRefunds(refunds[..|refunds| - 1], payment) + (if refunds[|refunds| - 1].payment == payment then 1 else 0)
  }

  /** What had been refunded once the `i`th refund was in. */
  ghost function RefundedThrough(refunds: seq<Refund>, i: nat, payment: Id): int
    requires i < |refunds|
  {
    SumRefunds(refunds[..i + 1], payment)
  }

  // ---------------------------------------------------------------------------------------------
  // Idempotency records and the log
  // ---------------------------------------------------------------------------------------------

  /** The `i`th completed request executed under `key` and stored `record`. */
  ghost predicate IsExecution(log: seq<Outcome>, i: int, key: Key, record: Record) {
    0 <= i < |log| && log[i].Executed? && log[i].claim == Some((key, record))
  }

  /**
   * A replay of `found` completing at `at`: some execution had stored it when the request read it,
   * it was active when the request captured `now`, and it is the record of every execution that
   * had committed before that read and is still active.
   */
  ghost predicate ReplayOk(log: seq<Outcome>, at: Time, key: Key, found: Record, now: Time, startedAt: nat, foundAt: nat) {
    && found.response.Some? && found.expiresAt > now
    && startedAt <= foundAt <= |log|
    && (exists i :: i < foundAt && IsExecution(log, i, key, found))
    && forall j, r :: IsExecution(log, j, key, r) && j < foundAt && r.expiresAt > at ==> r == found
  }

  ghost predicate LogOk(log: seq<Outcome>, clock: Time) {
    && (forall i, j, key, r, q :: i < j && IsExecution(log, i, key, r) && IsExecution(log, j, key, q) ==> r.expiresAt <= log[j].at)
    && (forall n :: 0 <= n < |log| ==> log[n].at <= clock && log[n].startedAt <= n)
    && (forall i, j :: 0 <= i < j < |log| ==> log[i].at <= log[j].at)
    && (forall n :: 0 <= n < |log| && log[n].Replayed? ==>
          ReplayOk(log[..n], log[n].at, log[n].key, log[n].found, log[n].now, log[n].startedAt, log[n].foundAt))
  }

  /** The table holds the record of every execution until it expires, and nothing else. */
  ghost predicate RecordsOk(records: map<Key, Record>, log: seq<Outcome>, clock: Time) {
    && (forall i, key, r :: IsExecution(log, i, key, r) ==> r.expiresAt <= clock || (key in records && records[key] == r))
    && (forall key :: key in records ==> records[key].response.Some? && exists i :: IsExecution(log, i, key, records[key]))
  }

  // ---------------------------------------------------------------------------------------------
  // Payments and everything attached to them
  // ---------------------------------------------------------------------------------------------

  ghost predicate EventsOk(events: seq<Event>, payment: Id, row: PaymentRow, atomic: bool) {
    && CountEvents(events, payment, Terminal(PaymentSucceeded)) == (if row.status == Succeeded then 1 else 0)
    && CountEvents(events, payment, Terminal(PaymentFailed)) == (if row.status == Failed then 1 else 0)
    && CountEvents(events, payment, Created) <= 1
    && (atomic ==> CountEvents(events, payment, Created) == 1)
    && forall i :: 0 <= i < |events| && events[i].payment == payment ==>
         && (events[i].kind.Terminal? ==> events[i].payload == PaymentBody(payment, row) && events[i].createdAt == row.updatedAt)
         && (events[i].kind == Created ==> events[i].payload.PaymentBody? && SameIdentity(events[i].payload.row, row))
  }

  ghost predicate AuditOk(audit: seq<AuditEntry>, payment: Id, row: PaymentRow, origin: Origin) {
    && CountAudit(audit, payment, Terminal(PaymentSucceeded)) <= (if row.status == Succeeded then 1 else 0)
    && CountAudit(audit, payment, Terminal(PaymentFailed)) <= (if row.status == Failed then 1 else 0)
    && CountAudit(audit, payment, Created) <= 1
    && (origin.atomic ==>
          && CountAudit(audit, payment, Created) == 1
          && CountAudit(audit, payment, Terminal(PaymentSucceeded)) == (if row.status == Succeeded then 1 else 0)
          && CountAudit(audit, payment, Terminal(PaymentFailed)) == (if row.status == Failed then 1 else 0))
    && forall i :: 0 <= i < |audit| && audit[i].payment == payment && audit[i].action != RefundCreated ==> Names(audit[i], row, origin)
  }

  ghost predicate Names(entry: AuditEntry, row: PaymentRow, origin: Origin) {
    && entry.organization == origin.scope.organization && entry.actor == origin.scope.actor
    && entry.project == row.project && entry.environment == row.environment
  }

  ghost predicate RefundsOk(refunds: seq<Refund>, events: seq<Event>, payment: Id, row: PaymentRow) {
    && 0 <= SumRefunds(refunds, payment) <= row.amount
    && CountEvents(events, payment, RefundCreated) == CountRefunds(refunds, payment)
    && forall i :: 0 <= i < |refunds| && refunds[i].payment == payment ==>
         && row.status == Succeeded && refunds[i].amount > 0
         && (refunds[i].full ==> RefundedThrough(refunds, i, payment) == row.amount)
  }

  /** The row alone: on schedule at the time of its last edge, with a code exactly when failed. */
  ghost predicate RowOk(row: PaymentRow, clock: Time, delays: SimulationDelays) {
    && row.amount > 0 && row.createdAt <= clock && row.updatedAt <= clock
    && NotBeyond(row.status, IntentOf(row).scenario, row.createdAt, row.updatedAt, delays)
    && row.failureCode == EdgeCode(IntentOf(row), row.status)
  }

  ghost predicate PaymentOk(db: Db, origins: map<Id, Origin>, clock: Time, delays: SimulationDelays, payment: Id)
    requires payment in db.payments
  {
    && payment in origins
    && var row := db.payments[payment];
       && RowOk(row, clock, delays)
       && EventsOk(db.events, payment, row, origins[payment].atomic)
       && AuditOk(db.audit, payment, row, origins[payment])
       && RefundsOk(db.refunds, db.events, payment, row)
  }

  /** Nothing refers to a payment that is not there. */
  ghost predicate Unused(db: Db, payment: Id) {
    && (forall i :: 0 <= i < |db.events| ==> db.events[i].payment != payment)
    && (forall i :: 0 <= i < |db.audit| ==> db.audit[i].payment != payment)
    && (forall i :: 0 <= i < |db.refunds| ==> db.refunds[i].payment != payment)
  }

  ghost predicate DbOk(db: Db, origins: map<Id, Origin>, clock: Time, delays: SimulationDelays) {
    && (forall p :: p in db.payments ==> PaymentOk(db, origins, clock, delays, p))
    && (forall p :: p !in db.payments ==> Unused(db, p))
  }

  // ---------------------------------------------------------------------------------------------
  // Transactions in flight
  // ---------------------------------------------------------------------------------------------

  ghost predicate ClaimOk(records: map<Key, Record>, t: RequestTx, retentionMs: nat) {
    && (forall k :: k in t.del ==> k in records && records[k].id == t.del[k] && records[k].expiresAt <= t.now)
    && (t.claim.Some? ==>
          && t.key.Some? && t.claim.value.expiresAt == t.now + retentionMs
          && (t.key.value in records ==> t.key.value in t.del))
    && match t.pc
       case ClaimInsert(_) => t.claim == None && t.w == NO_WRITES
       case ClaimFind(_) => t.claim == None && t.w == NO_WRITES
       case ClaimDelete(_, _) => t.claim == None && t.w == NO_WRITES
       case Replaying(_, _) => t.claim == None && t.w == NO_WRITES
       case Pruning(_) => t.key.Some? && t.claim.Some? && t.claim.value.response.Some?
       case Done => t.key.Some? ==> t.claim.Some? && t.claim.value.response.Some?
       case _ => t.key.Some? ==> t.claim.Some?
  }

  ghost predicate IsNewRow(row: PaymentRow, clock: Time) {
    && row.status == Pending && row.failureCode == None && row.amount > 0
    && row.createdAt == row.updatedAt <= clock
  }

  predicate BeforeRun(pc: Pc) {
    pc.ClaimInsert? || pc.ClaimFind? || pc.ClaimDelete? || pc.Replaying?
  }

  predicate Mutated(pc: Pc) {
    pc.RowWritten? || pc.EventWritten? || pc.Audited? || pc.Pruning? || pc.Done?
  }

  /** What a payment create has buffered so far. */
  ghost predicate CreateOk(db: Db, t: RequestTx, clock: Time)
    requires t.op.CreatePayment?
  {
    if Mutated(t.pc) then
      && t.w.inserted.Some?
      && var (id, row) := t.w.inserted.value;
         && id !in db.payments && IsNewRow(row, clock)
         && t.w == Writes(None, t.w.inserted, None, None,
                          if t.pc.RowWritten? then None else Some(CreatedEvent(id, row)),
                          if t.pc.RowWritten? || t.pc.EventWritten? then None else Some(CreatedEntry(t.scope, id, row)))
    else
      BeforeRun(t.pc) || (t.pc.Running? && t.w == NO_WRITES)
  }

  /** What a refund has learnt and buffered so far; the row lock keeps it true. */
  ghost predicate RefundOk(db: Db, t: RequestTx)
    requires t.op.CreateRefund?
  {
    var p := t.op.paymentId;
    if Mutated(t.pc) then
      && p in db.payments && db.payments[p].status == Succeeded
      && t.w.refund.Some?
      && var refund := t.w.refund.value;
         && refund.payment == p
         && 0 < refund.amount <= db.payments[p].amount - SumRefunds(db.refunds, p)
         && (refund.full ==> refund.amount == db.payments[p].amount - SumRefunds(db.refunds, p))
         && t.w == Writes(Some(p), None, None, t.w.refund, t.w.event, t.w.audit)
         && (t.w.event.Some? <==> !t.pc.RowWritten?)
         && (t.w.event.Some? ==> t.w.event.value.kind == RefundCreated && t.w.event.value.payment == p)
         && (t.w.audit.Some? <==> !t.pc.RowWritten? && !t.pc.EventWritten?)
         && (t.w.audit.Some? ==> t.w.audit.value.action == RefundCreated && t.w.audit.value.payment == p)
    else if BeforeRun(t.pc) then true
    else if t.pc.Running? then t.w == NO_WRITES
    else
      && p in db.payments && t.w == NO_WRITES.(lock := Some(p))
      && (t.pc.PaymentRead? ==> db.payments[p] == t.pc.row && t.pc.row.status == Succeeded)
      && (t.pc.Checked? ==> db.payments[p] == t.pc.row && t.pc.row.status == Succeeded
                            && 0 < t.pc.remaining == t.pc.row.amount - SumRefunds(db.refunds, p))
  }

  ghost predicate RequestOk(s: State, t: RequestTx) {
    && t.now <= s.clock && t.startedAt <= |s.log|
    && ClaimOk(s.db.records, t, s.config.retentionMs)
    && (t.pc.Replaying? ==> t.key.Some? && ReplayOk(s.log, s.clock, t.key.value, t.pc.found, t.now, t.startedAt, t.pc.foundAt))
    && (t.op.CreatePayment? ==> t.op.amount > 0 && t.key.Some? && CreateOk(s.db, t, s.clock))
    && (t.op.CreateRefund? ==> RefundOk(s.db, t))
  }

  ghost predicate EdgeOk(db: Db, origins: map<Id, Origin>, clock: Time, delays: SimulationDelays, t: EdgeTx) {
    && t.now <= clock && t.payment in db.payments && t.payment in origins
    && SameIdentity(t.current, db.payments[t.payment])
    && ScheduledTransition(t.transition.from, t.current.createdAt, t.now, delays, IntentOf(t.current).scenario) == Some(t.transition)
    && (t.pc.Running? || t.pc.RowWritten? || t.pc.EventWritten? || t.pc.Done?)
    && (t.pc.Running? ==> t.w == NO_WRITES)
    && (t.pc.RowWritten? ==> EdgeWrote(db, t) && t.w.event == None && t.w.audit == None)
    && (t.pc.EventWritten? ==> t.transition.event.Some? && EdgeWrote(db, t) && t.w.event == Some(TerminalEventOf(t)) && t.w.audit == None)
    && (t.pc.Done? && t.w != NO_WRITES ==>
          && EdgeWrote(db, t)
          && (t.transition.event == None ==> t.w.event == None && t.w.audit == None)
          && (t.transition.event.Some? ==> t.w.event == Some(TerminalEventOf(t)) && EntryOk(t, origins[t.payment])))
  }

  ghost function EdgeRow(row: PaymentRow, t: EdgeTx): PaymentRow {
    AfterEdge(row, t.transition.to, EdgeCode(IntentOf(t.current), t.transition.to), t.now)
  }

  ghost function TerminalEventOf(t: EdgeTx): Event
    requires t.transition.event.Some?
  {
    Event(Terminal(t.transition.event.value), t.payment, PaymentBody(t.payment, EdgeRow(t.current, t)), t.now)
  }

  ghost predicate EdgeWrote(db: Db, t: EdgeTx)
    requires t.payment in db.payments
  {
    && db.payments[t.payment].status == t.transition.from
    && t.w.lock == Some(t.payment) && t.w.inserted == None && t.w.refund == None
    && t.w.updated == Some(EdgeRow(db.payments[t.payment], t))
  }

  ghost predicate EntryOk(t: EdgeTx, origin: Origin)
    requires t.transition.event.Some?
  {
    && (origin.atomic ==> t.w.audit.Some?)
    && (t.w.audit.Some? ==>
          && t.w.audit.value.action == Terminal(t.transition.event.value) && t.w.audit.value.payment == t.payment
          && Names(t.w.audit.value, t.current, origin))
  }

  ghost predicate DirectOk(db: Db, origins: map<Id, Origin>, clock: Time, t: DirectTx) {
    && t.op.CreatePayment? && t.op.amount > 0
    && (t.pc.Running? || t.pc.RowWritten? || t.pc.EventWritten?)
    && (t.pc.Running? ==> t.row == None)
    && (!t.pc.Running? ==>
          && t.row.Some?
          && var (id, row) := t.row.value;
             && id in db.payments && id in origins
             && origins[id] == Origin(false, t.scope, t.op)
             && IsNewRow(row, clock) && SameIdentity(row, db.payments[id])
             && CountEvents(db.events, id, Created) == (if t.pc.RowWritten? then 0 else 1)
             && CountAudit(db.audit, id, Created) == 0)
  }

  ghost predicate TxOk(s: State, t: Tx) {
    match t
    case Request(r) => RequestOk(s, r)
    case Edge(e) => EdgeOk(s.db, s.origins, s.clock, s.config.delays, e)
    case Direct(d) => DirectOk(s.db, s.origins, s.clock, d)
  }

  function DirectId(t: Tx): Option<Id> {
    if t.Direct? && t.d.row.Some? then Some(t.d.row.value.0) else None
  }

  /** Two transactions never hold the same row or the same index entry. */
  ghost predicate Apart(a: Tx, b: Tx) {
    && (LockOf(a).Some? ==> LockOf(a) != LockOf(b))
    && (InsertedId(a).Some? ==> InsertedId(a) != InsertedId(b))
    && (DirectId(a).Some? ==> DirectId(a) != DirectId(b))
    && (ClaimedKey(a).Some? ==> ClaimedKey(a) != ClaimedKey(b))
    && DeletedKeys(a) !! DeletedKeys(b)
  }

  ghost predicate TxsOk(s: State) {
    && (forall tid :: tid in s.txs ==> TxOk(s, s.txs[tid]))
    && (forall a, b :: a in s.txs && b in s.txs && a != b ==> Apart(s.txs[a], s.txs[b]))
  }

  ghost predicate Inv(s: State) {
    && s.config.retentionMs > 0
    && LogOk(s.log, s.clock)
    && RecordsOk(s.db.records, s.log, s.clock)
    && DbOk(s.db, s.origins, s.clock, s.config.delays)
    && TxsOk(s)
  }

  lemma InitInv(s: State)
    requires Init(s)
    ensures Inv(s)
  {
  }
}
