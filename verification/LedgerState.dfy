/**
 * The transactional ledger as a transition system: one database, any number of transactions in
 * flight, every interleaving of their statements.
 *
 * A transaction's effects stay in its own `Tx` value until it commits, so other transactions read
 * committed data only (READ COMMITTED). Row locks and uncommitted index entries are what those
 * buffered effects imply: a statement that would have to wait for another transaction is simply
 * not enabled. Any transaction may roll back at any moment; that covers a failed check, a
 * time-out, a deadlock victim and a crash.
 */
module LedgerState {
  import opened Common
  import opened PaymentScenarios
  import opened PaymentSimulation

  // ---------------------------------------------------------------------------------------------
  // Rows
  // ---------------------------------------------------------------------------------------------

  datatype OperationScope = PaymentsCreate | RefundsCreate

  /** The compound unique index of `idempotency_records`. */
  datatype Key = Key(project: Id, scope: OperationScope, text: string)

  datatype Response = Response(status: int, body: Body)

  datatype Record = Record(id: Id, response: Option<Response>, expiresAt: Time)

  datatype PaymentRow = PaymentRow(
    project: Id, environment: string, customer: Id, amount: nat, status: PaymentStatus,
    failureCode: Option<string>, scenario: Option<string>, createdAt: Time, updatedAt: Time)

  /**
   * `full` remembers that the request named no amount; `project` and `environment` are the
   * payment's, as the response projection repeats them.
   */
  datatype Refund = Refund(id: Id, payment: Id, amount: int, full: bool, project: Id, environment: string)

  /** The response projections, also the payloads of events. */
  datatype Body = PaymentBody(id: Id, row: PaymentRow) | RefundBody(refund: Refund)

  datatype EventType = Created | Terminal(kind: TerminalEvent) | RefundCreated

  datatype Event = Event(kind: EventType, payment: Id, payload: Body, createdAt: Time)

  datatype AuditEntry = AuditEntry(
    action: EventType, organization: Id, actor: Id, project: Id, environment: string, payment: Id)

  /** `events` and `audit` list everything ever persisted, in commit order. */
  datatype Db = Db(
    records: map<Key, Record>, payments: map<Id, PaymentRow>, refunds: seq<Refund>,
    events: seq<Event>, audit: seq<AuditEntry>)

  // ---------------------------------------------------------------------------------------------
  // Transactions
  // ---------------------------------------------------------------------------------------------

  /** What the guard resolved for the request. */
  datatype Scope = Scope(project: Id, organization: Id, actor: Id, environment: Option<string>)

  datatype Operation =
    | CreatePayment(environment: string, customer: Id, amount: nat, scenario: Option<string>)
    | CreateRefund(paymentId: Id, refundAmount: Option<int>)

  datatype Pc =
    | ClaimInsert(attempt: nat)
    | ClaimFind(attempt: nat)
    | ClaimDelete(attempt: nat, victim: Record)
    | Replaying(found: Record, foundAt: nat)
    | Running
    | Locked
    | PaymentRead(row: PaymentRow)
    | Checked(row: PaymentRow, remaining: int)
    | RowWritten
    | EventWritten
    | Audited
    | Pruning(todo: map<Key, Id>)
    | Done

  /** Buffered writes. `lock` is the payment row held by FOR UPDATE or by an update. */
  datatype Writes = Writes(
    lock: Option<Id>, inserted: Option<(Id, PaymentRow)>, updated: Option<PaymentRow>,
    refund: Option<Refund>, event: Option<Event>, audit: Option<AuditEntry>)

  const NO_WRITES := Writes(None, None, None, None, None, None)

  /**
   * A create or refund inside a transaction, keyed or not. `del` are the idempotency rows it has
   * deleted, `claim` the one it has inserted; `startedAt` is the length of the log when it began.
   */
  datatype RequestTx = RequestTx(
    scope: Scope, key: Option<Key>, now: Time, startedAt: nat, op: Operation, pc: Pc,
    del: map<Key, Id>, claim: Option<Record>, w: Writes)

  /** One compare-and-set edge, working from the possibly stale row `current`. */
  datatype EdgeTx = EdgeTx(
    payment: Id, current: PaymentRow, now: Time, transition: Transition, pc: Pc, w: Writes)

  /**
   * A payment create without a key runs outside any transaction: every statement commits by
   * itself, and `row` is what the first one inserted.
   */
  datatype DirectTx = DirectTx(scope: Scope, op: Operation, pc: Pc, row: Option<(Id, PaymentRow)>)

  datatype Tx = Request(r: RequestTx) | Edge(e: EdgeTx) | Direct(d: DirectTx)

  /** The request that created a payment, and whether it ran in one transaction. History only. */
  datatype Origin = Origin(atomic: bool, scope: Scope, op: Operation)

  /**
   * One completed request. History only. `now` is the time it captured, `startedAt` the log length
   * when it began, `foundAt` the length when a replay read its record.
   */
  datatype Outcome =
    | Executed(claim: Option<(Key, Record)>, now: Time, startedAt: nat, at: Time)
    | Replayed(key: Key, found: Record, now: Time, startedAt: nat, foundAt: nat, at: Time)

  datatype Config = Config(retentionMs: nat, delays: SimulationDelays)

  datatype State = State(
    config: Config, clock: Time, db: Db, txs: map<Id, Tx>, log: seq<Outcome>, origins: map<Id, Origin>)

  const MAX_CLAIM_ATTEMPTS: nat := 3
  const MAX_BIGINT: int := 9223372036854775807
  const CREATED: int := 201

  ghost predicate Init(s: State) {
    && s.config.retentionMs > 0
    && s.db == Db(map[], map[], [], [], [])
    && s.txs == map[] && s.log == [] && s.origins == map[]
  }

  // ---------------------------------------------------------------------------------------------
  // Locks
  // ---------------------------------------------------------------------------------------------

  /** The payment row a transaction holds. */
  function LockOf(t: Tx): Option<Id> {
    match t
    case Request(r) => r.w.lock
    case Edge(e) => e.w.lock
    case Direct(_) => None
  }

  /** The primary key of a payment inserted but not committed. */
  function InsertedId(t: Tx): Option<Id> {
    if t.Request? && t.r.w.inserted.Some? then Some(t.r.w.inserted.value.0) else None
  }

  /** The idempotency key inserted but not committed. */
  function ClaimedKey(t: Tx): Option<Key> {
    if t.Request? && t.r.claim.Some? then t.r.key else None
  }

  function DeletedKeys(t: Tx): set<Key> {
    if t.Request? then t.r.del.Keys else {}
  }

  predicate PaymentFree(txs: map<Id, Tx>, tid: Id, payment: Id) {
    forall other :: other in txs && other != tid ==> LockOf(txs[other]) != Some(payment)
  }

  predicate IdFree(s: State, tid: Id, payment: Id) {
    && payment !in s.db.payments
    && forall other :: other in s.txs && other != tid ==> InsertedId(s.txs[other]) != Some(payment)
  }

  predicate KeyUnclaimed(txs: map<Id, Tx>, tid: Id, key: Key) {
    forall other :: other in txs && other != tid ==> ClaimedKey(txs[other]) != Some(key)
  }

  predicate RecordFree(txs: map<Id, Tx>, tid: Id, key: Key) {
    forall other :: other in txs && other != tid ==> key !in DeletedKeys(txs[other])
  }

  /** The committed idempotency row this transaction still sees under `key`. */
  function VisibleRecord(db: Db, t: RequestTx, key: Key): Option<Record> {
    if key in db.records && key !in t.del then Some(db.records[key]) else None
  }

  // ---------------------------------------------------------------------------------------------
  // The claim (idempotency.service.ts)
  // ---------------------------------------------------------------------------------------------

  /** INSERT … ON CONFLICT DO NOTHING. An uncommitted rival insert makes it wait. */
  ghost predicate InsertClaim(s: State, tid: Id, t: RequestTx, t': RequestTx) {
    && t.pc.ClaimInsert? && t.key.Some?
    && t.pc.attempt < MAX_CLAIM_ATTEMPTS
    && KeyUnclaimed(s.txs, tid, t.key.value)
    && match VisibleRecord(s.db, t, t.key.value)
       case Some(_) => t' == t.(pc := ClaimFind(t.pc.attempt))
       case None =>
         && t'.claim.Some?
         && t' == t.(pc := Running, claim := Some(Record(t'.claim.value.id, None, t.now + s.config.retentionMs)))
  }

  /** Reads the conflicting record: gone, still active, or expired. */
  ghost predicate FindRecord(s: State, tid: Id, t: RequestTx, t': RequestTx) {
    && t.pc.ClaimFind? && t.key.Some?
    && match VisibleRecord(s.db, t, t.key.value)
       case None => t' == t.(pc := ClaimInsert(t.pc.attempt + 1))
       case Some(record) =>
         if record.expiresAt > t.now then t' == t.(pc := Replaying(record, |s.log|))
         else t' == t.(pc := ClaimDelete(t.pc.attempt, record))
  }

  /** DELETE … WHERE id = ? AND expires_at <= now. Waits while another transaction holds the row. */
  ghost predicate DeleteExpired(s: State, tid: Id, t: RequestTx, t': RequestTx) {
    && t.pc.ClaimDelete? && t.key.Some?
    && var key := t.key.value;
       match VisibleRecord(s.db, t, key)
       case Some(record) =>
         if record.id == t.pc.victim.id && record.expiresAt <= t.now then
           && RecordFree(s.txs, tid, key)
           && t' == t.(pc := ClaimInsert(t.pc.attempt + 1), del := t.del[key := record.id])
         else t' == t.(pc := ClaimInsert(t.pc.attempt + 1))
       case None => t' == t.(pc := ClaimInsert(t.pc.attempt + 1))
  }

  /** After the mutation: the response is stored in the claimed row, then the prune reads its rows. */
  ghost predicate StoreResponse(s: State, tid: Id, t: RequestTx, t': RequestTx) {
    && t.pc.Audited? && t.key.Some? && t.claim.Some?
    && (t.op.CreatePayment? ==> t.w.inserted.Some?)
    && (t.op.CreateRefund? ==> t.w.refund.Some?)
    && var body := if t.op.CreatePayment? then PaymentBody(t.w.inserted.value.0, t.w.inserted.value.1)
                   else RefundBody(t.w.refund.value);
       var todo := map k | k in s.db.records && k !in t.del
                           && k.project == t.key.value.project && k.scope == t.key.value.scope
                           && s.db.records[k].expiresAt <= t.now :: s.db.records[k].id;
       t' == t.(pc := Pruning(todo), claim := Some(t.claim.value.(response := Some(Response(CREATED, body)))))
  }

  /** The prune deletes row by row; each row is locked, re-checked and deleted if still there. */
  ghost predicate PruneRow(s: State, tid: Id, t: RequestTx, t': RequestTx) {
    && t.pc.Pruning?
    && exists key :: key in t.pc.todo && PruneKey(s, tid, t, key, t')
  }

  ghost predicate PruneKey(s: State, tid: Id, t: RequestTx, key: Key, t': RequestTx)
    requires t.pc.Pruning? && key in t.pc.todo
  {
    && RecordFree(s.txs, tid, key)
    && var rest := t.(pc := Pruning(t.pc.todo - {key}));
       if key in s.db.records && key !in t.del && s.db.records[key].id == t.pc.todo[key]
          && s.db.records[key].expiresAt <= t.now
       then t' == rest.(del := t.del[key := t.pc.todo[key]])
       else t' == rest
  }

  ghost predicate EndPrune(s: State, tid: Id, t: RequestTx, t': RequestTx) {
    && t.pc.Pruning? && t.pc.todo == map[] && t' == t.(pc := Done)
  }

  /** Without a key the mutation is the whole transaction. */
  ghost predicate EndKeyless(s: State, tid: Id, t: RequestTx, t': RequestTx) {
    && t.pc.Audited? && t.key.None? && t' == t.(pc := Done)
  }

  // ---------------------------------------------------------------------------------------------
  // Creating a payment (payments.service.ts, `create`)
  // ---------------------------------------------------------------------------------------------

  function NewPayment(scope: Scope, op: Operation, now: Time): PaymentRow
    requires op.CreatePayment?
  {
    PaymentRow(scope.project, op.environment, op.customer, op.amount, Pending, None, op.scenario, now, now)
  }

  function CreatedEvent(id: Id, row: PaymentRow): Event {
    Event(Created, id, PaymentBody(id, row), row.createdAt)
  }

  function CreatedEntry(scope: Scope, id: Id, row: PaymentRow): AuditEntry {
    AuditEntry(Created, scope.organization, scope.actor, row.project, row.environment, id)
  }

  ghost predicate InsertPayment(s: State, tid: Id, t: RequestTx, t': RequestTx) {
    && t.pc.Running? && t.op.CreatePayment?
    && t'.w.inserted.Some?
    && var id := t'.w.inserted.value.0;
       && IdFree(s, tid, id)
       && t' == t.(pc := RowWritten, w := t.w.(inserted := Some((id, NewPayment(t.scope, t.op, s.clock)))))
  }

  ghost predicate PersistCreated(s: State, tid: Id, t: RequestTx, t': RequestTx) {
    && t.pc.RowWritten? && t.op.CreatePayment? && t.w.inserted.Some?
    && t' == t.(pc := EventWritten,
                w := t.w.(event := Some(CreatedEvent(t.w.inserted.value.0, t.w.inserted.value.1))))
  }

  ghost predicate AuditCreated(s: State, tid: Id, t: RequestTx, t': RequestTx) {
    && t.pc.EventWritten? && t.op.CreatePayment? && t.w.inserted.Some?
    && t' == t.(pc := Audited,
                w := t.w.(audit := Some(CreatedEntry(t.scope, t.w.inserted.value.0, t.w.inserted.value.1))))
  }

  // ---------------------------------------------------------------------------------------------
  // Creating a refund (refunds.service.ts, `createInTransaction`)
  // ---------------------------------------------------------------------------------------------

  /** SELECT … FOR UPDATE on the payment row; an unknown payment leaves only the rollback. */
  ghost predicate LockPayment(s: State, tid: Id, t: RequestTx, t': RequestTx) {
    && t.pc.Running? && t.op.CreateRefund?
    && t.op.paymentId in s.db.payments
    && PaymentFree(s.txs, tid, t.op.paymentId)
    && t' == t.(pc := Locked, w := t.w.(lock := Some(t.op.paymentId)))
  }

  /** Reads the payment in the caller's scope; only a succeeded one passes. */
  ghost predicate ReadPayment(s: State, tid: Id, t: RequestTx, t': RequestTx) {
    && t.pc.Locked? && t.op.CreateRefund?
    && t.op.paymentId in s.db.payments
    && var row := s.db.payments[t.op.paymentId];
       && row.project == t.scope.project
       && (t.scope.environment.Some? ==> row.environment == t.scope.environment.value)
       && row.status == Succeeded
       && t' == t.(pc := PaymentRead(row))
  }

  function SumRefunds(refunds: seq<Refund>, payment: Id): int {
    if |refunds| == 0 then 0
    else
      var last := refunds[|refunds| - 1];
      SumRefunds(refunds[..|refunds| - 1], payment) + (if last.payment == payment then last.amount else 0)
  }

  /** Aggregates the committed refunds. */
  ghost predicate ReadBalance(s: State, tid: Id, t: RequestTx, t': RequestTx) {
    && t.pc.PaymentRead? && t.op.CreateRefund?
    && var remaining := t.pc.row.amount - SumRefunds(s.db.refunds, t.op.paymentId);
       && remaining > 0
       && t' == t.(pc := Checked(t.pc.row, remaining))
  }

  /** Inserts the refund when the amount fits; `parseAmountMinor` only yields positive amounts. */
  ghost predicate InsertRefund(s: State, tid: Id, t: RequestTx, t': RequestTx) {
    && t.pc.Checked? && t.op.CreateRefund?
    && var amount := if t.op.refundAmount.None? then t.pc.remaining else t.op.refundAmount.value;
       && (t.op.refundAmount.Some? ==> amount > 0)
       && amount <= t.pc.remaining && amount <= MAX_BIGINT
       && t'.w.refund.Some?
       && t' == t.(pc := RowWritten, w := t.w.(refund := Some(
                     Refund(t'.w.refund.value.id, t.op.paymentId, amount, t.op.refundAmount.None?,
                            t.pc.row.project, t.pc.row.environment))))
  }

  ghost predicate PersistRefundEvent(s: State, tid: Id, t: RequestTx, t': RequestTx) {
    && t.pc.RowWritten? && t.op.CreateRefund? && t.w.refund.Some?
    && t' == t.(pc := EventWritten,
                w := t.w.(event := Some(Event(RefundCreated, t.op.paymentId, RefundBody(t.w.refund.value), s.clock))))
  }

  ghost predicate AuditRefund(s: State, tid: Id, t: RequestTx, t': RequestTx) {
    && t.pc.EventWritten? && t.op.CreateRefund?
    && t.w.refund.Some?
    && t' == t.(pc := Audited,
                w := t.w.(audit := Some(AuditEntry(RefundCreated, t.scope.organization, t.scope.actor,
                  t.scope.project, t.w.refund.value.environment, t.op.paymentId))))
  }

  // ---------------------------------------------------------------------------------------------
  // Applying one edge (payments.service.ts, `applyEdge`)
  // ---------------------------------------------------------------------------------------------

  function IntentOf(row: PaymentRow): Intent {
    ParseSimulationScenario(row.scenario)
  }

  /** The code one edge writes: only the failing edge carries one. */
  function EdgeCode(intent: Intent, to: PaymentStatus): Option<string> {
    if to != Failed then None
    else if intent.failureCode.Some? then intent.failureCode
    else Some(DEFAULT_FAILURE_CODE)
  }

  /** `row` after the edge, as the update writes it and as the event describes it. */
  function AfterEdge(row: PaymentRow, to: PaymentStatus, code: Option<string>, now: Time): PaymentRow {
    row.(status := to, failureCode := code, updatedAt := now)
  }

  /** The columns no edge touches. */
  ghost predicate SameIdentity(a: PaymentRow, b: PaymentRow) {
    && a.project == b.project && a.environment == b.environment && a.customer == b.customer
    && a.amount == b.amount && a.scenario == b.scenario && a.createdAt == b.createdAt
  }

  /** UPDATE … WHERE id = ? AND status = from: wins and holds the row, or finds it moved on. */
  ghost predicate CompareAndSet(s: State, tid: Id, t: EdgeTx, t': EdgeTx) {
    && t.pc.Running?
    && t.payment in s.db.payments
    && var row := s.db.payments[t.payment];
       if row.status == t.transition.from then
         && PaymentFree(s.txs, tid, t.payment)
         && t' == t.(pc := RowWritten, w := t.w.(lock := Some(t.payment),
              updated := Some(AfterEdge(row, t.transition.to, EdgeCode(IntentOf(t.current), t.transition.to), t.now))))
       else t' == t.(pc := Done)
  }

  /** Only a terminal edge has an event; its payload is built from the caller's snapshot. */
  ghost predicate PersistTerminal(s: State, tid: Id, t: EdgeTx, t': EdgeTx) {
    && t.pc.RowWritten?
    && match t.transition.event
       case None => t' == t.(pc := Done)
       case Some(kind) =>
         var updated := AfterEdge(t.current, t.transition.to, EdgeCode(IntentOf(t.current), t.transition.to), t.now);
         t' == t.(pc := EventWritten,
                  w := t.w.(event := Some(Event(Terminal(kind), t.payment, PaymentBody(t.payment, updated), t.now))))
  }

  /** The oldest `payment.created` entry of the payment in its own project and environment. */
  function FirstCreated(audit: seq<AuditEntry>, payment: Id, project: Id, environment: string): Option<AuditEntry> {
    if |audit| == 0 then None
    else if audit[0].action == Created && audit[0].payment == payment && audit[0].project == project
            && audit[0].environment == environment then Some(audit[0])
    else FirstCreated(audit[1..], payment, project, environment)
  }

  /** Attributes the edge to the payment's creator, or writes nothing when there is no such entry. */
  ghost predicate AuditTerminal(s: State, tid: Id, t: EdgeTx, t': EdgeTx) {
    && t.pc.EventWritten? && t.transition.event.Some?
    && match FirstCreated(s.db.audit, t.payment, t.current.project, t.current.environment)
       case None => t' == t.(pc := Done)
       case Some(origin) =>
         t' == t.(pc := Done, w := t.w.(audit := Some(AuditEntry(Terminal(t.transition.event.value),
           origin.organization, origin.actor, t.current.project, t.current.environment, t.payment))))
  }

  // ---------------------------------------------------------------------------------------------
  // Steps
  // ---------------------------------------------------------------------------------------------

  ghost predicate ClaimStatement(s: State, tid: Id, t: RequestTx, t': RequestTx) {
    || InsertClaim(s, tid, t, t') || FindRecord(s, tid, t, t') || DeleteExpired(s, tid, t, t')
    || StoreResponse(s, tid, t, t') || PruneRow(s, tid, t, t') || EndPrune(s, tid, t, t')
    || EndKeyless(s, tid, t, t')
  }

  ghost predicate PaymentStatement(s: State, tid: Id, t: RequestTx, t': RequestTx) {
    InsertPayment(s, tid, t, t') || PersistCreated(s, tid, t, t') || AuditCreated(s, tid, t, t')
  }

  ghost predicate RefundStatement(s: State, tid: Id, t: RequestTx, t': RequestTx) {
    || LockPayment(s, tid, t, t') || ReadPayment(s, tid, t, t') || ReadBalance(s, tid, t, t')
    || InsertRefund(s, tid, t, t') || PersistRefundEvent(s, tid, t, t') || AuditRefund(s, tid, t, t')
  }

  ghost predicate EdgeStatement(s: State, tid: Id, t: EdgeTx, t': EdgeTx) {
    CompareAndSet(s, tid, t, t') || PersistTerminal(s, tid, t, t') || AuditTerminal(s, tid, t, t')
  }

  /** One statement of one transaction: only its own buffer changes. */
  ghost predicate Statement(s: State, tid: Id, t: Tx, t': Tx) {
    || (t.Request? && t'.Request?
        && (ClaimStatement(s, tid, t.r, t'.r) || PaymentStatement(s, tid, t.r, t'.r) || RefundStatement(s, tid, t.r, t'.r)))
    || (t.Edge? && t'.Edge? && EdgeStatement(s, tid, t.e, t'.e))
  }

  /** A refund is transactional even without a key; a payment create is only with one. */
  ghost predicate BeginsRequest(s: State, t: RequestTx) {
    && t.now <= s.clock && t.startedAt == |s.log|
    && t.del == map[] && t.claim == None && t.w == NO_WRITES
    && (t.op.CreatePayment? ==> t.key.Some? && t.op.amount > 0)
    && (t.key.Some? ==> t.key.value.project == t.scope.project
                        && t.key.value.scope == if t.op.CreatePayment? then PaymentsCreate else RefundsCreate)
    && t.pc == if t.key.Some? then ClaimInsert(0) else Running
  }

  /** A read or the sweep found a due edge on a row it has loaded; the row's status may be stale. */
  ghost predicate BeginsEdge(s: State, t: EdgeTx) {
    && t.now <= s.clock
    && t.payment in s.db.payments && SameIdentity(t.current, s.db.payments[t.payment])
    && ScheduledTransition(t.current.status, t.current.createdAt, t.now, s.config.delays,
                           IntentOf(t.current).scenario) == Some(t.transition)
    && t.pc == Running && t.w == NO_WRITES
  }

  ghost predicate BeginsDirect(t: DirectTx) {
    && t.op.CreatePayment? && t.op.amount > 0 && t.pc == Running && t.row == None
  }

  ghost predicate Begin(s: State, tid: Id, s': State) {
    && tid !in s.txs
    && tid in s'.txs
    && var t := s'.txs[tid];
       && ((t.Request? && BeginsRequest(s, t.r)) || (t.Edge? && BeginsEdge(s, t.e)) || (t.Direct? && BeginsDirect(t.d)))
       && s' == s.(txs := s.txs[tid := t])
  }

  ghost predicate Local(s: State, tid: Id, s': State) {
    && tid in s.txs && tid in s'.txs
    && Statement(s, tid, s.txs[tid], s'.txs[tid])
    && s' == s.(txs := s.txs[tid := s'.txs[tid]])
  }

  /** A half-written record would be a 409; a refund's record must be about the same refund target. */
  predicate ReplayAnswers(t: RequestTx, found: Record) {
    && found.response.Some?
    && (t.op.CreateRefund? ==>
          && found.response.value.body.RefundBody?
          && var refund := found.response.value.body.refund;
             && refund.payment == t.op.paymentId && refund.project == t.scope.project
             && (t.scope.environment.Some? ==> refund.environment == t.scope.environment.value))
  }

  predicate ReadyToCommit(t: Tx) {
    match t
    case Request(r) => r.pc.Done? || (r.pc.Replaying? && r.key.Some? && ReplayAnswers(r, r.pc.found))
    case Edge(e) => e.pc.Done?
    case Direct(_) => false
  }

  function AfterClaims(records: map<Key, Record>, t: RequestTx): map<Key, Record> {
    var kept := map k | k in records && !(k in t.del && records[k].id == t.del[k]) :: records[k];
    if t.claim.Some? && t.key.Some? then kept[t.key.value := t.claim.value] else kept
  }

  function AfterPayments(payments: map<Id, PaymentRow>, w: Writes): map<Id, PaymentRow> {
    if w.inserted.Some? then payments[w.inserted.value.0 := w.inserted.value.1]
    else if w.lock.Some? && w.updated.Some? then payments[w.lock.value := w.updated.value]
    else payments
  }

  function Append<T>(items: seq<T>, item: Option<T>): seq<T> {
    if item.Some? then items + [item.value] else items
  }

  function AfterWrites(db: Db, w: Writes): Db {
    Db(db.records, AfterPayments(db.payments, w), Append(db.refunds, w.refund),
       Append(db.events, w.event), Append(db.audit, w.audit))
  }

  function OutcomeOf(t: RequestTx, clock: Time): Outcome
    requires t.pc.Replaying? ==> t.key.Some?
  {
    if t.pc.Replaying? then Replayed(t.key.value, t.pc.found, t.now, t.startedAt, t.pc.foundAt, clock)
    else Executed(if t.key.Some? && t.claim.Some? then Some((t.key.value, t.claim.value)) else None, t.now, t.startedAt, clock)
  }

  function AfterOrigins(origins: map<Id, Origin>, t: RequestTx): map<Id, Origin> {
    if t.w.inserted.Some?
    then origins[t.w.inserted.value.0 := Origin(true, t.scope, t.op)]
    else origins
  }

  /** Everything buffered becomes visible at once. A replay writes nothing but its log entry. */
  ghost predicate Commit(s: State, tid: Id, s': State) {
    && tid in s.txs && ReadyToCommit(s.txs[tid])
    && match s.txs[tid]
       case Request(r) =>
         s' == s.(db := AfterWrites(s.db, r.w).(records := AfterClaims(s.db.records, r)),
                  txs := s.txs - {tid}, log := s.log + [OutcomeOf(r, s.clock)], origins := AfterOrigins(s.origins, r))
       case Edge(e) =>
         s' == s.(db := AfterWrites(s.db, e.w), txs := s.txs - {tid})
       case Direct(_) => false
  }

  /** Rollback: a rejected request, a failed statement, a time-out or a crash. */
  ghost predicate Abort(s: State, tid: Id, s': State) {
    tid in s.txs && s' == s.(txs := s.txs - {tid})
  }

  /** One autocommitted statement of a keyless payment create. */
  ghost predicate DirectStatement(s: State, tid: Id, s': State) {
    && tid in s.txs && s.txs[tid].Direct? && s.txs[tid].d.op.CreatePayment?
    && var t := s.txs[tid].d;
       match t.pc
       case Running =>
         && tid in s'.txs && s'.txs[tid].Direct? && s'.txs[tid].d.row.Some?
         && var id := s'.txs[tid].d.row.value.0;
            var row := NewPayment(t.scope, t.op, s.clock);
            && IdFree(s, tid, id)
            && s' == s.(db := s.db.(payments := s.db.payments[id := row]),
                        txs := s.txs[tid := Direct(t.(pc := RowWritten, row := Some((id, row))))],
                        origins := s.origins[id := Origin(false, t.scope, t.op)])
       case RowWritten =>
         && t.row.Some?
         && s' == s.(db := s.db.(events := s.db.events + [CreatedEvent(t.row.value.0, t.row.value.1)]),
                     txs := s.txs[tid := Direct(t.(pc := EventWritten))])
       case EventWritten =>
         && t.row.Some?
         && s' == s.(db := s.db.(audit := s.db.audit + [CreatedEntry(t.scope, t.row.value.0, t.row.value.1)]),
                     txs := s.txs - {tid})
       case _ => false
  }

  ghost predicate Tick(s: State, s': State) {
    s.clock <= s'.clock && s' == s.(clock := s'.clock)
  }

  ghost predicate StepOf(s: State, tid: Id, s': State) {
    Begin(s, tid, s') || Local(s, tid, s') || Commit(s, tid, s') || Abort(s, tid, s') || DirectStatement(s, tid, s')
  }

  ghost predicate Next(s: State, s': State) {
    Tick(s, s') || exists tid: Id :: StepOf(s, tid, s')
  }

  /** `b` follows from `a` in some number of steps. */
  ghost predicate Runs(a: State, b: State) {
    exists path :: IsPath(path) && path[0] == a && path[|path| - 1] == b
  }

  ghost predicate IsPath(path: seq<State>) {
    |path| > 0 && forall i, j :: 0 <= i && j == i + 1 && j < |path| ==> Next(path[i], path[j])
  }

  /** A run from the empty database. */
  ghost predicate IsRun(run: seq<State>) {
    IsPath(run) && Init(run[0])
  }

  ghost predicate Reachable(s: State) {
    exists run :: IsRun(run) && run[|run| - 1] == s
  }
}
