/**
 * What the calls of the services amount to, said of the states before and after them: under
 * interference, and exactly when a call is alone.
 */
module LedgerCalls {
  import opened Common
  import opened PaymentScenarios
  import opened PaymentSimulation
  import opened LedgerState
  import opened LedgerInvariant
  import opened LedgerCommit
  import opened LedgerRuns
  import opened LedgerTheorems
  import opened Ordering
  import opened PaymentSweep

  /** What a request is told when it fails; `TimedOut` is a lock that was not released in time. */
  datatype Fault = NotFound | RuleViolation | Conflict | TimedOut | InternalError

  datatype ClaimOutcome = Acquired | Existing(record: Record)

  datatype EdgeOutcome = Applied | Lost | RolledBack

  /** Other transactions ran; `tid` is as it was. */
  ghost predicate OthersRan(a: State, b: State, tid: Id) {
    && Runs(a, b) && b.config == a.config && a.clock <= b.clock
    && (tid in a.txs <==> tid in b.txs)
    && (tid in a.txs ==> b.txs[tid] == a.txs[tid])
  }

  /** `tid` is a request that differs from `t` in its progress only. */
  ghost predicate InProgress(s: State, tid: Id, t: RequestTx) {
    && tid in s.txs && s.txs[tid].Request?
    && var r := s.txs[tid].r;
       r.scope == t.scope && r.key == t.key && r.now == t.now && r.startedAt == t.startedAt && r.op == t.op
  }

  /** What the invariant knows of one request. */
  lemma RequestIsOk(s: State, tid: Id)
    requires Reachable(s) && tid in s.txs && s.txs[tid].Request?
    ensures RequestOk(s, s.txs[tid].r)
  {
    ReachableTx(s, tid);
  }

  /** A row somebody read earlier: it may be out of date, but not about who it is. */
  ghost predicate Snapshot(s: State, p: Id, row: PaymentRow) {
    p in s.db.payments && SameIdentity(row, s.db.payments[p])
  }

  ghost predicate Snapshots(s: State, ids: seq<Id>, rows: map<Id, PaymentRow>) {
    forall k :: 0 <= k < |ids| ==> ids[k] in rows && Snapshot(s, ids[k], rows[ids[k]])
  }

  /** What was just read is a snapshot. */
  lemma FreshSnapshots(s: State, ids: seq<Id>)
    requires forall k :: 0 <= k < |ids| ==> ids[k] in s.db.payments
    ensures Snapshots(s, ids, s.db.payments)
  {
  }

  /** A pass alone with the table: the first `i` rows have been advanced, and this many moved. */
  ghost predicate Passed(payments: map<Id, PaymentRow>, rows: map<Id, PaymentRow>, due: seq<Id>, i: nat, now: Time,
                         delays: SimulationDelays, advanced: nat)
    requires i <= |due| && forall k :: 0 <= k < |due| ==> due[k] in rows
  {
    payments == AdvancedRows(rows, due[..i], now, delays) && advanced == Moved(rows, due[..i], now, delays)
  }

  lemma PassBegun(rows: map<Id, PaymentRow>, due: seq<Id>, now: Time, delays: SimulationDelays)
    requires forall k :: 0 <= k < |due| ==> due[k] in rows
    ensures Passed(rows, rows, due, 0, now, delays, 0)
  {
    assert AdvancedRows(rows, [], now, delays) == rows;
  }

  lemma PassEnded(payments: map<Id, PaymentRow>, rows: map<Id, PaymentRow>, due: seq<Id>, now: Time, delays: SimulationDelays, advanced: nat)
    requires (forall k :: 0 <= k < |due| ==> due[k] in rows) && Passed(payments, rows, due, |due|, now, delays, advanced)
    ensures payments == AdvancedRows(rows, due, now, delays) && advanced == Moved(rows, due, now, delays)
  {
    assert due[..|due|] == due;
  }

  /** An undisturbed advance after `step` edges: same destination, and there once no edge is left. */
  ghost predicate OnTheWay(before: map<Id, PaymentRow>, payments: map<Id, PaymentRow>, payment: Id, row: PaymentRow, current: PaymentRow,
                           now: Time, delays: SimulationDelays, step: nat, more: bool)
  {
    && OnSchedule(current, now, delays) && AdvancedRow(current, now, delays) == AdvancedRow(row, now, delays)
    && payments == before[payment := current]
    && (if more then Rank(current.status) >= step else AdvancedRow(current, now, delays) == current)
  }

  /** The row after the edge that is due, if there is one. */
  function OneEdge(row: PaymentRow, now: Time, delays: SimulationDelays): PaymentRow {
    match ScheduledTransition(row.status, row.createdAt, now, delays, IntentOf(row).scenario)
    case None => row
    case Some(t) => AfterEdge(row, t.to, EdgeCode(IntentOf(row), t.to), now)
  }

  /** Two edges, or as many as come before the first that fails. */
  function UpToFault(row: PaymentRow, faults: set<nat>, now: Time, delays: SimulationDelays): PaymentRow {
    if 0 in faults then row
    else if 1 in faults then OneEdge(row, now, delays)
    else OneEdge(OneEdge(row, now, delays), now, delays)
  }

  /** Where an undisturbed advance stands after `step` rounds; without `more` it is done. */
  ghost predicate EdgesTaken(row: PaymentRow, current: PaymentRow, faults: set<nat>, now: Time, delays: SimulationDelays, step: nat, more: bool) {
    && (step == 0 ==> more && current == row)
    && (step == 1 && more ==> 0 !in faults && current == OneEdge(row, now, delays))
    && (step >= 2 || !more ==> current == UpToFault(row, faults, now, delays))
  }

  /** One more round: no edge, one that fails, or one that is applied. */
  lemma NextEdgeTaken(row: PaymentRow, current: PaymentRow, faults: set<nat>, now: Time, delays: SimulationDelays, step: nat)
    requires EdgesTaken(row, current, faults, now, delays, step, true) && step < 2
    ensures var t := ScheduledTransition(current.status, current.createdAt, now, delays, IntentOf(current).scenario);
            && (t.None? || step in faults ==> EdgesTaken(row, current, faults, now, delays, step + 1, false))
            && (t.Some? && step !in faults ==>
                  EdgesTaken(row, AfterEdge(current, t.value.to, EdgeCode(IntentOf(current), t.value.to), now), faults, now, delays, step + 1, true))
  {
  }

  lemma NothingTaken(payments: map<Id, PaymentRow>, payment: Id, row: PaymentRow)
    requires payment in payments
    ensures payments[payment] == row ==> payments[payment := row] == payments
  {
  }

  lemma SetOffOnTheWay(payments: map<Id, PaymentRow>, payment: Id, row: PaymentRow, now: Time, delays: SimulationDelays)
    requires payment in payments && payments[payment] == row && OnSchedule(row, now, delays)
    ensures OnTheWay(payments, payments, payment, row, row, now, delays, 0, true)
  {
    assert payments[payment := row] == payments;
  }

  lemma NextOnTheWay(before: map<Id, PaymentRow>, payments: map<Id, PaymentRow>, after: map<Id, PaymentRow>, payment: Id, row: PaymentRow,
                     current: PaymentRow, now: Time, delays: SimulationDelays, step: nat)
    requires OnTheWay(before, payments, payment, row, current, now, delays, step, true)
    requires SameIdentity(row, current)
    ensures var t := ScheduledTransition(current.status, current.createdAt, now, delays, IntentOf(row).scenario);
            if t.None? then OnTheWay(before, payments, payment, row, current, now, delays, step + 1, false)
            else
              var next := AfterEdge(current, t.value.to, EdgeCode(IntentOf(row), t.value.to), now);
              after == payments[payment := next] ==> OnTheWay(before, after, payment, row, next, now, delays, step + 1, true)
  {
    EdgeKeepsDestination(current, now, delays);
    DueEdgeStaysOnSchedule(current.status, current.createdAt, now, delays, IntentOf(row).scenario);
  }

  /** After two edges there is none left. */
  lemma ArrivedAfterTwo(before: map<Id, PaymentRow>, payments: map<Id, PaymentRow>, payment: Id, row: PaymentRow, current: PaymentRow,
                        now: Time, delays: SimulationDelays, step: nat, more: bool)
    requires OnTheWay(before, payments, payment, row, current, now, delays, step, more) && (step >= 2 || !more)
    ensures current == AdvancedRow(row, now, delays)
    ensures current.status == StatusAt(IntentOf(row).scenario, row.createdAt, now, delays)
  {
    EdgeKeepsDestination(current, now, delays);
  }

  lemma FailsTrans(start: State, before: State, end: State, tid: Id)
    requires Runs(start, before)
    ensures (exists mid :: Runs(before, mid) && Abort(mid, tid, end)) ==> exists mid :: Runs(start, mid) && Abort(mid, tid, end)
  {
    if mid :| Runs(before, mid) && Abort(mid, tid, end) {
      RunsTrans(start, before, mid);
    }
  }

  /** `tid` is the only transaction. */
  ghost predicate OnlyTx(s: State, tid: Id) {
    s.txs.Keys == {tid}
  }

  /** Nothing happened but that `tid` has become `t`. */
  ghost predicate Solo(a: State, b: State, tid: Id, t: RequestTx) {
    b == a.(txs := a.txs[tid := Request(t)])
  }

  lemma SoloTrans(a: State, b: State, c: State, tid: Id, t: RequestTx, u: RequestTx)
    requires OnlyTx(a, tid) && Solo(a, b, tid, t) && Solo(b, c, tid, u)
    ensures Solo(a, c, tid, u) && OnlyTx(b, tid) && OnlyTx(c, tid)
  {
    assert a.txs[tid := Request(t)][tid := Request(u)] == a.txs[tid := Request(u)];
  }

  /** Two statements in a row, said of the second. */
  lemma SoloTwice(a: State, b: State, c: State, tid: Id, t: RequestTx, u: RequestTx)
    requires b == a.(txs := a.txs[tid := Request(t)]) && c == b.(txs := b.txs[tid := Request(u)])
    ensures Solo(a, c, tid, u)
  {
    assert a.txs[tid := Request(t)][tid := Request(u)] == a.txs[tid := Request(u)];
  }

  lemma SoloHere(a: State, tid: Id)
    requires OnlyTx(a, tid) && a.txs[tid].Request?
    ensures Solo(a, a, tid, a.txs[tid].r)
  {
    assert a.txs[tid := a.txs[tid]] == a.txs;
  }

  /** Alone with its table, a request finds its key active, expired or free, and claims it unless it is active. */
  function SoloClaim(t: RequestTx, records: map<Key, Record>, uuid: Id, retentionMs: nat, logLength: nat): RequestTx
    requires t.key.Some?
  {
    var key := t.key.value;
    if key in records && records[key].expiresAt > t.now then t.(pc := Replaying(records[key], logLength))
    else t.(pc := Running, del := if key in records then map[key := records[key].id] else map[],
            claim := Some(Record(uuid, None, t.now + retentionMs)))
  }

  /** After one expired conflict. */
  function SoloFreed(t: RequestTx, records: map<Key, Record>): RequestTx
    requires t.key.Some? && t.key.value in records
  {
    t.(pc := ClaimInsert(1), del := map[t.key.value := records[t.key.value].id])
  }

  /** What is left of a payment to refund. */
  function LeftOf(db: Db, payment: Id): int
    requires payment in db.payments
  {
    db.payments[payment].amount - SumRefunds(db.refunds, payment)
  }

  /**
   * When a refund request is granted: the payment is there for the caller, has succeeded, something
   * is left of it, and what is asked for, or all that is left, fits that and the column.
   */
  ghost predicate Refundable(db: Db, scope: Scope, op: Operation)
    requires op.CreateRefund?
  {
    && op.paymentId in db.payments
    && db.payments[op.paymentId].project == scope.project
    && (scope.environment.Some? ==> db.payments[op.paymentId].environment == scope.environment.value)
    && db.payments[op.paymentId].status == Succeeded
    && LeftOf(db, op.paymentId) > 0
    && (op.refundAmount.Some? ==> op.refundAmount.value <= LeftOf(db, op.paymentId) && op.refundAmount.value <= 9223372036854775807)
    && (op.refundAmount.None? ==> LeftOf(db, op.paymentId) <= 9223372036854775807)
  }

  /** What a request is told that is not granted: 404 for a payment it may not see, 409 for a taken id, 422 for the rest. */
  ghost function Refusal(db: Db, scope: Scope, op: Operation): Fault {
    if op.CreatePayment? then Conflict
    else if op.paymentId in db.payments && db.payments[op.paymentId].project == scope.project
            && (scope.environment.Some? ==> db.payments[op.paymentId].environment == scope.environment.value) then RuleViolation
    else NotFound
  }

  /** The refund that is granted: what was asked for, or all that is left. */
  ghost function RefundMade(db: Db, op: Operation, id: Id): Refund
    requires op.CreateRefund? && op.paymentId in db.payments
  {
    var row := db.payments[op.paymentId];
    Refund(id, op.paymentId, if op.refundAmount.Some? then op.refundAmount.value else LeftOf(db, op.paymentId),
           op.refundAmount.None?, row.project, row.environment)
  }

  /** A refund with its event and its entry, on top of what is buffered. */
  ghost function WithRefund(t: RequestTx, refund: Refund, clock: Time): Writes
    requires t.op.CreateRefund?
  {
    t.w.(refund := Some(refund), event := Some(Event(RefundCreated, t.op.paymentId, RefundBody(refund), clock)),
         audit := Some(AuditEntry(RefundCreated, t.scope.organization, t.scope.actor, t.scope.project, refund.environment, t.op.paymentId)))
  }

  /** The request has its refund in its buffer, with event and entry, and answers what was asked. */
  ghost predicate RefundBuffered(s: State, tid: Id, refund: Refund) {
    && tid in s.txs && s.txs[tid].Request? && s.txs[tid].r.op.CreateRefund?
    && var t := s.txs[tid].r;
       && t.pc == Audited && t.w.refund == Some(refund) && refund.payment == t.op.paymentId
       && (refund.full <==> t.op.refundAmount.None?)
       && (refund.full || refund.amount == t.op.refundAmount.value)
  }

  /** The refund an undisturbed request makes, and that nothing else happened. */
  ghost predicate RefundSettled(a: State, b: State, tid: Id, uuid: Id, refund: Refund)
    requires tid in a.txs && a.txs[tid].Request? && a.txs[tid].r.op.CreateRefund?
  {
    var t := a.txs[tid].r;
    && t.op.paymentId in a.db.payments && refund == RefundMade(a.db, t.op, uuid)
    && Solo(a, b, tid, t.(pc := Audited, w := WithRefund(t.(w := NO_WRITES.(lock := Some(t.op.paymentId))), refund, b.clock)))
  }

  /** The only transaction, holding the lock of its payment and nothing else. */
  ghost predicate LockedAlone(s: State, tid: Id) {
    && OnlyTx(s, tid) && s.txs[tid].Request? && s.txs[tid].r.op.CreateRefund?
    && s.txs[tid].r.w == NO_WRITES.(lock := Some(s.txs[tid].r.op.paymentId))
  }

  lemma NothingToRefund(db: Db, scope: Scope, op: Operation)
    requires op.CreateRefund? && op.paymentId in db.payments && LeftOf(db, op.paymentId) <= 0
    requires db.payments[op.paymentId].project == scope.project
    requires scope.environment.Some? ==> db.payments[op.paymentId].environment == scope.environment.value
    ensures !Refundable(db, scope, op) && Refusal(db, scope, op) == RuleViolation
  {
  }

  lemma RefundReadSettles(a: State, b: State, c: State, tid: Id, uuid: Id, row: PaymentRow, remaining: int, r: Result<Refund, Fault>)
    requires LockedAlone(a, tid) && Solo(a, b, tid, a.txs[tid].r.(pc := PaymentRead(row)))
    requires var t := a.txs[tid].r;
             && t.op.paymentId in a.db.payments && row == a.db.payments[t.op.paymentId]
             && row.project == t.scope.project && row.status == Succeeded
             && (t.scope.environment.Some? ==> row.environment == t.scope.environment.value)
             && remaining == LeftOf(a.db, t.op.paymentId) && remaining > 0
    requires var op := a.txs[tid].r.op;
             var amount := if op.refundAmount.Some? then op.refundAmount.value else remaining;
             && (r.Success? <==> amount <= remaining && amount <= 9223372036854775807)
             && (r.Failure? ==> r.error == RuleViolation)
             && (r.Success? ==> r.value == Refund(uuid, op.paymentId, amount, op.refundAmount.None?, row.project, row.environment))
    requires r.Success? ==> Solo(b, c, tid, b.txs[tid].r.(pc := Audited, w := WithRefund(b.txs[tid].r, r.value, c.clock)))
    ensures var t := a.txs[tid].r;
            && (r.Success? <==> Refundable(a.db, t.scope, t.op))
            && (r.Failure? ==> r.error == Refusal(a.db, t.scope, t.op))
            && (r.Success? ==> RefundSettled(a, c, tid, uuid, r.value))
  {
    if r.Success? {
      SoloTrans(a, b, c, tid, b.txs[tid].r, c.txs[tid].r);
    }
  }

  lemma LockSettles(a: State, b: State, c: State, tid: Id, uuid: Id, r: Result<Refund, Fault>)
    requires OnlyTx(a, tid) && a.txs[tid].Request? && a.txs[tid].r.op.CreateRefund? && a.txs[tid].r.w == NO_WRITES
    requires var t := a.txs[tid].r; Solo(a, b, tid, t.(pc := Locked, w := NO_WRITES.(lock := Some(t.op.paymentId))))
    requires LockedAlone(b, tid)
    requires r.Success? <==> Refundable(b.db, b.txs[tid].r.scope, b.txs[tid].r.op)
    requires r.Failure? ==> r.error == Refusal(b.db, b.txs[tid].r.scope, b.txs[tid].r.op)
    requires r.Success? ==> RefundSettled(b, c, tid, uuid, r.value)
    ensures var t := a.txs[tid].r;
            && (r.Success? <==> Refundable(a.db, t.scope, t.op))
            && (r.Failure? ==> r.error == Refusal(a.db, t.scope, t.op))
            && (r.Success? ==> RefundSettled(a, c, tid, uuid, r.value))
  {
    if r.Success? {
      SoloTrans(a, b, c, tid, b.txs[tid].r, c.txs[tid].r);
    }
  }

  /** A row as its create request asked for it, pending and new. */
  ghost predicate IsFreshRow(row: PaymentRow, scope: Scope, op: Operation)
    requires op.CreatePayment?
  {
    && row.project == scope.project && row.environment == op.environment && row.customer == op.customer
    && row.amount == op.amount && row.scenario == op.scenario
    && row.status == Pending && row.failureCode == None && row.createdAt == row.updatedAt
  }

  ghost function CreateWrites(scope: Scope, id: Id, row: PaymentRow): Writes {
    Writes(None, Some((id, row)), None, None, Some(Event(Created, id, PaymentBody(id, row), row.createdAt)),
           Some(AuditEntry(Created, scope.organization, scope.actor, row.project, row.environment, id)))
  }

  /** The create an undisturbed request has buffered, and that nothing else happened. */
  ghost predicate CreateSettled(a: State, b: State, tid: Id, uuid: Id, row: PaymentRow)
    requires tid in a.txs && a.txs[tid].Request?
  {
    var t := a.txs[tid].r;
    Solo(a, b, tid, t.(pc := Audited, w := CreateWrites(t.scope, uuid, row)))
  }

  // ---------------------------------------------------------------------------------------------
  // The answer to a request that is alone
  // ---------------------------------------------------------------------------------------------

  /**
   * The idempotency records afterwards: without a key as before; with one, its record as given, and
   * gone exactly the other expired records of its project and operation.
   */
  ghost predicate RecordsKept(before: map<Key, Record>, after: map<Key, Record>, key: Option<Key>, record: Record, now: Time) {
    if key.None? then after == before
    else
      && key.value in after && after[key.value] == record
      && (forall k :: k in after && k != key.value ==> k in before && after[k] == before[k] && !IsPrunable(before, key.value, k, now))
      && (forall k :: k in before && k != key.value && !IsPrunable(before, key.value, k, now) ==> k in after)
  }

  /** A replay: the stored response, unless it is about another refund target; nothing is written. */
  ghost predicate RepliedAlone(a: State, b: State, scope: Scope, op: Operation, found: Record, r: Result<(Response, bool), Fault>) {
    && b.db == a.db && found.response.Some?
    && r == (if op.CreatePayment? || (found.response.value.body.RefundBody?
                                      && found.response.value.body.refund.payment == op.paymentId
                                      && found.response.value.body.refund.project == scope.project
                                      && (scope.environment.Some? ==>
                                            found.response.value.body.refund.environment == scope.environment.value))
             then Success((found.response.value, true)) else Failure(Conflict))
  }

  /** A refund: granted exactly when it can be, and then exactly one refund with its event and its entry. */
  ghost predicate RefundedAlone(a: State, b: State, scope: Scope, key: Option<Key>, op: Operation, claimId: Id, id: Id,
                                now: Time, r: Result<(Response, bool), Fault>)
    requires op.CreateRefund?
  {
    && (r.Success? <==> Refundable(a.db, scope, op))
    && (r.Failure? ==> r.error == Refusal(a.db, scope, op) && b.db == a.db)
    && (r.Success? ==>
          var refund := RefundMade(a.db, op, id);
          var response := Response(201, RefundBody(refund));
          && r == Success((response, false))
          && b.db.payments == a.db.payments
          && b.db.refunds == a.db.refunds + [refund]
          && b.db.events == a.db.events + [Event(RefundCreated, op.paymentId, RefundBody(refund), a.clock)]
          && b.db.audit == a.db.audit + [AuditEntry(RefundCreated, scope.organization, scope.actor, scope.project, refund.environment, op.paymentId)]
          && RecordsKept(a.db.records, b.db.records, key, Record(claimId, Some(response), now + a.config.retentionMs), now))
  }

  /** A create: granted unless the id is taken, and then exactly one fresh row with its event and its entry. */
  ghost predicate CreatedAlone(a: State, b: State, scope: Scope, key: Option<Key>, op: Operation, claimId: Id, id: Id,
                               now: Time, r: Result<(Response, bool), Fault>)
    requires op.CreatePayment?
  {
    && (r.Success? <==> id !in a.db.payments)
    && (r.Failure? ==> r.error == Conflict && b.db == a.db)
    && (r.Success? ==>
          && id in b.db.payments
          && var row := b.db.payments[id];
             var response := Response(201, PaymentBody(id, row));
             && IsFreshRow(row, scope, op) && row.createdAt == a.clock
             && r == Success((response, false))
             && b.db.payments == a.db.payments[id := row]
             && b.db.refunds == a.db.refunds
             && b.db.events == a.db.events + [Event(Created, id, PaymentBody(id, row), a.clock)]
             && b.db.audit == a.db.audit + [AuditEntry(Created, scope.organization, scope.actor, scope.project, op.environment, id)]
             && RecordsKept(a.db.records, b.db.records, key, Record(claimId, Some(response), now + a.config.retentionMs), now))
  }

  /** What a request gets that nobody disturbs, and what it leaves behind. */
  ghost predicate AnsweredAlone(a: State, b: State, scope: Scope, key: Option<Key>, op: Operation, claimId: Id, id: Id,
                                now: Time, r: Result<(Response, bool), Fault>) {
    if key.Some? && key.value in a.db.records && a.db.records[key.value].expiresAt > now then
      RepliedAlone(a, b, scope, op, a.db.records[key.value], r)
    else if op.CreateRefund? then RefundedAlone(a, b, scope, key, op, claimId, id, now, r)
    else CreatedAlone(a, b, scope, key, op, claimId, id, now, r)
  }

  /** A transaction that has its claim, or needs none, and has done nothing else yet. */
  ghost predicate ReadyToRun(s: State, tid: Id, claimId: Id) {
    && OnlyTx(s, tid) && s.txs[tid].Request?
    && var t := s.txs[tid].r;
       && t.pc == Running && t.w == NO_WRITES
       && match t.key
          case None => t.del == map[] && t.claim == None
          case Some(key) =>
            && t.claim == Some(Record(claimId, None, t.now + s.config.retentionMs))
            && t.del == (if key in s.db.records then map[key := s.db.records[key].id] else map[])
            && (key in s.db.records ==> s.db.records[key].expiresAt <= t.now)
  }

  /** The records that a commit leaves behind are those the request marked, and no others. */
  lemma CommittedRecords(records: map<Key, Record>, t: RequestTx, t': RequestTx, response: Response, claimId: Id, retentionMs: nat)
    requires FinishedAlone(records, t, t', response)
    requires match t.key
             case None => t.del == map[] && t.claim == None
             case Some(key) =>
               && t.claim == Some(Record(claimId, None, t.now + retentionMs))
               && t.del == (if key in records then map[key := records[key].id] else map[])
    ensures RecordsKept(records, AfterClaims(records, t'), t.key, Record(claimId, Some(response), t.now + retentionMs), t.now)
  {
  }

  /** Whether an undisturbed mutation goes through. */
  ghost predicate Granted(db: Db, scope: Scope, op: Operation, id: Id) {
    if op.CreateRefund? then Refundable(db, scope, op) else id !in db.payments
  }

  /** What an undisturbed mutation has buffered, and what it answers. */
  ghost predicate MutatedAlone(a: State, b: State, tid: Id, id: Id, response: Response)
    requires tid in a.txs && a.txs[tid].Request?
  {
    var t := a.txs[tid].r;
    && tid in b.txs && b.txs[tid].Request? && Solo(a, b, tid, b.txs[tid].r)
    && var u := b.txs[tid].r;
       && u == t.(pc := Audited, w := u.w)
       && if t.op.CreateRefund? then
            && Refundable(a.db, t.scope, t.op)
            && var refund := RefundMade(a.db, t.op, id);
               && response == Response(201, RefundBody(refund))
               && u.w == WithRefund(t.(w := NO_WRITES.(lock := Some(t.op.paymentId))), refund, a.clock)
          else
            && id !in a.db.payments && response.status == 201 && response.body.PaymentBody? && response.body.id == id
            && IsFreshRow(response.body.row, t.scope, t.op) && response.body.row.createdAt == a.clock
            && u.w == CreateWrites(t.scope, id, response.body.row)
  }

  /** A commit of what was buffered and marked. */
  ghost predicate CommittedAs(a: State, b: State, tid: Id, t: RequestTx) {
    && b.db == AfterWrites(a.db, t.w).(records := AfterClaims(a.db.records, t))
    && b.clock == a.clock && b.txs == a.txs - {tid}
  }

  lemma RefundCommitted(a: State, b: State, c: State, tid: Id, claimId: Id, id: Id, response: Response, t': RequestTx)
    requires ReadyToRun(a, tid, claimId) && a.txs[tid].r.op.CreateRefund? && MutatedAlone(a, b, tid, id, response)
    requires FinishedAlone(b.db.records, b.txs[tid].r, t', response) && CommittedAs(b, c, tid, t')
    ensures var t := a.txs[tid].r; RefundedAlone(a, c, t.scope, t.key, t.op, claimId, id, t.now, Success((response, false)))
  {
    CommittedRecords(b.db.records, b.txs[tid].r, t', response, claimId, a.config.retentionMs);
  }

  lemma CreateCommitted(a: State, b: State, c: State, tid: Id, claimId: Id, id: Id, response: Response, t': RequestTx)
    requires ReadyToRun(a, tid, claimId) && a.txs[tid].r.op.CreatePayment? && MutatedAlone(a, b, tid, id, response)
    requires FinishedAlone(b.db.records, b.txs[tid].r, t', response) && CommittedAs(b, c, tid, t')
    ensures var t := a.txs[tid].r; CreatedAlone(a, c, t.scope, t.key, t.op, claimId, id, t.now, Success((response, false)))
  {
    CommittedRecords(b.db.records, b.txs[tid].r, t', response, claimId, a.config.retentionMs);
  }

  ghost predicate RanAlone(a: State, b: State, tid: Id, claimId: Id, id: Id, r: Result<(Response, bool), Fault>)
    requires tid in a.txs && a.txs[tid].Request?
  {
    var t := a.txs[tid].r;
    && b.clock == a.clock && b.txs.Keys == {}
    && if t.op.CreateRefund? then RefundedAlone(a, b, t.scope, t.key, t.op, claimId, id, t.now, r)
       else CreatedAlone(a, b, t.scope, t.key, t.op, claimId, id, t.now, r)
  }

  lemma RefusedAlone(a: State, b: State, tid: Id, claimId: Id, id: Id, r: Result<(Response, bool), Fault>)
    requires ReadyToRun(a, tid, claimId) && !Granted(a.db, a.txs[tid].r.scope, a.txs[tid].r.op, id)
    requires r.Failure? && r.error == Refusal(a.db, a.txs[tid].r.scope, a.txs[tid].r.op)
    requires b.db == a.db && b.clock == a.clock && b.txs.Keys == {}
    ensures RanAlone(a, b, tid, claimId, id, r)
  {
  }

  lemma CommittedAlone(a: State, b: State, c: State, tid: Id, claimId: Id, id: Id, response: Response, t': RequestTx)
    requires ReadyToRun(a, tid, claimId) && MutatedAlone(a, b, tid, id, response)
    requires FinishedAlone(b.db.records, b.txs[tid].r, t', response) && CommittedAs(b, c, tid, t')
    ensures RanAlone(a, c, tid, claimId, id, Success((response, false)))
  {
    if a.txs[tid].r.op.CreateRefund? {
      RefundCommitted(a, b, c, tid, claimId, id, response, t');
    } else {
      CreateCommitted(a, b, c, tid, claimId, id, response, t');
    }
  }

  /** The only transaction, with nothing done yet. */
  ghost predicate BegunAlone(s: State, tid: Id) {
    && OnlyTx(s, tid) && s.txs[tid].Request?
    && var t := s.txs[tid].r;
       t.w == NO_WRITES && t.del == map[] && t.claim == None && t.pc == if t.key.Some? then ClaimInsert(0) else Running
  }

  /** The mutation is complete in the buffer, and this is its answer. */
  ghost predicate MutationBuffered(s: State, tid: Id, response: Response) {
    && tid in s.txs && s.txs[tid].Request?
    && var t := s.txs[tid].r;
       && t.pc == Audited && response.status == CREATED
       && (t.op.CreatePayment? ==> t.w.inserted.Some? && response.body == PaymentBody(t.w.inserted.value.0, t.w.inserted.value.1))
       && (t.op.CreateRefund? ==> t.w.refund.Some? && response.body == RefundBody(t.w.refund.value))
  }

  lemma ClaimedReady(a: State, b: State, tid: Id, claimId: Id)
    requires BegunAlone(a, tid) && a.txs[tid].r.key.Some? && ClaimSettled(a, b, tid, claimId, Success(Acquired))
    ensures ReadyToRun(b, tid, claimId)
  {
  }

  lemma RanAnswers(a: State, b: State, c: State, tid: Id, claimId: Id, id: Id, r: Result<(Response, bool), Fault>)
    requires BegunAlone(a, tid)
    requires if a.txs[tid].r.key.None? then b == a else ClaimSettled(a, b, tid, claimId, Success(Acquired))
    requires RanAlone(b, c, tid, claimId, id, r)
    ensures var t := a.txs[tid].r;
            c.clock == a.clock && c.txs.Keys == {} && AnsweredAlone(a, c, t.scope, t.key, t.op, claimId, id, t.now, r)
  {
  }

  lemma RepliedAnswers(a: State, b: State, c: State, tid: Id, claimId: Id, id: Id, found: Record, r: Result<(Response, bool), Fault>)
    requires BegunAlone(a, tid) && a.txs[tid].r.key.Some? && ClaimSettled(a, b, tid, claimId, Success(Existing(found)))
    requires c.clock == b.clock && c.txs == b.txs - {tid} && RepliedAlone(b, c, b.txs[tid].r.scope, b.txs[tid].r.op, found, r)
    ensures var t := a.txs[tid].r;
            c.clock == a.clock && c.txs.Keys == {} && AnsweredAlone(a, c, t.scope, t.key, t.op, claimId, id, t.now, r)
  {
  }

  /** From the buffered mutation at `b` an undisturbed end, marking `u`, and the commit of exactly that. */
  ghost predicate EndedAlone(b: State, c: State, tid: Id, response: Response, u: RequestTx)
    requires tid in b.txs && b.txs[tid].Request?
  {
    && FinishedAlone(b.db.records, b.txs[tid].r, u, response)
    && c.db == AfterWrites(b.db, u.w).(records := AfterClaims(b.db.records, u))
    && c.clock == b.clock && c.txs.Keys == b.txs.Keys - {tid}
  }

  /** Marked and answered, and nothing else. */
  ghost predicate EndReady(b: State, f: State, tid: Id, response: Response)
    requires tid in b.txs && b.txs[tid].Request?
  {
    && TablesStill(b, f) && tid in f.txs && f.txs[tid].Request?
    && FinishedAlone(b.db.records, b.txs[tid].r, f.txs[tid].r, response)
  }

  lemma CommittedEnds(b: State, f: State, c: State, tid: Id, response: Response)
    requires tid in b.txs && b.txs[tid].Request? && EndReady(b, f, tid, response)
    requires c.db == AfterWrites(f.db, f.txs[tid].r.w).(records := AfterClaims(f.db.records, f.txs[tid].r))
    requires c.txs == f.txs - {tid} && c.clock == f.clock
    ensures exists u :: EndedAlone(b, c, tid, response, u)
  {
    assert EndedAlone(b, c, tid, response, f.txs[tid].r);
  }

  lemma EndedThenRan(a: State, b: State, c: State, tid: Id, claimId: Id, id: Id, response: Response, r: Result<(Response, bool), Fault>)
    requires ReadyToRun(a, tid, claimId) && MutatedAlone(a, b, tid, id, response)
    requires r == Success((response, false)) && exists u :: EndedAlone(b, c, tid, response, u)
    ensures RanAlone(a, c, tid, claimId, id, r)
  {
    var u :| EndedAlone(b, c, tid, response, u);
    assert (b.txs - {tid}).Keys == c.txs.Keys == {};
    CommittedAlone(a, b, c.(txs := b.txs - {tid}), tid, claimId, id, response, u);
  }

  lemma DirectAnswers(a: State, b: State, scope: Scope, op: Operation, claimId: Id, id: Id, now: Time, r: Result<(Response, bool), Fault>)
    requires op.CreatePayment? && CreatedAlone(a, b, scope, None, op, 0, id, 0, r)
    ensures AnsweredAlone(a, b, scope, None, op, claimId, id, now, r)
  {
  }

  lemma BegunAnswers(a: State, b: State, c: State, scope: Scope, key: Option<Key>, op: Operation, claimId: Id, id: Id, now: Time,
                     r: Result<(Response, bool), Fault>)
    requires b == a.(txs := b.txs) && AnsweredAlone(b, c, scope, key, op, claimId, id, now, r)
    ensures AnsweredAlone(a, c, scope, key, op, claimId, id, now, r)
  {
  }

  lemma NothingClaimed(records: map<Key, Record>, t: RequestTx)
    ensures t.del == map[] && t.claim == None ==> AfterClaims(records, t) == records
  {
  }

  lemma NewRowIsFresh(scope: Scope, op: Operation, clock: Time)
    requires op.CreatePayment?
    ensures IsFreshRow(NewPayment(scope, op, clock), scope, op) && NewPayment(scope, op, clock).createdAt == clock
  {
  }

  /** The same request, with its row in the buffer, event and entry attached. */
  ghost predicate CreateBuffered(s: State, tid: Id, uuid: Id, row: PaymentRow) {
    && tid in s.txs && s.txs[tid].Request? && s.txs[tid].r.op.CreatePayment?
    && s.txs[tid].r.pc == Audited && s.txs[tid].r.w.inserted == Some((uuid, row))
    && IsFreshRow(row, s.txs[tid].r.scope, s.txs[tid].r.op)
  }

  lemma CreateSettles(a: State, b: State, tid: Id, uuid: Id, row: PaymentRow)
    requires OnlyTx(a, tid) && a.txs[tid].Request? && a.txs[tid].r.w == NO_WRITES && tid in b.txs && b.txs[tid].Request?
    requires var t := a.txs[tid].r;
             && Solo(a, b, tid, b.txs[tid].r)
             && b.txs[tid].r == t.(pc := Audited, w := t.w.(
                  inserted := Some((uuid, row)),
                  event := Some(Event(Created, uuid, PaymentBody(uuid, row), row.createdAt)),
                  audit := Some(AuditEntry(Created, t.scope.organization, t.scope.actor, row.project, row.environment, uuid))))
    ensures CreateSettled(a, b, tid, uuid, row)
  {
  }

  /** Nothing happened outside the transactions. */
  ghost predicate TablesStill(a: State, b: State) {
    b == a.(txs := b.txs) && b.txs.Keys == a.txs.Keys
  }

  /** The row the claim found expired is still there under its key. */
  predicate ExpiredVictim(db: Db, t: RequestTx) {
    && t.pc.ClaimDelete? && t.key.Some? && t.key.value in db.records && t.key.value !in t.del
    && db.records[t.key.value].id == t.pc.victim.id && db.records[t.key.value].expiresAt <= t.now
  }

  /** `s` once `tid` has deleted the expired row it had found, if that row is still there; nothing else goes. */
  ghost function Freed(s: State, tid: Id, t: RequestTx): State
    requires t.pc.ClaimDelete? && t.key.Some?
  {
    var del := if ExpiredVictim(s.db, t) then t.del[t.key.value := t.pc.victim.id] else t.del;
    s.(txs := s.txs[tid := Request(t.(pc := ClaimInsert(t.pc.attempt + 1), del := del))])
  }

  /** The only transaction, about to claim its key. */
  ghost predicate ClaimsAlone(s: State, tid: Id) {
    && OnlyTx(s, tid) && s.txs[tid].Request? && s.txs[tid].r.key.Some?
    && s.txs[tid].r.pc == ClaimInsert(0) && s.txs[tid].r.del == map[]
  }

  /** An undisturbed claim at the start of an attempt: untouched, or with its expired row freed. */
  ghost predicate ClaimUnderWay(a: State, b: State, tid: Id, attempt: nat)
    requires ClaimsAlone(a, tid)
  {
    var (t, records) := (a.txs[tid].r, a.db.records);
    && attempt <= 1
    && if attempt == 0 then Solo(a, b, tid, t)
       else t.key.value in records && records[t.key.value].expiresAt <= t.now && Solo(a, b, tid, SoloFreed(t, records))
  }

  /** The outcome of an undisturbed claim, and what it has left in the transaction. */
  ghost predicate ClaimSettled(a: State, b: State, tid: Id, uuid: Id, r: Result<ClaimOutcome, Fault>)
    requires ClaimsAlone(a, tid)
  {
    var (t, records) := (a.txs[tid].r, a.db.records);
    && Solo(a, b, tid, SoloClaim(t, records, uuid, a.config.retentionMs, |a.log|))
    && r == Success(if t.key.value in records && records[t.key.value].expiresAt > t.now then Existing(records[t.key.value]) else Acquired)
  }

  /** The insert of an undisturbed claim, from the start of the claim. */
  lemma InsertedAlone(a: State, b: State, c: State, tid: Id, attempt: nat, uuid: Id)
    requires ClaimsAlone(a, tid) && ClaimUnderWay(a, b, tid, attempt) && OnlyTx(b, tid) && b.txs[tid].Request? && b.txs[tid].r.pc == ClaimInsert(attempt)
    requires var t := b.txs[tid].r;
             var taken := t.key.Some? && t.key.value in b.db.records && t.key.value !in t.del;
             Solo(b, c, tid, if taken then t.(pc := ClaimFind(attempt))
                             else t.(pc := Running, claim := Some(Record(uuid, None, t.now + b.config.retentionMs))))
    ensures var (t, records) := (a.txs[tid].r, a.db.records);
            && OnlyTx(c, tid) && c.txs[tid].Request?
            && if attempt == 0 && t.key.value in records then Solo(a, c, tid, t.(pc := ClaimFind(0)))
               else ClaimSettled(a, c, tid, uuid, Success(Acquired)) && c.txs[tid].r.pc == Running
  {
    SoloTrans(a, b, c, tid, b.txs[tid].r, c.txs[tid].r);
  }

  /** The conflict of an undisturbed claim: the active record, or on to the second attempt. */
  lemma ResolvedAlone(a: State, b: State, c: State, tid: Id, uuid: Id, rival: Result<Option<Record>, Fault>)
    requires ClaimsAlone(a, tid) && a.txs[tid].r.key.value in a.db.records && Solo(a, b, tid, a.txs[tid].r.(pc := ClaimFind(0)))
    requires var (t, found) := (b.txs[tid].r, b.db.records[a.txs[tid].r.key.value]);
             if found.expiresAt > t.now then rival == Success(Some(found)) && Solo(b, c, tid, t.(pc := Replaying(found, |c.log|)))
             else rival == Success(None) && Solo(b, c, tid, SoloFreed(t, b.db.records))
    ensures if rival == Success(None) then ClaimUnderWay(a, c, tid, 1)
            else rival.Success? && rival.value.Some? && ClaimSettled(a, c, tid, uuid, Success(Existing(rival.value.value)))
  {
    SoloTrans(a, b, c, tid, b.txs[tid].r, c.txs[tid].r);
  }

  lemma FreedSolo(a: State, b: State, c: State, tid: Id)
    ensures OnlyTx(a, tid) && a.txs[tid].Request? ==>
              var t := a.txs[tid].r;
              t.key.Some? && t.pc == ClaimFind(0) && t.del == map[] && t.key.value in a.db.records
              && a.db.records[t.key.value].expiresAt <= t.now
              && Solo(a, b, tid, t.(pc := ClaimDelete(0, a.db.records[t.key.value]))) && c == Freed(b, tid, b.txs[tid].r)
              ==> Solo(a, c, tid, SoloFreed(t, a.db.records))
  {
    if OnlyTx(a, tid) && a.txs[tid].Request? {
      var t := a.txs[tid].r;
      if t.key.Some? && t.key.value in a.db.records {
        var t' := t.(pc := ClaimDelete(0, a.db.records[t.key.value]));
        assert a.txs[tid := Request(t')][tid := Request(SoloFreed(t, a.db.records))] == a.txs[tid := Request(SoloFreed(t, a.db.records))];
      }
    }
  }

  /** The row `id` is committed under `key` and expired at `now`. */
  ghost predicate StillExpired(db: Db, key: Key, id: Id, now: Time) {
    key in db.records && db.records[key].id == id && db.records[key].expiresAt <= now
  }

  /** At some moment between `a` and `b` the row was gone, or had been renewed. */
  ghost predicate SeenGone(a: State, b: State, key: Key, id: Id, now: Time) {
    exists mid :: Runs(a, mid) && Runs(mid, b) && !StillExpired(mid.db, key, id, now)
  }

  lemma StillSeenGone(a: State, b: State, c: State, key: Key, id: Id, now: Time)
    requires SeenGone(a, b, key, id, now) && Runs(b, c)
    ensures SeenGone(a, c, key, id, now)
  {
    var mid :| Runs(a, mid) && Runs(mid, b) && !StillExpired(mid.db, key, id, now);
    RunsTrans(mid, b, c);
  }

  /** Deleted so far: what was deleted before, and rows of `todo` that are expired. */
  ghost predicate OnlyExpiredGo(db: Db, before: map<Key, Id>, after: map<Key, Id>, todo: map<Key, Id>, now: Time) {
    && (forall k :: k in before ==> k in after && after[k] == before[k])
    && (forall k :: k in after && k !in before ==> k in todo && after[k] == todo[k] && StillExpired(db, k, todo[k], now))
  }

  /** Every row of `todo` was deleted or found gone. */
  ghost predicate NoneForgotten(a: State, b: State, after: map<Key, Id>, todo: map<Key, Id>, now: Time) {
    forall k :: k in todo ==> k in after || SeenGone(a, b, k, todo[k], now)
  }

  ghost predicate Pruned(a: State, b: State, t: RequestTx, t': RequestTx, todo: map<Key, Id>) {
    OnlyExpiredGo(b.db, t.del, t'.del, todo, t.now) && NoneForgotten(a, b, t'.del, todo, t.now)
  }

  lemma StillLookedAt(a: State, b: State, c: State, del: map<Key, Id>, done: map<Key, Id>, k: Key, now: Time)
    requires Runs(b, c) && NoneForgotten(a, b, del, done, now) && k in done
    ensures k in del || SeenGone(a, c, k, done[k], now)
  {
    if k !in del {
      StillSeenGone(a, b, c, k, done[k], now);
    }
  }

  lemma OneMoreLooked(a: State, b: State, c: State, del: map<Key, Id>, del': map<Key, Id>, done: map<Key, Id>, key: Key, id: Id, now: Time)
    requires Runs(a, b) && Runs(b, c) && NoneForgotten(a, b, del, done, now) && key !in done
    requires forall k :: k in del ==> k in del'
    requires key in del' || !StillExpired(b.db, key, id, now)
    ensures NoneForgotten(a, c, del', done[key := id], now)
  {
    assert key in del' || SeenGone(a, c, key, id, now);
    forall k | k in done[key := id]
      ensures k in del' || SeenGone(a, c, k, done[key := id][k], now)
    {
      if k != key {
        StillLookedAt(a, b, c, del, done, k, now);
      }
    }
  }

  /** No row of `todo` that is expired in this table is left. */
  ghost predicate AllExpiredGone(db: Db, del: map<Key, Id>, todo: map<Key, Id>, now: Time) {
    forall k :: k in todo && StillExpired(db, k, todo[k], now) ==> k in del
  }

  lemma OneMoreGoes(b: Db, c: Db, before: map<Key, Id>, del: map<Key, Id>, del': map<Key, Id>, done: map<Key, Id>, key: Key, id: Id, now: Time)
    requires OnlyExpiredGo(b, before, del, done, now) && key !in done
    requires del' == if key !in del && StillExpired(b, key, id, now) then del[key := id] else del
    requires forall k :: k in del' ==> StillExpired(c, k, del'[k], now)
    ensures OnlyExpiredGo(c, before, del', done[key := id], now)
  {
    forall k | k in del' && k !in before
      ensures k in done[key := id] && del'[k] == done[key := id][k]
    {
    }
  }

  lemma PrunedOneMore(a: State, b: State, c: State, t: RequestTx, u: RequestTx, u': RequestTx, done: map<Key, Id>, key: Key, id: Id)
    requires Runs(a, b) && Runs(b, c) && Pruned(a, b, t, u, done) && key !in done
    requires u'.del == if key !in u.del && StillExpired(b.db, key, id, t.now) then u.del[key := id] else u.del
    requires forall k :: k in u'.del ==> StillExpired(c.db, k, u'.del[k], t.now)
    ensures Pruned(a, c, t, u', done[key := id])
  {
    OneMoreLooked(a, b, c, u.del, u'.del, done, key, id, t.now);
    OneMoreGoes(b.db, c.db, t.del, u.del, u'.del, done, key, id, t.now);
  }

  /** The expired rows of the key's own project and scope, as a transaction that deleted `del` sees them. */
  function Prunable(db: Db, key: Key, del: map<Key, Id>, now: Time): map<Key, Id> {
    map k | k in db.records && k !in del && k.project == key.project && k.scope == key.scope
            && db.records[k].expiresAt <= now :: db.records[k].id
  }

  /** What pruning does to the table: expired rows of the own scope go, and all of those seen at `a`. */
  ghost predicate ScopePruned(a: State, b: State, t: RequestTx, t': RequestTx)
    requires t.key.Some?
  {
    && (forall k :: k in t.del ==> k in t'.del && t'.del[k] == t.del[k])
    && (forall k :: k in t'.del && k !in t.del ==>
          && k.project == t.key.value.project && k.scope == t.key.value.scope
          && StillExpired(b.db, k, t'.del[k], t.now))
    && (forall k :: k in a.db.records && k.project == t.key.value.project && k.scope == t.key.value.scope
                    && a.db.records[k].expiresAt <= t.now ==>
          k in t'.del || SeenGone(a, b, k, a.db.records[k].id, t.now))
  }

  lemma PruneCoversScope(a: State, b: State, c: State, t: RequestTx, u: RequestTx, t': RequestTx)
    requires t.key.Some? && u.del == t.del && u.now == t.now
    requires Runs(a, b) && Pruned(b, c, u, t', Prunable(a.db, t.key.value, t.del, t.now))
    ensures ScopePruned(a, c, t, t')
  {
    var todo := Prunable(a.db, t.key.value, t.del, t.now);
    forall k | k in todo && k !in t'.del
      ensures SeenGone(a, c, k, todo[k], t.now)
    {
      var mid :| Runs(b, mid) && Runs(mid, c) && !StillExpired(mid.db, k, todo[k], t.now);
      RunsTrans(a, b, mid);
    }
  }

  /** An undisturbed end: the response in the claim, and exactly the expired rows of the scope marked to go. */
  ghost predicate FinishedAlone(records: map<Key, Record>, t: RequestTx, t': RequestTx, response: Response) {
    && t' == t.(pc := Done, del := t'.del, claim := t'.claim)
    && (t.key.None? ==> t'.del == t.del && t'.claim == t.claim)
    && (t.key.Some? ==>
          && t.claim.Some? && t'.claim == Some(t.claim.value.(response := Some(response)))
          && (forall k :: k in t'.del <==> k in t.del || IsPrunable(records, t.key.value, k, t.now))
          && (forall k :: k in t.del ==> t'.del[k] == t.del[k])
          && (forall k :: k in t'.del && k !in t.del ==> t'.del[k] == records[k].id))
  }

  /** An expired row of the key's own project and operation. */
  ghost predicate IsPrunable(records: map<Key, Record>, key: Key, k: Key, now: Time) {
    k in records && k.project == key.project && k.scope == key.scope && records[k].expiresAt <= now
  }

  lemma PrunedAlone(db: Db, t: RequestTx, u: RequestTx, t': RequestTx, response: Response)
    requires t.key.Some? && t.claim.Some?
    requires u == t.(pc := Pruning(Prunable(db, t.key.value, t.del, t.now)), claim := Some(t.claim.value.(response := Some(response))))
    requires t' == u.(pc := Done, del := t'.del)
    requires OnlyExpiredGo(db, t.del, t'.del, u.pc.todo, t.now) && AllExpiredGone(db, t'.del, u.pc.todo, t.now)
    ensures FinishedAlone(db.records, t, t', response)
  {
    forall k
      ensures k in t'.del <==> k in t.del || IsPrunable(db.records, t.key.value, k, t.now)
    {
      assert k in u.pc.todo <==> k !in t.del && IsPrunable(db.records, t.key.value, k, t.now);
    }
  }

  /** What the loop has looked at and what it has not. */
  ghost predicate Splits(all: map<Key, Id>, seen: map<Key, Id>, todo: map<Key, Id>) {
    && (forall k :: k in all <==> k in seen || k in todo)
    && (forall k :: k in seen ==> k !in todo && all[k] == seen[k])
    && (forall k :: k in todo ==> all[k] == todo[k])
  }

  lemma OneMoved(all: map<Key, Id>, seen: map<Key, Id>, todo: map<Key, Id>, key: Key)
    requires Splits(all, seen, todo) && key in todo
    ensures Splits(all, seen[key := todo[key]], todo - {key})
  {
  }

  lemma OneFewer(todo: map<Key, Id>, key: Key)
    requires key in todo
    ensures |todo - {key}| < |todo|
  {
    assert (todo - {key}).Keys == todo.Keys - {key};
    assert |(todo - {key}).Keys| == |todo.Keys| - 1;
  }

  lemma NothingLeft(all: map<Key, Id>, seen: map<Key, Id>)
    requires Splits(all, seen, map[])
    ensures seen == all
  {
  }

  /** Rows a request has deleted stay as they are until it ends. */
  lemma DeletedRowsStay(s: State, tid: Id)
    requires Reachable(s) && tid in s.txs && s.txs[tid].Request?
    ensures var t := s.txs[tid].r; forall k :: k in t.del ==> StillExpired(s.db, k, t.del[k], t.now)
  {
    RequestIsOk(s, tid);
  }

  /** The answer to a payment create without a key, and what its three statements left behind. */
  ghost predicate CreatedDirectly(s: State, scope: Scope, op: Operation, id: Id, response: Response, replayed: bool)
    requires op.CreatePayment?
  {
    && !replayed && response.status == CREATED && response.body.PaymentBody? && response.body.id == id
    && var row := response.body.row;
       && IsFreshRow(row, scope, op)
       && id in s.db.payments && SameIdentity(row, s.db.payments[id])
       && id in s.origins && s.origins[id] == Origin(false, scope, op)
       && CountEvents(s.db.events, id, Created) == 1 && CountAudit(s.db.audit, id, Created) == 1
       && |s.db.audit| > 0 && s.db.audit[|s.db.audit| - 1] == CreatedEntry(scope, id, row)
  }

  /** Nobody else wrote and no time passed. */
  ghost predicate Undisturbed(a: State, b: State) {
    b.db == a.db && b.clock == a.clock && b.config == a.config
  }

  lemma SnapshotsSurvive(a: State, b: State, ids: seq<Id>, rows: map<Id, PaymentRow>)
    requires Reachable(a) && Runs(a, b)
    requires Snapshots(a, ids, rows)
    ensures Snapshots(b, ids, rows)
  {
    forall k | 0 <= k < |ids|
      ensures Snapshot(b, ids[k], rows[ids[k]])
    {
      StatusNeverMovesBack(a, b, ids[k]);
    }
  }

  /** In an ascending list the next id has not been visited. */
  lemma NextIsFresh(ids: seq<Id>, i: nat)
    requires Ascending(ids) && i < |ids|
    ensures ids[i] !in ids[..i] && ids[..i + 1] == ids[..i] + [ids[i]]
  {
  }

  function EdgeAfterSwap(t: EdgeTx, row: PaymentRow, won: bool): EdgeTx {
    if won then
      t.(pc := RowWritten, w := t.w.(lock := Some(t.payment),
         updated := Some(AfterEdge(row, t.transition.to, EdgeCode(IntentOf(t.current), t.transition.to), t.now))))
    else t.(pc := Done)
  }

  lemma SweptSettles(s: State, now: Time, batch: nat)
    requires Reachable(s) && |EdgeDueIds(s.db.payments, now, s.config.delays)| <= batch
    requires forall p :: p in s.db.payments ==> s.db.payments[p].updatedAt <= now
    ensures var after := Swept(s.db.payments, now, batch, s.config.delays);
            forall p :: p in after && ScheduleComplete(after[p], now, s.config.delays) ==>
              after[p].status == StatusAt(IntentOf(after[p]).scenario, after[p].createdAt, now, s.config.delays)
  {
    forall p | p in s.db.payments && ScheduleComplete(s.db.payments[p], now, s.config.delays)
      ensures Swept(s.db.payments, now, batch, s.config.delays)[p].status
              == StatusAt(IntentOf(s.db.payments[p]).scenario, s.db.payments[p].createdAt, now, s.config.delays)
    {
      StoredRowOnSchedule(s, p, now);
      PassSettlesCompleteSchedules(s.db.payments, now, batch, s.config.delays, p);
    }
  }

  lemma StoredRowOnSchedule(s: State, p: Id, now: Time)
    requires Reachable(s) && p in s.db.payments && s.db.payments[p].updatedAt <= now
    ensures OnSchedule(s.db.payments[p], now, s.config.delays)
  {
    ReachablePayment(s, p);
    LaterStaysOnSchedule(s.db.payments[p], s.db.payments[p].updatedAt, now, s.config.delays);
  }

  /** The log entry that stands for an answer. */
  ghost predicate Answers(entry: Outcome, key: Option<Key>, response: Response, replayed: bool) {
    if replayed then
      entry.Replayed? && Some(entry.key) == key && entry.found.response == Some(response)
    else
      && entry.Executed?
      && (key.Some? ==> entry.claim.Some? && entry.claim.value.0 == key.value && entry.claim.value.1.response == Some(response))
  }
}
