/**
 * The services as the source writes them, statement by statement over the shared database:
 * `IdempotencyService.execute` and `claim`, `RefundsService.createInTransaction`, the create of
 * `PaymentsService` and its `applyEdge` and `advance`.
 *
 * Between two statements any other transaction may run (`Interfere`). Every method is proved to
 * perform a run of the transition system, so the theorems about reachable states apply to it.
 */
module LedgerService {
  import opened Common
  import opened PaymentScenarios
  import opened PaymentSimulation
  import opened LedgerState
  import opened LedgerInvariant
  import opened LedgerCommit
  import opened LedgerRuns
  import opened LedgerTheorems
  import opened Ordering
  import opened PaymentSweep
  import opened LedgerCalls

  class Ledger {
    var state: State

    /** No other transaction, and a clock that stands still during a call. */
    const alone: bool

    constructor (config: Config, clock: Time, alone: bool)
      requires config.retentionMs > 0
      ensures Reachable(state) && state.config == config && state.clock == clock && state.txs == map[]
      ensures this.alone == alone
    {
      this.alone := alone;
      state := State(config, clock, Db(map[], map[], [], [], []), map[], [], map[]);
      new;
      assert IsPath([state]) && IsRun([state]) && [state][|[state]| - 1] == state;
    }

    ghost predicate Idle()
      reads this
    {
      state.txs.Keys == {}
    }

    /** The moment between two statements. */
    method Interfere(tid: Id)
      requires Reachable(state)
      modifies this
      ensures Reachable(state) && OthersRan(old(state), state, tid)
      ensures alone ==> state == old(state)
    {
      RunsRefl(state);
    }

    /** Takes one step of `tid`. */
    method Take(tid: Id, next: State)
      requires Reachable(state) && StepOf(state, tid, next)
      modifies this
      ensures state == next && Reachable(state) && Runs(old(state), state)
    {
      RunsRefl(state);
      RunsStep(state, state, next);
      ReachableExtends(state, next);
      state := next;
    }

    /** Performs one statement of `tid`. */
    method Perform(tid: Id, t': Tx)
      requires Reachable(state) && tid in state.txs && Statement(state, tid, state.txs[tid], t')
      modifies this
      ensures state == old(state).(txs := old(state).txs[tid := t'])
      ensures Reachable(state) && Runs(old(state), state)
    {
      var next := state.(txs := state.txs[tid := t']);
      assert Local(state, tid, next);
      Take(tid, next);
    }

    // -------------------------------------------------------------------------------------------
    // The claim
    // -------------------------------------------------------------------------------------------

    method InsertClaim(tid: Id, uuid: Id) returns (claimed: Result<bool, Fault>)
      requires Reachable(state) && tid in state.txs && state.txs[tid].Request?
      requires state.txs[tid].r.pc.ClaimInsert? && state.txs[tid].r.pc.attempt < MAX_CLAIM_ATTEMPTS && state.txs[tid].r.key.Some?
      modifies this
      ensures Reachable(state) && Runs(old(state), state) && InProgress(state, tid, old(state).txs[tid].r)
      ensures claimed == Success(true) ==>
                && state.txs[tid].r.pc == Running
                && state.txs[tid].r.claim == Some(Record(uuid, None, state.txs[tid].r.now + state.config.retentionMs))
      ensures claimed == Success(false) ==> state.txs[tid].r.pc == ClaimFind(old(state).txs[tid].r.pc.attempt)
      ensures claimed.Failure? ==> claimed.error == TimedOut
      ensures state.config == old(state).config
      ensures alone && OnlyTx(old(state), tid) ==>
                var t := old(state).txs[tid].r;
                var taken := t.key.value in old(state).db.records && t.key.value !in t.del;
                && claimed == Success(!taken)
                && Solo(old(state), state, tid, if taken then t.(pc := ClaimFind(t.pc.attempt))
                                                else t.(pc := Running, claim := Some(Record(uuid, None, t.now + state.config.retentionMs))))
    {
      Interfere(tid);
      ghost var mid := state;
      var t := state.txs[tid].r;
      if !KeyUnclaimed(state.txs, tid, t.key.value) {
        return Failure(TimedOut);
      }
      match VisibleRecord(state.db, t, t.key.value) {
        case Some(_) =>
          var t' := t.(pc := ClaimFind(t.pc.attempt));
          assert LedgerState.InsertClaim(state, tid, t, t');
          Perform(tid, Request(t'));
          claimed := Success(false);
        case None =>
          var t' := t.(pc := Running, claim := Some(Record(uuid, None, t.now + state.config.retentionMs)));
          assert LedgerState.InsertClaim(state, tid, t, t');
          Perform(tid, Request(t'));
          claimed := Success(true);
      }
      RunsTrans(old(state), mid, state);
    }

    method FindRecord(tid: Id) returns (record: Option<Record>)
      requires Reachable(state) && tid in state.txs && state.txs[tid].Request?
      requires state.txs[tid].r.pc.ClaimFind? && state.txs[tid].r.key.Some?
      modifies this
      ensures Reachable(state) && Runs(old(state), state) && InProgress(state, tid, old(state).txs[tid].r)
      ensures match record
              case None => state.txs[tid].r.pc == ClaimInsert(old(state).txs[tid].r.pc.attempt + 1)
              case Some(found) =>
                if found.expiresAt > state.txs[tid].r.now then state.txs[tid].r.pc.Replaying? && state.txs[tid].r.pc.found == found
                else state.txs[tid].r.pc == ClaimDelete(old(state).txs[tid].r.pc.attempt, found)
      ensures alone && OnlyTx(old(state), tid) ==>
                var t := old(state).txs[tid].r;
                t.key.value in old(state).db.records && t.key.value !in t.del ==>
                  var found := old(state).db.records[t.key.value];
                  && record == Some(found)
                  && Solo(old(state), state, tid, t.(pc := if found.expiresAt > t.now then Replaying(found, |state.log|)
                                                           else ClaimDelete(t.pc.attempt, found)))
    {
      Interfere(tid);
      ghost var mid := state;
      var t := state.txs[tid].r;
      record := VisibleRecord(state.db, t, t.key.value);
      var t' := match record
        case None => t.(pc := ClaimInsert(t.pc.attempt + 1))
        case Some(found) =>
          if found.expiresAt > t.now then t.(pc := Replaying(found, |state.log|)) else t.(pc := ClaimDelete(t.pc.attempt, found));
      assert LedgerState.FindRecord(state, tid, t, t');
      Perform(tid, Request(t'));
      RunsTrans(old(state), mid, state);
    }

    method DeleteExpired(tid: Id) returns (done: Result<(), Fault>)
      requires Reachable(state) && tid in state.txs && state.txs[tid].Request?
      requires state.txs[tid].r.pc.ClaimDelete? && state.txs[tid].r.key.Some?
      modifies this
      ensures Reachable(state) && Runs(old(state), state) && InProgress(state, tid, old(state).txs[tid].r)
      ensures done.Success? ==> exists mid :: OthersRan(old(state), mid, tid) && state == Freed(mid, tid, old(state).txs[tid].r)
      ensures done.Failure? ==>
                && done.error == TimedOut && state.txs[tid] == old(state).txs[tid]
                && ExpiredVictim(state.db, state.txs[tid].r) && !RecordFree(state.txs, tid, state.txs[tid].r.key.value)
      ensures alone && OnlyTx(old(state), tid) ==> done.Success? && state == Freed(old(state), tid, old(state).txs[tid].r)
    {
      Interfere(tid);
      ghost var mid := state;
      var t := state.txs[tid].r;
      var key := t.key.value;
      var next := t.(pc := ClaimInsert(t.pc.attempt + 1));
      var record := VisibleRecord(state.db, t, key);
      if record.Some? && record.value.id == t.pc.victim.id && record.value.expiresAt <= t.now {
        if !RecordFree(state.txs, tid, key) {
          return Failure(TimedOut);
        }
        next := next.(del := t.del[key := record.value.id]);
      }
      assert LedgerState.DeleteExpired(state, tid, t, next);
      Perform(tid, Request(next));
      assert OthersRan(old(state), mid, tid) && state == Freed(mid, tid, t);
      RunsTrans(old(state), mid, state);
      done := Success(());
    }

    /** After a conflict: the active record, or nothing once an expired one has been freed. */
    method ResolveConflict(tid: Id) returns (r: Result<Option<Record>, Fault>)
      requires Reachable(state) && tid in state.txs && state.txs[tid].Request?
      requires state.txs[tid].r.pc.ClaimFind? && state.txs[tid].r.key.Some?
      modifies this
      ensures Reachable(state) && Runs(old(state), state) && InProgress(state, tid, old(state).txs[tid].r)
      ensures r == Success(None) ==> state.txs[tid].r.pc == ClaimInsert(old(state).txs[tid].r.pc.attempt + 1)
      ensures r.Failure? ==> r.error == TimedOut
      ensures r.Success? && r.value.Some? ==>
                && state.txs[tid].r.pc.Replaying? && state.txs[tid].r.pc.found == r.value.value
                && r.value.value.response.Some? && r.value.value.expiresAt > state.txs[tid].r.now
      ensures alone && OnlyTx(old(state), tid) ==>
                var t := old(state).txs[tid].r;
                t.key.value in old(state).db.records && t.del == map[] && t.pc == ClaimFind(0) ==>
                  var found := old(state).db.records[t.key.value];
                  if found.expiresAt > t.now then
                    r == Success(Some(found)) && Solo(old(state), state, tid, t.(pc := Replaying(found, |state.log|)))
                  else r == Success(None) && Solo(old(state), state, tid, SoloFreed(t, old(state).db.records))
    {
      var record := FindRecord(tid);
      if record.None? {
        return Success(None);
      }
      if record.value.expiresAt > state.txs[tid].r.now {
        RequestIsOk(state, tid);
        return Success(record);
      }
      ghost var before := state;
      var done := DeleteExpired(tid);
      RunsTrans(old(state), before, state);
      FreedSolo(old(state), before, state, tid);
      r := if done.Failure? then Failure(done.error) else Success(None);
    }

    /** One attempt: insert, else read the rival, else free an expired one; nothing when it is to be tried again. */
    method TryClaim(tid: Id, uuid: Id, attempt: nat, ghost start: State) returns (r: Option<Result<ClaimOutcome, Fault>>)
      requires Reachable(state) && Runs(start, state) && tid in start.txs && start.txs[tid].Request?
      requires InProgress(state, tid, start.txs[tid].r) && start.txs[tid].r.key.Some?
      requires attempt < MAX_CLAIM_ATTEMPTS && state.txs[tid].r.pc == ClaimInsert(attempt)
      requires alone && ClaimsAlone(start, tid) ==> ClaimUnderWay(start, state, tid, attempt)
      modifies this
      ensures Reachable(state) && Runs(start, state) && InProgress(state, tid, start.txs[tid].r)
      ensures r == None ==> state.txs[tid].r.pc == ClaimInsert(attempt + 1)
      ensures r.Some? && r.value.Failure? ==> r.value.error == TimedOut
      ensures r == Some(Success(Acquired)) ==> state.txs[tid].r.pc == Running && state.txs[tid].r.claim.Some?
      ensures r.Some? && r.value.Success? && r.value.value.Existing? ==>
                && state.txs[tid].r.pc.Replaying? && state.txs[tid].r.pc.found == r.value.value.record
                && r.value.value.record.response.Some? && r.value.value.record.expiresAt > state.txs[tid].r.now
      ensures alone && ClaimsAlone(start, tid) ==>
                if r == None then ClaimUnderWay(start, state, tid, attempt + 1) else ClaimSettled(start, state, tid, uuid, r.value)
    {
      ghost var before := state;
      var claimed := InsertClaim(tid, uuid);
      RunsTrans(start, before, state);
      if alone && ClaimsAlone(start, tid) {
        InsertedAlone(start, before, state, tid, attempt, uuid);
      }
      if claimed.Failure? {
        return Some(Failure(claimed.error));
      }
      if claimed.value {
        return Some(Success(Acquired));
      }
      before := state;
      var rival := ResolveConflict(tid);
      RunsTrans(start, before, state);
      if alone && ClaimsAlone(start, tid) {
        ResolvedAlone(start, before, state, tid, uuid, rival);
      }
      r := if rival.Failure? then Some(Failure(rival.error))
           else if rival.value.Some? then Some(Success(Existing(rival.value.value))) else None;
    }

    /**
     * The bounded loop: it gives up when three attempts in a row have been overtaken. Alone, it never fails: a key without a record, or with one that has expired,
     * is acquired, and the record of a key in use is handed back.
     */
    method Claim(tid: Id, uuid: Id) returns (r: Result<ClaimOutcome, Fault>)
      requires Reachable(state) && tid in state.txs && state.txs[tid].Request?
      requires state.txs[tid].r.pc == ClaimInsert(0) && state.txs[tid].r.key.Some?
      modifies this
      ensures Reachable(state) && Runs(old(state), state) && InProgress(state, tid, old(state).txs[tid].r)
      ensures r == Success(Acquired) ==> state.txs[tid].r.pc == Running && state.txs[tid].r.claim.Some?
      ensures r.Success? && r.value.Existing? ==>
                && state.txs[tid].r.pc.Replaying? && state.txs[tid].r.pc.found == r.value.record
                && r.value.record.response.Some? && r.value.record.expiresAt > state.txs[tid].r.now
      ensures r.Failure? ==> r.error == TimedOut || (r.error == InternalError && state.txs[tid].r.pc == ClaimInsert(3))
      ensures alone && ClaimsAlone(old(state), tid) ==> ClaimSettled(old(state), state, tid, uuid, r)
    {
      RunsRefl(state);
      if ClaimsAlone(state, tid) {
        SoloHere(state, tid);
      }
      var attempt := 0;
      while attempt < MAX_CLAIM_ATTEMPTS
        invariant 0 <= attempt <= MAX_CLAIM_ATTEMPTS
        invariant Reachable(state) && Runs(old(state), state) && InProgress(state, tid, old(state).txs[tid].r)
        invariant state.txs[tid].r.pc == ClaimInsert(attempt)
        invariant alone && ClaimsAlone(old(state), tid) ==> ClaimUnderWay(old(state), state, tid, attempt)
      {
        var settled := TryClaim(tid, uuid, attempt, old(state));
        if settled.Some? {
          return settled.value;
        }
        attempt := attempt + 1;
      }
      r := Failure(InternalError);
    }

    // -------------------------------------------------------------------------------------------
    // The mutations
    // -------------------------------------------------------------------------------------------

    /** One statement, then whatever the others do before the next one. */
    method PerformThen(tid: Id, t': Tx)
      requires Reachable(state) && tid in state.txs && Statement(state, tid, state.txs[tid], t')
      modifies this
      ensures Reachable(state) && Runs(old(state), state)
      ensures tid in state.txs && state.txs[tid] == t' && state.config == old(state).config && old(state).clock <= state.clock
      ensures alone ==> state == old(state).(txs := old(state).txs[tid := t'])
    {
      Perform(tid, t');
      ghost var mid := state;
      Interfere(tid);
      RunsTrans(old(state), mid, state);
    }

    /** `createInTransaction`: lock, read, check, insert, event, audit. */
    method RunRefund(tid: Id, uuid: Id) returns (r: Result<Refund, Fault>)
      requires Reachable(state) && tid in state.txs && state.txs[tid].Request?
      requires state.txs[tid].r.pc == Running && state.txs[tid].r.op.CreateRefund?
      requires state.txs[tid].r.op.refundAmount.Some? ==> state.txs[tid].r.op.refundAmount.value > 0
      modifies this
      ensures Reachable(state) && Runs(old(state), state) && InProgress(state, tid, old(state).txs[tid].r)
      ensures state.txs[tid].r.claim == old(state).txs[tid].r.claim
      ensures r.Success? ==> RefundBuffered(state, tid, r.value)
      ensures alone ==> TablesStill(old(state), state)
      ensures alone && OnlyTx(old(state), tid) && old(state).txs[tid].r.w == NO_WRITES ==>
                var t := old(state).txs[tid].r;
                && (r.Success? <==> Refundable(old(state).db, t.scope, t.op))
                && (r.Failure? ==> r.error == Refusal(old(state).db, t.scope, t.op))
                && (r.Success? ==> RefundSettled(old(state), state, tid, uuid, r.value))
    {
      RunsRefl(state);
      var t := state.txs[tid].r;
      var p := t.op.paymentId;
      if p !in state.db.payments { return Failure(NotFound); }
      if !PaymentFree(state.txs, tid, p) { return Failure(TimedOut); }
      t := t.(pc := Locked, w := t.w.(lock := Some(p)));
      assert LockPayment(state, tid, state.txs[tid].r, t);
      PerformThen(tid, Request(t));

      ghost var before := state;
      r := RefundLockedPayment(tid, uuid);
      RunsTrans(old(state), before, state);
      if alone && OnlyTx(old(state), tid) && old(state).txs[tid].r.w == NO_WRITES {
        LockSettles(old(state), before, state, tid, uuid, r);
      }
    }

    /** Reads the payment under its lock and checks it. */
    method RefundLockedPayment(tid: Id, uuid: Id) returns (r: Result<Refund, Fault>)
      requires Reachable(state) && tid in state.txs && state.txs[tid].Request?
      requires state.txs[tid].r.pc == Locked && state.txs[tid].r.op.CreateRefund?
      requires state.txs[tid].r.op.refundAmount.Some? ==> state.txs[tid].r.op.refundAmount.value > 0
      modifies this
      ensures Reachable(state) && Runs(old(state), state) && InProgress(state, tid, old(state).txs[tid].r)
      ensures state.txs[tid].r.claim == old(state).txs[tid].r.claim
      ensures r.Success? ==> RefundBuffered(state, tid, r.value)
      ensures alone ==> TablesStill(old(state), state)
      ensures alone && LockedAlone(old(state), tid) ==>
                var t := old(state).txs[tid].r;
                && (r.Success? <==> Refundable(old(state).db, t.scope, t.op))
                && (r.Failure? ==> r.error == Refusal(old(state).db, t.scope, t.op))
                && (r.Success? ==> RefundSettled(old(state), state, tid, uuid, r.value))
    {
      RunsRefl(state);
      var t := state.txs[tid].r;
      var p := t.op.paymentId;
      if p !in state.db.payments { return Failure(NotFound); }
      var row := state.db.payments[p];
      if row.project != t.scope.project || (t.scope.environment.Some? && row.environment != t.scope.environment.value) {
        return Failure(NotFound);
      }
      if row.status != Succeeded { return Failure(RuleViolation); }
      r := RefundLocked(tid, uuid, row);
    }

    /** Under the lock: the balance, then the rest. */
    method RefundLocked(tid: Id, uuid: Id, row: PaymentRow) returns (r: Result<Refund, Fault>)
      requires Reachable(state) && tid in state.txs && state.txs[tid].Request?
      requires state.txs[tid].r.pc == Locked && state.txs[tid].r.op.CreateRefund?
      requires state.txs[tid].r.op.refundAmount.Some? ==> state.txs[tid].r.op.refundAmount.value > 0
      requires state.txs[tid].r.op.paymentId in state.db.payments && state.db.payments[state.txs[tid].r.op.paymentId] == row
      requires row.project == state.txs[tid].r.scope.project && row.status == Succeeded
      requires state.txs[tid].r.scope.environment.Some? ==> row.environment == state.txs[tid].r.scope.environment.value
      modifies this
      ensures Reachable(state) && Runs(old(state), state) && InProgress(state, tid, old(state).txs[tid].r)
      ensures state.txs[tid].r.claim == old(state).txs[tid].r.claim
      ensures r.Success? ==> RefundBuffered(state, tid, r.value)
      ensures alone ==> TablesStill(old(state), state)
      ensures alone && LockedAlone(old(state), tid) ==>
                var t := old(state).txs[tid].r;
                && (r.Success? <==> Refundable(old(state).db, t.scope, t.op))
                && (r.Failure? ==> r.error == Refusal(old(state).db, t.scope, t.op))
                && (r.Success? ==> RefundSettled(old(state), state, tid, uuid, r.value))
    {
      RunsRefl(state);
      var t := state.txs[tid].r.(pc := PaymentRead(row));
      assert ReadPayment(state, tid, state.txs[tid].r, t);
      PerformThen(tid, Request(t));

      var remaining := row.amount - SumRefunds(state.db.refunds, t.op.paymentId);
      if remaining <= 0 {
        if alone {
          NothingToRefund(old(state).db, t.scope, t.op);
        }
        return Failure(RuleViolation);
      }
      ghost var before := state;
      r := RefundRead(tid, uuid, row, remaining);
      RunsTrans(old(state), before, state);
      if alone && LockedAlone(old(state), tid) {
        RefundReadSettles(old(state), before, state, tid, uuid, row, remaining, r);
      }
    }

    /** The amount against the balance, then the row and what belongs to it. */
    method RefundRead(tid: Id, uuid: Id, row: PaymentRow, remaining: int) returns (r: Result<Refund, Fault>)
      requires Reachable(state) && tid in state.txs && state.txs[tid].Request?
      requires state.txs[tid].r.pc == PaymentRead(row) && state.txs[tid].r.op.CreateRefund?
      requires state.txs[tid].r.op.refundAmount.Some? ==> state.txs[tid].r.op.refundAmount.value > 0
      requires remaining > 0 && remaining == row.amount - SumRefunds(state.db.refunds, state.txs[tid].r.op.paymentId)
      modifies this
      ensures Reachable(state) && Runs(old(state), state) && InProgress(state, tid, old(state).txs[tid].r)
      ensures state.txs[tid].r.claim == old(state).txs[tid].r.claim
      ensures r.Success? ==> RefundBuffered(state, tid, r.value)
      ensures alone ==> TablesStill(old(state), state)
      ensures alone ==>
                var op := old(state).txs[tid].r.op;
                var amount := if op.refundAmount.Some? then op.refundAmount.value else remaining;
                && (r.Success? <==> amount <= remaining && amount <= 9223372036854775807)
                && (r.Failure? ==> r.error == RuleViolation)
                && (r.Success? ==> r.value == Refund(uuid, op.paymentId, amount, op.refundAmount.None?, row.project, row.environment))
      ensures alone && r.Success? && OnlyTx(old(state), tid) ==>
                var t := old(state).txs[tid].r;
                Solo(old(state), state, tid, t.(pc := Audited, w := WithRefund(t, r.value, state.clock)))
    {
      RunsRefl(state);
      var t := state.txs[tid].r.(pc := Checked(row, remaining));
      assert ReadBalance(state, tid, state.txs[tid].r, t);
      PerformThen(tid, Request(t));

      var amount := if t.op.refundAmount.None? then remaining else t.op.refundAmount.value;
      if amount > remaining || amount > MAX_BIGINT { return Failure(RuleViolation); }
      var refund := Refund(uuid, t.op.paymentId, amount, t.op.refundAmount.None?, row.project, row.environment);
      ghost var before := state;
      RefundInserted(tid, refund, row, remaining);
      RunsTrans(old(state), before, state);
      if alone && OnlyTx(old(state), tid) {
        SoloTrans(old(state), before, state, tid, t, state.txs[tid].r);
      }
      r := Success(refund);
    }

    /** The row, the event, then the audit entry. */
    method RefundInserted(tid: Id, refund: Refund, row: PaymentRow, remaining: int)
      requires Reachable(state) && tid in state.txs && state.txs[tid].Request?
      requires state.txs[tid].r.pc == Checked(row, remaining) && state.txs[tid].r.op.CreateRefund?
      requires var op := state.txs[tid].r.op;
               && refund == Refund(refund.id, op.paymentId, refund.amount, op.refundAmount.None?, row.project, row.environment)
               && refund.amount == (if op.refundAmount.None? then remaining else op.refundAmount.value)
               && (op.refundAmount.Some? ==> refund.amount > 0)
               && refund.amount <= remaining && refund.amount <= MAX_BIGINT
      modifies this
      ensures Reachable(state) && Runs(old(state), state) && InProgress(state, tid, old(state).txs[tid].r)
      ensures state.txs[tid].r.claim == old(state).txs[tid].r.claim
      ensures RefundBuffered(state, tid, refund)
      ensures alone ==> TablesStill(old(state), state)
      ensures alone && OnlyTx(old(state), tid) ==>
                var t := old(state).txs[tid].r;
                Solo(old(state), state, tid, t.(pc := Audited, w := WithRefund(t, refund, state.clock)))
    {
      var t := state.txs[tid].r;
      t := t.(pc := RowWritten, w := t.w.(refund := Some(refund)));
      assert InsertRefund(state, tid, state.txs[tid].r, t);
      PerformThen(tid, Request(t));
      ghost var before := state;
      RefundAttached(tid, refund);
      RunsTrans(old(state), before, state);
      if alone && OnlyTx(old(state), tid) {
        SoloTrans(old(state), before, state, tid, t, state.txs[tid].r);
      }
    }

    /** The event, then the audit entry. */
    method RefundAttached(tid: Id, refund: Refund)
      requires Reachable(state) && tid in state.txs && state.txs[tid].Request?
      requires state.txs[tid].r.pc == RowWritten && state.txs[tid].r.op.CreateRefund? && state.txs[tid].r.w.refund == Some(refund)
      modifies this
      ensures Reachable(state) && Runs(old(state), state) && InProgress(state, tid, old(state).txs[tid].r)
      ensures state.txs[tid].r.claim == old(state).txs[tid].r.claim
      ensures state.txs[tid].r.pc == Audited && state.txs[tid].r.w.refund == Some(refund)
      ensures alone ==>
                var t := old(state).txs[tid].r;
                Solo(old(state), state, tid, t.(pc := Audited, w := WithRefund(t, refund, state.clock)))
    {
      var t := state.txs[tid].r;
      t := t.(pc := EventWritten,
              w := t.w.(event := Some(Event(RefundCreated, t.op.paymentId, RefundBody(refund), state.clock))));
      assert PersistRefundEvent(state, tid, state.txs[tid].r, t);
      PerformThen(tid, Request(t));
      ghost var (before, first) := (state, t);
      t := t.(pc := Audited, w := t.w.(audit := Some(AuditEntry(
             RefundCreated, t.scope.organization, t.scope.actor, t.scope.project, refund.environment, t.op.paymentId))));
      assert AuditRefund(state, tid, state.txs[tid].r, t);
      PerformThen(tid, Request(t));
      RunsTrans(old(state), before, state);
      if alone {
        SoloTwice(old(state), before, state, tid, first, t);
      }
    }

    /** The keyed payment create: row, event, audit entry. */
    method RunCreate(tid: Id, uuid: Id) returns (r: Result<PaymentRow, Fault>)
      requires Reachable(state) && tid in state.txs && state.txs[tid].Request?
      requires state.txs[tid].r.pc == Running && state.txs[tid].r.op.CreatePayment?
      modifies this
      ensures Reachable(state) && Runs(old(state), state) && InProgress(state, tid, old(state).txs[tid].r)
      ensures state.txs[tid].r.claim == old(state).txs[tid].r.claim
      ensures r.Success? ==> CreateBuffered(state, tid, uuid, r.value)
      ensures alone ==> TablesStill(old(state), state)
      ensures alone && OnlyTx(old(state), tid) && old(state).txs[tid].r.w == NO_WRITES ==>
                && (r.Success? <==> uuid !in old(state).db.payments) && (r.Failure? ==> r.error == Conflict)
                && (r.Success? ==> r.value.createdAt == state.clock && CreateSettled(old(state), state, tid, uuid, r.value))
    {
      RunsRefl(state);
      var t := state.txs[tid].r;
      if !IdFree(state, tid, uuid) { return Failure(Conflict); }
      var row := NewPayment(t.scope, t.op, state.clock);
      NewRowIsFresh(t.scope, t.op, state.clock);
      CreateInserted(tid, uuid, row);
      r := Success(row);
    }

    /** The row, the event, then the audit entry. */
    method CreateInserted(tid: Id, uuid: Id, row: PaymentRow)
      requires Reachable(state) && tid in state.txs && state.txs[tid].Request?
      requires state.txs[tid].r.pc == Running && state.txs[tid].r.op.CreatePayment? && IdFree(state, tid, uuid)
      requires row == NewPayment(state.txs[tid].r.scope, state.txs[tid].r.op, state.clock)
      requires IsFreshRow(row, state.txs[tid].r.scope, state.txs[tid].r.op)
      modifies this
      ensures Reachable(state) && Runs(old(state), state) && InProgress(state, tid, old(state).txs[tid].r)
      ensures state.txs[tid].r.claim == old(state).txs[tid].r.claim && CreateBuffered(state, tid, uuid, row)
      ensures alone ==> Solo(old(state), state, tid, state.txs[tid].r)
      ensures alone && OnlyTx(old(state), tid) && old(state).txs[tid].r.w == NO_WRITES ==> CreateSettled(old(state), state, tid, uuid, row)
    {
      var t := state.txs[tid].r;
      t := t.(pc := RowWritten, w := t.w.(inserted := Some((uuid, row))));
      assert InsertPayment(state, tid, state.txs[tid].r, t);
      PerformThen(tid, Request(t));
      ghost var before := state;
      CreateAttached(tid, uuid, row);
      RunsTrans(old(state), before, state);
      if alone {
        SoloTwice(old(state), before, state, tid, t, state.txs[tid].r);
      }
      if alone && OnlyTx(old(state), tid) && old(state).txs[tid].r.w == NO_WRITES {
        CreateSettles(old(state), state, tid, uuid, row);
      }
    }

    /** The event, then the audit entry. */
    method CreateAttached(tid: Id, uuid: Id, row: PaymentRow)
      requires Reachable(state) && tid in state.txs && state.txs[tid].Request?
      requires state.txs[tid].r.pc == RowWritten && state.txs[tid].r.op.CreatePayment? && state.txs[tid].r.w.inserted == Some((uuid, row))
      modifies this
      ensures Reachable(state) && Runs(old(state), state) && tid in state.txs && state.txs[tid].Request?
      ensures var t := old(state).txs[tid].r;
              state.txs[tid].r == t.(pc := Audited, w := t.w.(
                event := Some(Event(Created, uuid, PaymentBody(uuid, row), row.createdAt)),
                audit := Some(AuditEntry(Created, t.scope.organization, t.scope.actor, row.project, row.environment, uuid))))
      ensures alone ==> Solo(old(state), state, tid, state.txs[tid].r)
    {
      var t := state.txs[tid].r;
      t := t.(pc := EventWritten, w := t.w.(event := Some(CreatedEvent(uuid, row))));
      assert PersistCreated(state, tid, state.txs[tid].r, t);
      PerformThen(tid, Request(t));
      ghost var (before, first) := (state, t);
      t := t.(pc := Audited, w := t.w.(audit := Some(CreatedEntry(t.scope, uuid, row))));
      assert AuditCreated(state, tid, state.txs[tid].r, t);
      PerformThen(tid, Request(t));
      RunsTrans(old(state), before, state);
      if alone {
        SoloTwice(old(state), before, state, tid, first, t);
      }
    }

    // -------------------------------------------------------------------------------------------
    // execute
    // -------------------------------------------------------------------------------------------

    method Rollback(tid: Id)
      requires Reachable(state) && tid in state.txs
      modifies this
      ensures Reachable(state) && Runs(old(state), state) && tid !in state.txs
      ensures Undisturbed(old(state), state) && state.txs.Keys == old(state).txs.Keys - {tid}
      ensures Abort(old(state), tid, state)
      ensures state == old(state).(txs := old(state).txs - {tid})
    {
      var next := state.(txs := state.txs - {tid});
      assert Abort(state, tid, next);
      Take(tid, next);
    }

    method CommitRequest(tid: Id)
      requires Reachable(state) && tid in state.txs && state.txs[tid].Request? && ReadyToCommit(state.txs[tid])
      modifies this
      ensures Reachable(state) && Runs(old(state), state) && tid !in state.txs
      ensures state.log == old(state).log + [OutcomeOf(old(state).txs[tid].r, old(state).clock)]
      ensures state.db == AfterWrites(old(state).db, old(state).txs[tid].r.w).(records := AfterClaims(old(state).db.records, old(state).txs[tid].r))
      ensures state.txs == old(state).txs - {tid} && state.clock == old(state).clock && state.config == old(state).config
    {
      var t := state.txs[tid].r;
      var next := state.(
        db := AfterWrites(state.db, t.w).(records := AfterClaims(state.db.records, t)),
        txs := state.txs - {tid}, log := state.log + [OutcomeOf(t, state.clock)], origins := AfterOrigins(state.origins, t));
      assert Commit(state, tid, next);
      Take(tid, next);
    }

    /** Stores the response in the claimed row and prunes the expired rows of the same scope. */
    method Finish(tid: Id, response: Response) returns (done: Result<(), Fault>)
      requires Reachable(state) && tid in state.txs && state.txs[tid].Request?
      requires MutationBuffered(state, tid, response) && (state.txs[tid].r.key.Some? ==> state.txs[tid].r.claim.Some?)
      modifies this
      ensures Reachable(state) && Runs(old(state), state) && InProgress(state, tid, old(state).txs[tid].r)
      ensures done.Success? ==>
                && state.txs[tid].r.pc == Done
                && (state.txs[tid].r.key.Some? ==>
                      && state.txs[tid].r.claim.Some? && state.txs[tid].r.claim.value.response == Some(response)
                      && ScopePruned(old(state), state, old(state).txs[tid].r, state.txs[tid].r))
      ensures alone ==> TablesStill(old(state), state)
      ensures alone && OnlyTx(old(state), tid) ==>
                done.Success? && FinishedAlone(old(state).db.records, old(state).txs[tid].r, state.txs[tid].r, response)
    {
      RunsRefl(state);
      var t := state.txs[tid].r;
      if t.key.None? {
        assert EndKeyless(state, tid, t, t.(pc := Done));
        Perform(tid, Request(t.(pc := Done)));
        return Success(());
      }
      done := StoreAndPrune(tid, response);
    }

    /** With a key: the response goes into the claim, then the expired rows of the scope go. */
    method StoreAndPrune(tid: Id, response: Response) returns (done: Result<(), Fault>)
      requires Reachable(state) && tid in state.txs && state.txs[tid].Request?
      requires MutationBuffered(state, tid, response) && state.txs[tid].r.key.Some? && state.txs[tid].r.claim.Some?
      modifies this
      ensures Reachable(state) && Runs(old(state), state) && InProgress(state, tid, old(state).txs[tid].r)
      ensures done.Success? ==>
                && state.txs[tid].r.pc == Done
                && state.txs[tid].r.claim.Some? && state.txs[tid].r.claim.value.response == Some(response)
                && ScopePruned(old(state), state, old(state).txs[tid].r, state.txs[tid].r)
      ensures alone ==> TablesStill(old(state), state)
      ensures alone && OnlyTx(old(state), tid) ==>
                done.Success? && FinishedAlone(old(state).db.records, old(state).txs[tid].r, state.txs[tid].r, response)
    {
      var t := state.txs[tid].r;
      var todo := Prunable(state.db, t.key.value, t.del, t.now);
      var t' := t.(pc := Pruning(todo), claim := Some(t.claim.value.(response := Some(response))));
      assert StoreResponse(state, tid, t, t');
      PerformThen(tid, Request(t'));
      ghost var before := state;
      done := Prune(tid);
      if done.Success? {
        PruneCoversScope(old(state), before, state, t, t', state.txs[tid].r);
      }
      if alone && OnlyTx(old(state), tid) {
        PrunedAlone(old(state).db, t, t', state.txs[tid].r, response);
      }
      RunsTrans(old(state), before, state);
    }

    /** Deletes the rows of `todo` one by one; each is looked at again under its lock. */
    method Prune(tid: Id) returns (done: Result<(), Fault>)
      requires Reachable(state) && tid in state.txs && state.txs[tid].Request?
      requires state.txs[tid].r.pc.Pruning? && state.txs[tid].r.claim.Some?
      modifies this
      ensures Reachable(state) && Runs(old(state), state) && InProgress(state, tid, old(state).txs[tid].r)
      ensures state.txs[tid].r.claim == old(state).txs[tid].r.claim
      ensures done.Success? ==>
                && state.txs[tid].r.pc == Done
                && Pruned(old(state), state, old(state).txs[tid].r, state.txs[tid].r, old(state).txs[tid].r.pc.todo)
      ensures alone ==> TablesStill(old(state), state)
      ensures alone && OnlyTx(old(state), tid) ==>
                var (t, t') := (old(state).txs[tid].r, state.txs[tid].r);
                && done.Success? && t' == t.(pc := Done, del := t'.del)
                && AllExpiredGone(old(state).db, t'.del, t.pc.todo, t.now)
    {
      RunsRefl(state);
      ghost var was := state.txs[tid].r;
      ghost var seen: map<Key, Id> := map[];
      while state.txs[tid].r.pc.todo != map[]
        invariant Reachable(state) && Runs(old(state), state) && InProgress(state, tid, was)
        invariant state.txs[tid].r.pc.Pruning? && state.txs[tid].r.claim == was.claim
        invariant Splits(was.pc.todo, seen, state.txs[tid].r.pc.todo)
        invariant Pruned(old(state), state, was, state.txs[tid].r, seen)
        invariant alone ==> TablesStill(old(state), state)
        invariant alone && OnlyTx(old(state), tid) ==>
                    var u := state.txs[tid].r;
                    u == was.(pc := u.pc, del := u.del) && AllExpiredGone(old(state).db, u.del, seen, was.now)
        decreases |state.txs[tid].r.pc.todo|
      {
        var t := state.txs[tid].r;
        var key :| key in t.pc.todo;
        if !RecordFree(state.txs, tid, key) { return Failure(TimedOut); }
        ghost var before := state;
        PruneOne(tid, key);
        DeletedRowsStay(state, tid);
        PrunedOneMore(old(state), before, state, was, t, state.txs[tid].r, seen, key, t.pc.todo[key]);
        OneMoved(was.pc.todo, seen, t.pc.todo, key);
        OneFewer(t.pc.todo, key);
        seen := seen[key := t.pc.todo[key]];
        RunsTrans(old(state), before, state);
      }
      NothingLeft(was.pc.todo, seen);
      EndPruning(tid, old(state), was);
      done := Success(());
    }

    method PruneOne(tid: Id, key: Key)
      requires Reachable(state) && tid in state.txs && state.txs[tid].Request?
      requires state.txs[tid].r.pc.Pruning? && key in state.txs[tid].r.pc.todo && RecordFree(state.txs, tid, key)
      modifies this
      ensures Reachable(state) && Runs(old(state), state) && tid in state.txs && state.txs[tid].Request?
      ensures var (t, id) := (old(state).txs[tid].r, old(state).txs[tid].r.pc.todo[key]);
              state.txs[tid].r == t.(
                pc := Pruning(t.pc.todo - {key}),
                del := if key !in t.del && StillExpired(old(state).db, key, id, t.now) then t.del[key := id] else t.del)
      ensures alone ==> TablesStill(old(state), state)
    {
      var t := state.txs[tid].r;
      var rest := t.(pc := Pruning(t.pc.todo - {key}));
      if key in state.db.records && key !in t.del && state.db.records[key].id == t.pc.todo[key]
         && state.db.records[key].expiresAt <= t.now {
        rest := rest.(del := t.del[key := t.pc.todo[key]]);
      }
      assert PruneKey(state, tid, t, key, rest);
      assert PruneRow(state, tid, t, rest);
      PerformThen(tid, Request(rest));
    }

    method EndPruning(tid: Id, ghost start: State, ghost was: RequestTx)
      requires Reachable(state) && Runs(start, state) && tid in state.txs && state.txs[tid].Request?
      requires state.txs[tid].r.pc == Pruning(map[]) && was.pc.Pruning?
      requires Pruned(start, state, was, state.txs[tid].r, was.pc.todo)
      modifies this
      ensures Reachable(state) && Runs(start, state) && tid in state.txs && state.txs[tid] == Request(old(state).txs[tid].r.(pc := Done))
      ensures Pruned(start, state, was, state.txs[tid].r, was.pc.todo)
      ensures TablesStill(old(state), state)
    {
      var t := state.txs[tid].r;
      assert EndPrune(state, tid, t, t.(pc := Done));
      Perform(tid, Request(t.(pc := Done)));
      forall k | k in was.pc.todo && k !in t.del
        ensures SeenGone(start, state, k, was.pc.todo[k], was.now)
      {
        StillSeenGone(start, old(state), state, k, was.pc.todo[k], was.now);
      }
      RunsTrans(start, old(state), state);
    }

    /**
     * `execute`. In a transaction a success is the last entry of the log, as an execution whose
     * stored response is the answer or as a replay of a stored response; a failure is a rollback,
     * nothing more. A payment create without a key runs outside: a success has left its row, its
     * event and its entry, a failure what had been committed by then. Alone, it answers as
     * `AnsweredAlone` says, success or failure, and leaves exactly that.
     */
    method Execute(tid: Id, scope: Scope, key: Option<Key>, op: Operation, claimId: Id, rowId: Id)
      returns (r: Result<(Response, bool), Fault>)
      requires Reachable(state) && tid !in state.txs
      requires op.CreatePayment? ==> op.amount > 0
      requires op.CreateRefund? && op.refundAmount.Some? ==> op.refundAmount.value > 0
      requires key.Some? ==> key.value.project == scope.project
                             && key.value.scope == if op.CreatePayment? then PaymentsCreate else RefundsCreate
      modifies this
      ensures Reachable(state) && Runs(old(state), state) && tid !in state.txs
      ensures r.Failure? ==> exists mid :: Runs(old(state), mid) && Abort(mid, tid, state)
      ensures r.Success? ==>
                if op.CreatePayment? && key.None? then CreatedDirectly(state, scope, op, rowId, r.value.0, r.value.1)
                else |state.log| > 0 && Answers(state.log[|state.log| - 1], key, r.value.0, r.value.1)
      ensures alone && old(state).txs.Keys == {} ==>
                && state.clock == old(state).clock && Idle()
                && AnsweredAlone(old(state), state, scope, key, op, claimId, rowId, old(state).clock, r)
    {
      if op.CreatePayment? && key.None? {
        r := CreateDirect(tid, scope, op, rowId);
        if alone && old(state).txs.Keys == {} {
          DirectAnswers(old(state), state, scope, op, claimId, rowId, old(state).clock, r);
        }
        return;
      }
      BeginRequest(tid, scope, key, op);
      ghost var begun := state;
      r := ClaimAndRun(tid, old(state), claimId, rowId);
      if alone && old(state).txs.Keys == {} {
        BegunAnswers(old(state), begun, state, scope, key, op, claimId, rowId, old(state).clock, r);
      }
    }

    /** The body of the transaction. */
    method ClaimAndRun(tid: Id, ghost start: State, claimId: Id, rowId: Id) returns (r: Result<(Response, bool), Fault>)
      requires Reachable(state) && Runs(start, state) && tid in state.txs && state.txs[tid].Request?
      requires var t := state.txs[tid].r;
               && t.pc == (if t.key.Some? then ClaimInsert(0) else Running)
               && (t.op.CreateRefund? && t.op.refundAmount.Some? ==> t.op.refundAmount.value > 0)
      modifies this
      ensures Reachable(state) && Runs(start, state) && tid !in state.txs
      ensures r.Failure? ==> exists mid :: Runs(start, mid) && Abort(mid, tid, state)
      ensures r.Success? ==> |state.log| > 0 && Answers(state.log[|state.log| - 1], old(state).txs[tid].r.key, r.value.0, r.value.1)
      ensures alone && BegunAlone(old(state), tid) ==>
                var t := old(state).txs[tid].r;
                && state.clock == old(state).clock && state.txs.Keys == {}
                && AnsweredAlone(old(state), state, t.scope, t.key, t.op, claimId, rowId, t.now, r)
    {
      ghost var (begun, before) := (state, state);
      RunsRefl(state);
      if state.txs[tid].r.key.Some? {
        var settled := ClaimOrAnswer(tid, start, claimId, rowId);
        if settled.Some? {
          return settled.value;
        }
        before := state;
      }
      r := RunAndCommit(tid, claimId, rowId);
      FailsTrans(start, before, state, tid);
      RunsTrans(start, before, state);
      if alone && BegunAlone(begun, tid) {
        RanAnswers(begun, before, state, tid, claimId, rowId, r);
      }
    }

    /** Claims the key; an answer if that already settles the request. */
    method ClaimOrAnswer(tid: Id, ghost start: State, claimId: Id, ghost rowId: Id) returns (settled: Option<Result<(Response, bool), Fault>>)
      requires Reachable(state) && Runs(start, state) && tid in state.txs && state.txs[tid].Request?
      requires state.txs[tid].r.key.Some? && state.txs[tid].r.pc == ClaimInsert(0)
      modifies this
      ensures Reachable(state) && Runs(start, state)
      ensures settled == None ==> InProgress(state, tid, old(state).txs[tid].r) && state.txs[tid].r.pc == Running && state.txs[tid].r.claim.Some?
      ensures settled.Some? ==>
                && tid !in state.txs
                && (settled.value.Failure? ==> exists mid :: Runs(start, mid) && Abort(mid, tid, state))
                && (settled.value.Success? ==>
                      |state.log| > 0 && Answers(state.log[|state.log| - 1], old(state).txs[tid].r.key, settled.value.value.0, settled.value.value.1))
      ensures alone && BegunAlone(old(state), tid) ==>
                if settled == None then ClaimSettled(old(state), state, tid, claimId, Success(Acquired)) && ReadyToRun(state, tid, claimId)
                else
                  var t := old(state).txs[tid].r;
                  && state.clock == old(state).clock && state.txs.Keys == {}
                  && AnsweredAlone(old(state), state, t.scope, t.key, t.op, claimId, rowId, t.now, settled.value)
    {
      ghost var begun := state;
      var claim := Claim(tid, claimId);
      RunsTrans(start, begun, state);
      if claim.Failure? {
        var failed := Fail(tid, start, claim.error);
        return Some(failed);
      }
      ghost var before := state;
      if claim.value.Existing? {
        var r := Answer(tid, start, claim.value.record);
        if alone && BegunAlone(begun, tid) {
          RepliedAnswers(begun, before, state, tid, claimId, rowId, claim.value.record, r);
        }
        return Some(r);
      }
      if alone && BegunAlone(begun, tid) {
        ClaimedReady(begun, before, tid, claimId);
      }
      settled := None;
    }

    /** A payment create without a key: row, event and entry, each committed by itself. */
    method CreateDirect(tid: Id, scope: Scope, op: Operation, rowId: Id) returns (r: Result<(Response, bool), Fault>)
      requires Reachable(state) && tid !in state.txs && op.CreatePayment? && op.amount > 0
      modifies this
      ensures Reachable(state) && Runs(old(state), state) && tid !in state.txs
      ensures r.Failure? ==> r.error == Conflict && exists mid :: Runs(old(state), mid) && Abort(mid, tid, state)
      ensures r.Success? ==> CreatedDirectly(state, scope, op, rowId, r.value.0, r.value.1)
      ensures alone && old(state).txs.Keys == {} ==>
                && state.clock == old(state).clock && state.txs.Keys == {}
                && CreatedAlone(old(state), state, scope, None, op, 0, rowId, 0, r)
    {
      var t := DirectTx(scope, op, Running, None);
      var next := state.(txs := state.txs[tid := Direct(t)]);
      assert Begin(state, tid, next);
      TakeThen(tid, next);
      if !IdFree(state, tid, rowId) {
        r := Fail(tid, old(state), Conflict);
        return;
      }
      var row := NewPayment(scope, op, state.clock);
      next := state.(
        db := state.db.(payments := state.db.payments[rowId := row]),
        txs := state.txs[tid := Direct(t.(pc := RowWritten, row := Some((rowId, row))))],
        origins := state.origins[rowId := Origin(false, scope, op)]);
      assert DirectStatement(state, tid, next);
      ghost var before := state;
      TakeThen(tid, next);
      RunsTrans(old(state), before, state);
      before := state;
      AttachDirect(tid, rowId, row);
      RunsTrans(old(state), before, state);
      r := Success((Response(CREATED, PaymentBody(rowId, row)), false));
    }

    /** The event, then the entry. */
    method AttachDirect(tid: Id, id: Id, row: PaymentRow)
      requires Reachable(state) && tid in state.txs && state.txs[tid].Direct?
      requires state.txs[tid].d.pc == RowWritten && state.txs[tid].d.row == Some((id, row)) && state.txs[tid].d.op.CreatePayment?
      requires IsFreshRow(row, state.txs[tid].d.scope, state.txs[tid].d.op)
      modifies this
      ensures Reachable(state) && Runs(old(state), state) && tid !in state.txs
      ensures var t := old(state).txs[tid].d; CreatedDirectly(state, t.scope, t.op, id, Response(CREATED, PaymentBody(id, row)), false)
      ensures alone ==>
                && state.clock == old(state).clock && state.txs.Keys == old(state).txs.Keys - {tid}
                && state.db == old(state).db.(
                     events := old(state).db.events + [Event(Created, id, PaymentBody(id, row), row.createdAt)],
                     audit := old(state).db.audit + [CreatedEntry(old(state).txs[tid].d.scope, id, row)])
    {
      var t := state.txs[tid].d;
      var next := state.(db := state.db.(events := state.db.events + [CreatedEvent(id, row)]),
                         txs := state.txs[tid := Direct(t.(pc := EventWritten))]);
      assert DirectStatement(state, tid, next);
      TakeThen(tid, next);
      ReachableTx(state, tid);
      ghost var before := state;
      var entry := CreatedEntry(t.scope, id, row);
      AuditAppended(state.db.audit, Some(entry), id, Created);
      next := state.(db := state.db.(audit := state.db.audit + [entry]), txs := state.txs - {tid});
      assert DirectStatement(state, tid, next);
      Take(tid, next);
      RunsTrans(old(state), before, state);
    }

    /** A step of `tid` that leaves it in flight, then whatever the others do. */
    method TakeThen(tid: Id, next: State)
      requires Reachable(state) && StepOf(state, tid, next) && tid in next.txs
      modifies this
      ensures Reachable(state) && Runs(old(state), state) && tid in state.txs && state.txs[tid] == next.txs[tid]
      ensures alone ==> state == next
    {
      Take(tid, next);
      ghost var before := state;
      Interfere(tid);
      RunsTrans(old(state), before, state);
    }

    /** Captures `now`, then opens the transaction some time later. */
    method BeginRequest(tid: Id, scope: Scope, key: Option<Key>, op: Operation)
      requires Reachable(state) && tid !in state.txs
      requires op.CreatePayment? ==> key.Some? && op.amount > 0
      requires key.Some? ==> key.value.project == scope.project
                             && key.value.scope == if op.CreatePayment? then PaymentsCreate else RefundsCreate
      modifies this
      ensures Reachable(state) && Runs(old(state), state) && tid in state.txs && state.txs[tid].Request?
      ensures var t := state.txs[tid].r;
              && t.scope == scope && t.key == key && t.op == op && t.now == old(state).clock && t.startedAt == |state.log|
              && t.claim == None && t.pc == if key.Some? then ClaimInsert(0) else Running
      ensures alone && old(state).txs.Keys == {} ==>
                BegunAlone(state, tid) && state == old(state).(txs := state.txs)
    {
      var now := state.clock;
      Interfere(tid);
      ghost var before := state;
      var t := RequestTx(scope, key, now, |state.log|, op, if key.Some? then ClaimInsert(0) else Running,
                         map[], None, NO_WRITES);
      var next := state.(txs := state.txs[tid := Request(t)]);
      assert BeginsRequest(state, t) && Begin(state, tid, next);
      Take(tid, next);
      RunsTrans(old(state), before, state);
    }

    /** Replays an active record, unless it is about another refund target. */
    method Answer(tid: Id, ghost start: State, found: Record) returns (r: Result<(Response, bool), Fault>)
      requires Reachable(state) && Runs(start, state) && tid in state.txs && state.txs[tid].Request?
      requires state.txs[tid].r.pc.Replaying? && state.txs[tid].r.pc.found == found && state.txs[tid].r.key.Some? && found.response.Some?
      modifies this
      ensures Reachable(state) && Runs(start, state) && tid !in state.txs
      ensures r.Failure? ==> exists mid :: Runs(start, mid) && Abort(mid, tid, state)
      ensures r.Success? ==> |state.log| > 0 && Answers(state.log[|state.log| - 1], old(state).txs[tid].r.key, r.value.0, r.value.1)
      ensures state.txs == old(state).txs - {tid} && state.clock == old(state).clock
      ensures old(state).txs[tid].r.w == NO_WRITES && old(state).txs[tid].r.del == map[] && old(state).txs[tid].r.claim == None ==>
                RepliedAlone(old(state), state, old(state).txs[tid].r.scope, old(state).txs[tid].r.op, found, r)
    {
      if !ReplayAnswers(state.txs[tid].r, found) {
        r := Fail(tid, start, Conflict);
        return;
      }
      ghost var before := state;
      NothingClaimed(state.db.records, state.txs[tid].r);
      CommitRequest(tid);
      RunsTrans(start, before, state);
      r := Success((found.response.value, true));
    }

    method Fail(tid: Id, ghost start: State, fault: Fault) returns (r: Result<(Response, bool), Fault>)
      requires Reachable(state) && tid in state.txs && Runs(start, state)
      modifies this
      ensures Reachable(state) && tid !in state.txs && r == Failure(fault) && Runs(start, state)
      ensures state == old(state).(txs := old(state).txs - {tid})
      ensures exists mid :: Runs(start, mid) && Abort(mid, tid, state)
    {
      ghost var mid := state;
      Rollback(tid);
      RunsTrans(start, mid, state);
      assert Abort(mid, tid, state);
      r := Failure(fault);
    }

    /** The mutation and its answer. */
    method Mutate(tid: Id, rowId: Id) returns (response: Result<Response, Fault>)
      requires Reachable(state) && tid in state.txs && state.txs[tid].Request?
      requires var t := state.txs[tid].r;
               && t.pc == Running
               && (t.op.CreateRefund? && t.op.refundAmount.Some? ==> t.op.refundAmount.value > 0)
      modifies this
      ensures Reachable(state) && Runs(old(state), state) && InProgress(state, tid, old(state).txs[tid].r)
      ensures state.txs[tid].r.claim == old(state).txs[tid].r.claim
      ensures response.Success? ==> MutationBuffered(state, tid, response.value)
      ensures alone ==> TablesStill(old(state), state)
      ensures alone && OnlyTx(old(state), tid) && old(state).txs[tid].r.w == NO_WRITES ==>
                var t := old(state).txs[tid].r;
                && (response.Success? <==> Granted(old(state).db, t.scope, t.op, rowId))
                && (response.Failure? ==> response.error == Refusal(old(state).db, t.scope, t.op))
                && (response.Success? ==> MutatedAlone(old(state), state, tid, rowId, response.value))
    {
      if state.txs[tid].r.op.CreatePayment? {
        var created := RunCreate(tid, rowId);
        response := if created.Failure? then Failure(created.error) else Success(Response(CREATED, PaymentBody(rowId, created.value)));
      } else {
        var refunded := RunRefund(tid, rowId);
        response := if refunded.Failure? then Failure(refunded.error) else Success(Response(CREATED, RefundBody(refunded.value)));
      }
    }

    /** The rollback of a mutation that was not granted. */
    method Refuse(tid: Id, ghost start: State, ghost claimId: Id, ghost rowId: Id, fault: Fault) returns (r: Result<(Response, bool), Fault>)
      requires Reachable(state) && Runs(start, state) && tid in state.txs && tid in start.txs && start.txs[tid].Request?
      requires alone && ReadyToRun(start, tid, claimId) ==>
                 var t := start.txs[tid].r;
                 TablesStill(start, state) && !Granted(start.db, t.scope, t.op, rowId) && fault == Refusal(start.db, t.scope, t.op)
      modifies this
      ensures Reachable(state) && Runs(start, state) && tid !in state.txs && r == Failure(fault)
      ensures exists mid :: Runs(start, mid) && Abort(mid, tid, state)
      ensures alone && ReadyToRun(start, tid, claimId) ==> RanAlone(start, state, tid, claimId, rowId, r)
    {
      r := Fail(tid, start, fault);
      if alone && ReadyToRun(start, tid, claimId) {
        RefusedAlone(start, state, tid, claimId, rowId, r);
      }
    }

    /** The mutation, its stored response and the commit. */
    method RunAndCommit(tid: Id, ghost claimId: Id, rowId: Id) returns (r: Result<(Response, bool), Fault>)
      requires Reachable(state) && tid in state.txs && state.txs[tid].Request?
      requires var t := state.txs[tid].r;
               && t.pc == Running && (t.key.Some? ==> t.claim.Some?)
               && (t.op.CreateRefund? && t.op.refundAmount.Some? ==> t.op.refundAmount.value > 0)
      modifies this
      ensures Reachable(state) && Runs(old(state), state) && tid !in state.txs
      ensures r.Failure? ==> exists mid :: Runs(old(state), mid) && Abort(mid, tid, state)
      ensures r.Success? ==> |state.log| > 0 && Answers(state.log[|state.log| - 1], old(state).txs[tid].r.key, r.value.0, r.value.1)
      ensures alone && ReadyToRun(old(state), tid, claimId) ==> RanAlone(old(state), state, tid, claimId, rowId, r)
    {
      ghost var start := state;
      var response := Mutate(tid, rowId);
      if response.Failure? {
        r := Refuse(tid, start, claimId, rowId, response.error);
        return;
      }
      ghost var before := state;
      r := FinishAndCommit(tid, start, start.txs[tid].r.key, response.value);
      if alone && ReadyToRun(start, tid, claimId) {
        EndedThenRan(start, before, state, tid, claimId, rowId, response.value, r);
      }
    }

    /** The commit of a finished execution: its stored response is the answer. */
    method CommitAnswer(tid: Id, ghost start: State, ghost key: Option<Key>, response: Response) returns (r: Result<(Response, bool), Fault>)
      requires Reachable(state) && Runs(start, state)
      requires tid in state.txs && state.txs[tid].Request? && state.txs[tid].r.pc == Done && state.txs[tid].r.key == key
      requires key.Some? ==> state.txs[tid].r.claim.Some? && state.txs[tid].r.claim.value.response == Some(response)
      modifies this
      ensures Reachable(state) && Runs(start, state) && tid !in state.txs && r == Success((response, false))
      ensures |state.log| > 0 && Answers(state.log[|state.log| - 1], key, r.value.0, r.value.1)
      ensures state.db == AfterWrites(old(state).db, old(state).txs[tid].r.w).(records := AfterClaims(old(state).db.records, old(state).txs[tid].r))
      ensures state.txs == old(state).txs - {tid} && state.clock == old(state).clock
    {
      ghost var before := state;
      CommitRequest(tid);
      RunsTrans(start, before, state);
      r := Success((response, false));
    }

    /** `Finish` within a request. */
    method Conclude(tid: Id, ghost start: State, ghost key: Option<Key>, response: Response) returns (done: Result<(), Fault>)
      requires Reachable(state) && Runs(start, state)
      requires MutationBuffered(state, tid, response) && state.txs[tid].r.key == key
      requires key.Some? ==> state.txs[tid].r.claim.Some?
      modifies this
      ensures Reachable(state) && Runs(start, state) && tid in state.txs && state.txs[tid].Request?
      ensures done.Success? ==>
                && state.txs[tid].r.pc == Done && state.txs[tid].r.key == key
                && (key.Some? ==> state.txs[tid].r.claim.Some? && state.txs[tid].r.claim.value.response == Some(response))
      ensures alone && OnlyTx(old(state), tid) ==>
                done.Success? && EndReady(old(state), state, tid, response)
    {
      ghost var before := state;
      done := Finish(tid, response);
      RunsTrans(start, before, state);
    }

    /** Stores the response, prunes, and commits. */
    method FinishAndCommit(tid: Id, ghost start: State, ghost key: Option<Key>, response: Response) returns (r: Result<(Response, bool), Fault>)
      requires Reachable(state) && Runs(start, state)
      requires MutationBuffered(state, tid, response) && state.txs[tid].r.key == key
      requires key.Some? ==> state.txs[tid].r.claim.Some?
      modifies this
      ensures Reachable(state) && Runs(start, state) && tid !in state.txs
      ensures r.Failure? ==> exists mid :: Runs(start, mid) && Abort(mid, tid, state)
      ensures r.Success? ==> |state.log| > 0 && Answers(state.log[|state.log| - 1], key, r.value.0, r.value.1)
      ensures alone && OnlyTx(old(state), tid) ==>
                r == Success((response, false)) && exists u :: EndedAlone(old(state), state, tid, response, u)
    {
      var done := Conclude(tid, start, key, response);
      if done.Failure? {
        r := Fail(tid, start, done.error);
        return;
      }
      ghost var finished := state;
      r := CommitAnswer(tid, start, key, response);
      if alone && OnlyTx(old(state), tid) {
        CommittedEnds(old(state), finished, state, tid, response);
      }
    }

    // -------------------------------------------------------------------------------------------
    // applyEdge, advance, advanceDuePayments
    // -------------------------------------------------------------------------------------------

    /**
     * One edge, its event and its audit entry in one transaction. `fault` is a transaction that
     * does not commit. Undisturbed, the edge applies exactly when the stored status is its source.
     */
    method ApplyEdge(tid: Id, payment: Id, current: PaymentRow, transition: Transition, now: Time, fault: bool)
      returns (outcome: EdgeOutcome)
      requires Reachable(state) && tid !in state.txs && now <= state.clock && Snapshot(state, payment, current)
      requires ScheduledTransition(current.status, current.createdAt, now, state.config.delays, IntentOf(current).scenario) == Some(transition)
      requires alone ==> Idle()
      modifies this
      ensures Reachable(state) && Runs(old(state), state) && tid !in state.txs
      ensures state.config == old(state).config && old(state).clock <= state.clock
      ensures alone ==> Idle() && state.clock == old(state).clock
      ensures Snapshot(state, payment, current)
      ensures alone && !fault && old(state).db.payments[payment] == current ==>
                && outcome == Applied
                && state.db.payments == old(state).db.payments[payment := AfterEdge(current, transition.to, EdgeCode(IntentOf(current), transition.to), now)]
      ensures alone && !fault && old(state).db.payments[payment].status != transition.from ==>
                outcome == Lost && state.db.payments == old(state).db.payments
      ensures fault && alone ==> outcome == RolledBack && state.db == old(state).db
    {
      ghost var start := state;
      BeginEdge(tid, EdgeTx(payment, current, now, transition, Running, NO_WRITES));
      ghost var before := state;
      outcome := FinishEdge(tid, fault);
      RunsTrans(start, before, state);
      StatusNeverMovesBack(start, state, payment);
    }

    /** Swap, attach, commit; or roll back. */
    method FinishEdge(tid: Id, fault: bool) returns (outcome: EdgeOutcome)
      requires Reachable(state) && tid in state.txs && state.txs[tid].Edge? && state.txs[tid].e.pc == Running
      requires state.txs[tid].e.payment in state.db.payments && state.txs[tid].e.w == NO_WRITES
      requires alone ==> state.txs.Keys == {tid}
      modifies this
      ensures Reachable(state) && Runs(old(state), state) && tid !in state.txs
      ensures state.config == old(state).config && old(state).clock <= state.clock
      ensures alone ==> Idle() && state.clock == old(state).clock
      ensures var t := old(state).txs[tid].e;
              alone && !fault && old(state).db.payments[t.payment].status == t.transition.from ==>
                && outcome == Applied
                && state.db.payments == old(state).db.payments[t.payment := AfterEdge(
                     old(state).db.payments[t.payment], t.transition.to, EdgeCode(IntentOf(t.current), t.transition.to), t.now)]
      ensures var t := old(state).txs[tid].e;
              alone && !fault && old(state).db.payments[t.payment].status != t.transition.from ==>
                outcome == Lost && state.db.payments == old(state).db.payments
      ensures fault && alone ==> outcome == RolledBack && state.db == old(state).db
    {
      ghost var start := state;
      var claimed := SwapStatus(tid);
      ghost var before := state;
      if claimed.Failure? {
        Rollback(tid);
        RunsTrans(start, before, state);
        return RolledBack;
      }
      if claimed.value {
        EdgeAttached(tid);
        RunsTrans(start, before, state);
      }
      before := state;
      if fault {
        Rollback(tid);
        outcome := RolledBack;
      } else {
        CommitEdge(tid);
        outcome := if claimed.value then Applied else Lost;
      }
      RunsTrans(start, before, state);
    }

    method BeginEdge(tid: Id, t: EdgeTx)
      requires Reachable(state) && tid !in state.txs && BeginsEdge(state, t)
      modifies this
      ensures Reachable(state) && Runs(old(state), state) && state.config == old(state).config && old(state).clock <= state.clock
      ensures tid in state.txs && state.txs[tid] == Edge(t) && t.payment in state.db.payments
      ensures alone ==> Undisturbed(old(state), state) && state.txs.Keys == old(state).txs.Keys + {tid}
    {
      var next := state.(txs := state.txs[tid := Edge(t)]);
      assert Begin(state, tid, next);
      Take(tid, next);
      ghost var before := state;
      Interfere(tid);
      RunsTrans(old(state), before, state);
      StatusNeverMovesBack(old(state), state, t.payment);
    }

    /** The compare-and-set itself: true when this transaction now owns the edge. */
    method SwapStatus(tid: Id) returns (claimed: Result<bool, Fault>)
      requires Reachable(state) && tid in state.txs && state.txs[tid].Edge? && state.txs[tid].e.pc == Running
      requires state.txs[tid].e.payment in state.db.payments && state.txs[tid].e.w == NO_WRITES
      modifies this
      ensures Reachable(state) && Runs(old(state), state) && state.config == old(state).config && old(state).clock <= state.clock
      ensures tid in state.txs && state.txs[tid].Edge?
      ensures claimed.Success? ==>
                state.txs[tid].e == EdgeAfterSwap(old(state).txs[tid].e, old(state).db.payments[old(state).txs[tid].e.payment], claimed.value)
      ensures claimed.Success? ==>
                (claimed.value <==> old(state).db.payments[old(state).txs[tid].e.payment].status == old(state).txs[tid].e.transition.from)
      ensures alone ==> Undisturbed(old(state), state) && state.txs.Keys == old(state).txs.Keys
      ensures alone && old(state).txs.Keys == {tid} ==> claimed.Success?
    {
      RunsRefl(state);
      var t := state.txs[tid].e;
      var row := state.db.payments[t.payment];
      var won := row.status == t.transition.from;
      if won && !PaymentFree(state.txs, tid, t.payment) { return Failure(TimedOut); }
      var t' := EdgeAfterSwap(t, row, won);
      assert CompareAndSet(state, tid, t, t');
      PerformThen(tid, Edge(t'));
      claimed := Success(won);
    }

    /** The terminal event and its audit entry, if the edge has one. */
    method EdgeAttached(tid: Id)
      requires Reachable(state) && tid in state.txs && state.txs[tid].Edge? && state.txs[tid].e.pc == RowWritten
      modifies this
      ensures Reachable(state) && Runs(old(state), state) && state.config == old(state).config && old(state).clock <= state.clock
      ensures tid in state.txs && state.txs[tid].Edge? && state.txs[tid].e.pc == Done
      ensures state.txs[tid].e.w.inserted == old(state).txs[tid].e.w.inserted
      ensures state.txs[tid].e.w.lock == old(state).txs[tid].e.w.lock
      ensures state.txs[tid].e.w.updated == old(state).txs[tid].e.w.updated
      ensures alone ==> Undisturbed(old(state), state) && state.txs.Keys == old(state).txs.Keys
    {
      var t := state.txs[tid].e;
      match t.transition.event
      case None =>
        t := t.(pc := Done);
        assert PersistTerminal(state, tid, state.txs[tid].e, t);
        PerformThen(tid, Edge(t));
      case Some(kind) =>
        var updated := AfterEdge(t.current, t.transition.to, EdgeCode(IntentOf(t.current), t.transition.to), t.now);
        t := t.(pc := EventWritten,
                w := t.w.(event := Some(Event(Terminal(kind), t.payment, PaymentBody(t.payment, updated), t.now))));
        assert PersistTerminal(state, tid, state.txs[tid].e, t);
        PerformThen(tid, Edge(t));
        ghost var before := state;
        var origin := FirstCreated(state.db.audit, t.payment, t.current.project, t.current.environment);
        t := t.(pc := Done);
        if origin.Some? {
          t := t.(w := t.w.(audit := Some(AuditEntry(Terminal(kind), origin.value.organization, origin.value.actor,
                 t.current.project, t.current.environment, t.payment))));
        }
        assert AuditTerminal(state, tid, state.txs[tid].e, t);
        PerformThen(tid, Edge(t));
        RunsTrans(old(state), before, state);
    }

    method CommitEdge(tid: Id)
      requires Reachable(state) && tid in state.txs && state.txs[tid].Edge? && state.txs[tid].e.pc == Done
      modifies this
      ensures Reachable(state) && Runs(old(state), state) && tid !in state.txs
      ensures state.db.payments == AfterPayments(old(state).db.payments, old(state).txs[tid].e.w)
      ensures state.txs.Keys == old(state).txs.Keys - {tid} && state.clock == old(state).clock && state.config == old(state).config
    {
      var next := state.(db := AfterWrites(state.db, state.txs[tid].e.w), txs := state.txs - {tid});
      assert Commit(state, tid, next);
      Take(tid, next);
    }

    /**
     * `advance`: at most two edges, then the authoritative row. `faults` are the edges whose
     * transaction does not commit; the first of them ends the call. Undisturbed and without faults
     * the result is the one row the schedule prescribes at `now`, whatever calls went before.
     */
    method Advance(tid: Id, payment: Id, row: PaymentRow, now: Time, faults: set<nat>) returns (latest: PaymentRow)
      requires Reachable(state) && tid !in state.txs && now <= state.clock && Snapshot(state, payment, row)
      requires alone ==> Idle()
      modifies this
      ensures Reachable(state) && Runs(old(state), state) && tid !in state.txs
      ensures state.config == old(state).config && old(state).clock <= state.clock
      ensures Snapshot(state, payment, latest) && (latest == row || latest == state.db.payments[payment])
      ensures alone ==> Idle() && state.clock == old(state).clock
      ensures alone && faults == {} && old(state).db.payments[payment] == row && row.updatedAt <= now ==>
                && latest == AdvancedRow(row, now, state.config.delays)
                && latest.status == StatusAt(IntentOf(row).scenario, row.createdAt, now, state.config.delays)
                && state.db.payments == old(state).db.payments[payment := latest]
      ensures alone && old(state).db.payments[payment] == row ==>
                && latest == UpToFault(row, faults, now, state.config.delays)
                && state.db.payments == old(state).db.payments[payment := latest]
    {
      RunsRefl(state);
      var delays := state.config.delays;
      var intent := ParseSimulationScenario(row.scenario);
      var current := row;
      var due := false;
      ghost var smooth := alone && faults == {} && state.db.payments[payment] == row && row.updatedAt <= now;
      if smooth {
        StoredRowOnSchedule(state, payment, now);
        SetOffOnTheWay(state.db.payments, payment, row, now, delays);
      }
      NothingTaken(state.db.payments, payment, row);
      var step: nat := 0;
      var more := true;
      while more && step < 2
        invariant step <= 2
        invariant Reachable(state) && Runs(old(state), state) && tid !in state.txs && old(state).clock <= state.clock
        invariant state.config == old(state).config
        invariant Snapshot(state, payment, current) && SameIdentity(row, current)
        invariant alone ==> Idle() && state.clock == old(state).clock
        invariant !due ==> current == row
        invariant smooth ==> OnTheWay(old(state).db.payments, state.db.payments, payment, row, current, now, delays, step, more)
        invariant alone && old(state).db.payments[payment] == row ==>
                    && state.db.payments == old(state).db.payments[payment := current]
                    && EdgesTaken(row, current, faults, now, delays, step, more)
      {
        var transition := ScheduledTransition(current.status, current.createdAt, now, delays, intent.scenario);
        ghost var (before, was) := (state, current);
        if transition.None? {
          more := false;
        } else {
          due := true;
          var outcome := ApplyEdge(tid, payment, current, transition.value, now, step in faults);
          RunsTrans(old(state), before, state);
          if outcome == Applied {
            current := AfterEdge(current, transition.value.to, EdgeCode(intent, transition.value.to), now);
          } else {
            more := false;
          }
        }
        if alone && old(state).db.payments[payment] == row {
          NextEdgeTaken(row, was, faults, now, delays, step);
        }
        if smooth {
          NextOnTheWay(old(state).db.payments, before.db.payments, state.db.payments, payment, row, was, now, delays, step);
        }
        step := step + 1;
      }
      if smooth {
        ArrivedAfterTwo(old(state).db.payments, state.db.payments, payment, row, current, now, delays, step, more);
      }
      if due {
        latest := state.db.payments[payment];
      } else {
        latest := row;
      }
    }

    /** `advanceDuePayments`: one bounded pass over the rows whose schedule is complete. */
    method AdvanceDuePayments(tid: Id, now: Time, batch: nat) returns (advanced: nat)
      requires Reachable(state) && tid !in state.txs && now <= state.clock
      requires alone ==> Idle()
      requires alone ==> forall p :: p in state.db.payments ==> state.db.payments[p].updatedAt <= now
      modifies this
      ensures Reachable(state) && Runs(old(state), state) && tid !in state.txs
      ensures var n := |DueIds(old(state).db.payments, now, state.config.delays)|;
              && advanced <= Min(n, batch)
              && (alone ==> advanced == Min(n, batch))
      ensures alone ==> Idle() && state.db.payments == Swept(old(state).db.payments, now, batch, state.config.delays)
      ensures alone && |EdgeDueIds(old(state).db.payments, now, state.config.delays)| <= batch ==>
                forall p :: p in state.db.payments && ScheduleComplete(state.db.payments[p], now, state.config.delays) ==>
                  state.db.payments[p].status == StatusAt(IntentOf(state.db.payments[p]).scenario, state.db.payments[p].createdAt, now, state.config.delays)
    {
      var due := FirstOf(DueIds(state.db.payments, now, state.config.delays), batch);
      assert forall k :: 0 <= k < |due| ==> due[k] in due;
      AllMove(state.db.payments, due, now, state.config.delays);
      advanced := SweepRows(tid, now, due);
      if alone && |EdgeDueIds(old(state).db.payments, now, state.config.delays)| <= batch {
        SweptSettles(old(state), now, batch);
      }
    }

    /** The loop of the pass over the rows the query returned. */
    method SweepRows(tid: Id, now: Time, due: seq<Id>) returns (advanced: nat)
      requires Reachable(state) && tid !in state.txs && now <= state.clock
      requires alone ==> Idle()
      requires Ascending(due)
      requires forall k :: 0 <= k < |due| ==> due[k] in state.db.payments
      requires alone ==> forall k :: 0 <= k < |due| ==> state.db.payments[due[k]].updatedAt <= now
      modifies this
      ensures Reachable(state) && Runs(old(state), state) && tid !in state.txs && state.config == old(state).config
      ensures advanced <= |due| && (alone ==> advanced == Moved(old(state).db.payments, due, now, state.config.delays))
      ensures alone ==> Idle() && state.db.payments == AdvancedRows(old(state).db.payments, due, now, state.config.delays)
    {
      RunsRefl(state);
      var rows := state.db.payments;
      PassBegun(rows, due, now, state.config.delays);
      FreshSnapshots(state, due);
      advanced := SweepLoop(tid, now, due, rows);
      if alone {
        PassEnded(state.db.payments, rows, due, now, state.config.delays, advanced);
      }
    }

    method SweepLoop(tid: Id, now: Time, due: seq<Id>, rows: map<Id, PaymentRow>) returns (advanced: nat)
      requires Reachable(state) && tid !in state.txs && now <= state.clock && Ascending(due) && Snapshots(state, due, rows)
      requires alone ==> Idle() && Passed(state.db.payments, rows, due, 0, now, state.config.delays, 0)
      requires alone ==> forall k :: 0 <= k < |due| ==> rows[due[k]].updatedAt <= now
      modifies this
      ensures Reachable(state) && Runs(old(state), state) && tid !in state.txs && state.config == old(state).config
      ensures advanced <= |due| && Snapshots(state, due, rows)
      ensures alone ==> Idle() && Passed(state.db.payments, rows, due, |due|, now, state.config.delays, advanced)
    {
      RunsRefl(state);
      advanced := 0;
      var i := 0;
      while i < |due|
        invariant 0 <= i <= |due| && advanced <= i
        invariant Reachable(state) && Runs(old(state), state) && tid !in state.txs && now <= state.clock
        invariant state.config == old(state).config && Snapshots(state, due, rows)
        invariant alone ==> Idle() && Passed(state.db.payments, rows, due, i, now, state.config.delays, advanced)
      {
        advanced := SweepNext(tid, rows, due, i, now, advanced, old(state));
        i := i + 1;
      }
    }

    /** One iteration of the loop. */
    method SweepNext(tid: Id, rows: map<Id, PaymentRow>, due: seq<Id>, i: nat, now: Time, sofar: nat, ghost start: State)
      returns (advanced: nat)
      requires Reachable(state) && Runs(start, state) && tid !in state.txs && now <= state.clock
      requires Ascending(due) && i < |due| && Snapshots(state, due, rows)
      requires alone ==> rows[due[i]].updatedAt <= now && Idle()
      requires alone ==> Passed(state.db.payments, rows, due, i, now, state.config.delays, sofar)
      modifies this
      ensures Reachable(state) && Runs(start, state) && tid !in state.txs && now <= state.clock
      ensures state.config == old(state).config && Snapshots(state, due, rows)
      ensures sofar <= advanced <= sofar + 1
      ensures alone ==> Idle() && Passed(state.db.payments, rows, due, i + 1, now, state.config.delays, advanced)
    {
      NextIsFresh(due, i);
      OneMoreMoved(rows, due, i, now, state.config.delays);
      var moved := SweepOne(tid, rows, due[..i], due[i], rows[due[i]], now);
      RunsTrans(start, old(state), state);
      SnapshotsSurvive(old(state), state, due, rows);
      advanced := if moved then sofar + 1 else sofar;
    }

    /** `catchUpEnvironment`: every open payment of one project and environment, before a page is read. */
    method CatchUpEnvironment(tid: Id, project: Id, environment: string, now: Time)
      requires Reachable(state) && tid !in state.txs && now <= state.clock
      requires alone ==> Idle() && forall p :: p in state.db.payments ==> state.db.payments[p].updatedAt <= now
      modifies this
      ensures Reachable(state) && Runs(old(state), state) && tid !in state.txs
      ensures alone ==> Idle() && state.db.payments == CaughtUp(old(state).db.payments, project, environment, now, state.config.delays)
    {
      var _ := SweepRows(tid, now, OpenIds(state.db.payments, project, environment));
    }

    /** One row of a pass; `done` are the rows before it. */
    method SweepOne(tid: Id, ghost rows: map<Id, PaymentRow>, ghost done: seq<Id>, p: Id, row: PaymentRow, now: Time)
      returns (moved: bool)
      requires Reachable(state) && tid !in state.txs && now <= state.clock
      requires Snapshot(state, p, row) && p in rows && p !in done && rows[p] == row
      requires alone ==> row.updatedAt <= now && Idle() && state.db.payments == AdvancedRows(rows, done, now, state.config.delays)
      modifies this
      ensures Reachable(state) && Runs(old(state), state) && tid !in state.txs
      ensures state.config == old(state).config && old(state).clock <= state.clock
      ensures alone ==> Idle() && state.db.payments == AdvancedRows(rows, done + [p], now, state.config.delays)
      ensures alone ==> (moved <==> AdvancedRow(row, now, state.config.delays).status != row.status)
    {
      OneMoreAdvanced(rows, done, p, now, state.config.delays);
      var after := Advance(tid, p, row, now, {});
      moved := after.status != row.status;
    }
  }
}
