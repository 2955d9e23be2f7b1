/** One statement keeps the invariant: it only extends its own transaction's buffer and locks. */
module LedgerStatements {
  import opened Common
  import opened PaymentScenarios
  import opened PaymentSimulation
  import opened LedgerState
  import opened LedgerInvariant

  /** What `t'` holds beyond `t` was free. */
  ghost predicate Acquires(s: State, tid: Id, t: Tx, t': Tx) {
    && (LockOf(t') == LockOf(t) || (LockOf(t').Some? && PaymentFree(s.txs, tid, LockOf(t').value)))
    && (InsertedId(t') == InsertedId(t) || (InsertedId(t').Some? && IdFree(s, tid, InsertedId(t').value)))
    && DirectId(t') == DirectId(t)
    && (ClaimedKey(t') == ClaimedKey(t) || (ClaimedKey(t').Some? && KeyUnclaimed(s.txs, tid, ClaimedKey(t').value)))
    && (forall k :: k in DeletedKeys(t') && k !in DeletedKeys(t) ==> RecordFree(s.txs, tid, k))
  }

  lemma InsertClaimOk(s: State, tid: Id, t: RequestTx, t': RequestTx)
    requires RequestOk(s, t) && InsertClaim(s, tid, t, t')
    ensures RequestOk(s, t') && Acquires(s, tid, Request(t), Request(t'))
  {
  }

  lemma FoundRecordOk(s: State, t: RequestTx)
    requires LogOk(s.log, s.clock) && RecordsOk(s.db.records, s.log, s.clock)
    requires RequestOk(s, t) && t.pc.ClaimFind? && t.key.Some?
    requires t.key.value in s.db.records && s.db.records[t.key.value].expiresAt > t.now
    ensures RequestOk(s, t.(pc := Replaying(s.db.records[t.key.value], |s.log|)))
  {
    FoundIsCurrent(s, t.key.value, t.now, t.startedAt);
  }

  lemma FindRecordOk(s: State, tid: Id, t: RequestTx, t': RequestTx)
    requires LogOk(s.log, s.clock) && RecordsOk(s.db.records, s.log, s.clock)
    requires RequestOk(s, t) && FindRecord(s, tid, t, t')
    ensures RequestOk(s, t') && Acquires(s, tid, Request(t), Request(t'))
  {
    var record := VisibleRecord(s.db, t, t.key.value);
    if record.Some? && record.value.expiresAt > t.now {
      FoundRecordOk(s, t);
    } else {
      assert t' == t.(pc := t'.pc) && (t'.pc.ClaimInsert? || t'.pc.ClaimDelete?);
    }
  }

  lemma DeleteExpiredOk(s: State, tid: Id, t: RequestTx, t': RequestTx)
    requires RequestOk(s, t) && DeleteExpired(s, tid, t, t')
    ensures RequestOk(s, t') && Acquires(s, tid, Request(t), Request(t'))
  {
  }

  lemma StoreResponseOk(s: State, tid: Id, t: RequestTx, t': RequestTx)
    requires RequestOk(s, t) && StoreResponse(s, tid, t, t')
    ensures RequestOk(s, t') && Acquires(s, tid, Request(t), Request(t'))
  {
  }

  lemma PruneRowOk(s: State, tid: Id, t: RequestTx, t': RequestTx)
    requires RequestOk(s, t) && PruneRow(s, tid, t, t')
    ensures RequestOk(s, t') && Acquires(s, tid, Request(t), Request(t'))
  {
    var key :| key in t.pc.todo && PruneKey(s, tid, t, key, t');
    DeletingKeepsClaim(s.db.records, t, t', key, s.config.retentionMs);
    assert t.op.CreatePayment? ==> CreateOk(s.db, t', s.clock);
    assert t.op.CreateRefund? ==> RefundOk(s.db, t');
  }

  lemma DeletingKeepsClaim(records: map<Key, Record>, t: RequestTx, t': RequestTx, key: Key, retentionMs: nat)
    requires ClaimOk(records, t, retentionMs) && t.pc.Pruning? && t'.pc.Pruning?
    requires t' == t.(pc := t'.pc, del := t'.del)
    requires t'.del == t.del || (key in records && records[key].expiresAt <= t.now && t'.del == t.del[key := records[key].id])
    ensures ClaimOk(records, t', retentionMs)
  {
  }

  lemma EndStatementOk(s: State, tid: Id, t: RequestTx, t': RequestTx)
    requires RequestOk(s, t) && (EndPrune(s, tid, t, t') || EndKeyless(s, tid, t, t'))
    ensures RequestOk(s, t') && Acquires(s, tid, Request(t), Request(t'))
  {
  }

  lemma ClaimStatementOk(s: State, tid: Id, t: RequestTx, t': RequestTx)
    requires LogOk(s.log, s.clock) && RecordsOk(s.db.records, s.log, s.clock)
    requires RequestOk(s, t) && ClaimStatement(s, tid, t, t')
    ensures RequestOk(s, t') && Acquires(s, tid, Request(t), Request(t'))
  {
    if InsertClaim(s, tid, t, t') {
      InsertClaimOk(s, tid, t, t');
    } else if FindRecord(s, tid, t, t') {
      FindRecordOk(s, tid, t, t');
    } else if DeleteExpired(s, tid, t, t') {
      DeleteExpiredOk(s, tid, t, t');
    } else if StoreResponse(s, tid, t, t') {
      StoreResponseOk(s, tid, t, t');
    } else if PruneRow(s, tid, t, t') {
      PruneRowOk(s, tid, t, t');
    } else {
      EndStatementOk(s, tid, t, t');
    }
  }

  /** An active committed record is the one every later replay rule asks for. */
  lemma FoundIsCurrent(s: State, key: Key, now: Time, startedAt: nat)
    requires LogOk(s.log, s.clock) && RecordsOk(s.db.records, s.log, s.clock)
    requires key in s.db.records && s.db.records[key].expiresAt > now && startedAt <= |s.log|
    ensures ReplayOk(s.log, s.clock, key, s.db.records[key], now, startedAt, |s.log|)
  {
  }

  lemma PaymentStatementOk(s: State, tid: Id, t: RequestTx, t': RequestTx)
    requires RequestOk(s, t) && PaymentStatement(s, tid, t, t')
    ensures RequestOk(s, t') && Acquires(s, tid, Request(t), Request(t'))
  {
  }

  lemma LockStatementOk(s: State, tid: Id, t: RequestTx, t': RequestTx)
    requires RequestOk(s, t) && (LockPayment(s, tid, t, t') || ReadPayment(s, tid, t, t') || ReadBalance(s, tid, t, t'))
    ensures RequestOk(s, t') && Acquires(s, tid, Request(t), Request(t'))
  {
  }

  lemma InsertRefundOk(s: State, tid: Id, t: RequestTx, t': RequestTx)
    requires RequestOk(s, t) && InsertRefund(s, tid, t, t')
    ensures RequestOk(s, t') && Acquires(s, tid, Request(t), Request(t'))
  {
  }

  lemma AttachToRefundOk(s: State, tid: Id, t: RequestTx, t': RequestTx)
    requires RequestOk(s, t) && (PersistRefundEvent(s, tid, t, t') || AuditRefund(s, tid, t, t'))
    ensures RequestOk(s, t') && Acquires(s, tid, Request(t), Request(t'))
  {
  }

  lemma RefundStatementOk(s: State, tid: Id, t: RequestTx, t': RequestTx)
    requires RequestOk(s, t) && RefundStatement(s, tid, t, t')
    ensures RequestOk(s, t') && Acquires(s, tid, Request(t), Request(t'))
  {
    if LockPayment(s, tid, t, t') || ReadPayment(s, tid, t, t') || ReadBalance(s, tid, t, t') {
      LockStatementOk(s, tid, t, t');
    } else if InsertRefund(s, tid, t, t') {
      InsertRefundOk(s, tid, t, t');
    } else {
      AttachToRefundOk(s, tid, t, t');
    }
  }

  ghost predicate HasEntry(audit: seq<AuditEntry>, payment: Id, action: EventType) {
    exists i :: 0 <= i < |audit| && audit[i].payment == payment && audit[i].action == action
  }

  /** The entry the edge is attributed to exists as soon as one was ever written for the payment. */
  lemma {:induction false} FirstCreatedFound(audit: seq<AuditEntry>, payment: Id, row: PaymentRow, origin: Origin)
    requires forall i :: 0 <= i < |audit| && audit[i].payment == payment && audit[i].action != RefundCreated
               ==> Names(audit[i], row, origin)
    ensures var found := FirstCreated(audit, payment, row.project, row.environment);
            && (found.Some? ==> Names(found.value, row, origin))
            && (HasEntry(audit, payment, Created) ==> found.Some?)
  {
    if |audit| > 0 {
      var tail := audit[1..];
      if HasEntry(audit, payment, Created) && audit[0].action != Created {
        var i :| 0 <= i < |audit| && audit[i].payment == payment && audit[i].action == Created;
        assert tail[i - 1] == audit[i];
      } else if HasEntry(audit, payment, Created) && audit[0].payment != payment {
        var i :| 0 <= i < |audit| && audit[i].payment == payment && audit[i].action == Created;
        assert tail[i - 1] == audit[i];
      }
      FirstCreatedFound(tail, payment, row, origin);
    }
  }

  lemma {:induction false} CountedAuditExists(audit: seq<AuditEntry>, payment: Id, action: EventType)
    requires CountAudit(audit, payment, action) > 0
    ensures HasEntry(audit, payment, action)
  {
    var last := |audit| - 1;
    if audit[last].payment != payment || audit[last].action != action {
      CountedAuditExists(audit[..last], payment, action);
      var i :| 0 <= i < last && audit[..last][i].payment == payment && audit[..last][i].action == action;
      assert audit[i].payment == payment;
    }
  }

  lemma EdgeStatementOk(s: State, tid: Id, t: EdgeTx, t': EdgeTx)
    requires Inv(s) && EdgeOk(s.db, s.origins, s.clock, s.config.delays, t)
    requires EdgeStatement(s, tid, t, t')
    ensures EdgeOk(s.db, s.origins, s.clock, s.config.delays, t') && Acquires(s, tid, Edge(t), Edge(t'))
  {
    if AuditTerminal(s, tid, t, t') {
      assert PaymentOk(s.db, s.origins, s.clock, s.config.delays, t.payment);
      FirstCreatedFound(s.db.audit, t.payment, s.db.payments[t.payment], s.origins[t.payment]);
      if s.origins[t.payment].atomic {
        CountedAuditExists(s.db.audit, t.payment, Created);
      }
    }
  }

  lemma AcquiresKeepsApart(s: State, tid: Id, t': Tx)
    requires TxsOk(s) && tid in s.txs && Acquires(s, tid, s.txs[tid], t')
    ensures forall other :: other in s.txs && other != tid ==> Apart(t', s.txs[other]) && Apart(s.txs[other], t')
  {
    forall other | other in s.txs && other != tid
      ensures Apart(t', s.txs[other]) && Apart(s.txs[other], t')
    {
      assert Apart(s.txs[tid], s.txs[other]) && Apart(s.txs[other], s.txs[tid]);
    }
  }

  lemma StatementOk(s: State, tid: Id, t': Tx)
    requires Inv(s) && tid in s.txs && Statement(s, tid, s.txs[tid], t')
    ensures TxOk(s, t') && Acquires(s, tid, s.txs[tid], t')
  {
    var t := s.txs[tid];
    assert TxOk(s, t);
    match t
    case Request(r) =>
      if ClaimStatement(s, tid, r, t'.r) {
        ClaimStatementOk(s, tid, r, t'.r);
      } else if PaymentStatement(s, tid, r, t'.r) {
        PaymentStatementOk(s, tid, r, t'.r);
      } else {
        RefundStatementOk(s, tid, r, t'.r);
      }
    case Edge(e) => EdgeStatementOk(s, tid, e, t'.e);
    case Direct(_) =>
  }

  lemma LocalKeepsInv(s: State, tid: Id, s': State)
    requires Inv(s) && Local(s, tid, s')
    ensures Inv(s')
  {
    var t' := s'.txs[tid];
    StatementOk(s, tid, t');
    AcquiresKeepsApart(s, tid, t');
    SameTables(s, s');
  }

  lemma BeginsOk(s: State, t: Tx)
    requires DbOk(s.db, s.origins, s.clock, s.config.delays)
    requires (t.Request? && BeginsRequest(s, t.r)) || (t.Edge? && BeginsEdge(s, t.e)) || (t.Direct? && BeginsDirect(t.d))
    ensures TxOk(s, t)
    ensures LockOf(t) == None && InsertedId(t) == None && DirectId(t) == None && ClaimedKey(t) == None && DeletedKeys(t) == {}
  {
    if t.Edge? {
      assert PaymentOk(s.db, s.origins, s.clock, s.config.delays, t.e.payment);
    }
  }

  lemma BeginKeepsInv(s: State, tid: Id, s': State)
    requires Inv(s) && Begin(s, tid, s')
    ensures Inv(s')
  {
    BeginsOk(s, s'.txs[tid]);
    SameTables(s, s');
  }

  /** A transaction's condition is about the tables, the clock and the log only. */
  lemma SameTables(s: State, s': State)
    requires s'.db == s.db && s'.clock == s.clock && s'.config == s.config && s'.log == s.log && s'.origins == s.origins
    ensures forall t :: TxOk(s, t) ==> TxOk(s', t)
  {
  }

  lemma AbortKeepsInv(s: State, tid: Id, s': State)
    requires Inv(s) && Abort(s, tid, s')
    ensures Inv(s')
  {
    SameTables(s, s');
  }

  lemma TickKeepsInv(s: State, s': State)
    requires Inv(s) && Tick(s, s')
    ensures Inv(s')
  {
    forall other | other in s'.txs
      ensures TxOk(s', s'.txs[other])
    {
      assert TxOk(s, s.txs[other]);
    }
    forall p | p in s'.db.payments
      ensures PaymentOk(s'.db, s'.origins, s'.clock, s'.config.delays, p)
    {
      assert PaymentOk(s.db, s.origins, s.clock, s.config.delays, p);
    }
  }
}
