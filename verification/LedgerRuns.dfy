/** Every step keeps the invariant, so every reachable state satisfies it. */
module LedgerRuns {
  import opened Common
  import opened PaymentScenarios
  import opened PaymentSimulation
  import opened LedgerState
  import opened LedgerInvariant
  import opened LedgerStatements
  import opened LedgerCommit

  /** What any writer's buffer may contain, seen from the other payments. */
  ghost predicate WritesOk(db: Db, w: Writes) {
    && AboutSubject(w)
    && (w.inserted.Some? ==> w.inserted.value.0 !in db.payments && w.lock == None && w.refund == None)
    && (w.lock.Some? ==> w.lock.value in db.payments)
    && (w.updated.Some? ==> w.lock.Some? && SameIdentity(db.payments[w.lock.value], w.updated.value))
    && (w.event.Some? && w.event.value.kind == Created ==> w.inserted.Some?)
    && (w.audit.Some? && w.audit.value.action == Created ==> w.inserted.Some?)
  }

  lemma RequestWritesOk(db: Db, t: RequestTx, clock: Time)
    requires t.op.CreatePayment? ==> CreateOk(db, t, clock)
    requires t.op.CreateRefund? ==> RefundOk(db, t)
    requires t.pc.Done? || (t.pc.Replaying? && t.w == NO_WRITES)
    ensures WritesOk(db, t.w)
  {
  }

  lemma WritesInterfere(db: Db, origins: map<Id, Origin>, origins': map<Id, Origin>, w: Writes, records: map<Key, Record>)
    requires WritesOk(db, w)
    requires forall p :: p in origins && p in db.payments ==> p in origins' && origins'[p] == origins[p]
    ensures Interferes(db, origins, AfterWrites(db, w).(records := records), origins', w.lock,
                       if w.inserted.Some? then Some(w.inserted.value.0) else None, None)
  {
    forall p | p in db.payments
      ensures CountEvents(AfterWrites(db, w).events, p, Created) == CountEvents(db.events, p, Created)
      ensures CountAudit(AfterWrites(db, w).audit, p, Created) == CountAudit(db.audit, p, Created)
    {
      EventAppended(db.events, w.event, p, Created);
      AuditAppended(db.audit, w.audit, p, Created);
    }
    forall p | p in db.payments && w.lock != Some(p)
      ensures SumRefunds(AfterWrites(db, w).refunds, p) == SumRefunds(db.refunds, p)
    {
      RefundAppended(db.refunds, w.refund, p);
    }
  }

  /** Payments the writes are not about. */
  lemma OthersAfterWrites(db: Db, origins: map<Id, Origin>, origins': map<Id, Origin>, clock: Time, delays: SimulationDelays, w: Writes)
    requires DbOk(db, origins, clock, delays) && WritesOk(db, w)
    requires forall p :: p in db.payments ==> p in origins' && origins'[p] == origins[p]
    ensures forall p :: p in AfterWrites(db, w).payments && Subject(w) != Some(p) ==>
              PaymentOk(AfterWrites(db, w), origins', clock, delays, p)
    ensures forall p :: p !in AfterWrites(db, w).payments ==> Unused(AfterWrites(db, w), p)
  {
    var db' := AfterWrites(db, w);
    forall p | p in db'.payments && Subject(w) != Some(p)
      ensures PaymentOk(db', origins', clock, delays, p)
    {
      assert PaymentOk(db, origins, clock, delays, p);
      OtherPaymentKept(db, origins, origins', clock, delays, w, p);
    }
    forall p | p !in db'.payments
      ensures Unused(db', p)
    {
      UnusedKept(db, w, p);
    }
  }

  lemma DbAfterRequest(s: State, t: RequestTx)
    requires DbOk(s.db, s.origins, s.clock, s.config.delays) && RequestOk(s, t) && ReadyToCommit(Request(t))
    ensures DbOk(AfterWrites(s.db, t.w), AfterOrigins(s.origins, t), s.clock, s.config.delays)
  {
    var db, w, origins' := s.db, t.w, AfterOrigins(s.origins, t);
    RequestWritesOk(db, t, s.clock);
    assert forall p :: p in db.payments ==> PaymentOk(db, s.origins, s.clock, s.config.delays, p);
    OthersAfterWrites(db, s.origins, origins', s.clock, s.config.delays, w);
    if w.inserted.Some? {
      NewPaymentOk(db, origins', s.clock, s.config.delays, w, w.inserted.value.0,
                   Origin(true, t.scope, t.op));
    } else if w.lock.Some? {
      RefundedPaymentOk(db, s.origins, s.clock, s.config.delays, t);
    }
  }

  lemma RecordsDoNotMatter(db: Db, records: map<Key, Record>, origins: map<Id, Origin>, clock: Time, delays: SimulationDelays)
    requires DbOk(db, origins, clock, delays)
    ensures DbOk(db.(records := records), origins, clock, delays)
  {
    forall p | p in db.payments
      ensures PaymentOk(db.(records := records), origins, clock, delays, p)
    {
      assert PaymentOk(db, origins, clock, delays, p);
    }
  }

  lemma RequestInterferes(s: State, s': State, tid: Id)
    requires Inv(s) && Commit(s, tid, s') && s.txs[tid].Request?
    ensures Interferes(s.db, s.origins, s'.db, s'.origins, LockOf(s.txs[tid]), InsertedId(s.txs[tid]), None)
  {
    var t := s.txs[tid].r;
    assert TxOk(s, s.txs[tid]);
    RequestWritesOk(s.db, t, s.clock);
    WritesInterfere(s.db, s.origins, s'.origins, t.w, s'.db.records);
  }

  lemma OtherRequestAfterRequest(s: State, s': State, tid: Id, t: RequestTx, r: RequestTx)
    requires Commit(s, tid, s') && s.txs[tid] == Request(t)
    requires Interferes(s.db, s.origins, s'.db, s'.origins, LockOf(Request(t)), InsertedId(Request(t)), None)
    requires RequestOk(s, t) && RequestOk(s, r) && Apart(Request(t), Request(r)) && Apart(Request(r), Request(t))
    ensures RequestOk(s', r)
  {
    ClaimUndisturbed(s.db.records, t, r, s.config.retentionMs);
    RequestUndisturbed(s.db, s.origins, s'.db, s'.origins, LockOf(Request(t)), InsertedId(Request(t)), None, r, s.clock);
    if r.pc.Replaying? {
      ReplayStillOk(s.log, OutcomeOf(t, s.clock), s.clock, r.key.value, r.pc.found, r.now, r.startedAt, r.pc.foundAt);
    }
  }

  lemma OtherAfterRequest(s: State, s': State, tid: Id, other: Id)
    requires Inv(s) && other in s.txs && other != tid
    requires Commit(s, tid, s') && s.txs[tid].Request?
    ensures TxOk(s', s.txs[other])
  {
    var t := s.txs[tid];
    assert TxOk(s, t) && TxOk(s, s.txs[other]);
    assert Apart(t, s.txs[other]) && Apart(s.txs[other], t);
    RequestInterferes(s, s', tid);
    match s.txs[other]
    case Request(r) =>
      OtherRequestAfterRequest(s, s', tid, t.r, r);
    case Edge(e) =>
      EdgeUndisturbed(s.db, s.origins, s'.db, s'.origins, LockOf(t), InsertedId(t), None, e, s.clock, s.config.delays);
    case Direct(d) =>
      DirectUndisturbed(s.db, s.origins, s'.db, s'.origins, LockOf(t), InsertedId(t), None, d, s.clock);
  }

  lemma RequestCommitKeepsInv(s: State, tid: Id, s': State)
    requires Inv(s) && Commit(s, tid, s') && s.txs[tid].Request?
    ensures Inv(s')
  {
    var t := s.txs[tid].r;
    assert TxOk(s, s.txs[tid]);
    LogAfterCommit(s, t);
    RecordsAfterCommit(s, t);
    DbAfterRequest(s, t);
    RecordsDoNotMatter(AfterWrites(s.db, t.w), s'.db.records, s'.origins, s.clock, s.config.delays);
    forall other | other in s'.txs
      ensures TxOk(s', s'.txs[other])
    {
      OtherAfterRequest(s, s', tid, other);
    }
  }

  lemma DbAfterEdge(s: State, t: EdgeTx)
    requires DbOk(s.db, s.origins, s.clock, s.config.delays)
    requires EdgeOk(s.db, s.origins, s.clock, s.config.delays, t) && t.pc.Done?
    ensures WritesOk(s.db, t.w)
    ensures DbOk(AfterWrites(s.db, t.w), s.origins, s.clock, s.config.delays)
  {
    assert forall p :: p in s.db.payments ==> PaymentOk(s.db, s.origins, s.clock, s.config.delays, p);
    OthersAfterWrites(s.db, s.origins, s.origins, s.clock, s.config.delays, t.w);
    if t.w != NO_WRITES {
      AdvancedPaymentOk(s.db, s.origins, s.clock, s.config.delays, t);
    }
  }

  lemma OtherAfterEdge(s: State, s': State, tid: Id, other: Id)
    requires Inv(s) && tid in s.txs && other in s.txs && other != tid && s.txs[tid].Edge?
    requires Commit(s, tid, s')
    ensures TxOk(s', s.txs[other])
  {
    var t := s.txs[tid].e;
    assert TxOk(s, s.txs[tid]) && TxOk(s, s.txs[other]);
    assert Apart(s.txs[tid], s.txs[other]) && Apart(s.txs[other], s.txs[tid]);
    DbAfterEdge(s, t);
    WritesInterfere(s.db, s.origins, s'.origins, t.w, s'.db.records);
    match s.txs[other]
    case Request(r) =>
      RequestUndisturbed(s.db, s.origins, s'.db, s'.origins, t.w.lock, None, None, r, s.clock);
    case Edge(e) =>
      EdgeUndisturbed(s.db, s.origins, s'.db, s'.origins, t.w.lock, None, None, e, s.clock, s.config.delays);
    case Direct(d) =>
      DirectUndisturbed(s.db, s.origins, s'.db, s'.origins, t.w.lock, None, None, d, s.clock);
  }

  lemma EdgeCommitKeepsInv(s: State, tid: Id, s': State)
    requires Inv(s) && Commit(s, tid, s') && s.txs[tid].Edge?
    ensures Inv(s')
  {
    assert TxOk(s, s.txs[tid]);
    DbAfterEdge(s, s.txs[tid].e);
    forall other | other in s'.txs
      ensures TxOk(s', s'.txs[other])
    {
      OtherAfterEdge(s, s', tid, other);
    }
  }

  // ---------------------------------------------------------------------------------------------
  // Autocommitted statements
  // ---------------------------------------------------------------------------------------------

  /** The effect of one autocommitted statement, as if it were a tiny transaction's writes. */
  ghost function DirectWrites(t: DirectTx, inserted: Option<(Id, PaymentRow)>): Writes
    requires !t.pc.Running? ==> t.row.Some?
  {
    if t.pc.Running? then NO_WRITES.(inserted := inserted)
    else if t.pc.RowWritten? then
      Writes(Some(t.row.value.0), None, None, None, Some(CreatedEvent(t.row.value.0, t.row.value.1)), None)
    else
      Writes(Some(t.row.value.0), None, None, None, None, Some(CreatedEntry(t.scope, t.row.value.0, t.row.value.1)))
  }

  lemma OwnAfterDirect(s: State, t: DirectTx)
    requires DbOk(s.db, s.origins, s.clock, s.config.delays) && DirectOk(s.db, s.origins, s.clock, t) && !t.pc.Running?
    requires PaymentOk(s.db, s.origins, s.clock, s.config.delays, t.row.value.0)
    ensures var (db', id) := (AfterWrites(s.db, DirectWrites(t, None)), t.row.value.0);
            && id in db'.payments && PaymentOk(db', s.origins, s.clock, s.config.delays, id)
            && (t.pc.RowWritten? ==> CountEvents(db'.events, id, Created) == 1 && CountAudit(db'.audit, id, Created) == 0)
  {
    var id, w := t.row.value.0, DirectWrites(t, None);
    EventAppended(s.db.events, w.event, id, Terminal(PaymentSucceeded));
    EventAppended(s.db.events, w.event, id, Terminal(PaymentFailed));
    EventAppended(s.db.events, w.event, id, Created);
    EventAppended(s.db.events, w.event, id, RefundCreated);
    AuditAppended(s.db.audit, w.audit, id, Terminal(PaymentSucceeded));
    AuditAppended(s.db.audit, w.audit, id, Terminal(PaymentFailed));
    AuditAppended(s.db.audit, w.audit, id, Created);
  }

  lemma DirectInterferes(s: State, tid: Id, s': State)
    requires Inv(s) && DirectStatement(s, tid, s')
    ensures var t := s.txs[tid].d;
            if t.pc.Running? then
              Interferes(s.db, s.origins, s'.db, s'.origins, None, Some(s'.txs[tid].d.row.value.0), None)
            else
              Interferes(s.db, s.origins, s'.db, s'.origins, None, None, Some(t.row.value.0))
  {
    var t := s.txs[tid].d;
    assert TxOk(s, s.txs[tid]);
    if !t.pc.Running? {
      var w := DirectWrites(t, None);
      forall p | p in s.db.payments && p != t.row.value.0
        ensures CountEvents(s'.db.events, p, Created) == CountEvents(s.db.events, p, Created)
        ensures CountAudit(s'.db.audit, p, Created) == CountAudit(s.db.audit, p, Created)
      {
        EventAppended(s.db.events, w.event, p, Created);
        AuditAppended(s.db.audit, w.audit, p, Created);
      }
    }
  }

  lemma DbAfterDirectInsert(s: State, tid: Id, s': State)
    requires Inv(s) && DirectStatement(s, tid, s') && s.txs[tid].d.pc.Running?
    ensures DbOk(s'.db, s'.origins, s'.clock, s'.config.delays)
    ensures tid in s'.txs && TxOk(s', s'.txs[tid])
  {
    var t, inserted := s.txs[tid].d, s'.txs[tid].d.row;
    assert TxOk(s, s.txs[tid]);
    var id, w := inserted.value.0, DirectWrites(t, inserted);
    OthersAfterWrites(s.db, s.origins, s'.origins, s.clock, s.config.delays, w);
    NewPaymentOk(s.db, s'.origins, s.clock, s.config.delays, w, id, Origin(false, t.scope, t.op));
    NoEventsCountZero(s.db.events, id, Created);
    NoAuditCountZero(s.db.audit, id, Created);
    assert s'.db == AfterWrites(s.db, w);
  }

  lemma DbAfterDirectAppend(s: State, tid: Id, s': State)
    requires Inv(s) && DirectStatement(s, tid, s') && !s.txs[tid].d.pc.Running?
    ensures DbOk(s'.db, s'.origins, s'.clock, s'.config.delays)
    ensures tid in s'.txs ==> TxOk(s', s'.txs[tid])
  {
    var t := s.txs[tid].d;
    assert TxOk(s, s.txs[tid]);
    var id, w := t.row.value.0, DirectWrites(t, None);
    assert PaymentOk(s.db, s.origins, s.clock, s.config.delays, id);
    OthersAfterDirect(s, w, id);
    OwnAfterDirect(s, t);
    assert s'.db == AfterWrites(s.db, w);
  }

  lemma DbAfterDirect(s: State, tid: Id, s': State)
    requires Inv(s) && DirectStatement(s, tid, s')
    ensures DbOk(s'.db, s'.origins, s'.clock, s'.config.delays)
    ensures tid in s'.txs ==> TxOk(s', s'.txs[tid])
  {
    if s.txs[tid].d.pc.Running? {
      DbAfterDirectInsert(s, tid, s');
    } else {
      DbAfterDirectAppend(s, tid, s');
    }
  }

  lemma OthersAfterDirect(s: State, w: Writes, id: Id)
    requires DbOk(s.db, s.origins, s.clock, s.config.delays) && AboutSubject(w) && Subject(w) == Some(id) && id in s.db.payments
    requires w.inserted == None && w.updated == None
    ensures forall p :: p in AfterWrites(s.db, w).payments && p != id ==>
              PaymentOk(AfterWrites(s.db, w), s.origins, s.clock, s.config.delays, p)
    ensures forall p :: p !in AfterWrites(s.db, w).payments ==> Unused(AfterWrites(s.db, w), p)
  {
    var db' := AfterWrites(s.db, w);
    forall p | p in db'.payments && p != id
      ensures PaymentOk(db', s.origins, s.clock, s.config.delays, p)
    {
      assert PaymentOk(s.db, s.origins, s.clock, s.config.delays, p);
      OtherPaymentKept(s.db, s.origins, s.origins, s.clock, s.config.delays, w, p);
    }
    forall p | p !in db'.payments
      ensures Unused(db', p)
    {
      UnusedKept(s.db, w, p);
    }
  }

  lemma OtherAfterDirect(s: State, tid: Id, s': State, other: Id)
    requires Inv(s) && DirectStatement(s, tid, s') && other in s.txs && other != tid
    ensures TxOk(s', s.txs[other])
  {
    var t := s.txs[tid].d;
    assert TxOk(s, s.txs[tid]) && TxOk(s, s.txs[other]);
    assert Apart(s.txs[tid], s.txs[other]) && Apart(s.txs[other], s.txs[tid]);
    DirectInterferes(s, tid, s');
    var added := if t.pc.Running? then Some(s'.txs[tid].d.row.value.0) else None;
    var own := if t.pc.Running? then None else Some(t.row.value.0);
    match s.txs[other]
    case Request(r) =>
      RequestUndisturbed(s.db, s.origins, s'.db, s'.origins, None, added, own, r, s.clock);
    case Edge(e) =>
      EdgeUndisturbed(s.db, s.origins, s'.db, s'.origins, None, added, own, e, s.clock, s.config.delays);
    case Direct(d) =>
      DirectUndisturbed(s.db, s.origins, s'.db, s'.origins, None, added, own, d, s.clock);
  }

  lemma DirectKeepsApart(s: State, tid: Id, s': State)
    requires Inv(s) && DirectStatement(s, tid, s')
    ensures forall a, b :: a in s'.txs && b in s'.txs && a != b ==> Apart(s'.txs[a], s'.txs[b])
  {
    forall other | other in s'.txs && other != tid && tid in s'.txs
      ensures Apart(s'.txs[tid], s'.txs[other]) && Apart(s'.txs[other], s'.txs[tid])
    {
      assert TxOk(s, s.txs[tid]) && TxOk(s, s.txs[other]);
      assert Apart(s.txs[tid], s.txs[other]) && Apart(s.txs[other], s.txs[tid]);
    }
  }

  lemma DirectKeepsTxs(s: State, tid: Id, s': State)
    requires Inv(s) && DirectStatement(s, tid, s')
    ensures forall other :: other in s'.txs ==> TxOk(s', s'.txs[other])
  {
    DbAfterDirect(s, tid, s');
    forall other | other in s'.txs
      ensures TxOk(s', s'.txs[other])
    {
      if other != tid {
        OtherAfterDirect(s, tid, s', other);
      }
    }
  }

  lemma DirectKeepsInv(s: State, tid: Id, s': State)
    requires Inv(s) && DirectStatement(s, tid, s')
    ensures Inv(s')
  {
    DbAfterDirect(s, tid, s');
    DirectKeepsTxs(s, tid, s');
    DirectKeepsApart(s, tid, s');
  }

  // ---------------------------------------------------------------------------------------------
  // Runs
  // ---------------------------------------------------------------------------------------------

  lemma NextKeepsInv(s: State, s': State)
    requires Inv(s) && Next(s, s')
    ensures Inv(s')
  {
    if Tick(s, s') {
      TickKeepsInv(s, s');
    } else {
      var tid :| StepOf(s, tid, s');
      StepKeepsInv(s, tid, s');
    }
  }

  lemma StepKeepsInv(s: State, tid: Id, s': State)
    requires Inv(s) && StepOf(s, tid, s')
    ensures Inv(s')
  {
    if Begin(s, tid, s') {
      BeginKeepsInv(s, tid, s');
    } else if Local(s, tid, s') {
      LocalKeepsInv(s, tid, s');
    } else if Commit(s, tid, s') {
      match s.txs[tid]
      case Request(_) => RequestCommitKeepsInv(s, tid, s');
      case Edge(_) => EdgeCommitKeepsInv(s, tid, s');
      case Direct(_) =>
    } else if Abort(s, tid, s') {
      AbortKeepsInv(s, tid, s');
    } else {
      DirectKeepsInv(s, tid, s');
    }
  }

  lemma {:induction false} RunKeepsInv(run: seq<State>, i: nat)
    requires IsRun(run) && i < |run|
    ensures Inv(run[i])
  {
    if i == 0 {
      InitInv(run[0]);
    } else {
      RunKeepsInv(run, i - 1);
      NextKeepsInv(run[i - 1], run[i]);
    }
  }

  lemma ReachableInv(s: State)
    requires Reachable(s)
    ensures Inv(s)
  {
    var run :| IsRun(run) && run[|run| - 1] == s;
    RunKeepsInv(run, |run| - 1);
  }

  lemma ReachableTx(s: State, tid: Id)
    requires Reachable(s) && tid in s.txs
    ensures TxOk(s, s.txs[tid])
  {
    ReachableInv(s);
  }

  lemma ReachablePayment(s: State, p: Id)
    requires Reachable(s) && p in s.db.payments
    ensures PaymentOk(s.db, s.origins, s.clock, s.config.delays, p)
  {
    ReachableInv(s);
  }
}
