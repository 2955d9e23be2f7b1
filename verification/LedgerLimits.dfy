/**
 * Where two promises stop: the creator's attribution without a key, and a replay that began in an
 * older window than the execution it is compared with. Each limit is exact and has a concrete run.
 */
module LedgerLimits {
  import opened Common
  import opened PaymentScenarios
  import opened PaymentSimulation
  import opened LedgerState
  import opened LedgerInvariant
  import opened LedgerRuns
  import opened LedgerTheorems

  lemma Statemented(s: State, tid: Id, t': Tx)
    requires Reachable(s) && tid in s.txs && Statement(s, tid, s.txs[tid], t')
    ensures Reachable(s.(txs := s.txs[tid := t']))
  {
    var s' := s.(txs := s.txs[tid := t']);
    assert StepOf(s, tid, s') by { assert Local(s, tid, s'); }
    ReachableExtends(s, s');
  }

  lemma Ticked(s: State, clock: Time)
    requires Reachable(s) && s.clock <= clock
    ensures Reachable(s.(clock := clock))
  {
    assert Tick(s, s.(clock := clock));
    ReachableExtends(s, s.(clock := clock));
  }

  // ---------------------------------------------------------------------------------------------
  // An undisturbed edge
  // ---------------------------------------------------------------------------------------------

  ghost function SoloEdge(p: Id, row: PaymentRow, now: Time, transition: Transition): EdgeTx {
    EdgeTx(p, row, now, transition, Running, NO_WRITES)
  }

  /** Everything the edge writes when it runs alone. */
  ghost function SoloWrites(db: Db, t: EdgeTx): Writes {
    var updated := AfterEdge(t.current, t.transition.to, EdgeCode(IntentOf(t.current), t.transition.to), t.now);
    var origin := FirstCreated(db.audit, t.payment, t.current.project, t.current.environment);
    Writes(Some(t.payment), None, Some(updated), None,
           if t.transition.event.None? then None
           else Some(Event(Terminal(t.transition.event.value), t.payment, PaymentBody(t.payment, updated), t.now)),
           if t.transition.event.None? || origin.None? then None
           else Some(AuditEntry(Terminal(t.transition.event.value), origin.value.organization, origin.value.actor,
                                t.current.project, t.current.environment, t.payment)))
  }

  /** The edge alone, with its row swapped and nothing else written yet. */
  ghost function Swapped(db: Db, t: EdgeTx): EdgeTx {
    var w := SoloWrites(db, t);
    t.(pc := RowWritten, w := Writes(w.lock, None, w.updated, None, None, None))
  }

  lemma SoloSwapReachable(s: State, t: EdgeTx)
    requires Reachable(s) && s.txs == map[] && BeginsEdge(s, t)
    requires s.db.payments[t.payment] == t.current
    ensures Reachable(s.(txs := map[0 := Edge(Swapped(s.db, t))]))
  {
    var s1 := s.(txs := map[0 := Edge(t)]);
    var t2 := Swapped(s.db, t);
    assert s1.txs == s.txs[0 := Edge(t)];
    assert StepOf(s, 0, s1) by { assert Begin(s, 0, s1); }
    ReachableExtends(s, s1);
    assert CompareAndSet(s1, 0, t, t2);
    Statemented(s1, 0, Edge(t2));
    assert s1.txs[0 := Edge(t2)] == map[0 := Edge(t2)];
  }

  lemma SoloDoneReachable(s: State, t: EdgeTx)
    requires Reachable(s.(txs := map[0 := Edge(Swapped(s.db, t))]))
    ensures Reachable(s.(txs := map[0 := Edge(t.(pc := Done, w := SoloWrites(s.db, t)))]))
  {
    var (w, t2) := (SoloWrites(s.db, t), Swapped(s.db, t));
    var s2 := s.(txs := map[0 := Edge(t2)]);
    var done := t.(pc := Done, w := w);
    if t.transition.event.None? {
      assert PersistTerminal(s2, 0, t2, done);
      Statemented(s2, 0, Edge(done));
      assert s2.txs[0 := Edge(done)] == map[0 := Edge(done)];
    } else {
      var t3 := t2.(pc := EventWritten, w := w.(audit := None));
      assert PersistTerminal(s2, 0, t2, t3);
      Statemented(s2, 0, Edge(t3));
      var s3 := s2.(txs := s2.txs[0 := Edge(t3)]);
      assert AuditTerminal(s3, 0, t3, done);
      Statemented(s3, 0, Edge(done));
      assert s3.txs[0 := Edge(done)] == map[0 := Edge(done)];
    }
  }

  lemma SoloEdgeReachable(s: State, t: EdgeTx)
    requires Reachable(s) && s.txs == map[] && BeginsEdge(s, t)
    requires s.db.payments[t.payment] == t.current
    ensures Reachable(s.(db := AfterWrites(s.db, SoloWrites(s.db, t))))
  {
    SoloSwapReachable(s, t);
    SoloDoneReachable(s, t);
    var w := SoloWrites(s.db, t);
    var s4 := s.(txs := map[0 := Edge(t.(pc := Done, w := w))]);
    var s5 := s.(db := AfterWrites(s.db, w));
    assert s4.txs - {0} == s5.txs;
    assert StepOf(s4, 0, s5) by { assert Commit(s4, 0, s5); }
    ReachableExtends(s4, s5);
  }

  // ---------------------------------------------------------------------------------------------
  // Attribution
  // ---------------------------------------------------------------------------------------------

  ghost predicate Attributed(s: State, p: Id)
    requires p in s.db.payments
  {
    IsTerminal(s.db.payments[p].status) ==> CountAudit(s.db.audit, p, TerminalKind(s.db.payments[p].status)) == 1
  }

  /** The orphaned payment, swept to its end: its terminal edge has nobody to name. */
  lemma SettledOrphan() returns (s: State)
    ensures Reachable(s) && 7 in s.db.payments && 7 in s.origins && !s.origins[7].atomic && !Attributed(s, 7)
  {
    OrphanReachable();
    Ticked(Orphaned(), 3000);
    var s1 := Orphaned().(clock := 3000);
    var row := s1.db.payments[7];
    var first := SoloEdge(7, row, 3000, Transition(Pending, Processing, None));
    SoloEdgeReachable(s1, first);
    var s2 := s1.(db := AfterWrites(s1.db, SoloWrites(s1.db, first)));
    var second := SoloEdge(7, s2.db.payments[7], 3000, Transition(Processing, Succeeded, Some(PaymentSucceeded)));
    SoloEdgeReachable(s2, second);
    s := s2.(db := AfterWrites(s2.db, SoloWrites(s2.db, second)));
    assert s.db.audit == [];
    assert s.db.payments[7].status == Succeeded;
  }

  /** "Every settled payment has its terminal audit entry" holds of keyed creates and of no others. */
  lemma AttributionIffTransactional(atomic: bool)
    ensures (forall s, p :: Reachable(s) && p in s.db.payments && p in s.origins && s.origins[p].atomic == atomic ==> Attributed(s, p)) <==> atomic
  {
    if atomic {
      forall s, p | Reachable(s) && p in s.db.payments && p in s.origins && s.origins[p].atomic == atomic
        ensures Attributed(s, p)
      {
        TerminalEntryNamesTheCreator(s, p);
      }
    } else {
      var s := SettledOrphan();
    }
  }

  // ---------------------------------------------------------------------------------------------
  // A late replay
  // ---------------------------------------------------------------------------------------------

  const EXAMPLE_KEY := Key(1, PaymentsCreate, "order_1")

  /** The rows, the event and the entry of a keyed create of payment `id` at `clock`. */
  ghost function CreateWrites(id: Id, clock: Time): Writes {
    var row := NewPayment(EXAMPLE_SCOPE, EXAMPLE_CREATE, clock);
    Writes(None, Some((id, row)), None, None, Some(CreatedEvent(id, row)), Some(CreatedEntry(EXAMPLE_SCOPE, id, row)))
  }

  ghost function ExampleRecord(s: State, id: Id, now: Time): Record {
    Record(id, Some(Response(CREATED, PaymentBody(id, NewPayment(EXAMPLE_SCOPE, EXAMPLE_CREATE, s.clock)))),
           now + s.config.retentionMs)
  }

  ghost function ExampleTx(s: State, now: Time): RequestTx {
    RequestTx(EXAMPLE_SCOPE, Some(EXAMPLE_KEY), now, |s.log|, EXAMPLE_CREATE, ClaimInsert(0), map[], None, NO_WRITES)
  }

  /** The state after request `tid` executed a create of payment `id` under the example key. */
  ghost function Executed1(s: State, id: Id, now: Time): State {
    s.(db := AfterWrites(s.db, CreateWrites(id, s.clock)).(records := map[EXAMPLE_KEY := ExampleRecord(s, id, now)]),
       log := s.log + [Executed(Some((EXAMPLE_KEY, ExampleRecord(s, id, now))), now, |s.log|, s.clock)],
       origins := s.origins[id := Origin(true, EXAMPLE_SCOPE, EXAMPLE_CREATE)])
  }

  /** Other transactions are only reading. */
  ghost predicate OthersRead(s: State, tid: Id) {
    && tid !in s.txs
    && forall other :: other in s.txs ==>
         LockOf(s.txs[other]) == None && InsertedId(s.txs[other]) == None
         && ClaimedKey(s.txs[other]) == None && DeletedKeys(s.txs[other]) == {}
  }

  ghost function With(s: State, tid: Id, t: RequestTx): State {
    s.(txs := s.txs[tid := Request(t)])
  }

  lemma Stepped(s: State, tid: Id, t: RequestTx, t': RequestTx)
    requires Reachable(With(s, tid, t))
    requires ClaimStatement(With(s, tid, t), tid, t, t') || PaymentStatement(With(s, tid, t), tid, t, t')
    ensures Reachable(With(s, tid, t'))
  {
    Statemented(With(s, tid, t), tid, Request(t'));
    assert s.txs[tid := Request(t)][tid := Request(t')] == s.txs[tid := Request(t')];
  }

  /** A claimed example request, with what it has deleted and written so far. */
  ghost function ClaimedTx(s: State, id: Id, now: Time, del: map<Key, Id>, pc: Pc, w: Writes): RequestTx {
    ExampleTx(s, now).(pc := pc, del := del, claim := Some(Record(id, None, now + s.config.retentionMs)), w := w)
  }

  /** The claim owns every committed record. */
  ghost predicate OwnsRecords(s: State, del: map<Key, Id>) {
    && s.db.records.Keys == del.Keys && del.Keys <= {EXAMPLE_KEY}
    && forall k :: k in del ==> s.db.records[k].id == del[k]
  }

  lemma InsertedCreateReachable(s: State, tid: Id, id: Id, now: Time, del: map<Key, Id>)
    requires OthersRead(s, tid) && id !in s.db.payments
    requires Reachable(With(s, tid, ClaimedTx(s, id, now, del, Running, NO_WRITES)))
    ensures Reachable(With(s, tid, ClaimedTx(s, id, now, del, RowWritten, CreateWrites(id, s.clock).(event := None, audit := None))))
  {
    var t := ClaimedTx(s, id, now, del, Running, NO_WRITES);
    var t' := ClaimedTx(s, id, now, del, RowWritten, CreateWrites(id, s.clock).(event := None, audit := None));
    assert InsertPayment(With(s, tid, t), tid, t, t');
    Stepped(s, tid, t, t');
  }

  lemma WrittenCreateReachable(s: State, tid: Id, id: Id, now: Time, del: map<Key, Id>)
    requires Reachable(With(s, tid, ClaimedTx(s, id, now, del, RowWritten, CreateWrites(id, s.clock).(event := None, audit := None))))
    ensures Reachable(With(s, tid, ClaimedTx(s, id, now, del, Audited, CreateWrites(id, s.clock))))
  {
    var w := CreateWrites(id, s.clock);
    var t := ClaimedTx(s, id, now, del, RowWritten, w.(event := None, audit := None));
    var t' := ClaimedTx(s, id, now, del, EventWritten, w.(audit := None));
    assert PersistCreated(With(s, tid, t), tid, t, t');
    Stepped(s, tid, t, t');
    assert AuditCreated(With(s, tid, t'), tid, t', ClaimedTx(s, id, now, del, Audited, w));
    Stepped(s, tid, t', ClaimedTx(s, id, now, del, Audited, w));
  }

  lemma StoredCreateReachable(s: State, tid: Id, id: Id, now: Time, del: map<Key, Id>)
    requires OwnsRecords(s, del)
    requires Reachable(With(s, tid, ClaimedTx(s, id, now, del, Audited, CreateWrites(id, s.clock))))
    ensures Reachable(With(s, tid, ClaimedTx(s, id, now, del, Done, CreateWrites(id, s.clock)).(claim := Some(ExampleRecord(s, id, now)))))
  {
    var t := ClaimedTx(s, id, now, del, Audited, CreateWrites(id, s.clock));
    var t' := t.(pc := Pruning(map[]), claim := Some(ExampleRecord(s, id, now)));
    assert StoreResponse(With(s, tid, t), tid, t, t');
    Stepped(s, tid, t, t');
    assert EndPrune(With(s, tid, t'), tid, t', t'.(pc := Done));
    Stepped(s, tid, t', t'.(pc := Done));
  }

  lemma CommittedCreateReachable(s: State, tid: Id, id: Id, now: Time, del: map<Key, Id>, t: RequestTx)
    requires tid !in s.txs && OwnsRecords(s, del)
    requires t == ClaimedTx(s, id, now, del, Done, CreateWrites(id, s.clock)).(claim := Some(ExampleRecord(s, id, now)))
    requires Reachable(With(s, tid, t))
    ensures Reachable(Executed1(s, id, now))
  {
    var (a, b) := (With(s, tid, t), Executed1(s, id, now));
    assert a.txs - {tid} == s.txs;
    assert AfterClaims(s.db.records, t) == b.db.records;
    assert StepOf(a, tid, b) by { assert Commit(a, tid, b); }
    ReachableExtends(a, b);
  }

  /** From an acquired claim to the commit. */
  lemma ClaimedCreateReachable(s: State, tid: Id, id: Id, now: Time, del: map<Key, Id>)
    requires OthersRead(s, tid) && id !in s.db.payments && OwnsRecords(s, del)
    requires Reachable(With(s, tid, ClaimedTx(s, id, now, del, Running, NO_WRITES)))
    ensures Reachable(Executed1(s, id, now))
  {
    InsertedCreateReachable(s, tid, id, now, del);
    WrittenCreateReachable(s, tid, id, now, del);
    StoredCreateReachable(s, tid, id, now, del);
    CommittedCreateReachable(s, tid, id, now, del,
      ClaimedTx(s, id, now, del, Done, CreateWrites(id, s.clock)).(claim := Some(ExampleRecord(s, id, now))));
  }

  lemma BegunExample(s: State, tid: Id)
    requires Reachable(s) && tid !in s.txs
    ensures Reachable(With(s, tid, ExampleTx(s, s.clock)))
  {
    var s' := With(s, tid, ExampleTx(s, s.clock));
    assert StepOf(s, tid, s') by { assert Begin(s, tid, s'); }
    ReachableExtends(s, s');
  }

  lemma FreshCreateReachable(s: State, tid: Id, id: Id)
    requires Reachable(s) && OthersRead(s, tid) && id !in s.db.payments && s.db.records == map[]
    ensures Reachable(Executed1(s, id, s.clock))
  {
    BegunExample(s, tid);
    var (t, t') := (ExampleTx(s, s.clock), ClaimedTx(s, id, s.clock, map[], Running, NO_WRITES));
    assert InsertClaim(With(s, tid, t), tid, t, t');
    Stepped(s, tid, t, t');
    ClaimedCreateReachable(s, tid, id, s.clock, map[]);
  }

  lemma FoundExample(s: State, tid: Id, found: Record, pc: Pc)
    requires Reachable(s) && OthersRead(s, tid) && s.db.records == map[EXAMPLE_KEY := found]
    requires pc == if found.expiresAt > s.clock then Replaying(found, |s.log|) else ClaimDelete(0, found)
    ensures Reachable(With(s, tid, ExampleTx(s, s.clock).(pc := pc)))
  {
    BegunExample(s, tid);
    var t := ExampleTx(s, s.clock);
    assert InsertClaim(With(s, tid, t), tid, t, t.(pc := ClaimFind(0)));
    Stepped(s, tid, t, t.(pc := ClaimFind(0)));
    assert FindRecord(With(s, tid, t.(pc := ClaimFind(0))), tid, t.(pc := ClaimFind(0)), t.(pc := pc));
    Stepped(s, tid, t.(pc := ClaimFind(0)), t.(pc := pc));
  }

  lemma FreedExampleReachable(s: State, tid: Id, stale: Record)
    requires Reachable(s) && OthersRead(s, tid)
    requires s.db.records == map[EXAMPLE_KEY := stale] && stale.expiresAt <= s.clock
    ensures Reachable(With(s, tid, ExampleTx(s, s.clock).(pc := ClaimInsert(1), del := map[EXAMPLE_KEY := stale.id])))
  {
    FoundExample(s, tid, stale, ClaimDelete(0, stale));
    var del := map[EXAMPLE_KEY := stale.id];
    var t := ExampleTx(s, s.clock).(pc := ClaimDelete(0, stale));
    var t' := ExampleTx(s, s.clock).(pc := ClaimInsert(1), del := del);
    assert t.del[EXAMPLE_KEY := stale.id] == del;
    assert DeleteExpired(With(s, tid, t), tid, t, t');
    Stepped(s, tid, t, t');
  }

  lemma RenewedCreateReachable(s: State, tid: Id, id: Id, stale: Record)
    requires Reachable(s) && OthersRead(s, tid) && id !in s.db.payments
    requires s.db.records == map[EXAMPLE_KEY := stale] && stale.expiresAt <= s.clock
    ensures Reachable(Executed1(s, id, s.clock))
  {
    FreedExampleReachable(s, tid, stale);
    var del := map[EXAMPLE_KEY := stale.id];
    var t' := ExampleTx(s, s.clock).(pc := ClaimInsert(1), del := del);
    var t'' := ClaimedTx(s, id, s.clock, del, Running, NO_WRITES);
    assert InsertClaim(With(s, tid, t'), tid, t', t'');
    Stepped(s, tid, t', t'');
    ClaimedCreateReachable(s, tid, id, s.clock, del);
  }

  /** How long a transaction may stay open (`TRANSACTION_OPTIONS`). */
  const TRANSACTION_TIMEOUT_MS: nat := 10000

  /** A reader that found the first window's record one millisecond before it expired. */
  ghost function PausedReader(): State {
    var (s0, first) := (EmptyLedger(), ExampleRecord(EmptyLedger(), 10, 0));
    var s1 := Executed1(s0, 10, 0).(clock := 86399999);
    With(s1, 1, ExampleTx(s1, 86399999).(pc := Replaying(first, 1))).(clock := 86400000)
  }

  lemma PausedReaderReachable()
    ensures Reachable(PausedReader())
  {
    var (s0, first) := (EmptyLedger(), ExampleRecord(EmptyLedger(), 10, 0));
    InitReachable(s0);
    FreshCreateReachable(s0, 0, 10);
    Ticked(Executed1(s0, 10, 0), 86399999);
    var s1 := Executed1(s0, 10, 0).(clock := 86399999);
    FoundExample(s1, 1, first, Replaying(first, 1));
    Ticked(With(s1, 1, ExampleTx(s1, 86399999).(pc := Replaying(first, 1))), 86400000);
  }

  lemma CommittedReplay(s: State, tid: Id, t: RequestTx)
    requires Reachable(s) && tid in s.txs && s.txs[tid] == Request(t)
    requires t.pc.Replaying? && t.key.Some? && ReplayAnswers(t, t.pc.found) && t.w == NO_WRITES && t.claim == None
    ensures Reachable(s.(db := s.db.(records := AfterClaims(s.db.records, t)), txs := s.txs - {tid},
                         log := s.log + [OutcomeOf(t, s.clock)]))
  {
    var s' := s.(db := s.db.(records := AfterClaims(s.db.records, t)), txs := s.txs - {tid},
                 log := s.log + [OutcomeOf(t, s.clock)]);
    assert StepOf(s, tid, s') by { assert Commit(s, tid, s'); }
    ReachableExtends(s, s');
  }

  /** The paused reader, after another request has executed the key again. */
  ghost function Renewed(): State {
    Executed1(PausedReader(), 11, 86400000)
  }

  lemma RenewedReachable()
    ensures Reachable(Renewed())
  {
    PausedReaderReachable();
    RenewedCreateReachable(PausedReader(), 0, 11, PausedReader().db.records[EXAMPLE_KEY]);
  }

  /**
   * A request reads the record of the first window a millisecond before it expires; another request
   * executes the key again; the first then answers with the response of the window that is over.
   * Its transaction is open for that millisecond only, far below the time-out.
   */
  lemma LateReplay() returns (s: State)
    ensures Reachable(s) && |s.log| == 3 && s.log[2].Replayed?
    ensures s.log[2].at - s.log[2].now < TRANSACTION_TIMEOUT_MS
    ensures exists record :: ReplayedDuring(s, 1, 2, record) && s.log[2].found != record && !OnlyThisWindow(s, 1, 2)
  {
    RenewedReachable();
    var a, b := PausedReader(), Renewed();
    var t := a.txs[1].r;
    assert b.txs[1] == Request(t);
    CommittedReplay(b, 1, t);
    s := b.(db := b.db.(records := AfterClaims(b.db.records, t)), txs := b.txs - {1}, log := b.log + [OutcomeOf(t, b.clock)]);
    assert IsExecution(s.log, 0, EXAMPLE_KEY, t.pc.found) && t.pc.found.expiresAt > s.log[2].now;
    assert ReplayedDuring(s, 1, 2, ExampleRecord(a, 11, 86400000));
  }

  /**
   * "A replay that completes inside an execution's window returns that execution's response" is
   * guaranteed to the requests that began after the execution or found no older window open, and
   * to no others: a request with neither has a run in which it gets an older response.
   */
  lemma ReplayGuaranteeIffOnlyThisWindow(onlyThis: bool)
    ensures (forall s, i: nat, n: nat, record ::
               Reachable(s) && ReplayedDuring(s, i, n, record) && OnlyThisWindow(s, i, n) == onlyThis ==> s.log[n].found == record)
            <==> onlyThis
  {
    if onlyThis {
      forall s, i: nat, n: nat, record | Reachable(s) && ReplayedDuring(s, i, n, record) && OnlyThisWindow(s, i, n)
        ensures s.log[n].found == record
      {
        ReplayReturnsTheStoredResponse(s, i, n, record);
      }
    } else {
      var s := LateReplay();
    }
  }
}
