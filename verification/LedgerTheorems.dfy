/** What the ledger promises over every run, and exactly where the keyless create breaks it. */
module LedgerTheorems {
  import opened Common
  import opened PaymentScenarios
  import opened PaymentSimulation
  import opened LedgerState
  import opened LedgerInvariant
  import opened LedgerCommit
  import opened LedgerRuns

  // ---------------------------------------------------------------------------------------------
  // Runs compose
  // ---------------------------------------------------------------------------------------------

  lemma InitReachable(s: State)
    requires Init(s)
    ensures Reachable(s)
  {
    assert IsPath([s]) && IsRun([s]) && [s][|[s]| - 1] == s;
  }

  lemma ReachableExtends(s: State, s': State)
    requires Reachable(s) && Next(s, s')
    ensures Reachable(s')
  {
    var run :| IsRun(run) && run[|run| - 1] == s;
    var longer := run + [s'];
    forall i | 0 <= i < |longer| - 1
      ensures Next(longer[i], longer[i + 1])
    {
      if i < |run| - 1 {
        assert longer[i] == run[i] && longer[i + 1] == run[i + 1];
      }
    }
    assert IsPath(longer) && longer[0] == run[0];
    assert IsRun(longer) && longer[|longer| - 1] == s';
  }

  lemma RunsRefl(s: State)
    ensures Runs(s, s)
  {
    assert IsPath([s]);
  }

  lemma RunsTrans(a: State, b: State, c: State)
    requires Runs(a, b) && Runs(b, c)
    ensures Runs(a, c)
  {
    var p :| IsPath(p) && p[0] == a && p[|p| - 1] == b;
    var q :| IsPath(q) && q[0] == b && q[|q| - 1] == c;
    var path := p + q[1..];
    forall i | 0 <= i < |path| - 1
      ensures Next(path[i], path[i + 1])
    {
      if i < |p| - 1 {
        assert path[i] == p[i] && path[i + 1] == p[i + 1];
      } else {
        assert path[i] == q[i - (|p| - 1)] && path[i + 1] == q[i - (|p| - 1) + 1];
      }
    }
    assert IsPath(path) && path[|path| - 1] == c;
  }

  lemma RunsStep(a: State, b: State, c: State)
    requires Runs(a, b) && Next(b, c)
    ensures Runs(a, c)
  {
    assert IsPath([b, c]);
    RunsTrans(a, b, c);
  }

  lemma {:induction false} PathReaches(path: seq<State>, i: nat)
    requires IsPath(path) && Reachable(path[0]) && i < |path|
    ensures Reachable(path[i])
  {
    if i > 0 {
      PathReaches(path, i - 1);
      ReachableExtends(path[i - 1], path[i]);
    }
  }

  // ---------------------------------------------------------------------------------------------
  // Idempotency
  // ---------------------------------------------------------------------------------------------

  /** Two executions of one key are always separated by the expiry of the first record. */
  lemma AtMostOncePerKey(s: State, i: nat, j: nat, key: Key, first: Record, second: Record)
    requires Reachable(s) && i < j
    requires IsExecution(s.log, i, key, first) && IsExecution(s.log, j, key, second)
    ensures first.expiresAt <= s.log[j].at
  {
    ReachableInv(s);
  }

  /** A replay under `key` completed while the record of execution `i` of that key was active. */
  ghost predicate ReplayedDuring(s: State, i: nat, n: nat, record: Record) {
    && n < |s.log| && s.log[n].Replayed? && i < n
    && IsExecution(s.log, i, s.log[n].key, record) && s.log[n].at < record.expiresAt
  }

  lemma ReplayFacts(s: State, n: nat)
    requires Reachable(s) && n < |s.log| && s.log[n].Replayed?
    ensures LogOk(s.log, s.clock)
    ensures var r := s.log[n]; ReplayOk(s.log[..n], r.at, r.key, r.found, r.now, r.startedAt, r.foundAt)
    ensures forall i, key, record :: i < n && IsExecution(s.log, i, key, record) ==> IsExecution(s.log[..n], i, key, record)
  {
    ReachableInv(s);
  }

  /** Every replay, however late it completes, repeats an execution whose window contains its own `now`. */
  lemma ReplayHasAnOrigin(s: State, n: nat) returns (i: nat)
    requires Reachable(s) && n < |s.log| && s.log[n].Replayed?
    ensures i < s.log[n].foundAt <= n && IsExecution(s.log, i, s.log[n].key, s.log[n].found)
    ensures s.log[n].found.response.Some? && s.log[n].now < s.log[n].found.expiresAt
  {
    ReplayFacts(s, n);
    i :| i < s.log[n].foundAt && IsExecution(s.log[..n], i, s.log[n].key, s.log[n].found);
  }

  /**
   * Exactly when a replay that completes inside an execution's window returns that execution's
   * response: when the execution had committed by the time the replay read its record.
   */
  lemma ReplayReturnsIffRead(s: State, i: nat, n: nat, record: Record)
    requires Reachable(s) && ReplayedDuring(s, i, n, record)
    ensures s.log[n].found == record <==> i < s.log[n].foundAt
  {
    ReplayFacts(s, n);
    if i >= s.log[n].foundAt {
      var origin := ReplayHasAnOrigin(s, n);
      AtMostOncePerKey(s, origin, i, s.log[n].key, s.log[n].found, record);
    }
  }

  /** No execution of the key before the `i`th left a record still active at `now`. */
  ghost predicate NoneActiveBefore(log: seq<Outcome>, i: nat, key: Key, now: Time) {
    forall j, earlier :: j < i && IsExecution(log, j, key, earlier) ==> earlier.expiresAt <= now
  }

  /** What a caller can know beforehand: it begins after the execution, or finds no older window open. */
  ghost predicate OnlyThisWindow(s: State, i: nat, n: nat)
    requires n < |s.log| && s.log[n].Replayed?
  {
    i < s.log[n].startedAt || NoneActiveBefore(s.log, i, s.log[n].key, s.log[n].now)
  }

  /**
   * A replay that completes before the record of an execution of its key expires returns exactly
   * that record, same status and same body, if its request began after the execution committed, or
   * if no older record of the key was active at the request's `now`. The second covers the loser of
   * a race, which begins before the winner commits, and every replay in a key's first window.
   */
  lemma ReplayReturnsTheStoredResponse(s: State, i: nat, n: nat, record: Record)
    requires Reachable(s) && ReplayedDuring(s, i, n, record) && OnlyThisWindow(s, i, n)
    ensures s.log[n].found == record
  {
    ReplayFacts(s, n);
    ReplayReturnsIffRead(s, i, n, record);
    var origin := ReplayHasAnOrigin(s, n);
    assert origin >= i || IsExecution(s.log, origin, s.log[n].key, s.log[n].found);
  }

  /** The branch of `replay` for a record without a response can never be taken. */
  lemma NoHalfWrittenRecord(s: State, tid: Id)
    requires Reachable(s)
    ensures forall key :: key in s.db.records ==> s.db.records[key].response.Some?
    ensures tid in s.txs && s.txs[tid].Request? && s.txs[tid].r.pc.Replaying? ==> s.txs[tid].r.pc.found.response.Some?
  {
    ReachableInv(s);
    if tid in s.txs {
      assert TxOk(s, s.txs[tid]);
    }
  }

  function CountExecuted(log: seq<Outcome>): nat {
    if |log| == 0 then 0
    else CountExecuted(log[..|log| - 1]) + (if log[|log| - 1].Executed? then 1 else 0)
  }

  ghost function AtomicPayments(origins: map<Id, Origin>): set<Id> {
    set p | p in origins && origins[p].atomic
  }

  ghost predicate EffectsOk(s: State) {
    && s.origins.Keys == s.db.payments.Keys
    && |s.db.refunds| + |AtomicPayments(s.origins)| == CountExecuted(s.log)
  }

  lemma EdgeKeepsEffects(s: State, t: EdgeTx, db': Db)
    requires EffectsOk(s) && EdgeOk(s.db, s.origins, s.clock, s.config.delays, t) && t.pc.Done?
    requires db' == AfterWrites(s.db, t.w)
    ensures db'.payments.Keys == s.db.payments.Keys && db'.refunds == s.db.refunds
  {
  }

  lemma RequestKeepsEffects(s: State, t: RequestTx, db': Db)
    requires EffectsOk(s) && RequestOk(s, t) && ReadyToCommit(Request(t))
    requires db' == AfterWrites(s.db, t.w)
    ensures AfterOrigins(s.origins, t).Keys == db'.payments.Keys
    ensures |db'.refunds| + |AtomicPayments(AfterOrigins(s.origins, t))| == CountExecuted(s.log + [OutcomeOf(t, s.clock)])
  {
    assert (s.log + [OutcomeOf(t, s.clock)])[..|s.log|] == s.log;
    if t.w.inserted.Some? {
      assert AtomicPayments(AfterOrigins(s.origins, t)) == AtomicPayments(s.origins) + {t.w.inserted.value.0};
    }
  }

  lemma DirectKeepsEffects(s: State, tid: Id, s': State)
    requires EffectsOk(s) && DirectStatement(s, tid, s')
    ensures EffectsOk(s')
  {
    assert AtomicPayments(s'.origins) == AtomicPayments(s.origins);
  }

  lemma NextKeepsEffects(s: State, s': State)
    requires Reachable(s) && EffectsOk(s) && Next(s, s')
    ensures EffectsOk(s')
  {
    if !Tick(s, s') {
      var tid :| StepOf(s, tid, s');
      if Commit(s, tid, s') {
        ReachableTx(s, tid);
        match s.txs[tid]
        case Request(r) => RequestKeepsEffects(s, r, AfterWrites(s.db, r.w));
        case Edge(e) => EdgeKeepsEffects(s, e, s'.db);
        case Direct(_) =>
      } else if DirectStatement(s, tid, s') {
        DirectKeepsEffects(s, tid, s');
      }
    }
  }

  lemma {:induction false} RunKeepsEffects(run: seq<State>, i: nat)
    requires IsRun(run) && i < |run|
    ensures EffectsOk(run[i])
  {
    if i == 0 {
      assert AtomicPayments(run[0].origins) == {};
    } else {
      RunKeepsEffects(run, i - 1);
      InitReachable(run[0]);
      PathReaches(run, i - 1);
      NextKeepsEffects(run[i - 1], run[i]);
    }
  }

  /** Conservation: one refund or one transactional payment per execution; replays and rollbacks add none. */
  lemma OneEffectPerExecution(s: State)
    requires Reachable(s)
    ensures |s.db.refunds| + |AtomicPayments(s.origins)| == CountExecuted(s.log)
  {
    var run :| IsRun(run) && run[|run| - 1] == s;
    RunKeepsEffects(run, |run| - 1);
  }

  // ---------------------------------------------------------------------------------------------
  // Refunds
  // ---------------------------------------------------------------------------------------------

  /** Later refunds add up; if the sum has not grown there was none. */
  lemma {:induction false} LaterRefundsAdd(refunds: seq<Refund>, n: nat, payment: Id)
    requires n <= |refunds|
    requires forall k :: 0 <= k < |refunds| && refunds[k].payment == payment ==> refunds[k].amount > 0
    ensures SumRefunds(refunds[..n], payment) <= SumRefunds(refunds, payment)
    ensures SumRefunds(refunds[..n], payment) == SumRefunds(refunds, payment) ==>
              forall j :: n <= j < |refunds| ==> refunds[j].payment != payment
  {
    if n == |refunds| {
      assert refunds[..n] == refunds;
    } else {
      var init := refunds[..|refunds| - 1];
      assert init[..n] == refunds[..n];
      LaterRefundsAdd(init, n, payment);
      assert forall j :: n <= j < |init| ==> init[j] == refunds[j];
    }
  }

  /**
   * The refunds of a payment are positive, exist only once it has succeeded, never exceed its
   * amount, each come with one event, and a refund without an amount takes all that was left.
   */
  lemma RefundsAreConserved(s: State, p: Id)
    requires Reachable(s) && p in s.db.payments
    ensures 0 <= SumRefunds(s.db.refunds, p) <= s.db.payments[p].amount
    ensures CountEvents(s.db.events, p, RefundCreated) == CountRefunds(s.db.refunds, p)
    ensures forall i :: 0 <= i < |s.db.refunds| && s.db.refunds[i].payment == p ==>
              && s.db.payments[p].status == Succeeded
              && s.db.refunds[i].amount > 0
              && (s.db.refunds[i].full ==>
                    && SumRefunds(s.db.refunds, p) == s.db.payments[p].amount
                    && forall j :: i < j < |s.db.refunds| ==> s.db.refunds[j].payment != p)
  {
    ReachablePayment(s, p);
    assert RefundsOk(s.db.refunds, s.db.events, p, s.db.payments[p]);
    forall i | 0 <= i < |s.db.refunds| && s.db.refunds[i].payment == p && s.db.refunds[i].full
      ensures SumRefunds(s.db.refunds, p) == s.db.payments[p].amount
      ensures forall j :: i < j < |s.db.refunds| ==> s.db.refunds[j].payment != p
    {
      assert RefundedThrough(s.db.refunds, i, p) == s.db.payments[p].amount;
      LaterRefundsAdd(s.db.refunds, i + 1, p);
    }
  }

  /** No refund refers to a payment that does not exist. */
  lemma RefundsHaveAPayment(s: State, i: nat)
    requires Reachable(s) && i < |s.db.refunds|
    ensures s.db.refunds[i].payment in s.db.payments
  {
    ReachableInv(s);
    assert !Unused(s.db, s.db.refunds[i].payment);
  }

  // ---------------------------------------------------------------------------------------------
  // Payments, their events and their audit entries
  // ---------------------------------------------------------------------------------------------

  function TerminalKind(status: PaymentStatus): EventType
    requires IsTerminal(status)
  {
    Terminal(if status == Succeeded then PaymentSucceeded else PaymentFailed)
  }

  /**
   * However a payment was created: it is terminal exactly when one terminal event of the matching
   * kind was ever persisted, none of the other kind ever was, and the payload is the committed
   * row; the failure code is the one the stored scenario chose, present exactly when it failed.
   */
  lemma OneTerminalEvent(s: State, p: Id)
    requires Reachable(s) && p in s.db.payments
    ensures var row := s.db.payments[p];
            && (CountEvents(s.db.events, p, Terminal(PaymentSucceeded)) == if row.status == Succeeded then 1 else 0)
            && (CountEvents(s.db.events, p, Terminal(PaymentFailed)) == if row.status == Failed then 1 else 0)
            && (row.failureCode.Some? <==> row.status == Failed)
            && (row.status == Failed ==> row.failureCode == ParseSimulationScenario(row.scenario).failureCode)
            && forall i :: 0 <= i < |s.db.events| && s.db.events[i].payment == p && s.db.events[i].kind.Terminal? ==>
                 s.db.events[i].payload == PaymentBody(p, row) && s.db.events[i].createdAt == row.updatedAt
  {
    ReachablePayment(s, p);
    ParsedIntentIsConsistent(s.db.payments[p].scenario);
  }

  /** A settled payment created with a key has one terminal audit entry, naming its creator, whoever ran the pass. */
  lemma TerminalEntryNamesTheCreator(s: State, p: Id)
    requires Reachable(s) && p in s.db.payments
    ensures p in s.origins
    ensures var (row, origin) := (s.db.payments[p], s.origins[p]);
            && (IsTerminal(row.status) && origin.atomic ==> CountAudit(s.db.audit, p, TerminalKind(row.status)) == 1)
            && (forall kind :: CountAudit(s.db.audit, p, Terminal(kind)) <= if IsTerminal(row.status) && Terminal(kind) == TerminalKind(row.status) then 1 else 0)
            && (forall i :: 0 <= i < |s.db.audit| && s.db.audit[i].payment == p && s.db.audit[i].action.Terminal? ==>
                 s.db.audit[i].organization == origin.scope.organization && s.db.audit[i].actor == origin.scope.actor)
  {
    ReachablePayment(s, p);
    forall kind: TerminalEvent
      ensures CountAudit(s.db.audit, p, Terminal(kind)) <= if IsTerminal(s.db.payments[p].status) && Terminal(kind) == TerminalKind(s.db.payments[p].status) then 1 else 0
    {
      match kind
      case PaymentSucceeded =>
      case PaymentFailed =>
    }
  }

  /** Races never push a payment beyond the schedule at the time its last edge used. */
  lemma NeverBeyondTheSchedule(s: State, p: Id)
    requires Reachable(s) && p in s.db.payments
    ensures var row := s.db.payments[p];
            && row.updatedAt <= s.clock
            && NotBeyond(row.status, ParseSimulationScenario(row.scenario).scenario, row.createdAt, row.updatedAt, s.config.delays)
            && NotBeyond(row.status, ParseSimulationScenario(row.scenario).scenario, row.createdAt, s.clock, s.config.delays)
  {
    ReachablePayment(s, p);
  }

  /** The row keeps its identity and either stays or takes one edge of the lifecycle. */
  ghost predicate Advances(before: PaymentRow, after: PaymentRow) {
    || before == after
    || (SameIdentity(before, after)
        && ((before.status == Pending && after.status == Processing)
            || (before.status == Processing && IsTerminal(after.status))))
  }

  lemma EdgeAdvances(db: Db, origins: map<Id, Origin>, clock: Time, delays: SimulationDelays, t: EdgeTx, p: Id)
    requires EdgeOk(db, origins, clock, delays, t) && t.pc.Done? && p in db.payments
    ensures p in AfterWrites(db, t.w).payments && Advances(db.payments[p], AfterWrites(db, t.w).payments[p])
  {
  }

  lemma RequestAdvances(s: State, t: RequestTx, p: Id)
    requires RequestOk(s, t) && ReadyToCommit(Request(t)) && p in s.db.payments
    ensures p in AfterWrites(s.db, t.w).payments && AfterWrites(s.db, t.w).payments[p] == s.db.payments[p]
  {
  }

  lemma CommitAdvances(s: State, tid: Id, s': State, p: Id)
    requires Reachable(s) && Commit(s, tid, s') && p in s.db.payments
    ensures p in s'.db.payments && Advances(s.db.payments[p], s'.db.payments[p])
  {
    ReachableTx(s, tid);
    match s.txs[tid]
    case Request(r) => RequestAdvances(s, r, p);
    case Edge(e) => EdgeAdvances(s.db, s.origins, s.clock, s.config.delays, e, p);
    case Direct(_) =>
  }

  lemma NextAdvances(s: State, s': State, p: Id)
    requires Reachable(s) && Next(s, s') && p in s.db.payments
    ensures p in s'.db.payments && Advances(s.db.payments[p], s'.db.payments[p])
  {
    if !Tick(s, s') {
      var tid :| StepOf(s, tid, s');
      if Commit(s, tid, s') {
        CommitAdvances(s, tid, s', p);
      } else if DirectStatement(s, tid, s') {
        assert s'.db.payments[p] == s.db.payments[p];
      } else {
        assert s'.db == s.db;
      }
    }
  }

  ghost predicate NotMovedBack(before: PaymentRow, after: PaymentRow) {
    && SameIdentity(before, after) && Rank(before.status) <= Rank(after.status)
    && (IsTerminal(before.status) ==> after == before)
  }

  lemma AdvancesCompose(a: PaymentRow, b: PaymentRow, c: PaymentRow)
    requires NotMovedBack(a, b) && Advances(b, c)
    ensures NotMovedBack(a, c)
  {
  }

  lemma NextNotMovedBack(start: PaymentRow, s: State, s': State, p: Id)
    requires Reachable(s) && Next(s, s') && p in s.db.payments && NotMovedBack(start, s.db.payments[p])
    ensures p in s'.db.payments && NotMovedBack(start, s'.db.payments[p])
  {
    NextAdvances(s, s', p);
    AdvancesCompose(start, s.db.payments[p], s'.db.payments[p]);
  }

  lemma {:induction false} PathNotMovedBack(path: seq<State>, i: nat, p: Id)
    requires IsPath(path) && Reachable(path[0]) && i < |path| && p in path[0].db.payments
    ensures p in path[i].db.payments && NotMovedBack(path[0].db.payments[p], path[i].db.payments[p])
  {
    if i > 0 {
      PathNotMovedBack(path, i - 1, p);
      PathReaches(path, i - 1);
      NextNotMovedBack(path[0].db.payments[p], path[i - 1], path[i], p);
    }
  }

  /** Never backwards: over any stretch of any run a status only rises, and a terminal row is frozen. */
  lemma StatusNeverMovesBack(a: State, b: State, p: Id)
    requires Reachable(a) && Runs(a, b) && p in a.db.payments
    ensures p in b.db.payments && NotMovedBack(a.db.payments[p], b.db.payments[p])
  {
    var path :| IsPath(path) && path[0] == a && path[|path| - 1] == b;
    PathNotMovedBack(path, |path| - 1, p);
  }

  lemma NextKeepsRefunds(s: State, s': State)
    requires Next(s, s')
    ensures s.db.refunds <= s'.db.refunds
  {
    if !Tick(s, s') {
      var tid :| StepOf(s, tid, s');
      assert Commit(s, tid, s') || s'.db.refunds == s.db.refunds;
    }
  }

  lemma {:induction false} PathKeepsRefunds(path: seq<State>, i: nat)
    requires IsPath(path) && i < |path|
    ensures path[0].db.refunds <= path[i].db.refunds
  {
    if i > 0 {
      PathKeepsRefunds(path, i - 1);
      NextKeepsRefunds(path[i - 1], path[i]);
    }
  }

  /** Refunds are only ever added: once a payment is fully refunded, no run commits another refund of it. */
  lemma FullRefundIsLast(a: State, b: State, p: Id)
    requires Reachable(a) && Runs(a, b) && p in a.db.payments
    requires SumRefunds(a.db.refunds, p) == a.db.payments[p].amount
    ensures a.db.refunds <= b.db.refunds && SumRefunds(b.db.refunds, p) == SumRefunds(a.db.refunds, p)
    ensures forall j :: |a.db.refunds| <= j < |b.db.refunds| ==> b.db.refunds[j].payment != p
  {
    var path :| IsPath(path) && path[0] == a && path[|path| - 1] == b;
    PathKeepsRefunds(path, |path| - 1);
    PathReaches(path, |path| - 1);
    StatusNeverMovesBack(a, b, p);
    RefundsAreConserved(b, p);
    assert b.db.refunds[..|a.db.refunds|] == a.db.refunds;
    LaterRefundsAdd(b.db.refunds, |a.db.refunds|, p);
  }

  // ---------------------------------------------------------------------------------------------
  // Where the promise needs a key
  // ---------------------------------------------------------------------------------------------

  /** One `payment.created` event and one audit entry, the pair every create is meant to leave. */
  ghost predicate CreatedOnce(s: State, p: Id) {
    CountEvents(s.db.events, p, Created) == 1 && CountAudit(s.db.audit, p, Created) == 1
  }

  const EXAMPLE_SCOPE := Scope(1, 2, 3, None)
  const EXAMPLE_CREATE := CreatePayment("test", 4, 1000, None)

  /** The empty ledger at clock 0 with one-second delays. */
  ghost function EmptyLedger(): State {
    State(Config(86400000, SimulationDelays(1000, 2000)), 0, Db(map[], map[], [], [], []), map[], [], map[])
  }

  /** A keyless create that dies right after its first statement: the payment is there, nothing else is. */
  ghost function Orphaned(): State {
    EmptyLedger().(db := Db(map[], map[7 := NewPayment(EXAMPLE_SCOPE, EXAMPLE_CREATE, 0)], [], [], []),
                   origins := map[7 := Origin(false, EXAMPLE_SCOPE, EXAMPLE_CREATE)])
  }

  lemma OrphanReachable()
    ensures Reachable(Orphaned())
    ensures CountEvents(Orphaned().db.events, 7, Created) == 0
  {
    var s0 := EmptyLedger();
    var t := DirectTx(EXAMPLE_SCOPE, EXAMPLE_CREATE, Running, None);
    var row := NewPayment(EXAMPLE_SCOPE, EXAMPLE_CREATE, 0);
    var s1 := s0.(txs := map[0 := Direct(t)]);
    var s2 := Orphaned().(txs := map[0 := Direct(t.(pc := RowWritten, row := Some((7, row))))]);
    assert IsPath([s0]) && IsRun([s0]) && [s0][|[s0]| - 1] == s0;
    assert s0.txs[0 := Direct(t)] == s1.txs;
    assert StepOf(s0, 0, s1) by { assert Begin(s0, 0, s1); }
    ReachableExtends(s0, s1);
    assert s2.db.payments == s1.db.payments[7 := row];
    assert s2.txs == s1.txs[0 := s2.txs[0]];
    assert s2.origins == s1.origins[7 := Origin(false, EXAMPLE_SCOPE, EXAMPLE_CREATE)];
    assert StepOf(s1, 0, s2) by { assert DirectStatement(s1, 0, s2); }
    ReachableExtends(s1, s2);
    assert s2.txs - {0} == map[];
    assert StepOf(s2, 0, Orphaned()) by { assert Abort(s2, 0, Orphaned()); }
    ReachableExtends(s2, Orphaned());
  }

  /**
   * "A committed payment always has its `payment.created` event and its audit entry" holds of the
   * creates that run in a transaction, that is of the keyed ones, and of no others.
   */
  lemma CreatedPairIffTransactional(atomic: bool)
    ensures (forall s, p :: Reachable(s) && p in s.origins && s.origins[p].atomic == atomic ==> CreatedOnce(s, p)) <==> atomic
  {
    if atomic {
      forall s, p | Reachable(s) && p in s.origins && s.origins[p].atomic == atomic
        ensures CreatedOnce(s, p)
      {
        var run :| IsRun(run) && run[|run| - 1] == s;
        RunKeepsEffects(run, |run| - 1);
        ReachablePayment(s, p);
      }
    } else {
      OrphanReachable();
      assert 7 in Orphaned().origins && !CreatedOnce(Orphaned(), 7);
    }
  }
}
