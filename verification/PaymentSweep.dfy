/**
 * What advancing a payment, and sweeping a table of them, amounts to when nobody else writes
 * (payments/payments.service.ts, `advance` and `advanceDuePayments`).
 */
module PaymentSweep {
  import opened Common
  import opened Ordering
  import opened PaymentScenarios
  import opened PaymentSimulation
  import opened LedgerState

  ghost predicate OnSchedule(row: PaymentRow, now: Time, delays: SimulationDelays) {
    NotBeyond(row.status, IntentOf(row).scenario, row.createdAt, now, delays)
  }

  /** The row the schedule prescribes at `now`, in one jump. */
  function AdvancedRow(row: PaymentRow, now: Time, delays: SimulationDelays): PaymentRow {
    var target := StatusAt(IntentOf(row).scenario, row.createdAt, now, delays);
    if target == row.status then row
    else AfterEdge(row, target, EdgeCode(IntentOf(row), target), now)
  }

  /** One applied edge brings the row nearer to the same destination. */
  lemma EdgeKeepsDestination(row: PaymentRow, now: Time, delays: SimulationDelays)
    requires OnSchedule(row, now, delays)
    ensures var intent := IntentOf(row);
            match ScheduledTransition(row.status, row.createdAt, now, delays, intent.scenario)
            case None => AdvancedRow(row, now, delays) == row
            case Some(t) =>
              var next := AfterEdge(row, t.to, EdgeCode(intent, t.to), now);
              OnSchedule(next, now, delays) && AdvancedRow(next, now, delays) == AdvancedRow(row, now, delays)
  {
  }

  /** Time passing keeps a row on schedule. */
  lemma LaterStaysOnSchedule(row: PaymentRow, t0: Time, t1: Time, delays: SimulationDelays)
    requires t0 <= t1 && OnSchedule(row, t0, delays)
    ensures OnSchedule(row, t1, delays)
  {
    ScheduleIsMonotone(IntentOf(row).scenario, row.createdAt, t0, t1, delays);
  }

  /** A row that is advanced at each of these times. */
  function AdvancedThrough(row: PaymentRow, nows: seq<Time>, delays: SimulationDelays): PaymentRow {
    if |nows| == 0 then row
    else AdvancedRow(AdvancedThrough(row, nows[..|nows| - 1], delays), nows[|nows| - 1], delays)
  }

  /**
   * However often it is advanced, and whenever, a payment ends where the schedule puts it at the
   * last of those times, with the failure code its scenario chose.
   */
  lemma {:induction false} AdvanceSeriesIsClosedForm(row: PaymentRow, nows: seq<Time>, delays: SimulationDelays)
    requires |nows| > 0 && (forall i, j :: 0 <= i < j < |nows| ==> nows[i] <= nows[j])
    requires OnSchedule(row, nows[0], delays) && row.failureCode == EdgeCode(IntentOf(row), row.status)
    ensures var (end, last) := (AdvancedThrough(row, nows, delays), nows[|nows| - 1]);
            && end.status == StatusAt(IntentOf(row).scenario, row.createdAt, last, delays)
            && end.failureCode == EdgeCode(IntentOf(row), end.status)
            && SameIdentity(row, end) && OnSchedule(end, last, delays)
  {
    var before := nows[..|nows| - 1];
    if |before| > 0 {
      AdvanceSeriesIsClosedForm(row, before, delays);
      LaterStaysOnSchedule(AdvancedThrough(row, before, delays), before[|before| - 1], nows[|nows| - 1], delays);
    }
  }

  /** The sweep's filter, column by column. */
  predicate IsDue(row: PaymentRow, now: Time, delays: SimulationDelays) {
    && row.createdAt <= now - (delays.pendingDelayMs + delays.settlementDelayMs)
    && (|| row.status == Pending
        || (row.status == Processing && row.scenario == None)
        || (row.status == Processing && row.scenario != Some("timeout")))
  }

  /** The last instant of the schedule has come. */
  predicate ScheduleComplete(row: PaymentRow, now: Time, delays: SimulationDelays) {
    now - row.createdAt >= delays.pendingDelayMs + delays.settlementDelayMs
  }

  /** The filter selects exactly the rows whose schedule has run out and that still have a due edge. */
  lemma SelectedIffEdgeDue(row: PaymentRow, now: Time, delays: SimulationDelays)
    ensures IsDue(row, now, delays) <==>
              && ScheduleComplete(row, now, delays)
              && ScheduledTransition(row.status, row.createdAt, now, delays, ParseSimulationScenario(row.scenario).scenario).Some?
  {
    SweepAndEngineReadAlike(row.scenario);
  }

  /** Once advanced, a selected row is never selected again; a settled `timeout` row stays out for good. */
  lemma AdvancedNeverDueAgain(row: PaymentRow, now: Time, later: Time, delays: SimulationDelays)
    requires IsDue(row, now, delays)
    ensures AdvancedRow(row, now, delays).status != row.status
    ensures !IsDue(AdvancedRow(row, now, delays), later, delays)
  {
    SweepAndEngineReadAlike(row.scenario);
  }

  function DueIds(payments: map<Id, PaymentRow>, now: Time, delays: SimulationDelays): set<Id> {
    set p | p in payments && IsDue(payments[p], now, delays)
  }

  /** The table once the rows `done` have been advanced. */
  function AdvancedRows(payments: map<Id, PaymentRow>, done: seq<Id>, now: Time, delays: SimulationDelays): map<Id, PaymentRow> {
    map p | p in payments :: if p in done then AdvancedRow(payments[p], now, delays) else payments[p]
  }

  /** The open payments of one project and environment. */
  function OpenIds(payments: map<Id, PaymentRow>, project: Id, environment: string): (ids: seq<Id>)
    ensures Ascending(ids)
    ensures forall k :: 0 <= k < |ids| ==> ids[k] in payments
  {
    var open := set p | p in payments && payments[p].project == project && payments[p].environment == environment
                        && !IsTerminal(payments[p].status);
    assert forall k :: 0 <= k < |Sorted(open)| ==> Sorted(open)[k] in open;
    Sorted(open)
  }

  /** The table after an undisturbed catch-up. */
  function CaughtUp(payments: map<Id, PaymentRow>, project: Id, environment: string, now: Time, delays: SimulationDelays): map<Id, PaymentRow> {
    AdvancedRows(payments, OpenIds(payments, project, environment), now, delays)
  }

  /** How many of the rows change their status when they are advanced. */
  function Moved(payments: map<Id, PaymentRow>, ids: seq<Id>, now: Time, delays: SimulationDelays): nat
    requires forall k :: 0 <= k < |ids| ==> ids[k] in payments
  {
    if |ids| == 0 then 0
    else
      var row := payments[ids[|ids| - 1]];
      Moved(payments, ids[..|ids| - 1], now, delays) + (if AdvancedRow(row, now, delays).status != row.status then 1 else 0)
  }

  lemma OneMoreMoved(payments: map<Id, PaymentRow>, ids: seq<Id>, i: nat, now: Time, delays: SimulationDelays)
    requires i < |ids| && forall k :: 0 <= k < |ids| ==> ids[k] in payments
    ensures Moved(payments, ids[..i + 1], now, delays)
              == Moved(payments, ids[..i], now, delays) + (if AdvancedRow(payments[ids[i]], now, delays).status != payments[ids[i]].status then 1 else 0)
  {
    assert ids[..i + 1][..i] == ids[..i];
  }

  /** Every row the sweep selects moves. */
  lemma {:induction false} AllMove(payments: map<Id, PaymentRow>, ids: seq<Id>, now: Time, delays: SimulationDelays)
    requires forall k :: 0 <= k < |ids| ==> ids[k] in payments && IsDue(payments[ids[k]], now, delays)
    ensures Moved(payments, ids, now, delays) == |ids|
  {
    if |ids| > 0 {
      AllMove(payments, ids[..|ids| - 1], now, delays);
      AdvancedNeverDueAgain(payments[ids[|ids| - 1]], now, now, delays);
    }
  }

  /** After a catch-up, every payment of the environment is where the schedule puts it; no other is touched. */
  lemma CaughtUpIsOnTime(payments: map<Id, PaymentRow>, project: Id, environment: string, p: Id, now: Time, delays: SimulationDelays)
    requires p in payments && OnSchedule(payments[p], now, delays)
    ensures var after := CaughtUp(payments, project, environment, now, delays)[p];
            if payments[p].project == project && payments[p].environment == environment
            then after.status == StatusAt(IntentOf(payments[p]).scenario, payments[p].createdAt, now, delays)
            else after == payments[p]
  {
    var open := OpenIds(payments, project, environment);
    assert p in open <==> payments[p].project == project && payments[p].environment == environment && !IsTerminal(payments[p].status);
  }

  lemma OneMoreAdvanced(payments: map<Id, PaymentRow>, done: seq<Id>, p: Id, now: Time, delays: SimulationDelays)
    requires p in payments && p !in done
    ensures AdvancedRows(payments, done, now, delays)[p] == payments[p]
    ensures AdvancedRows(payments, done + [p], now, delays)
            == AdvancedRows(payments, done, now, delays)[p := AdvancedRow(payments[p], now, delays)]
  {
  }

  /** The table after one undisturbed pass. */
  function Swept(payments: map<Id, PaymentRow>, now: Time, batch: nat, delays: SimulationDelays): map<Id, PaymentRow> {
    AdvancedRows(payments, FirstOf(DueIds(payments, now, delays), batch), now, delays)
  }

  /** The payments of the table that have some edge due at `now`. */
  function EdgeDueIds(payments: map<Id, PaymentRow>, now: Time, delays: SimulationDelays): set<Id> {
    set p | p in payments
            && ScheduledTransition(payments[p].status, payments[p].createdAt, now, delays,
                                   ParseSimulationScenario(payments[p].scenario).scenario).Some?
  }

  lemma DueAreEdgeDue(payments: map<Id, PaymentRow>, now: Time, delays: SimulationDelays)
    ensures |DueIds(payments, now, delays)| <= |EdgeDueIds(payments, now, delays)|
  {
    var (due, edges) := (DueIds(payments, now, delays), EdgeDueIds(payments, now, delays));
    forall p | p in due
      ensures p in edges
    {
      SelectedIffEdgeDue(payments[p], now, delays);
    }
    assert edges == due + (edges - due);
  }

  /** A list as long as the set it is taken from leaves nothing out. */
  lemma WholeBatch(s: set<Id>, batch: nat)
    requires |s| <= batch
    ensures forall x :: x in s ==> x in FirstOf(s, batch)
  {
    var ids := FirstOf(s, batch);
    DistinctCount(ids);
    assert s == ToSet(ids) + (s - ToSet(ids));
    assert |s - ToSet(ids)| == 0;
  }

  /**
   * What the sweep is for: a pass with room for every row that has a due edge leaves no payment off
   * the status its schedule prescribes once that schedule is complete.
   */
  lemma PassSettlesCompleteSchedules(payments: map<Id, PaymentRow>, now: Time, batch: nat, delays: SimulationDelays, p: Id)
    requires p in payments && OnSchedule(payments[p], now, delays) && ScheduleComplete(payments[p], now, delays)
    requires |EdgeDueIds(payments, now, delays)| <= batch
    ensures Swept(payments, now, batch, delays)[p].status
            == StatusAt(ParseSimulationScenario(payments[p].scenario).scenario, payments[p].createdAt, now, delays)
  {
    DueAreEdgeDue(payments, now, delays);
    WholeBatch(DueIds(payments, now, delays), batch);
    SelectedIffEdgeDue(payments[p], now, delays);
    EdgeKeepsDestination(payments[p], now, delays);
  }

  /** A pass removes exactly the rows it selected from the due set, as seen at any time. */
  lemma SweepRemovesItsBatch(payments: map<Id, PaymentRow>, now: Time, batch: nat, later: Time, delays: SimulationDelays)
    ensures DueIds(Swept(payments, now, batch, delays), later, delays)
            == DueIds(payments, later, delays) - ToSet(FirstOf(DueIds(payments, now, delays), batch))
  {
    var selected := FirstOf(DueIds(payments, now, delays), batch);
    forall p | p in selected
      ensures !IsDue(Swept(payments, now, batch, delays)[p], later, delays)
    {
      AdvancedNeverDueAgain(payments[p], now, later, delays);
    }
  }

  function Passes(payments: map<Id, PaymentRow>, nows: seq<Time>, batch: nat, delays: SimulationDelays): map<Id, PaymentRow> {
    if |nows| == 0 then payments else Passes(Swept(payments, nows[0], batch, delays), nows[1..], batch, delays)
  }

  lemma OnePassDrains(payments: map<Id, PaymentRow>, now: Time, batch: nat, delays: SimulationDelays, end: Time)
    requires DueIds(payments, now, delays) == DueIds(payments, end, delays)
    ensures |DueIds(Swept(payments, now, batch, delays), end, delays)| == Max(0, |DueIds(payments, end, delays)| - batch)
  {
    var due := DueIds(payments, end, delays);
    var selected := FirstOf(due, batch);
    DistinctCount(selected);
    SweepRemovesItsBatch(payments, now, batch, end, delays);
    assert ToSet(selected) <= due;
    assert |due - ToSet(selected)| == |due| - |ToSet(selected)|;
  }

  /** What k passes of batch b leave of n. */
  function Left(n: nat, k: nat, b: nat): nat {
    Max(0, n - k * b)
  }

  lemma LeftAfterOne(n: nat, k: nat, b: nat)
    requires k > 0
    ensures Left(Left(n, 1, b), k - 1, b) == Left(n, k, b)
  {
    assert (k - 1) * b == k * b - b;
    assert (k - 1) * b >= 0;
  }

  /**
   * Progress: if nothing new becomes due while they run, k passes of batch b over n due payments
   * leave max(0, n - k*b) of them, whatever the times of the passes.
   */
  lemma {:induction false} PassesDrain(payments: map<Id, PaymentRow>, nows: seq<Time>, batch: nat, delays: SimulationDelays, end: Time)
    requires forall i :: 0 <= i < |nows| ==> DueIds(payments, nows[i], delays) == DueIds(payments, end, delays)
    ensures |DueIds(Passes(payments, nows, batch, delays), end, delays)|
            == Left(|DueIds(payments, end, delays)|, |nows|, batch)
  {
    if |nows| > 0 {
      var next := Swept(payments, nows[0], batch, delays);
      OnePassDrains(payments, nows[0], batch, delays, end);
      StillTheSame(payments, nows, batch, delays, end);
      PassesDrain(next, nows[1..], batch, delays, end);
      LeftAfterOne(|DueIds(payments, end, delays)|, |nows|, batch);
    }
  }

  lemma StillTheSame(payments: map<Id, PaymentRow>, nows: seq<Time>, batch: nat, delays: SimulationDelays, end: Time)
    requires |nows| > 0
    requires forall i :: 0 <= i < |nows| ==> DueIds(payments, nows[i], delays) == DueIds(payments, end, delays)
    ensures var next := Swept(payments, nows[0], batch, delays);
            forall i :: 0 <= i < |nows[1..]| ==> DueIds(next, nows[1..][i], delays) == DueIds(next, end, delays)
  {
    SweepRemovesItsBatch(payments, nows[0], batch, end, delays);
    forall i | 0 <= i < |nows[1..]|
      ensures DueIds(Swept(payments, nows[0], batch, delays), nows[1..][i], delays)
              == DueIds(Swept(payments, nows[0], batch, delays), end, delays)
    {
      assert DueIds(payments, nows[i + 1], delays) == DueIds(payments, end, delays);
      SweepRemovesItsBatch(payments, nows[0], batch, nows[i + 1], delays);
    }
  }
}
