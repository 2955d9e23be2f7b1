/**
 * The attempt counter over runs of the webhook tables: what it counts while attempts of a delivery
 * do not overlap, and exactly when an attempt that did overlap puts it back.
 */
module WebhookAttempts {
  import opened Common
  import opened WebhookDelivery
  import opened WebhookRetry
  import opened WebhookPlane
  import opened WebhookInvariant
  import opened WebhookRuns
  import opened WebhookTheorems

  // ---------------------------------------------------------------------------------------------
  // What one step does to a delivery
  // ---------------------------------------------------------------------------------------------

  /** Task `tid` is an attempt of `d`. */
  predicate Attempts(s: State, tid: Id, d: Id) {
    tid in s.tasks && s.tasks[tid].Attempt? && s.tasks[tid].a.delivery == d
  }

  /** The step records an attempt: it finds the row still pending and writes to it. */
  ghost predicate Records(s: State, s': State, d: Id, tid: Id, trial: Trial) {
    && Attempts(s, tid, d) && d in s.deliveries && s.deliveries[d].status == Pending
    && FinishAttempt(s, tid, s.tasks[tid].a, trial, s')
  }

  /** The step records an attempt that counts. */
  ghost predicate Counts(s: State, s': State, d: Id) {
    exists tid: Id, trial :: Records(s, s', d, tid, trial) && !trial.outcome.Denied?
  }

  lemma InsertedLeaves(s: State, tid: Id, t: FanTask, s': State, d: Id, row: Delivery)
    requires InsertDeliveries(s, tid, t, s') && Keeps(d, row, s) && d in s'.deliveries
    ensures d in s.deliveries && s'.deliveries[d] == s.deliveries[d]
  {
    var rows :| InsertsRows(s, tid, t, rows, s');
    InsertsRowsEffect(s, tid, t, rows, s');
    assert d !in rows;
  }

  lemma FanStepLeaves(s: State, tid: Id, s': State, d: Id, row: Delivery)
    requires FanStep(s, tid, s') && Keeps(d, row, s) && d in s'.deliveries
    ensures d in s.deliveries && s'.deliveries[d] == s.deliveries[d]
  {
    var t := s.tasks[tid].f;
    assert d !in HeldRows(s.tasks[tid]);
    if InsertDeliveries(s, tid, t, s') {
      InsertedLeaves(s, tid, t, s', d, row);
    } else if CommitFan(s, tid, t, s') {
      assert s'.deliveries == s.deliveries + t.rows;
    } else {
      assert s'.deliveries == s.deliveries;
    }
  }

  lemma ReplayStepLeaves(s: State, id: Id, s': State, d: Id, row: Delivery)
    requires ReplayStep(s, id, s') && Keeps(d, row, s) && d in s'.deliveries
    ensures d in s.deliveries && s'.deliveries[d] == s.deliveries[d]
  {
    var r := s.tasks[id].r;
    if !ReadReplayed(s, id, r, s') {
      var c, now :| InsertsReplay(s, id, r, c, now, s');
      assert c != d;
    }
  }

  lemma EndpointStepLeaves(s: State, id: Id, s': State, d: Id)
    requires EndpointStep(s, id, s') && d in s'.deliveries
    ensures d in s.deliveries && s'.deliveries[d] == s.deliveries[d] && s'.tasks == s.tasks
  {
    EndpointStepEffect(s, id, s');
  }

  lemma AttemptStepRecords(s: State, id: Id, s': State, d: Id)
    requires AttemptStep(s, id, s') && d in s'.deliveries
    ensures d in s.deliveries
    ensures s'.deliveries[d] == s.deliveries[d] || exists trial :: Records(s, s', d, id, trial)
  {
    AttemptStepEffect(s, id, s');
    var trial :| FinishAttempt(s, id, s.tasks[id].a, trial, s');
    if s'.deliveries[d] != s.deliveries[d] {
      assert Records(s, s', d, id, trial);
    }
  }

  /** A row that was not there does not appear; a row that changes was written by one attempt. */
  lemma NextRow(s: State, s': State, d: Id, row: Delivery)
    requires Inv(s) && Next(s, s') && Keeps(d, row, s) && d in s'.deliveries
    ensures d in s.deliveries
    ensures s'.deliveries[d] == s.deliveries[d] || exists tid: Id, trial :: Records(s, s', d, tid, trial)
  {
    if !Tick(s, s') {
      var id :| StepOf(s, id, s');
      if FanStep(s, id, s') {
        FanStepLeaves(s, id, s', d, row);
      } else if ReplayStep(s, id, s') {
        ReplayStepLeaves(s, id, s', d, row);
      } else if AttemptStep(s, id, s') {
        AttemptStepRecords(s, id, s', d);
      } else if EndpointStep(s, id, s') {
        EndpointStepLeaves(s, id, s', d);
      }
    }
  }

  /** Attempts in flight stay as they are; one that appears has read the row as it is. */
  ghost predicate TaskFrom(s: State, s': State, tid: Id)
    requires tid in s'.tasks && s'.tasks[tid].Attempt?
  {
    || (tid in s.tasks && s.tasks[tid] == s'.tasks[tid])
    || (s'.deliveries == s.deliveries && BeginsAttempt(s, s'.tasks[tid].a))
  }

  /** At most one task ends, or goes on but not as an attempt; the others are as they were. */
  ghost predicate OneTaskMoves(s: State, id: Id, s': State) {
    || s'.tasks == s.tasks || s'.tasks == s.tasks - {id}
    || (id in s'.tasks && !s'.tasks[id].Attempt? && s'.tasks == s.tasks[id := s'.tasks[id]])
  }

  lemma InsertedMoves(s: State, id: Id, t: FanTask, s': State)
    requires InsertDeliveries(s, id, t, s')
    ensures OneTaskMoves(s, id, s')
  {
    var rows :| InsertsRows(s, id, t, rows, s');
  }

  lemma FanMoves(s: State, id: Id, t: FanTask, s': State)
    requires InsertEvent(s, id, t, s') || ReadEndpoints(s, id, t, s') || CommitFan(s, id, t, s')
    ensures OneTaskMoves(s, id, s')
  {
    if InsertEvent(s, id, t, s') {
      InsertEventEffect(s, id, t, s');
    } else if CommitFan(s, id, t, s') {
      assert s'.tasks == s.tasks - {id};
    }
  }

  lemma OthersMove(s: State, id: Id, s': State)
    requires ReplayStep(s, id, s') || AttemptStep(s, id, s') || EndpointStep(s, id, s') || Abort(s, id, s')
    ensures OneTaskMoves(s, id, s')
  {
    if EndpointStep(s, id, s') {
      EndpointStepTasks(s, id, s');
    }
  }

  lemma EndpointStepTasks(s: State, id: Id, s': State)
    requires EndpointStep(s, id, s')
    ensures s'.tasks == s.tasks
  {
  }

  lemma StepMoves(s: State, id: Id, s': State)
    requires StepOf(s, id, s') && !Begin(s, id, s')
    ensures OneTaskMoves(s, id, s')
  {
    if FanStep(s, id, s') {
      var t := s.tasks[id].f;
      if InsertDeliveries(s, id, t, s') {
        InsertedMoves(s, id, t, s');
      } else {
        FanMoves(s, id, t, s');
      }
    } else {
      OthersMove(s, id, s');
    }
  }

  lemma NextTask(s: State, s': State, tid: Id)
    requires Next(s, s') && tid in s'.tasks && s'.tasks[tid].Attempt?
    ensures TaskFrom(s, s', tid)
  {
    if !Tick(s, s') {
      var id :| StepOf(s, id, s');
      if Begin(s, id, s') {
        assert s'.deliveries == s.deliveries && s'.tasks == s.tasks[id := s'.tasks[id]];
      } else {
        StepMoves(s, id, s');
      }
    }
  }

  // ---------------------------------------------------------------------------------------------
  // Attempts one after another
  // ---------------------------------------------------------------------------------------------

  /** At most one attempt of `d` is in flight, `slow` aside. */
  ghost predicate AtMostOneAttempt(s: State, d: Id, slow: Option<Id>) {
    forall tid: Id, other: Id :: Attempts(s, tid, d) && Attempts(s, other, d) && slow != Some(tid) && slow != Some(other) ==> tid == other
  }

  /** Every attempt of `d` in flight has read the count now in the row, `slow` aside. */
  ghost predicate UpToDate(s: State, d: Id, slow: Option<Id>)
    requires d in s.deliveries
  {
    forall tid: Id :: Attempts(s, tid, d) && slow != Some(tid) ==> s.tasks[tid].a.attempts == s.deliveries[d].attempts
  }

  ghost predicate StaysInFlight(s: State, s': State, slow: Option<Id>) {
    slow.Some? ==> slow.value in s.tasks && slow.value in s'.tasks && s'.tasks[slow.value] == s.tasks[slow.value]
  }

  lemma RecordedCount(s: State, s': State, d: Id, tid: Id, trial: Trial)
    requires Records(s, s', d, tid, trial)
    ensures d in s'.deliveries && s'.deliveries[d].attempts == CountAfter(s.tasks[tid].a.attempts, trial.outcome)
    ensures s'.tasks == s.tasks - {tid}
  {
  }

  /** The count rises by one exactly on a step that records an attempt that counts. */
  lemma SerialCount(s: State, s': State, d: Id, row: Delivery, slow: Option<Id>)
    requires Inv(s) && Next(s, s') && Keeps(d, row, s) && d in s'.deliveries && d in s.deliveries
    requires UpToDate(s, d, slow) && StaysInFlight(s, s', slow)
    ensures s'.deliveries[d].attempts == s.deliveries[d].attempts + if Counts(s, s', d) then 1 else 0
  {
    if Counts(s, s', d) {
      var tid: Id, trial :| Records(s, s', d, tid, trial) && !trial.outcome.Denied?;
      SerialRecorded(s, s', d, slow, tid, trial);
    } else {
      NextRow(s, s', d, row);
      if s'.deliveries[d] != s.deliveries[d] {
        var tid: Id, trial :| Records(s, s', d, tid, trial);
        SerialRecorded(s, s', d, slow, tid, trial);
      }
    }
  }

  /** An attempt that is up to date counts from the row's own count. */
  lemma SerialRecorded(s: State, s': State, d: Id, slow: Option<Id>, tid: Id, trial: Trial)
    requires d in s.deliveries && UpToDate(s, d, slow) && StaysInFlight(s, s', slow) && Records(s, s', d, tid, trial)
    ensures d in s'.deliveries && s'.deliveries[d].attempts == CountAfter(s.deliveries[d].attempts, trial.outcome)
  {
    RecordedCount(s, s', d, tid, trial);
    assert slow != Some(tid);
  }

  /** A recorded attempt was the only one in flight, so no other is left to be out of date. */
  lemma NoneLeftAfter(s: State, s': State, d: Id, slow: Option<Id>, recorded: Id, trial: Trial, tid: Id)
    requires AtMostOneAttempt(s, d, slow) && StaysInFlight(s, s', slow)
    requires Records(s, s', d, recorded, trial)
    requires slow != Some(tid)
    ensures !Attempts(s', tid, d)
  {
    RecordedCount(s, s', d, recorded, trial);
    assert slow != Some(recorded);
    assert Attempts(s, tid, d) ==> tid == recorded;
  }

  lemma StaysUpToDate(s: State, s': State, d: Id, slow: Option<Id>, tid: Id)
    requires d in s.deliveries && d in s'.deliveries && s'.deliveries[d] == s.deliveries[d]
    requires UpToDate(s, d, slow) && Attempts(s', tid, d) && slow != Some(tid) && TaskFrom(s, s', tid)
    ensures s'.tasks[tid].a.attempts == s'.deliveries[d].attempts
  {
    assert tid in s.tasks && s.tasks[tid] == s'.tasks[tid] ==> Attempts(s, tid, d);
  }

  lemma SerialUpToDate(s: State, s': State, d: Id, row: Delivery, slow: Option<Id>)
    requires Inv(s) && Next(s, s') && Keeps(d, row, s) && d in s'.deliveries && d in s.deliveries
    requires UpToDate(s, d, slow) && AtMostOneAttempt(s, d, slow) && StaysInFlight(s, s', slow)
    ensures UpToDate(s', d, slow)
  {
    NextRow(s, s', d, row);
    forall tid: Id | Attempts(s', tid, d) && slow != Some(tid)
      ensures s'.tasks[tid].a.attempts == s'.deliveries[d].attempts
    {
      if s'.deliveries[d] == s.deliveries[d] {
        NextTask(s, s', tid);
        StaysUpToDate(s, s', d, slow, tid);
      } else {
        var recorded: Id, trial :| Records(s, s', d, recorded, trial);
        NoneLeftAfter(s, s', d, slow, recorded, trial, tid);
        assert false;
      }
    }
  }

  /** The steps of a path that record an attempt that counts. */
  ghost function Counted(path: seq<State>, d: Id): nat {
    if |path| < 2 then 0
    else Counted(path[..|path| - 1], d) + if Counts(path[|path| - 2], path[|path| - 1], d) then 1 else 0
  }

  /** Attempts of `d` do not overlap along the path, and the attempt in flight at its start is not stale. */
  ghost predicate Serial(path: seq<State>, d: Id, slow: Option<Id>) {
    && IsPath(path) && Reachable(path[0])
    && d in path[0].deliveries && UpToDate(path[0], d, slow)
    && forall i :: 0 <= i < |path| ==> AtMostOneAttempt(path[i], d, slow) && StaysInFlight(path[0], path[i], slow)
  }

  lemma KeptAlong(path: seq<State>, i: nat, d: Id)
    requires IsPath(path) && Reachable(path[0]) && d in path[0].deliveries && i < |path|
    ensures Inv(path[i]) && Keeps(d, path[0].deliveries[d], path[i])
  {
    ReachableInv(path[0]);
    forall tid | tid in path[0].tasks
      ensures d !in HeldRows(path[0].tasks[tid])
    {
      HeldElsewhere(path[0], path[0].tasks[tid]);
    }
    PathKeepsInv(path, i);
    PathKeeps(path, i, d, path[0].deliveries[d]);
  }

  lemma {:induction false} SerialCounted(path: seq<State>, d: Id, slow: Option<Id>)
    requires Serial(path, d, slow) && d in path[|path| - 1].deliveries
    ensures UpToDate(path[|path| - 1], d, slow)
    ensures path[|path| - 1].deliveries[d].attempts == path[0].deliveries[d].attempts + Counted(path, d)
  {
    var last := |path| - 1;
    if last > 0 {
      var (s, s') := (path[last - 1], path[last]);
      KeptAlong(path, last - 1, d);
      assert Next(path[last - 1], path[last - 1 + 1]);
      NextRow(s, s', d, path[0].deliveries[d]);
      SerialCounted(path[..last], d, slow);
      assert StaysInFlight(path[0], s, slow) && StaysInFlight(path[0], s', slow);
      SerialCount(s, s', d, path[0].deliveries[d], slow);
      SerialUpToDate(s, s', d, path[0].deliveries[d], slow);
    }
  }

  /**
   * Over any stretch of any run in which the attempts of one delivery do not overlap, whatever else
   * happens: the count never falls, it rises by exactly the attempts recorded, denials aside, and a
   * delivery that has been given its remaining attempts is no longer pending.
   */
  lemma AttemptsAreCounted(path: seq<State>, d: Id)
    requires Serial(path, d, None) && d in path[|path| - 1].deliveries
    ensures var (before, after) := (path[0].deliveries[d], path[|path| - 1].deliveries[d]);
            && after.attempts == before.attempts + Counted(path, d)
            && (after.status == Pending ==> before.attempts + Counted(path, d) < path[|path| - 1].policy.maxAttempts)
            && after.attempts <= path[|path| - 1].policy.maxAttempts
  {
    SerialCounted(path, d, None);
    KeptAlong(path, |path| - 1, d);
    assert DeliveryOk(path[|path| - 1], path[|path| - 1].deliveries[d]);
  }

  // ---------------------------------------------------------------------------------------------
  // An attempt that overlaps others
  // ---------------------------------------------------------------------------------------------

  /** What an attempt adds to the count it read. */
  function Own(trial: Trial): nat {
    if trial.outcome.Denied? then 0 else 1
  }

  /**
   * A slow attempt, in flight along the whole path while the others take turns: its write puts the
   * count back exactly when more attempts were counted between its read and its write than it adds
   * itself, and then by the difference.
   */
  lemma SlowAttemptLowersIff(path: seq<State>, s': State, d: Id, slow: Id, trial: Trial)
    requires Serial(path, d, Some(slow)) && Attempts(path[0], slow, d)
    requires path[0].tasks[slow].a.attempts == path[0].deliveries[d].attempts
    requires Records(path[|path| - 1], s', d, slow, trial)
    ensures d in s'.deliveries
    ensures s'.deliveries[d].attempts == path[|path| - 1].deliveries[d].attempts + Own(trial) - Counted(path, d)
    ensures s'.deliveries[d].attempts < path[|path| - 1].deliveries[d].attempts <==> Counted(path, d) > Own(trial)
  {
    SerialCounted(path, d, Some(slow));
    assert StaysInFlight(path[0], path[|path| - 1], Some(slow));
    RecordedCount(path[|path| - 1], s', d, slow, trial);
  }

  /** Step `k` of the path records an attempt of `d`, and the row is not written again after it. */
  ghost predicate RecordsLast(path: seq<State>, k: nat, d: Id, tid: Id, trial: Trial) {
    && k + 1 < |path| && Records(path[k], path[k + 1], d, tid, trial)
    && forall j :: k < j < |path| ==> d in path[j].deliveries && path[j].deliveries[d] == path[k + 1].deliveries[d]
  }

  ghost predicate WrittenWithin(path: seq<State>, d: Id) {
    exists k: nat, tid: Id, trial :: RecordsLast(path, k, d, tid, trial)
  }

  lemma StillWritten(path: seq<State>, d: Id)
    requires |path| > 1 && WrittenWithin(path[..|path| - 1], d)
    requires d in path[|path| - 1].deliveries && d in path[|path| - 2].deliveries
    requires path[|path| - 1].deliveries[d] == path[|path| - 2].deliveries[d]
    ensures WrittenWithin(path, d)
  {
    var init := path[..|path| - 1];
    var k: nat, tid: Id, trial :| RecordsLast(init, k, d, tid, trial);
    assert forall j :: 0 <= j < |init| ==> init[j] == path[j];
    assert init[|init| - 1].deliveries[d] == init[k + 1].deliveries[d];
    assert RecordsLast(path, k, d, tid, trial);
  }

  /** The last step of a path writes the row, or leaves it as the path before it did. */
  lemma LastStepWrites(path: seq<State>, d: Id)
    requires IsPath(path) && Reachable(path[0]) && d in path[0].deliveries && |path| > 1 && d in path[|path| - 1].deliveries
    ensures d in path[|path| - 2].deliveries
    ensures path[|path| - 1].deliveries[d] == path[|path| - 2].deliveries[d] || WrittenWithin(path, d)
  {
    var k := |path| - 2;
    KeptAlong(path, k, d);
    NextRow(path[k], path[k + 1], d, path[0].deliveries[d]);
    if path[k + 1].deliveries[d] != path[k].deliveries[d] {
      var tid: Id, trial :| Records(path[k], path[k + 1], d, tid, trial);
      assert RecordsLast(path, k, d, tid, trial);
    }
  }

  lemma {:induction false} WrittenByTheLast(path: seq<State>, d: Id)
    requires IsPath(path) && Reachable(path[0]) && d in path[0].deliveries && d in path[|path| - 1].deliveries
    ensures path[|path| - 1].deliveries[d] == path[0].deliveries[d] || WrittenWithin(path, d)
  {
    var last := |path| - 1;
    if last > 0 {
      LastStepWrites(path, d);
      WrittenByTheLast(path[..last], d);
      if path[last].deliveries[d] == path[last - 1].deliveries[d] && WrittenWithin(path[..last], d) {
        StillWritten(path, d);
      }
    }
  }

  /**
   * However attempts overlap: an attempt that read its count at the start of the path lowers the
   * count exactly when the last attempt recorded in between had, with its own addition, come from a
   * higher count.
   */
  lemma AttemptLowersIff(path: seq<State>, s': State, d: Id, slow: Id, trial: Trial)
    requires IsPath(path) && Reachable(path[0]) && d in path[0].deliveries
    requires Records(path[|path| - 1], s', d, slow, trial)
    requires path[|path| - 1].tasks[slow].a.attempts == path[0].deliveries[d].attempts
    ensures d in s'.deliveries
    ensures s'.deliveries[d].attempts < path[|path| - 1].deliveries[d].attempts
            <==> exists k: nat, tid: Id, other ::
                   && RecordsLast(path, k, d, tid, other)
                   && path[k].tasks[tid].a.attempts + Own(other) > path[0].deliveries[d].attempts + Own(trial)
  {
    WrittenByTheLast(path, d);
    RecordedCount(path[|path| - 1], s', d, slow, trial);
    forall k: nat, tid: Id, other | RecordsLast(path, k, d, tid, other)
      ensures path[|path| - 1].deliveries[d].attempts == path[k].tasks[tid].a.attempts + Own(other)
    {
      RecordedCount(path[k], path[k + 1], d, tid, other);
    }
  }
}
