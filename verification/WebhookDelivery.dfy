/** One delivery and what attempts do to it (webhooks/webhook-delivery.service.ts). */
module WebhookDelivery {
  import opened Common
  import opened WebhookRetry

  datatype DeliveryStatus = Pending | Delivered | Failed

  datatype Delivery = Delivery(
    event: Id, endpoint: Id, status: DeliveryStatus, attempts: nat, responseStatus: Option<int>,
    nextAttemptAt: Option<Time>, isReplay: bool, createdAt: Time)

  /**
   * What an attempt meets: a destination the policy denies, a signing secret that cannot be
   * decrypted, a simulated request, or a real one that fails in transport or gets an answer.
   */
  datatype Outcome =
    | Denied
    | Undecryptable
    | Simulated(rejected: bool)
    | Unreachable
    | Responded(status: int, retryAfter: Option<string>, asDate: Option<Time>)

  /** One attempt's inputs from outside: the outcome, the clock after it, and the random number. */
  datatype Trial = Trial(outcome: Outcome, now: Time, random: real)

  /** A new delivery is due at once. */
  function NewDelivery(event: Id, endpoint: Id, isReplay: bool, now: Time): Delivery {
    Delivery(event, endpoint, Pending, 0, None, Some(now), isReplay, now)
  }

  function Kind(outcome: Outcome): OutcomeKind {
    match outcome
    case Denied => Rejected
    case Undecryptable => Rejected
    case Simulated(rejected) => if rejected then Rejected else Retry
    case Unreachable => Retry
    case Responded(status, _, _) => ClassifyResponseStatus(status)
  }

  function ResponseStatusOf(outcome: Outcome): Option<int> {
    if outcome.Responded? then Some(outcome.status) else None
  }

  /** A real or a simulated request was made. */
  predicate MakesRequest(outcome: Outcome) {
    !outcome.Denied? && !outcome.Undecryptable?
  }

  /** A denied destination is the only outcome that is not counted. */
  function CountAfter(attempts: nat, outcome: Outcome): nat {
    if outcome.Denied? then attempts else attempts + 1
  }

  predicate MayRetry(attempts: nat, outcome: Outcome, policy: Policy) {
    Kind(outcome) == Retry && HasAttemptsRemaining(CountAfter(attempts, outcome), policy.maxAttempts)
  }

  function DelayOf(attempts: nat, trial: Trial, policy: Policy): int {
    BookedDelayMs(attempts + 1, ResponseStatusOf(trial.outcome),
                  if trial.outcome.Responded? then trial.outcome.retryAfter else None,
                  if trial.outcome.Responded? then trial.outcome.asDate else None, trial.now, trial.random, policy)
  }

  /**
   * What an attempt that read `attempts` writes to a row it still finds pending. The count is the
   * one it read, not the one now in the row.
   */
  function Recorded(attempts: nat, row: Delivery, trial: Trial, policy: Policy): Delivery {
    var counted := row.(attempts := CountAfter(attempts, trial.outcome), responseStatus := ResponseStatusOf(trial.outcome));
    if MayRetry(attempts, trial.outcome, policy)
    then counted.(nextAttemptAt := Some(trial.now + DelayOf(attempts, trial, policy)))
    else counted.(status := if Kind(trial.outcome) == Accepted then Delivered else Failed, nextAttemptAt := None)
  }

  /** A pending delivery has attempts left and a time for the next one; a finished one has no schedule. */
  predicate ScheduleOk(row: Delivery, policy: Policy) {
    if row.status == Pending then row.attempts < policy.maxAttempts && row.nextAttemptAt.Some?
    else row.attempts <= policy.maxAttempts && row.nextAttemptAt.None?
  }

  /** An attempt keeps the row well formed however long ago it read the count. */
  lemma RecordedScheduleOk(attempts: nat, row: Delivery, trial: Trial, policy: Policy)
    requires attempts < policy.maxAttempts && row.status == Pending
    ensures ScheduleOk(Recorded(attempts, row, trial, policy), policy)
  {
    var end := Recorded(attempts, row, trial, policy);
    assert end.attempts == CountAfter(attempts, trial.outcome) <= attempts + 1;
    if MayRetry(attempts, trial.outcome, policy) {
      assert end.status == row.status && end.nextAttemptAt.Some?;
    } else {
      assert end.status != Pending && end.nextAttemptAt == None;
    }
  }

  const REQUEUE_GRACE_MS: int := 15_000

  /** What `requeueDueDeliveries` selects. */
  predicate RequeueSelects(row: Delivery, now: Time) {
    row.status == Pending && (row.nextAttemptAt.None? || row.nextAttemptAt.value <= now - REQUEUE_GRACE_MS)
  }

  // ---------------------------------------------------------------------------------------------
  // Attempts that do not overlap
  // ---------------------------------------------------------------------------------------------

  function AfterAttempt(row: Delivery, trial: Trial, policy: Policy): Delivery {
    if row.status == Pending then Recorded(row.attempts, row, trial, policy) else row
  }

  /** The row after one attempt after another. */
  function AfterAttempts(row: Delivery, trials: seq<Trial>, policy: Policy): Delivery {
    if |trials| == 0 then row
    else AfterAttempt(AfterAttempts(row, trials[..|trials| - 1], policy), trials[|trials| - 1], policy)
  }

  /** How many of the attempts that found the row pending satisfied `p`. */
  function Count(row: Delivery, trials: seq<Trial>, policy: Policy, p: Outcome -> bool): nat {
    if |trials| == 0 then 0
    else
      var before := trials[..|trials| - 1];
      Count(row, before, policy, p)
      + if AfterAttempts(row, before, policy).status == Pending && p(trials[|trials| - 1].outcome) then 1 else 0
  }

  /** The sum of the delays booked by the attempts that were to be retried. */
  function BookedTotal(row: Delivery, trials: seq<Trial>, policy: Policy): int {
    if |trials| == 0 then 0
    else
      var before := trials[..|trials| - 1];
      var (found, last) := (AfterAttempts(row, before, policy), trials[|trials| - 1]);
      BookedTotal(row, before, policy)
      + if found.status == Pending && MayRetry(found.attempts, last.outcome, policy) then DelayOf(found.attempts, last, policy) else 0
  }

  /**
   * Every attempt on a pending row is counted unless its destination was denied, so the count is
   * the number of requests plus the attempts that stopped at an undecryptable secret. There is at
   * most one of those, and at most one denial: both are final.
   */
  lemma {:induction false} AttemptsCountRequests(row: Delivery, trials: seq<Trial>, policy: Policy)
    requires row.status == Pending && ScheduleOk(row, policy)
    ensures var end := AfterAttempts(row, trials, policy);
            var lost := Count(row, trials, policy, (o: Outcome) => o.Undecryptable?);
            var denied := Count(row, trials, policy, (o: Outcome) => o.Denied?);
            && ScheduleOk(end, policy)
            && end.attempts == row.attempts + Count(row, trials, policy, MakesRequest) + lost
            && (if end.status == Pending then lost + denied == 0 && end.attempts == row.attempts + |trials|
                else lost + denied <= 1)
  {
    if |trials| > 0 {
      var before := trials[..|trials| - 1];
      AttemptsCountRequests(row, before, policy);
    }
  }

  /** With attempts that do not overlap, `maxAttempts` of them always finish a delivery. */
  lemma FinishedWithin(row: Delivery, trials: seq<Trial>, policy: Policy)
    requires row.status == Pending && ScheduleOk(row, policy)
    requires |trials| >= policy.maxAttempts - row.attempts
    ensures AfterAttempts(row, trials, policy).status != Pending
  {
    AttemptsCountRequests(row, trials, policy);
  }

  /** Any 2xx. */
  predicate Accepts(outcome: Outcome) {
    outcome.Responded? && 200 <= outcome.status < 300
  }

  /** No answer at all, 408, 425, 429 or a server error; no redirect and no other client error. */
  predicate WorthRetrying(outcome: Outcome) {
    || outcome.Unreachable? || (outcome.Simulated? && !outcome.rejected)
    || (outcome.Responded? && (outcome.status in {408, 425, 429} || outcome.status >= 500))
  }

  predicate AllWorthRetrying(trials: seq<Trial>, n: nat)
    requires n <= |trials|
  {
    forall j :: 0 <= j < n ==> WorthRetrying(trials[j].outcome)
  }

  /** The answer at `i` is a 2xx, and all before it are worth retrying. */
  predicate AcceptedAt(trials: seq<Trial>, i: nat)
    requires i < |trials|
  {
    AllWorthRetrying(trials, i) && Accepts(trials[i].outcome)
  }

  /** The first answer that is not worth retrying is a 2xx, and comes while there are attempts `left`. */
  predicate AcceptedInTime(trials: seq<Trial>, left: nat) {
    exists i :: 0 <= i < |trials| && i < left && AcceptedAt(trials, i)
  }

  lemma AcceptedAtPrefix(trials: seq<Trial>, n: nat, i: nat)
    requires i < n <= |trials|
    ensures AcceptedAt(trials[..n], i) <==> AcceptedAt(trials, i)
  {
    assert forall j :: 0 <= j < n ==> trials[..n][j] == trials[j];
  }

  lemma AcceptedInTimeNext(trials: seq<Trial>, left: nat)
    requires |trials| > 0
    ensures var n := |trials| - 1;
            AcceptedInTime(trials, left) <==> AcceptedInTime(trials[..n], left) || (n < left && AcceptedAt(trials, n))
  {
    var n := |trials| - 1;
    forall i | 0 <= i < n
      ensures AcceptedAt(trials[..n], i) <==> AcceptedAt(trials, i)
    {
      AcceptedAtPrefix(trials, n, i);
    }
    if AcceptedInTime(trials[..n], left) {
      var i :| 0 <= i < n && i < left && AcceptedAt(trials[..n], i);
      assert AcceptedAt(trials, i);
    }
  }

  lemma AllWorthRetryingNext(trials: seq<Trial>)
    requires |trials| > 0
    ensures var n := |trials| - 1;
            AllWorthRetrying(trials, |trials|) <==> AllWorthRetrying(trials[..n], n) && WorthRetrying(trials[n].outcome)
    ensures AllWorthRetrying(trials, |trials| - 1) == AllWorthRetrying(trials[..|trials| - 1], |trials| - 1)
  {
    var n := |trials| - 1;
    assert forall j :: 0 <= j < n ==> trials[..n][j] == trials[j];
  }

  lemma OneAnswerDecides(found: Delivery, last: Trial, policy: Policy)
    ensures var end := AfterAttempt(found, last, policy);
            if found.status != Pending then end == found
            else
              && (end.status == Delivered <==> Accepts(last.outcome))
              && (end.status == Pending <==> WorthRetrying(last.outcome) && found.attempts + 1 < policy.maxAttempts)
  {
  }

  /** With this many attempts left, the answers have this effect. */
  ghost predicate Decide(trials: seq<Trial>, left: nat, status: DeliveryStatus) {
    && (status == Delivered <==> AcceptedInTime(trials, left))
    && (status == Pending <==> |trials| < left && AllWorthRetrying(trials, |trials|))
  }

  lemma DecideNext(row: Delivery, trials: seq<Trial>, policy: Policy, found: Delivery, end: Delivery)
    requires |trials| > 0 && row.attempts < policy.maxAttempts
    requires Decide(trials[..|trials| - 1], policy.maxAttempts - row.attempts, found.status)
    requires found.status == Pending ==> found.attempts == row.attempts + |trials| - 1
    requires end == AfterAttempt(found, trials[|trials| - 1], policy)
    ensures Decide(trials, policy.maxAttempts - row.attempts, end.status)
  {
    AcceptedInTimeNext(trials, policy.maxAttempts - row.attempts);
    AllWorthRetryingNext(trials);
    OneAnswerDecides(found, trials[|trials| - 1], policy);
  }

  /**
   * What the answers make of a delivery, read off the answers alone: delivered exactly when the
   * first one not worth retrying is a 2xx within the attempts left, pending exactly when all of
   * them are worth retrying and attempts are left, failed otherwise.
   */
  lemma {:induction false} AnswersDecide(row: Delivery, trials: seq<Trial>, policy: Policy)
    requires row.status == Pending && ScheduleOk(row, policy)
    ensures var (end, left) := (AfterAttempts(row, trials, policy), policy.maxAttempts - row.attempts);
            && (end.status == Delivered <==> AcceptedInTime(trials, left))
            && (end.status == Pending <==> |trials| < left && AllWorthRetrying(trials, |trials|))
  {
    if |trials| > 0 {
      var before := trials[..|trials| - 1];
      AnswersDecide(row, before, policy);
      AttemptsCountRequests(row, before, policy);
      DecideNext(row, trials, policy, AfterAttempts(row, before, policy), AfterAttempts(row, trials, policy));
    }
  }

  /** How many retries a row that is still pending has been granted, or a finished one can have been. */
  function Granted(row: Delivery, end: Delivery, policy: Policy): nat
    requires row.attempts < policy.maxAttempts && (end.status == Pending ==> row.attempts <= end.attempts)
  {
    if end.status == Pending then end.attempts - row.attempts else policy.maxAttempts - 1 - row.attempts
  }

  /** What has been booked is at most the cap for every counted attempt that left the row pending. */
  lemma {:induction false} BookedSoFar(row: Delivery, trials: seq<Trial>, policy: Policy)
    requires row.status == Pending && ScheduleOk(row, policy)
    requires forall i :: 0 <= i < |trials| ==> 0.0 <= trials[i].random < 1.0
    ensures var end := AfterAttempts(row, trials, policy);
            && (end.status == Pending ==> row.attempts <= end.attempts < policy.maxAttempts)
            && 0 <= BookedTotal(row, trials, policy) <= Multiple(Granted(row, end, policy), policy.maxBackoffMs)
  {
    AttemptsCountRequests(row, trials, policy);
    if |trials| > 0 {
      var before := trials[..|trials| - 1];
      BookedSoFar(row, before, policy);
      var found := AfterAttempts(row, before, policy);
      if found.status == Pending {
        BookedNext(row, found, trials[|trials| - 1], policy);
      }
    }
  }

  lemma BookedNext(row: Delivery, found: Delivery, last: Trial, policy: Policy)
    requires found.status == Pending && row.attempts <= found.attempts < policy.maxAttempts && 0.0 <= last.random < 1.0
    ensures var (end, delay) := (AfterAttempt(found, last, policy), DelayOf(found.attempts, last, policy));
            && (end.status == Pending ==> row.attempts <= end.attempts < policy.maxAttempts)
            && 0 <= delay
            && (MayRetry(found.attempts, last.outcome, policy) ==>
                  Multiple(Granted(row, found, policy), policy.maxBackoffMs) + delay <= Multiple(Granted(row, end, policy), policy.maxBackoffMs))
            && Multiple(Granted(row, found, policy), policy.maxBackoffMs) <= Multiple(Granted(row, end, policy), policy.maxBackoffMs)
  {
    var end := AfterAttempt(found, last, policy);
    DelayInRange(found.attempts, last, policy);
    MultipleMonotone(Granted(row, found, policy), Granted(row, end, policy), policy.maxBackoffMs);
  }

  lemma DelayInRange(attempts: nat, trial: Trial, policy: Policy)
    requires 0.0 <= trial.random < 1.0
    ensures 0 <= DelayOf(attempts, trial, policy) <= policy.maxBackoffMs
  {
    BookedDelayInRange(attempts + 1, ResponseStatusOf(trial.outcome),
                       if trial.outcome.Responded? then trial.outcome.retryAfter else None,
                       if trial.outcome.Responded? then trial.outcome.asDate else None, trial.now, trial.random, policy);
  }

  lemma NewlyBooked(row: Delivery, trials: seq<Trial>, policy: Policy)
    requires ValidPolicy(policy) && row.status == Pending && row.attempts == 0 && ScheduleOk(row, policy)
    requires forall i :: 0 <= i < |trials| ==> 0.0 <= trials[i].random < 1.0
    ensures 0 <= BookedTotal(row, trials, policy) <= Multiple(policy.maxAttempts - 1, policy.maxBackoffMs)
  {
    BookedSoFar(row, trials, policy);
    MultipleMonotone(Granted(row, AfterAttempts(row, trials, policy), policy), policy.maxAttempts - 1, policy.maxBackoffMs);
  }

  /** All the waiting a new delivery can be made to do, `Retry-After` included. */
  lemma BookedDelaysAreBounded(event: Id, endpoint: Id, isReplay: bool, at: Time, trials: seq<Trial>, policy: Policy)
    requires ValidPolicy(policy)
    requires forall i :: 0 <= i < |trials| ==> 0.0 <= trials[i].random < 1.0
    ensures 0 <= BookedTotal(NewDelivery(event, endpoint, isReplay, at), trials, policy)
              <= (policy.maxAttempts - 1) * policy.maxBackoffMs
  {
    NewlyBooked(NewDelivery(event, endpoint, isReplay, at), trials, policy);
    MultipleIsProduct(policy.maxAttempts - 1, policy.maxBackoffMs);
  }

  // ---------------------------------------------------------------------------------------------
  // The worker
  // ---------------------------------------------------------------------------------------------

  datatype AttemptResult = Recording(status: DeliveryStatus) | Skipped

  /** A queued job: `attemptNumber` is for display, the row is what counts. */
  datatype Job = Job(delivery: Id, attemptNumber: nat, delayMs: int)

  /** The delivery table and the queue, as one worker sees them. */
  class Worker {
    const policy: Policy
    var deliveries: map<Id, Delivery>
    var jobs: seq<Job>

    constructor (policy: Policy, deliveries: map<Id, Delivery>)
      ensures this.policy == policy && this.deliveries == deliveries && jobs == []
    {
      this.policy := policy;
      this.deliveries := deliveries;
      this.jobs := [];
    }

    /**
     * UPDATE … WHERE id = ? AND status = 'pending' with the terminal outcome; says whether the row
     * was still pending.
     */
    method RecordTerminal(id: Id, status: DeliveryStatus, attempts: nat, responseStatus: Option<int>)
      returns (result: AttemptResult)
      modifies this`deliveries
      ensures old(id in deliveries && deliveries[id].status == Pending) ==>
                && deliveries == old(deliveries)[id := old(deliveries[id]).(status := status, attempts := attempts,
                                 responseStatus := responseStatus, nextAttemptAt := None)]
                && result == Recording(status)
      ensures !old(id in deliveries && deliveries[id].status == Pending) ==>
                deliveries == old(deliveries) && result == Skipped
    {
      if id in deliveries && deliveries[id].status == Pending {
        deliveries := deliveries[id := deliveries[id].(status := status, attempts := attempts,
                                        responseStatus := responseStatus, nextAttemptAt := None)];
        result := Recording(status);
      } else {
        result := Skipped;
      }
    }

    /** One attempt with nothing else touching the row: only this row changes, as `AfterAttempt` says. */
    method Attempt(id: Id, trial: Trial) returns (result: AttemptResult)
      modifies this
      ensures id !in old(deliveries) || old(deliveries[id].status) != Pending ==>
                result == Skipped && deliveries == old(deliveries) && jobs == old(jobs)
      ensures id in old(deliveries) && old(deliveries[id].status) == Pending ==>
                && deliveries == old(deliveries)[id := AfterAttempt(old(deliveries[id]), trial, policy)]
                && result == Recording(deliveries[id].status)
                && jobs == if deliveries[id].status == Pending
                           then old(jobs) + [Job(id, deliveries[id].attempts + 1, DelayOf(old(deliveries[id]).attempts, trial, policy))]
                           else old(jobs)
    {
      if id !in deliveries {
        return Skipped;
      }
      var delivery := deliveries[id];
      if delivery.status != Pending {
        return Skipped;
      }
      if trial.outcome.Denied? {
        result := RecordTerminal(id, Failed, delivery.attempts, None);
        return;
      }
      var attemptNumber := delivery.attempts + 1;
      if Kind(trial.outcome) == Accepted {
        result := RecordTerminal(id, Delivered, attemptNumber, ResponseStatusOf(trial.outcome));
        return;
      }
      var mayRetry := Kind(trial.outcome) == Retry && HasAttemptsRemaining(attemptNumber, policy.maxAttempts);
      if !mayRetry {
        result := RecordTerminal(id, Failed, attemptNumber, ResponseStatusOf(trial.outcome));
        return;
      }
      var retryAfter := None;
      if trial.outcome.Responded? && (trial.outcome.status == 429 || trial.outcome.status == 503) {
        retryAfter := ParseRetryAfter(trial.outcome.retryAfter, trial.outcome.asDate, trial.now, policy.maxBackoffMs);
      }
      var delayMs := if retryAfter.Some? && retryAfter.value > 0 then retryAfter.value
                     else NextAttemptDelayMs(attemptNumber + 1, policy, trial.random);
      deliveries := deliveries[id := delivery.(attempts := attemptNumber, responseStatus := ResponseStatusOf(trial.outcome),
                                               nextAttemptAt := Some(trial.now + delayMs))];
      jobs := jobs + [Job(id, attemptNumber + 1, delayMs)];
      result := Recording(Pending);
    }
  }
}
