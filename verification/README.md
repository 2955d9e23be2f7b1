# Verified model of the BrinnPay core

BrinnPay is a payments sandbox whose core is a set of small database transactions, run at the same
time by API requests, by a catch-up on read, and by a background worker. This project models that
core in Dafny and proves what it promises over whole runs.

| files | what they model |
|---|---|
| `Common`, `Ordering`, `Text` | options, results, ordered id sets, ASCII text and numerals |
| `PaymentScenario`, `PaymentSimulation`, `PaymentSweep` | the stored simulation intent, the payment state machine, and what advancing and sweeping amount to when undisturbed |
| `LedgerState` | idempotency claims, creates, refunds, payment edges, events and audit entries as a transition system over one database and any number of transactions |
| `LedgerInvariant`, `LedgerStatements`, `LedgerCommit`, `LedgerRuns` | the invariant, and that every step keeps it |
| `LedgerTheorems`, `LedgerHistory`, `LedgerLimits` | the promises over all runs, what is on record about each effect, and exactly where the promises end |
| `LedgerCalls`, `LedgerService` | the services' own loops and branches as methods over that system; between two statements any other transaction may run |
| `WebhookRetry`, `WebhookDelivery` | classification, backoff and `Retry-After`; one delivery, serial attempts, the worker |
| `WebhookPlane`, `WebhookInvariant`, `WebhookRuns`, `WebhookTheorems`, `WebhookHistory` | the webhook tables as a second transition system: fan-out, repair, replay, attempts, endpoint changes, retention |
| `WebhookAttempts` | what the attempt counter counts over runs, and when an overlapping attempt puts it back |
| `WebhookEvents` | persisting, repairing, dispatching and re-queueing, one call at a time |
| `Ipv6`, `ForwardedChain`, `ClientIdentity` | the IPv6 parser and printer, the forwarded chain, client identity |
| `FixedWindow`, `RateLimit` | fixed-window counting, the Redis script, the bounded in-process store |
| `CursorPages` | cursor pages and the walk over them |
| `Organizations` | members, owners and invitations |

`dafny verify dfyconfig.toml` checks the whole project.

## How the concurrent parts are modelled

- A transaction's writes stay in its own value until it commits, so others read committed data only
  (READ COMMITTED). A statement that would wait for another transaction (a row lock, an uncommitted
  row under the same unique key) is not enabled until that transaction has ended.
- `INSERT … ON CONFLICT DO NOTHING`, `SELECT … FOR UPDATE` and a conditional update are single steps.
- Any transaction may roll back at any moment, which covers rejected requests, time-outs, deadlock
  victims and crashes. A crash after a commit is the absence of further steps.
- A request captures `now` before its transaction begins, so `now` is at most the clock.
- Where it is the simpler choice the system allows more than PostgreSQL does: ids of idempotency
  records are arbitrary, a claim may meet a row another transaction has deleted and not committed,
  an edge may start from a snapshot with any status, and any delivery may be attempted at any time
  and any number of times at once (lost, duplicate and re-queued jobs).
- The services' methods take what they cannot decide as parameters: new ids, faults, the answer of
  Redis or of a destination, the random number of the jitter.

## Where code and documentation differ

The model follows the code.

- `apps/api/src/payments/payments.service.ts:213-215` says a committed payment can never be missing
  its event. Without an idempotency key the create does not run in a transaction
  (`apps/api/src/idempotency/idempotency.service.ts:150-155`), so a crash between its statements can
  leave a payment without event and audit entry: `LedgerTheorems.CreatedPairIffTransactional`,
  `LedgerLimits.AttributionIffTransactional`, `WebhookTheorems.FanOutCompleteIffTransactional`.
- A replay may return the response of the window before the current one when its request began in
  that window: `LedgerLimits.ReplayGuaranteeIffOnlyThisWindow`.
- `apps/api/src/payments/payments.service.ts:339` says no transition is due before the whole schedule
  has passed. The first one is; the sweep does not look for it then.
- `attempts` is said to count HTTP requests (`apps/api/src/webhooks/webhook-delivery.service.ts:127`),
  but an attempt that stops at an undecryptable secret is counted too:
  `WebhookDelivery.AttemptsCountRequests` has the exact count.
- `apps/api/src/webhooks/webhook-queue.service.ts:45` says the attempt counter stays honest under
  duplicate jobs; a slow attempt can put back a smaller count (`WebhookTheorems.AttemptsMayGoBack`),
  exactly when `WebhookAttempts.AttemptLowersIff` says so.
- The backoff ladder is base * 5^(n - 2), not the rounded schedule of `apps/web/lib/docs/facts.ts:44-46`.
- The fallback store's "oldest" is insertion order; setting a key again keeps its place.
- The IPv6 parser takes a dotted quad in front of the `::`, which it describes as trailing only
  (`apps/api/src/rate-limiting/rate-limit-discriminator.ts:54-56`), and leading zeros in octets:
  `Ipv6.Ipv6TextIff`. Behind `isIP` (lines 198-200) neither makes a difference.

## Model

| member | source | states |
|---|---|---|
| LedgerTheorems.AtMostOncePerKey | apps/api/src/idempotency/idempotency.service.ts:141-261 | In every interleaving, two committed executions of one (project, scope, key) are separated by the expiry of the first record. |
| LedgerTheorems.ReplayReturnsTheStoredResponse | apps/api/src/idempotency/idempotency.service.ts:112-123 | A replay that completes before the record of an execution of its key expires returns exactly that record if its request began after the execution committed, or if no older record of the key was active at the request's own `now`; so does the loser of a race, and every replay in a key's first window. |
| LedgerTheorems.ReplayReturnsIffRead | apps/api/src/idempotency/idempotency.service.ts:157-177 | Without any condition on the request: a replay that completes inside an execution's window returns that execution's response exactly when the execution had committed by the time the replay read its record. |
| LedgerTheorems.ReplayHasAnOrigin | apps/api/src/idempotency/idempotency.service.ts:305-318 | Every replay repeats the stored response of some committed execution that was unexpired at the request's own `now`. |
| LedgerTheorems.NoHalfWrittenRecord | apps/api/src/idempotency/idempotency.service.ts:305-317 | The "no stored response" branch of `replay` is unreachable: every committed record, and every record a replay has found, carries its response. |
| LedgerTheorems.OneEffectPerExecution | apps/api/src/idempotency/idempotency.service.ts:167-196 | Conservation over every run: refunds plus transactional payments are as many as executions; replays and rollbacks add none. |
| LedgerHistory.ResponseNamesACommittedEffect | apps/api/src/idempotency/idempotency.service.ts:170-189 | The stored response of every execution is a 201 about a committed refund or payment of the key's own project and operation, kept for exactly the retention window from the request's `now`. |
| LedgerHistory.ReplayNamesACommittedEffect | apps/api/src/idempotency/idempotency.service.ts:125-129 | No replay crosses a project or an operation: its answer is about a committed effect of the key's own. |
| LedgerLimits.ReplayGuaranteeIffOnlyThisWindow | apps/api/src/idempotency/idempotency.service.ts:163 | That guarantee holds of requests that began after the execution or found no older window open (`now` is captured before the transaction), and of no others: `LateReplay` is a run of one with neither. |
| LedgerLimits.LateReplay | apps/api/src/idempotency/idempotency.service.ts:59-63 | A reachable run, with a transaction open for one millisecond, in which a request replays the response of the window that has just ended although a newer execution has committed. |
| LedgerTheorems.RefundsAreConserved | apps/api/src/refunds/refunds.service.ts:81-119 | In every reachable state the refunds of a payment are positive, sum to at most its amount, exist only for a succeeded payment, come with one event each, and a refund without an amount leaves nothing and is the last. |
| LedgerTheorems.RefundsHaveAPayment | apps/api/src/refunds/refunds.service.ts:81-93 | No committed refund refers to a payment that does not exist. |
| LedgerHistory.RefundEventsAreTheRefunds | apps/api/src/refunds/refunds.service.ts:120-130 | The refund events carry exactly the committed refunds, in the order in which they were committed. |
| LedgerHistory.RefundEntriesMatch | apps/api/src/refunds/refunds.service.ts:136-147 | Each refund has its audit entry, in the same order, of its payment's project and environment. |
| LedgerTheorems.FullRefundIsLast | apps/api/src/refunds/refunds.service.ts:99-104 | Over every run from every reachable state: refunds are only added, and once those of a payment add up to its amount no further refund of it ever commits. |
| LedgerTheorems.OneTerminalEvent | apps/api/src/payments/payments.service.ts:553-635 | A payment is terminal exactly when one terminal event of the matching kind was ever persisted, its payload is the committed row and its time that of the last edge, and the failure code is there exactly when it failed and is the one the scenario chose. |
| LedgerHistory.PaymentIsAsRequested | apps/api/src/payments/payments.service.ts:190-211 | In every reachable state each payment has the project, environment, customer, amount and scenario of the request that created it. |
| LedgerHistory.EventDescribesItsPayment | apps/api/src/payments/payments.service.ts:213-218 | The payload of a created event is its own payment, id included, as it was requested, pending and fresh. |
| LedgerTheorems.TerminalEntryNamesTheCreator | apps/api/src/audit-logging/audit-logging.service.ts:161-222 | Terminal audit entries name the payment's creator and organization whoever ran the pass, never more than one; exactly one for a settled payment created in a transaction. |
| LedgerLimits.AttributionIffTransactional | apps/api/src/audit-logging/audit-logging.service.ts:177-196 | "Every settled payment has its terminal audit entry" holds of payments created in a transaction and of no others. |
| LedgerTheorems.CreatedPairIffTransactional | apps/api/src/payments/payments.service.ts:167-234 | "A payment always has its `payment.created` event and audit entry" holds in every reachable state exactly for creates that run in a transaction, i.e. with an idempotency key. |
| LedgerTheorems.OrphanReachable | apps/api/src/idempotency/idempotency.service.ts:150-157 | A reachable state in which a keyless create has left a payment without its event and entry. |
| LedgerTheorems.NeverBeyondTheSchedule | apps/api/src/payments/payments.service.ts:417-462 | Races never push a status beyond the schedule at the time its last edge used, nor off the path of its scenario. |
| LedgerTheorems.StatusNeverMovesBack | apps/api/src/payments/payments.service.ts:417-462 | Over any stretch of any run a status only rises and a terminal row is frozen, identity included. |
| LedgerRuns.ReachableInv | apps/api/src/idempotency/idempotency.service.ts:141-329 | Every reachable state of the interleaved ledger satisfies the invariant the theorems rest on. |
| LedgerService.Ledger.Claim | apps/api/src/idempotency/idempotency.service.ts:216-243 | The three-attempt claim loop, interleaved with any other transactions: acquired only with a buffered record of its own, existing only with an unexpired committed record. Alone it never fails: a free key or one whose record has expired is acquired, a key in use hands back its record; under races it gives up after three overtaken attempts or on a time-out only. |
| LedgerService.Ledger.InsertClaim | apps/api/src/idempotency/idempotency.service.ts:245-261 | INSERT … ON CONFLICT DO NOTHING: a claim with the computed expiry, or a conflict to look at. |
| LedgerService.Ledger.FindRecord | apps/api/src/idempotency/idempotency.service.ts:263-278 | Reads the conflicting record and says whether it is gone, active or expired. |
| LedgerService.Ledger.DeleteExpired | apps/api/src/idempotency/idempotency.service.ts:234-239 | The expired record it had found is deleted exactly if it is still there and still expired at that moment, nothing else is; then on to the next attempt. It fails only when another transaction holds that very row. |
| LedgerService.Ledger.Prune | apps/api/src/idempotency/idempotency.service.ts:285-293 | Of the rows it read it deletes exactly those that are still there and expired: every row deleted is one of them, and every one not deleted was gone or renewed at some moment of the pass. |
| LedgerService.Ledger.Finish | apps/api/src/idempotency/idempotency.service.ts:179-189 | The response is stored in the claimed row; the expired rows of the same project and scope, and no others, are pruned. |
| LedgerService.Ledger.Execute | apps/api/src/idempotency/idempotency.service.ts:141-202 | Every run of `execute` is a run of the transition system: in a transaction a failure left nothing and a success is the logged execution or replay with that very response; a payment create without a key leaves its row, one event and one entry. Alone, with or without a key, outcome and tables are stated in full: replay, refund or create, when each succeeds, and what is added to payments, refunds, events, entries and records. |
| LedgerService.Ledger.CreateDirect | apps/api/src/idempotency/idempotency.service.ts:150-157 | Outside a transaction, with others running between its statements: a success has left the row it answers with, column by column what was requested, exactly one event and one entry naming its actor. Alone it succeeds exactly when the id is free. |
| LedgerService.Ledger.RunRefund | apps/api/src/refunds/refunds.service.ts:81-154 | Lock, read, check and insert as statements of one transaction. Alone it succeeds exactly when the payment is there in the caller's scope, has succeeded, something is left of it, and the requested amount (or all that is left) fits that and the column; the refund is of that amount, and a refusal carries the error of the check that failed. |
| LedgerService.Ledger.RunCreate | apps/api/src/payments/payments.service.ts:190-234 | Row, event and audit entry of a create as statements of one transaction; the row has the requested project, environment, customer, amount and scenario, is pending and has no failure code. |
| LedgerService.Ledger.ApplyEdge | apps/api/src/payments/payments.service.ts:553-635 | One compare-and-set edge: applied with its row, or lost exactly when the row had moved on, or rolled back with the database as it was. |
| LedgerService.Ledger.Advance | apps/api/src/payments/payments.service.ts:417-462 | The two-step loop: alone and without faults it leaves the row the closed form `AdvancedRow` prescribes, with faults the row as far as the first of them; under interference it returns its own row or the committed one. |
| LedgerService.Ledger.AdvanceDuePayments | apps/api/src/payments/payments.service.ts:338-379 | Undisturbed, one pass advances exactly the first batch of due rows and returns their number, and with room for every row that has a due edge it leaves none off its schedule once that is complete; under interference no more than that. |
| LedgerService.Ledger.CatchUpEnvironment | apps/api/src/payments/payments.service.ts:388-403 | Undisturbed, every open payment of the project and environment is advanced and no other row changes. |
| PaymentSimulation.DueEdgeStaysOnSchedule | apps/api/src/payments/payment-simulation.ts:63-95 | A due edge starts at the current status, moves one step, stays within the schedule, and carries an event exactly when it is terminal; without one the status is where the schedule has it or beyond. |
| PaymentSimulation.ScheduleIsMonotone | apps/api/src/payments/payment-simulation.ts:63-95 | The status prescribed at an earlier time is on the way to the one prescribed later. |
| PaymentSweep.EdgeKeepsDestination | apps/api/src/payments/payments.service.ts:417-462 | Applying one due edge leaves the destination of the advance unchanged, so the loop refines the one-jump form. |
| PaymentSweep.AdvanceSeriesIsClosedForm | apps/api/src/payments/payments.service.ts:417-462 | After any non-empty series of advances at non-decreasing times the status is one function of scenario, creation time, delays and the last time, and the code the one that scenario chose. |
| PaymentSweep.CaughtUpIsOnTime | apps/api/src/payments/payments.service.ts:388-403 | After a catch-up every payment of the environment is where the schedule has it and all others are untouched. |
| PaymentSweep.SelectedIffEdgeDue | apps/api/src/payments/payments.service.ts:338-367 | The sweep query selects exactly the rows whose whole schedule has passed and that have a due edge, default-scenario rows without a stored scenario included. |
| PaymentSweep.PassSettlesCompleteSchedules | apps/api/src/payments/payments.service.ts:338-379 | A pass with room for every row that has a due edge leaves no payment off the status its schedule prescribes once that schedule is complete. |
| PaymentSweep.AdvancedNeverDueAgain | apps/api/src/payments/payments.service.ts:343-364 | A selected row changes its status when advanced and is never selected again; a settled `timeout` payment occupies no slot again. |
| PaymentSweep.SweepRemovesItsBatch | apps/api/src/payments/payments.service.ts:338-379 | A pass takes exactly its batch out of the due set, as seen at any later time. |
| PaymentSweep.PassesDrain | apps/api/src/payments/payments.service.ts:338-379 | With nothing new becoming due, k passes of batch b over n due payments leave max(0, n - k*b). |
| PaymentScenarios.ScenarioRoundTrip | apps/api/src/payments/payment-scenario.ts:85-126 | Writing an intent to the column and reading it back loses nothing, and the value fits the column. |
| PaymentScenarios.ParsedIntentIsConsistent | apps/api/src/payments/payment-scenario.ts:108-126 | Whatever the column holds, a catalog code accompanies a decline and nothing else. |
| PaymentScenarios.ParsedIntentIs | apps/api/src/payments/payment-scenario.ts:85-126 | Every column value: the bare and the prefixed declines with their catalog code, `timeout`, and success for all the rest. |
| PaymentScenarios.SweepAndEngineReadAlike | apps/api/src/payments/payment-scenario.ts:108-126 | The raw column is `timeout` exactly when the parsed intent never settles. |
| WebhookTheorems.AtMostOneDelivery | apps/api/src/webhooks/webhook-event.service.ts:222-260 | In every interleaving of persist, repair, replay, endpoint change and retention there is at most one delivery per (event, endpoint), replays aside. |
| WebhookTheorems.DeliveryStaysInScope | apps/api/src/webhooks/webhooks.service.ts:291-337 | The event and the endpoint of every delivery, replays included, exist and share project and environment. |
| WebhookTheorems.FanOutCompleteIffTransactional | apps/api/src/webhooks/webhook-event.service.ts:61-82 | An event and the deliveries its emitter's fan-out read are there together in every reachable state exactly when `persist` runs in a transaction. |
| WebhookHistory.DeliveredToASubscriber | apps/api/src/webhooks/webhook-event.service.ts:226-232 | Every delivery of every run, replays included, is to an endpoint that at some earlier moment of the run was in the table switched on, subscribed to the event's type, and of its project and environment: the row its fan-out or replay had read. |
| WebhookHistory.NoSubscriberLeftOut | apps/api/src/webhooks/webhook-event.service.ts:222-260 | Every endpoint that a transactional fan-out read as switched on, subscribed and of the event's project and environment, and that is still there, has its delivery. |
| WebhookTheorems.OrphanedReachable | apps/api/src/webhooks/webhook-event.service.ts:61-82 | Outside a transaction a crash can leave an event, an endpoint that matches it, and no delivery. |
| WebhookTheorems.DeliverySafety | apps/api/src/webhooks/webhook-delivery.service.ts:88-305 | Under any duplicate and overlapping jobs: pending exactly when a next attempt is scheduled, pending only with attempts left, never more attempts than the maximum. |
| WebhookTheorems.FinishedIsFinal | apps/api/src/webhooks/webhook-delivery.service.ts:265-305 | `delivered` and `failed` absorb over every run: nothing rewrites a finished delivery, and a deleted id does not come back. |
| WebhookTheorems.NoDeliveryIsLost | apps/api/src/webhooks/webhooks.service.ts:215-218 | Over every run a delivery is gone only if its event or its endpoint is. |
| WebhookTheorems.StrandedDeliveriesAreFound | apps/api/src/webhooks/webhook-event.service.ts:192-204 | A pending delivery satisfies the requeue predicate exactly when it has been due for the grace period, at the latest one maximal backoff and one grace period after its last write. |
| WebhookTheorems.AttemptsMayGoBack | apps/api/src/webhooks/webhook-delivery.service.ts:217-226 | A reachable step lowers `attempts`: the conditional write checks the status only. |
| WebhookAttempts.AttemptsAreCounted | apps/api/src/webhooks/webhook-delivery.service.ts:112-226 | Over any stretch of any run in which attempts of one delivery do not overlap, `attempts` never falls and rises by exactly the attempts recorded, denials aside; after as many as were left the delivery is no longer pending. |
| WebhookAttempts.SlowAttemptLowersIff | apps/api/src/webhooks/webhook-delivery.service.ts:134-226 | A slow attempt, in flight while others take turns, puts the count back exactly when more attempts were counted between its read and its write than it adds itself. |
| WebhookAttempts.AttemptLowersIff | apps/api/src/webhooks/webhook-delivery.service.ts:134-226 | However attempts overlap, one lowers the count exactly when the last attempt recorded between its read and its write had come from a higher count, each with its own addition. |
| WebhookRuns.ReachableInv | apps/api/src/webhooks/webhook-event.service.ts:61-260 | Every reachable state of the webhook tables satisfies the invariant the theorems rest on. |
| WebhookRuns.DeleteEndpointKeepsInv | apps/api/src/webhooks/webhooks.service.ts:215-218 | Deleting an endpoint with its deliveries keeps the invariant. |
| WebhookRuns.UpdateEndpointKeepsInv | apps/api/src/webhooks/webhooks.service.ts:170-207 | Changing a subscription or the switch keeps the invariant. |
| WebhookRuns.CreateEndpointKeepsInv | apps/api/src/webhooks/webhooks.service.ts:122-151 | A new endpoint is in nobody's fan-out and keeps the invariant. |
| WebhookRuns.InsertReplayKeepsInv | apps/api/src/webhooks/webhooks.service.ts:291-337 | A replay adds one delivery in one scope and takes no pair. |
| WebhookDelivery.RecordedScheduleOk | apps/api/src/webhooks/webhook-delivery.service.ts:173-226 | Whatever count it read, an attempt that finds the row pending leaves it well formed. |
| WebhookDelivery.AttemptsCountRequests | apps/api/src/webhooks/webhook-delivery.service.ts:112-181 | With attempts that do not overlap, the count is the requests made (real or simulated) plus the attempts stopped by an undecryptable secret; a policy denial counts none, and there is at most one of either. |
| WebhookDelivery.FinishedWithin | apps/api/src/webhooks/webhook-delivery.service.ts:173-181 | With attempts that do not overlap, `maxAttempts` of them finish any delivery. |
| WebhookDelivery.BookedDelaysAreBounded | apps/api/src/webhooks/webhook-delivery.service.ts:187-212 | All delays ever booked for a delivery add up to at most (maxAttempts - 1) times the maximal backoff, `Retry-After` included. |
| WebhookDelivery.Worker.Attempt | apps/api/src/webhooks/webhook-delivery.service.ts:88-256 | Only a pending row is touched, as the specification `AfterAttempt` says, and a retry adds exactly one job with the booked delay. |
| WebhookDelivery.Worker.RecordTerminal | apps/api/src/webhooks/webhook-delivery.service.ts:265-305 | A terminal outcome is written only to a row still pending, with the schedule cleared. |
| WebhookRetry.CeilingIsMonotoneAndCapped | apps/api/src/webhooks/webhook-retry.ts:155-165 | The backoff ladder never falls from one attempt to a later one and never passes the cap. |
| WebhookRetry.LadderStep | apps/api/src/webhooks/webhook-retry.ts:140-165 | No wait before the first attempt, up to the base delay before the second, before each later one up to five times as long until the cap binds, and no longer from the thirty-second on. |
| WebhookDelivery.AnswersDecide | apps/api/src/webhooks/webhook-delivery.service.ts:134-212 | Read off the answers alone: a delivery is delivered exactly when the first answer that is not worth retrying (no answer, 408, 425, 429 or 5xx) is a 2xx within the attempts left, pending exactly when all are worth retrying and attempts are left, failed otherwise. |
| WebhookRetry.NextDelayInRange | apps/api/src/webhooks/webhook-retry.ts:174-184 | Full jitter stays within [0, maxBackoffMs] for every random number in [0, 1). |
| WebhookRetry.JitterIsUniform | apps/api/src/webhooks/webhook-retry.ts:174-184 | Every whole delay up to the ceiling is given by an equal share of the random numbers in [0, 1), and by which one. |
| WebhookRetry.RetryAfterInRange | apps/api/src/webhooks/webhook-retry.ts:101-138 | An accepted `Retry-After` lies in (0, maxBackoffMs]: a zero never bypasses the ladder. |
| WebhookRetry.DelaySecondsAreHonoured | apps/api/src/webhooks/webhook-retry.ts:101-116 | A printed number of seconds is honoured exactly up to the cap, and zero is no override (section 10.2.3 of RFC 9110). |
| WebhookRetry.DatesAreHonoured | apps/api/src/webhooks/webhook-retry.ts:118-135 | A date is honoured as the time left until it, up to the cap; one that has passed is no override. |
| WebhookRetry.OtherHeadersAreRead | apps/api/src/webhooks/webhook-retry.ts:101-138 | Blanks around a number do not matter; a blank header and one that is neither a number nor a date are no override. |
| WebhookRetry.OverrideOnBusyOnly | apps/api/src/webhooks/webhook-delivery.service.ts:187-195 | `Retry-After` overrides the ladder on 429 and 503 and on no other answer; the ladder is that of the next attempt. |
| WebhookRetry.BookedDelayInRange | apps/api/src/webhooks/webhook-delivery.service.ts:187-195 | No destination and no dice book a delay outside [0, maxBackoffMs]. |
| WebhookEvents.EventService.Persist | apps/api/src/webhooks/webhook-event.service.ts:61-82 | A repeated event is a no-op; a new one adds its row and, on the columns, a delivery due at once to exactly the endpoints that are switched on, subscribed and of its project and environment and had none. |
| WebhookEvents.EventService.CreateDeliveries | apps/api/src/webhooks/webhook-event.service.ts:222-260 | Every row added goes to an endpoint that is switched on, subscribed to the type and of the event's project and environment, every such endpoint has its delivery, and the result is the number of rows inserted. |
| WebhookEvents.EventService.InsertDelivery | apps/api/src/webhooks/webhook-event.service.ts:240-258 | ON CONFLICT DO NOTHING on the partial unique index: a row exactly when the pair had none. |
| WebhookEvents.EventService.SelectEvents | apps/api/src/webhooks/webhook-event.service.ts:128-138 | Events between half a minute and the horizon old, newest first, at most a batch; one left out is no newer than any taken, and only for want of room. |
| WebhookEvents.EventService.Reconcile | apps/api/src/webhooks/webhook-event.service.ts:128-175 | Every endpoint that is switched on, subscribed and in scope has its delivery of every event of the batch whose repair did not fail, rows were added to no other endpoint, and the result is the number of rows added; the new rows are queued as far as one dispatch and the queue take them. |
| WebhookEvents.RepairedMeansDelivered | apps/api/src/webhooks/webhook-event.service.ts:128-175 | After a pass every repaired event has a delivery to every enabled, subscribed endpoint of its project and environment. |
| WebhookEvents.EventService.Dispatch | apps/api/src/webhooks/webhook-event.service.ts:89-105 | One job for each of at most 500 pending deliveries of the event, except those the queue does not take. |
| WebhookEvents.ReachedExactly | apps/api/src/webhooks/webhook-event.service.ts:205-214 | Of the deliveries a pass takes, those and only those get a job that the queue accepts. |
| WebhookEvents.EventService.RequeueDueDeliveries | apps/api/src/webhooks/webhook-event.service.ts:192-215 | Only pending deliveries that are overdue by the grace period or were never scheduled, oldest first; one left out is no older than any taken, and only for want of room; one job for each the queue takes, and their number. |
| Ipv6.ParsePrint | apps/api/src/rate-limiting/rate-limit-discriminator.ts:58-147 | For every 8-group address, parsing the printed text gives the same groups back. |
| Ipv6.CanonicalIffSameAddress | apps/api/src/rate-limiting/rate-limit-discriminator.ts:156-167 | Two texts the parser accepts get the same canonical string exactly when they denote the same 128 bits, the IPv4-mapped range included. |
| Ipv6.ParsedIsAddress | apps/api/src/rate-limiting/rate-limit-discriminator.ts:58-115 | Whatever the parser accepts is eight groups of sixteen bits. |
| Ipv6.ParseAddress | apps/api/src/rate-limiting/rate-limit-discriminator.ts:58-115 | The parser, piece by piece, computes the specification `Parse`. |
| Ipv6.ParsePart | apps/api/src/rate-limiting/rate-limit-discriminator.ts:64-101 | The loop over the pieces of one half computes `ParseGroups`. |
| Ipv6.ParseQuadText | apps/api/src/rate-limiting/rate-limit-discriminator.ts:80-95 | The loop over the octets of a dotted quad computes `ParseQuad`. |
| Ipv6.FindLongestRun | apps/api/src/rate-limiting/rate-limit-discriminator.ts:121-137 | The single pass finds the leftmost longest run of zero groups, or none (section 4.2.3 of RFC 5952). |
| Ipv6.Serialize | apps/api/src/rate-limiting/rate-limit-discriminator.ts:121-147 | The printer produces the specified text around that run. |
| Ipv6.GapIffTwoZeroGroups | apps/api/src/rate-limiting/rate-limit-discriminator.ts:139-146 | A `::` is printed exactly when two neighbouring groups are zero (section 4.2 of RFC 5952). |
| Ipv6.GroupNumeral | apps/api/src/rate-limiting/rate-limit-discriminator.ts:140-146 | Groups are lower-case hexadecimal of at most four digits without leading zeros and read back as themselves (sections 4.1 and 4.3 of RFC 5952). |
| Ipv6.MappedSpelling | apps/api/src/rate-limiting/rate-limit-discriminator.ts:162-165 | `::ffff:` followed by a dotted quad is an address of the standard grammar and collapses to that quad. |
| Ipv6.FullSpelling | apps/api/src/rate-limiting/rate-limit-discriminator.ts:64-101 | An address written out in full, with any leading zeros that fit four digits, gets the canonical form of its groups. |
| Ipv6.Ipv6TextIff | apps/api/src/rate-limiting/rate-limit-discriminator.ts:54-115 | The parser alone against section 2.2 of RFC 4291: it reads every address of that grammar, and beyond them exactly the texts with a dotted quad in front of the `::` or with a leading zero in an octet. |
| Ipv6.QuadBeforeGapAccepted | apps/api/src/rate-limiting/rate-limit-discriminator.ts:73-96 | A family of such texts, and what the parser makes of them. The program asks `isIP` first, so they never reach it there. |
| Ipv6.PrintIsIpv6Text | apps/api/src/rate-limiting/rate-limit-discriminator.ts:121-147 | What is printed belongs to the standard grammar and denotes the same groups. |
| ClientIdentity.SameIdentityIffSameAddress | apps/api/src/rate-limiting/rate-limit-discriminator.ts:183-202 | Two spellings of addresses get one identity exactly when they stand for the same address: IPv6, IPv4-mapped or IPv4. |
| ClientIdentity.SpellingsShareAnIdentity | apps/api/src/rate-limiting/rate-limit-discriminator.ts:183-196 | Brackets, a zone identifier and capital digits are no new client. |
| ClientIdentity.OtherTextsStayApart | apps/api/src/rate-limiting/rate-limit-discriminator.ts:183-202 | A non-empty text of lower-case hexadecimal digits, colons and dots that is no IPv6 address is its own identity, so that no two of them share one. |
| ClientIdentity.AddressEntryIff | apps/api/src/rate-limiting/rate-limit-discriminator.ts:265-267 | An entry counts as an address exactly when its cleaned text is one: canonicalizing never loses that. |
| ClientIdentity.CanonicalDenotes | apps/api/src/rate-limiting/rate-limit-discriminator.ts:156-167 | The canonical text of an address is an address text and stands for the same address. |
| ClientIdentity.WalkAnswersCanonically | apps/api/src/rate-limiting/rate-limit-discriminator.ts:309-354 | Two walks that stop at spellings of one client answer with one identity, and of two clients with two. |
| ForwardedChain.WalkChain | apps/api/src/rate-limiting/rate-limit-discriminator.ts:335-353 | The right-to-left loop computes the specified walk. |
| ForwardedChain.RightmostUntrustedIs | apps/api/src/rate-limiting/rate-limit-discriminator.ts:336-349 | The walk's answer is the rightmost untrusted address, and there is none exactly when no entry is one. |
| ForwardedChain.ResolveClientIdentity | apps/api/src/rate-limiting/rate-limit-discriminator.ts:309-354 | The resolution, trust checks included, computes the specification `Resolve`. |
| ForwardedChain.AnswerByPosition | apps/api/src/rate-limiting/rate-limit-discriminator.ts:335-353 | When the chain is read, the answer is the rightmost address outside the allowlist among the last `hops` entries; without one it is entry (length - hops), or the first of a shorter chain, and nothing when that is no address. |
| ForwardedChain.PeerAnswers | apps/api/src/rate-limiting/rate-limit-discriminator.ts:313-333 | Without hops, an allowlist, a trusted peer, entries, or an address in the last of them, the peer is the client. |
| ForwardedChain.OnlyTheLastHopsCount | apps/api/src/rate-limiting/rate-limit-discriminator.ts:294-296 | Two chains that agree on their last `hops` entries get one answer, trusted or not. |
| ForwardedChain.ChainOfEntries | apps/api/src/rate-limiting/rate-limit-discriminator.ts:251-258 | The entries of a header are what stands between its commas, trimmed, none dropped. |
| ForwardedChain.PaddingChangesNothing | apps/api/src/rate-limiting/rate-limit-discriminator.ts:335-350 | If the last `hops` entries hold an untrusted address, writing anything in front of the header leaves the answer unchanged. |
| ClientIdentity.HeaderIsIgnoredIff | apps/api/src/rate-limiting/rate-limit-discriminator.ts:309-327 | Every header gets the same answer exactly when there are no hops, no allowlist, or the peer is outside it; in every other configuration two headers get two answers. |
| FixedWindow.WindowAdmitsMin | apps/api/src/rate-limiting/rate-limit-counter.service.ts:249-266 | Every window admits exactly min(limit, attempts in it). |
| FixedWindow.BelowTwiceTheLimit | apps/api/src/rate-limiting/rate-limit-counter.service.ts:249-266 | Every half-open interval of window length admits at most 2*limit - 1 attempts, over any run. |
| FixedWindow.BoundIsMet | apps/api/src/rate-limiting/rate-limit-counter.service.ts:249-266 | For every window and limit there is a run that reaches that bound. |
| FixedWindow.ScriptIsFixedWindow | apps/api/src/rate-limiting/rate-limit-counter.service.ts:62-73 | From any stored key, one without an expiry included (its window starts with the execution that repairs it), count, expiry and both parts of the reply are those of the fixed window after any number of executions. |
| FixedWindow.ScriptBelowTwiceTheLimit | apps/api/src/rate-limiting/rate-limit-counter.service.ts:62-73 | Whatever the key held, the replies of any run admit at most 2*limit - 1 requests in any interval of window length. |
| RateLimit.EntryIsFixedWindow | apps/api/src/rate-limiting/rate-limit-counter.service.ts:249-257 | Keys do not interfere: the unbounded map holds for each key the fixed window of its own attempts. |
| RateLimit.SweepChangesNothing | apps/api/src/rate-limiting/rate-limit-counter.service.ts:286-294 | From its own time on, an expired-entry sweep changes the outcome of no attempt. |
| RateLimit.FallbackStore.Sweep | apps/api/src/rate-limiting/rate-limit-counter.service.ts:290-294 | Exactly the expired entries go; the others keep their order. |
| RateLimit.FallbackStore.DropOldest | apps/api/src/rate-limiting/rate-limit-counter.service.ts:297-303 | Only as many entries as needed go, always the first in insertion order, and exactly the live ones among them are recorded as lost. |
| RateLimit.FallbackStore.Evict | apps/api/src/rate-limiting/rate-limit-counter.service.ts:286-304 | The sweep runs exactly when its interval has passed; then the first in line go until there is room, and only dead or recorded entries are gone. |
| RateLimit.FallbackStore.Remember | apps/api/src/rate-limiting/rate-limit-counter.service.ts:268-273 | The store stays within its ceiling; setting an existing key keeps its place. |
| RateLimit.FallbackStore.ConsumeInMemory | apps/api/src/rate-limiting/rate-limit-counter.service.ts:249-266 | The outcome is that of the stored window, which is kept; it equals the unbounded map's for every key that has not lost a live entry, while the clock does not go back; the ceiling holds always; nothing is lost while there is room. |
| RateLimit.StoreBelowTwiceTheLimit | apps/api/src/rate-limiting/rate-limit-counter.service.ts:249-266 | Whatever the store has been through with a steady clock: a key that has lost no live entry was allowed at most 2*limit - 1 times in any interval of window length. |
| RateLimit.CounterService.Consume | apps/api/src/rate-limiting/rate-limit-counter.service.ts:152-200 | While Redis answers its count decides and the store is untouched, an unreadable answer counting as zero; a failure rejects or falls back as configured and sets the degraded flag. |
| RateLimit.ReportIsSane | apps/api/src/rate-limiting/rate-limit-counter.service.ts:261-265 | Remaining is what is left of the limit, zero once it is exceeded, and the reset hint is the whole second, at least one, in which the window ends. |
| CursorPages.PageCarriesOn | apps/api/src/organizations/cursor.ts:25-41 | A page carries on where the cursor stopped: no row left out, none repeated, in ascending order; it announces more exactly when a row is still to come. |
| CursorPages.WalkReceivesEverything | apps/api/src/payments/payments.service.ts:121-139 | A finished walk, at any limit of at least one, has received exactly the rows in ascending id order, each once, whatever rows with larger ids were added on the way. |
| CursorPages.WalkIsBounded | apps/api/src/organizations/cursor.ts:25-41 | A walk has at most rows/limit + 1 pages, so it ends unless rows are added forever. |
| Organizations.OrganizationService.Create | apps/api/src/organizations/organizations.service.ts:106-131 | The organization starts with its creator as owner. |
| Organizations.OrganizationService.UpdateMember | apps/api/src/organizations/organizations.service.ts:214-280 | The outcome, errors included, is `ChangeError`; every organization keeps an owner and the trail stays in order. |
| Organizations.OrganizationService.RemoveMember | apps/api/src/organizations/organizations.service.ts:287-331 | The outcome, errors included, is `RemoveError`; every organization keeps an owner. |
| Organizations.OrganizationService.CreateInvitation | apps/api/src/organizations/organizations.service.ts:362-429 | The outcome, errors included, is `InviteError`; an organization never has two invitations pending for an address. |
| Organizations.OrganizationService.CancelInvitation | apps/api/src/organizations/organizations.service.ts:439-477 | Pending to cancelled once, with one entry; cancelling again changes nothing. |
| Organizations.OrganizationService.AcceptInvitation | apps/api/src/organizations/organizations.service.ts:485-560 | The addressee of a pending invitation joins with the invited role, and both rows change together. |
| Organizations.OrganizationService.AssertOwnerRemains | apps/api/src/organizations/organizations.service.ts:585-596 | For every owner it succeeds exactly if somebody else owns the organization too. |
| Organizations.LastOwnerRuleIsExact | apps/api/src/organizations/organizations.service.ts:310-312 | An owner is refused to go exactly when nobody would be left to own the organization. |
| Organizations.RefusedForTheLastOwnerIff | apps/api/src/organizations/organizations.service.ts:255-257 | Of the role changes and removals the role matrix allows, exactly those that would leave the organization without an owner are refused by the last-owner rule. |
| Organizations.RoleChangeForbiddenIff | apps/api/src/organizations/organizations.service.ts:229-253 | The role matrix of a role change, role by role, for oneself and for others, both directions. |
| Organizations.RemovalForbiddenIff | apps/api/src/organizations/organizations.service.ts:300-309 | The same of a removal: oneself always, an owner anybody, an admin anybody but owners. |
| Organizations.InvitationGoesOutIff | apps/api/src/organizations/organizations.service.ts:371-397 | An invitation goes out exactly when an owner, or an admin for another role, invites an address that is no member and has none pending. |
| Organizations.OnlyOwnersHandleOwners | apps/api/src/organizations/organizations.service.ts:231-253 | Nobody but an owner makes an owner or changes another one; members change only themselves, to viewer; viewers nobody. |
| Organizations.OwnersTraceBack | apps/api/src/organizations/organizations.service.ts:106-131 | Every owner traces back to the creation of the organization through grants and invitations by members who were owners at that time. |
| Organizations.OrganizationService.OwnersAreTraced | apps/api/src/organizations/organizations.service.ts:485-560 | The same of the owners the service holds now. |
| Organizations.RoleChangeKeeps | apps/api/src/organizations/organizations.service.ts:255-257 | A permitted role change keeps an owner in every organization. |
| Organizations.RemovalKeeps | apps/api/src/organizations/organizations.service.ts:310-312 | A permitted removal keeps an owner in every organization. |

## Left out

- Controllers, guards, DTO validation, metrics, logging and configuration parsing: plumbing.
- Cryptography (signatures, secret encryption, key hashing): the bucket key is its tuple, as the hash is injective.
- The HTTP request, Redis and BullMQ themselves: their answers are inputs, a queued job is a list entry.
- The membership test of the proxy allowlist: it is an arbitrary predicate on address texts.
- `parseAmountMinor` is not part of this model: a requested amount is positive. Currency, description, reason and customer checks are among the reasons for a rollback.
- Cascades from deleted projects and organizations, and the event-retention schedule: retention may delete any event at any time.
- Payment and refund listings read nothing but pages; the refund list and the other lists page in the same way.
- `captureAuth` and the access entries of the audit log: independent inserts without a promise over runs.
- Refresh sessions: their claims are separate statements, so only easy serial claims would hold.
- Unicode: trimming and lower case are those of ASCII text.
- Last-owner safety under concurrent calls: the check runs outside the transaction, so the model of organizations is serial.
- Fairness of the batch-limited requeue pass and freedom from deadlock: not decided by this code.
- FixedWindow.ScriptIsFixedWindow: a Redis key is gone at the very millisecond it expires, and TTL answers are rounded; later expiry would only lengthen windows.
- LedgerService.Ledger.CreateDirect: its own failure is a taken id; a crash between its statements is a step of the transition system (LedgerTheorems.OrphanReachable).
- LedgerService.Ledger.RunRefund: when it succeeds is stated for a call nobody disturbs; under races a request may also fail on a lock that is not released, and what can commit is bounded by LedgerTheorems.RefundsAreConserved. `retrieve`, which the source calls first, is a separate advance.
- LedgerService.Ledger.Advance: the closed form is claimed for an undisturbed call without faults; what races may do is bounded by LedgerTheorems.NeverBeyondTheSchedule and LedgerTheorems.StatusNeverMovesBack.
- RateLimit.FallbackStore.ConsumeInMemory: the two agree only while the wall clock does not go back, because the code takes whatever `Date.now()` says.
- RateLimit.FallbackStore.Sweep: the surviving entries are collected and then assigned, instead of deleting entries in place.
- WebhookEvents.EventService.Reconcile: one clock reading serves the whole pass, and concurrent passes are covered by WebhookTheorems.AtMostOneDelivery only.
- WebhookRetry.DelaySecondsAreHonoured: digit strings too long for a double, and the parsing of HTTP dates, are outside the model; the instant a date denotes is an input.
- WebhookDelivery.Worker.Attempt: the stored error summary, the request body and its signature are not modelled.
- ClientIdentity.SameIdentityIffSameAddress: `isIP` is the grammar `IsIpv6Text` on lower-case text without a zone, which is what it is asked, and a strict IPv4 recogniser.
- Organizations.OrganizationService.Create: the validation of names is left out.
