/** The payment state machine as a pure function (payments/payment-simulation.ts). */
module PaymentSimulation {
  import opened Common
  import opened PaymentScenarios

  datatype PaymentStatus = Pending | Processing | Succeeded | Failed

  datatype SimulationDelays = SimulationDelays(pendingDelayMs: nat, settlementDelayMs: nat)

  datatype TerminalEvent = PaymentSucceeded | PaymentFailed

  datatype Transition = Transition(from: PaymentStatus, to: PaymentStatus, event: Option<TerminalEvent>)

  predicate IsTerminal(status: PaymentStatus) {
    status == Succeeded || status == Failed
  }

  function ScheduledTransition(status: PaymentStatus, createdAt: Time, now: Time,
                               delays: SimulationDelays, scenario: Scenario): Option<Transition>
  {
    var elapsed := now - createdAt;
    match status
    case Pending =>
      if elapsed >= delays.pendingDelayMs then Some(Transition(Pending, Processing, None)) else None
    case Processing =>
      if scenario == Timeout then None
      else if elapsed >= delays.pendingDelayMs + delays.settlementDelayMs then
        if scenario == Decline then Some(Transition(Processing, Failed, Some(PaymentFailed)))
        else Some(Transition(Processing, Succeeded, Some(PaymentSucceeded)))
      else None
    case Succeeded => None
    case Failed => None
  }

  /** The one status the schedule prescribes at `now`: no history, no step count. */
  function StatusAt(scenario: Scenario, createdAt: Time, now: Time, delays: SimulationDelays): PaymentStatus {
    var elapsed := now - createdAt;
    if elapsed < delays.pendingDelayMs then Pending
    else if scenario == Timeout || elapsed < delays.pendingDelayMs + delays.settlementDelayMs then Processing
    else if scenario == Decline then Failed
    else Succeeded
  }

  /** Position along the lifecycle. */
  function Rank(status: PaymentStatus): nat {
    match status
    case Pending => 0
    case Processing => 1
    case Succeeded => 2
    case Failed => 2
  }

  /** `status` lies on the path the scenario prescribes, no further than the schedule at `now`. */
  predicate NotBeyond(status: PaymentStatus, scenario: Scenario, createdAt: Time, now: Time, delays: SimulationDelays) {
    var target := StatusAt(scenario, createdAt, now, delays);
    Rank(status) <= Rank(target) && (IsTerminal(status) ==> status == target)
  }

  /** A due edge moves one rank up and stays within the schedule. */
  lemma DueEdgeStaysOnSchedule(status: PaymentStatus, createdAt: Time, now: Time, delays: SimulationDelays, scenario: Scenario)
    ensures match ScheduledTransition(status, createdAt, now, delays, scenario)
            case None => IsTerminal(status) || Rank(StatusAt(scenario, createdAt, now, delays)) <= Rank(status)
            case Some(t) =>
              && t.from == status
              && Rank(t.to) == Rank(status) + 1
              && NotBeyond(t.to, scenario, createdAt, now, delays)
              && (t.event.Some? <==> IsTerminal(t.to))
  {
  }

  /** The schedule never goes back, and the terminal status never changes its kind. */
  lemma ScheduleIsMonotone(scenario: Scenario, createdAt: Time, t0: Time, t1: Time, delays: SimulationDelays)
    requires t0 <= t1
    ensures NotBeyond(StatusAt(scenario, createdAt, t0, delays), scenario, createdAt, t1, delays)
  {
  }
}
