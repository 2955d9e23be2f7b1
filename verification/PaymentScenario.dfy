/**
 * Scenario selection and its persisted form (payments/payment-scenario.ts).
 *
 * A create request names an outcome; one nullable text column carries it to the sweep, which
 * reads it back without any request context.
 */
module PaymentScenarios {
  import opened Common

  datatype Scenario = Succeed | Decline | Timeout

  /** `failureCode` is set exactly when the scenario is `Decline`. */
  datatype Intent = Intent(scenario: Scenario, failureCode: Option<string>)

  const DEFAULT_FAILURE_CODE := "card_declined"
  const DECLINE_PREFIX := "decline:"
  const MAX_SIMULATION_SCENARIO_LENGTH := 50
  const DEFAULT_INTENT := Intent(Succeed, None)

  predicate IsFailureCode(value: string) {
    value == "card_declined" || value == "insufficient_funds" || value == "processing_timeout"
  }

  function ScenarioText(scenario: Scenario): string {
    match scenario
    case Succeed => "succeed"
    case Decline => "decline"
    case Timeout => "timeout"
  }

  /** The value one create request persists. */
  function ScenarioColumnValue(scenario: Option<Scenario>, failureCode: Option<string>): Option<string> {
    match scenario
    case None => None
    case Some(Decline) =>
      var code := if failureCode.Some? && IsFailureCode(failureCode.value) then failureCode.value
                  else DEFAULT_FAILURE_CODE;
      Some(DECLINE_PREFIX + code)
    case Some(other) => Some(ScenarioText(other))
  }

  /** Reads the column back; anything unrecognised is default success. */
  function ParseSimulationScenario(raw: Option<string>): Intent {
    if raw.None? || |raw.value| == 0 then DEFAULT_INTENT
    else if raw.value == "decline" then Intent(Decline, Some(DEFAULT_FAILURE_CODE))
    else if DECLINE_PREFIX <= raw.value then
      var code := raw.value[|DECLINE_PREFIX|..];
      if IsFailureCode(code) then Intent(Decline, Some(code)) else DEFAULT_INTENT
    else if raw.value == "succeed" then Intent(Succeed, None)
    else if raw.value == "timeout" then Intent(Timeout, None)
    else DEFAULT_INTENT
  }

  /** The intent a request asked for, with the catalog default filled in. */
  ghost function RequestedIntent(scenario: Option<Scenario>, failureCode: Option<string>): Intent {
    match scenario
    case None => DEFAULT_INTENT
    case Some(Decline) =>
      Intent(Decline, if failureCode.Some? && IsFailureCode(failureCode.value) then failureCode
                      else Some(DEFAULT_FAILURE_CODE))
    case Some(other) => Intent(other, None)
  }

  /** Writing an intent and reading it back loses nothing, and the value fits the column. */
  lemma ScenarioRoundTrip(scenario: Option<Scenario>, failureCode: Option<string>)
    ensures ParseSimulationScenario(ScenarioColumnValue(scenario, failureCode))
            == RequestedIntent(scenario, failureCode)
    ensures var column := ScenarioColumnValue(scenario, failureCode);
            column.Some? ==> 0 < |column.value| <= MAX_SIMULATION_SCENARIO_LENGTH
  {
    if scenario == Some(Decline) {
      var code := if failureCode.Some? && IsFailureCode(failureCode.value) then failureCode.value
                  else DEFAULT_FAILURE_CODE;
      var column := DECLINE_PREFIX + code;
      assert column[|DECLINE_PREFIX|..] == code;
      assert |column| > |"decline"|;
    }
  }

  /** Whatever the column holds, a code from the catalog accompanies a decline and nothing else. */
  lemma ParsedIntentIsConsistent(raw: Option<string>)
    ensures var intent := ParseSimulationScenario(raw);
            && (intent.scenario == Decline <==> intent.failureCode.Some?)
            && (intent.failureCode.Some? ==> IsFailureCode(intent.failureCode.value))
  {
  }

  /**
   * The sweep filters on the raw column while the engine acts on the parsed intent. They agree
   * on every possible column value: the text is `timeout` exactly when the intent never settles.
   */
  lemma SweepAndEngineReadAlike(raw: Option<string>)
    ensures raw == Some("timeout") <==> ParseSimulationScenario(raw).scenario == Timeout
  {
    assert "timeout"[0] != DECLINE_PREFIX[0];
  }

  /** What every column value means: the catalog, the prefix, the bare forms, and success for all the rest. */
  lemma ParsedIntentIs(raw: Option<string>)
    ensures var intent := ParseSimulationScenario(raw);
            && (raw == Some("decline") ==> intent == Intent(Decline, Some("card_declined")))
            && (forall code :: code in {"card_declined", "insufficient_funds", "processing_timeout"} && raw == Some("decline:" + code) ==>
                  intent == Intent(Decline, Some(code)))
            && (raw == Some("timeout") ==> intent == Intent(Timeout, None))
            && (raw != Some("decline") && raw != Some("timeout")
                && (forall code :: code in {"card_declined", "insufficient_funds", "processing_timeout"} ==> raw != Some("decline:" + code)) ==>
                  intent == Intent(Succeed, None))
  {
    assert |DECLINE_PREFIX| == 8 && "timeout"[0] != DECLINE_PREFIX[0] && "succeed"[0] != DECLINE_PREFIX[0];
    forall code | code in {"card_declined", "insufficient_funds", "processing_timeout"} && raw == Some("decline:" + code)
      ensures ParseSimulationScenario(raw) == Intent(Decline, Some(code))
    {
      assert raw.value[|DECLINE_PREFIX|..] == code && |raw.value| > |"decline"|;
    }
    if raw.Some? && DECLINE_PREFIX <= raw.value {
      assert raw.value == "decline:" + raw.value[|DECLINE_PREFIX|..];
    }
  }
}
