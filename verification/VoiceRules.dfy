/** What a finished call means for its order. */
module VoiceRules {
  import opened Options
  import opened CallPolicy

  datatype Intent = IntentConfirmed | IntentCancelled | IntentUnclear

  datatype Outcome = OutcomeConfirmed | OutcomeCancelled | OutcomeNoAnswer | OutcomeUnresolved

  // The agent's report. A missing or unknown intent, and a confidence that is not a number, are None.
  datatype VoiceResult = VoiceResult(
    disposition: Disposition, intent: Option<Intent>, confidence: Option<real>, timestamp: Option<int>)

  const DEFAULT_MIN_CONFIDENCE: real := 0.7

  // VOICE_MIN_CONFIDENCE as configured (None: not a finite number).
  function MinConfidence(configured: Option<real>): (min: real)
    ensures 0.0 < min <= 1.0
    ensures configured.Some? && 0.0 < configured.value <= 1.0 ==> min == configured.value
    ensures configured.None? || configured.value <= 0.0 || configured.value > 1.0 ==> min == 0.7
  {
    if configured.Some? && 0.0 < configured.value <= 1.0 then configured.value else DEFAULT_MIN_CONFIDENCE
  }

  function DecideOutcome(result: VoiceResult, min: real): Outcome {
    if result.disposition in {NoAnswer, Rejected, Error} then OutcomeNoAnswer
    else
      var confident := result.confidence.Some? && min <= result.confidence.value <= 1.0;
      if confident && result.intent == Some(IntentConfirmed) then OutcomeConfirmed
      else if confident && result.intent == Some(IntentCancelled) then OutcomeCancelled
      else OutcomeUnresolved
  }

  // The run ended in an answered call, and the decision is confident enough to act on.
  predicate Trusted(result: VoiceResult, min: real, intent: Intent) {
    && result.disposition !in {NoAnswer, Rejected, Error}
    && result.intent == Some(intent)
    && result.confidence.Some? && min <= result.confidence.value <= 1.0
  }

  /**
   * An order may change only on a trusted yes or no; raising the required confidence can turn a
   * decision into no decision but never into the opposite one.
   */
  lemma DecideOutcomeExact(result: VoiceResult, min: real, stricter: real)
    requires min <= stricter
    ensures DecideOutcome(result, min).OutcomeConfirmed? <==> Trusted(result, min, IntentConfirmed)
    ensures DecideOutcome(result, min).OutcomeCancelled? <==> Trusted(result, min, IntentCancelled)
    ensures DecideOutcome(result, min).OutcomeNoAnswer? <==> result.disposition in {NoAnswer, Rejected, Error}
    ensures DecideOutcome(result, stricter) == DecideOutcome(result, min)
         || DecideOutcome(result, stricter).OutcomeUnresolved?
  {
  }
}
