/** What each callback does to an open agent, value by value, and what becomes of the arguments of a decision. */
module AgentEffects {
  import opened Options
  import opened CallPolicy
  import opened VoiceRules
  import opened VoiceAgent

  // An agent of some run that has not begun to close.
  ghost predicate Open(a: Agent) { Inv(a) && !a.closing }

  // The agent begins to close for this reason, with both timers off and one cleanup to come.
  predicate Ends(a: Agent, b: Agent, phase: FinishPhase) {
    && b.closing && b.finishPhase == Some(phase) && !b.durationTimer && !b.silenceTimer && b.cleaning == a.cleaning + 1
    && b.prompts == a.prompts && b.reports == a.reports && b.drains == a.drains && b.finished == a.finished
    && b.hasClient == a.hasClient
  }

  predicate EndsAsIs(a: Agent, b: Agent, phase: FinishPhase) {
    Ends(a, b, phase) && b.decision == a.decision && b.endCallRequested == a.endCallRequested
  }

  /** A closing agent opens nothing, hears nothing and decides nothing; only its waits and its cleanup go on. */
  lemma ClosingIsDeaf(a: Agent, e: AgentEvent)
    requires Inv(a) && a.closing && !e.OutputDrained? && !e.CleanupReports? && !e.CleanupEnds?
    ensures Apply(a, e) == a
  {
  }

  /** Setting up: each part ready, and the call's clock started, once. */
  lemma SetUpEffect(a: Agent)
    requires Open(a)
    ensures Apply(a, BridgeOpened) == a.(bridgeReady := true)
    ensures Apply(a, GeminiConnected) == a.(geminiReady := true)
    ensures Apply(a, PeerConnected) == a.(durationTimer := true)
  {
  }

  /** Audio that cannot be played, or an interruption or a finished turn without a bridge, ends the run in an error. */
  lemma OutputEffect(a: Agent, fails: bool)
    requires Open(a)
    ensures var b := Apply(a, OutputAudio(fails)); if a.bridgeReady && !fails then b == a else EndsAsIs(a, b, FinishError)
    ensures var b := Apply(a, Interrupted); if a.bridgeReady then b == a else EndsAsIs(a, b, FinishError)
  {
  }

  /** ... and with one, a finished turn waits for its audio to be played. */
  lemma TurnEffect(a: Agent)
    requires Open(a)
    ensures var b := Apply(a, TurnComplete);
      if a.bridgeReady then b == a.(drains := a.drains + 1) else EndsAsIs(a, b, FinishError)
  {
  }

  /** Speech of the customer restarts the silence timer, after the greeting and before a decision. */
  lemma SpeechEffect(a: Agent, fromCustomer: bool)
    requires Open(a)
    ensures Apply(a, TranscriptPiece(fromCustomer)) ==
      if fromCustomer then a.(silenceTimer := a.greetingComplete && a.decision.None?) else a
  {
  }

  /** A drained turn ends the greeting; with a decision and the request to hang up it ends the run. */
  lemma DrainedEffect(a: Agent)
    requires Open(a) && a.drains > 0
    ensures var b := Apply(a, OutputDrained);
      && b.greetingComplete && b.decision == a.decision
      && (if a.decision.Some? && a.endCallRequested then
            Ends(a.(drains := a.drains - 1), b, FinishEnded)
          else
            b == a.(drains := a.drains - 1, greetingComplete := true, silenceTimer := a.decision.None?))
  {
  }

  /** The silence timer speaks one prompt and starts again while there is no decision and Gemini is there to speak it. */
  lemma SilenceEffect(a: Agent, speakFails: bool)
    requires Open(a) && a.silenceTimer
    ensures var b := Apply(a, SilenceTimerFires(speakFails));
      if !a.geminiReady then b == a.(silenceTimer := false)
      else if speakFails then EndsAsIs(a, b, FinishError)
      else b == a.(prompts := a.prompts + 1, silenceTimer := a.greetingComplete)
  {
  }

  /** Out of time: an undecided agent decides "unclear" and ends; a decided one goes on. */
  lemma DurationEffect(a: Agent)
    requires Open(a) && a.durationTimer
    ensures var b := Apply(a, DurationTimerFires);
      if a.decision.Some? then b == a.(durationTimer := false)
      else Ends(a, b, FinishTimeout) && b.decision == Some(Decision(IntentUnclear, 0.0)) && b.endCallRequested
  {
  }

  /** The ways a run ends, each with its own phase. */
  lemma EndingEffect(a: Agent)
    requires Open(a)
    ensures EndsAsIs(a, Apply(a, RemoteRejected), FinishRejected)
    ensures EndsAsIs(a, Apply(a, RemoteEnded), FinishEnded) && EndsAsIs(a, Apply(a, StopSignal), FinishEnded)
  {
  }

  /** A failure ends the run in an error; the request to hang up only waits for the turn to end. */
  lemma FailureEffect(a: Agent)
    requires Open(a)
    ensures EndsAsIs(a, Apply(a, GeminiFailed), FinishError) && EndsAsIs(a, Apply(a, Failure), FinishError)
    ensures Apply(a, EndCallTool) == a.(endCallRequested := true)
  {
  }

  /**
   * The cleanup reports once, if there is anybody to report to: unanswered after a rejection, an error
   * after a failure, completed otherwise, with the decision held. Then the run is over.
   */
  lemma CleanupEffect(a: Agent)
    requires Inv(a) && a.finishPhase.Some?
    ensures a.cleaning > 0 ==>
      var b := Apply(a, CleanupReports);
      && b.cleaning == a.cleaning - 1 && b.ending == a.ending + 1
      && (if !a.hasClient then b.reports == a.reports
          else
            && |b.reports| == 1 && b.reports[0].decision == a.decision
            && b.reports[0].disposition == match a.finishPhase.value
                 case FinishRejected => NoAnswer
                 case FinishError => Error
                 case FinishEnded => Completed
                 case FinishTimeout => Completed)
    ensures a.ending > 0 ==> Apply(a, CleanupEnds) == a.(ending := a.ending - 1, finished := true)
  {
  }

  // ---------------------------------------------------------------- what was said

  // A decision is put to the open agent: by the tool, or by the running call-duration timer.
  predicate Puts(a: Agent, e: AgentEvent) {
    (e.DecisionTool? && !a.closing) || (e.DurationTimerFires? && a.durationTimer)
  }

  // The decision is what the arguments say: no known intent means unclear, no confidence in 0..1 means 0.
  predicate Says(e: AgentEvent, d: Decision) {
    if e.DecisionTool? then
      && (e.intent.Some? ==> d.intent == e.intent.value) && (e.intent.None? ==> d.intent == IntentUnclear)
      && (if e.confidence.Some? && 0.0 <= e.confidence.value && e.confidence.value <= 1.0
          then d.confidence == e.confidence.value else d.confidence == 0.0)
    else e.DurationTimerFires? && d.intent == IntentUnclear && d.confidence == 0.0
  }

  predicate PutsAt(hasClient: bool, es: seq<AgentEvent>, i: nat)
    requires i < |es|
  {
    Puts(Exec(Init(hasClient), es[..i]), es[i])
  }

  // Event i is the first that puts a decision to the agent.
  predicate FirstPut(hasClient: bool, es: seq<AgentEvent>, i: nat) {
    i < |es| && PutsAt(hasClient, es, i) && forall j :: 0 <= j < i ==> !PutsAt(hasClient, es, j)
  }

  lemma PutStep(a: Agent, e: AgentEvent)
    requires Inv(a) && a.decision.None?
    ensures Puts(a, e) ==> Apply(a, e).decision.Some? && Says(e, Apply(a, e).decision.value)
    ensures !Puts(a, e) ==> Apply(a, e).decision.None?
  {
    StepKeeps(a, e);
    match e
    case DecisionTool(_, _) =>
    case DurationTimerFires => if a.durationTimer { DurationEffect(a); }
    case _ =>
  }

  lemma SamePuts(hasClient: bool, es: seq<AgentEvent>, j: nat)
    requires es != [] && j < |es| - 1
    ensures PutsAt(hasClient, es[..|es| - 1], j) == PutsAt(hasClient, es, j)
  {
    assert es[..|es| - 1][..j] == es[..j];
  }

  // The decision is that of the first event that put one, and there is none while none did.
  ghost predicate Said(hasClient: bool, es: seq<AgentEvent>, d: Option<Decision>) {
    if d.None? then forall j :: 0 <= j < |es| ==> !PutsAt(hasClient, es, j)
    else exists i: nat :: FirstPut(hasClient, es, i) && Says(es[i], d.value)
  }

  lemma SaidStays(hasClient: bool, es: seq<AgentEvent>, d: Option<Decision>)
    requires es != [] && d.Some? && Said(hasClient, es[..|es| - 1], d)
    ensures Said(hasClient, es, d)
  {
    var i: nat :| FirstPut(hasClient, es[..|es| - 1], i) && Says(es[..|es| - 1][i], d.value);
    forall j | 0 <= j <= i ensures PutsAt(hasClient, es[..|es| - 1], j) == PutsAt(hasClient, es, j) {
      SamePuts(hasClient, es, j);
    }
    assert FirstPut(hasClient, es, i);
  }

  lemma SaidNext(hasClient: bool, es: seq<AgentEvent>, d: Option<Decision>)
    requires es != [] && Said(hasClient, es[..|es| - 1], None)
    requires if PutsAt(hasClient, es, |es| - 1) then d.Some? && Says(es[|es| - 1], d.value) else d.None?
    ensures Said(hasClient, es, d)
  {
    forall j | 0 <= j < |es| - 1 ensures !PutsAt(hasClient, es, j) { SamePuts(hasClient, es, j); }
    if d.Some? {
      assert FirstPut(hasClient, es, |es| - 1);
    }
  }

  /**
   * The agent's decision, in the words of the tool: the arguments of the first decision put to the open
   * agent, and none while none was.
   */
  lemma {:induction false} DecisionIsWhatWasSaid(hasClient: bool, es: seq<AgentEvent>)
    ensures Said(hasClient, es, Exec(Init(hasClient), es).decision)
    decreases |es|
  {
    if es != [] {
      var before := Exec(Init(hasClient), es[..|es| - 1]);
      DecisionIsWhatWasSaid(hasClient, es[..|es| - 1]);
      RunKeeps(Init(hasClient), es[..|es| - 1]);
      if before.decision.Some? {
        StepKeeps(before, es[|es| - 1]);
        SaidStays(hasClient, es, before.decision);
      } else {
        PutStep(before, es[|es| - 1]);
        SaidNext(hasClient, es, Apply(before, es[|es| - 1]).decision);
      }
    }
  }
}
