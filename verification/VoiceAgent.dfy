/**
 * One run of the voice agent: the callbacks that race on its decision, its two timers and its one
 * report. Each step is what runs between two awaits.
 */
module VoiceAgent {
  import opened Options
  import opened CallPolicy
  import opened VoiceRules

  datatype Decision = Decision(intent: Intent, confidence: real)

  datatype FinishPhase = FinishEnded | FinishError | FinishRejected | FinishTimeout

  // What sendResult carries: the decision's fields are absent when there is none.
  datatype Report = Report(disposition: Disposition, decision: Option<Decision>)

  datatype Agent = Agent(
    hasClient: bool,              // a callback client and a task id were given
    bridgeReady: bool,
    geminiReady: bool,
    decision: Option<Decision>,
    endCallRequested: bool,
    greetingComplete: bool,
    drains: nat,                  // turn-complete handlers still waiting for the output to drain
    closing: bool,
    finished: bool,
    finishTask: bool,             // finish() has started its one cleanup task
    finishPhase: Option<FinishPhase>,
    cleaning: nat,                // cleanup tasks on their way to sendResult
    ending: nat,                  // cleanup tasks past it
    durationTimer: bool,
    silenceTimer: bool,
    prompts: nat,                 // silence prompts spoken
    reports: seq<Report>)
  {
    function FinishedAs(): FinishPhase { if finishPhase.Some? then finishPhase.value else FinishEnded }
  }

  datatype AgentEvent =
    | BridgeOpened
    | GeminiConnected
    | PeerConnected
    | OutputAudio(fails: bool)                  // the bridge rejects malformed audio
    | TranscriptPiece(fromCustomer: bool)
    | Interrupted
    | TurnComplete
    | OutputDrained                             // a turn-complete handler resumes
    | DecisionTool(intent: Option<Intent>, confidence: Option<real>)
    | EndCallTool
    | GeminiFailed                              // an error or a closed session
    | SilenceTimerFires(speakFails: bool)
    | DurationTimerFires
    | Failure                                   // any other path into fail()
    | RemoteRejected
    | RemoteEnded                               // also a lost connection
    | StopSignal
    | CleanupReports                            // cleanup reaches sendResult
    | CleanupEnds

  function Init(hasClient: bool): Agent {
    Agent(hasClient, false, false, None, false, false, 0, false, false, false, None, 0, 0, false, false, 0, [])
  }

  const UNCLEAR := Decision(IntentUnclear, 0.0)

  // recordDecision's reading of the tool arguments: anything unexpected means "unclear" or 0.
  function Normalised(intent: Option<Intent>, confidence: Option<real>): Decision {
    Decision(
      if intent.Some? then intent.value else IntentUnclear,
      if confidence.Some? && 0.0 <= confidence.value <= 1.0 then confidence.value else 0.0)
  }

  function ClearTimers(a: Agent): Agent { a.(durationTimer := false, silenceTimer := false) }

  function Finish(a: Agent, phase: FinishPhase): Agent {
    if a.finishTask || a.finished then a
    else ClearTimers(a).(closing := true, finishPhase := Some(phase), finishTask := true, cleaning := a.cleaning + 1)
  }

  function Fail(a: Agent): Agent { if a.closing || a.finished then a else Finish(a, FinishError) }

  function ResetSilenceTimer(a: Agent): Agent {
    a.(silenceTimer := !a.closing && !a.finished && a.greetingComplete && a.decision.None?)
  }

  function ForceUnclear(a: Agent): Agent {
    if a.closing || a.finished || a.decision.Some? then a
    else Finish(a.(decision := Some(UNCLEAR), endCallRequested := true), FinishTimeout)
  }

  function DispositionOf(phase: FinishPhase): Disposition {
    match phase
    case FinishRejected => NoAnswer
    case FinishError => Error
    case _ => Completed
  }

  // ---------------------------------------------------------------- the callbacks

  function OpenBridge(a: Agent): Agent { if a.closing then a else a.(bridgeReady := true) }

  function ConnectGemini(a: Agent): Agent { if a.closing then a else a.(geminiReady := true) }

  function StartDurationTimer(a: Agent): Agent {
    if a.closing || a.finished then a else a.(durationTimer := true)
  }

  function PlayAudio(a: Agent, fails: bool): Agent { if !a.closing && (fails || !a.bridgeReady) then Fail(a) else a }

  function HearPiece(a: Agent, fromCustomer: bool): Agent {
    if !a.closing && fromCustomer then ResetSilenceTimer(a) else a
  }

  function Interrupt(a: Agent): Agent { if !a.closing && !a.bridgeReady then Fail(a) else a }

  function CompleteTurn(a: Agent): Agent {
    if a.closing then a else if !a.bridgeReady then Fail(a) else a.(drains := a.drains + 1)
  }

  function AfterDrain(a: Agent): Agent {
    if a.drains == 0 then a
    else
      var b := ResetSilenceTimer(a.(drains := a.drains - 1, greetingComplete := true));
      if b.decision.Some? && b.endCallRequested && !b.closing then Finish(b, FinishEnded) else b
  }

  function Decide(a: Agent, intent: Option<Intent>, confidence: Option<real>): Agent {
    if a.closing || a.decision.Some? then a
    else a.(decision := Some(Normalised(intent, confidence)), silenceTimer := false)
  }

  function AskToEnd(a: Agent): Agent { if a.closing then a else a.(endCallRequested := true) }

  function LoseGemini(a: Agent): Agent { if a.closing then a else Fail(a) }

  function Prompt(a: Agent, speakFails: bool): Agent {
    if !a.silenceTimer then a
    else
      var b := a.(silenceTimer := false);
      if b.closing || b.finished || b.decision.Some? || !b.geminiReady then b
      else if speakFails then Fail(b)
      else ResetSilenceTimer(b.(prompts := b.prompts + 1))
  }

  function RunOut(a: Agent): Agent {
    if !a.durationTimer then a else ForceUnclear(a.(durationTimer := false))
  }

  function SendReport(a: Agent): Agent {
    if a.cleaning == 0 then a
    else
      var b := a.(cleaning := a.cleaning - 1, ending := a.ending + 1);
      if b.hasClient then b.(reports := b.reports + [Report(DispositionOf(b.FinishedAs()), b.decision)]) else b
  }

  function EndCleanup(a: Agent): Agent {
    if a.ending == 0 then a else a.(ending := a.ending - 1, finished := true)
  }

  function Apply(a: Agent, e: AgentEvent): Agent {
    match e
    case BridgeOpened => OpenBridge(a)
    case GeminiConnected => ConnectGemini(a)
    case PeerConnected => StartDurationTimer(a)
    case OutputAudio(fails) => PlayAudio(a, fails)
    case TranscriptPiece(fromCustomer) => HearPiece(a, fromCustomer)
    case Interrupted => Interrupt(a)
    case TurnComplete => CompleteTurn(a)
    case OutputDrained => AfterDrain(a)
    case DecisionTool(intent, confidence) => Decide(a, intent, confidence)
    case EndCallTool => AskToEnd(a)
    case GeminiFailed => LoseGemini(a)
    case SilenceTimerFires(speakFails) => Prompt(a, speakFails)
    case DurationTimerFires => RunOut(a)
    case Failure => Fail(a)
    case RemoteRejected => Finish(a, FinishRejected)
    case RemoteEnded => Finish(a, FinishEnded)
    case StopSignal => Finish(a, FinishEnded)
    case CleanupReports => SendReport(a)
    case CleanupEnds => EndCleanup(a)
  }

  function Exec(a: Agent, es: seq<AgentEvent>): Agent
    decreases |es|
  {
    if es == [] then a else Apply(Exec(a, es[..|es| - 1]), es[|es| - 1])
  }

  // ---------------------------------------------------------------- what every step keeps

  ghost predicate Inv(a: Agent) {
    && a.closing == a.finishTask && (a.finished ==> a.closing)
    && (a.closing ==> !a.durationTimer && !a.silenceTimer && a.finishPhase.Some?)
    && (a.decision.Some? ==> !a.silenceTimer && 0.0 <= a.decision.value.confidence <= 1.0)
    && a.cleaning + |a.reports| <= 1
    && (!a.closing ==> a.cleaning + a.ending == 0 && a.reports == [])
    && (a.reports != [] ==> a.reports == [Report(DispositionOf(a.FinishedAs()), a.decision)])
  }

  // Once the decision is made it stays; once closing began, nothing the report carries changes.
  ghost predicate Keeps(a: Agent, b: Agent) {
    && (a.decision.Some? ==> b.decision == a.decision && b.prompts == a.prompts)
    && (a.closing ==> b.closing && b.decision == a.decision && b.finishPhase == a.finishPhase && b.prompts == a.prompts)
    && a.reports <= b.reports
    && b.hasClient == a.hasClient
  }

  // Only a tool call and the call-duration timer can write the decision.
  predicate Decides(e: AgentEvent) { e.DecisionTool? || e.DurationTimerFires? }

  ghost predicate StepOk(a: Agent, b: Agent) { Inv(b) && Keeps(a, b) }

  ghost predicate QuietStepOk(a: Agent, b: Agent) { StepOk(a, b) && b.decision == a.decision }

  lemma FlagStep(a: Agent, e: AgentEvent)
    requires Inv(a)
    requires e.BridgeOpened? || e.GeminiConnected? || e.PeerConnected? || e.EndCallTool? || e.TranscriptPiece?
    ensures QuietStepOk(a, Apply(a, e))
  {
  }

  lemma ToolStep(a: Agent, e: AgentEvent)
    requires Inv(a) && e.DecisionTool?
    ensures StepOk(a, Apply(a, e))
  {
  }

  lemma FinishStep(a: Agent, phase: FinishPhase)
    requires Inv(a)
    ensures QuietStepOk(a, Finish(a, phase))
  {
  }

  lemma FailingStep(a: Agent, e: AgentEvent)
    requires Inv(a)
    requires e.OutputAudio? || e.Interrupted? || e.TurnComplete? || e.GeminiFailed? || e.Failure?
    ensures QuietStepOk(a, Apply(a, e))
  {
    FinishStep(a, FinishError);
  }

  lemma DrainedStep(a: Agent)
    requires Inv(a)
    ensures QuietStepOk(a, Apply(a, OutputDrained))
  {
    if a.drains > 0 {
      var b := ResetSilenceTimer(a.(drains := a.drains - 1, greetingComplete := true));
      assert QuietStepOk(a, b);
      FinishStep(b, FinishEnded);
    }
  }

  lemma SilenceStep(a: Agent, e: AgentEvent)
    requires Inv(a) && e.SilenceTimerFires?
    ensures QuietStepOk(a, Apply(a, e))
  {
  }

  lemma DurationStep(a: Agent)
    requires Inv(a)
    ensures StepOk(a, Apply(a, DurationTimerFires))
  {
  }

  lemma ReportStep(a: Agent)
    requires Inv(a)
    ensures QuietStepOk(a, Apply(a, CleanupReports))
  {
  }

  lemma EndStep(a: Agent)
    requires Inv(a)
    ensures QuietStepOk(a, Apply(a, CleanupEnds))
  {
  }

  /** Every callback keeps the invariant, the decision and what the report will carry. */
  lemma StepKeeps(a: Agent, e: AgentEvent)
    requires Inv(a)
    ensures StepOk(a, Apply(a, e)) && (!Decides(e) ==> Apply(a, e).decision == a.decision)
  {
    match e
    case DecisionTool(_, _) => ToolStep(a, e);
    case OutputDrained => DrainedStep(a);
    case SilenceTimerFires(_) => SilenceStep(a, e);
    case DurationTimerFires => DurationStep(a);
    case CleanupReports => ReportStep(a);
    case CleanupEnds => EndStep(a);
    case RemoteRejected => FinishStep(a, FinishRejected);
    case RemoteEnded => FinishStep(a, FinishEnded);
    case StopSignal => FinishStep(a, FinishEnded);
    case OutputAudio(_) => FailingStep(a, e);
    case Interrupted => FailingStep(a, e);
    case TurnComplete => FailingStep(a, e);
    case GeminiFailed => FailingStep(a, e);
    case Failure => FailingStep(a, e);
    case _ => FlagStep(a, e);
  }

  lemma {:induction false} RunKeeps(a: Agent, es: seq<AgentEvent>)
    requires Inv(a)
    ensures Inv(Exec(a, es)) && Keeps(a, Exec(a, es))
    decreases |es|
  {
    if es != [] {
      RunKeeps(a, es[..|es| - 1]);
      StepKeeps(Exec(a, es[..|es| - 1]), es[|es| - 1]);
    }
  }

  lemma ExecOne(a: Agent, es: seq<AgentEvent>, e: AgentEvent)
    ensures Exec(a, es + [e]) == Apply(Exec(a, es), e)
  {
    assert (es + [e])[..|es|] == es;
  }

  // One more event takes agents that are alike to agents that are alike.
  lemma StayAlike(a: Agent, b: Agent, es: seq<AgentEvent>, fs: seq<AgentEvent>, e: AgentEvent,
                  all: seq<AgentEvent>, alsoAll: seq<AgentEvent>)
    requires Exec(a, es) == Exec(b, fs) && all == es + [e] && alsoAll == fs + [e]
    ensures Exec(a, all) == Exec(b, alsoAll)
  {
    ExecOne(a, es, e);
    ExecOne(b, fs, e);
  }

  lemma LastApart(first: seq<AgentEvent>, more: seq<AgentEvent>)
    requires more != []
    ensures var some, last := more[..|more| - 1], more[|more| - 1];
      more == some + [last] && first + more == first + some + [last]
  {
  }

  lemma {:induction false} ExecAppend(a: Agent, first: seq<AgentEvent>, more: seq<AgentEvent>)
    ensures Exec(a, first + more) == Exec(Exec(a, first), more)
    decreases |more|
  {
    if more == [] {
      assert first + more == first;
    } else {
      var some, last := more[..|more| - 1], more[|more| - 1];
      ExecAppend(a, first, some);
      LastApart(first, more);
      StayAlike(a, Exec(a, first), first + some, some, last, first + more, more);
    }
  }

  // ---------------------------------------------------------------- theorems over every run

  /**
   * Whatever the callbacks' order: after the decision is made, or after closing began, it never
   * changes and no silence prompt is spoken; closing means both timers are clear, and a decision
   * that the silence timer is.
   */
  lemma DecisionWrittenOnce(hasClient: bool, first: seq<AgentEvent>, more: seq<AgentEvent>)
    ensures var earlier, now := Exec(Init(hasClient), first), Exec(Init(hasClient), first + more);
      && (earlier.decision.Some? || earlier.closing ==> now.decision == earlier.decision && now.prompts == earlier.prompts)
      && (earlier.closing ==> now.closing)
      && (now.closing ==> !now.durationTimer && !now.silenceTimer)
      && (now.decision.Some? ==> !now.silenceTimer)
  {
    RunKeeps(Init(hasClient), first);
    ExecAppend(Init(hasClient), first, more);
    RunKeeps(Exec(Init(hasClient), first), more);
  }

  /** At most one report is ever sent, and it carries the decision held when closing began. */
  lemma ReportedOnce(hasClient: bool, first: seq<AgentEvent>, more: seq<AgentEvent>)
    requires Exec(Init(hasClient), first).closing
    ensures var earlier, now := Exec(Init(hasClient), first), Exec(Init(hasClient), first + more);
      && earlier.finishPhase.Some?
      && (now.reports == [] || now.reports == [Report(DispositionOf(earlier.finishPhase.value), earlier.decision)])
  {
    RunKeeps(Init(hasClient), first);
    ExecAppend(Init(hasClient), first, more);
    RunKeeps(Exec(Init(hasClient), first), more);
  }

  // What a callback may do to the run: a decision and what followed from it stay, closing is for good
  // with both timers clear, and there is at most one report.
  ghost predicate Sound(a: Agent, b: Agent) {
    && (a.decision.Some? ==> b.decision == a.decision && b.prompts == a.prompts)
    && (a.closing ==> b.closing && b.decision == a.decision && b.prompts == a.prompts)
    && (b.closing ==> !b.durationTimer && !b.silenceTimer)
    && (b.decision.Some? ==> !b.silenceTimer)
    && |b.reports| <= 1
  }

  // The states a run goes through, from the first.
  ghost predicate StepAt(states: seq<Agent>, events: seq<AgentEvent>, i: nat)
    requires i < |events| && |states| == |events| + 1
  {
    states[i + 1] == Apply(states[i], events[i])
  }

  ghost predicate Trace(hasClient: bool, states: seq<Agent>, events: seq<AgentEvent>) {
    && |states| == |events| + 1 && states[0] == Init(hasClient)
    && forall i :: 0 <= i < |events| ==> StepAt(states, events, i)
  }

  lemma {:induction false} TraceIsRun(hasClient: bool, states: seq<Agent>, events: seq<AgentEvent>, i: nat)
    requires Trace(hasClient, states, events) && i <= |events|
    ensures states[i] == Exec(Init(hasClient), events[..i])
  {
    if i > 0 {
      TraceIsRun(hasClient, states, events, i - 1);
      assert StepAt(states, events, i - 1);
      assert events[..i][..i - 1] == events[..i - 1];
    }
  }

  lemma TraceEnds(hasClient: bool, states: seq<Agent>, events: seq<AgentEvent>)
    requires Trace(hasClient, states, events)
    ensures states[|events|] == Exec(Init(hasClient), events)
  {
    TraceIsRun(hasClient, states, events, |events|);
    assert events[..|events|] == events;
  }

  lemma TraceGrows(hasClient: bool, states: seq<Agent>, events: seq<AgentEvent>, e: AgentEvent, after: Agent)
    requires Trace(hasClient, states, events) && after == Apply(states[|events|], e)
    ensures Trace(hasClient, states + [after], events + [e])
  {
    var more, longer := states + [after], events + [e];
    forall i | 0 <= i < |longer| ensures StepAt(more, longer, i) {
      if i < |events| {
        assert StepAt(states, events, i);
      }
    }
  }

  lemma StepIsSound(hasClient: bool, states: seq<Agent>, events: seq<AgentEvent>, e: AgentEvent)
    requires Trace(hasClient, states, events)
    ensures Sound(states[|events|], Apply(states[|events|], e))
  {
    TraceEnds(hasClient, states, events);
    RunKeeps(Init(hasClient), events);
    StepKeeps(states[|events|], e);
  }

  lemma TraceConcludes(hasClient: bool, states: seq<Agent>, events: seq<AgentEvent>)
    requires Trace(hasClient, states, events)
    ensures var a := states[|events|];
      && |a.reports| <= 1 && (a.reports != [] ==> a.reports[0].decision == a.decision)
      && (a.closing ==> !a.durationTimer && !a.silenceTimer)
  {
    TraceEnds(hasClient, states, events);
    RunKeeps(Init(hasClient), events);
  }

  // In a run, cleanup always knows its phase, and finishing and closing go together.
  lemma ClosedHasPhase(hasClient: bool, states: seq<Agent>, events: seq<AgentEvent>)
    requires Trace(hasClient, states, events)
    ensures var a := states[|events|];
      (a.cleaning > 0 ==> a.finishPhase.Some? && a.reports == []) && a.finishTask == a.closing && (a.finished ==> a.closing)
  {
    TraceEnds(hasClient, states, events);
    RunKeeps(Init(hasClient), events);
  }

  lemma FirstTurn(a: Agent)
    requires !a.closing && !a.finished && a.decision.None? && a.drains == 0
    ensures var open := Apply(Apply(a, BridgeOpened), GeminiConnected);
      var heard := Apply(Apply(open, TurnComplete), OutputDrained);
      && open == a.(bridgeReady := true, geminiReady := true)
      && heard == open.(greetingComplete := true, silenceTimer := true)
  {
  }

  lemma FirstPrompt(a: Agent)
    requires !a.closing && !a.finished && a.decision.None? && a.geminiReady && a.silenceTimer
    ensures Apply(a, SilenceTimerFires(false)).prompts == a.prompts + 1
  {
  }

  /** The first completed turn ends the greeting and starts the silence timer, which then speaks. */
  lemma GreetingStartsSilenceTimer(hasClient: bool)
    ensures var heard := [] + [BridgeOpened] + [GeminiConnected] + [TurnComplete] + [OutputDrained];
      && Exec(Init(hasClient), heard).silenceTimer
      && Exec(Init(hasClient), heard + [SilenceTimerFires(false)]).prompts == 1
  {
    ExecOne(Init(hasClient), [], BridgeOpened);
    ExecOne(Init(hasClient), [] + [BridgeOpened], GeminiConnected);
    ExecOne(Init(hasClient), [] + [BridgeOpened] + [GeminiConnected], TurnComplete);
    ExecOne(Init(hasClient), [] + [BridgeOpened] + [GeminiConnected] + [TurnComplete], OutputDrained);
    var heard := [] + [BridgeOpened] + [GeminiConnected] + [TurnComplete] + [OutputDrained];
    FirstTurn(Init(hasClient));
    ExecOne(Init(hasClient), heard, SilenceTimerFires(false));
    FirstPrompt(Exec(Init(hasClient), heard));
  }
}
