/**
 * The agent object. Each callback is proved equal to the step it stands for, so the object is always
 * the result of a run of callbacks in whatever order they came.
 */
module VoiceCallAgent {
  import opened Options
  import opened CallPolicy
  import opened VoiceRules
  import VoiceAgent
  import AgentEffects

  class VoiceCallAgent {
    const hasClient: bool
    var bridgeReady: bool
    var geminiReady: bool
    var decision: Option<VoiceAgent.Decision>
    var endCallRequested: bool
    var greetingComplete: bool
    var drains: nat
    var closing: bool
    var finished: bool
    var finishTask: bool
    var finishPhase: Option<VoiceAgent.FinishPhase>
    var cleaning: nat
    var ending: nat
    var callDurationTimer: bool
    var customerSilenceTimer: bool
    var prompts: nat
    var reports: seq<VoiceAgent.Report>
    // Every callback so far.
    ghost var events: seq<VoiceAgent.AgentEvent>
    // The states between them, the first as built and the last the present one.
    ghost var states: seq<VoiceAgent.Agent>

    ghost function State(): VoiceAgent.Agent
      reads this
    {
      VoiceAgent.Agent.Agent(hasClient, bridgeReady, geminiReady, decision, endCallRequested, greetingComplete,
        drains, closing, finished, finishTask, finishPhase, cleaning, ending, callDurationTimer,
        customerSilenceTimer, prompts, reports)
    }

    ghost predicate Valid()
      reads this
    {
      VoiceAgent.Trace(hasClient, states, events) && State() == states[|events|]
    }

    constructor (hasClient: bool)
      ensures Valid() && events == [] && State() == VoiceAgent.Init(hasClient)
    {
      this.hasClient := hasClient;
      bridgeReady, geminiReady, decision, endCallRequested := false, false, None, false;
      greetingComplete, drains, closing, finished, finishTask := false, 0, false, false, false;
      finishPhase, cleaning, ending := None, 0, 0;
      callDurationTimer, customerSilenceTimer, prompts, reports := false, false, 0, [];
      events := [];
      states := [VoiceAgent.Init(hasClient)];
    }

    method ClearCustomerSilenceTimer()
      modifies this`customerSilenceTimer
      ensures !customerSilenceTimer
    {
      if !customerSilenceTimer {
        return;
      }
      customerSilenceTimer := false;
    }

    method ClearTimers()
      modifies this`callDurationTimer, this`customerSilenceTimer
      ensures State() == VoiceAgent.ClearTimers(old(State()))
    {
      if callDurationTimer {
        callDurationTimer := false;
      }
      ClearCustomerSilenceTimer();
    }

    method Finish(phase: VoiceAgent.FinishPhase)
      modifies this`callDurationTimer, this`customerSilenceTimer, this`closing, this`finishPhase, this`cleaning, this`finishTask
      ensures State() == VoiceAgent.Finish(old(State()), phase)
    {
      if finishTask {
        return;
      }
      if finished {
        return;
      }
      ClearTimers();
      CloseAs(phase);
    }

    method CloseAs(phase: VoiceAgent.FinishPhase)
      modifies this`closing, this`finishPhase, this`cleaning, this`finishTask
      ensures State() == old(State()).(
        closing := true, finishPhase := Some(phase), finishTask := true, cleaning := old(cleaning) + 1)
    {
      closing := true;
      finishPhase := Some(phase);
      cleaning := cleaning + 1;
      finishTask := true;
    }

    method Fail()
      modifies this`callDurationTimer, this`customerSilenceTimer, this`closing, this`finishPhase, this`cleaning, this`finishTask
      ensures State() == VoiceAgent.Fail(old(State()))
    {
      if closing || finished {
        return;
      }
      Finish(VoiceAgent.FinishError);
    }

    method ResetCustomerSilenceTimer()
      modifies this`customerSilenceTimer
      ensures State() == VoiceAgent.ResetSilenceTimer(old(State()))
    {
      ClearCustomerSilenceTimer();
      if closing || finished || !greetingComplete || decision.Some? {
        return;
      }
      customerSilenceTimer := true;
    }

    method ForceUnclear()
      modifies this`callDurationTimer, this`customerSilenceTimer, this`closing, this`finishPhase, this`cleaning, this`finishTask,
               this`decision, this`endCallRequested
      ensures State() == VoiceAgent.ForceUnclear(old(State()))
    {
      if closing || finished || decision.Some? {
        return;
      }
      decision := Some(VoiceAgent.UNCLEAR);
      endCallRequested := true;
      Finish(VoiceAgent.FinishTimeout);
    }

    method RecordDecision(intent: Option<Intent>, confidence: Option<real>)
      modifies this`decision, this`customerSilenceTimer
      ensures decision == if old(decision).Some? then old(decision)
                          else Some(VoiceAgent.Normalised(intent, confidence))
      ensures customerSilenceTimer == (old(decision).Some? && old(customerSilenceTimer))
    {
      if decision.None? {
        var heard := if intent.Some? then intent.value else IntentUnclear;
        var trust := 0.0;
        if confidence.Some? && confidence.value >= 0.0 && confidence.value <= 1.0 {
          trust := confidence.value;
        }
        decision := Some(VoiceAgent.Decision.Decision(heard, trust));
        ClearCustomerSilenceTimer();
      }
    }

    // The fields are those of the step e after the state before: the run goes on.
    ghost method Took(before: VoiceAgent.Agent, e: VoiceAgent.AgentEvent)
      requires VoiceAgent.Trace(hasClient, states, events) && before == states[|events|]
      requires State() == VoiceAgent.Apply(before, e)
      modifies this`events, this`states
      ensures State() == old(State()) && VoiceAgent.Sound(before, State())
      ensures Valid() && events == old(events) + [e]
    {
      VoiceAgent.StepIsSound(hasClient, states, events, e);
      VoiceAgent.TraceGrows(hasClient, states, events, e, State());
      events, states := events + [e], states + [State()];
    }

    // ---------------------------------------------------------------- setting up

    method BridgeIsReady()
      modifies this`bridgeReady
      ensures State() == VoiceAgent.OpenBridge(old(State()))
    {
      if !closing {
        bridgeReady := true;
      }
    }

    /** beginMedia once the call is accepted. */
    method OpenBridge()
      requires Valid()
      modifies this`bridgeReady, this`events, this`states
      ensures Valid() && events == old(events) + [VoiceAgent.BridgeOpened]
      ensures State() == VoiceAgent.Apply(old(State()), VoiceAgent.BridgeOpened)
      ensures VoiceAgent.Sound(old(State()), State())
    {
      ghost var before := State();
      BridgeIsReady();
      Took(before, VoiceAgent.BridgeOpened);
    }

    /** prepareGemini once the session is open; too late for a closing agent. */
    method ConnectGemini()
      requires Valid()
      modifies this`geminiReady, this`events, this`states
      ensures Valid() && events == old(events) + [VoiceAgent.GeminiConnected]
      ensures State() == VoiceAgent.Apply(old(State()), VoiceAgent.GeminiConnected)
      ensures VoiceAgent.Sound(old(State()), State())
    {
      ghost var before := State();
      if !closing {
        geminiReady := true;
      }
      Took(before, VoiceAgent.GeminiConnected);
    }

    /** The media connection is up. */
    method StartCallDurationTimer()
      requires Valid()
      modifies this`callDurationTimer, this`events, this`states
      ensures Valid() && events == old(events) + [VoiceAgent.PeerConnected]
      ensures State() == VoiceAgent.Apply(old(State()), VoiceAgent.PeerConnected)
      ensures VoiceAgent.Sound(old(State()), State())
    {
      ghost var before := State();
      if !callDurationTimer && !closing && !finished {
        callDurationTimer := true;
      }
      Took(before, VoiceAgent.PeerConnected);
    }

    // ---------------------------------------------------------------- timers

    method RunOut()
      requires callDurationTimer
      modifies this`callDurationTimer, this`customerSilenceTimer, this`closing, this`finishPhase, this`cleaning, this`finishTask,
               this`decision, this`endCallRequested
      ensures State() == VoiceAgent.RunOut(old(State()))
    {
      callDurationTimer := false;
      ForceUnclear();
    }

    /** The call has run out of time. */
    method OnDurationTimer()
      requires Valid() && callDurationTimer
      modifies this`callDurationTimer, this`customerSilenceTimer, this`closing, this`finishPhase, this`cleaning, this`finishTask,
               this`decision, this`endCallRequested, this`events, this`states
      ensures Valid() && events == old(events) + [VoiceAgent.DurationTimerFires]
      ensures State() == VoiceAgent.Apply(old(State()), VoiceAgent.DurationTimerFires)
      ensures VoiceAgent.Sound(old(State()), State())
    {
      ghost var before := State();
      RunOut();
      Took(before, VoiceAgent.DurationTimerFires);
    }

    /** The customer has been silent: one prompt, only while open, undecided and connected. */
    method OnSilenceTimer(speakFails: bool)
      requires Valid() && customerSilenceTimer
      modifies this`callDurationTimer, this`customerSilenceTimer, this`closing, this`finishPhase, this`cleaning, this`finishTask,
               this`prompts, this`events, this`states
      ensures Valid() && events == old(events) + [VoiceAgent.SilenceTimerFires(speakFails)]
      ensures State() == VoiceAgent.Apply(old(State()), VoiceAgent.SilenceTimerFires(speakFails))
      ensures VoiceAgent.Sound(old(State()), State())
      ensures prompts <= old(prompts) + 1
      ensures prompts > old(prompts) ==> old(decision).None? && !old(closing) && old(geminiReady)
    {
      ghost var before := State();
      Prompt(speakFails);
      Took(before, VoiceAgent.SilenceTimerFires(speakFails));
    }

    method Prompt(speakFails: bool)
      requires customerSilenceTimer
      modifies this`callDurationTimer, this`customerSilenceTimer, this`closing, this`finishPhase, this`cleaning, this`finishTask,
               this`prompts
      ensures State() == VoiceAgent.Prompt(old(State()), speakFails)
      ensures prompts <= old(prompts) + 1
      ensures prompts > old(prompts) ==> old(decision).None? && !old(closing) && old(geminiReady)
    {
      customerSilenceTimer := false;
      if closing || finished || decision.Some? || !geminiReady {
        return;
      }
      if speakFails {
        Fail();
        return;
      }
      prompts := prompts + 1;
      ResetCustomerSilenceTimer();
    }

    // ---------------------------------------------------------------- handleGeminiEvent, branch by branch

    method Decide(intent: Option<Intent>, confidence: Option<real>)
      modifies this`decision, this`customerSilenceTimer
      ensures State() == VoiceAgent.Decide(old(State()), intent, confidence)
      ensures old(decision).None? && !old(closing) ==> decision == Some(VoiceAgent.Normalised(intent, confidence))
    {
      if !closing {
        RecordDecision(intent, confidence);
      }
    }

    /** A decision tool call: the first one while open is recorded, every other ignored. */
    method HandleDecision(intent: Option<Intent>, confidence: Option<real>)
      requires Valid()
      modifies this`decision, this`customerSilenceTimer, this`events, this`states
      ensures Valid() && events == old(events) + [VoiceAgent.DecisionTool(intent, confidence)]
      ensures State() == VoiceAgent.Apply(old(State()), VoiceAgent.DecisionTool(intent, confidence))
      ensures VoiceAgent.Sound(old(State()), State())
      ensures old(decision).Some? || old(closing) ==> decision == old(decision)
      ensures old(decision).None? && !old(closing) ==>
        && decision.Some? && decision.value.intent == (if intent.Some? then intent.value else IntentUnclear)
        && decision.value.confidence ==
             (if confidence.Some? && 0.0 <= confidence.value && confidence.value <= 1.0 then confidence.value else 0.0)
    {
      ghost var before := State();
      Decide(intent, confidence);
      Took(before, VoiceAgent.DecisionTool(intent, confidence));
    }

    method AskToEnd()
      modifies this`endCallRequested
      ensures State() == VoiceAgent.AskToEnd(old(State()))
    {
      if !closing {
        endCallRequested := true;
      }
    }

    method HandleEndCall()
      requires Valid()
      modifies this`endCallRequested, this`events, this`states
      ensures Valid() && events == old(events) + [VoiceAgent.EndCallTool]
      ensures State() == VoiceAgent.Apply(old(State()), VoiceAgent.EndCallTool)
      ensures VoiceAgent.Sound(old(State()), State())
      ensures !old(closing) ==> endCallRequested
    {
      ghost var before := State();
      AskToEnd();
      Took(before, VoiceAgent.EndCallTool);
    }

    method PlayAudio(fails: bool)
      modifies this`callDurationTimer, this`customerSilenceTimer, this`closing, this`finishPhase, this`cleaning, this`finishTask
      ensures State() == VoiceAgent.PlayAudio(old(State()), fails)
    {
      if !closing && (fails || !bridgeReady) {
        Fail();
      }
    }

    method HandleOutputAudio(fails: bool)
      requires Valid()
      modifies this`callDurationTimer, this`customerSilenceTimer, this`closing, this`finishPhase, this`cleaning, this`finishTask, this`events, this`states
      ensures Valid() && events == old(events) + [VoiceAgent.OutputAudio(fails)]
      ensures State() == VoiceAgent.Apply(old(State()), VoiceAgent.OutputAudio(fails))
      ensures VoiceAgent.Sound(old(State()), State())
    {
      ghost var before := State();
      PlayAudio(fails);
      Took(before, VoiceAgent.OutputAudio(fails));
    }

    method HandleTranscript(fromCustomer: bool)
      requires Valid()
      modifies this`customerSilenceTimer, this`events, this`states
      ensures Valid() && events == old(events) + [VoiceAgent.TranscriptPiece(fromCustomer)]
      ensures State() == VoiceAgent.Apply(old(State()), VoiceAgent.TranscriptPiece(fromCustomer))
      ensures VoiceAgent.Sound(old(State()), State())
    {
      ghost var before := State();
      if !closing && fromCustomer {
        ResetCustomerSilenceTimer();
      }
      Took(before, VoiceAgent.TranscriptPiece(fromCustomer));
    }

    method HandleInterrupted()
      requires Valid()
      modifies this`callDurationTimer, this`customerSilenceTimer, this`closing, this`finishPhase, this`cleaning, this`finishTask, this`events, this`states
      ensures Valid() && events == old(events) + [VoiceAgent.Interrupted]
      ensures State() == VoiceAgent.Apply(old(State()), VoiceAgent.Interrupted)
      ensures VoiceAgent.Sound(old(State()), State())
    {
      ghost var before := State();
      if !closing && !bridgeReady {
        Fail();
      }
      Took(before, VoiceAgent.Interrupted);
    }

    method CompleteTurn()
      modifies this`callDurationTimer, this`customerSilenceTimer, this`closing, this`finishPhase, this`cleaning, this`finishTask, this`drains
      ensures State() == VoiceAgent.CompleteTurn(old(State()))
    {
      if !closing {
        if bridgeReady {
          drains := drains + 1;
        } else {
          Fail();
        }
      }
    }

    /** A completed turn, up to the wait for the output to drain ... */
    method HandleTurnComplete()
      requires Valid()
      modifies this`callDurationTimer, this`customerSilenceTimer, this`closing, this`finishPhase, this`cleaning, this`finishTask, this`drains, this`events, this`states
      ensures Valid() && events == old(events) + [VoiceAgent.TurnComplete]
      ensures State() == VoiceAgent.Apply(old(State()), VoiceAgent.TurnComplete)
      ensures VoiceAgent.Sound(old(State()), State())
    {
      ghost var before := State();
      CompleteTurn();
      Took(before, VoiceAgent.TurnComplete);
    }

    /** ... and from there on, which may be after the run was closed: a decided agent asked to hang up does. */
    method ResumeTurnComplete()
      requires Valid() && drains > 0
      modifies this`callDurationTimer, this`customerSilenceTimer, this`closing, this`finishPhase, this`cleaning, this`finishTask,
               this`drains, this`greetingComplete, this`events, this`states
      ensures Valid() && events == old(events) + [VoiceAgent.OutputDrained]
      ensures State() == VoiceAgent.Apply(old(State()), VoiceAgent.OutputDrained)
      ensures VoiceAgent.Sound(old(State()), State())
      ensures greetingComplete && (old(decision).Some? && old(endCallRequested) ==> closing)
    {
      ghost var before := State();
      AfterDrain();
      Took(before, VoiceAgent.OutputDrained);
      VoiceAgent.ClosedHasPhase(hasClient, states, events);
    }

    method AfterDrain()
      requires drains > 0
      modifies this`callDurationTimer, this`customerSilenceTimer, this`closing, this`finishPhase, this`cleaning, this`finishTask,
               this`drains, this`greetingComplete
      ensures State() == VoiceAgent.AfterDrain(old(State()))
      ensures greetingComplete
      ensures old(decision).Some? && old(endCallRequested) ==> closing || finishTask || finished
    {
      TurnIsOver();
      if decision.Some? && endCallRequested && !closing {
        Finish(VoiceAgent.FinishEnded);
      }
    }

    method TurnIsOver()
      requires drains > 0
      modifies this`customerSilenceTimer, this`drains, this`greetingComplete
      ensures State() ==
        VoiceAgent.ResetSilenceTimer(old(State()).(drains := old(drains) - 1, greetingComplete := true))
    {
      drains := drains - 1;
      if !greetingComplete {
        greetingComplete := true;
      }
      ResetCustomerSilenceTimer();
    }

    method HandleGeminiFailure()
      requires Valid()
      modifies this`callDurationTimer, this`customerSilenceTimer, this`closing, this`finishPhase, this`cleaning, this`finishTask, this`events, this`states
      ensures Valid() && events == old(events) + [VoiceAgent.GeminiFailed]
      ensures State() == VoiceAgent.Apply(old(State()), VoiceAgent.GeminiFailed)
      ensures VoiceAgent.Sound(old(State()), State())
    {
      ghost var before := State();
      if !closing {
        Fail();
      }
      Took(before, VoiceAgent.GeminiFailed);
    }

    // ---------------------------------------------------------------- endings

    method OnFailure()
      requires Valid()
      modifies this`callDurationTimer, this`customerSilenceTimer, this`closing, this`finishPhase, this`cleaning, this`finishTask, this`events, this`states
      ensures Valid() && events == old(events) + [VoiceAgent.Failure]
      ensures State() == VoiceAgent.Apply(old(State()), VoiceAgent.Failure)
      ensures VoiceAgent.Sound(old(State()), State())
    {
      ghost var before := State();
      Fail();
      Took(before, VoiceAgent.Failure);
    }

    method OnRejected()
      requires Valid()
      modifies this`callDurationTimer, this`customerSilenceTimer, this`closing, this`finishPhase, this`cleaning, this`finishTask, this`events, this`states
      ensures Valid() && events == old(events) + [VoiceAgent.RemoteRejected]
      ensures State() == VoiceAgent.Apply(old(State()), VoiceAgent.RemoteRejected)
      ensures VoiceAgent.Sound(old(State()), State())
    {
      ghost var before := State();
      Finish(VoiceAgent.FinishRejected);
      Took(before, VoiceAgent.RemoteRejected);
    }

    method OnEnded()
      requires Valid()
      modifies this`callDurationTimer, this`customerSilenceTimer, this`closing, this`finishPhase, this`cleaning, this`finishTask, this`events, this`states
      ensures Valid() && events == old(events) + [VoiceAgent.RemoteEnded]
      ensures State() == VoiceAgent.Apply(old(State()), VoiceAgent.RemoteEnded)
      ensures VoiceAgent.Sound(old(State()), State())
    {
      ghost var before := State();
      Finish(VoiceAgent.FinishEnded);
      Took(before, VoiceAgent.RemoteEnded);
    }

    method Stop()
      requires Valid()
      modifies this`callDurationTimer, this`customerSilenceTimer, this`closing, this`finishPhase, this`cleaning, this`finishTask, this`events, this`states
      ensures Valid() && events == old(events) + [VoiceAgent.StopSignal]
      ensures State() == VoiceAgent.Apply(old(State()), VoiceAgent.StopSignal)
      ensures VoiceAgent.Sound(old(State()), State())
    {
      ghost var before := State();
      Finish(VoiceAgent.FinishEnded);
      Took(before, VoiceAgent.StopSignal);
    }

    method Report()
      requires cleaning > 0 && finishPhase.Some?
      modifies this`cleaning, this`ending, this`reports
      ensures State() == VoiceAgent.SendReport(old(State()))
    {
      var disposition := DispositionNow();
      cleaning := cleaning - 1;
      ending := ending + 1;
      if hasClient {
        reports := reports + [VoiceAgent.Report.Report(disposition, decision)];
      }
    }

    method DispositionNow() returns (disposition: Disposition)
      requires finishPhase.Some?
      ensures disposition == VoiceAgent.DispositionOf(State().FinishedAs())
    {
      disposition := Completed;
      if finishPhase.value == VoiceAgent.FinishRejected {
        disposition := NoAnswer;
      } else if finishPhase.value == VoiceAgent.FinishError {
        disposition := Error;
      }
    }

    /** cleanup at its call to sendResult: the one report, with the decision held. */
    method SendResult()
      requires Valid() && cleaning > 0
      modifies this`cleaning, this`ending, this`reports, this`events, this`states
      ensures Valid() && events == old(events) + [VoiceAgent.CleanupReports]
      ensures State() == VoiceAgent.Apply(old(State()), VoiceAgent.CleanupReports)
      ensures VoiceAgent.Sound(old(State()), State())
      ensures hasClient ==>
        && |reports| == 1 && reports[0].decision == decision && finishPhase.Some?
        && (finishPhase.value.FinishRejected? ==> reports[0].disposition == NoAnswer)
        && (finishPhase.value.FinishError? ==> reports[0].disposition == Error)
        && (finishPhase.value.FinishEnded? || finishPhase.value.FinishTimeout? ==> reports[0].disposition == Completed)
    {
      ghost var before := State();
      VoiceAgent.ClosedHasPhase(hasClient, states, events);
      Report();
      Took(before, VoiceAgent.CleanupReports);
    }

    method CleanupIsOver()
      requires ending > 0
      modifies this`ending, this`finished
      ensures State() == VoiceAgent.EndCleanup(old(State()))
    {
      ending := ending - 1;
      finished := true;
    }

    method EndCleanup()
      requires Valid() && ending > 0
      modifies this`ending, this`finished, this`events, this`states
      ensures Valid() && events == old(events) + [VoiceAgent.CleanupEnds]
      ensures State() == VoiceAgent.Apply(old(State()), VoiceAgent.CleanupEnds)
      ensures VoiceAgent.Sound(old(State()), State())
    {
      ghost var before := State();
      CleanupIsOver();
      Took(before, VoiceAgent.CleanupEnds);
    }

    /** Of the object, at any moment: its decision is the first one put to it, and it reported at most once. */
    lemma Concluded()
      requires Valid()
      ensures AgentEffects.Said(hasClient, events, decision)
      ensures |reports| <= 1 && (reports != [] ==> reports[0].decision == decision)
      ensures closing ==> !callDurationTimer && !customerSilenceTimer
    {
      VoiceAgent.TraceConcludes(hasClient, states, events);
      VoiceAgent.TraceEnds(hasClient, states, events);
      AgentEffects.DecisionIsWhatWasSaid(hasClient, events);
    }
  }
}
