/**
 * The bridge object. Each callback is proved equal to the step it stands for, so the object is always
 * the result of a run, and what is proved of runs holds of it.
 */
module AudioMediaBridge {
  import opened Options
  import opened Pcm
  import AudioBridge
  import AudioEffects
  import AudioTheorems

  class AudioMediaBridge {
    // outputSampleRate, outputFrameSize, outputPrebufferFrames and metricsIntervalMs
    const cfg: AudioBridge.Config
    var closed: bool
    var outputQueue: seq<Frame>
    var pendingOutputSamples: seq<Sample>
    var outputTimer: Option<real>
    var nextOutputAt: Option<real>
    var consecutiveSilenceFrames: nat
    var outputStarted: bool
    var outputTurnOpen: bool
    var drainWaiters: set<nat>
    var audioMetrics: AudioBridge.Metrics
    var lastMetricsAt: real
    ghost var clock: real
    ghost var past: AudioBridge.History
    // The bridge as it was built, and every callback since.
    ghost const start: AudioBridge.Bridge
    ghost var events: seq<AudioBridge.Event>

    ghost function State(): AudioBridge.Bridge
      reads this
    {
      AudioBridge.Bridge.Bridge(cfg, closed, outputQueue, pendingOutputSamples, outputTimer, nextOutputAt,
        consecutiveSilenceFrames, outputStarted, outputTurnOpen, drainWaiters, audioMetrics, lastMetricsAt, clock, past)
    }

    ghost predicate Valid()
      reads this
    {
      AudioBridge.IsNew(start) && AudioBridge.Run(start, events) && State() == AudioBridge.Exec(start, events)
    }

    // Below 50 Hz a frame would hold no sample, and the cutting loop would not end.
    constructor (outputSampleRate: real, outputBufferMs: real, metricsIntervalMs: real, now: real)
      requires AudioBridge.FrameSizeOf(outputSampleRate) >= 1
      ensures Valid() && events == []
      ensures State() == AudioBridge.Init(outputSampleRate, outputBufferMs, metricsIntervalMs, now)
    {
      cfg := AudioBridge.Config.Config(outputSampleRate, Round(outputSampleRate / 100.0),
        Max(0, AudioBridge.Ceil(outputBufferMs / 10.0)), metricsIntervalMs);
      closed, outputQueue, pendingOutputSamples, outputTimer, nextOutputAt := false, [], [], None, None;
      consecutiveSilenceFrames, outputStarted, outputTurnOpen, drainWaiters := 0, false, false, {};
      audioMetrics, lastMetricsAt, clock := AudioBridge.NO_METRICS, now, now;
      past := AudioBridge.History.History([], [], [], 0, 0);
      start := AudioBridge.Init(outputSampleRate, outputBufferMs, metricsIntervalMs, now);
      events := [];
      AudioBridge.InitIsNew(outputSampleRate, outputBufferMs, metricsIntervalMs, now);
    }

    // The fields are those of the step e after the state before: the run goes on.
    ghost method Took(before: AudioBridge.Bridge, e: AudioBridge.Event)
      requires AudioBridge.IsNew(start) && AudioBridge.Run(start, events) && before == AudioBridge.Exec(start, events)
      requires AudioBridge.OnTime(before, e) && State() == AudioBridge.Apply(before, e)
      modifies this`events
      ensures Valid() && events == old(events) + [e] && State() == old(State())
    {
      AudioTheorems.RunGoesOn(start, events, e);
      events := events + [e];
    }

    method ReportAudioMetrics(force: bool, now: real)
      modifies this`past, this`audioMetrics, this`lastMetricsAt
      ensures State() == AudioBridge.Report(old(State()), force, now)
    {
      if !force && now - lastMetricsAt < cfg.metricsInterval {
        return;
      }
      if audioMetrics.chunks == 0 && audioMetrics.outputFrames == 0 && audioMetrics.silenceFrames == 0 {
        lastMetricsAt := now;
        return;
      }
      past := past.(reports := past.reports + [audioMetrics]);
      audioMetrics := AudioBridge.NO_METRICS;
      lastMetricsAt := now;
    }

    method ResolveDrainedIfReady()
      modifies this`drainWaiters
      ensures State() == AudioBridge.ResolveDrained(old(State()))
    {
      if outputTimer.Some? || outputQueue != [] || pendingOutputSamples != [] {
        return;
      }
      drainWaiters := {};
    }

    // source.onData, then the timer for the next frame.
    method SendFrame(frame: Frame, silent: bool, t: AudioBridge.Readings)
      requires nextOutputAt.Some?
      modifies this`past, this`nextOutputAt, this`outputTimer
      ensures var next := old(nextOutputAt).value + 10.0;
        State() == old(State()).(
          past := old(past).(log := old(past).log + [AudioBridge.Emission.Emission(t.a, frame, silent)]),
          nextAt := Some(next), timer := Some(if t.b < next then next else t.b))
    {
      past := past.(log := past.log + [AudioBridge.Emission.Emission(t.a, frame, silent)]);
      nextOutputAt := Some(nextOutputAt.value + 10.0);
      var delay := if nextOutputAt.value - t.b > 0.0 then nextOutputAt.value - t.b else 0.0;
      outputTimer := Some(t.b + delay);
    }

    method PumpOutput(force: bool, t: AudioBridge.Readings)
      modifies this`drainWaiters, this`outputQueue, this`outputStarted, this`consecutiveSilenceFrames,
               this`nextOutputAt, this`outputTimer, this`audioMetrics, this`lastMetricsAt,
               this`past
      ensures State() == AudioBridge.Pump(old(State()), force, t)
    {
      if closed || outputTimer.Some? {
        return;
      }
      if !outputStarted && !force && |outputQueue| < cfg.prebuffer {
        ResolveDrainedIfReady();
        return;
      }
      if outputQueue == [] {
        if outputStarted && outputTurnOpen && consecutiveSilenceFrames < 50 {
          SendSilence(t);
          return;
        }
        nextOutputAt := None;
        if !outputTurnOpen {
          outputStarted := false;
          ResolveDrainedIfReady();
        }
        return;
      }
      SendNext(t);
      ReportAudioMetrics(false, t.c);
    }

    method SendSilence(t: AudioBridge.Readings)
      modifies this`consecutiveSilenceFrames, this`nextOutputAt, this`outputTimer, this`audioMetrics,
               this`past
      ensures State() == AudioBridge.SendSilence(old(State()), t)
    {
      consecutiveSilenceFrames := consecutiveSilenceFrames + 1;
      AnchorSchedule(t);
      audioMetrics := audioMetrics.(silenceFrames := audioMetrics.silenceFrames + 1);
      past := past.(silentTotal := past.silentTotal + 1);
      SendFrame(Zeros(cfg.frameSize), true, t);
    }

    method SendNext(t: AudioBridge.Readings)
      requires outputQueue != []
      modifies this`consecutiveSilenceFrames, this`outputStarted, this`outputQueue, this`nextOutputAt,
               this`outputTimer, this`audioMetrics, this`past
      ensures State() == AudioBridge.SendReal(old(State()), t)
    {
      var frame := TakeHead(t);
      SendFrame(frame, false, t);
    }

    method AnchorSchedule(t: AudioBridge.Readings)
      modifies this`nextOutputAt
      ensures nextOutputAt == Some(AudioBridge.Anchor(old(State()), t.a))
    {
      if nextOutputAt.None? || t.a - nextOutputAt.value > 40.0 {
        nextOutputAt := Some(t.a);
      }
    }

    // The head of the queue leaves, its schedule anchored afresh when more than 40 ms late.
    method TakeHead(t: AudioBridge.Readings) returns (frame: Frame)
      requires outputQueue != []
      modifies this`consecutiveSilenceFrames, this`outputStarted, this`outputQueue, this`nextOutputAt,
               this`audioMetrics, this`past
      ensures frame == old(outputQueue)[0]
      ensures State() == AudioBridge.TakeHead(old(State()), t).(nextAt := Some(AudioBridge.Anchor(old(State()), t.a)))
    {
      frame := outputQueue[0];
      AnchorSchedule(t);
      var lateness := if t.a - nextOutputAt.value > 0.0 then t.a - nextOutputAt.value else 0.0;
      CountFrame(lateness);
      Shift();
    }

    method CountFrame(lateness: real)
      modifies this`audioMetrics, this`past
      ensures audioMetrics == AudioBridge.Late(old(audioMetrics), lateness).(outputFrames := old(audioMetrics).outputFrames + 1)
      ensures past == old(past).(realTotal := old(past).realTotal + 1)
    {
      RecordLateness(lateness);
      audioMetrics := audioMetrics.(outputFrames := audioMetrics.outputFrames + 1);
      past := past.(realTotal := past.realTotal + 1);
    }

    method Shift()
      requires outputQueue != []
      modifies this`consecutiveSilenceFrames, this`outputStarted, this`outputQueue
      ensures outputQueue == old(outputQueue)[1..] && outputStarted && consecutiveSilenceFrames == 0
    {
      consecutiveSilenceFrames := 0;
      outputStarted := true;
      outputQueue := outputQueue[1..];
    }

    method RecordLateness(lateness: real)
      modifies this`audioMetrics
      ensures audioMetrics == AudioBridge.Late(old(audioMetrics), lateness)
    {
      if lateness > 2.0 {
        audioMetrics := audioMetrics.(
          lateFrames := audioMetrics.lateFrames + 1,
          totalLateness := audioMetrics.totalLateness + lateness,
          maxLateness := if audioMetrics.maxLateness < lateness then lateness else audioMetrics.maxLateness);
      }
    }

    // The frame-cutting loop: whole frames are queued, the rest is kept for the next chunk.
    method CutFrames(samples: seq<Sample>)
      requires cfg.frameSize >= 1
      modifies this`outputQueue, this`pendingOutputSamples
      ensures outputQueue == old(outputQueue) + AudioBridge.FullFrames(samples, cfg.frameSize)
      ensures pendingOutputSamples == AudioBridge.Rest(samples, cfg.frameSize)
    {
      var offset := 0;
      while offset + cfg.frameSize <= |samples|
        invariant 0 <= offset <= |samples|
        invariant outputQueue + AudioBridge.FullFrames(samples[offset..], cfg.frameSize)
               == old(outputQueue) + AudioBridge.FullFrames(samples, cfg.frameSize)
        invariant AudioBridge.Rest(samples[offset..], cfg.frameSize) == AudioBridge.Rest(samples, cfg.frameSize)
        decreases |samples| - offset
      {
        ghost var rest := samples[offset..];
        assert rest[..cfg.frameSize] == samples[offset..offset + cfg.frameSize];
        assert rest[cfg.frameSize..] == samples[offset + cfg.frameSize..];
        outputQueue := outputQueue + [samples[offset..offset + cfg.frameSize]];
        offset := offset + cfg.frameSize;
      }
      pendingOutputSamples := samples[offset..];
      assert outputQueue + [] == outputQueue;
    }

    // One chunk of speech; false when it throws part of the way.
    method TakeChunk(bytes: seq<Byte>, sampleRate: real, t: AudioBridge.Readings) returns (ok: bool)
      requires AudioBridge.Sized(State())
      modifies this`outputTurnOpen, this`consecutiveSilenceFrames, this`audioMetrics, this`past, this`outputQueue,
               this`pendingOutputSamples, this`drainWaiters, this`outputStarted, this`nextOutputAt, this`outputTimer,
               this`lastMetricsAt
      ensures State() == AudioBridge.EnqueueStep(old(State()), bytes, sampleRate, t)
      ensures ok <==> old(closed) || bytes == [] || (|bytes| % 2 == 0 && sampleRate > 0.0)
    {
      if closed || bytes == [] {
        return true;
      }
      outputTurnOpen := true;
      consecutiveSilenceFrames := 0;
      var sourcePcm := BufferToInt16(bytes);
      if sourcePcm.None? {
        return false;
      }
      audioMetrics := audioMetrics.(chunks := audioMetrics.chunks + 1);
      var webRtcPcm := ResamplePcm16(sourcePcm.value, sampleRate, cfg.outputRate);
      if webRtcPcm.None? {
        return false;
      }
      past := past.(fed := past.fed + webRtcPcm.value);
      CutFrames(pendingOutputSamples + webRtcPcm.value);
      assert State() == AudioBridge.TakeIn(AudioBridge.OpenTurn(old(State())), webRtcPcm.value);
      PumpOutput(false, t);
      ReportAudioMetrics(false, t.d);
      ok := true;
    }

    /** One chunk: the frames it completes are queued, the rest is kept, and the output pumped. */
    method EnqueueGeminiAudio(bytes: seq<Byte>, sampleRate: real, t: AudioBridge.Readings) returns (ok: bool)
      requires Valid() && AudioBridge.OnTime(State(), AudioBridge.Enqueue(bytes, sampleRate, t))
      modifies this
      ensures Valid() && events == old(events) + [AudioBridge.Enqueue(bytes, sampleRate, t)]
      ensures State() == AudioBridge.Apply(old(State()), AudioBridge.Enqueue(bytes, sampleRate, t))
      ensures ok <==> old(closed) || bytes == [] || (|bytes| % 2 == 0 && sampleRate > 0.0)
      ensures !old(closed) && bytes != [] ==> outputTurnOpen
    {
      ghost var before := State();
      AudioTheorems.RunIsSized(start, events);
      if !closed && bytes != [] {
        AudioEffects.ChunkOpensTurn(before, bytes, sampleRate, t);
      }
      ok := TakeChunk(bytes, sampleRate, t);
      clock := t.d;
      Took(before, AudioBridge.Enqueue(bytes, sampleRate, t));
    }

    method PadAndPump(t: AudioBridge.Readings)
      requires AudioBridge.Sized(State())
      modifies this`outputTurnOpen, this`consecutiveSilenceFrames, this`audioMetrics, this`past, this`outputQueue,
               this`pendingOutputSamples, this`drainWaiters, this`outputStarted, this`nextOutputAt, this`outputTimer,
               this`lastMetricsAt
      ensures State() == AudioBridge.FlushStep(old(State()), t)
    {
      if closed {
        return;
      }
      if pendingOutputSamples != [] {
        var samples := pendingOutputSamples + Zeros(cfg.frameSize - |pendingOutputSamples|);
        outputQueue := outputQueue + [samples];
        past := past.(fed := past.fed + Zeros(cfg.frameSize - |pendingOutputSamples|));
        pendingOutputSamples := [];
      }
      outputTurnOpen := false;
      assert State() == AudioBridge.PadOut(old(State())).(turnOpen := false);
      PumpOutput(true, t);
    }

    /** The end of a turn: from here the output drains. */
    method FlushOutput(t: AudioBridge.Readings)
      requires Valid() && AudioBridge.OnTime(State(), AudioBridge.Flush(t))
      modifies this
      ensures Valid() && events == old(events) + [AudioBridge.Flush(t)]
      ensures State() == AudioBridge.Apply(old(State()), AudioBridge.Flush(t))
      ensures !closed ==> AudioTheorems.Draining(State())
    {
      ghost var before := State();
      AudioTheorems.RunIsSized(start, events);
      PadAndPump(t);
      clock := t.d;
      if !before.closed {
        AudioTheorems.FlushDrains(before, t);
      }
      Took(before, AudioBridge.Flush(t));
    }

    /** The timer's callback; while the output drains it sends the next frame or, at the end, releases every waiter. */
    method OnOutputTimer(t: AudioBridge.Readings)
      requires Valid() && AudioBridge.OnTime(State(), AudioBridge.Fire(t))
      modifies this
      ensures Valid() && events == old(events) + [AudioBridge.Fire(t)]
      ensures State() == AudioBridge.Apply(old(State()), AudioBridge.Fire(t))
      ensures
        if old(outputQueue) != [] then AudioEffects.SendsHead(old(State()), State(), t)
        else if old(outputTurnOpen) && old(consecutiveSilenceFrames) < 50
        then AudioEffects.SendsSilence(old(State()), State(), t)
        else AudioEffects.Pauses(old(State()), State())
      ensures AudioTheorems.Draining(old(State())) ==>
        if old(outputQueue) != [] then outputTimer.Some? && outputQueue == old(outputQueue)[1..]
        else outputTimer.None? && drainWaiters == {}
    {
      ghost var before := State();
      AudioTheorems.RunIsSized(start, events);
      AudioEffects.FiringEffect(before, t);
      outputTimer := None;
      PumpOutput(false, t);
      clock := t.d;
      if AudioTheorems.Draining(before) {
        AudioTheorems.DrainFire(before, t);
      }
      Took(before, AudioBridge.Fire(t));
    }

    /** True when the promise is resolved at once. */
    method WaitForOutputDrain(waiter: nat) returns (drained: bool)
      requires Valid()
      modifies this
      ensures Valid() && events == old(events) + [AudioBridge.Wait(waiter)]
      ensures State() == AudioBridge.Apply(old(State()), AudioBridge.Wait(waiter))
      ensures drained <==> outputTimer.None? && outputQueue == [] && pendingOutputSamples == []
      ensures !drained ==> waiter in drainWaiters
    {
      ghost var before := State();
      AudioTheorems.RunIsSized(start, events);
      drained := outputTimer.None? && outputQueue == [] && pendingOutputSamples == [];
      if !drained {
        drainWaiters := drainWaiters + {waiter};
      }
      Took(before, AudioBridge.Wait(waiter));
    }

    method ClearQueue()
      modifies this`outputQueue, this`pendingOutputSamples, this`past
      ensures outputQueue == [] && pendingOutputSamples == [] && past == old(past).(log := [], fed := [])
    {
      outputQueue := [];
      pendingOutputSamples := [];
      past := past.(log := [], fed := []);
    }

    method ClearSchedule()
      modifies this`outputTimer, this`nextOutputAt, this`outputStarted, this`outputTurnOpen, this`consecutiveSilenceFrames
      ensures outputTimer.None? && nextOutputAt.None? && !outputStarted && !outputTurnOpen && consecutiveSilenceFrames == 0
    {
      outputTimer := None;
      nextOutputAt := None;
      outputStarted := false;
      outputTurnOpen := false;
      consecutiveSilenceFrames := 0;
    }

    method StopAll()
      modifies this`outputTimer, this`nextOutputAt, this`outputQueue, this`pendingOutputSamples, this`outputStarted,
               this`outputTurnOpen, this`consecutiveSilenceFrames, this`drainWaiters, this`past
      ensures State() == AudioBridge.StopStep(old(State()))
      ensures outputTimer.None? && outputQueue == [] && pendingOutputSamples == [] && drainWaiters == {}
    {
      ClearSchedule();
      ClearQueue();
      ResolveDrainedIfReady();
    }

    /** Stopping empties the output, clears the timer and releases every waiter. */
    method StopOutput()
      requires Valid()
      modifies this
      ensures Valid() && events == old(events) + [AudioBridge.Stop]
      ensures State() == AudioBridge.Apply(old(State()), AudioBridge.Stop)
      ensures outputTimer.None? && outputQueue == [] && pendingOutputSamples == [] && drainWaiters == {}
    {
      ghost var before := State();
      AudioTheorems.RunIsSized(start, events);
      StopAll();
      Took(before, AudioBridge.Stop);
    }

    method CloseOnce(t: AudioBridge.Readings)
      modifies this`outputTimer, this`nextOutputAt, this`outputQueue, this`pendingOutputSamples, this`outputStarted,
               this`outputTurnOpen, this`consecutiveSilenceFrames, this`drainWaiters, this`past, this`audioMetrics,
               this`lastMetricsAt, this`closed
      ensures State() == AudioBridge.CloseStep(old(State()), t) && closed
    {
      if closed {
        return;
      }
      ReportAudioMetrics(true, t.a);
      closed := true;
      StopAll();
    }

    /** Closing reports, stops the output and refuses later input. */
    method Close(t: AudioBridge.Readings)
      requires Valid() && AudioBridge.OnTime(State(), AudioBridge.Event.Close(t))
      modifies this
      ensures Valid() && closed && events == old(events) + [AudioBridge.Event.Close(t)]
      ensures State() == AudioBridge.Apply(old(State()), AudioBridge.Event.Close(t))
    {
      ghost var before := State();
      AudioTheorems.RunIsSized(start, events);
      CloseOnce(t);
      clock := t.d;
      Took(before, AudioBridge.Event.Close(t));
    }

    /** Of the object, at any moment: since the last stop no sample is lost, invented or moved. */
    lemma Conserved()
      requires Valid()
      ensures cfg == start.cfg && cfg.frameSize >= 1 && cfg.outputRate > 0.0
      ensures Flatten(AudioTheorems.RealFrames(past.log) + outputQueue) + pendingOutputSamples
        == AudioTheorems.Input(events, cfg.outputRate, cfg.frameSize)
      ensures |pendingOutputSamples| < cfg.frameSize
    {
      AudioTheorems.FedIsInput(start, events);
      AudioTheorems.AudioIsConserved(start, events);
    }

    /** ... and frame k left no earlier than 10k ms after the first. */
    lemma Paced(k: nat)
      requires Valid() && k < |past.log|
      ensures past.log[k].at >= past.log[0].at + 10.0 * k as real && audioMetrics.maxLateness <= 40.0
    {
      AudioTheorems.FramesArePaced(start, events, k, k);
    }
  }
}
