/** Conservation, pacing, silence and drain progress of the audio output, over every run. */
module AudioTheorems {
  import opened Options
  import opened Pcm
  import opened AudioBridge

  function RealFrames(log: seq<Emission>): seq<Frame> {
    if log == [] then []
    else RealFrames(log[..|log| - 1]) + (if log[|log| - 1].silent then [] else [log[|log| - 1].frame])
  }

  // ---------------------------------------------------------------- conservation

  ghost predicate Whole(frames: seq<Frame>, size: nat) {
    forall i :: 0 <= i < |frames| ==> |frames[i]| == size
  }

  ghost predicate Conserves(b: Bridge) {
    && Sized(b)
    && Whole(b.queue, b.cfg.frameSize)
    && (forall i :: 0 <= i < |b.past.log| ==> |b.past.log[i].frame| == b.cfg.frameSize)
    && Flatten(RealFrames(b.past.log) + b.queue) + b.pending == b.past.fed
  }

  lemma RealSnoc(log: seq<Emission>, e: Emission)
    ensures RealFrames(log + [e]) == RealFrames(log) + (if e.silent then [] else [e.frame])
  {
    assert (log + [e])[..|log|] == log;
  }

  lemma SendConserves(b: Bridge, silent: bool, t: Readings)
    requires Conserves(b) && (!silent ==> b.queue != [])
    ensures Conserves(if silent then SendSilence(b, t) else SendReal(b, t))
  {
    if silent {
      RealSnoc(b.past.log, Emission(t.a, Zeros(b.cfg.frameSize), true));
      assert RealFrames(b.past.log) + [] == RealFrames(b.past.log);
    } else {
      RealSnoc(b.past.log, Emission(t.a, b.queue[0], false));
      assert RealFrames(b.past.log) + b.queue == RealFrames(b.past.log) + [b.queue[0]] + b.queue[1..];
    }
  }

  lemma PumpConserves(b: Bridge, force: bool, t: Readings)
    requires Conserves(b)
    ensures Conserves(Pump(b, force, t))
  {
    SendConserves(b, true, t);
    if b.queue != [] { SendConserves(b, false, t); }
  }

  lemma AppendConserves(sent: seq<Frame>, pending: seq<Sample>, fed: seq<Sample>, more: seq<Sample>, size: nat)
    requires size >= 1 && Flatten(sent) + pending == fed
    ensures Flatten(sent + FullFrames(pending + more, size)) + Rest(pending + more, size) == fed + more
  {
    var frames, rest := FullFrames(pending + more, size), Rest(pending + more, size);
    CuttingConserves(pending + more, size);
    FlattenAppend(sent, frames);
    Associate(Flatten(sent), Flatten(frames), rest);
    Associate(Flatten(sent), pending, more);
  }

  lemma TakeInConserves(b: Bridge, samples: seq<Sample>)
    requires Conserves(b)
    ensures Conserves(TakeIn(b, samples))
  {
    var frames := FullFrames(b.pending + samples, b.cfg.frameSize);
    CuttingConserves(b.pending + samples, b.cfg.frameSize);
    AppendConserves(RealFrames(b.past.log) + b.queue, b.pending, b.past.fed, samples, b.cfg.frameSize);
    assert RealFrames(b.past.log) + (b.queue + frames) == RealFrames(b.past.log) + b.queue + frames;
  }

  lemma PadOutConserves(b: Bridge)
    requires Conserves(b)
    ensures Conserves(PadOut(b)) && PadOut(b).pending == []
  {
    if b.pending != [] {
      var before := RealFrames(b.past.log) + b.queue;
      FlattenSnoc(before, Padded(b.pending, b.cfg.frameSize));
      assert RealFrames(b.past.log) + (b.queue + [Padded(b.pending, b.cfg.frameSize)]) == before + [Padded(b.pending, b.cfg.frameSize)];
    }
  }

  lemma EnqueueConserves(b: Bridge, bytes: seq<Byte>, rate: real, t: Readings)
    requires Conserves(b)
    ensures Conserves(EnqueueStep(b, bytes, rate, t))
  {
    if !b.closed && bytes != [] && |bytes| % 2 == 0 && rate > 0.0 {
      var samples := Resampled(FromBytes(bytes), rate, b.cfg.outputRate);
      TakeInConserves(OpenTurn(b), samples);
      PumpConserves(TakeIn(OpenTurn(b), samples), false, t);
    }
  }

  lemma FlushConserves(b: Bridge, t: Readings)
    requires Conserves(b)
    ensures Conserves(FlushStep(b, t))
  {
    PadOutConserves(b);
    PumpConserves(PadOut(b).(turnOpen := false), true, t);
  }

  lemma CloseConserves(b: Bridge, t: Readings)
    requires Conserves(b)
    ensures Conserves(CloseStep(b, t))
  {
    Emptied(Report(b, true, t.a).(closed := true));
  }

  /** No step loses, repeats or reorders a sample. */
  lemma StepConserves(b: Bridge, e: Event)
    requires Conserves(b)
    ensures Conserves(Apply(b, e))
  {
    match e
    case Enqueue(bytes, rate, t) => EnqueueConserves(b, bytes, rate, t);
    case Flush(t) => FlushConserves(b, t);
    case Fire(t) => PumpConserves(b.(timer := None), false, t);
    case Wait(waiter) =>
    case Stop => Emptied(b);
    case Close(t) => CloseConserves(b, t);
  }

  lemma Emptied(b: Bridge)
    requires Sized(b)
    ensures Conserves(StopStep(b))
  {
    assert RealFrames([]) + [] == [];
  }

  // ---------------------------------------------------------------- pacing

  // The earliest moment anything more can be sent.
  function Horizon(b: Bridge): real { if b.nextAt.Some? then b.nextAt.value else b.clock }

  ghost predicate Paced(log: seq<Emission>, horizon: real) {
    && (log != [] ==> horizon >= log[0].at + FRAME_MS * |log| as real)
    && (forall i :: 0 <= i < |log| ==> horizon >= log[i].at + FRAME_MS * (|log| - i) as real - REANCHOR_MS)
    && (forall j :: 0 <= j < |log| ==> log[j].at >= log[0].at + FRAME_MS * j as real)
    && (forall i, j :: 0 <= i < j < |log| ==> log[j].at >= log[i].at + FRAME_MS * (j - i) as real - REANCHOR_MS)
  }

  ghost predicate Timed(b: Bridge) {
    && Paced(b.past.log, Horizon(b))
    && (b.timer.None? || b.past.log == [] ==> b.nextAt.None?)
    && (b.timer.Some? ==> b.nextAt.Some? && b.timer.value >= b.nextAt.value && b.started && !b.closed)
  }

  lemma LaterHorizon(log: seq<Emission>, h: real, h': real)
    requires Paced(log, h) && h <= h'
    ensures Paced(log, h')
  {
  }

  lemma PacedSend(log: seq<Emission>, h: real, e: Emission, anchor: real)
    requires Paced(log, h) && h <= anchor <= e.at <= anchor + REANCHOR_MS
    requires log == [] ==> anchor == e.at
    ensures Paced(log + [e], anchor + FRAME_MS)
  {
    var log', h' := log + [e], anchor + FRAME_MS;
    var n := |log|;
    forall i | 0 <= i < n + 1 ensures h' >= log'[i].at + FRAME_MS * (n + 1 - i) as real - REANCHOR_MS {
      if i < n {
        assert h >= log[i].at + FRAME_MS * (n - i) as real - REANCHOR_MS;
      }
    }
    forall i, j | 0 <= i < j < n + 1 ensures log'[j].at >= log'[i].at + FRAME_MS * (j - i) as real - REANCHOR_MS {
      if j == n {
        assert h >= log[i].at + FRAME_MS * (n - i) as real - REANCHOR_MS;
      }
    }
    forall j | 0 <= j < n + 1 ensures log'[j].at >= log'[0].at + FRAME_MS * j as real {
      if j < n {
        assert log[j].at >= log[0].at + FRAME_MS * j as real;
      }
    }
  }

  // Nothing is scheduled, or the timer that was has just fired.
  ghost predicate Idle(b: Bridge, now: real) {
    && b.timer.None? && Paced(b.past.log, Horizon(b)) && Horizon(b) <= now && b.clock <= now
    && (b.past.log == [] ==> b.nextAt.None?)
  }

  lemma SendTimed(b: Bridge, silent: bool, t: Readings)
    requires Idle(b, t.a) && t.a <= t.b && !b.closed && (silent ==> b.started) && (!silent ==> b.queue != [])
    ensures Timed(if silent then SendSilence(b, t) else SendReal(b, t))
  {
    var frame := if silent then Zeros(b.cfg.frameSize) else b.queue[0];
    PacedSend(b.past.log, Horizon(b), Emission(t.a, frame, silent), Anchor(b, t.a));
  }

  lemma ClockTimed(b: Bridge, c: Bridge)
    requires Timed(b) && b.clock <= c.clock
    requires c.past.log == b.past.log && c.timer == b.timer && c.nextAt == b.nextAt && c.started == b.started && c.closed == b.closed
    ensures Timed(c)
  {
    if b.nextAt.None? { LaterHorizon(b.past.log, Horizon(b), Horizon(c)); }
  }

  lemma ReportTimed(b: Bridge, now: real, later: real)
    requires Timed(b) && b.clock <= later
    ensures Timed(Report(b, false, now).(clock := later))
  {
    ClockTimed(b, Report(b, false, now).(clock := later));
  }

  lemma ReportCommutes(b: Bridge, now: real)
    ensures Report(b, false, now).(clock := now) == Report(b.(clock := now), false, now).(clock := now)
  {
  }

  lemma SpokenTimed(b: Bridge, t: Readings, later: real)
    requires Idle(b, t.a) && t.a <= t.b && t.a <= later && !b.closed && b.queue != []
    ensures Timed(Report(SendReal(b, t), false, t.c).(clock := later))
  {
    SendTimed(b, false, t);
    ReportTimed(SendReal(b, t), t.c, later);
  }

  lemma SilentTimed(b: Bridge, t: Readings, later: real)
    requires Idle(b, t.a) && t.a <= t.b && t.a <= later && !b.closed && b.started
    ensures Timed(SendSilence(b, t).(clock := later))
  {
    SendTimed(b, true, t);
    ClockTimed(SendSilence(b, t), SendSilence(b, t).(clock := later));
  }

  lemma RestTimed(b: Bridge, now: real, later: real)
    requires Idle(b, now) && now <= later
    ensures Timed(Rests(b).(clock := later))
  {
    LaterHorizon(b.past.log, Horizon(b), later);
  }

  lemma HeldTimed(b: Bridge, later: real)
    requires Timed(b) && b.clock <= later
    ensures Timed(b.(clock := later)) && Timed(ResolveDrained(b).(clock := later))
  {
    ClockTimed(b, b.(clock := later));
    ClockTimed(b, ResolveDrained(b).(clock := later));
  }

  // The branches of the pump that send or rest.
  lemma IdlePumpTimed(b: Bridge, t: Readings, later: real)
    requires Idle(b, t.a) && t.a <= t.b && t.a <= later && !b.closed
    ensures b.queue != [] ==> Timed(Report(SendReal(b, t), false, t.c).(clock := later))
    ensures b.started ==> Timed(SendSilence(b, t).(clock := later))
    ensures Timed(Rests(b).(clock := later))
  {
    if b.queue != [] { SpokenTimed(b, t, later); }
    if b.started { SilentTimed(b, t, later); }
    RestTimed(b, t.a, later);
  }

  lemma PumpTimed(b: Bridge, force: bool, t: Readings, later: real)
    requires Timed(b) || (Idle(b, t.a) && b.started && !b.closed)
    requires b.clock <= t.a <= t.b && t.a <= later
    ensures Timed(Pump(b, force, t).(clock := later))
  {
    if Timed(b) { HeldTimed(b, later); }
    if !b.closed && b.timer.None? { IdlePumpTimed(b, t, later); }
  }

  lemma EnqueueTimed(b: Bridge, bytes: seq<Byte>, rate: real, t: Readings)
    requires Sized(b) && Timed(b) && Ordered(b, t)
    ensures Timed(EnqueueStep(b, bytes, rate, t).(clock := t.d))
  {
    if !b.closed && bytes != [] && |bytes| % 2 == 0 && rate > 0.0 {
      var c := TakeIn(OpenTurn(b), Resampled(FromBytes(bytes), rate, b.cfg.outputRate));
      PumpTimed(c, false, t, t.d);
      ReportCommutes(Pump(c, false, t), t.d);
      ReportTimed(Pump(c, false, t).(clock := t.d), t.d, t.d);
    } else {
      ClockTimed(b, EnqueueStep(b, bytes, rate, t).(clock := t.d));
    }
  }

  lemma FlushTimed(b: Bridge, t: Readings)
    requires Sized(b) && Timed(b) && Ordered(b, t)
    ensures Timed(FlushStep(b, t).(clock := t.d))
  {
    if b.closed {
      ClockTimed(b, b.(clock := t.d));
    } else {
      PumpTimed(PadOut(b).(turnOpen := false), true, t, t.d);
    }
  }

  lemma StepTimed(b: Bridge, e: Event)
    requires Sized(b) && Timed(b) && OnTime(b, e)
    ensures Timed(Apply(b, e))
  {
    match e
    case Enqueue(bytes, rate, t) => EnqueueTimed(b, bytes, rate, t);
    case Flush(t) => FlushTimed(b, t);
    case Fire(t) => PumpTimed(b.(timer := None), false, t, t.d);
    case Wait(waiter) => ClockTimed(b, Apply(b, e));
    case Stop =>
    case Close(t) => if b.closed { ClockTimed(b, b.(clock := t.d)); }
  }

  // ---------------------------------------------------------------- silence

  ghost predicate Quieted(b: Bridge) {
    && b.silence <= MAX_SILENCE
    && (b.turnOpen && b.queue != [] ==> b.silence == 0)
  }

  // The silence frames sent so far and those the open turn may still send.
  function Allowance(b: Bridge): int { b.past.silentTotal + (if b.turnOpen then MAX_SILENCE - b.silence else 0) }

  lemma PumpQuieted(b: Bridge, force: bool, t: Readings)
    requires Quieted(b)
    ensures Quieted(Pump(b, force, t))
    ensures Pump(b, force, t).turnOpen == b.turnOpen && Allowance(Pump(b, force, t)) <= Allowance(b)
    ensures Pump(b, force, t).past.silentTotal ==
      if !b.closed && b.timer.None? && b.started && b.turnOpen && b.queue == [] && b.silence < MAX_SILENCE
      then b.past.silentTotal + 1 else b.past.silentTotal
  {
  }

  lemma EnqueueQuieted(b: Bridge, bytes: seq<Byte>, rate: real, t: Readings)
    requires Sized(b) && Quieted(b)
    ensures Quieted(EnqueueStep(b, bytes, rate, t))
    ensures Allowance(EnqueueStep(b, bytes, rate, t)) <= Max(Allowance(b), b.past.silentTotal + MAX_SILENCE)
  {
    if !b.closed && bytes != [] && |bytes| % 2 == 0 && rate > 0.0 {
      PumpQuieted(TakeIn(OpenTurn(b), Resampled(FromBytes(bytes), rate, b.cfg.outputRate)), false, t);
    }
  }

  lemma StepQuieted(b: Bridge, e: Event)
    requires Sized(b) && Quieted(b)
    ensures Quieted(Apply(b, e))
    ensures Allowance(Apply(b, e)) <= (if e.Enqueue? then b.past.silentTotal + MAX_SILENCE else Allowance(b))
  {
    match e
    case Enqueue(bytes, rate, t) => EnqueueQuieted(b, bytes, rate, t);
    case Flush(t) => PumpQuieted(PadOut(b).(turnOpen := false), true, t);
    case Fire(t) => PumpQuieted(b.(timer := None), false, t);
    case Wait(waiter) =>
    case Stop =>
    case Close(t) =>
  }

  /** Only a firing timer or a chunk can send silence: one frame, while the turn is open. */
  lemma SilenceOnlyInOpenTurn(b: Bridge, e: Event)
    requires Sized(b) && Quieted(b)
    ensures Apply(b, e).past.silentTotal <= b.past.silentTotal + 1
    ensures Apply(b, e).past.silentTotal > b.past.silentTotal ==> Apply(b, e).turnOpen && (e.Enqueue? || e.Fire?)
  {
    match e
    case Enqueue(bytes, rate, t) =>
      if !b.closed && bytes != [] && |bytes| % 2 == 0 && rate > 0.0 {
        var c := TakeIn(OpenTurn(b), Resampled(FromBytes(bytes), rate, b.cfg.outputRate));
        PumpQuieted(c, false, t);
        assert Pump(c, false, t).turnOpen;
      }
    case Flush(t) => PumpQuieted(PadOut(b).(turnOpen := false), true, t);
    case Fire(t) => PumpQuieted(b.(timer := None), false, t);
    case Wait(waiter) =>
    case Stop =>
    case Close(t) =>
  }

  // ---------------------------------------------------------------- metrics

  ghost predicate MetricsOk(m: Metrics) {
    && m.lateFrames <= m.outputFrames
    && 0.0 <= m.totalLateness <= REANCHOR_MS * m.lateFrames as real
    && 0.0 <= m.maxLateness <= REANCHOR_MS
  }

  function RealIn(reports: seq<Metrics>): nat {
    if reports == [] then 0 else RealIn(reports[..|reports| - 1]) + reports[|reports| - 1].outputFrames
  }

  function SilentIn(reports: seq<Metrics>): nat {
    if reports == [] then 0 else SilentIn(reports[..|reports| - 1]) + reports[|reports| - 1].silenceFrames
  }

  // No report overstates lateness, and every frame sent is counted in exactly one report or is still
  // to be reported.
  ghost predicate Counted(b: Bridge) {
    && MetricsOk(b.metrics) && (forall i :: 0 <= i < |b.past.reports| ==> MetricsOk(b.past.reports[i]))
    && b.past.realTotal == RealIn(b.past.reports) + b.metrics.outputFrames
    && b.past.silentTotal == SilentIn(b.past.reports) + b.metrics.silenceFrames
  }

  lemma ReportCounted(b: Bridge, force: bool, now: real)
    requires Counted(b)
    ensures Counted(Report(b, force, now))
  {
    assert (b.past.reports + [b.metrics])[..|b.past.reports|] == b.past.reports;
  }

  lemma SendRealCounted(b: Bridge, t: Readings)
    requires Counted(b) && b.queue != []
    ensures Counted(SendReal(b, t))
  {
  }

  lemma PumpCounted(b: Bridge, force: bool, t: Readings)
    requires Counted(b)
    ensures Counted(Pump(b, force, t))
  {
    if b.queue != [] {
      SendRealCounted(b, t);
      ReportCounted(SendReal(b, t), false, t.c);
    }
  }

  lemma EnqueueCounted(b: Bridge, bytes: seq<Byte>, rate: real, t: Readings)
    requires Sized(b) && Counted(b)
    ensures Counted(EnqueueStep(b, bytes, rate, t))
  {
    if !b.closed && bytes != [] && |bytes| % 2 == 0 && rate > 0.0 {
      var c := TakeIn(OpenTurn(b), Resampled(FromBytes(bytes), rate, b.cfg.outputRate));
      PumpCounted(c, false, t);
      ReportCounted(Pump(c, false, t), false, t.d);
    }
  }

  // Nothing but the record of the frames and the metrics decides the count.
  lemma SameCounted(b: Bridge, c: Bridge)
    requires Counted(b) && c.metrics == b.metrics && c.past.reports == b.past.reports
    requires c.past.realTotal == b.past.realTotal && c.past.silentTotal == b.past.silentTotal
    ensures Counted(c)
  {
  }

  lemma FlushCounted(b: Bridge, t: Readings)
    requires Sized(b) && Counted(b)
    ensures Counted(FlushStep(b, t))
  {
    SameCounted(b, PadOut(b).(turnOpen := false));
    PumpCounted(PadOut(b).(turnOpen := false), true, t);
  }

  lemma StopCounted(b: Bridge)
    requires Counted(b)
    ensures Counted(StopStep(b))
  {
    SameCounted(b, StopStep(b));
  }

  lemma CloseCounted(b: Bridge, t: Readings)
    requires Counted(b)
    ensures Counted(CloseStep(b, t))
  {
    ReportCounted(b, true, t.a);
    SameCounted(Report(b, true, t.a), Report(b, true, t.a).(closed := true));
    StopCounted(Report(b, true, t.a).(closed := true));
  }

  // What the step makes of the record before the clock moves on.
  lemma TimeCounted(b: Bridge, now: real)
    requires Counted(b)
    ensures Counted(b.(clock := now))
  {
    SameCounted(b, b.(clock := now));
  }

  lemma StepCounted(b: Bridge, e: Event)
    requires Sized(b) && Counted(b)
    ensures Counted(Apply(b, e))
  {
    match e
    case Enqueue(bytes, rate, t) =>
      EnqueueCounted(b, bytes, rate, t);
      TimeCounted(EnqueueStep(b, bytes, rate, t), t.d);
    case Flush(t) =>
      FlushCounted(b, t);
      TimeCounted(FlushStep(b, t), t.d);
    case Fire(t) =>
      SameCounted(b, b.(timer := None));
      PumpCounted(b.(timer := None), false, t);
      TimeCounted(Pump(b.(timer := None), false, t), t.d);
    case Wait(waiter) => SameCounted(b, WaitStep(b, waiter));
    case Stop => StopCounted(b);
    case Close(t) =>
      CloseCounted(b, t);
      TimeCounted(CloseStep(b, t), t.d);
  }

  // ---------------------------------------------------------------- runs

  ghost predicate Inv(b: Bridge) { Conserves(b) && Timed(b) && Quieted(b) && Counted(b) }

  lemma StepKeepsInv(b: Bridge, e: Event)
    requires Inv(b) && OnTime(b, e)
    ensures Inv(Apply(b, e))
  {
    StepConserves(b, e);
    StepTimed(b, e);
    StepQuieted(b, e);
    StepCounted(b, e);
  }

  lemma {:induction false} RunKeepsInv(b: Bridge, es: seq<Event>)
    requires Inv(b) && Run(b, es)
    ensures Inv(Exec(b, es))
    decreases |es|
  {
    if es != [] {
      RunKeepsInv(b, es[..|es| - 1]);
      StepKeepsInv(Exec(b, es[..|es| - 1]), es[|es| - 1]);
    }
  }

  lemma NewKeepsInv(b: Bridge)
    requires IsNew(b)
    ensures Inv(b)
  {
    assert RealFrames([]) + [] == [];
  }

  lemma RunGoesOn(b: Bridge, es: seq<Event>, e: Event)
    requires Run(b, es) && OnTime(Exec(b, es), e)
    ensures Run(b, es + [e]) && Exec(b, es + [e]) == Apply(Exec(b, es), e)
  {
    assert (es + [e])[..|es|] == es;
  }

  lemma RunIsSized(b: Bridge, es: seq<Event>)
    requires IsNew(b) && Run(b, es)
    ensures var r := Exec(b, es); Sized(r) && (r.timer.Some? ==> r.started && !r.closed)
  {
    NewKeepsInv(b);
    RunKeepsInv(b, es);
  }

  // What an event adds to the audio taken in since the last stop: an accepted chunk, resampled; at a
  // flush, silence up to a whole number of frames.
  function InputThen(before: seq<Sample>, e: Event, closed: bool, outputRate: real, size: nat): seq<Sample>
    requires outputRate > 0.0 && size >= 1
  {
    match e
    case Enqueue(bytes, rate, _) =>
      if !closed && |bytes| % 2 == 0 && rate > 0.0
      then before + Resampled(FromBytes(bytes), rate, outputRate) else before
    case Flush(_) => before + Zeros((size - |before| % size) % size)
    case Stop => []
    case Close(_) => []
    case _ => before
  }

  // All audio taken in since the last stop, read off the events alone.
  function Input(es: seq<Event>, outputRate: real, size: nat): seq<Sample>
    requires outputRate > 0.0 && size >= 1
    decreases |es|
  {
    if es == [] then []
    else InputThen(Input(es[..|es| - 1], outputRate, size), es[|es| - 1], Closed(es[..|es| - 1]), outputRate, size)
  }

  predicate Closed(es: seq<Event>) { exists i :: 0 <= i < |es| && es[i].Close? }

  lemma {:induction false} FlattenSize(frames: seq<Frame>, size: nat)
    requires size >= 1 && Whole(frames, size)
    ensures |Flatten(frames)| == size * |frames|
    decreases |frames|
  {
    if frames != [] {
      FlattenSize(frames[..|frames| - 1], size);
      assert size * |frames| == size * (|frames| - 1) + size;
    }
  }

  lemma {:induction false} RealWhole(log: seq<Emission>, size: nat)
    requires forall i :: 0 <= i < |log| ==> |log[i].frame| == size
    ensures Whole(RealFrames(log), size)
    decreases |log|
  {
    if log != [] { RealWhole(log[..|log| - 1], size); }
  }

  // The remainder's length is determined by how much was taken in.
  lemma RemainderIs(b: Bridge)
    requires Conserves(b)
    ensures |b.past.fed| % b.cfg.frameSize == |b.pending|
  {
    RealWhole(b.past.log, b.cfg.frameSize);
    var frames := RealFrames(b.past.log) + b.queue;
    FlattenSize(frames, b.cfg.frameSize);
    Remainder(b.cfg.frameSize, |frames|, |b.pending|);
  }

  lemma Remainder(size: nat, k: nat, r: nat)
    requires r < size
    ensures (size * k + r) % size == r
  {
    var n := size * k + r;
    var q, m := n / size, n % size;
    assert n == size * q + m;
    Multiples(size, q - k);
    assert size * (q - k) == r - m;
  }

  lemma Multiples(size: nat, d: int)
    ensures d >= 1 ==> size * d >= size
    ensures d <= -1 ==> size * d <= 0 - size
  {
  }

  lemma PumpFed(b: Bridge, force: bool, t: Readings)
    ensures var c := Pump(b, force, t);
      c.past.fed == b.past.fed && c.closed == b.closed && c.cfg == b.cfg
  {
  }

  lemma EnqueueFed(b: Bridge, bytes: seq<Byte>, rate: real, t: Readings)
    requires Conserves(b) && !b.closed
    ensures var c := EnqueueStep(b, bytes, rate, t);
      && c.cfg == b.cfg && !c.closed
      && c.past.fed == InputThen(b.past.fed, Enqueue(bytes, rate, t), false, b.cfg.outputRate, b.cfg.frameSize)
  {
    if bytes == [] {
      assert FromBytes(bytes) == [];
    } else if |bytes| % 2 == 0 && rate > 0.0 {
      PumpFed(TakeIn(OpenTurn(b), Resampled(FromBytes(bytes), rate, b.cfg.outputRate)), false, t);
    }
  }

  lemma FedStep(b: Bridge, e: Event)
    requires Conserves(b) && (b.closed ==> b.past.fed == [])
    ensures var c := Apply(b, e);
      && c.cfg == b.cfg && c.closed == (b.closed || e.Close?)
      && c.past.fed == InputThen(b.past.fed, e, b.closed, b.cfg.outputRate, b.cfg.frameSize)
      && (c.closed ==> c.past.fed == [])
  {
    match e
    case Enqueue(bytes, rate, t) => if !b.closed { EnqueueFed(b, bytes, rate, t); }
    case Flush(t) =>
      FillUp(b);
      PumpFed(PadOut(b).(turnOpen := false), true, t);
    case Fire(t) => PumpFed(b.(timer := None), false, t);
    case _ =>
  }

  lemma InputSnoc(es: seq<Event>, e: Event, outputRate: real, size: nat)
    requires outputRate > 0.0 && size >= 1
    ensures Input(es + [e], outputRate, size) ==
            InputThen(Input(es, outputRate, size), e, Closed(es), outputRate, size)
  {
    assert (es + [e])[..|es|] == es;
  }

  // b's record of its input is right after the events es.
  ghost predicate Recorded(b: Bridge, es: seq<Event>, cfg: Config) {
    && b.cfg == cfg && cfg.outputRate > 0.0 && cfg.frameSize >= 1
    && b.closed == Closed(es) && (b.closed ==> b.past.fed == [])
    && b.past.fed == Input(es, cfg.outputRate, cfg.frameSize)
  }

  lemma RecordedStep(b: Bridge, es: seq<Event>, e: Event, cfg: Config)
    requires Conserves(b) && Recorded(b, es, cfg)
    ensures Recorded(Apply(b, e), es + [e], cfg)
  {
    FedStep(b, e);
    ClosedSnoc(es, e);
    InputSnoc(es, e, cfg.outputRate, cfg.frameSize);
  }

  lemma LastStep(b: Bridge, es: seq<Event>)
    requires es != [] && Conserves(Exec(b, es[..|es| - 1]))
    requires Recorded(Exec(b, es[..|es| - 1]), es[..|es| - 1], b.cfg)
    ensures Recorded(Exec(b, es), es, b.cfg)
  {
    SplitLast(es);
    RecordedStep(Exec(b, es[..|es| - 1]), es[..|es| - 1], es[|es| - 1], b.cfg);
  }

  lemma SplitLast(es: seq<Event>)
    requires es != []
    ensures es == es[..|es| - 1] + [es[|es| - 1]]
  {
  }

  lemma NothingFed(b: Bridge)
    requires IsNew(b)
    ensures Recorded(Exec(b, []), [], b.cfg)
  {
    assert !Closed([]);
  }

  lemma {:induction false} FedIsInput(b: Bridge, es: seq<Event>)
    requires IsNew(b) && Run(b, es)
    ensures Recorded(Exec(b, es), es, b.cfg)
    decreases |es|
  {
    if es == [] {
      NothingFed(b);
    } else {
      FedIsInput(b, es[..|es| - 1]);
      NewRunConserves(b, es[..|es| - 1]);
      LastStep(b, es);
    }
  }

  lemma NewRunConserves(b: Bridge, es: seq<Event>)
    requires IsNew(b) && Run(b, es)
    ensures Conserves(Exec(b, es))
  {
    NewKeepsInv(b);
    RunKeepsInv(b, es);
  }

  lemma ClosedSnoc(es: seq<Event>, e: Event)
    ensures Closed(es + [e]) <==> Closed(es) || e.Close?
  {
    if e.Close? { assert (es + [e])[|es|].Close?; }
    if Closed(es) {
      var i :| 0 <= i < |es| && es[i].Close?;
      assert (es + [e])[i].Close?;
    }
  }

  // The silence a flush adds is what the audio taken in lacks to a whole number of frames.
  lemma FillUp(b: Bridge)
    requires Conserves(b)
    ensures Zeros((b.cfg.frameSize - |b.past.fed| % b.cfg.frameSize) % b.cfg.frameSize) ==
            if b.pending == [] then [] else Zeros(b.cfg.frameSize - |b.pending|)
  {
    RemainderIs(b);
    Missing(b.cfg.frameSize, |b.pending|);
  }

  lemma Missing(size: nat, rest: nat)
    requires rest < size
    ensures (size - rest) % size == if rest == 0 then 0 else size - rest
  {
  }

  /**
   * Between two stops, the frames sent, the frames queued and the remainder are, in order, exactly
   * the audio taken in; every frame is of full size and the remainder shorter than one.
   */
  lemma AudioIsConserved(b: Bridge, es: seq<Event>)
    requires IsNew(b) && Run(b, es)
    ensures var r := Exec(b, es);
      && Flatten(RealFrames(r.past.log) + r.queue) + r.pending == Input(es, b.cfg.outputRate, b.cfg.frameSize)
      && Whole(RealFrames(r.past.log) + r.queue, b.cfg.frameSize)
      && |r.pending| < b.cfg.frameSize
  {
    FedIsInput(b, es);
    NewRunConserves(b, es);
    RealWhole(Exec(b, es).past.log, b.cfg.frameSize);
  }

  /**
   * Since the last stop, frame k (speech or silence) leaves no earlier than 10k ms after the first,
   * and any two frames are at most 40 ms closer than their distance in the sequence asks. No report,
   * sent or still open, shows more than 40 ms of lateness, and every frame ever sent is counted once.
   */
  lemma FramesArePaced(b: Bridge, es: seq<Event>, i: nat, k: nat)
    requires IsNew(b) && Run(b, es) && i <= k < |Exec(b, es).past.log|
    ensures var r := Exec(b, es);
      && r.past.log[k].at >= r.past.log[0].at + 10.0 * k as real
      && (i < k ==> r.past.log[k].at >= r.past.log[i].at + 10.0 * (k - i) as real - 40.0)
      && r.metrics.maxLateness <= 40.0 && (forall j :: 0 <= j < |r.past.reports| ==> r.past.reports[j].maxLateness <= 40.0)
      && r.past.realTotal == RealIn(r.past.reports) + r.metrics.outputFrames
      && r.past.silentTotal == SilentIn(r.past.reports) + r.metrics.silenceFrames
  {
    NewKeepsInv(b);
    RunKeepsInv(b, es);
    var r := Exec(b, es);
    assert Timed(r) && Counted(r);
  }

  ghost predicate Reachable(b: Bridge) {
    exists start, es :: IsNew(start) && Run(start, es) && b == Exec(start, es)
  }

  lemma ReachableInv(b: Bridge)
    requires Reachable(b)
    ensures Inv(b)
  {
    var start, es :| IsNew(start) && Run(start, es) && b == Exec(start, es);
    NewKeepsInv(start);
    RunKeepsInv(start, es);
  }

  // ---------------------------------------------------------------- draining

  /** A waiter is released only when the queue, the remainder and the timer are all empty. */
  lemma ReleasedOnlyWhenDrained(b: Bridge, e: Event, waiter: nat)
    requires Sized(b) && waiter in b.waiters && waiter !in Apply(b, e).waiters
    ensures Apply(b, e).queue == [] && Apply(b, e).pending == [] && Apply(b, e).timer.None?
  {
    match e
    case Enqueue(bytes, rate, t) =>
      if !b.closed && bytes != [] && |bytes| % 2 == 0 && rate > 0.0 {
        PumpReleases(TakeIn(OpenTurn(b), Resampled(FromBytes(bytes), rate, b.cfg.outputRate)), false, t);
      }
    case Flush(t) => PumpReleases(PadOut(b).(turnOpen := false), true, t);
    case Fire(t) => PumpReleases(b.(timer := None), false, t);
    case Wait(w) =>
    case Stop =>
    case Close(t) =>
  }

  lemma PumpReleases(b: Bridge, force: bool, t: Readings)
    ensures var c := Pump(b, force, t);
      c.waiters == b.waiters || (c.queue == [] && c.pending == [] && c.timer.None?)
  {
  }

  // The turn is over, nothing is left to cut, and nobody waits for an output already drained.
  ghost predicate Draining(b: Bridge) {
    && Sized(b) && !b.closed && !b.turnOpen && b.pending == []
    && (if b.timer.Some? then b.started else b.queue == [] && b.waiters == {})
  }

  lemma TimerMeansStarted(b: Bridge)
    requires Reachable(b)
    ensures Sized(b) && (b.timer.Some? ==> b.started)
  {
    var start, es :| IsNew(start) && Run(start, es) && b == Exec(start, es);
    RunIsSized(start, es);
  }

  lemma FlushDrains(b: Bridge, t: Readings)
    requires Sized(b) && !b.closed && (b.timer.Some? ==> b.started)
    ensures Draining(Apply(b, Flush(t)))
  {
    ForcedPump(PadOut(b).(turnOpen := false), t);
  }

  /** A flush of a bridge in use ends the turn and starts the draining, and leaves no waiter on an idle output. */
  lemma FlushStartsDraining(b: Bridge, t: Readings)
    requires Reachable(b) && !b.closed
    ensures Draining(Apply(b, Flush(t)))
  {
    TimerMeansStarted(b);
    FlushDrains(b, t);
  }

  lemma ForcedPump(b: Bridge, t: Readings)
    requires !b.closed && !b.turnOpen && b.pending == []
    ensures var c := Pump(b, true, t);
      && !c.turnOpen && c.pending == []
      && (if c.timer.Some? then b.timer.Some? || c.started else c.queue == [] && c.waiters == {})
  {
  }

  function Firings(es: seq<Event>): nat {
    if es == [] then 0 else Firings(es[..|es| - 1]) + (if es[|es| - 1].Fire? then 1 else 0)
  }

  ghost predicate NoInput(es: seq<Event>) { forall i :: 0 <= i < |es| ==> es[i].Fire? || es[i].Wait? }

  /**
   * After a flush with no later input, each firing of the timer sends exactly one queued frame, and
   * the one after the last releases every waiter, including those that came meanwhile: with q frames
   * queued the timer fires exactly q + 1 times and then stays off.
   */
  lemma {:induction false} DrainsInQueueLengthPlusOne(b: Bridge, es: seq<Event>)
    requires Draining(b) && b.timer.Some? && Run(b, es) && NoInput(es)
    ensures var r := Exec(b, es);
      && Draining(r) && Firings(es) <= |b.queue| + 1
      && (Firings(es) <= |b.queue| ==> r.timer.Some? && r.queue == b.queue[Firings(es)..])
      && (Firings(es) == |b.queue| + 1 ==> r.timer.None? && r.queue == [] && r.waiters == {})
    decreases |es|
  {
    if es != [] {
      var prefix, e := es[..|es| - 1], es[|es| - 1];
      assert es[|es| - 1].Fire? || es[|es| - 1].Wait?;
      DrainsInQueueLengthPlusOne(b, prefix);
      var before := Exec(b, prefix);
      if e.Fire? { DrainFire(before, e.t); }
    }
  }

  lemma DrainFire(b: Bridge, t: Readings)
    requires Draining(b) && OnTime(b, Fire(t))
    ensures var c := Apply(b, Fire(t));
      && !c.turnOpen && c.pending == []
      && (b.queue != [] ==> c.timer.Some? && c.queue == b.queue[1..])
      && (b.queue == [] ==> c.timer.None? && c.queue == [] && c.waiters == {})
  {
  }

  /** From one enqueue up to the next, at most 50 frames of silence are sent. */
  lemma FiftySilencesPerEnqueue(b: Bridge, e: Event, es: seq<Event>)
    requires Reachable(b) && OnTime(b, e) && e.Enqueue? && Run(Apply(b, e), es)
    requires forall i :: 0 <= i < |es| ==> !es[i].Enqueue?
    ensures Exec(Apply(b, e), es).past.silentTotal <= b.past.silentTotal + 50
  {
    ReachableInv(b);
    StepKeepsInv(b, e);
    StepQuieted(b, e);
    AllowanceShrinks(Apply(b, e), es);
  }

  lemma {:induction false} AllowanceShrinks(b: Bridge, es: seq<Event>)
    requires Inv(b) && Run(b, es) && forall i :: 0 <= i < |es| ==> !es[i].Enqueue?
    ensures Exec(b, es).past.silentTotal <= Allowance(Exec(b, es)) <= Allowance(b)
    decreases |es|
  {
    if es != [] {
      AllowanceShrinks(b, es[..|es| - 1]);
      RunKeepsInv(b, es[..|es| - 1]);
      StepQuieted(Exec(b, es[..|es| - 1]), es[|es| - 1]);
    }
  }
}
