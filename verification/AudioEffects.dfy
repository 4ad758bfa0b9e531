/** What each callback makes the audio output do: that it plays, when it plays, and what it plays in between. */
module AudioEffects {
  import opened Options
  import opened Pcm
  import opened AudioBridge
  import AudioTheorems

  // The moment the next frame was due, or now if nothing is scheduled or it is more than 40 ms past.
  function Due(b: Bridge, now: real): real {
    if b.nextAt.None? || now > b.nextAt.value + 40.0 then now else b.nextAt.value
  }

  // One frame leaves now, and the timer is set for 10 ms after it was due, or at once if that is past.
  predicate Sends(b: Bridge, c: Bridge, frame: Frame, silent: bool, t: Readings) {
    && c.past.log == b.past.log + [Emission(t.a, frame, silent)]
    && c.nextAt == Some(Due(b, t.a) + 10.0)
    && c.timer == Some(if Due(b, t.a) + 10.0 > t.b then Due(b, t.a) + 10.0 else t.b)
    && c.started && c.closed == b.closed && c.turnOpen == b.turnOpen && c.waiters == b.waiters && c.pending == b.pending
  }

  predicate SendsHead(b: Bridge, c: Bridge, t: Readings) {
    b.queue != [] && Sends(b, c, b.queue[0], false, t) && c.queue == b.queue[1..] && c.silence == 0
  }

  predicate SendsSilence(b: Bridge, c: Bridge, t: Readings) {
    Sends(b, c, Zeros(b.cfg.frameSize), true, t) && c.queue == b.queue && c.silence == b.silence + 1
  }

  // Nothing leaves and no timer runs.
  predicate Pauses(b: Bridge, c: Bridge) {
    c.past.log == b.past.log && c.queue == b.queue && c.timer.None? && c.turnOpen == b.turnOpen && c.pending == b.pending
  }

  /**
   * The pump of an idle output: it waits for the prebuffer to fill unless started or forced, then sends
   * the head of the queue; with nothing queued it sends silence, up to 50 times in an open turn, and
   * otherwise rests, which in a turn keeps the waiters waiting and after it ends the output.
   */
  lemma PumpEffect(b: Bridge, force: bool, t: Readings)
    requires !b.closed && b.timer.None?
    ensures var c := Pump(b, force, t);
      if !b.started && !force && |b.queue| < b.cfg.prebuffer then Pauses(b, c) && !c.started
      else if b.queue != [] then SendsHead(b, c, t)
      else if b.started && b.turnOpen && b.silence < 50 then SendsSilence(b, c, t)
      else if b.turnOpen then Pauses(b, c) && c.started == b.started && c.waiters == b.waiters && c.silence == b.silence
      else Pauses(b, c) && !c.started && (if b.pending == [] then c.waiters == {} else c.waiters == b.waiters)
  {
  }

  /** A firing of the timer is one such pump. */
  lemma FiringEffect(b: Bridge, t: Readings)
    requires Sized(b) && !b.closed && b.started
    ensures var c := Apply(b, Fire(t));
      if b.queue != [] then SendsHead(b, c, t)
      else if b.turnOpen && b.silence < 50 then SendsSilence(b, c, t)
      else if b.turnOpen then Pauses(b, c) && c.started && c.waiters == b.waiters && c.silence == b.silence
      else Pauses(b, c) && !c.started
  {
    PumpEffect(b.(timer := None), false, t);
  }

  // The output after a chunk is taken in: these frames more in the queue, this much left, the turn open.
  predicate TakesIn(b: Bridge, taken: Bridge, frames: seq<Frame>, samples: seq<Sample>) {
    && taken.queue == b.queue + frames && Flatten(frames) + taken.pending == b.pending + samples
    && taken.turnOpen && taken.silence == 0 && taken.metrics.chunks == b.metrics.chunks + 1
    && taken.cfg == b.cfg && taken.started == b.started && taken.timer == b.timer && taken.nextAt == b.nextAt
    && taken.waiters == b.waiters && taken.closed == b.closed && taken.past.log == b.past.log
  }

  lemma ChunkIsTaken(b: Bridge, samples: seq<Sample>)
    requires Sized(b)
    ensures TakesIn(b, TakeIn(OpenTurn(b), samples), FullFrames(b.pending + samples, b.cfg.frameSize), samples)
  {
    CuttingConserves(b.pending + samples, b.cfg.frameSize);
  }

  // A report touches nothing of the output.
  lemma ReportIsQuiet(b: Bridge, now: real)
    ensures var c := Report(b, false, now);
      && c.queue == b.queue && c.pending == b.pending && c.timer == b.timer && c.nextAt == b.nextAt && c.silence == b.silence
      && c.started == b.started && c.turnOpen == b.turnOpen && c.waiters == b.waiters && c.closed == b.closed
      && c.past.log == b.past.log && c.cfg == b.cfg
  {
  }

  /**
   * A chunk that is accepted opens the turn, starts the count of silences again, and plays: an idle
   * output sends its first frame as soon as the prebuffer is full, and the next at once once started.
   */
  lemma ChunkEffect(b: Bridge, bytes: seq<Byte>, rate: real, t: Readings) returns (taken: Bridge, frames: seq<Frame>)
    requires Sized(b) && !b.closed && bytes != [] && |bytes| % 2 == 0 && rate > 0.0
    ensures TakesIn(b, taken, frames, Resampled(FromBytes(bytes), rate, b.cfg.outputRate))
    ensures var c := Apply(b, Enqueue(bytes, rate, t));
      && c.turnOpen && c.clock == t.d
      && (if b.timer.Some? then
            c.queue == taken.queue && c.timer == b.timer && c.past.log == b.past.log && c.silence == 0
          else if !b.started && |taken.queue| < b.cfg.prebuffer then Pauses(taken, c)
          else if taken.queue != [] then SendsHead(taken, c, t)
          else if b.started then SendsSilence(taken, c, t)
          else Pauses(taken, c))
  {
    var samples := Resampled(FromBytes(bytes), rate, b.cfg.outputRate);
    taken, frames := TakeIn(OpenTurn(b), samples), FullFrames(b.pending + samples, b.cfg.frameSize);
    ChunkIsTaken(b, samples);
    if b.timer.None? { PumpEffect(taken, false, t); }
    ReportIsQuiet(Pump(taken, false, t), t.d);
  }

  /** A chunk that is refused opens the turn all the same, and adds nothing; an empty or a late one does nothing. */
  lemma RefusedChunkEffect(b: Bridge, bytes: seq<Byte>, rate: real, t: Readings)
    requires Sized(b) && (b.closed || bytes == [] || |bytes| % 2 != 0 || rate <= 0.0)
    ensures var c := Apply(b, Enqueue(bytes, rate, t));
      && c.queue == b.queue && c.pending == b.pending && c.timer == b.timer && c.past == b.past
      && c.turnOpen == (b.turnOpen || (!b.closed && bytes != []))
  {
  }

  /** Whatever becomes of a chunk, the turn is open after it, unless it is empty or too late. */
  lemma ChunkOpensTurn(b: Bridge, bytes: seq<Byte>, rate: real, t: Readings)
    requires Sized(b) && !b.closed && bytes != []
    ensures Apply(b, Enqueue(bytes, rate, t)).turnOpen
  {
    if |bytes| % 2 == 0 && rate > 0.0 {
      var taken, frames := ChunkEffect(b, bytes, rate, t);
    } else {
      RefusedChunkEffect(b, bytes, rate, t);
    }
  }

  /** A flush ends the turn and plays what there is, prebuffer or not. */
  lemma FlushEffect(b: Bridge, t: Readings)
    requires Sized(b) && !b.closed
    ensures var padded := if b.pending == [] then b.queue
                          else b.queue + [b.pending + Zeros(b.cfg.frameSize - |b.pending|)];
      var c := Apply(b, Flush(t));
      && !c.turnOpen && c.pending == []
      && (if b.timer.Some? then c.queue == padded && c.timer == b.timer && c.past.log == b.past.log
          else if padded != [] then
            && c.past.log == b.past.log + [Emission(t.a, padded[0], false)] && c.queue == padded[1..] && c.timer.Some?
          else c.queue == [] && c.timer.None? && c.waiters == {})
  {
    var d := PadOut(b).(turnOpen := false);
    if b.timer.None? { PumpEffect(d, true, t); }
  }

  /** The turn stays open until it is flushed, stopped or closed. */
  lemma {:induction false} TurnStaysOpen(b: Bridge, es: seq<Event>)
    requires b.turnOpen && forall i :: 0 <= i < |es| ==> !es[i].Flush? && !es[i].Stop? && !es[i].Close?
    ensures Exec(b, es).turnOpen
    decreases |es|
  {
    if es != [] {
      TurnStaysOpen(b, es[..|es| - 1]);
      OpenStep(Exec(b, es[..|es| - 1]), es[|es| - 1]);
    }
  }

  lemma OpenStep(b: Bridge, e: Event)
    requires b.turnOpen && !e.Flush? && !e.Stop? && !e.Close?
    ensures Apply(b, e).turnOpen
  {
    match e
    case Enqueue(bytes, rate, t) =>
      if Sized(b) && !b.closed && bytes != [] { ChunkOpensTurn(b, bytes, rate, t); }
    case _ =>
  }

  // In an open turn with nothing to play, and k silences sent since the last chunk.
  predicate Silent(b: Bridge, k: nat) {
    && Sized(b) && !b.closed && b.started && b.turnOpen && b.queue == [] && b.silence == k
  }

  // ... and these are the last k frames of the log, while the timer runs on.
  predicate SilentSince(b: Bridge, log: seq<Emission>, k: nat) {
    && Silent(b, k) && |b.past.log| == |log| + k && b.past.log[..|log|] == log
    && forall i :: |log| <= i < |b.past.log| ==>
         b.past.log[i].silent && b.past.log[i].frame == Zeros(b.cfg.frameSize)
  }

  lemma SilentFires(b: Bridge, log: seq<Emission>, k: nat, t: Readings)
    requires SilentSince(b, log, k)
    ensures var c := Apply(b, Fire(t));
      && c.waiters == b.waiters
      && (k < 50 ==> SilentSince(c, log, k + 1) && c.timer.Some?)
      && (k >= 50 ==> SilentSince(c, log, k) && c.timer.None?)
  {
    FiringEffect(b, t);
    PumpKeepsConfig(b.(timer := None), t);
  }

  lemma PumpKeepsConfig(b: Bridge, t: Readings)
    ensures Pump(b, false, t).cfg == b.cfg
  {
  }

  lemma SilentWaits(b: Bridge, log: seq<Emission>, k: nat, waiter: nat)
    requires SilentSince(b, log, k)
    ensures var c := Apply(b, Wait(waiter)); SilentSince(c, log, k) && c.timer == b.timer && b.waiters <= c.waiters
  {
  }

  /**
   * In an open turn that has run out of speech, each of the next 50 firings sends one frame of silence
   * and sets the timer again; the 51st stops it, and no waiter is released on the way.
   */
  lemma {:induction false} FiftySilencesThenRest(b: Bridge, es: seq<Event>)
    requires Silent(b, 0) && b.timer.Some? && Run(b, es) && AudioTheorems.NoInput(es)
    ensures var r, f := Exec(b, es), AudioTheorems.Firings(es);
      && f <= 51 && b.waiters <= r.waiters
      && (f <= 50 ==> SilentSince(r, b.past.log, f) && r.timer.Some?)
      && (f == 51 ==> SilentSince(r, b.past.log, 50) && r.timer.None?)
    decreases |es|
  {
    if es != [] {
      var before, e := Exec(b, es[..|es| - 1]), es[|es| - 1];
      assert es[|es| - 1].Fire? || es[|es| - 1].Wait?;
      FiftySilencesThenRest(b, es[..|es| - 1]);
      var f := AudioTheorems.Firings(es[..|es| - 1]);
      var k: nat := if f == 51 then 50 else f;
      if e.Fire? {
        SilentFires(before, b.past.log, k, e.t);
      } else {
        SilentWaits(before, b.past.log, k, e.waiter);
      }
    }
  }

  // ---------------------------------------------------------------- the metrics

  /** A report is due when asked for or when the interval is over; it goes out if anything was counted. */
  lemma ReportEffect(b: Bridge, force: bool, now: real)
    ensures var c := Report(b, force, now);
      if !force && now < b.lastMetricsAt + b.cfg.metricsInterval then c == b
      else
        && c.lastMetricsAt == now
        && (if b.metrics.chunks > 0 || b.metrics.outputFrames > 0 || b.metrics.silenceFrames > 0 then
              c.past.reports == b.past.reports + [b.metrics] && c.metrics == Metrics(0, 0, 0, 0, 0.0, 0.0)
            else c.past.reports == b.past.reports && c.metrics == b.metrics)
  {
  }

  /** A frame more than 2 ms past its moment counts as late, by exactly that much. */
  lemma LatenessEffect(b: Bridge, t: Readings)
    requires b.queue != []
    ensures var m, n := b.metrics, SendReal(b, t).metrics;
      var late := if t.a > Due(b, t.a) then t.a - Due(b, t.a) else 0.0;
      && n.outputFrames == m.outputFrames + 1 && n.silenceFrames == m.silenceFrames && n.chunks == m.chunks
      && (if late > 2.0 then
            && n.lateFrames == m.lateFrames + 1 && n.totalLateness == m.totalLateness + late
            && n.maxLateness == (if late > m.maxLateness then late else m.maxLateness)
          else n.lateFrames == m.lateFrames && n.totalLateness == m.totalLateness && n.maxLateness == m.maxLateness)
  {
  }

  /** A frame is a hundredth of a second to the nearest sample, and the prebuffer the fewest frames of 10 ms that fill it. */
  lemma SettingsFit(outputRate: real, bufferMs: real, interval: real, clock: real)
    requires FrameSizeOf(outputRate) >= 1
    ensures var cfg := Init(outputRate, bufferMs, interval, clock).cfg;
      && outputRate - 50.0 < 100.0 * cfg.frameSize as real <= outputRate + 50.0
      && 10.0 * cfg.prebuffer as real >= bufferMs
      && (cfg.prebuffer > 0 ==> 10.0 * (cfg.prebuffer - 1) as real < bufferMs)
      && cfg.outputRate == outputRate && cfg.metricsInterval == interval
  {
    RoundIsNearest(outputRate / 100.0);
  }

  /** As configured by default: 480 samples in a frame, and 15 frames before the first is sent. */
  lemma DefaultSettings(clock: real)
    ensures FrameSizeOf(48000.0) == 480
    ensures Init(48000.0, 150.0, 5000.0, clock).cfg == Config(48000.0, 480, 15, 5000.0)
  {
  }
}
