/**
 * The real-time output side of the media bridge: resampled speech is cut into 10 ms frames that a
 * single timer sends out in pace, with silence filled in while a turn is open. Times are
 * milliseconds of a clock that never runs back; timers may fire late, never early.
 */
module AudioBridge {
  import opened Options
  import opened Pcm

  datatype Emission = Emission(at: real, frame: Frame, silent: bool)

  datatype Metrics = Metrics(
    chunks: nat, outputFrames: nat, silenceFrames: nat, lateFrames: nat, totalLateness: real, maxLateness: real)

  // Successive readings of the clock within one callback.
  datatype Readings = Readings(a: real, b: real, c: real, d: real)

  // frameSize: samples in 10 ms. prebuffer: frames to hold before the first is sent.
  datatype Config = Config(outputRate: real, frameSize: nat, prebuffer: nat, metricsInterval: real)

  // What was sent since the last stop, all samples taken in since then, the metrics reported, and
  // the frames ever sent.
  datatype History = History(
    log: seq<Emission>, fed: seq<Sample>, reports: seq<Metrics>, realTotal: nat, silentTotal: nat)

  datatype Bridge = Bridge(
    cfg: Config,
    closed: bool,
    queue: seq<Frame>,
    pending: seq<Sample>,
    timer: Option<real>,          // when the running timer is due
    nextAt: Option<real>,
    silence: nat,
    started: bool,
    turnOpen: bool,
    waiters: set<nat>,
    metrics: Metrics,
    lastMetricsAt: real,
    clock: real,
    past: History)

  datatype Event =
    | Enqueue(bytes: seq<Byte>, rate: real, t: Readings)
    | Flush(t: Readings)
    | Fire(t: Readings)
    | Wait(waiter: nat)
    | Stop
    | Close(t: Readings)

  const NO_METRICS := Metrics(0, 0, 0, 0, 0.0, 0.0)
  const FRAME_MS: real := 10.0
  const REANCHOR_MS: real := 40.0
  const MAX_SILENCE: nat := 50

  function FrameSizeOf(outputRate: real): int { Round(outputRate / 100.0) }

  function Ceil(x: real): int { -((-x).Floor) }

  function Init(outputRate: real, outputBufferMs: real, metricsInterval: real, clock: real): Bridge
    requires FrameSizeOf(outputRate) >= 1
  {
    Bridge(Config(outputRate, FrameSizeOf(outputRate), Max(0, Ceil(outputBufferMs / 10.0)), metricsInterval),
           false, [], [], None, None, 0, false, false, {}, NO_METRICS, clock, clock, History([], [], [], 0, 0))
  }

  // ---------------------------------------------------------------- cutting frames

  function FullFrames(samples: seq<Sample>, size: nat): seq<Frame>
    requires size >= 1
    decreases |samples|
  {
    if |samples| < size then [] else [samples[..size]] + FullFrames(samples[size..], size)
  }

  function Rest(samples: seq<Sample>, size: nat): seq<Sample>
    requires size >= 1
    decreases |samples|
  {
    if |samples| < size then samples else Rest(samples[size..], size)
  }

  lemma FlattenOne(frame: Frame)
    ensures Flatten([frame]) == frame
  {
    FlattenSnoc([], frame);
    assert [] + [frame] == [frame];
  }

  // One more frame in front.
  lemma Glue(frame: Frame, frames: seq<Frame>, rest: seq<Sample>)
    ensures Flatten([frame] + frames) + rest == frame + (Flatten(frames) + rest)
  {
    FlattenAppend([frame], frames);
    FlattenOne(frame);
    Associate(frame, Flatten(frames), rest);
  }

  lemma GlueBack(frame: Frame, frames: seq<Frame>, rest: seq<Sample>, tail: seq<Sample>)
    requires Flatten(frames) + rest == tail
    ensures Flatten([frame] + frames) + rest == frame + tail
  {
    Glue(frame, frames, rest);
  }

  lemma SplitAt(samples: seq<Sample>, at: nat)
    requires at <= |samples|
    ensures samples[..at] + samples[at..] == samples
  {
  }

  lemma {:induction false} CutSizes(samples: seq<Sample>, size: nat)
    requires size >= 1
    ensures |Rest(samples, size)| < size
    ensures forall frame :: frame in FullFrames(samples, size) ==> |frame| == size
    decreases |samples|
  {
    if |samples| >= size {
      CutSizes(samples[size..], size);
    }
  }

  lemma {:induction false} CutKeepsAll(samples: seq<Sample>, size: nat)
    requires size >= 1
    ensures Flatten(FullFrames(samples, size)) + Rest(samples, size) == samples
    decreases |samples|
  {
    if |samples| >= size {
      CutKeepsAll(samples[size..], size);
      GlueBack(samples[..size], FullFrames(samples[size..], size), Rest(samples[size..], size), samples[size..]);
      SplitAt(samples, size);
    }
  }

  /** Cutting loses and invents nothing: whole frames, then a remainder shorter than one frame. */
  lemma CuttingConserves(samples: seq<Sample>, size: nat)
    requires size >= 1
    ensures Flatten(FullFrames(samples, size)) + Rest(samples, size) == samples
    ensures |Rest(samples, size)| < size
    ensures forall i :: 0 <= i < |FullFrames(samples, size)| ==> |FullFrames(samples, size)[i]| == size
  {
    CutKeepsAll(samples, size);
    CutSizes(samples, size);
  }

  // ---------------------------------------------------------------- steps

  function Report(b: Bridge, force: bool, now: real): Bridge {
    if !force && now - b.lastMetricsAt < b.cfg.metricsInterval then b
    else if b.metrics.chunks == 0 && b.metrics.outputFrames == 0 && b.metrics.silenceFrames == 0
    then b.(lastMetricsAt := now)
    else b.(past := b.past.(reports := b.past.reports + [b.metrics]), metrics := NO_METRICS, lastMetricsAt := now)
  }

  function ResolveDrained(b: Bridge): Bridge {
    if b.timer.Some? || b.queue != [] || b.pending != [] then b else b.(waiters := {})
  }

  // When the frame sent at `now` was due: a schedule more than 40 ms behind starts afresh.
  function Anchor(b: Bridge, now: real): real {
    if b.nextAt.None? || now - b.nextAt.value > REANCHOR_MS then now else b.nextAt.value
  }

  // Hands a frame to the track and schedules the next one.
  function Send(b: Bridge, frame: Frame, silent: bool, t: Readings): Bridge {
    var next := Anchor(b, t.a) + FRAME_MS;
    b.(past := b.past.(log := b.past.log + [Emission(t.a, frame, silent)]),
       nextAt := Some(next),
       timer := Some(if t.b < next then next else t.b))
  }

  function Late(m: Metrics, lateness: real): Metrics {
    if lateness > 2.0 then
      m.(lateFrames := m.lateFrames + 1, totalLateness := m.totalLateness + lateness,
         maxLateness := if m.maxLateness < lateness then lateness else m.maxLateness)
    else m
  }

  // The head of the queue taken off, and its lateness recorded.
  function TakeHead(b: Bridge, t: Readings): Bridge
    requires b.queue != []
  {
    var lateness := t.a - Anchor(b, t.a);
    var m := Late(b.metrics, if lateness < 0.0 then 0.0 else lateness);
    b.(silence := 0, started := true, queue := b.queue[1..], metrics := m.(outputFrames := m.outputFrames + 1),
       past := b.past.(realTotal := b.past.realTotal + 1))
  }

  function SendReal(b: Bridge, t: Readings): Bridge
    requires b.queue != []
  {
    Send(TakeHead(b, t), b.queue[0], false, t)
  }

  function SendSilence(b: Bridge, t: Readings): Bridge {
    Send(b.(silence := b.silence + 1, past := b.past.(silentTotal := b.past.silentTotal + 1),
            metrics := b.metrics.(silenceFrames := b.metrics.silenceFrames + 1)),
         Zeros(b.cfg.frameSize), true, t)
  }

  function Rests(b: Bridge): Bridge {
    var c := b.(nextAt := None);
    if c.turnOpen then c else ResolveDrained(c.(started := false))
  }

  function Pump(b: Bridge, force: bool, t: Readings): Bridge {
    if b.closed || b.timer.Some? then b
    else if !b.started && !force && |b.queue| < b.cfg.prebuffer then ResolveDrained(b)
    else if b.queue != [] then Report(SendReal(b, t), false, t.c)
    else if b.started && b.turnOpen && b.silence < MAX_SILENCE then SendSilence(b, t)
    else Rests(b)
  }

  function OpenTurn(b: Bridge): Bridge { b.(turnOpen := true, silence := 0) }

  function TakeIn(b: Bridge, samples: seq<Sample>): Bridge
    requires b.cfg.frameSize >= 1
  {
    b.(queue := b.queue + FullFrames(b.pending + samples, b.cfg.frameSize),
       pending := Rest(b.pending + samples, b.cfg.frameSize),
       past := b.past.(fed := b.past.fed + samples),
       metrics := b.metrics.(chunks := b.metrics.chunks + 1))
  }

  // A chunk with an odd number of bytes, or a rate that is not positive, throws part of the way.
  function EnqueueStep(b: Bridge, bytes: seq<Byte>, rate: real, t: Readings): Bridge
    requires b.cfg.frameSize >= 1 && b.cfg.outputRate > 0.0
  {
    if b.closed || bytes == [] then b
    else if |bytes| % 2 != 0 then OpenTurn(b)
    else if rate <= 0.0 then
      OpenTurn(b).(metrics := b.metrics.(chunks := b.metrics.chunks + 1))
    else Report(Pump(TakeIn(OpenTurn(b), Resampled(FromBytes(bytes), rate, b.cfg.outputRate)), false, t), false, t.d)
  }

  function PadOut(b: Bridge): Bridge
    requires |b.pending| <= b.cfg.frameSize
  {
    if b.pending == [] then b
    else b.(queue := b.queue + [Padded(b.pending, b.cfg.frameSize)],
            past := b.past.(fed := b.past.fed + Zeros(b.cfg.frameSize - |b.pending|)),
            pending := [])
  }

  function FlushStep(b: Bridge, t: Readings): Bridge
    requires |b.pending| <= b.cfg.frameSize
  {
    if b.closed then b else Pump(PadOut(b).(turnOpen := false), true, t)
  }

  function StopStep(b: Bridge): Bridge {
    ResolveDrained(b.(timer := None, nextAt := None, queue := [], pending := [], started := false,
                      turnOpen := false, silence := 0, past := b.past.(log := [], fed := [])))
  }

  function CloseStep(b: Bridge, t: Readings): Bridge {
    if b.closed then b else StopStep(Report(b, true, t.a).(closed := true))
  }

  function WaitStep(b: Bridge, waiter: nat): Bridge {
    if b.timer.None? && b.queue == [] && b.pending == [] then b else b.(waiters := b.waiters + {waiter})
  }

  predicate Sized(b: Bridge) { b.cfg.frameSize >= 1 && b.cfg.outputRate > 0.0 && |b.pending| < b.cfg.frameSize }

  // One callback. A bridge whose frames have no size, which is never built, takes no step.
  function Apply(b: Bridge, e: Event): Bridge {
    if !Sized(b) then b else
    match e
    case Enqueue(bytes, rate, t) => EnqueueStep(b, bytes, rate, t).(clock := t.d)
    case Flush(t) => FlushStep(b, t).(clock := t.d)
    case Fire(t) => Pump(b.(timer := None), false, t).(clock := t.d)
    case Wait(waiter) => WaitStep(b, waiter)
    case Stop => StopStep(b)
    case Close(t) => CloseStep(b, t).(clock := t.d)
  }

  predicate Ordered(b: Bridge, t: Readings) { b.clock <= t.a <= t.b <= t.c <= t.d }

  // The clock does not run back, and a timer fires only while set and not before it is due.
  predicate OnTime(b: Bridge, e: Event) {
    match e
    case Enqueue(_, _, t) => Ordered(b, t)
    case Flush(t) => Ordered(b, t)
    case Fire(t) => Ordered(b, t) && b.timer.Some? && b.timer.value <= t.a
    case Close(t) => Ordered(b, t)
    case _ => true
  }

  function Exec(b: Bridge, es: seq<Event>): Bridge
    decreases |es|
  {
    if es == [] then b else Apply(Exec(b, es[..|es| - 1]), es[|es| - 1])
  }

  predicate Run(b: Bridge, es: seq<Event>)
    decreases |es|
  {
    es == [] || (Run(b, es[..|es| - 1]) && OnTime(Exec(b, es[..|es| - 1]), es[|es| - 1]))
  }

  // A bridge just built, whatever its settings.
  predicate IsNew(b: Bridge) {
    && b.cfg.frameSize >= 1 && b.cfg.outputRate > 0.0
    && b == Bridge(b.cfg, false, [], [], None, None, 0, false, false, {}, NO_METRICS, b.lastMetricsAt, b.clock,
                   History([], [], [], 0, 0))
  }

  lemma InitIsNew(outputRate: real, outputBufferMs: real, metricsInterval: real, clock: real)
    requires FrameSizeOf(outputRate) >= 1
    ensures IsNew(Init(outputRate, outputBufferMs, metricsInterval, clock))
  {
    assert FrameSizeOf(outputRate) as real <= outputRate / 100.0 + 0.5;
  }
}
