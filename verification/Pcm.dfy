/** 16-bit PCM: channel mixing, resampling, framing and bytes, in exact arithmetic. */
module Pcm {
  import opened Options

  type Sample = x: int | -32768 <= x < 32768
  type Byte = x: int | 0 <= x < 256

  function Clamp(x: int): Sample { Max(-32768, Min(32767, x)) }

  // Math.round: the nearest integer, halves upwards.
  function Round(x: real): int { (x + 0.5).Floor }

  lemma RoundBetween(lo: int, x: real, hi: int)
    requires lo as real <= x <= hi as real
    ensures lo <= Round(x) <= hi
  {
  }

  // ---------------------------------------------------------------- resampling

  function OutputLength(n: nat, source: real, target: real): (length: nat)
    requires source > 0.0 && target > 0.0
    ensures length >= 1
  {
    Max(1, Round(n as real * target / source))
  }

  function Position(n: nat, source: real, target: real, index: nat): real
    requires n > 0 && source > 0.0 && target > 0.0
  {
    var step := source / target;
    var at := index as real * step;
    if at <= (n - 1) as real then at else (n - 1) as real
  }

  lemma PositionInRange(n: nat, source: real, target: real, index: nat)
    requires n > 0 && source > 0.0 && target > 0.0
    ensures 0.0 <= Position(n, source, target, index) <= (n - 1) as real
    ensures 0 <= Position(n, source, target, index).Floor <= n - 1
  {
    assert source / target > 0.0;
    assert index as real * (source / target) >= 0.0;
  }

  // The point a fraction f of the way from a to b.
  function Mix(a: int, b: int, f: real): real { a as real + (b - a) as real * f }

  function Interpolated(samples: seq<Sample>, position: real): real
    requires 0.0 <= position <= (|samples| - 1) as real
  {
    var left := position.Floor;
    var right := Min(left + 1, |samples| - 1);
    Mix(samples[left], samples[right], position - left as real)
  }

  function ResampledAt(samples: seq<Sample>, source: real, target: real, index: nat): Sample
    requires samples != [] && source > 0.0 && target > 0.0
  {
    PositionInRange(|samples|, source, target, index);
    Clamp(Round(Interpolated(samples, Position(|samples|, source, target, index))))
  }

  function Resampled(samples: seq<Sample>, source: real, target: real): seq<Sample>
    requires source > 0.0 && target > 0.0
  {
    if source == target || samples == [] then samples
    else seq(OutputLength(|samples|, source, target), i requires i >= 0 => ResampledAt(samples, source, target, i))
  }

  // A fraction of a length is at most that length; part is d times f.
  lemma Part(d: real, f: real, part: real)
    requires 0.0 <= d && 0.0 <= f <= 1.0 && part == d * f
    ensures 0.0 <= part <= d
  {
    assert d * f <= d * 1.0;
  }

  lemma Blend(a: int, b: int, f: real)
    requires 0.0 <= f < 1.0
    ensures Min(a, b) as real <= Mix(a, b, f) <= Max(a, b) as real
  {
    var d := (b - a) as real;
    if a <= b {
      Part(d, f, d * f);
    } else {
      assert (-d) * f == -(d * f);
      Part(-d, f, -(d * f));
    }
  }

  /** Every output sample lies between its two source neighbours, so the clamp never acts. */
  lemma ResampledBetweenNeighbours(samples: seq<Sample>, source: real, target: real, index: nat)
    requires samples != [] && source > 0.0 && target > 0.0
    ensures
      var position := Position(|samples|, source, target, index);
      var left := position.Floor;
      var right := Min(left + 1, |samples| - 1);
      && 0 <= left <= right < |samples|
      && Min(samples[left], samples[right]) <= ResampledAt(samples, source, target, index) <= Max(samples[left], samples[right])
      && ResampledAt(samples, source, target, index) == Round(Interpolated(samples, position))
  {
    PositionInRange(|samples|, source, target, index);
    var position := Position(|samples|, source, target, index);
    var left := position.Floor;
    var right := Min(left + 1, |samples| - 1);
    Blend(samples[left], samples[right], position - left as real);
    RoundBetween(Min(samples[left], samples[right]), Interpolated(samples, position), Max(samples[left], samples[right]));
  }

  /** A whole position gives back the sample that is there. */
  lemma WholePosition(samples: seq<Sample>, source: real, target: real, index: nat, at: nat)
    requires at < |samples| && source > 0.0 && target > 0.0
    requires index as real * (source / target) == at as real
    ensures ResampledAt(samples, source, target, index) == samples[at]
  {
    assert Position(|samples|, source, target, index) == at as real;
    assert (at as real).Floor == at;
    var right := Min(at + 1, |samples| - 1);
    assert Mix(samples[at], samples[right], 0.0) == samples[at] as real;
  }

  // The two steps and two lengths of a whole ratio k.
  lemma Ratios(rate: real, high: real, k: nat, n: nat)
    requires rate > 0.0 && k >= 1 && high == k as real * rate
    ensures high > 0.0 && (k > 1 ==> high != rate)
    ensures high / rate == k as real
    ensures (rate / high) * k as real == 1.0
    ensures n as real * high / rate == (n * k) as real
    ensures (n * k) as real * rate / high == n as real
  {
    assert high >= rate;
    assert high / rate == k as real;
    assert rate / high * high == rate;
    var step := rate / high;
    assert (step * k as real) * rate == step * high;
    assert n as real * high == (n * k) as real * rate by {
      assert (n * k) as real == n as real * k as real;
    }
    assert (n * k) as real * rate / rate == (n * k) as real;
    assert n as real * high / high == n as real;
  }

  lemma LengthIs(n: nat, source: real, target: real, m: nat)
    requires source > 0.0 && target > 0.0 && m >= 1
    requires n as real * target / source == m as real
    ensures OutputLength(n, source, target) == m
  {
    assert Round(m as real) == m;
  }

  lemma UpSample(samples: seq<Sample>, rate: real, high: real, k: nat, i: nat)
    requires rate > 0.0 && k >= 1 && high == k as real * rate && high > 0.0 && i < |samples|
    ensures ResampledAt(samples, rate, high, i * k) == samples[i]
  {
    Ratios(rate, high, k, 0);
    var step := rate / high;
    assert (i * k) as real * step == i as real * (step * k as real) by {
      assert (i * k) as real == i as real * k as real;
    }
    WholePosition(samples, rate, high, i * k, i);
  }

  lemma DownSample(up: seq<Sample>, rate: real, high: real, k: nat, i: nat)
    requires rate > 0.0 && k >= 1 && high == k as real * rate && high > 0.0 && i * k < |up|
    ensures ResampledAt(up, high, rate, i) == up[i * k]
  {
    Ratios(rate, high, k, 0);
    assert i as real * (high / rate) == (i * k) as real by {
      assert (i * k) as real == i as real * k as real;
    }
    WholePosition(up, high, rate, i, i * k);
  }

  lemma UpLength(samples: seq<Sample>, rate: real, high: real, k: nat)
    requires rate > 0.0 && k > 1 && high == k as real * rate && samples != []
    ensures high > 0.0 && high != rate && |Resampled(samples, rate, high)| == |samples| * k
  {
    Ratios(rate, high, k, |samples|);
    AtLeastOne(|samples|, k);
    LengthIs(|samples|, rate, high, |samples| * k);
  }

  lemma DownLength(up: seq<Sample>, rate: real, high: real, k: nat, n: nat)
    requires rate > 0.0 && k > 1 && high == k as real * rate && high > 0.0 && n >= 1 && |up| == n * k
    ensures |Resampled(up, high, rate)| == n
  {
    Ratios(rate, high, k, n);
    AtLeastOne(n, k);
    LengthIs(|up|, high, rate, n);
  }

  lemma AtLeastOne(n: nat, k: nat)
    requires n >= 1 && k >= 1
    ensures n * k >= k
  {
  }

  lemma InUp(n: nat, k: nat, i: nat)
    requires i < n && k >= 1
    ensures i * k < n * k
  {
    AtLeastOne(n - i, k);
    Minus(n, i, k);
  }

  lemma Minus(n: int, i: int, k: int)
    ensures (n - i) * k == n * k - i * k
  {
  }

  lemma BackAt(samples: seq<Sample>, rate: real, high: real, k: nat, i: nat)
    requires rate > 0.0 && k > 1 && high == k as real * rate && high > 0.0 && high != rate && i < |samples|
    requires |Resampled(samples, rate, high)| == |samples| * k
    ensures ResampledAt(Resampled(samples, rate, high), high, rate, i) == samples[i]
  {
    InUp(|samples|, k, i);
    UpSample(samples, rate, high, k, i);
    DownSample(Resampled(samples, rate, high), rate, high, k, i);
  }

  lemma BackAgain(samples: seq<Sample>, rate: real, high: real, k: nat)
    requires rate > 0.0 && k > 1 && high == k as real * rate && samples != []
    ensures high > 0.0 && Resampled(Resampled(samples, rate, high), high, rate) == samples
  {
    UpLength(samples, rate, high, k);
    var up := Resampled(samples, rate, high);
    AtLeastOne(|samples|, k);
    DownLength(up, rate, high, k, |samples|);
    var back := Resampled(up, high, rate);
    forall i | 0 <= i < |samples| ensures back[i] == samples[i] { BackAt(samples, rate, high, k, i); }
  }

  /** Upsampling by a whole factor and back is the identity on every signal. */
  lemma UpAndDown(samples: seq<Sample>, rate: real, k: nat)
    requires rate > 0.0 && k >= 1
    ensures k as real * rate > 0.0
    ensures Resampled(Resampled(samples, rate, k as real * rate), k as real * rate, rate) == samples
  {
    Ratios(rate, k as real * rate, k, 0);
    if k == 1 {
      assert k as real * rate == rate;
    } else if samples != [] {
      BackAgain(samples, rate, k as real * rate, k);
    }
  }

  /** The rounding used everywhere: nearest, halves upwards. */
  lemma RoundIsNearest(x: real)
    ensures x - 0.5 < Round(x) as real <= x + 0.5
  {
  }

  /** The output is as long as the ratio of the rates asks for, to the nearest sample, and never empty. */
  lemma LengthIsNearest(samples: seq<Sample>, source: real, target: real)
    requires source > 0.0 && target > 0.0 && source != target && samples != []
    ensures var length, exact := |Resampled(samples, source, target)|, |samples| as real * target / source;
      if exact < 0.5 then length == 1 else exact - 0.5 < length as real <= exact + 0.5
  {
    RoundIsNearest(|samples| as real * target / source);
  }

  // What output sample i is taken from: that many source samples in, and never past the last.
  function SourceAt(n: nat, source: real, target: real, i: nat): real
    requires n > 0 && target > 0.0
  {
    if i as real * (source / target) < (n - 1) as real then i as real * (source / target) else (n - 1) as real
  }

  lemma OnLine(d: real, left: real, f: real)
    ensures d * left + d * f == d * (left + f) && d * (left + 1.0) - d * left == d
  {
  }

  lemma MixOnLine(c: real, d: real, a: int, b: int, left: real, f: real)
    requires a as real == c + d * left
    requires b as real == c + d * (left + 1.0) || (f == 0.0 && b == a)
    ensures Mix(a, b, f) == c + d * (left + f)
  {
    OnLine(d, left, f);
    if f != 0.0 || b != a {
      assert (b - a) as real == d;
    }
  }

  /** Interpolation is linear: a straight line resampled is the same line, rounded sample by sample. */
  lemma StraightLinesStay(samples: seq<Sample>, source: real, target: real, c: real, d: real, i: nat)
    requires samples != [] && source > 0.0 && target > 0.0
    requires forall k :: 0 <= k < |samples| ==> samples[k] as real == c + d * k as real
    ensures ResampledAt(samples, source, target, i) == Round(c + d * SourceAt(|samples|, source, target, i))
  {
    ResampledBetweenNeighbours(samples, source, target, i);
    PositionInRange(|samples|, source, target, i);
    var position := Position(|samples|, source, target, i);
    var left := position.Floor;
    var right := Min(left + 1, |samples| - 1);
    assert right == left ==> position == left as real;
    MixOnLine(c, d, samples[left], samples[right], left as real, position - left as real);
  }

  // resamplePcm16: None for a rate that is not a positive number.
  method ResamplePcm16(samples: seq<Sample>, source: real, target: real) returns (result: Option<seq<Sample>>)
    ensures result.None? <==> source <= 0.0 || target <= 0.0
    ensures result.Some? ==> result.value == Resampled(samples, source, target)
  {
    if source <= 0.0 || target <= 0.0 {
      return None;
    }
    if source == target || samples == [] {
      return Some(samples);
    }
    var length := OutputLength(|samples|, source, target);
    var output := new Sample[length];
    for index := 0 to length
      invariant forall i :: 0 <= i < index ==> output[i] == ResampledAt(samples, source, target, i)
    {
      output[index] := InterpolateAt(samples, source, target, index);
    }
    result := Some(output[..]);
  }

  // The body of the loop.
  method InterpolateAt(samples: seq<Sample>, source: real, target: real, index: nat) returns (x: Sample)
    requires samples != [] && source > 0.0 && target > 0.0
    ensures x == ResampledAt(samples, source, target, index)
  {
    var at := index as real * (source / target);
    var position := if at <= (|samples| - 1) as real then at else (|samples| - 1) as real;
    PositionInRange(|samples|, source, target, index);
    var left := position.Floor;
    var right := Min(left + 1, |samples| - 1);
    x := Clamp(Round(Mix(samples[left], samples[right], position - left as real)));
  }

  // ---------------------------------------------------------------- channels

  function Sum(xs: seq<int>): int {
    if xs == [] then 0 else Sum(xs[..|xs| - 1]) + xs[|xs| - 1]
  }

  // The interleaved samples of one frame.
  function ChannelsOf(samples: seq<Sample>, channels: nat, frame: nat): seq<int>
    requires (frame + 1) * channels <= |samples|
  {
    seq(channels, c requires 0 <= c < channels => FrameIndex(frame, channels, c, |samples|); samples[frame * channels + c])
  }

  lemma FrameIndex(frame: nat, channels: nat, c: nat, n: nat)
    requires c < channels && (frame + 1) * channels <= n
    ensures 0 <= frame * channels + c < n
  {
  }

  function Average(xs: seq<int>): real
    requires xs != []
  {
    Sum(xs) as real / |xs| as real
  }

  lemma OneMore(bound: int, n: int)
    ensures bound * (n + 1) == bound * n + bound
  {
  }

  lemma {:induction false} SumBetween(xs: seq<int>, lo: int, hi: int)
    requires forall i :: 0 <= i < |xs| ==> lo <= xs[i] <= hi
    ensures lo * |xs| <= Sum(xs) <= hi * |xs|
    decreases |xs|
  {
    if xs != [] {
      SumBetween(xs[..|xs| - 1], lo, hi);
      OneMore(lo, |xs| - 1);
      OneMore(hi, |xs| - 1);
    }
  }

  lemma NotNegative(x: real, n: real)
    requires n > 0.0 && x * n >= 0.0
    ensures x >= 0.0
  {
  }

  lemma QuotientBetween(total: int, n: nat, lo: int, hi: int)
    requires n >= 1 && lo * n <= total <= hi * n
    ensures lo as real <= total as real / n as real <= hi as real
  {
    var q := total as real / n as real;
    assert q * n as real == total as real;
    assert lo as real * n as real == (lo * n) as real && hi as real * n as real == (hi * n) as real;
    NotNegative(q - lo as real, n as real);
    NotNegative(hi as real - q, n as real);
  }

  /** The mix of a frame lies within the range of its channels, so the clamp never acts. */
  lemma AverageBetween(xs: seq<int>, lo: int, hi: int)
    requires xs != [] && forall i :: 0 <= i < |xs| ==> lo <= xs[i] <= hi
    ensures lo <= Round(Average(xs)) <= hi
  {
    SumBetween(xs, lo, hi);
    QuotientBetween(Sum(xs), |xs|, lo, hi);
    RoundBetween(lo, Average(xs), hi);
  }

  // mono is the mix of the interleaved samples, frame by frame.
  ghost predicate Mixes(samples: seq<Sample>, channels: nat, mono: seq<Sample>) {
    && channels >= 1 && |mono| * channels == |samples|
    && forall f :: 0 <= f < |mono| ==> Mixed(samples, channels, f, mono[f])
  }

  ghost predicate Mixed(samples: seq<Sample>, channels: nat, f: nat, x: Sample) {
    channels >= 1 && (f + 1) * channels <= |samples| && x == Round(Average(ChannelsOf(samples, channels, f)))
  }

  lemma SumOfTwo(x: int, y: int)
    ensures Sum([x, y]) == x + y
  {
    assert [x, y][..1] == [x] && [x][..0] == [];
    assert Sum([x]) == Sum([]) + x;
  }

  lemma HalfUp(s: int)
    ensures Round(s as real / 2.0) == (s + 1) / 2
  {
    var h := (s + 1) / 2;
    assert s == 2 * h || s == 2 * h - 1;
  }

  /** Two channels become their mean, halves upwards. */
  lemma Stereo(samples: seq<Sample>, mono: seq<Sample>, f: nat)
    requires Mixes(samples, 2, mono) && f < |mono|
    ensures 2 * f + 1 < |samples| && mono[f] as int == (samples[2 * f] as int + samples[2 * f + 1] as int + 1) / 2
  {
    assert Mixed(samples, 2, f, mono[f]);
    var xs := ChannelsOf(samples, 2, f);
    assert xs == [samples[2 * f], samples[2 * f + 1]];
    SumOfTwo(samples[2 * f], samples[2 * f + 1]);
    HalfUp(samples[2 * f] as int + samples[2 * f + 1] as int);
    assert Average(xs) == Sum(xs) as real / 2.0;
  }

  lemma OneChannel(samples: seq<Sample>)
    ensures Mixes(samples, 1, samples)
  {
    forall f | 0 <= f < |samples| ensures samples[f] == Round(Average(ChannelsOf(samples, 1, f))) {
      var xs := ChannelsOf(samples, 1, f);
      assert xs == [samples[f]];
      AverageBetween(xs, samples[f], samples[f]);
    }
  }

  lemma FrameFits(frames: nat, channels: nat, frame: nat)
    requires frame < frames
    ensures (frame + 1) * channels <= frames * channels
  {
    assert (frames - (frame + 1)) * channels >= 0;
  }

  // mixToMono: None when the channel count is not positive or does not divide the sample count.
  method MixToMono(samples: seq<Sample>, channelCount: int) returns (result: Option<seq<Sample>>)
    ensures result.None? <==> channelCount < 1 || |samples| % channelCount != 0
    ensures result.Some? ==> Mixes(samples, channelCount, result.value)
  {
    if channelCount < 1 || |samples| % channelCount != 0 {
      return None;
    }
    if channelCount == 1 {
      OneChannel(samples);
      return Some(samples);
    }
    var mono := MixFrames(samples, channelCount, |samples| / channelCount);
    result := Some(mono);
  }

  // The loop over the frames.
  method MixFrames(samples: seq<Sample>, channels: nat, frames: nat) returns (result: seq<Sample>)
    requires channels >= 1 && frames * channels == |samples|
    ensures Mixes(samples, channels, result)
  {
    var mono := new Sample[frames];
    for frame := 0 to frames
      invariant forall f :: 0 <= f < frame ==> Mixed(samples, channels, f, mono[f])
    {
      FrameFits(frames, channels, frame);
      mono[frame] := MixFrame(samples, channels, frame);
    }
    result := mono[..];
  }

  method MixFrame(samples: seq<Sample>, channelCount: nat, frame: nat) returns (x: Sample)
    requires channelCount >= 1 && (frame + 1) * channelCount <= |samples|
    ensures x == Round(Average(ChannelsOf(samples, channelCount, frame)))
  {
    ghost var xs := ChannelsOf(samples, channelCount, frame);
    var total: int := 0;
    for channel := 0 to channelCount
      invariant total == Sum(xs[..channel])
    {
      FrameIndex(frame, channelCount, channel, |samples|);
      assert xs[..channel + 1][..channel] == xs[..channel];
      total := total + samples[frame * channelCount + channel];
    }
    assert xs[..channelCount] == xs;
    AverageBetween(xs, -32768, 32767);
    x := Clamp(Round(total as real / channelCount as real));
  }

  // ---------------------------------------------------------------- frames

  type Frame = seq<Sample>

  function Zeros(n: nat): seq<Sample> { seq(n, _ => 0) }

  function Flatten(frames: seq<Frame>): seq<Sample> {
    if frames == [] then [] else Flatten(frames[..|frames| - 1]) + frames[|frames| - 1]
  }

  lemma FlattenSnoc(frames: seq<Frame>, frame: Frame)
    ensures Flatten(frames + [frame]) == Flatten(frames) + frame
  {
    assert (frames + [frame])[..|frames|] == frames;
  }

  lemma {:induction false} FlattenAppend(a: seq<Frame>, b: seq<Frame>)
    ensures Flatten(a + b) == Flatten(a) + Flatten(b)
    decreases |b|
  {
    if b == [] {
      assert a + b == a;
    } else {
      FlattenAppend(a, b[..|b| - 1]);
      assert (a + b)[..|a + b| - 1] == a + b[..|b| - 1];
    }
  }

  // A last frame shorter than `size` is filled up with silence.
  function Padded(frame: seq<Sample>, size: nat): Frame
    requires |frame| <= size
  {
    frame + Zeros(size - |frame|)
  }

  // chunkPcm: every frame has the same size, and together they are the samples and some silence.
  method ChunkPcm(samples: seq<Sample>, sampleRate: real, frameDurationMs: real)
    returns (result: Option<seq<Frame>>)
    ensures result.None? <==>
      sampleRate <= 0.0 || frameDurationMs <= 0.0 || Round(sampleRate * frameDurationMs / 1000.0) < 1
    ensures result.Some? ==>
      var size := Round(sampleRate * frameDurationMs / 1000.0);
      && (forall i :: 0 <= i < |result.value| ==> |result.value[i]| == size)
      && exists pad :: 0 <= pad < size && Flatten(result.value) == samples + Zeros(pad)
  {
    if sampleRate <= 0.0 || frameDurationMs <= 0.0 {
      return None;
    }
    var size := Round(sampleRate * frameDurationMs / 1000.0);
    if size < 1 {
      return None;
    }
    var chunks: seq<Frame>, offset, pad := [], 0, 0;
    assert samples[..0] + Zeros(0) == [];
    while offset < |samples|
      invariant 0 <= offset && 0 <= pad < size && (pad > 0 ==> offset >= |samples|)
      invariant forall i :: 0 <= i < |chunks| ==> |chunks[i]| == size
      invariant Flatten(chunks) == samples[..Min(offset, |samples|)] + Zeros(pad)
      decreases |samples| - offset
    {
      var count := Min(size, |samples| - offset);
      var frame := Padded(samples[offset..offset + count], size);
      FlattenSnoc(chunks, frame);
      chunks := chunks + [frame];
      pad := size - count;
      assert samples[..offset] + Zeros(0) == samples[..offset];
      assert samples[..offset] + samples[offset..offset + count] == samples[..offset + count];
      offset := offset + size;
    }
    assert samples[..Min(offset, |samples|)] == samples;
    result := Some(chunks);
  }

  // ---------------------------------------------------------------- bytes

  // Little-endian two's complement.
  function ToBytes16(x: Sample): seq<Byte> {
    var u := if x < 0 then x + 65536 else x;
    [u % 256, u / 256]
  }

  function FromBytes16(low: Byte, high: Byte): Sample {
    var u := high * 256 + low;
    if u >= 32768 then u - 65536 else u
  }

  function ToBytes(samples: seq<Sample>): (bytes: seq<Byte>)
    ensures |bytes| == 2 * |samples|
  {
    if samples == [] then [] else ToBytes(samples[..|samples| - 1]) + ToBytes16(samples[|samples| - 1])
  }

  function FromBytes(bytes: seq<Byte>): (samples: seq<Sample>)
    requires |bytes| % 2 == 0
    ensures 2 * |samples| == |bytes|
  {
    if bytes == [] then []
    else FromBytes(bytes[..|bytes| - 2]) + [FromBytes16(bytes[|bytes| - 2], bytes[|bytes| - 1])]
  }

  lemma {:induction false} ToBytesAppend(a: seq<Sample>, b: seq<Sample>)
    ensures ToBytes(a + b) == ToBytes(a) + ToBytes(b)
    decreases |b|
  {
    if b == [] {
      assert a + b == a;
    } else {
      ToBytesAppend(a, b[..|b| - 1]);
      assert (a + b)[..|a + b| - 1] == a + b[..|b| - 1];
    }
  }

  lemma PairRoundTrip(x: Sample)
    ensures FromBytes16(ToBytes16(x)[0], ToBytes16(x)[1]) == x
  {
  }

  lemma {:induction false} ToBytesAt(samples: seq<Sample>, i: nat)
    requires i < |samples|
    ensures ToBytes(samples)[2 * i] == ToBytes16(samples[i])[0] && ToBytes(samples)[2 * i + 1] == ToBytes16(samples[i])[1]
    decreases |samples|
  {
    if i < |samples| - 1 {
      ToBytesAt(samples[..|samples| - 1], i);
    }
  }

  lemma {:induction false} FromBytesAt(bytes: seq<Byte>, i: nat)
    requires |bytes| % 2 == 0 && 2 * i < |bytes|
    ensures FromBytes(bytes)[i] == FromBytes16(bytes[2 * i], bytes[2 * i + 1])
    decreases |bytes|
  {
    if 2 * i < |bytes| - 2 {
      FromBytesAt(bytes[..|bytes| - 2], i);
    }
  }

  /** The low byte comes first, negative samples in two's complement. */
  lemma LittleEndian(samples: seq<Sample>, i: nat)
    requires i < |samples|
    ensures |ToBytes(samples)| == 2 * |samples|
    ensures ToBytes(samples)[2 * i] as int + 256 * (ToBytes(samples)[2 * i + 1] as int) ==
      if samples[i] < 0 then samples[i] as int + 65536 else samples[i] as int
  {
    ToBytesAt(samples, i);
  }

  /** Samples and even-length byte strings correspond one to one. */
  lemma BytesRoundTrip(samples: seq<Sample>)
    ensures FromBytes(ToBytes(samples)) == samples
  {
    var bytes := ToBytes(samples);
    var back := FromBytes(bytes);
    forall i | 0 <= i < |samples| ensures back[i] == samples[i] {
      ToBytesAt(samples, i);
      FromBytesAt(bytes, i);
      PairRoundTrip(samples[i]);
    }
  }

  lemma {:induction false} SamplesRoundTrip(bytes: seq<Byte>)
    requires |bytes| % 2 == 0
    ensures ToBytes(FromBytes(bytes)) == bytes
    decreases |bytes|
  {
    if bytes != [] {
      var samples := FromBytes(bytes);
      SamplesRoundTrip(bytes[..|bytes| - 2]);
      assert samples[..|samples| - 1] == FromBytes(bytes[..|bytes| - 2]);
    }
  }

  method Int16ToBuffer(samples: seq<Sample>) returns (bytes: seq<Byte>)
    ensures bytes == ToBytes(samples)
  {
    var buffer := new Byte[|samples| * 2];
    for index := 0 to |samples|
      invariant buffer[..2 * index] == ToBytes(samples[..index])
    {
      var u := if samples[index] < 0 then samples[index] + 65536 else samples[index] as int;
      buffer[index * 2], buffer[index * 2 + 1] := u % 256, u / 256;
      assert samples[..index + 1][..index] == samples[..index];
      assert buffer[..2 * (index + 1)] == buffer[..2 * index] + ToBytes16(samples[index]);
    }
    assert samples[..|samples|] == samples;
    bytes := buffer[..];
  }

  // None for an odd number of bytes.
  method BufferToInt16(bytes: seq<Byte>) returns (result: Option<seq<Sample>>)
    ensures result.None? <==> |bytes| % 2 != 0
    ensures result.Some? ==> result.value == FromBytes(bytes)
  {
    if |bytes| % 2 != 0 {
      return None;
    }
    var samples := new Sample[|bytes| / 2];
    for index := 0 to |bytes| / 2
      invariant samples[..index] == FromBytes(bytes[..2 * index])
    {
      samples[index] := FromBytes16(bytes[index * 2], bytes[index * 2 + 1]);
      assert bytes[..2 * (index + 1)][..2 * index] == bytes[..2 * index];
      assert samples[..index + 1] == samples[..index] + [samples[index]];
    }
    assert bytes[..|bytes|] == bytes;
    result := Some(samples[..]);
  }
}
