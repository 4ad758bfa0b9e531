/** The WAVE files the artifact store writes, and a strict reader of that form. */
module Wav {
  import opened Options
  import opened Pcm

  const RIFF: seq<Byte> := [0x52, 0x49, 0x46, 0x46]
  const WAVE: seq<Byte> := [0x57, 0x41, 0x56, 0x45]
  const FMT: seq<Byte> := [0x66, 0x6D, 0x74, 0x20]
  const DATA: seq<Byte> := [0x64, 0x61, 0x74, 0x61]
  const TWO_32: int := 0x1_0000_0000
  const TWO_16: int := 0x1_0000

  function U16(v: int): seq<Byte>
    requires 0 <= v < TWO_16
  {
    [v % 256, v / 256]
  }

  function U32(v: int): seq<Byte>
    requires 0 <= v < TWO_32
  {
    U16(v % TWO_16) + U16(v / TWO_16)
  }

  function ReadU16(b: seq<Byte>): nat
    requires |b| == 2
  {
    b[0] as int + 256 * (b[1] as int)
  }

  function ReadU32(b: seq<Byte>): nat
    requires |b| == 4
  {
    ReadU16(b[..2]) + TWO_16 * ReadU16(b[2..])
  }

  lemma U32RoundTrip(v: int)
    requires 0 <= v < TWO_32
    ensures |U32(v)| == 4 && ReadU32(U32(v)) == v
  {
    var b := U32(v);
    assert b[..2] == U16(v % TWO_16) && b[2..] == U16(v / TWO_16);
  }

  function ByteRate(sampleRate: nat, channels: nat): nat { sampleRate * channels * 2 }

  // Every field fits its width; otherwise writing the header throws.
  predicate Fits(dataBytes: nat, sampleRate: nat, channels: nat) {
    36 + dataBytes < TWO_32 && sampleRate < TWO_32 && ByteRate(sampleRate, channels) < TWO_32 && channels * 2 < TWO_16
  }

  function Header(dataBytes: nat, sampleRate: nat, channels: nat): seq<Byte>
    requires Fits(dataBytes, sampleRate, channels)
  {
    HeaderOf(dataBytes, sampleRate, ByteRate(sampleRate, channels), channels)
  }

  function HeaderOf(dataBytes: nat, sampleRate: nat, byteRate: nat, channels: nat): seq<Byte>
    requires 36 + dataBytes < TWO_32 && sampleRate < TWO_32 && byteRate < TWO_32 && channels * 2 < TWO_16
  {
    RiffChunk(dataBytes) + FormatChunk(sampleRate, byteRate, channels) + DataChunk(dataBytes)
  }

  function RiffChunk(dataBytes: nat): seq<Byte>
    requires 36 + dataBytes < TWO_32
  {
    RIFF + U32(36 + dataBytes) + WAVE
  }

  function FormatChunk(sampleRate: nat, byteRate: nat, channels: nat): seq<Byte>
    requires sampleRate < TWO_32 && byteRate < TWO_32 && channels * 2 < TWO_16
  {
    FMT + U32(16) + U16(1) + U16(channels) + U32(sampleRate) + U32(byteRate) + U16(channels * 2) + U16(16)
  }

  // The head of the last chunk; the samples follow it.
  function DataChunk(dataBytes: nat): seq<Byte>
    requires dataBytes < TWO_32
  {
    DATA + U32(dataBytes)
  }

  datatype Wave = Wave(sampleRate: nat, channels: nat, samples: seq<Sample>)

  // The rate and channel count in the header of a file of this length; None unless it is a plain
  // 16-bit PCM WAVE header whose two size fields agree with the length.
  function ParseHeader(h: seq<Byte>, length: nat): Option<(nat, nat)>
    requires |h| == 44
  {
    var channels, sampleRate := ReadU16(h[22..24]), ReadU32(h[24..28]);
    if && h[0..4] == RIFF && ReadU32(h[4..8]) == length - 8 && h[8..12] == WAVE
       && h[12..16] == FMT && ReadU32(h[16..20]) == 16 && ReadU16(h[20..22]) == 1
       && ReadU32(h[28..32]) == ByteRate(sampleRate, channels) && ReadU16(h[32..34]) == channels * 2
       && ReadU16(h[34..36]) == 16
       && h[36..40] == DATA && ReadU32(h[40..44]) == length - 44
    then Some((sampleRate, channels)) else None
  }

  function ParseWav(file: seq<Byte>): Option<Wave> {
    if |file| < 44 || (|file| - 44) % 2 != 0 then None
    else
      var format := ParseHeader(file[..44], |file|);
      if format.None? then None
      else Some(Wave(format.value.0, format.value.1, FromBytes(file[44..])))
  }

  lemma RiffFields(dataBytes: nat)
    requires 36 + dataBytes < TWO_32
    ensures var c := RiffChunk(dataBytes);
      |c| == 12 && c[0..4] == RIFF && c[4..8] == U32(36 + dataBytes) && c[8..12] == WAVE
  {
  }

  lemma FormatFields(sampleRate: nat, byteRate: nat, channels: nat)
    requires sampleRate < TWO_32 && byteRate < TWO_32 && channels * 2 < TWO_16
    ensures var c := FormatChunk(sampleRate, byteRate, channels);
      && |c| == 24
      && c[0..4] == FMT && c[4..8] == U32(16) && c[8..10] == U16(1) && c[10..12] == U16(channels)
      && c[12..16] == U32(sampleRate) && c[16..20] == U32(byteRate)
      && c[20..22] == U16(channels * 2) && c[22..24] == U16(16)
  {
  }

  lemma DataFields(dataBytes: nat)
    requires dataBytes < TWO_32
    ensures var c := DataChunk(dataBytes); |c| == 8 && c[0..4] == DATA && c[4..8] == U32(dataBytes)
  {
  }

  // The header cut at its field boundaries.
  lemma HeaderFields(dataBytes: nat, sampleRate: nat, byteRate: nat, channels: nat)
    requires 36 + dataBytes < TWO_32 && sampleRate < TWO_32 && byteRate < TWO_32 && channels * 2 < TWO_16
    ensures var h := HeaderOf(dataBytes, sampleRate, byteRate, channels);
      && |h| == 44
      && h[0..4] == RIFF && h[4..8] == U32(36 + dataBytes) && h[8..12] == WAVE
      && h[12..16] == FMT && h[16..20] == U32(16) && h[20..22] == U16(1) && h[22..24] == U16(channels)
      && h[24..28] == U32(sampleRate) && h[28..32] == U32(byteRate)
      && h[32..34] == U16(channels * 2) && h[34..36] == U16(16)
      && h[36..40] == DATA && h[40..44] == U32(dataBytes)
  {
    RiffFields(dataBytes);
    FormatFields(sampleRate, byteRate, channels);
    DataFields(dataBytes);
    Chunks(RiffChunk(dataBytes), FormatChunk(sampleRate, byteRate, channels), DataChunk(dataBytes));
  }

  // Three chunks end to end, read at the places of the fields.
  lemma Chunks(riff: seq<Byte>, format: seq<Byte>, data: seq<Byte>)
    requires |riff| == 12 && |format| == 24 && |data| == 8
    ensures var h := riff + format + data;
      && |h| == 44
      && h[0..4] == riff[0..4] && h[4..8] == riff[4..8] && h[8..12] == riff[8..12]
      && h[12..16] == format[0..4] && h[16..20] == format[4..8] && h[20..22] == format[8..10]
      && h[22..24] == format[10..12] && h[24..28] == format[12..16] && h[28..32] == format[16..20]
      && h[32..34] == format[20..22] && h[34..36] == format[22..24]
      && h[36..40] == data[0..4] && h[40..44] == data[4..8]
  {
    var h := riff + format + data;
    assert h[..12] == riff && h[12..36] == format && h[36..] == data;
    forall lo: nat, i: nat, j: nat | lo + i <= lo + j <= 44 && i <= j ensures h[lo..][i..j] == h[lo + i..lo + j] {
    }
  }

  lemma U16RoundTrip(v: int)
    requires 0 <= v < TWO_16
    ensures |U16(v)| == 2 && ReadU16(U16(v)) == v
  {
  }

  lemma FieldsRead(h: seq<Byte>, dataBytes: nat, sampleRate: nat, byteRate: nat, channels: nat)
    requires 36 + dataBytes < TWO_32 && sampleRate < TWO_32 && byteRate < TWO_32 && channels * 2 < TWO_16
    requires |h| == 44
    requires h[4..8] == U32(36 + dataBytes) && h[16..20] == U32(16) && h[20..22] == U16(1) && h[22..24] == U16(channels)
    requires h[24..28] == U32(sampleRate) && h[28..32] == U32(byteRate)
    requires h[32..34] == U16(channels * 2) && h[34..36] == U16(16) && h[40..44] == U32(dataBytes)
    ensures ReadU32(h[4..8]) == 36 + dataBytes && ReadU32(h[40..44]) == dataBytes
    ensures ReadU32(h[16..20]) == 16 && ReadU16(h[20..22]) == 1 && ReadU16(h[34..36]) == 16
    ensures ReadU16(h[22..24]) == channels && ReadU16(h[32..34]) == channels * 2
    ensures ReadU32(h[24..28]) == sampleRate && ReadU32(h[28..32]) == byteRate
  {
    U32RoundTrip(36 + dataBytes);
    U32RoundTrip(16);
    U32RoundTrip(sampleRate);
    U32RoundTrip(byteRate);
    U32RoundTrip(dataBytes);
    U16RoundTrip(1);
    U16RoundTrip(16);
    U16RoundTrip(channels);
    U16RoundTrip(channels * 2);
  }

  lemma HeaderRoundTrip(dataBytes: nat, sampleRate: nat, channels: nat)
    requires Fits(dataBytes, sampleRate, channels)
    ensures |Header(dataBytes, sampleRate, channels)| == 44
    ensures ParseHeader(Header(dataBytes, sampleRate, channels), 44 + dataBytes) == Some((sampleRate, channels))
  {
    var h := HeaderOfRoundTrip(dataBytes, sampleRate, ByteRate(sampleRate, channels), channels);
  }

  lemma HeaderOfRoundTrip(dataBytes: nat, sampleRate: nat, byteRate: nat, channels: nat) returns (h: seq<Byte>)
    requires 36 + dataBytes < TWO_32 && sampleRate < TWO_32 && byteRate < TWO_32 && channels * 2 < TWO_16
    requires byteRate == ByteRate(sampleRate, channels)
    ensures h == HeaderOf(dataBytes, sampleRate, byteRate, channels)
    ensures |h| == 44 && ParseHeader(h, 44 + dataBytes) == Some((sampleRate, channels))
  {
    h := HeaderOf(dataBytes, sampleRate, byteRate, channels);
    HeaderFields(dataBytes, sampleRate, byteRate, channels);
    ReadsBack(h, dataBytes, sampleRate, byteRate, channels);
  }

  lemma ReadsBack(h: seq<Byte>, dataBytes: nat, sampleRate: nat, byteRate: nat, channels: nat)
    requires 36 + dataBytes < TWO_32 && sampleRate < TWO_32 && byteRate < TWO_32 && channels * 2 < TWO_16
    requires byteRate == ByteRate(sampleRate, channels)
    requires |h| == 44 && h[0..4] == RIFF && h[8..12] == WAVE && h[12..16] == FMT && h[36..40] == DATA
    requires h[4..8] == U32(36 + dataBytes) && h[16..20] == U32(16) && h[20..22] == U16(1) && h[22..24] == U16(channels)
    requires h[24..28] == U32(sampleRate) && h[28..32] == U32(byteRate)
    requires h[32..34] == U16(channels * 2) && h[34..36] == U16(16) && h[40..44] == U32(dataBytes)
    ensures ParseHeader(h, 44 + dataBytes) == Some((sampleRate, channels))
  {
    FieldsRead(h, dataBytes, sampleRate, byteRate, channels);
    FieldsParse(h, dataBytes, sampleRate, byteRate, channels);
  }

  // Four bytes read with the least significant first.
  function Little(b: seq<Byte>, i: nat): int
    requires i + 4 <= |b|
  {
    b[i] as int + 0x100 * (b[i + 1] as int) + 0x1_0000 * (b[i + 2] as int) + 0x100_0000 * (b[i + 3] as int)
  }

  lemma LittleOf(b: seq<Byte>, i: nat, v: int)
    requires i + 4 <= |b| && 0 <= v < TWO_32 && b[i..i + 4] == U32(v)
    ensures Little(b, i) == v
  {
    var f := b[i..i + 4];
    assert b[i] == f[0] && b[i + 1] == f[1] && b[i + 2] == f[2] && b[i + 3] == f[3];
  }

  lemma LittlePair(b: seq<Byte>, i: nat, v: int)
    requires i + 2 <= |b| && 0 <= v < TWO_16 && b[i..i + 2] == U16(v)
    ensures b[i] as int + 0x100 * (b[i + 1] as int) == v
  {
    var f := b[i..i + 2];
    assert b[i] == f[0] && b[i + 1] == f[1];
  }

  // A header byte by byte: the four tags, and every number with its least significant byte first.
  ghost predicate Spelled(h: seq<Byte>, dataBytes: nat, sampleRate: nat, byteRate: nat, channels: nat) {
    && |h| == 44
    && h[0..4] == [0x52, 0x49, 0x46, 0x46] && h[8..12] == [0x57, 0x41, 0x56, 0x45]
    && h[12..16] == [0x66, 0x6D, 0x74, 0x20] && h[36..40] == [0x64, 0x61, 0x74, 0x61]
    && h[16..20] == [16, 0, 0, 0] && h[20..22] == [1, 0] && h[34..36] == [16, 0]
    && Little(h, 4) == 36 + dataBytes && Little(h, 40) == dataBytes
    && Little(h, 24) == sampleRate && Little(h, 28) == byteRate
    && h[22] as int + 0x100 * (h[23] as int) == channels && h[32] as int + 0x100 * (h[33] as int) == channels * 2
  }

  lemma FieldsSpell(h: seq<Byte>, dataBytes: nat, sampleRate: nat, byteRate: nat, channels: nat)
    requires 36 + dataBytes < TWO_32 && sampleRate < TWO_32 && byteRate < TWO_32 && channels * 2 < TWO_16
    requires |h| == 44 && h[0..4] == RIFF && h[8..12] == WAVE && h[12..16] == FMT && h[36..40] == DATA
    requires h[16..20] == U32(16) && h[20..22] == U16(1) && h[34..36] == U16(16)
    requires h[4..8] == U32(36 + dataBytes) && h[40..44] == U32(dataBytes)
    requires h[24..28] == U32(sampleRate) && h[28..32] == U32(byteRate)
    requires h[22..24] == U16(channels) && h[32..34] == U16(channels * 2)
    ensures Spelled(h, dataBytes, sampleRate, byteRate, channels)
  {
    LittleOf(h, 4, 36 + dataBytes);
    LittleOf(h, 40, dataBytes);
    LittleOf(h, 24, sampleRate);
    LittleOf(h, 28, byteRate);
    LittlePair(h, 22, channels);
    LittlePair(h, 32, channels * 2);
    assert U32(16) == [16, 0, 0, 0] && U16(1) == [1, 0] && U16(16) == [16, 0];
  }

  /** The bytes of the canonical 44-byte header: 16-bit PCM, its sizes, rate and channels. */
  lemma HeaderBytes(h: seq<Byte>, dataBytes: nat, sampleRate: nat, channels: nat, byteRate: nat)
    requires Fits(dataBytes, sampleRate, channels) && h == Header(dataBytes, sampleRate, channels)
    requires byteRate == ByteRate(sampleRate, channels)
    ensures Spelled(h, dataBytes, sampleRate, byteRate, channels) && byteRate == 2 * channels * sampleRate
  {
    HeaderFields(dataBytes, sampleRate, byteRate, channels);
    FieldsSpell(h, dataBytes, sampleRate, byteRate, channels);
    TwoBytesASample(sampleRate, channels);
  }

  lemma TwoBytesASample(sampleRate: nat, channels: nat)
    ensures ByteRate(sampleRate, channels) == 2 * channels * sampleRate
  {
  }

  // A header with these fields is read as them.
  lemma FieldsParse(h: seq<Byte>, dataBytes: nat, sampleRate: nat, byteRate: nat, channels: nat)
    requires |h| == 44 && h[0..4] == RIFF && h[8..12] == WAVE && h[12..16] == FMT && h[36..40] == DATA
    requires ReadU32(h[4..8]) == 36 + dataBytes && ReadU32(h[40..44]) == dataBytes
    requires ReadU32(h[16..20]) == 16 && ReadU16(h[20..22]) == 1 && ReadU16(h[34..36]) == 16
    requires ReadU16(h[22..24]) == channels && ReadU16(h[32..34]) == channels * 2
    requires ReadU32(h[24..28]) == sampleRate && ReadU32(h[28..32]) == byteRate == ByteRate(sampleRate, channels)
    ensures ParseHeader(h, 44 + dataBytes) == Some((sampleRate, channels))
  {
  }

  // Reading cuts a file at the end of its header.
  lemma ReadAfterHeader(head: seq<Byte>, data: seq<Byte>)
    requires |head| == 44
    ensures var file := head + data; |file| == 44 + |data| && file[..44] == head && file[44..] == data
  {
  }

  /** A header followed by the data it announces is read back as that data, decoded. */
  lemma ReadsAs(head: seq<Byte>, data: seq<Byte>, sampleRate: nat, channels: nat)
    requires |data| % 2 == 0 && Fits(|data|, sampleRate, channels)
    requires head == Header(|data|, sampleRate, channels)
    ensures ParseWav(head + data) == Some(Wave(sampleRate, channels, FromBytes(data)))
  {
    HeaderRoundTrip(|data|, sampleRate, channels);
    ReadAfterHeader(head, data);
  }

  lemma DecodesTo(data: seq<Byte>, samples: seq<Sample>)
    requires data == ToBytes(samples)
    ensures |data| % 2 == 0 && FromBytes(data) == samples
  {
    BytesRoundTrip(samples);
  }

  // A positioned write; a gap before it is filled with zeros.
  function WriteAt(file: seq<Byte>, bytes: seq<Byte>, at: nat): seq<Byte> {
    if at > |file| then file + seq(at - |file|, _ => 0) + bytes
    else if at + |bytes| >= |file| then file[..at] + bytes
    else file[..at] + bytes + file[at + |bytes|..]
  }

  // The bytes after the header of an open file are those appended so far.
  ghost predicate Growing(file: seq<Byte>, dataBytes: nat, appended: seq<Sample>) {
    |file| == 44 + dataBytes && dataBytes == 2 * |appended| && file[44..] == ToBytes(appended)
  }

  lemma GrowingStarts(head: seq<Byte>)
    requires |head| == 44
    ensures WriteAt([], head, 0) == head && Growing(head, 0, [])
  {
    assert ToBytes([]) == [];
  }

  lemma AppendAtEnd(file: seq<Byte>, more: seq<Byte>, from: nat)
    requires from <= |file|
    ensures var grown := WriteAt(file, more, |file|);
      |grown| == |file| + |more| && grown[from..] == file[from..] + more
  {
  }

  /** A write at the end of the data extends the file by exactly the new samples. */
  lemma GrowingGrows(file: seq<Byte>, dataBytes: nat, appended: seq<Sample>, more: seq<Sample>)
    requires Growing(file, dataBytes, appended)
    ensures Growing(WriteAt(file, ToBytes(more), 44 + dataBytes), dataBytes + 2 * |more|, appended + more)
  {
    ToBytesAppend(appended, more);
    AppendAtEnd(file, ToBytes(more), 44);
  }

  /** Rewriting the header with the final size makes the file readable: everything appended, in order. */
  lemma GrowingEnds(file: seq<Byte>, head: seq<Byte>, dataBytes: nat, appended: seq<Sample>, sampleRate: nat, channels: nat)
    requires Growing(file, dataBytes, appended)
    requires Fits(dataBytes, sampleRate, channels) && head == Header(dataBytes, sampleRate, channels)
    ensures var final := WriteAt(file, head, 0);
      |final| == 44 + dataBytes && ParseWav(final) == Some(Wave(sampleRate, channels, appended))
  {
    HeaderRoundTrip(dataBytes, sampleRate, channels);
    OverwriteHeader(file, head);
    DecodesTo(file[44..], appended);
    ReadsAs(head, file[44..], sampleRate, channels);
  }

  lemma OverwriteHeader(file: seq<Byte>, head: seq<Byte>)
    requires |head| == 44 <= |file|
    ensures WriteAt(file, head, 0) == head + file[44..]
  {
  }
}
