/** The recorder of a call: one WAVE file per speaker, grown by positioned writes. */
module AudioArtifactStore {
  import opened Options
  import opened Pcm
  import opened Wav

  // A file is named by its call and its speaker.
  datatype Path = Path(callId: string, speaker: string)

  lemma DistinctPaths(callId: string)
    ensures Path(callId, AGENT) != Path(callId, MOBILE)
  {
    assert |AGENT| != |MOBILE|;
  }

  type Positive = n: int | n >= 1 witness 1

  datatype Writer = Writer(sampleRate: Positive, channelCount: Positive, dataBytes: nat)

  datatype Asset = Asset(speaker: string, bytes: nat, durationMs: int, sampleRate: nat, channelCount: nat)

  datatype AppendResult = Appended | Rejected | FileExists | HeaderOverflow | FormatChanged

  const AGENT: string := "agent"
  const MOBILE: string := "mobile"

  predicate IdChar(c: char) {
    '0' <= c <= '9' || 'a' <= c <= 'f' || 'A' <= c <= 'F' || c == '-'
  }

  predicate ValidId(callId: string) {
    16 <= |callId| <= 64 && forall i :: 0 <= i < |callId| ==> IdChar(callId[i])
  }

  predicate ValidFormat(sampleRate: int, channelCount: int) { sampleRate >= 8000 && 1 <= channelCount <= 2 }

  function DurationMs(w: Writer): int
  {
    Round(w.dataBytes as real / (w.sampleRate * w.channelCount * 2) as real * 1000.0)
  }

  // A whole number of milliseconds that is nearest to the time this much sound lasts.
  predicate Lasts(ms: int, samples: nat, sampleRate: nat, channels: nat) {
    var perSecond := sampleRate * channels;
    2000 * samples - perSecond <= 2 * (ms * perSecond) <= 2000 * samples + perSecond
  }

  lemma NearestTo(ms: int, x: real, d: real, all: real, exact: real)
    requires d > 0.0 && ms == Round(x) && all == ms as real * d && exact == x * d
    ensures 2.0 * exact - d <= 2.0 * all <= 2.0 * exact + d
  {
    var off := ms as real - x;
    assert -0.5 <= off <= 0.5;
    assert off * d == all - exact;
    assert -0.5 * d <= off * d <= 0.5 * d;
  }

  lemma PlayingTime(bytes: real, twice: real, perSecond: real)
    requires perSecond > 0.0 && twice == 2.0 * perSecond
    ensures bytes / twice * 1000.0 * perSecond == 500.0 * bytes
  {
    var t := bytes / twice;
    assert t * twice == bytes;
    assert t * 1000.0 * perSecond == 500.0 * (t * twice);
  }

  lemma InWhole(a: int, all: real, b: int, n: int)
    requires all == a as real && 2.0 * (1000.0 * b as real) - n as real <= 2.0 * all <= 2.0 * (1000.0 * b as real) + n as real
    ensures 2000 * b - n <= 2 * a <= 2000 * b + n
  {
  }

  lemma ProductAsReal(a: int, b: int)
    ensures a as real * b as real == (a * b) as real
  {
  }

  lemma DurationAt(ms: int, x: real, samples: nat, perSecond: nat, d: real)
    requires perSecond > 0 && d == perSecond as real && ms == Round(x) && x * d == 1000.0 * samples as real
    ensures 2000 * samples - perSecond <= 2 * (ms * perSecond) <= 2000 * samples + perSecond
  {
    var all := ms as real * d;
    NearestTo(ms, x, d, all, 1000.0 * samples as real);
    ProductAsReal(ms, perSecond);
    InWhole(ms * perSecond, all, samples, perSecond);
  }

  lemma DurationIsNearest(w: Writer, samples: nat)
    requires w.dataBytes == 2 * samples
    ensures Lasts(DurationMs(w), samples, w.sampleRate, w.channelCount)
  {
    var perSecond := w.sampleRate * w.channelCount;
    assert perSecond > 0;
    var bytes, twice := w.dataBytes as real, (perSecond * 2) as real;
    PlayingTime(bytes, twice, perSecond as real);
    assert 500.0 * bytes == 1000.0 * samples as real;
    assert perSecond * 2 == w.sampleRate * w.channelCount * 2;
    DurationAt(DurationMs(w), bytes / twice * 1000.0, samples, perSecond, perSecond as real);
  }

  /** A call's id is 16 to 64 hexadecimal digits and hyphens, in either case. */
  lemma IdExact(callId: string)
    ensures ValidId(callId) <==>
      16 <= |callId| <= 64 && forall c :: c in callId ==> c in "0123456789abcdefABCDEF-"
  {
    forall i | 0 <= i < |callId| ensures IdChar(callId[i]) <==> callId[i] in "0123456789abcdefABCDEF-" {
      IdCharExact(callId[i]);
    }
    forall c | c in callId && ValidId(callId) ensures c in "0123456789abcdefABCDEF-" {
      IdCharExact(c);
    }
  }

  lemma IdCharExact(c: char)
    ensures IdChar(c) <==> c in "0123456789abcdefABCDEF-"
  {
    var all := "0123456789" + "abcdef" + "ABCDEF" + "-";
    assert all == "0123456789abcdefABCDEF-";
    assert '0' <= c <= '9' <==> c in "0123456789";
    assert 'a' <= c <= 'f' <==> c in "abcdef";
    assert 'A' <= c <= 'F' <==> c in "ABCDEF";
    assert c == '-' <==> c in "-";
  }

  // An entry tells of the file it lists: its size, its format, its sound and how long it lasts.
  ghost predicate Tells(asset: Asset, callId: string, files: map<Path, seq<Byte>>, appended: map<Path, seq<Sample>>) {
    var path := Path(callId, asset.speaker);
    && path in files && path in appended
    && asset.bytes == |files[path]| == 44 + 2 * |appended[path]|
    && ParseWav(files[path]) == Some(Wave(asset.sampleRate, asset.channelCount, appended[path]))
    && Lasts(asset.durationMs, |appended[path]|, asset.sampleRate, asset.channelCount)
  }

  ghost predicate AllTell(assets: seq<Asset>, callId: string, files: map<Path, seq<Byte>>, appended: map<Path, seq<Sample>>) {
    forall asset :: asset in assets ==> Tells(asset, callId, files, appended)
  }

  function Speakers(assets: seq<Asset>): seq<string> { seq(|assets|, i requires 0 <= i < |assets| => assets[i].speaker) }

  // Whom the call is being recorded for.
  function Recorded(writers: map<Path, Writer>, callId: string): seq<string> {
    (if Path(callId, "agent") in writers then ["agent"] else [])
    + (if Path(callId, "mobile") in writers then ["mobile"] else [])
  }

  ghost predicate JustClosed(w: Writer, path: Path, closed: map<Path, Wave>, appended: map<Path, seq<Sample>>) {
    && path in closed && path in appended
    && closed[path] == Sound(w, appended[path]) && w.dataBytes == 2 * |appended[path]|
  }

  // The entry for a recording just closed tells of its file.
  lemma ListedTells(callId: string, speaker: string, w: Option<Writer>, files: map<Path, seq<Byte>>,
                    writers: map<Path, Writer>, closed: map<Path, Wave>, appended: map<Path, seq<Sample>>)
    requires AllReadable(files, writers, closed)
    requires w.Some? ==> JustClosed(w.value, Path(callId, speaker), closed, appended)
    ensures AllTell(Listed(speaker, w), callId, files, appended)
    ensures Speakers(Listed(speaker, w)) == if w.Some? then [speaker] else []
  {
    if w.Some? {
      assert ReadableAt(files, writers, closed, Path(callId, speaker));
      DurationIsNearest(w.value, |appended[Path(callId, speaker)]|);
    }
  }

  lemma BothTell(callId: string, first: Option<Writer>, second: Option<Writer>, files: map<Path, seq<Byte>>,
                 writers: map<Path, Writer>, closed: map<Path, Wave>, appended: map<Path, seq<Sample>>)
    requires AllReadable(files, writers, closed)
    requires first.Some? ==> JustClosed(first.value, Path(callId, AGENT), closed, appended)
    requires second.Some? ==> JustClosed(second.value, Path(callId, MOBILE), closed, appended)
    ensures var assets := Listed(AGENT, first) + Listed(MOBILE, second);
      && AllTell(assets, callId, files, appended)
      && Speakers(assets) == (if first.Some? then [AGENT] else []) + (if second.Some? then [MOBILE] else [])
  {
    ListedTells(callId, AGENT, first, files, writers, closed, appended);
    ListedTells(callId, MOBILE, second, files, writers, closed, appended);
    var one, two := Listed(AGENT, first), Listed(MOBILE, second);
    assert Speakers(one + two) == Speakers(one) + Speakers(two);
  }

  // A file being written: the samples so far follow its header.
  ghost predicate Recording(file: seq<Byte>, w: Writer, samples: seq<Sample>) {
    && ValidFormat(w.sampleRate, w.channelCount) && Fits(0, w.sampleRate, w.channelCount)
    && Growing(file, w.dataBytes, samples)
  }

  // A closed file: a WAVE file of exactly this sound.
  ghost predicate Readable(file: seq<Byte>, wave: Wave) {
    ParseWav(file) == Some(wave) && |file| == 44 + 2 * |wave.samples|
  }

  function Sound(w: Writer, samples: seq<Sample>): Wave { Wave(w.sampleRate, w.channelCount, samples) }

  // The writer's file has outgrown the size field of a header.
  predicate TooLong(writers: map<Path, Writer>, path: Path) {
    path in writers && 36 + writers[path].dataBytes >= TWO_32
  }

  // What an append answers, by the files and recordings there are.
  function Expected(files: map<Path, seq<Byte>>, writers: map<Path, Writer>,
                    callId: string, speaker: string, sampleRate: int, channelCount: int): AppendResult {
    var path := Path(callId, speaker);
    if !ValidId(callId) || (speaker != AGENT && speaker != MOBILE) || !ValidFormat(sampleRate, channelCount) then Rejected
    else if path in writers then
      if writers[path].sampleRate == sampleRate && writers[path].channelCount == channelCount then Appended
      else FormatChanged
    else if path in files then FileExists
    else if Fits(0, sampleRate, channelCount) then Appended
    else HeaderOverflow
  }

  // The closed recordings with the one of this path, if it was being written, among them.
  ghost function WithClosed(closed: map<Path, Wave>, writers: map<Path, Writer>, appended: map<Path, seq<Sample>>, path: Path)
    : map<Path, Wave>
  {
    if path in writers && path in appended then closed[path := Sound(writers[path], appended[path])] else closed
  }

  ghost predicate RecordingAt(files: map<Path, seq<Byte>>, writers: map<Path, Writer>,
                              appended: map<Path, seq<Sample>>, path: Path)
    requires path in writers
  {
    path in files && path in appended && Recording(files[path], writers[path], appended[path])
  }

  ghost predicate AllRecording(files: map<Path, seq<Byte>>, writers: map<Path, Writer>,
                               appended: map<Path, seq<Sample>>)
  {
    forall path {:trigger RecordingAt(files, writers, appended, path)} :: path in writers ==>
      RecordingAt(files, writers, appended, path)
  }

  ghost predicate ReadableAt(files: map<Path, seq<Byte>>, writers: map<Path, Writer>, closed: map<Path, Wave>, path: Path)
    requires path in closed
  {
    path !in writers && path in files && Readable(files[path], closed[path])
  }

  ghost predicate AllReadable(files: map<Path, seq<Byte>>, writers: map<Path, Writer>, closed: map<Path, Wave>) {
    forall path {:trigger ReadableAt(files, writers, closed, path)} :: path in closed ==>
      ReadableAt(files, writers, closed, path)
  }

  // The file at one path is created or grown, or its writer dropped: the other recordings stay as they are.
  lemma OthersKeepRecording(files: map<Path, seq<Byte>>, writers: map<Path, Writer>, appended: map<Path, seq<Sample>>,
                            files': map<Path, seq<Byte>>, writers': map<Path, Writer>, appended': map<Path, seq<Sample>>,
                            path: Path)
    requires AllRecording(files, writers, appended)
    requires forall p :: p != path && p in writers' ==> p in writers && writers'[p] == writers[p]
    requires forall p :: p != path && p in files ==> p in files' && files'[p] == files[p]
    requires forall p :: p != path && p in appended ==> p in appended' && appended'[p] == appended[p]
    requires path in writers' ==> RecordingAt(files', writers', appended', path)
    ensures AllRecording(files', writers', appended')
  {
    forall p | p in writers' ensures RecordingAt(files', writers', appended', p) {
      if p != path {
        assert RecordingAt(files, writers, appended, p);
      }
    }
  }

  lemma OthersStayReadable(files: map<Path, seq<Byte>>, writers: map<Path, Writer>, closed: map<Path, Wave>,
                           files': map<Path, seq<Byte>>, writers': map<Path, Writer>, closed': map<Path, Wave>, path: Path)
    requires AllReadable(files, writers, closed)
    requires forall p :: p != path && p in writers' ==> p in writers
    requires forall p :: p != path && p in files ==> p in files' && files'[p] == files[p]
    requires forall p :: p != path && p in closed' ==> p in closed && closed'[p] == closed[p]
    requires path in closed' ==> ReadableAt(files', writers', closed', path)
    ensures AllReadable(files', writers', closed')
  {
    forall p | p in closed' ensures ReadableAt(files', writers', closed', p) {
      if p != path {
        assert ReadableAt(files, writers, closed, p);
      }
    }
  }

  // An open file is not among the closed ones, and neither is a path without a file.
  lemma NotClosed(files: map<Path, seq<Byte>>, writers: map<Path, Writer>, closed: map<Path, Wave>, path: Path)
    requires AllReadable(files, writers, closed)
    ensures path in closed ==> path !in writers && path in files
  {
    if path in closed {
      assert ReadableAt(files, writers, closed, path);
    }
  }

  class AudioArtifactStore {
    var files: map<Path, seq<Byte>>
    var writers: map<Path, Writer>
    // Everything appended to each open file so far, and what the closed files are.
    ghost var appended: map<Path, seq<Sample>>
    ghost var closed: map<Path, Wave>

    ghost predicate Valid()
      reads this
    {
      AllRecording(files, writers, appended) && AllReadable(files, writers, closed)
    }

    constructor ()
      ensures Valid() && writers == map[] && files == map[] && closed == map[]
    {
      files, writers, appended, closed := map[], map[], map[], map[];
    }

    method WriteHeader(file: seq<Byte>, sampleRate: Positive, channelCount: Positive) returns (written: seq<Byte>)
      requires file == [] && Fits(0, sampleRate, channelCount) && ValidFormat(sampleRate, channelCount)
      ensures written == Header(0, sampleRate, channelCount)
      ensures Recording(written, Writer(sampleRate, channelCount, 0), [])
    {
      HeaderRoundTrip(0, sampleRate, channelCount);
      var header := Header(0, sampleRate, channelCount);
      GrowingStarts(header);
      written := WriteAt(file, header, 0);
    }

    // Creates the file with an empty header; an existing file is never overwritten.
    method Open(path: Path, sampleRate: nat, channelCount: nat) returns (result: AppendResult)
      requires Valid() && path !in writers && ValidFormat(sampleRate, channelCount)
      modifies this`files, this`writers, this`appended
      ensures Valid()
      ensures result == if path in old(files) then FileExists
                        else if Fits(0, sampleRate, channelCount) then Appended else HeaderOverflow
      ensures result == Appended ==>
        && writers == old(writers)[path := Writer(sampleRate, channelCount, 0)]
        && appended == old(appended)[path := []]
      ensures result != Appended ==> writers == old(writers) && appended == old(appended)
      ensures path in files
      ensures files == if result == FileExists then old(files) else old(files)[path := files[path]]
      ensures result == Appended ==> files[path] == Header(0, sampleRate, channelCount)
    {
      if path in files {
        return FileExists;
      }
      ghost var was := (files, writers, appended);
      NotClosed(files, writers, closed, path);
      var file: seq<Byte> := [];
      if !Fits(0, sampleRate, channelCount) {
        files := files[path := file];
        OthersKeepRecording(was.0, was.1, was.2, files, writers, appended, path);
        OthersStayReadable(was.0, was.1, closed, files, writers, closed, path);
        return HeaderOverflow;
      }
      file := WriteHeader(file, sampleRate, channelCount);
      files := files[path := file];
      writers := writers[path := Writer(sampleRate, channelCount, 0)];
      appended := appended[path := []];
      assert RecordingAt(files, writers, appended, path);
      OthersKeepRecording(was.0, was.1, was.2, files, writers, appended, path);
      OthersStayReadable(was.0, was.1, closed, files, writers, closed, path);
      result := Appended;
    }

    // The file with the chunk written after its data.
    method WriteChunk(file: seq<Byte>, w: Writer, samples: seq<Sample>, ghost before: seq<Sample>)
      returns (written: seq<Byte>, writer: Writer)
      requires Recording(file, w, before)
      ensures Recording(written, writer, before + samples)
      ensures writer == w.(dataBytes := w.dataBytes + 2 * |samples|)
    {
      var bytes := Int16ToBuffer(samples);
      GrowingGrows(file, w.dataBytes, before, samples);
      written := WriteAt(file, bytes, 44 + w.dataBytes);
      writer := w.(dataBytes := w.dataBytes + |bytes|);
    }

    method Extend(path: Path, samples: seq<Sample>)
      requires Valid() && path in writers
      modifies this`files, this`writers, this`appended
      ensures Valid() && path in appended && path in old(appended) && path in files
      ensures appended == old(appended)[path := old(appended)[path] + samples]
      ensures writers == old(writers)[path := old(writers)[path].(dataBytes := old(writers)[path].dataBytes + 2 * |samples|)]
      ensures files == old(files)[path := files[path]]
    {
      ghost var was := (files, writers, appended);
      assert RecordingAt(files, writers, appended, path);
      NotClosed(files, writers, closed, path);
      var file, writer := WriteChunk(files[path], writers[path], samples, appended[path]);
      files := files[path := file];
      writers := writers[path := writer];
      appended := appended[path := appended[path] + samples];
      assert RecordingAt(files, writers, appended, path);
      OthersKeepRecording(was.0, was.1, was.2, files, writers, appended, path);
      OthersStayReadable(was.0, was.1, closed, files, writers, closed, path);
    }

    /** Appends one chunk to the speaker's file, opening it on the first. */
    method AppendPcm(callId: string, speaker: string, samples: seq<Sample>, sampleRate: int, channelCount: int)
      returns (result: AppendResult)
      requires Valid()
      modifies this`files, this`writers, this`appended
      ensures Valid()
      ensures result == Expected(old(files), old(writers), callId, speaker, sampleRate, channelCount)
      ensures result != Rejected <==>
        ValidId(callId) && speaker in {"agent", "mobile"} && sampleRate >= 8000 && channelCount in {1, 2}
      ensures var path := Path(callId, speaker);
        && (result == Appended ==>
              && path in writers && writers[path].sampleRate == sampleRate && writers[path].channelCount == channelCount
              && (path in old(writers) ==> path in old(appended))
              && appended == old(appended)[path :=
                   (if path in old(writers) then old(appended)[path] else []) + samples])
        && (result != Appended ==> writers == old(writers) && appended == old(appended))
        && (forall p :: p != path && p in old(files) ==> p in files && files[p] == old(files)[p])
    {
      if !ValidId(callId) || (speaker != AGENT && speaker != MOBILE) || !ValidFormat(sampleRate, channelCount) {
        return Rejected;
      }
      var path := Path(callId, speaker);
      if path !in writers {
        result := Open(path, sampleRate, channelCount);
        if result != Appended {
          return;
        }
      }
      if writers[path].sampleRate != sampleRate || writers[path].channelCount != channelCount {
        return FormatChanged;
      }
      Extend(path, samples);
      result := Appended;
    }

    // Closes one speaker's file and hands out its writer; not ok when it has grown too long for its header.
    method FinalizeOne(path: Path) returns (writer: Option<Writer>, ok: bool)
      requires Valid()
      modifies this`files, this`writers, this`closed
      ensures Valid()
      ensures ok <==> !TooLong(old(writers), path)
      ensures writers == if ok then old(writers) - {path} else old(writers)
      ensures writer == if ok && path in old(writers) then Some(old(writers)[path]) else None
      ensures closed == if ok then WithClosed(old(closed), old(writers), appended, path) else old(closed)
    {
      writer, ok := None, true;
      if path !in writers {
        return;
      }
      var w := writers[path];
      if 36 + w.dataBytes >= TWO_32 {
        ok := false;
        return;
      }
      ghost var was := (files, writers, closed);
      assert RecordingAt(files, writers, appended, path);
      files := files[path := Rewritten(files[path], w, appended[path])];
      writers := writers - {path};
      closed := closed[path := Sound(w, appended[path])];
      assert ReadableAt(files, writers, closed, path);
      OthersKeepRecording(was.0, was.1, appended, files, writers, appended, path);
      OthersStayReadable(was.0, was.1, was.2, files, writers, closed, path);
      writer := Some(w);
    }

    // Two recordings closed in turn, the second only if the first was not too long.
    method FinalizeTwo(a: Path, b: Path) returns (first: Option<Writer>, second: Option<Writer>, ok: bool)
      requires Valid() && a != b
      modifies this`files, this`writers, this`closed
      ensures Valid()
      ensures ok <==> !TooLong(old(writers), a) && !TooLong(old(writers), b)
      ensures writers == old(writers) - (if TooLong(old(writers), a) then {} else if ok then {a, b} else {a})
      ensures ok ==> first == WriterAt(old(writers), a) && second == WriterAt(old(writers), b)
      ensures var one := WithClosed(old(closed), old(writers), appended, a);
        closed == if TooLong(old(writers), a) then old(closed)
                  else if ok then WithClosed(one, old(writers), appended, b) else one
    {
      second := None;
      first, ok := FinalizeOne(a);
      if !ok {
        return;
      }
      second, ok := FinalizeOne(b);
    }

    /**
     * Closes the call's files and lists them. Each recording closed, also before a failure, is a
     * file that reads back as all the samples ever appended to it.
     */
    method FinalizeCall(callId: string) returns (assets: Option<seq<Asset>>)
      requires Valid()
      modifies this`files, this`writers, this`closed
      ensures Valid()
      ensures var agent, mobile := Path(callId, AGENT), Path(callId, MOBILE);
        && (assets.None? <==> !ValidId(callId) || TooLong(old(writers), agent) || TooLong(old(writers), mobile))
        && (assets.Some? ==>
              assets.value == Listed(AGENT, WriterAt(old(writers), agent)) + Listed(MOBILE, WriterAt(old(writers), mobile)))
        && writers == old(writers) - (if !ValidId(callId) || TooLong(old(writers), agent) then {}
                                      else if assets.None? then {agent} else {agent, mobile})
      ensures assets.Some? ==> AllTell(assets.value, callId, files, appended)
      ensures assets.Some? ==> Speakers(assets.value) == Recorded(old(writers), callId)
      ensures forall path :: path in old(writers) && path !in writers ==>
        path in closed && path in appended && closed[path] == Sound(old(writers)[path], appended[path])
      ensures forall path :: path in old(closed) && path !in old(writers) ==>
        path in closed && closed[path] == old(closed)[path]
    {
      if !ValidId(callId) {
        return None;
      }
      DistinctPaths(callId);
      forall path | path in writers
        ensures path in appended && writers[path].dataBytes == 2 * |appended[path]|
      {
        assert RecordingAt(files, writers, appended, path);
      }
      var first, second, ok := FinalizeTwo(Path(callId, AGENT), Path(callId, MOBILE));
      if !ok {
        return None;
      }
      BothTell(callId, first, second, files, writers, closed, appended);
      assets := Some(Listed(AGENT, first) + Listed(MOBILE, second));
    }
  }

  // The file with its header rewritten for its final size.
  function Rewritten(file: seq<Byte>, w: Writer, ghost samples: seq<Sample>): (r: seq<Byte>)
    requires Recording(file, w, samples) && 36 + w.dataBytes < TWO_32
    ensures Readable(r, Sound(w, samples))
  {
    var header := Header(w.dataBytes, w.sampleRate, w.channelCount);
    GrowingEnds(file, header, w.dataBytes, samples, w.sampleRate, w.channelCount);
    WriteAt(file, header, 0)
  }

  function WriterAt(writers: map<Path, Writer>, path: Path): Option<Writer> {
    if path in writers then Some(writers[path]) else None
  }

  // The entries for recordings that are closed.
  function Listed(speaker: string, writer: Option<Writer>): seq<Asset> {
    if writer.None? then []
    else
      var w := writer.value;
      [Asset(speaker, w.dataBytes + 44, DurationMs(w), w.sampleRate, w.channelCount)]
  }
}
