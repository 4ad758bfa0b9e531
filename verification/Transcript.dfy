/** Merging the fragments of a streamed transcript into speaker lines. */
module Transcript {
  import Options
  import Text

  datatype Speaker = Agent | Customer

  datatype Part = Part(number: int, speaker: Speaker, text: string)

  datatype Line = Line(speaker: Speaker, text: string)

  // The first fragment delivered under each number.
  function FirstWins(parts: seq<Part>): map<int, Part> {
    if parts == [] then map[]
    else
      var before, p := FirstWins(parts[..|parts| - 1]), parts[|parts| - 1];
      if p.number in before then before else before[p.number := p]
  }

  ghost predicate IsLeast(keys: set<int>, k: int) {
    k in keys && forall j :: j in keys ==> k <= j
  }

  lemma HasMember(keys: set<int>)
    ensures keys == {} || exists k :: k in keys
  {
    if forall k :: k !in keys {
      assert keys == {};
    }
  }

  lemma {:induction false} LeastExists(keys: set<int>)
    requires keys != {}
    ensures exists k :: IsLeast(keys, k)
    decreases |keys|
  {
    HasMember(keys);
    var k :| k in keys;
    var rest := keys - {k};
    if rest == {} {
      assert keys == {k};
      assert IsLeast(keys, k);
    } else {
      LeastExists(rest);
      var l :| IsLeast(rest, l);
      assert forall j :: j in keys ==> j == k || j in rest;
      assert IsLeast(keys, if k < l then k else l);
    }
  }

  ghost function Least(keys: set<int>): (k: int)
    requires keys != {}
    ensures IsLeast(keys, k)
  {
    LeastExists(keys);
    var k :| IsLeast(keys, k);
    k
  }

  // The fragments by increasing number.
  ghost function Ordered(byNumber: map<int, Part>): (parts: seq<Part>)
    ensures |parts| == |byNumber|
    decreases |byNumber|
  {
    if byNumber == map[] then []
    else
      var k := Least(byNumber.Keys);
      Shrinks(byNumber, k);
      [byNumber[k]] + Ordered(byNumber - {k})
  }

  lemma Shrinks(m: map<int, Part>, k: int)
    requires k in m
    ensures |m - {k}| == |m| - 1
  {
    assert (m - {k}).Keys == m.Keys - {k};
    assert |m.Keys| == |m| && |(m - {k}).Keys| == |m - {k}|;
  }

  lemma {:induction false} OrderedHasAll(byNumber: map<int, Part>, p: Part)
    requires forall k :: k in byNumber ==> byNumber[k].number == k
    ensures p in Ordered(byNumber) <==> p.number in byNumber && byNumber[p.number] == p
    decreases |byNumber|
  {
    if byNumber != map[] {
      var k := Least(byNumber.Keys);
      Shrinks(byNumber, k);
      OrderedHasAll(byNumber - {k}, p);
    }
  }

  ghost predicate Increasing(parts: seq<Part>) {
    forall i, j :: 0 <= i < j < |parts| ==> parts[i].number < parts[j].number
  }

  lemma IncreasingPrepends(p: Part, parts: seq<Part>)
    requires Increasing(parts) && forall q :: q in parts ==> p.number < q.number
    ensures Increasing([p] + parts)
  {
    assert forall j :: 0 <= j < |parts| ==> parts[j] in parts;
  }

  /** The ordered fragments are those kept, each once, by strictly increasing number. */
  lemma {:induction false} OrderedIsSorted(byNumber: map<int, Part>)
    requires forall k :: k in byNumber ==> byNumber[k].number == k
    ensures Increasing(Ordered(byNumber))
    ensures forall p :: p in Ordered(byNumber) <==> p.number in byNumber && byNumber[p.number] == p
    decreases |byNumber|
  {
    forall p: Part {
      OrderedHasAll(byNumber, p);
    }
    if byNumber != map[] {
      var k := Least(byNumber.Keys);
      Shrinks(byNumber, k);
      OrderedIsSorted(byNumber - {k});
      forall p | p in Ordered(byNumber - {k}) ensures k < p.number {
        assert p.number in byNumber.Keys && p.number != k;
      }
      IncreasingPrepends(byNumber[k], Ordered(byNumber - {k}));
    }
  }

  // A fragment continues the last line when the same speaker is still speaking.
  function Extended(lines: seq<Line>, p: Part): seq<Line> {
    if lines != [] && lines[|lines| - 1].speaker == p.speaker
    then lines[..|lines| - 1] + [Line(p.speaker, lines[|lines| - 1].text + p.text)]
    else lines + [Line(p.speaker, p.text)]
  }

  function Joined(parts: seq<Part>): seq<Line> {
    if parts == [] then [] else Extended(Joined(parts[..|parts| - 1]), parts[|parts| - 1])
  }

  // White space tidied, lines without anything else dropped.
  function Tidied(lines: seq<Line>): seq<Line> {
    if lines == [] then []
    else
      var last := lines[|lines| - 1];
      var text := Text.Trim(Text.Collapse(last.text));
      Tidied(lines[..|lines| - 1]) + if text == "" then [] else [Line(last.speaker, text)]
  }

  ghost function Merged(parts: seq<Part>): seq<Line> {
    Tidied(Joined(Ordered(FirstWins(parts))))
  }

  // ---------------------------------------------------------------- arrival order

  lemma {:induction false} FirstWinsKeepsFirst(parts: seq<Part>)
    ensures forall k :: k in FirstWins(parts) ==> FirstWins(parts)[k].number == k
    ensures forall p :: p in parts ==> p.number in FirstWins(parts)
    ensures forall k :: k in FirstWins(parts) ==> FirstWins(parts)[k] in parts
  {
    if parts != [] {
      FirstWinsKeepsFirst(parts[..|parts| - 1]);
    }
  }

  lemma {:induction false} RedeliveryKeepsMap(before: seq<Part>, p: Part, after: seq<Part>)
    requires exists q :: q in before && q.number == p.number
    ensures FirstWins(before + [p] + after) == FirstWins(before + after)
    decreases |after|
  {
    if after == [] {
      FirstWinsKeepsFirst(before);
      assert (before + [p] + after)[..|before|] == before;
      assert before + after == before;
    } else {
      var all, last := before + [p] + after, after[..|after| - 1];
      RedeliveryKeepsMap(before, p, last);
      assert all[..|all| - 1] == before + [p] + last;
      assert (before + after)[..|before + after| - 1] == before + last;
    }
  }

  /** Delivering a number again, later and with whatever text, changes nothing. */
  lemma RedeliveryIsHarmless(before: seq<Part>, p: Part, after: seq<Part>)
    requires exists q :: q in before && q.number == p.number
    ensures Merged(before + [p] + after) == Merged(before + after)
  {
    RedeliveryKeepsMap(before, p, after);
  }

  ghost predicate Distinct(parts: seq<Part>) {
    forall p, q :: p in parts && q in parts && p.number == q.number ==> p == q
  }

  /** Fragments without conflicting numbers merge to the same lines in whatever order they arrive. */
  lemma OrderDoesNotMatter(parts: seq<Part>, shuffled: seq<Part>)
    requires Distinct(parts) && forall p :: p in parts <==> p in shuffled
    ensures Merged(parts) == Merged(shuffled)
  {
    FirstWinsKeepsFirst(parts);
    FirstWinsKeepsFirst(shuffled);
    var m, n := FirstWins(parts), FirstWins(shuffled);
    forall k | k in m ensures k in n && n[k] == m[k] {
      assert m[k] in parts && m[k] in shuffled;
      assert n[k] in shuffled && n[k] in parts;
    }
    forall k | k in n ensures k in m {
      assert n[k] in shuffled && n[k] in parts;
    }
    assert m == n;
  }

  // ---------------------------------------------------------------- what is kept

  // Who said each printed character.
  function SaidIn(speaker: Speaker, ink: string): seq<(Speaker, char)> {
    seq(|ink|, i requires 0 <= i < |ink| => (speaker, ink[i]))
  }

  function Said(lines: seq<Line>): seq<(Speaker, char)> {
    if lines == [] then []
    else Said(lines[..|lines| - 1]) + SaidIn(lines[|lines| - 1].speaker, Text.Ink(lines[|lines| - 1].text))
  }

  function Spoken(parts: seq<Part>): seq<(Speaker, char)> {
    if parts == [] then []
    else Spoken(parts[..|parts| - 1]) + SaidIn(parts[|parts| - 1].speaker, Text.Ink(parts[|parts| - 1].text))
  }

  lemma SaidOfMore(lines: seq<Line>, line: Line)
    ensures Said(lines + [line]) == Said(lines) + SaidIn(line.speaker, Text.Ink(line.text))
  {
    assert (lines + [line])[..|lines|] == lines;
  }

  lemma SaidInAppends(speaker: Speaker, a: string, b: string)
    ensures SaidIn(speaker, a + b) == SaidIn(speaker, a) + SaidIn(speaker, b)
  {
  }

  // A line that grows says what it said before, and the new text.
  lemma GrownLineSays(before: seq<Line>, speaker: Speaker, text: string, more: string)
    ensures Said(before + [Line(speaker, text + more)])
            == Said(before + [Line(speaker, text)]) + SaidIn(speaker, Text.Ink(more))
  {
    SaidOfMore(before, Line(speaker, text + more));
    SaidOfMore(before, Line(speaker, text));
    Text.InkAppends(text, more);
    SaidInAppends(speaker, Text.Ink(text), Text.Ink(more));
    Options.Associate(Said(before), SaidIn(speaker, Text.Ink(text)), SaidIn(speaker, Text.Ink(more)));
  }

  lemma ExtendedSays(lines: seq<Line>, p: Part)
    ensures Said(Extended(lines, p)) == Said(lines) + SaidIn(p.speaker, Text.Ink(p.text))
  {
    if lines != [] && lines[|lines| - 1].speaker == p.speaker {
      GrownLineSays(lines[..|lines| - 1], p.speaker, lines[|lines| - 1].text, p.text);
      assert lines[..|lines| - 1] + [lines[|lines| - 1]] == lines;
    } else {
      SaidOfMore(lines, Line(p.speaker, p.text));
    }
  }

  lemma {:induction false} JoinedSays(parts: seq<Part>)
    ensures Said(Joined(parts)) == Spoken(parts)
  {
    if parts != [] {
      JoinedSays(parts[..|parts| - 1]);
      ExtendedSays(Joined(parts[..|parts| - 1]), parts[|parts| - 1]);
    }
  }

  lemma TidiedLineSays(tidied: seq<Line>, line: Line)
    ensures var text := Text.Trim(Text.Collapse(line.text));
      Said(tidied + if text == "" then [] else [Line(line.speaker, text)])
        == Said(tidied) + SaidIn(line.speaker, Text.Ink(line.text))
  {
    var text := Text.Trim(Text.Collapse(line.text));
    Text.TidyKeepsInk(line.text);
    if text == "" {
      assert tidied + [] == tidied;
      assert SaidIn(line.speaker, Text.Ink(text)) == [];
    } else {
      SaidOfMore(tidied, Line(line.speaker, text));
    }
  }

  lemma {:induction false} TidiedSays(lines: seq<Line>)
    ensures Said(Tidied(lines)) == Said(lines)
  {
    if lines != [] {
      TidiedSays(lines[..|lines| - 1]);
      TidiedLineSays(Tidied(lines[..|lines| - 1]), lines[|lines| - 1]);
    }
  }

  /**
   * The lines hold, speaker by speaker and in order, every character other than white space of the
   * fragments kept.
   */
  lemma NothingSaidIsLost(parts: seq<Part>)
    ensures Said(Merged(parts)) == Spoken(Ordered(FirstWins(parts)))
  {
    JoinedSays(Ordered(FirstWins(parts)));
    TidiedSays(Joined(Ordered(FirstWins(parts))));
  }

  // Who said which words, line by line, leaving out lines without any.
  function WordLines(lines: seq<Line>): seq<(Speaker, seq<string>)> {
    if lines == [] then []
    else
      var last := lines[|lines| - 1];
      WordLines(lines[..|lines| - 1])
      + if Text.Words(last.text) == [] then [] else [(last.speaker, Text.Words(last.text))]
  }

  lemma TidiedWordLine(tidied: seq<Line>, line: Line)
    ensures var text := Text.Trim(Text.Collapse(line.text));
      WordLines(tidied + if text == "" then [] else [Line(line.speaker, text)])
        == WordLines(tidied) + if Text.Words(line.text) == [] then [] else [(line.speaker, Text.Words(line.text))]
  {
    var text := Text.Trim(Text.Collapse(line.text));
    Text.TidyKeepsWords(line.text);
    if text == "" {
      assert tidied + [] == tidied;
      assert Text.Words(text) == [];
    } else {
      Text.TidyIsTidy(line.text);
      assert (tidied + [Line(line.speaker, text)])[..|tidied|] == tidied;
    }
  }

  lemma {:induction false} TidiedKeepsWords(lines: seq<Line>)
    ensures WordLines(Tidied(lines)) == WordLines(lines)
  {
    if lines != [] {
      TidiedKeepsWords(lines[..|lines| - 1]);
      TidiedWordLine(Tidied(lines[..|lines| - 1]), lines[|lines| - 1]);
    }
  }

  lemma {:induction false} TidiedIsTidy(lines: seq<Line>)
    ensures forall line :: line in Tidied(lines) ==> line.text != "" && Text.Tidy(line.text)
  {
    if lines != [] {
      TidiedIsTidy(lines[..|lines| - 1]);
      Text.TidyIsTidy(lines[|lines| - 1].text);
    }
  }

  /** The result keeps the words of every joined line, and has no blank line or stray white space. */
  lemma ResultIsTidy(parts: seq<Part>)
    ensures WordLines(Merged(parts)) == WordLines(Joined(Ordered(FirstWins(parts))))
    ensures forall line :: line in Merged(parts) ==> line.text != "" && Text.Tidy(line.text)
  {
    TidiedKeepsWords(Joined(Ordered(FirstWins(parts))));
    TidiedIsTidy(Joined(Ordered(FirstWins(parts))));
  }

  ghost predicate Alternating(lines: seq<Line>) {
    forall i, j :: 0 <= i && j == i + 1 < |lines| ==> lines[i].speaker != lines[j].speaker
  }

  lemma ExtendedAlternates(lines: seq<Line>, p: Part)
    requires Alternating(lines)
    ensures Alternating(Extended(lines, p))
  {
    var extended := Extended(lines, p);
    forall i, j | 0 <= i && j == i + 1 < |extended| ensures extended[i].speaker != extended[j].speaker {
      if j < |lines| {
        assert extended[i].speaker == lines[i].speaker && extended[j].speaker == lines[j].speaker;
      }
    }
  }

  /** Before blank lines are dropped, no two lines in a row have the same speaker. */
  lemma {:induction false} LinesAlternate(parts: seq<Part>)
    ensures Alternating(Joined(parts))
  {
    if parts != [] {
      LinesAlternate(parts[..|parts| - 1]);
      ExtendedAlternates(Joined(parts[..|parts| - 1]), parts[|parts| - 1]);
    }
  }

  // ---------------------------------------------------------------- the lines, without joining

  function Concat(parts: seq<Part>): string {
    if parts == [] then "" else Concat(parts[..|parts| - 1]) + parts[|parts| - 1].text
  }

  function All(runs: seq<seq<Part>>): seq<Part> {
    if runs == [] then [] else All(runs[..|runs| - 1]) + runs[|runs| - 1]
  }

  predicate OneSpeaker(run: seq<Part>) {
    run != [] && forall i :: 0 <= i < |run| ==> run[i].speaker == run[0].speaker
  }

  // The fragments cut where the speaker changes, and only there.
  ghost predicate CutBySpeaker(parts: seq<Part>, runs: seq<seq<Part>>) {
    && All(runs) == parts && (forall i :: 0 <= i < |runs| ==> OneSpeaker(runs[i]))
    && forall i, j :: 0 <= i && j == i + 1 < |runs| ==> OneSpeaker(runs[i]) && OneSpeaker(runs[j]) && runs[i][0].speaker != runs[j][0].speaker
  }

  // Run by run: the words of its texts put end to end, single blanks between them; no line without words.
  function LinesOf(runs: seq<seq<Part>>): seq<Line>
    requires forall i :: 0 <= i < |runs| ==> runs[i] != []
  {
    if runs == [] then []
    else
      var run := runs[|runs| - 1];
      var words := Text.Words(Concat(run));
      LinesOf(runs[..|runs| - 1]) + if words == [] then [] else [Line(run[0].speaker, Text.JoinWords(words))]
  }

  lemma AllSnoc(runs: seq<seq<Part>>, run: seq<Part>)
    ensures All(runs + [run]) == All(runs) + run
  {
    assert (runs + [run])[..|runs|] == runs;
  }

  lemma CutStarts(some: seq<Part>, runs: seq<seq<Part>>, p: Part)
    requires CutBySpeaker(some, runs) && (runs != [] ==> OneSpeaker(runs[|runs| - 1]) && runs[|runs| - 1][0].speaker != p.speaker)
    ensures CutBySpeaker(some + [p], runs + [[p]])
  {
    AllSnoc(runs, [p]);
  }

  lemma CutGrows(some: seq<Part>, kept: seq<seq<Part>>, run: seq<Part>, p: Part)
    requires CutBySpeaker(some, kept + [run]) && OneSpeaker(run) && run[0].speaker == p.speaker
    ensures CutBySpeaker(some + [p], kept + [run + [p]])
  {
    AllSnoc(kept, run);
    AllSnoc(kept, run + [p]);
    Options.Associate(All(kept), run, [p]);
    var before, after := kept + [run], kept + [run + [p]];
    forall i | 0 <= i < |after| ensures OneSpeaker(after[i]) && after[i][0] == before[i][0] {
      assert OneSpeaker(before[i]);
    }
  }

  lemma {:induction false} CutExists(parts: seq<Part>) returns (runs: seq<seq<Part>>)
    ensures CutBySpeaker(parts, runs)
  {
    if parts == [] {
      runs := [];
    } else {
      var some, p := parts[..|parts| - 1], parts[|parts| - 1];
      assert parts == some + [p];
      var before: seq<seq<Part>> := CutExists(some);
      if before != [] && before[|before| - 1][0].speaker == p.speaker {
        var kept, run := before[..|before| - 1], before[|before| - 1];
        assert before == kept + [run];
        CutGrows(some, kept, run, p);
        runs := kept + [run + [p]];
      } else {
        CutStarts(some, before, p);
        runs := before + [[p]];
      }
    }
  }

  lemma JoinedSnoc(parts: seq<Part>, p: Part)
    ensures Joined(parts + [p]) == Extended(Joined(parts), p)
  {
    assert (parts + [p])[..|parts|] == parts;
  }

  lemma RunStarts(before: seq<Part>, p: Part)
    requires before != [] ==> before[|before| - 1].speaker != p.speaker
    ensures Joined(before + [p]) == Joined(before) + [Line(p.speaker, p.text)]
  {
    JoinedSnoc(before, p);
    LastSpeaker(before);
  }

  lemma RunGrows(lines: seq<Line>, text: string, p: Part)
    ensures Extended(lines + [Line(p.speaker, text)], p) == lines + [Line(p.speaker, text + p.text)]
  {
    assert (lines + [Line(p.speaker, text)])[..|lines|] == lines;
  }

  lemma ConcatSnoc(some: seq<Part>, p: Part)
    ensures Concat(some + [p]) == Concat(some) + p.text
  {
    assert (some + [p])[..|some|] == some;
  }

  // A run after fragments that end with the other speaker adds one line.
  lemma {:induction false} RunAddsLine(before: seq<Part>, run: seq<Part>)
    requires OneSpeaker(run) && (before != [] ==> before[|before| - 1].speaker != run[0].speaker)
    ensures Joined(before + run) == Joined(before) + [Line(run[0].speaker, Concat(run))]
    decreases |run|
  {
    var some, p := run[..|run| - 1], run[|run| - 1];
    assert run == some + [p];
    ConcatSnoc(some, p);
    if some == [] {
      assert run == [p] && Concat(some) == "";
      assert "" + p.text == p.text;
      RunStarts(before, p);
    } else {
      RunAddsLine(before, some);
      Options.Associate(before, some, [p]);
      JoinedSnoc(before + some, p);
      RunGrows(Joined(before), Concat(some), p);
    }
  }

  lemma LastSpeaker(parts: seq<Part>)
    ensures parts == [] <==> Joined(parts) == []
    ensures parts != [] ==> Joined(parts)[|Joined(parts)| - 1].speaker == parts[|parts| - 1].speaker
  {
  }

  lemma AllEndsWith(runs: seq<seq<Part>>)
    requires runs != [] && OneSpeaker(runs[|runs| - 1])
    ensures All(runs) != [] && All(runs)[|All(runs)| - 1].speaker == runs[|runs| - 1][0].speaker
  {
  }

  // What tidying makes of one more line.
  lemma TidiedSnoc(lines: seq<Line>, line: Line)
    ensures var words := Text.Words(line.text);
      Tidied(lines + [line]) == Tidied(lines) + if words == [] then [] else [Line(line.speaker, Text.JoinWords(words))]
  {
    Text.TidiedIsItsWords(line.text);
    assert (lines + [line])[..|lines|] == lines;
  }

  lemma CutShrinks(some: seq<seq<Part>>, run: seq<Part>)
    requires CutBySpeaker(All(some + [run]), some + [run])
    ensures CutBySpeaker(All(some), some) && OneSpeaker(run)
    ensures All(some) != [] ==> All(some)[|All(some)| - 1].speaker != run[0].speaker
  {
    var runs := some + [run];
    assert forall i :: 0 <= i < |some| ==> some[i] == runs[i];
    assert runs[|some|] == run;
    if some != [] {
      AllEndsWith(some);
      assert runs[|some| - 1] == some[|some| - 1];
    }
  }

  lemma LineNext(some: seq<seq<Part>>, run: seq<Part>)
    requires CutBySpeaker(All(some + [run]), some + [run]) && CutBySpeaker(All(some), some)
    requires Tidied(Joined(All(some))) == LinesOf(some)
    ensures Tidied(Joined(All(some + [run]))) == LinesOf(some + [run])
  {
    CutShrinks(some, run);
    AllSnoc(some, run);
    RunAddsLine(All(some), run);
    TidiedSnoc(Joined(All(some)), Line(run[0].speaker, Concat(run)));
    assert (some + [run])[..|some|] == some;
  }

  lemma {:induction false} RunsAreLines(runs: seq<seq<Part>>)
    requires CutBySpeaker(All(runs), runs)
    ensures Tidied(Joined(All(runs))) == LinesOf(runs)
  {
    if runs != [] {
      var some, run := runs[..|runs| - 1], runs[|runs| - 1];
      assert runs == some + [run];
      CutShrinks(some, run);
      RunsAreLines(some);
      LineNext(some, run);
    }
  }

  /**
   * The result, without any of the loops: the fragments kept, by number, cut where the speaker changes;
   * each run gives one line, of the words of its texts put end to end, or none if it has no words.
   */
  lemma MergedIsLineByLine(parts: seq<Part>, runs: seq<seq<Part>>)
    requires CutBySpeaker(Ordered(FirstWins(parts)), runs)
    ensures Merged(parts) == LinesOf(runs)
  {
    RunsAreLines(runs);
  }

  // ---------------------------------------------------------------- the loops

  method MergeTranscript(parts: seq<Part>) returns (result: seq<Line>)
    ensures result == Merged(parts)
    ensures forall runs :: CutBySpeaker(Ordered(FirstWins(parts)), runs) ==> result == LinesOf(runs)
  {
    var byNumber: map<int, Part> := map[];
    for i := 0 to |parts|
      invariant byNumber == FirstWins(parts[..i])
    {
      assert parts[..i + 1][..i] == parts[..i];
      if parts[i].number !in byNumber {
        byNumber := byNumber[parts[i].number := parts[i]];
      }
    }
    assert parts[..|parts|] == parts;
    var sorted := Sort(byNumber);
    var lines := JoinLines(sorted);
    result := Tidied(lines);
    forall runs | CutBySpeaker(Ordered(FirstWins(parts)), runs) ensures result == LinesOf(runs) {
      MergedIsLineByLine(parts, runs);
    }
  }

  // The fragments of the map by increasing number.
  method Sort(byNumber: map<int, Part>) returns (sorted: seq<Part>)
    ensures sorted == Ordered(byNumber)
  {
    sorted := [];
    var rest := byNumber;
    while rest != map[]
      invariant sorted + Ordered(rest) == Ordered(byNumber)
      decreases |rest|
    {
      LeastExists(rest.Keys);
      var k :| k in rest.Keys && forall j :: j in rest.Keys ==> k <= j;
      assert k == Least(rest.Keys);
      Shrinks(rest, k);
      sorted := sorted + [rest[k]];
      rest := rest - {k};
    }
  }

  lemma JoinedStep(parts: seq<Part>, i: nat)
    requires i < |parts|
    ensures Joined(parts[..i + 1]) == Extended(Joined(parts[..i]), parts[i])
  {
    assert parts[..i + 1][..i] == parts[..i];
  }

  lemma ReplaceLast(lines: seq<Line>, line: Line)
    requires lines != []
    ensures lines[|lines| - 1 := line] == lines[..|lines| - 1] + [line]
  {
  }

  method JoinLines(parts: seq<Part>) returns (lines: seq<Line>)
    ensures lines == Joined(parts)
  {
    lines := [];
    for i := 0 to |parts|
      invariant lines == Joined(parts[..i])
    {
      var p := parts[i];
      JoinedStep(parts, i);
      if lines != [] && lines[|lines| - 1].speaker == p.speaker {
        var last := lines[|lines| - 1];
        ReplaceLast(lines, Line(last.speaker, last.text + p.text));
        lines := lines[|lines| - 1 := Line(last.speaker, last.text + p.text)];
      } else {
        lines := lines + [Line(p.speaker, p.text)];
      }
    }
    assert parts[..|parts|] == parts;
  }
}
