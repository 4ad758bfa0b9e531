/** The CSV printer, the grammar its reader follows, and the round trip between them. */
module Csv {
  import Text

  // A cell to print; null and undefined print as nothing.
  datatype Value = Absent | Content(text: string)

  predicate StartsFormula(s: string) {
    s != "" && s[0] in "=+-@\t\r"
  }

  // What the reader is meant to see: the text, with an apostrophe where a spreadsheet would compute.
  function Neutral(v: Value): string {
    match v
    case Absent => ""
    case Content(s) => if StartsFormula(s) then "'" + s else s
  }

  /** No printed text makes a spreadsheet compute, and only a text that would is changed, by one apostrophe. */
  lemma NeutralIsInert(v: Value)
    ensures !StartsFormula(Neutral(v))
    ensures v.Content? ==>
      Neutral(v) == (if v.text != "" && (v.text[0] == '=' || v.text[0] == '+' || v.text[0] == '-' || v.text[0] == '@'
                                         || v.text[0] == '\t' || v.text[0] == '\r') then "'" else "") + v.text
    ensures v.Absent? ==> Neutral(v) == ""
  {
    var signs := "=+-@\t\r";
    assert signs[0] == '=' && signs[1] == '+' && signs[2] == '-' && signs[3] == '@' && signs[4] == '\t' && signs[5] == '\r';
    if v.Content? && StartsFormula(v.text) {
      assert Neutral(v)[0] == '\'';
    }
  }

  predicate NeedsQuotes(s: string) {
    exists c :: c in s && c in "\",\n\r"
  }

  function Doubled(s: string): string {
    if s == "" then "" else (if s[0] == '"' then "\"\"" else [s[0]]) + Doubled(s[1..])
  }

  function PrintCell(v: Value): string {
    var s := Neutral(v);
    if NeedsQuotes(s) then "\"" + Doubled(s) + "\"" else s
  }

  function PrintRow(row: seq<Value>): string {
    if row == [] then ""
    else if |row| == 1 then PrintCell(row[0])
    else PrintCell(row[0]) + "," + PrintRow(row[1..])
  }

  // ---------------------------------------------------------------- reading

  // The quoted text before the closing quote, and what follows that quote.
  function Quoted(s: string): (r: (string, string))
    ensures |r.1| <= |s|
  {
    if s == "" then ("", "")
    else if s[0] != '"' then
      var r := Quoted(s[1..]);
      ([s[0]] + r.0, r.1)
    else if |s| > 1 && s[1] == '"' then
      var r := Quoted(s[2..]);
      ("\"" + r.0, r.1)
    else ("", s[1..])
  }

  function AfterComma(s: string): string {
    if s != "" && s[0] == ',' then s[1..] else s
  }

  // The index of the first comma, or the length.
  function FirstComma(s: string): (k: nat)
    ensures k <= |s| && ',' !in s[..k] && (k < |s| ==> s[k] == ',')
  {
    if s == "" || s[0] == ',' then 0 else 1 + FirstComma(s[1..])
  }

  function Cells(line: string): (cells: seq<string>)
    ensures |cells| >= 1
    decreases |line|
  {
    if line == "" then [""]
    else if line[0] == '"' then
      var q := Quoted(line[1..]);
      [q.0] + Cells(AfterComma(q.1))
    else
      var k := FirstComma(line);
      if k == |line| then [line] else [line[..k]] + Cells(line[k + 1..])
  }

  // ---------------------------------------------------------------- round trip

  lemma {:induction false} QuotedUndoubles(s: string, rest: string)
    requires rest == "" || rest[0] != '"'
    ensures Quoted(Doubled(s) + "\"" + rest) == (s, rest)
  {
    var printed := Doubled(s) + "\"" + rest;
    if s == "" {
      assert printed == "\"" + rest;
    } else {
      QuotedUndoubles(s[1..], rest);
      var tail := Doubled(s[1..]) + "\"" + rest;
      assert s == [s[0]] + s[1..];
      if s[0] == '"' {
        assert printed == "\"\"" + tail;
      } else {
        assert printed == [s[0]] + tail;
      }
    }
  }

  lemma {:induction false} FirstCommaIs(s: string, rest: string)
    requires ',' !in s
    ensures FirstComma(s + "," + rest) == |s| && FirstComma(s) == |s|
  {
    if s == "" {
      assert s + "," + rest == "," + rest;
    } else {
      FirstCommaIs(s[1..], rest);
      assert (s + "," + rest)[1..] == s[1..] + "," + rest;
    }
  }

  // The reader's two branches, one step each.
  lemma ReadQuoted(s: string, rest: string)
    requires rest == "" || rest[0] == ','
    ensures Cells("\"" + Doubled(s) + "\"" + rest) == [s] + Cells(AfterComma(rest))
  {
    var line := "\"" + Doubled(s) + "\"" + rest;
    QuotedUndoubles(s, rest);
    assert line[1..] == Doubled(s) + "\"" + rest;
    assert line[0] == '"';
  }

  lemma ReadPlain(s: string, rest: string)
    requires ',' !in s && '"' !in s
    ensures Cells(s + "," + rest) == [s] + Cells(rest)
  {
    var line := s + "," + rest;
    FirstCommaIs(s, rest);
    assert line[..|s|] == s && line[|s| + 1..] == rest;
  }

  lemma ReadLast(s: string)
    requires ',' !in s && '"' !in s
    ensures Cells(s) == [s]
  {
    FirstCommaIs(s, "");
  }

  // A printed cell followed by a comma is read as one cell.
  lemma CellThenComma(v: Value, rest: string)
    ensures Cells(PrintCell(v) + "," + rest) == [Neutral(v)] + Cells(rest)
  {
    var s := Neutral(v);
    if NeedsQuotes(s) {
      ReadQuoted(s, "," + rest);
      assert PrintCell(v) + "," + rest == "\"" + Doubled(s) + "\"" + ("," + rest);
      assert AfterComma("," + rest) == rest;
    } else {
      Unquoted(s);
      ReadPlain(s, rest);
    }
  }

  // At the end of the line a quoted cell is followed by one more, empty cell.
  lemma CellThenEnd(v: Value)
    ensures Cells(PrintCell(v)) == [Neutral(v)] + Trailing(v)
  {
    var s := Neutral(v);
    if NeedsQuotes(s) {
      ReadQuoted(s, "");
      assert PrintCell(v) == "\"" + Doubled(s) + "\"" + "";
    } else {
      Unquoted(s);
      ReadLast(s);
    }
  }

  function Trailing(last: Value): seq<string> {
    if NeedsQuotes(Neutral(last)) then [""] else []
  }

  lemma Unquoted(s: string)
    requires !NeedsQuotes(s)
    ensures ',' !in s && '"' !in s && '\n' !in s && '\r' !in s
  {
    var special := "\",\n\r";
    assert special[0] == '"' && special[1] == ',' && special[2] == '\n' && special[3] == '\r';
  }

  function Neutrals(row: seq<Value>): (texts: seq<string>)
    ensures |texts| == |row| && forall i :: 0 <= i < |row| ==> texts[i] == Neutral(row[i])
  {
    seq(|row|, i requires 0 <= i < |row| => Neutral(row[i]))
  }

  lemma NeutralsOfMore(row: seq<Value>, tail: seq<string>)
    requires row != []
    ensures Neutrals(row) + tail == [Neutral(row[0])] + (Neutrals(row[1..]) + tail)
  {
  }

  lemma OneCell(row: seq<Value>)
    requires |row| == 1
    ensures Cells(PrintRow(row)) == Neutrals(row) + Trailing(row[0])
  {
    CellThenEnd(row[0]);
    assert Neutrals(row) == [Neutral(row[0])];
  }

  lemma OneMoreCell(row: seq<Value>, tail: seq<string>)
    requires |row| > 1 && Cells(PrintRow(row[1..])) == Neutrals(row[1..]) + tail
    ensures Cells(PrintRow(row)) == Neutrals(row) + tail
  {
    CellThenComma(row[0], PrintRow(row[1..]));
    NeutralsOfMore(row, tail);
  }

  /** Reading a printed row gives back its neutralised cells, plus one empty cell exactly when the last was quoted. */
  lemma {:induction false} RowRoundTrip(row: seq<Value>)
    requires row != []
    ensures Cells(PrintRow(row)) == Neutrals(row) + Trailing(row[|row| - 1])
  {
    if |row| == 1 {
      OneCell(row);
    } else {
      RowRoundTrip(row[1..]);
      OneMoreCell(row, Trailing(row[|row| - 1]));
    }
  }

  // ---------------------------------------------------------------- documents

  function PrintDocument(rows: seq<seq<Value>>): string {
    if rows == [] then ""
    else if |rows| == 1 then PrintRow(rows[0])
    else PrintRow(rows[0]) + "\n" + PrintDocument(rows[1..])
  }

  // Line ends as the importer sees them: CR LF and a lone CR both become LF.
  function Normalised(text: string): (r: string)
    ensures '\r' !in r
  {
    if text == "" then ""
    else if text[0] != '\r' then [text[0]] + Normalised(text[1..])
    else if |text| > 1 && text[1] == '\n' then "\n" + Normalised(text[2..])
    else "\n" + Normalised(text[1..])
  }

  function Lines(text: string): seq<string> { Text.Split(Normalised(text), '\n') }

  // The importer's lines: those with anything but white space.
  function NonBlank(lines: seq<string>): seq<string> {
    if lines == [] then []
    else (if Text.Trim(lines[0]) == "" then [] else [lines[0]]) + NonBlank(lines[1..])
  }

  predicate HasBreak(s: string) { '\n' in s || '\r' in s }

  lemma NormalisedOne(c: char, rest: string)
    requires c != '\r'
    ensures Normalised([c] + rest) == [c] + Normalised(rest)
  {
    assert ([c] + rest)[1..] == rest;
  }

  lemma HeadAndTail(s: string, rest: string)
    requires s != ""
    ensures s + rest == [s[0]] + (s[1..] + rest)
  {
  }

  lemma {:induction false} NormalisedSkips(s: string, rest: string)
    requires '\r' !in s
    ensures Normalised(s + rest) == s + Normalised(rest)
  {
    if s == "" {
      assert s + rest == rest;
    } else {
      NormalisedSkips(s[1..], rest);
      NormalisedOne(s[0], s[1..] + rest);
      HeadAndTail(s, rest);
      HeadAndTail(s, Normalised(rest));
    }
  }

  lemma NoCarriageReturn(text: string)
    requires '\r' !in text
    ensures Normalised(text) == text
  {
    NormalisedSkips(text, "");
    assert text + "" == text;
  }

  lemma {:induction false} DoubledKeeps(s: string, c: char)
    ensures c in Doubled(s) <==> c in s
  {
    if s != "" {
      DoubledKeeps(s[1..], c);
      assert s == [s[0]] + s[1..];
    }
  }

  // A line break is printed exactly when some cell holds one.
  lemma {:induction false} BreaksComeFromCells(row: seq<Value>)
    ensures HasBreak(PrintRow(row)) <==> exists v :: v in row && HasBreak(Neutral(v))
  {
    if row != [] {
      DoubledKeeps(Neutral(row[0]), '\n');
      DoubledKeeps(Neutral(row[0]), '\r');
      assert HasBreak(PrintCell(row[0])) <==> HasBreak(Neutral(row[0]));
      if |row| > 1 {
        BreaksComeFromCells(row[1..]);
        assert row == [row[0]] + row[1..];
      }
    }
  }

  function PrintedRows(rows: seq<seq<Value>>): (lines: seq<string>)
    ensures |lines| == |rows| && forall i :: 0 <= i < |rows| ==> lines[i] == PrintRow(rows[i])
  {
    seq(|rows|, i requires 0 <= i < |rows| => PrintRow(rows[i]))
  }

  lemma {:induction false} BreaklessLines(rows: seq<seq<Value>>)
    requires rows != [] && forall row :: row in rows ==> !HasBreak(PrintRow(row))
    ensures Lines(PrintDocument(rows)) == PrintedRows(rows)
  {
    var first := PrintRow(rows[0]);
    assert !HasBreak(first);
    if |rows| == 1 {
      NoCarriageReturn(first);
      Text.SplitWhole(first, '\n');
      assert PrintedRows(rows) == [first];
    } else {
      BreaklessLines(rows[1..]);
      var rest := PrintDocument(rows[1..]);
      NormalisedSkips(first + "\n", rest);
      assert first + "\n" + Normalised(rest) == first + ['\n'] + Normalised(rest);
      Text.SplitAt(first, '\n', Normalised(rest));
      assert PrintedRows(rows) == [first] + PrintedRows(rows[1..]);
    }
  }

  /** Splitting into lines before looking at quotes gives the printed rows exactly when no cell holds a line break. */
  lemma DocumentRoundTrip(rows: seq<seq<Value>>)
    requires rows != []
    ensures Lines(PrintDocument(rows)) == PrintedRows(rows) <==>
      forall row, v :: row in rows && v in row ==> !HasBreak(Neutral(v))
  {
    forall row | row in rows {
      BreaksComeFromCells(row);
    }
    if forall row :: row in rows ==> !HasBreak(PrintRow(row)) {
      BreaklessLines(rows);
    } else {
      var i :| 0 <= i < |rows| && HasBreak(PrintRow(rows[i]));
      var text := Normalised(PrintDocument(rows));
      Text.SplitAdds(text, '\n', '\r');
      assert PrintedRows(rows)[i] !in Lines(PrintDocument(rows));
    }
  }

  // ---------------------------------------------------------------- printing, then importing

  // The importer's view of a document: the cells of its lines, blank lines dropped.
  function ReadLines(lines: seq<string>): (table: seq<seq<string>>)
    ensures |table| == |lines| && forall i :: 0 <= i < |lines| ==> table[i] == Cells(lines[i])
  {
    seq(|lines|, i requires 0 <= i < |lines| => Cells(lines[i]))
  }

  function ReadDocument(text: string): seq<seq<string>> { ReadLines(NonBlank(Lines(text))) }

  // Nothing but white space is printed for the row: it has no cell, or one with nothing else.
  predicate IsBlank(row: seq<Value>) {
    row == [] || (|row| == 1 && Text.Trim(Neutral(row[0])) == "")
  }

  // What reading should give back.
  function Expected(row: seq<Value>): seq<string> {
    if row == [] then [] else Neutrals(row) + Trailing(row[|row| - 1])
  }

  function ExpectedTable(rows: seq<seq<Value>>): (table: seq<seq<string>>)
    ensures |table| == |rows| && forall i :: 0 <= i < |rows| ==> table[i] == Expected(rows[i])
  {
    seq(|rows|, i requires 0 <= i < |rows| => Expected(rows[i]))
  }

  lemma {:induction false} QuotedAdds(s: string, c: char)
    ensures c in Quoted(s).0 || c in Quoted(s).1 ==> c in s
    decreases |s|
  {
    if s != "" {
      if s[0] != '"' {
        QuotedAdds(s[1..], c);
      } else if |s| > 1 && s[1] == '"' {
        QuotedAdds(s[2..], c);
      }
    }
  }

  lemma {:induction false} CellsAdd(line: string, c: char)
    ensures c !in line ==> forall cell :: cell in Cells(line) ==> c !in cell
    decreases |line|
  {
    if line != "" {
      if line[0] == '"' {
        QuotedAdds(line[1..], c);
        CellsAdd(AfterComma(Quoted(line[1..]).1), c);
      } else if FirstComma(line) < |line| {
        CellsAdd(line[FirstComma(line) + 1..], c);
      }
    }
  }

  lemma {:induction false} NonBlankKeepsAll(lines: seq<string>)
    ensures |NonBlank(lines)| <= |lines|
    ensures NonBlank(lines) == lines <==> forall line :: line in lines ==> Text.Trim(line) != ""
    ensures |NonBlank(lines)| == |lines| ==> NonBlank(lines) == lines
    ensures forall line :: line in NonBlank(lines) ==> line in lines
  {
    if lines != [] {
      NonBlankKeepsAll(lines[1..]);
      assert lines == [lines[0]] + lines[1..];
    }
  }

  lemma PrintsBlank(row: seq<Value>)
    requires forall v :: v in row ==> !HasBreak(Neutral(v))
    ensures Text.Trim(PrintRow(row)) == "" <==> IsBlank(row)
  {
    if |row| == 1 {
      if NeedsQuotes(Neutral(row[0])) {
        Text.TrimKeeps(PrintRow(row), '"');
        VisibleQuote(Neutral(row[0]));
      }
    } else if |row| >= 2 {
      Text.TrimKeeps(PrintRow(row), ',');
    }
  }

  // A text without line breaks that needs quotes holds a comma or a quote.
  lemma VisibleQuote(s: string)
    requires NeedsQuotes(s) && !HasBreak(s)
    ensures Text.Trim(s) != ""
  {
    var special := "\",\n\r";
    var c :| c in s && c in special;
    assert c == '"' || c == ',';
    Text.TrimKeeps(s, c);
  }

  lemma LinesHaveNoBreak(text: string)
    ensures forall line :: line in NonBlank(Lines(text)) ==> !HasBreak(line)
  {
    Text.SplitAdds(Normalised(text), '\n', '\r');
    NonBlankKeepsAll(Lines(text));
  }

  lemma RowsStay(rows: seq<seq<Value>>)
    requires forall row :: row in rows ==> !IsBlank(row) && forall v :: v in row ==> !HasBreak(Neutral(v))
    ensures NonBlank(PrintedRows(rows)) == PrintedRows(rows)
  {
    forall line | line in PrintedRows(rows) ensures Text.Trim(line) != "" {
      var i :| 0 <= i < |rows| && PrintedRows(rows)[i] == line;
      assert rows[i] in rows;
      PrintsBlank(rows[i]);
    }
    NonBlankKeepsAll(PrintedRows(rows));
  }

  lemma RowsReadBack(rows: seq<seq<Value>>)
    requires [] !in rows
    ensures ReadLines(PrintedRows(rows)) == ExpectedTable(rows)
  {
    forall i | 0 <= i < |rows| ensures Cells(PrintRow(rows[i])) == Expected(rows[i]) {
      assert rows[i] in rows;
      RowRoundTrip(rows[i]);
    }
  }

  lemma ReadBackWhole(rows: seq<seq<Value>>)
    requires rows != [] && forall row :: row in rows ==> !IsBlank(row) && forall v :: v in row ==> !HasBreak(Neutral(v))
    ensures ReadDocument(PrintDocument(rows)) == ExpectedTable(rows)
  {
    DocumentRoundTrip(rows);
    RowsStay(rows);
    RowsReadBack(rows);
  }

  lemma BreakIsLost(rows: seq<seq<Value>>, i: nat, v: Value)
    requires i < |rows| && v in rows[i] && HasBreak(Neutral(v))
    ensures ReadDocument(PrintDocument(rows)) != ExpectedTable(rows)
  {
    var lines := NonBlank(Lines(PrintDocument(rows)));
    LinesHaveNoBreak(PrintDocument(rows));
    if i < |lines| {
      assert !HasBreak(lines[i]);
      CellsAdd(lines[i], '\n');
      CellsAdd(lines[i], '\r');
      var k :| 0 <= k < |rows[i]| && rows[i][k] == v;
      assert Expected(rows[i])[k] == Neutral(v);
      assert Expected(rows[i])[k] !in Cells(lines[i]);
      assert ReadDocument(PrintDocument(rows))[i] == Cells(lines[i]);
    }
  }

  lemma BlankIsLost(rows: seq<seq<Value>>, i: nat)
    requires i < |rows| && IsBlank(rows[i])
    requires forall row, v :: row in rows && v in row ==> !HasBreak(Neutral(v))
    ensures ReadDocument(PrintDocument(rows)) != ExpectedTable(rows)
  {
    DocumentRoundTrip(rows);
    assert rows[i] in rows;
    PrintsBlank(rows[i]);
    assert PrintedRows(rows)[i] in PrintedRows(rows);
    NonBlankKeepsAll(PrintedRows(rows));
  }

  /**
   * A printed document is imported as the rows it was printed from, cell by cell, exactly when no
   * cell holds a line break and no row is blank.
   */
  lemma PrintThenImport(rows: seq<seq<Value>>)
    requires rows != []
    ensures ReadDocument(PrintDocument(rows)) == ExpectedTable(rows) <==>
      forall row :: row in rows ==> !IsBlank(row) && forall v :: v in row ==> !HasBreak(Neutral(v))
  {
    if row, v :| row in rows && v in row && HasBreak(Neutral(v)) {
      var i :| 0 <= i < |rows| && rows[i] == row;
      BreakIsLost(rows, i, v);
    } else if row :| row in rows && IsBlank(row) {
      var i :| 0 <= i < |rows| && rows[i] == row;
      BlankIsLost(rows, i);
    } else {
      ReadBackWhole(rows);
    }
  }
}
