/** The printer and the import on literal texts: which headers name a column, what a cell becomes, and what a row may hold. */
module CsvLaws {
  import opened Options
  import opened Csv
  import opened CsvImport
  import Text

  // ---------------------------------------------------------------- headers

  lemma KeyHead(c: char, rest: string)
    ensures Key([c] + rest) == Key([c]) + Key(rest)
  {
    assert ([c] + rest)[1..] == rest && [c][1..] == "";
  }

  lemma {:induction false} KeyAppends(a: string, b: string)
    ensures Key(a + b) == Key(a) + Key(b)
  {
    if a == "" {
      assert a + b == b;
    } else {
      KeyAppends(a[1..], b);
      KeyHead(a[0], a[1..] + b);
      KeyHead(a[0], a[1..]);
      assert a == [a[0]] + a[1..];
      Associate([a[0]], a[1..], b);
      Associate(Key([a[0]]), Key(a[1..]), Key(b));
    }
  }

  /** Of a header only the letters count, each in lower case. */
  lemma KeyOfOne(c: char)
    ensures 'a' <= c <= 'z' ==> Key([c]) == [c]
    ensures 'A' <= c <= 'Z' ==> |Key([c])| == 1 && Key([c])[0] as int - 'a' as int == c as int - 'A' as int
    ensures c < 'A' || 'Z' < c < 'a' || ('z' < c && c != '\U{0130}' && c != '\U{212A}') ==> Key([c]) == ""
  {
    assert Key([c][1..]) == "";
  }

  lemma {:induction false} LowerKey(s: string)
    requires forall i :: 0 <= i < |s| ==> 'a' <= s[i] <= 'z'
    ensures Key(s) == s
  {
    if s != "" {
      LowerKey(s[1..]);
    }
  }

  // The names a column may go by.
  predicate Name(word: string, column: Column) {
    match column
    case Customer => word == "customer" || word == "client" || word == "name"
    case Phone => word == "phone" || word == "telephone" || word == "tel"
    case Item => word == "item" || word == "product" || word == "article"
    case Quantity => word == "quantity" || word == "qty"
    case Total => word == "total" || word == "price" || word == "amount" || word == "montant"
  }

  lemma NamesDiffer(word: string, a: Column, b: Column)
    requires Name(word, a) && Name(word, b)
    ensures a == b
  {
    Lengths();
    Spellings();
  }

  lemma Lengths()
    ensures |"customer"| == 8 && |"client"| == 6 && |"name"| == 4 && |"phone"| == 5 && |"telephone"| == 9 && |"tel"| == 3
    ensures |"item"| == 4 && |"product"| == 7 && |"article"| == 7 && |"quantity"| == 8 && |"qty"| == 3
    ensures |"total"| == 5 && |"price"| == 5 && |"amount"| == 6 && |"montant"| == 7
  {
  }

  lemma Spellings()
    ensures "customer"[0] == 'c' && "client"[0] == 'c' && "name"[0] == 'n' && "phone"[0] == 'p' && "tel"[0] == 't'
    ensures "item"[0] == 'i' && "product"[0] == 'p' && "article"[0] == 'a' && "quantity"[0] == 'q' && "qty"[0] == 'q'
    ensures "total"[0] == 't' && "price"[0] == 'p' && "price"[1] == 'r' && "phone"[1] == 'h' && "amount"[0] == 'a' && "montant"[0] == 'm'
  {
  }

  /** A header names a column exactly when its letters spell one of the column's names. */
  lemma HeaderExact(header: string, column: Column)
    ensures ColumnOf(header) == Some(column) <==> Name(Key(header), column)
  {
    var found := ColumnOf(header);
    if found.Some? {
      assert Name(Key(header), found.value);
      if Name(Key(header), column) { NamesDiffer(Key(header), found.value, column); }
    }
  }

  predicate Letter(c: char) { 'a' <= c <= 'z' || 'A' <= c <= 'Z' || c == '\U{0130}' || c == '\U{212A}' }

  lemma {:induction false} NoLetters(s: string)
    requires forall i :: 0 <= i < |s| ==> !Letter(s[i])
    ensures Key(s) == ""
  {
    if s != "" {
      NoLetters(s[1..]);
    }
  }

  lemma NameIsLower(word: string, column: Column)
    requires Name(word, column)
    ensures forall i :: 0 <= i < |word| ==> 'a' <= word[i] <= 'z'
  {
  }

  lemma KeyAround(before: string, word: string, beyond: string)
    requires forall i :: 0 <= i < |before| ==> !Letter(before[i])
    requires forall i :: 0 <= i < |beyond| ==> !Letter(beyond[i])
    requires forall i :: 0 <= i < |word| ==> 'a' <= word[i] <= 'z'
    ensures Key(before + word + beyond) == word
  {
    NoLetters(before);
    NoLetters(beyond);
    LowerKey(word);
    KeyAppends(before + word, beyond);
    KeyAppends(before, word);
    assert [] + word + [] == word;
  }

  lemma KeyNames(header: string, word: string, column: Column)
    requires Key(header) == word && Name(word, column)
    ensures ColumnOf(header) == Some(column)
  {
    HeaderExact(header, column);
  }

  /** Each name works, whatever that is not a letter stands around it. */
  lemma NameWorks(before: string, word: string, beyond: string, column: Column)
    requires Name(word, column)
    requires forall i :: 0 <= i < |before| ==> !Letter(before[i])
    requires forall i :: 0 <= i < |beyond| ==> !Letter(beyond[i])
    ensures ColumnOf(before + word + beyond) == Some(column)
  {
    NameIsLower(word, column);
    KeyAround(before, word, beyond);
    KeyNames(before + word + beyond, word, column);
  }

  // ---------------------------------------------------------------- from a printed row to an order

  // Texts between semicolons.
  function Between(texts: seq<string>): string {
    if texts == [] then ""
    else if |texts| == 1 then texts[0]
    else texts[0] + [';'] + Between(texts[1..])
  }

  // A text the import takes as it is: trimmed, not empty, without a semicolon.
  predicate Plain(text: string) { text != "" && Text.Trim(text) == text && ';' !in text }

  lemma {:induction false} PiecesComeBack(texts: seq<string>)
    requires texts != [] && forall i :: 0 <= i < |texts| ==> Plain(texts[i])
    ensures Trimmed(Text.Split(Between(texts), ';')) == texts
  {
    if |texts| == 1 {
      Text.SplitWhole(texts[0], ';');
      OnePiece(texts[0], []);
      assert [texts[0]] + [] == texts;
    } else {
      PiecesComeBack(texts[1..]);
      Text.SplitAt(texts[0], ';', Between(texts[1..]));
      OnePiece(texts[0], Text.Split(Between(texts[1..]), ';'));
      assert [texts[0]] + texts[1..] == texts;
    }
  }

  lemma OnePiece(text: string, pieces: seq<string>)
    requires Plain(text)
    ensures Trimmed([text] + pieces) == [text] + Trimmed(pieces)
  {
    assert ([text] + pieces)[1..] == pieces;
    if pieces == [] { assert [text] + pieces == [text]; }
  }

  // Cell `at` of the row holds this text, which no spreadsheet would compute.
  predicate Holds(row: seq<Value>, at: nat, text: string) {
    at < |row| && row[at] == Content(text) && !StartsFormula(text)
  }

  lemma CellComesBack(headers: seq<string>, row: seq<Value>, column: Column, at: nat, text: string)
    requires Names(headers, column, at) && Holds(row, at, text)
    ensures Cell(headers, Cells(PrintRow(row)), column) == Text.Trim(text)
  {
    NamesIsIndex(headers, column, at);
    RowRoundTrip(row);
    assert Cells(PrintRow(row))[at] == Neutral(row[at]);
  }

  // The row has the order's five texts under the headers that name their columns, in whatever order.
  ghost predicate Writes(headers: seq<string>, row: seq<Value>, f: Fields, at: Column -> nat) {
    && (forall c: Column :: Names(headers, c, at(c)))
    && Holds(row, at(Customer), f.customer) && Holds(row, at(Phone), f.phone) && Holds(row, at(Total), f.total)
    && Holds(row, at(Item), Between(f.items)) && Holds(row, at(Quantity), Between(f.quantities))
  }

  ghost predicate AsTyped(f: Fields) {
    && Text.Trim(f.customer) == f.customer && Text.Trim(f.phone) == f.phone && Text.Trim(f.total) == f.total
    && f.items != [] && f.quantities != []
    && (forall i :: 0 <= i < |f.items| ==> Plain(f.items[i]))
    && (forall i :: 0 <= i < |f.quantities| ==> Plain(f.quantities[i]))
    && Text.Trim(Between(f.items)) == Between(f.items) && Text.Trim(Between(f.quantities)) == Between(f.quantities)
  }

  /** A row printed with an order's texts in the named columns is read back as just these texts. */
  lemma FieldsComeBack(headers: seq<string>, row: seq<Value>, f: Fields, at: Column -> nat)
    requires Writes(headers, row, f, at) && AsTyped(f)
    ensures FieldsOf(headers, PrintRow(row)) == f
  {
    CellComesBack(headers, row, Customer, at(Customer), f.customer);
    CellComesBack(headers, row, Phone, at(Phone), f.phone);
    CellComesBack(headers, row, Total, at(Total), f.total);
    CellComesBack(headers, row, Item, at(Item), Between(f.items));
    CellComesBack(headers, row, Quantity, at(Quantity), Between(f.quantities));
    PiecesComeBack(f.items);
    PiecesComeBack(f.quantities);
  }

  // ---------------------------------------------------------------- what a row may hold

  predicate Reads(numbers: Numbers, text: string, low: int, high: int) {
    numbers.parseInt(text).Some? && low <= numbers.parseInt(text).value <= high
  }

  // The text item j's quantity is read from: its own, or the first when there are too few.
  function TextFor(f: Fields, j: nat): string
    requires f.quantities != []
  {
    f.quantities[if j < |f.quantities| then j else 0]
  }

  // What the import asks of a row, in numbers.
  ghost predicate Acceptable(f: Fields, numbers: Numbers) {
    && f.customer != "" && Text.Units(f.customer) <= 100
    && f.phone != "" && PhoneOk(f.phone)
    && f.items != [] && (forall j :: 0 <= j < |f.items| ==> Text.Units(f.items[j]) <= 200)
    && f.quantities != [] && (forall j :: 0 <= j < |f.items| ==> Reads(numbers, TextFor(f, j), 1, 1000))
    && f.total != "" && numbers.parseFloat(f.total).Some? && 0.0 <= numbers.parseFloat(f.total).value <= 1000000.0
  }

  lemma QuantitiesExact(f: Fields, numbers: Numbers, j: nat)
    requires f.quantities != [] && j < |f.items|
    ensures QuantityFault(numbers.parseInt(QuantityText(f, j))).None? <==> Reads(numbers, TextFor(f, j), 1, 1000)
  {
  }

  // The first quantity that does not read, if any.
  lemma {:induction false} FirstBad(f: Fields, numbers: Numbers, n: nat) returns (j: Option<nat>)
    requires f.quantities != [] && n <= |f.items|
    ensures j.None? ==> forall i :: 0 <= i < n ==> QuantityFault(numbers.parseInt(QuantityText(f, i))).None?
    ensures j.Some? ==>
      && j.value < n && QuantityFault(numbers.parseInt(QuantityText(f, j.value))).Some?
      && forall i :: 0 <= i < j.value ==> QuantityFault(numbers.parseInt(QuantityText(f, i))).None?
  {
    if n == 0 {
      j := None;
    } else {
      j := FirstBad(f, numbers, n - 1);
      if j.None? && QuantityFault(numbers.parseInt(QuantityText(f, n - 1))).Some? { j := Some(n - 1); }
    }
  }

  /** A row becomes an order exactly when every text is there and every number in its range. */
  lemma RowOkExact(f: Fields, numbers: Numbers)
    ensures RowOk(f, numbers) <==> Acceptable(f, numbers)
  {
    if RowOk(f, numbers) {
      OkIsAcceptable(f, numbers);
    }
    if Acceptable(f, numbers) {
      forall e ensures !Fault(e, f, numbers) { AcceptableHasNoFault(f, numbers, e); }
    }
  }

  lemma AcceptableHasNoFault(f: Fields, numbers: Numbers, e: RowError)
    requires Acceptable(f, numbers)
    ensures !Fault(e, f, numbers)
  {
    forall j: nat | j < |f.items| ensures QuantityFault(numbers.parseInt(QuantityText(f, j))).None? {
      QuantitiesExact(f, numbers, j);
    }
  }

  lemma OkIsAcceptable(f: Fields, numbers: Numbers)
    requires RowOk(f, numbers)
    ensures Acceptable(f, numbers)
  {
    assert !Fault(CustomerEmpty, f, numbers) && !Fault(CustomerLong, f, numbers);
    assert !Fault(PhoneEmpty, f, numbers) && !Fault(PhoneInvalid, f, numbers);
    assert !Fault(ItemEmpty, f, numbers) && !Fault(ItemLong, f, numbers) && !Fault(QuantityNaN, f, numbers);
    assert !Fault(TotalNaN, f, numbers) && !Fault(TotalNegative, f, numbers) && !Fault(TotalHigh, f, numbers);
    var j := FirstBad(f, numbers, |f.items|);
    if j.Some? {
      var e := QuantityFault(numbers.parseInt(QuantityText(f, j.value))).value;
      assert FirstQuantityFault(f, numbers, j.value, e);
      assert Fault(e, f, numbers);
    }
    forall i: nat | i < |f.items| ensures Reads(numbers, TextFor(f, i), 1, 1000) { QuantitiesExact(f, numbers, i); }
  }

  // 7 to 19 digits and blanks, the first a digit.
  predicate Dialled(s: string) {
    && 7 <= |s| <= 19 && '0' <= s[0] <= '9'
    && forall i :: 0 < i < |s| ==> '0' <= s[i] <= '9' || s[i] == ' '
  }

  /** A phone number may have a plus in front. */
  lemma PhoneExact(s: string)
    ensures PhoneOk(s) <==> Dialled(s) || (s != "" && s[0] == '+' && Dialled(s[1..]))
  {
    var d := if s != "" && s[0] == '+' then s[1..] else s;
    DialledExact(d);
  }

  lemma DialledExact(d: string)
    ensures Dialled(d) <==> NumberOk(d)
  {
  }

  // ---------------------------------------------------------------- which rows become orders

  /** Row i, if it may, becomes the order at its place among those that may: in order, and each once. */
  lemma {:induction false} GoodRowAt(headers: seq<string>, rows: seq<string>, numbers: Numbers, i: nat)
    requires i < |rows| && RowOk(FieldsOf(headers, rows[i]), numbers)
    ensures var place := |GoodRows(headers, rows[..i], numbers)|;
      && place < |GoodRows(headers, rows, numbers)|
      && GoodRows(headers, rows, numbers)[place] == FieldsOf(headers, rows[i])
    decreases |rows|
  {
    if i == |rows| - 1 {
      assert rows[..i] == rows[..|rows| - 1];
    } else {
      var some := rows[..|rows| - 1];
      GoodRowAt(headers, some, numbers, i);
      assert some[..i] == rows[..i] && some[i] == rows[i];
    }
  }

  // ---------------------------------------------------------------- print

  predicate Special(c: char) { c == '"' || c == ',' || c == '\n' || c == '\r' }

  lemma NeedsQuotesExact(s: string)
    ensures NeedsQuotes(s) <==> exists c :: c in s && Special(c)
  {
    var special := "\",\n\r";
    assert special[0] == '"' && special[1] == ',' && special[2] == '\n' && special[3] == '\r';
    assert forall c :: c in special <==> Special(c);
  }

  lemma {:induction false} DoubledAppends(a: string, b: string)
    ensures Doubled(a + b) == Doubled(a) + Doubled(b)
  {
    if a == "" {
      assert a + b == b;
    } else {
      DoubledAppends(a[1..], b);
      assert (a + b)[1..] == a[1..] + b;
      Associate(if a[0] == '"' then "\"\"" else [a[0]], Doubled(a[1..]), Doubled(b));
    }
  }

  /** A cell is printed as it is unless it holds a comma, a quote or a line break; then between quotes, its own doubled. */
  lemma PrintCellExact(text: string, c: char)
    requires !StartsFormula(text)
    ensures PrintCell(Content(text)) ==
      if exists x :: x in text && Special(x) then ['"'] + Doubled(text) + ['"'] else text
    ensures Doubled([c]) == if c == '"' then ['"', '"'] else [c]
  {
    NeedsQuotesExact(text);
    assert Doubled([c][1..]) == "";
  }

  /** Cells stand between commas, rows between line feeds. */
  lemma PrintExact(a: Value, b: Value, more: seq<seq<Value>>)
    requires more != []
    ensures PrintRow([a, b]) == PrintCell(a) + [','] + PrintCell(b)
    ensures PrintDocument([[a, b]] + more) == PrintRow([a, b]) + ['\n'] + PrintDocument(more)
  {
    assert [a, b][1..] == [b];
    assert ([[a, b]] + more)[1..] == more;
  }

  /** The importer takes CR LF, and a CR alone, for a line feed. */
  lemma LineEndsAlike(a: string, b: string)
    requires '\r' !in a
    ensures Lines(a + "\r\n" + b) == Lines(a + "\n" + b)
    ensures b == "" || b[0] != '\n' ==> Lines(a + "\r" + b) == Lines(a + "\n" + b)
  {
    Associate(a, "\r\n", b);
    Associate(a, "\n", b);
    Associate(a, "\r", b);
    NormalisedSkips(a, "\r\n" + b);
    NormalisedSkips(a, "\n" + b);
    NormalisedSkips(a, "\r" + b);
    assert ("\r\n" + b)[2..] == b && ("\n" + b)[1..] == b && ("\r" + b)[1..] == b;
  }
}
