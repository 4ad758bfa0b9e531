/** Importing orders from a CSV file: the line reader, the column map and the row checks, as loops. */
module CsvImport {
  import opened Options
  import Csv
  import Text

  // ---------------------------------------------------------------- one line

  // Reads a quoted field whose opening quote is just before position start.
  method ReadQuoted(line: string, start: nat) returns (value: string, i: nat)
    requires start <= |line|
    ensures start <= i <= |line|
    ensures Csv.Quoted(line[start..]).0 == value && Csv.Quoted(line[start..]).1 == line[i..]
  {
    value, i := "", start;
    while i < |line|
      invariant start <= i <= |line|
      invariant Csv.Quoted(line[start..]).0 == value + Csv.Quoted(line[i..]).0
      invariant Csv.Quoted(line[start..]).1 == Csv.Quoted(line[i..]).1
    {
      if line[i] == '"' {
        if i + 1 < |line| && line[i + 1] == '"' {
          assert line[i..][2..] == line[i + 2..];
          Associate(value, "\"", Csv.Quoted(line[i + 2..]).0);
          value := value + "\"";
          i := i + 2;
        } else {
          assert line[i..][1..] == line[i + 1..];
          i := i + 1;
          return;
        }
      } else {
        assert line[i..][1..] == line[i + 1..];
        Associate(value, [line[i]], Csv.Quoted(line[i + 1..]).0);
        value := value + [line[i]];
        i := i + 1;
      }
    }
  }

  lemma QuotedCell(rest: string)
    requires rest != "" && rest[0] == '"'
    ensures Csv.Cells(rest) == [Csv.Quoted(rest[1..]).0] + Csv.Cells(Csv.AfterComma(Csv.Quoted(rest[1..]).1))
  {
  }

  lemma PlainCell(rest: string)
    requires rest != "" && rest[0] != '"'
    ensures var comma := Csv.FirstComma(rest);
      Csv.Cells(rest) == if comma == |rest| then [rest] else [rest[..comma]] + Csv.Cells(rest[comma + 1..])
  {
  }

  // Reads the field at position i; it is the last one unless reading goes on at next.
  method ReadField(line: string, i: nat) returns (value: string, next: nat, last: bool)
    requires i < |line|
    ensures i < next <= |line|
    ensures Csv.Cells(line[i..]) == [value] + if last then [] else Csv.Cells(line[next..])
  {
    var rest := line[i..];
    if line[i] == '"' {
      QuotedCell(rest);
      assert rest[1..] == line[i + 1..];
      value, next := ReadQuoted(line, i + 1);
      ghost var after := line[next..];
      if next < |line| && line[next] == ',' {
        assert line[next..][1..] == line[next + 1..];
        next := next + 1;
      }
      last := false;
      assert line[next..] == Csv.AfterComma(after);
    } else {
      PlainCell(rest);
      var comma := Csv.FirstComma(rest);
      value, last := rest[..comma], comma == |rest|;
      next := if last then |line| else i + comma + 1;
      assert last ==> rest == value && [value] + [] == [value];
      assert !last ==> rest[comma + 1..] == line[next..];
    }
  }

  lemma Regroup(before: seq<string>, value: string, rest: seq<string>)
    ensures before + ([value] + rest) == (before + [value]) + rest
    ensures rest == [] ==> before + ([value] + rest) == before + [value]
  {
  }

  /** The reader's index loop returns exactly the cells of the grammar, on every line. */
  method ParseCsvLine(line: string) returns (cells: seq<string>)
    ensures cells == Csv.Cells(line)
  {
    cells := [];
    var i := 0;
    assert line[0..] == line;
    while i <= |line|
      invariant 0 <= i <= |line|
      invariant Csv.Cells(line) == cells + Csv.Cells(line[i..])
      decreases |line| - i
    {
      if i == |line| {
        cells := cells + [""];
        return;
      }
      var value, next, last := ReadField(line, i);
      Regroup(cells, value, if last then [] else Csv.Cells(line[next..]));
      cells, i := cells + [value], next;
      if last {
        return;
      }
    }
  }

  // ---------------------------------------------------------------- columns

  datatype Column = Customer | Phone | Item | Quantity | Total

  const COLUMNS: seq<Column> := [Customer, Phone, Item, Quantity, Total]

  const MAX_IMPORT_ROWS := 5000
  const MAX_REPORTED := 50
  // The width of the column for an item's name, in characters: less than the 200 UTF-16 units a row may have.
  const NAME_WIDTH := 150

  // Lower case, letters only. Two letters outside ASCII have an ASCII lower case.
  function Key(header: string): string {
    if header == "" then ""
    else
      var c, rest := header[0], Key(header[1..]);
      if 'a' <= c <= 'z' then [c] + rest
      else if 'A' <= c <= 'Z' then [(c as int + 32) as char] + rest
      else if c == '\U{0130}' then "i" + rest
      else if c == '\U{212A}' then "k" + rest
      else rest
  }

  function ColumnOf(header: string): Option<Column> {
    var key := Key(header);
    if key in {"customer", "client", "name"} then Some(Customer)
    else if key in {"phone", "telephone", "tel"} then Some(Phone)
    else if key in {"item", "product", "article"} then Some(Item)
    else if key in {"quantity", "qty"} then Some(Quantity)
    else if key in {"total", "price", "amount", "montant"} then Some(Total)
    else None
  }

  // The first header naming the column.
  function IndexOf(headers: seq<string>, column: Column): (at: Option<nat>)
    ensures at.None? <==> forall i :: 0 <= i < |headers| ==> ColumnOf(headers[i]) != Some(column)
    ensures at.Some? ==> at.value < |headers| && ColumnOf(headers[at.value]) == Some(column)
    ensures at.Some? ==> forall i :: 0 <= i < at.value ==> ColumnOf(headers[i]) != Some(column)
  {
    if headers == [] then None
    else if ColumnOf(headers[0]) == Some(column) then Some(0)
    else
      var rest := IndexOf(headers[1..], column);
      if rest.None? then None else Some(rest.value + 1)
  }

  predicate Names(headers: seq<string>, column: Column, i: nat) {
    && i < |headers| && ColumnOf(headers[i]) == Some(column)
    && forall j :: 0 <= j < i ==> ColumnOf(headers[j]) != Some(column)
  }

  lemma NamesIsIndex(headers: seq<string>, column: Column, i: nat)
    requires Names(headers, column, i)
    ensures IndexOf(headers, column) == Some(i)
  {
  }

  method CollectColumns(headers: seq<string>) returns (columns: map<Column, nat>)
    ensures forall c :: c in columns ==> Names(headers, c, columns[c])
    ensures forall c :: c !in columns <==> forall i :: 0 <= i < |headers| ==> ColumnOf(headers[i]) != Some(c)
  {
    columns := map[];
    for i := 0 to |headers|
      invariant forall c :: c in columns ==> Names(headers, c, columns[c])
      invariant forall c :: c !in columns <==> forall j :: 0 <= j < i ==> ColumnOf(headers[j]) != Some(c)
    {
      var mapped := ColumnOf(headers[i]);
      if mapped.Some? && mapped.value !in columns {
        columns := columns[mapped.value := i];
      }
    }
  }

  /** Each column is mapped to its first header; exactly the columns no header names are missing. */
  method MapColumns(headers: seq<string>) returns (columns: map<Column, nat>, missing: seq<Column>)
    ensures forall c :: c in columns ==> IndexOf(headers, c) == Some(columns[c])
    ensures forall c :: c in columns <==> IndexOf(headers, c).Some?
    ensures forall c :: c in missing <==> IndexOf(headers, c).None?
  {
    columns := CollectColumns(headers);
    missing := Missing(columns);
    forall c | c in columns {
      NamesIsIndex(headers, c, columns[c]);
    }
  }

  method Missing(columns: map<Column, nat>) returns (missing: seq<Column>)
    ensures forall c :: c in missing <==> c !in columns
  {
    missing := [];
    for k := 0 to |COLUMNS|
      invariant forall c :: c in missing <==> c in COLUMNS[..k] && c !in columns
    {
      if COLUMNS[k] !in columns {
        missing := missing + [COLUMNS[k]];
      }
    }
    AllColumns();
  }

  lemma AllColumns()
    ensures forall c: Column :: c in COLUMNS[..|COLUMNS|]
  {
    assert COLUMNS[..|COLUMNS|] == COLUMNS;
    assert COLUMNS[0] == Customer && COLUMNS[1] == Phone && COLUMNS[2] == Item;
    assert COLUMNS[3] == Quantity && COLUMNS[4] == Total;
    forall c: Column ensures c in COLUMNS {
      match c
      case Customer =>
      case Phone =>
      case Item =>
      case Quantity =>
      case Total =>
    }
  }

  // ---------------------------------------------------------------- one row

  // Amounts as the database keeps them: in thousandths, the three decimals of its columns.
  datatype Line = Line(name: string, quantity: int, unitPrice: int)

  datatype Order = Order(customer: string, phone: string, lines: seq<Line>, total: int)

  datatype RowError =
    | CustomerEmpty | CustomerLong | PhoneEmpty | PhoneInvalid | ItemEmpty | ItemLong
    | QuantityNaN | QuantityLow | QuantityHigh | TotalNaN | TotalNegative | TotalHigh

  // The language's number readers; None is "not a number".
  datatype Numbers = Numbers(parseInt: string -> Option<int>, parseFloat: string -> Option<real>)

  datatype Fields =
    Fields(customer: string, phone: string, items: seq<string>, quantities: seq<string>, total: string)

  predicate Digit(c: char) { '0' <= c <= '9' }

  predicate NumberOk(d: string) {
    7 <= |d| <= 19 && Digit(d[0]) && forall i :: 1 <= i < |d| ==> Digit(d[i]) || d[i] == ' '
  }

  predicate PhoneOk(s: string) { NumberOk(if s != "" && s[0] == '+' then s[1..] else s) }

  function Trimmed(pieces: seq<string>): seq<string> {
    if pieces == [] then []
    else (if Text.Trim(pieces[0]) == "" then [] else [Text.Trim(pieces[0])]) + Trimmed(pieces[1..])
  }

  function CellAt(cells: seq<string>, at: nat): string {
    if at < |cells| then Text.Trim(cells[at]) else ""
  }

  function Cell(headers: seq<string>, cells: seq<string>, column: Column): string {
    var at := IndexOf(headers, column);
    if at.Some? then CellAt(cells, at.value) else ""
  }

  function FieldsOf(headers: seq<string>, line: string): Fields {
    var cells := Csv.Cells(line);
    Fields(Cell(headers, cells, Customer), Cell(headers, cells, Phone),
           Trimmed(Text.Split(Cell(headers, cells, Item), ';')),
           Trimmed(Text.Split(Cell(headers, cells, Quantity), ';')),
           Cell(headers, cells, Total))
  }

  // The quantity text of item j: its own, or the first when there are too few.
  function QuantityText(f: Fields, j: nat): string
    requires f.quantities != []
  {
    if j < |f.quantities| then f.quantities[j] else f.quantities[0]
  }

  function QuantityFault(q: Option<int>): Option<RowError> {
    if q.None? then Some(QuantityNaN)
    else if q.value < 1 then Some(QuantityLow)
    else if q.value > 1000 then Some(QuantityHigh)
    else None
  }

  // Item j is the first with a bad quantity, and this is what is wrong with it.
  ghost predicate FirstQuantityFault(f: Fields, numbers: Numbers, j: nat, e: RowError) {
    && f.quantities != [] && j < |f.items|
    && QuantityFault(numbers.parseInt(QuantityText(f, j))) == Some(e)
    && forall i :: 0 <= i < j ==> QuantityFault(numbers.parseInt(QuantityText(f, i))).None?
  }

  // What each complaint means.
  ghost predicate Fault(e: RowError, f: Fields, numbers: Numbers) {
    match e
    case CustomerEmpty => f.customer == ""
    case CustomerLong => Text.Units(f.customer) > 100
    case PhoneEmpty => f.phone == ""
    case PhoneInvalid => f.phone != "" && !PhoneOk(f.phone)
    case ItemEmpty => f.items == []
    case ItemLong => exists j :: 0 <= j < |f.items| && Text.Units(f.items[j]) > 200
    case TotalNaN => f.total == "" || numbers.parseFloat(f.total).None?
    case TotalNegative => f.total != "" && numbers.parseFloat(f.total).Some? && numbers.parseFloat(f.total).value < 0.0
    case TotalHigh => f.total != "" && numbers.parseFloat(f.total).Some? && numbers.parseFloat(f.total).value > 1000000.0
    case _ =>
      || (e == QuantityNaN && f.items != [] && f.quantities == [])
      || exists j :: FirstQuantityFault(f, numbers, j, e)
  }

  ghost predicate RowOk(f: Fields, numbers: Numbers) {
    forall e :: !Fault(e, f, numbers)
  }

  function TotalQuantity(quantities: seq<int>): int {
    if quantities == [] then 0
    else TotalQuantity(quantities[..|quantities| - 1]) + quantities[|quantities| - 1]
  }

  function Amount(lines: seq<Line>): int {
    if lines == [] then 0
    else Amount(lines[..|lines| - 1]) + lines[|lines| - 1].quantity * lines[|lines| - 1].unitPrice
  }

  // The quantities of the lines.
  function Pieces(lines: seq<Line>): seq<int> {
    seq(|lines|, i requires 0 <= i < |lines| => lines[i].quantity)
  }

  // A decimal column with three places rounds to the nearest, halves away from zero; amounts are
  // never negative here.
  function Thousandths(x: real): int { (1000.0 * x + 0.5).Floor }

  // Twice the distance of the lines' amount from the total of the row, in thousandths.
  function TwiceOff(lines: seq<Line>, total: real): real {
    var off := Amount(lines) as real - 1000.0 * total;
    2.0 * if off < 0.0 then -off else off
  }

  // What the stored prices are worth: one price for all pieces, the row's total divided by their
  // number and rounded. The lines add up to the stored total exactly when the number of pieces
  // divides it; in every case they are off by at most half a thousandth a piece.
  ghost predicate Priced(lines: seq<Line>, stored: int, total: real) {
    var pieces := TotalQuantity(Pieces(lines));
    && pieces >= |lines| > 0
    && (forall i :: 0 <= i < |lines| ==> lines[i].unitPrice == Thousandths(total / pieces as real))
    && (Amount(lines) == stored <==> stored % pieces == 0)
    && TwiceOff(lines, total) <= pieces as real
  }

  // The order a correct row describes.
  ghost predicate Describes(f: Fields, numbers: Numbers, order: Order) {
    && order.customer == f.customer && order.phone == f.phone
    && numbers.parseFloat(f.total).Some? && order.total == Thousandths(numbers.parseFloat(f.total).value)
    && |order.lines| == |f.items| > 0 && f.quantities != []
    && (forall j :: 0 <= j < |f.items| ==>
          && order.lines[j].name == f.items[j]
          && numbers.parseInt(QuantityText(f, j)) == Some(order.lines[j].quantity)
          && 1 <= order.lines[j].quantity <= 1000)
    && Priced(order.lines, order.total, numbers.parseFloat(f.total).value)
  }

  // Reads the quantities in order, up to the first bad one.
  method ReadQuantities(f: Fields, numbers: Numbers) returns (quantities: seq<int>, error: Option<RowError>)
    requires f.quantities != []
    ensures error.Some? ==> FirstQuantityFault(f, numbers, |quantities|, error.value)
    ensures error.None? ==> |quantities| == |f.items|
    ensures |quantities| <= |f.items|
    ensures forall i :: 0 <= i < |quantities| ==>
      numbers.parseInt(QuantityText(f, i)) == Some(quantities[i]) && 1 <= quantities[i] <= 1000
  {
    quantities, error := [], None;
    for j := 0 to |f.items|
      invariant |quantities| == j && error.None?
      invariant forall i :: 0 <= i < j ==>
        numbers.parseInt(QuantityText(f, i)) == Some(quantities[i]) && 1 <= quantities[i] <= 1000
    {
      var q := numbers.parseInt(QuantityText(f, j));
      error := QuantityFault(q);
      if error.Some? {
        return;
      }
      quantities := quantities + [q.value];
    }
  }

  lemma {:induction false} TotalQuantityPositive(quantities: seq<int>)
    requires forall i :: 0 <= i < |quantities| ==> 1 <= quantities[i]
    ensures TotalQuantity(quantities) >= |quantities|
  {
    if quantities != [] {
      TotalQuantityPositive(quantities[..|quantities| - 1]);
    }
  }

  // Lines of one price add up to that price times the pieces.
  lemma {:induction false} AmountOfOnePrice(lines: seq<Line>, price: int)
    requires forall i :: 0 <= i < |lines| ==> lines[i].unitPrice == price
    ensures Amount(lines) == TotalQuantity(Pieces(lines)) * price
  {
    if lines != [] {
      var some, last := lines[..|lines| - 1], lines[|lines| - 1].quantity;
      AmountOfOnePrice(some, price);
      assert Pieces(lines)[..|lines| - 1] == Pieces(some);
      Distribute(TotalQuantity(Pieces(some)), last, price);
    }
  }

  lemma Distribute(m: int, n: int, price: int)
    ensures (m + n) * price == m * price + n * price
  {
  }

  lemma {:induction false} CastProduct(n: nat, k: int)
    ensures (n * k) as real == n as real * k as real
  {
    if n > 0 {
      CastProduct(n - 1, k);
      assert n * k == (n - 1) * k + k;
      assert n as real * k as real == (n - 1) as real * k as real + k as real;
    }
  }

  lemma AtLeastOnce(n: int, d: int)
    requires n >= 1
    ensures d >= 1 ==> n * d >= n
    ensures d <= -1 ==> n * d <= -n
  {
  }

  lemma Multiple(n: int, k: int, m: int)
    requires n >= 1 && n * k == m
    ensures m % n == 0
  {
    var q, r := m / n, m % n;
    assert n * (k - q) == r;
    AtLeastOnce(n, k - q);
  }

  lemma ShareTimesPieces(total: real, pieces: real)
    requires pieces > 0.0
    ensures pieces * (1000.0 * (total / pieces)) == 1000.0 * total
  {
    assert pieces * (total / pieces) == total;
  }

  lemma Scale(n: real, x: real, y: real)
    requires n > 0.0 && x <= y
    ensures n * x <= n * y
  {
  }

  // Half a step more, n times.
  lemma AddHalf(n: real, x: real)
    ensures n * (x + 0.5) == n * x + n / 2.0
  {
    assert n * 0.5 == n / 2.0;
    assert n * (x + 0.5) == n * x + n * 0.5;
  }

  // At most half a step more, n times; nx and ny are n times x and n times y.
  lemma UpToHalf(n: real, x: real, y: real, nx: real, ny: real)
    requires n > 0.0 && y <= x + 0.5 && nx == n * x && ny == n * y
    ensures ny <= nx + n / 2.0
  {
    Scale(n, y, x + 0.5);
    AddHalf(n, x);
  }

  lemma StrictlyBelow(n: real, off: real)
    requires n >= 1.0 && off < -0.5
    ensures n * off < -0.5
  {
    Scale(-off, 1.0, n);
  }

  // k a piece is the rounded share when n times k is the rounded total.
  lemma EvenShare(n: real, share: real, k: real)
    requires n >= 1.0 && n * share - 0.5 < n * k <= n * share + 0.5
    ensures share - 0.5 < k <= share + 0.5
  {
    var off := share - k;
    assert n * off == n * share - n * k;
    if off < -0.5 {
      StrictlyBelow(n, off);
    } else if off >= 0.5 {
      Scale(n, 0.5, off);
    }
  }

  // The rounded share, n times, is at most half a step a piece away from the whole.
  lemma CloseTo(n: real, share: real, price: real, whole: real, worth: real)
    requires n > 0.0 && share - 0.5 <= price <= share + 0.5 && whole == n * share && worth == n * price
    ensures -n <= 2.0 * (worth - whole) <= n
  {
    UpToHalf(n, share, price, whole, worth);
    UpToHalf(n, price, share, worth, whole);
  }

  lemma CloseShare(total: real, n: real, price: int)
    requires n > 0.0 && price == Thousandths(total / n)
    ensures -n <= 2.0 * (n * price as real - 1000.0 * total) <= n
  {
    ShareTimesPieces(total, n);
    CloseTo(n, 1000.0 * (total / n), price as real, 1000.0 * total, n * price as real);
  }

  lemma ShareBack(total: real, n: real, k: int)
    requires n >= 1.0 && Thousandths(total) as real == n * k as real
    ensures Thousandths(total / n) == k
  {
    var share := 1000.0 * (total / n);
    ShareTimesPieces(total, n);
    EvenShare(n, share, k as real);
  }

  // Rounding one piece's share: it gives the total back exactly when the total divides evenly.
  lemma SharesOfTotal(total: real, pieces: nat)
    requires pieces >= 1
    ensures var stored, price := Thousandths(total), Thousandths(total / pieces as real);
      && (pieces * price == stored <==> stored % pieces == 0)
      && -(pieces as real) <= 2.0 * ((pieces * price) as real - 1000.0 * total) <= pieces as real
  {
    var stored, price := Thousandths(total), Thousandths(total / pieces as real);
    CloseShare(total, pieces as real, price);
    CastProduct(pieces, price);
    if pieces * price == stored {
      Multiple(pieces, price, stored);
    }
    if stored % pieces == 0 {
      CastProduct(pieces, stored / pieces);
      assert pieces * (stored / pieces) == stored;
      ShareBack(total, pieces as real, stored / pieces);
    }
  }

  /** The stored unit prices: the share of one piece, with what they add up to. */
  method PriceLines(names: seq<string>, quantities: seq<int>, total: real) returns (lines: seq<Line>)
    requires |names| == |quantities| > 0 && forall i :: 0 <= i < |quantities| ==> 1 <= quantities[i]
    ensures |lines| == |names|
    ensures forall i :: 0 <= i < |lines| ==> lines[i].name == names[i] && lines[i].quantity == quantities[i]
    ensures Priced(lines, Thousandths(total), total)
  {
    TotalQuantityPositive(quantities);
    var totalQuantity := TotalQuantity(quantities);
    var unitPrice := Thousandths(total / totalQuantity as real);
    lines := seq(|names|, i requires 0 <= i < |names| == |quantities| => Line(names[i], quantities[i], unitPrice));
    assert Pieces(lines) == quantities;
    AmountOfOnePrice(lines, unitPrice);
    SharesOfTotal(total, totalQuantity);
  }

  /** Ten dinars for three pieces: 3.333 each, which is 9.999 together. */
  lemma TenForThree(lines: seq<Line>)
    requires Pieces(lines) == [3] && Priced(lines, Thousandths(10.0), 10.0)
    ensures lines[0].unitPrice == 3333 && Amount(lines) == 9999 && Thousandths(10.0) == 10000
  {
    assert TotalQuantity([3]) == 3 by {
      assert [3][..0] == [];
    }
    AmountOfOnePrice(lines, 3333);
  }

  // The same of a total in whole thousandths, and in whole numbers.
  lemma SharesOfThousandths(total: real, pieces: int, thousandths: int)
    requires pieces >= 1 && 1000.0 * total == thousandths as real
    ensures var price := Thousandths(total / pieces as real);
      && (pieces * price == thousandths <==> thousandths % pieces == 0)
      && -pieces <= 2 * (pieces * price - thousandths) <= pieces
  {
    var price := Thousandths(total / pieces as real);
    SharesOfTotal(total, pieces);
    WholeBound(pieces * price, thousandths, pieces);
  }

  lemma WholeBound(amount: int, thousandths: int, pieces: int)
    requires -(pieces as real) <= 2.0 * (amount as real - thousandths as real) <= pieces as real
    ensures -pieces <= 2 * (amount - thousandths) <= pieces
  {
  }

  /**
   * Lines at the rounded share of one piece of a total of whole thousandths: they add up to it exactly
   * when the pieces divide it, and are never further off than half a thousandth a piece.
   */
  lemma LinesAddUpIff(lines: seq<Line>, total: real, thousandths: int)
    requires 1000.0 * total == thousandths as real && TotalQuantity(Pieces(lines)) >= 1
    requires forall i :: 0 <= i < |lines| ==>
      lines[i].unitPrice == Thousandths(total / TotalQuantity(Pieces(lines)) as real)
    ensures Amount(lines) == thousandths <==> thousandths % TotalQuantity(Pieces(lines)) == 0
    ensures -TotalQuantity(Pieces(lines)) <= 2 * (Amount(lines) - thousandths) <= TotalQuantity(Pieces(lines))
  {
    var pieces := TotalQuantity(Pieces(lines));
    AmountOfOnePrice(lines, Thousandths(total / pieces as real));
    SharesOfThousandths(total, pieces, thousandths);
  }

  method CheckCustomer(f: Fields) returns (errors: seq<RowError>)
    ensures forall e, numbers :: e in errors <==>
      (e == CustomerEmpty || e == CustomerLong || e == PhoneEmpty || e == PhoneInvalid) && Fault(e, f, numbers)
  {
    errors := [];
    if f.customer == "" {
      errors := errors + [CustomerEmpty];
    } else if Text.Units(f.customer) > 100 {
      errors := errors + [CustomerLong];
    }
    if f.phone == "" {
      errors := errors + [PhoneEmpty];
    } else if !PhoneOk(f.phone) {
      errors := errors + [PhoneInvalid];
    }
  }

  predicate AboutItems(e: RowError) {
    e == ItemEmpty || e == ItemLong || e == QuantityNaN || e == QuantityLow || e == QuantityHigh
  }

  // At most one item has the first bad quantity.
  lemma OneQuantityFault(f: Fields, numbers: Numbers, i: nat, d: RowError, j: nat, e: RowError)
    requires FirstQuantityFault(f, numbers, i, d) && FirstQuantityFault(f, numbers, j, e)
    ensures i == j && d == e
  {
  }

  method CheckItems(f: Fields, numbers: Numbers) returns (quantities: seq<int>, errors: seq<RowError>)
    ensures forall e :: e in errors <==> AboutItems(e) && Fault(e, f, numbers)
    ensures errors == [] ==> |quantities| == |f.items| > 0 && f.quantities != []
    ensures errors == [] ==> forall i :: 0 <= i < |quantities| ==>
      numbers.parseInt(QuantityText(f, i)) == Some(quantities[i]) && 1 <= quantities[i] <= 1000
  {
    quantities := [];
    if f.items == [] {
      return [], [ItemEmpty];
    }
    errors := LongItems(f.items);
    if f.quantities == [] {
      errors := errors + [QuantityNaN];
      return;
    }
    var error;
    quantities, error := ReadQuantities(f, numbers);
    if error.Some? {
      errors := errors + [error.value];
      forall j: nat, e | FirstQuantityFault(f, numbers, j, e) ensures e == error.value {
        OneQuantityFault(f, numbers, j, e, |quantities|, error.value);
      }
      assert error.value.QuantityNaN? || error.value.QuantityLow? || error.value.QuantityHigh?;
    }
  }

  method LongItems(items: seq<string>) returns (errors: seq<RowError>)
    ensures errors == if exists j :: 0 <= j < |items| && Text.Units(items[j]) > 200 then [ItemLong] else []
  {
    for j := 0 to |items|
      invariant forall i :: 0 <= i < j ==> Text.Units(items[i]) <= 200
    {
      if Text.Units(items[j]) > 200 {
        return [ItemLong];
      }
    }
    errors := [];
  }

  method CheckTotal(f: Fields, numbers: Numbers) returns (errors: seq<RowError>)
    ensures forall e :: e in errors <==>
      (e == TotalNaN || e == TotalNegative || e == TotalHigh) && Fault(e, f, numbers)
  {
    var total := numbers.parseFloat(f.total);
    if f.total == "" || total.None? {
      errors := [TotalNaN];
    } else if total.value < 0.0 {
      errors := [TotalNegative];
    } else if total.value > 1000000.0 {
      errors := [TotalHigh];
    } else {
      errors := [];
    }
  }

  /** A row becomes the order it describes, or exactly the complaints that apply to it. */
  method CheckRow(f: Fields, numbers: Numbers) returns (order: Option<Order>, errors: seq<RowError>)
    ensures forall e :: e in errors <==> Fault(e, f, numbers)
    ensures order.Some? <==> RowOk(f, numbers)
    ensures order.Some? ==> Describes(f, numbers, order.value)
  {
    var customer := CheckCustomer(f);
    var quantities, items := CheckItems(f, numbers);
    var total := CheckTotal(f, numbers);
    errors := customer + items + total;
    if errors != [] {
      assert errors[0] in errors;
      return None, errors;
    }
    assert !Fault(TotalNaN, f, numbers);
    var amount := numbers.parseFloat(f.total).value;
    var lines := PriceLines(f.items, quantities, amount);
    order := Some(Order(f.customer, f.phone, lines, Thousandths(amount)));
  }

  // ---------------------------------------------------------------- the whole file

  datatype Failure = Failure(row: nat, errors: seq<RowError>)

  datatype Import =
    | TooFewLines
    | MissingColumns(missing: seq<Column>)
    | TooManyRows
    | InsertFailed
    | Imported(orders: seq<Order>, failed: nat, reported: seq<Failure>)

  // The rows that become orders, and the numbers of those that do not, counting the header as row 1.
  ghost function GoodRows(headers: seq<string>, rows: seq<string>, numbers: Numbers): seq<Fields> {
    if rows == [] then []
    else
      var f := FieldsOf(headers, rows[|rows| - 1]);
      GoodRows(headers, rows[..|rows| - 1], numbers) + if RowOk(f, numbers) then [f] else []
  }

  ghost function BadRows(headers: seq<string>, rows: seq<string>, numbers: Numbers): seq<nat> {
    if rows == [] then []
    else
      var f := FieldsOf(headers, rows[|rows| - 1]);
      BadRows(headers, rows[..|rows| - 1], numbers) + if RowOk(f, numbers) then [] else [|rows| + 1]
  }

  ghost predicate IsBad(headers: seq<string>, rows: seq<string>, numbers: Numbers, n: int) {
    2 <= n < |rows| + 2 && !RowOk(FieldsOf(headers, rows[n - 2]), numbers)
  }

  lemma {:induction false} BadRowNumbers(headers: seq<string>, rows: seq<string>, numbers: Numbers)
    ensures forall n: nat :: n in BadRows(headers, rows, numbers) <==> IsBad(headers, rows, numbers, n)
  {
    if rows != [] {
      BadRowNumbers(headers, rows[..|rows| - 1], numbers);
    }
  }

  predicate Increasing(numbers: seq<nat>) {
    forall k, l :: 0 <= k < l < |numbers| ==> numbers[k] < numbers[l]
  }

  lemma IncreasingAppends(numbers: seq<nat>, next: nat)
    requires Increasing(numbers) && forall n :: n in numbers ==> n < next
    ensures Increasing(numbers + [next])
  {
    assert forall k :: 0 <= k < |numbers| ==> numbers[k] in numbers;
  }

  lemma {:induction false} BadRowsIncrease(headers: seq<string>, rows: seq<string>, numbers: Numbers)
    ensures Increasing(BadRows(headers, rows, numbers))
  {
    if rows != [] {
      var some := rows[..|rows| - 1];
      BadRowsIncrease(headers, some, numbers);
      BadRowNumbers(headers, some, numbers);
      IncreasingAppends(BadRows(headers, some, numbers), |rows| + 1);
    }
  }

  lemma {:induction false} EveryRowCounts(headers: seq<string>, rows: seq<string>, numbers: Numbers)
    ensures |GoodRows(headers, rows, numbers)| + |BadRows(headers, rows, numbers)| == |rows|
  {
    if rows != [] {
      EveryRowCounts(headers, rows[..|rows| - 1], numbers);
    }
  }

  /** Every data row is counted once: as an order, or as a failure under its own row number. */
  lemma RowsAreConserved(headers: seq<string>, rows: seq<string>, numbers: Numbers)
    ensures |GoodRows(headers, rows, numbers)| + |BadRows(headers, rows, numbers)| == |rows|
    ensures var bad := BadRows(headers, rows, numbers);
      && Increasing(bad)
      && forall n: nat :: n in bad <==> IsBad(headers, rows, numbers, n)
  {
    EveryRowCounts(headers, rows, numbers);
    BadRowNumbers(headers, rows, numbers);
    BadRowsIncrease(headers, rows, numbers);
  }

  // The failure lists the complaints of its row.
  ghost predicate Explains(failure: Failure, headers: seq<string>, rows: seq<string>, numbers: Numbers) {
    && 2 <= failure.row < |rows| + 2
    && forall e :: e in failure.errors <==> Fault(e, FieldsOf(headers, rows[failure.row - 2]), numbers)
  }

  // The columns' positions, all five of them.
  predicate Located(headers: seq<string>, columns: map<Column, nat>) {
    forall c: Column :: c in columns && IndexOf(headers, c) == Some(columns[c])
  }

  method ReadFields(headers: seq<string>, columns: map<Column, nat>, line: string) returns (f: Fields)
    requires Located(headers, columns)
    ensures f == FieldsOf(headers, line)
  {
    var cells := ParseCsvLine(line);
    var customer, phone := CellAt(cells, columns[Customer]), CellAt(cells, columns[Phone]);
    var items, quantities := CellAt(cells, columns[Item]), CellAt(cells, columns[Quantity]);
    var total := CellAt(cells, columns[Total]);
    f := Fields(customer, phone, Trimmed(Text.Split(items, ';')), Trimmed(Text.Split(quantities, ';')), total);
  }

  ghost predicate AllDescribed(good: seq<Fields>, numbers: Numbers, orders: seq<Order>) {
    |orders| == |good| && forall i :: 0 <= i < |good| ==> Describes(good[i], numbers, orders[i])
  }

  ghost predicate AllNumbered(bad: seq<nat>, failures: seq<Failure>) {
    |failures| == |bad| && forall i :: 0 <= i < |bad| ==> failures[i].row == bad[i]
  }

  lemma DescribeOne(good: seq<Fields>, numbers: Numbers, orders: seq<Order>, f: Fields, order: Order)
    requires AllDescribed(good, numbers, orders) && Describes(f, numbers, order)
    ensures AllDescribed(good + [f], numbers, orders + [order])
  {
  }

  lemma NumberOne(bad: seq<nat>, failures: seq<Failure>, failure: Failure)
    requires AllNumbered(bad, failures)
    ensures AllNumbered(bad + [failure.row], failures + [failure])
  {
  }

  // One more row adds one good row or one bad row number.
  lemma NextRow(headers: seq<string>, rows: seq<string>, numbers: Numbers, i: nat, f: Fields)
    requires i < |rows| && f == FieldsOf(headers, rows[i])
    ensures GoodRows(headers, rows[..i + 1], numbers) ==
      GoodRows(headers, rows[..i], numbers) + if RowOk(f, numbers) then [f] else []
    ensures BadRows(headers, rows[..i + 1], numbers) ==
      BadRows(headers, rows[..i], numbers) + if RowOk(f, numbers) then [] else [i + 2]
  {
    assert rows[..i + 1][..i] == rows[..i];
  }

  // One data row: an order, or what is wrong with it.
  method ReadRow(headers: seq<string>, columns: map<Column, nat>, rows: seq<string>, i: nat, numbers: Numbers)
    returns (ghost f: Fields, order: Option<Order>, failure: Failure)
    requires Located(headers, columns) && i < |rows|
    ensures f == FieldsOf(headers, rows[i])
    ensures order.Some? <==> RowOk(f, numbers)
    ensures order.Some? ==> Describes(f, numbers, order.value)
    ensures failure.row == i + 2 && Explains(failure, headers, rows, numbers)
  {
    var fields := ReadFields(headers, columns, rows[i]);
    f := fields;
    var errors;
    order, errors := CheckRow(fields, numbers);
    failure := Failure(i + 2, errors);
  }

  // Rows up to i are read: an order for each good one, a failure for each bad one.
  ghost predicate ReadUpTo(headers: seq<string>, rows: seq<string>, numbers: Numbers, i: nat,
                           orders: seq<Order>, failures: seq<Failure>)
    requires i <= |rows|
  {
    && AllDescribed(GoodRows(headers, rows[..i], numbers), numbers, orders)
    && AllNumbered(BadRows(headers, rows[..i], numbers), failures)
    && forall failure :: failure in failures ==> Explains(failure, headers, rows, numbers)
  }

  lemma OneMoreOrder(headers: seq<string>, rows: seq<string>, numbers: Numbers, i: nat,
                     orders: seq<Order>, failures: seq<Failure>, order: Order)
    requires i < |rows| && ReadUpTo(headers, rows, numbers, i, orders, failures)
    requires var f := FieldsOf(headers, rows[i]); RowOk(f, numbers) && Describes(f, numbers, order)
    ensures ReadUpTo(headers, rows, numbers, i + 1, orders + [order], failures)
  {
    var f := FieldsOf(headers, rows[i]);
    NextRow(headers, rows, numbers, i, f);
    DescribeOne(GoodRows(headers, rows[..i], numbers), numbers, orders, f, order);
  }

  lemma OneMoreFailure(headers: seq<string>, rows: seq<string>, numbers: Numbers, i: nat,
                       orders: seq<Order>, failures: seq<Failure>, failure: Failure)
    requires i < |rows| && ReadUpTo(headers, rows, numbers, i, orders, failures)
    requires !RowOk(FieldsOf(headers, rows[i]), numbers)
    requires failure.row == i + 2 && Explains(failure, headers, rows, numbers)
    ensures ReadUpTo(headers, rows, numbers, i + 1, orders, failures + [failure])
  {
    NextRow(headers, rows, numbers, i, FieldsOf(headers, rows[i]));
    NumberOne(BadRows(headers, rows[..i], numbers), failures, failure);
  }

  method ReadRows(headers: seq<string>, columns: map<Column, nat>, rows: seq<string>, numbers: Numbers)
    returns (orders: seq<Order>, failures: seq<Failure>)
    requires Located(headers, columns)
    ensures ReadUpTo(headers, rows, numbers, |rows|, orders, failures)
  {
    orders, failures := [], [];
    for i := 0 to |rows|
      invariant ReadUpTo(headers, rows, numbers, i, orders, failures)
    {
      ghost var f;
      var order, failure;
      f, order, failure := ReadRow(headers, columns, rows, i, numbers);
      if order.None? {
        OneMoreFailure(headers, rows, numbers, i, orders, failures, failure);
        failures := failures + [failure];
      } else {
        OneMoreOrder(headers, rows, numbers, i, orders, failures, order.value);
        orders := orders + [order.value];
      }
    }
  }

  // A text column takes every character but the null one.
  predicate TextOk(s: string) { '\0' !in s }

  // The columns take the row: its texts hold no null character and its items' names fit.
  predicate Storable(f: Fields) {
    && TextOk(f.customer)
    && forall j :: 0 <= j < |f.items| ==> TextOk(f.items[j]) && |f.items[j]| <= 150
  }

  // One piece of one item for ten dinars.
  function OnePiece(customer: string, item: string): Fields {
    Fields(customer, "12345678", [item], ["1"], "10")
  }

  predicate ReadsOnePiece(numbers: Numbers) {
    numbers.parseInt("1") == Some(1) && numbers.parseFloat("10") == Some(10.0)
  }

  lemma SamplePhone()
    ensures PhoneOk("12345678") && "12345678" != ""
  {
    var d := "12345678";
    assert |d| == 8 && Digit(d[0]) && d[0] != '+';
    assert Digit(d[1]) && Digit(d[2]) && Digit(d[3]) && Digit(d[4]) && Digit(d[5]) && Digit(d[6]) && Digit(d[7]);
  }

  lemma OneQuantity(f: Fields, numbers: Numbers, e: RowError)
    requires |f.items| == 1 && f.quantities == ["1"] && numbers.parseInt("1") == Some(1)
    ensures forall j: nat :: !FirstQuantityFault(f, numbers, j, e)
  {
    forall j: nat ensures !FirstQuantityFault(f, numbers, j, e) {
      if j == 0 { assert QuantityText(f, 0) == "1"; }
    }
  }

  lemma OnePieceIsOk(customer: string, item: string, numbers: Numbers)
    requires ReadsOnePiece(numbers) && customer != "" && Text.Units(customer) <= 100 && Text.Units(item) <= 200
    ensures RowOk(OnePiece(customer, item), numbers)
  {
    var f := OnePiece(customer, item);
    SamplePhone();
    assert f.total != "" by { assert |f.total| == 2; }
    forall e ensures !Fault(e, f, numbers) {
      OneQuantity(f, numbers, e);
    }
  }

  /** Rows that pass every check and that the columns do not take: any name of more than 150 characters ... */
  lemma LongNameIsNotStored(numbers: Numbers, item: string)
    requires ReadsOnePiece(numbers) && 150 < |item| && Text.Units(item) <= 200
    ensures RowOk(OnePiece("A", item), numbers) && !Storable(OnePiece("A", item))
  {
    assert |"A"| == 1;
    OnePieceIsOk("A", item, numbers);
    assert OnePiece("A", item).items[0] == item;
  }

  lemma {:induction false} PlainUnits(n: nat)
    ensures Text.Units(seq(n, _ => 'a')) == n
  {
    if n > 0 {
      PlainUnits(n - 1);
      assert seq(n, _ => 'a')[..n - 1] == seq(n - 1, _ => 'a');
    }
  }

  /** ... for one, 151 times the same letter ... */
  lemma LongNameExists(numbers: Numbers) returns (item: string)
    requires ReadsOnePiece(numbers)
    ensures |item| == 151 && RowOk(OnePiece("A", item), numbers) && !Storable(OnePiece("A", item))
  {
    item := seq(151, _ => 'a');
    PlainUnits(151);
    LongNameIsNotStored(numbers, item);
  }

  /** ... and a null character, in a customer's name or an item's. */
  lemma NullIsNotStored(numbers: Numbers, customer: string, item: string)
    requires ReadsOnePiece(numbers) && customer != "" && Text.Units(customer) <= 100 && Text.Units(item) <= 200
    requires '\0' in customer || '\0' in item
    ensures RowOk(OnePiece(customer, item), numbers) && !Storable(OnePiece(customer, item))
  {
    OnePieceIsOk(customer, item, numbers);
    assert OnePiece(customer, item).items[0] == item;
  }

  // What an import of these rows answers: the insert is one transaction, so one row its columns
  // do not take stores nothing at all.
  ghost predicate Answers(headers: seq<string>, rows: seq<string>, numbers: Numbers, r: Import) {
    var good, bad := GoodRows(headers, rows, numbers), BadRows(headers, rows, numbers);
    if exists i :: 0 <= i < |good| && !Storable(good[i]) then r == InsertFailed
    else
      && r.Imported? && AllDescribed(good, numbers, r.orders)
      && r.failed == |bad| && |r.reported| == Min(50, r.failed)
      && AllNumbered(bad[..|r.reported|], r.reported)
      && forall failure :: failure in r.reported ==> Explains(failure, headers, rows, numbers)
  }

  method AllStorable(ghost good: seq<Fields>, numbers: Numbers, orders: seq<Order>) returns (ok: bool)
    requires AllDescribed(good, numbers, orders)
    ensures ok <==> forall i :: 0 <= i < |good| ==> Storable(good[i])
  {
    for i := 0 to |orders|
      invariant forall k :: 0 <= k < i ==> Storable(good[k])
    {
      assert Describes(good[i], numbers, orders[i]);
      var fits := NamesFit(orders[i].lines, good[i].items);
      if !fits || !TextOk(orders[i].customer) {
        return false;
      }
    }
    ok := true;
  }

  method NamesFit(lines: seq<Line>, ghost items: seq<string>) returns (ok: bool)
    requires |lines| == |items| && forall j :: 0 <= j < |items| ==> lines[j].name == items[j]
    ensures ok <==> forall j :: 0 <= j < |items| ==> TextOk(items[j]) && |items[j]| <= 150
  {
    for j := 0 to |lines|
      invariant forall k :: 0 <= k < j ==> TextOk(items[k]) && |items[k]| <= 150
    {
      if |lines[j].name| > NAME_WIDTH || !TextOk(lines[j].name) {
        return false;
      }
    }
    ok := true;
  }

  method InsertAndReport(headers: seq<string>, rows: seq<string>, numbers: Numbers,
                         orders: seq<Order>, failures: seq<Failure>) returns (r: Import)
    requires ReadUpTo(headers, rows, numbers, |rows|, orders, failures)
    ensures Answers(headers, rows, numbers, r)
  {
    assert rows[..|rows|] == rows;
    var stored := AllStorable(GoodRows(headers, rows, numbers), numbers, orders);
    if !stored {
      return InsertFailed;
    }
    r := Imported(orders, |failures|, failures[..Min(MAX_REPORTED, |failures|)]);
  }

  ghost predicate Lacks(headers: seq<string>) {
    exists c :: IndexOf(headers, c).None?
  }

  /**
   * The import of a file: refused as a whole, or every row stored or reported (the first fifty of
   * those), or nothing stored because the columns do not take one of the rows.
   */
  method ImportCsv(text: string, numbers: Numbers) returns (r: Import)
    ensures var lines := Csv.NonBlank(Csv.Lines(text));
      if |lines| < 2 then r == TooFewLines
      else
        var headers, rows := Csv.Cells(lines[0]), lines[1..];
        if Lacks(headers) then
          r.MissingColumns? && forall c :: c in r.missing <==> IndexOf(headers, c).None?
        else if |rows| > 5000 then r == TooManyRows
        else Answers(headers, rows, numbers, r)
  {
    var lines := Csv.NonBlank(Csv.Lines(text));
    if |lines| < 2 {
      return TooFewLines;
    }
    var headers := ParseCsvLine(lines[0]);
    var columns, missing := MapColumns(headers);
    if missing != [] {
      assert missing[0] in missing && IndexOf(headers, missing[0]).None?;
      return MissingColumns(missing);
    }
    assert forall c :: c !in missing;
    if |lines| - 1 > MAX_IMPORT_ROWS {
      return TooManyRows;
    }
    var orders, failures := ReadRows(headers, columns, lines[1..], numbers);
    r := InsertAndReport(headers, lines[1..], numbers, orders, failures);
  }
}
