/**
 * `exportToCSV`: a header row of bare column names, then one row per
 * expense whose four cells are each wrapped in double quotes (and never
 * escaped), rows joined by a newline.
 *
 * The reader `ParseCsv` is the partner of the writer: it splits lines and
 * cells the plain way and unwraps the quotes, and reads back every field the
 * export writes as long as no date or description holds a comma or a
 * newline.
 */
module CsvExport {
  import opened Optional
  import opened Text
  import opened ExpenseModel

  /** The column names, `['Date', 'Category', 'Description', 'Amount']`. */
  const HeaderCells: seq<string> := ["Date", "Category", "Description", "Amount"]

  /** `headers.join(',')`: the header line, not quoted. */
  function HeaderLine(): (line: string)
    ensures line == "Date,Category,Description,Amount"
  {
    HeaderText();
    Join(HeaderCells, ',')
  }

  lemma HeaderText()
    ensures Join(HeaderCells, ',') == "Date,Category,Description,Amount"
  {
    JoinFour(HeaderCells, ',');
    assert "Date" + [','] == "Date,";
    assert "Date," + "Category" == "Date,Category";
    assert "Date,Category" + [','] == "Date,Category,";
    assert "Date,Category," + "Description" == "Date,Category,Description";
    assert "Date,Category,Description" + [','] == "Date,Category,Description,";
    assert "Date,Category,Description," + "Amount" == "Date,Category,Description,Amount";
  }

  // ---------------------------------------------------------------------------
  // Amounts: toFixed(2)
  // ---------------------------------------------------------------------------

  /** `amount.toFixed(2)` for an amount held in cents: sign, whole units, a point, two digits. */
  function AmountText(cents: int): string
  {
    var m: nat := if cents < 0 then -cents else cents;
    (if cents < 0 then "-" else "") + NatToDec(m / 100) + "." + [DigitChar(m % 100 / 10), DigitChar(m % 10)]
  }

  /** Reads `digits.dd` back as cents. */
  function ParseUnsignedAmount(s: string): Option<nat>
  {
    if |s| >= 4 && s[|s| - 3] == '.' && AllDigits(s[..|s| - 3]) && AllDigits(s[|s| - 2..])
    then Some(DecValue(s[..|s| - 3]) * 100 + DecValue(s[|s| - 2..]))
    else None
  }

  /** Reads an optional minus sign and `digits.dd` back as cents. */
  function ParseAmount(s: string): Option<int>
  {
    if |s| > 0 && s[0] == '-' then
      match ParseUnsignedAmount(s[1..])
      case Some(n) => Some(-(n as int))
      case None => None
    else
      match ParseUnsignedAmount(s)
      case Some(n) => Some(n)
      case None => None
  }

  /** `m` is its hundreds, tens and units put back together. */
  lemma DecimalPlaces(m: nat)
    ensures m / 100 * 100 + m % 100 / 10 * 10 + m % 10 == m
  {
    var r := m % 100;
    assert m == m / 100 * 100 + r;
    assert m % 10 == r % 10 by {
      assert m == (m / 100 * 10) * 10 + r;
    }
    assert r == r / 10 * 10 + r % 10;
  }

  /** Two digits read back as their two-digit number. */
  lemma TwoDigits(hi: nat, lo: nat)
    requires hi < 10 && lo < 10
    ensures DecValue([DigitChar(hi), DigitChar(lo)]) == hi * 10 + lo
  {
    var frac := [DigitChar(hi), DigitChar(lo)];
    assert frac[..1] == [DigitChar(hi)];
    assert [DigitChar(hi)][..0] == [];
    assert DigitValue(DigitChar(hi)) == hi && DigitValue(DigitChar(lo)) == lo;
    assert DecValue([DigitChar(hi)]) == hi;
    assert DecValue(frac) == DecValue(frac[..1]) * 10 + lo;
  }

  /** The unsigned text `q.hl` reads back as `q` hundreds, `h` tens and `l` units of cents. */
  lemma UnsignedAmountRoundTrip(q: nat, hi: nat, lo: nat)
    requires hi < 10 && lo < 10
    ensures ParseUnsignedAmount(NatToDec(q) + "." + [DigitChar(hi), DigitChar(lo)]) == Some(q * 100 + hi * 10 + lo)
  {
    var whole := NatToDec(q);
    var frac := [DigitChar(hi), DigitChar(lo)];
    var s := whole + "." + frac;
    assert s[..|s| - 3] == whole;
    assert s[|s| - 3] == '.';
    assert s[|s| - 2..] == frac;
    DecValueOfNatToDec(q);
    TwoDigits(hi, lo);
  }

  /** The two-decimal text of an amount reads back as the same amount. */
  lemma AmountRoundTrip(cents: int)
    ensures ParseAmount(AmountText(cents)) == Some(cents)
  {
    var m: nat := if cents < 0 then -cents else cents;
    var u := NatToDec(m / 100) + "." + [DigitChar(m % 100 / 10), DigitChar(m % 10)];
    UnsignedAmountRoundTrip(m / 100, m % 100 / 10, m % 10);
    DecimalPlaces(m);
    if cents < 0 {
      assert AmountText(cents) == "-" + u;
      assert ("-" + u)[1..] == u;
    } else {
      assert AmountText(cents) == u;
      assert IsDigit(u[0]);
    }
  }

  /** An amount's text holds only digits, a point and perhaps a minus sign. */
  lemma AmountTextCharacters(cents: int)
    ensures forall i :: 0 <= i < |AmountText(cents)| ==>
      IsDigit(AmountText(cents)[i]) || AmountText(cents)[i] == '.' || AmountText(cents)[i] == '-'
  {
  }

  // ---------------------------------------------------------------------------
  // Rows
  // ---------------------------------------------------------------------------

  /** `"${cell}"`: the cell wrapped in double quotes, nothing inside escaped. */
  function Quote(cell: string): string
  {
    "\"" + cell + "\""
  }

  function QuoteAll(cells: seq<string>): (quoted: seq<string>)
    ensures |quoted| == |cells|
    ensures forall i :: 0 <= i < |cells| ==> quoted[i] == Quote(cells[i])
  {
    if cells == [] then [] else [Quote(cells[0])] + QuoteAll(cells[1..])
  }

  /** The four cells of an expense: date, category, description, amount. */
  function Cells(e: Expense): seq<string>
  {
    [e.date, CategoryName(e.category), e.description, AmountText(e.amount)]
  }

  /** `row.map((cell) => `"${cell}"`).join(',')`. */
  function Row(e: Expense): string
  {
    Join(QuoteAll(Cells(e)), ',')
  }

  function Rows(expenses: seq<Expense>): (rows: seq<string>)
    ensures |rows| == |expenses|
    ensures forall i :: 0 <= i < |expenses| ==> rows[i] == Row(expenses[i])
  {
    if expenses == [] then [] else [Row(expenses[0])] + Rows(expenses[1..])
  }

  /** `exportToCSV(expenses)`: the header line, then the rows, joined by newlines. */
  function ExportToCsv(expenses: seq<Expense>): string
  {
    Join([HeaderLine()] + Rows(expenses), '\n')
  }

  /** A row is the four quoted cells separated by commas, in the order date, category, description, amount. */
  lemma RowLayout(e: Expense)
    ensures Row(e) == Quote(e.date) + [','] + Quote(CategoryName(e.category)) + [',']
                      + Quote(e.description) + [','] + Quote(AmountText(e.amount))
  {
    JoinFour(QuoteAll(Cells(e)), ',');
  }

  // ---------------------------------------------------------------------------
  // Lines
  // ---------------------------------------------------------------------------

  /** A date or description is safe to read back when it holds no comma and no newline. */
  predicate PlainText(s: string)
  {
    ',' !in s && '\n' !in s
  }

  predicate AllPlain(expenses: seq<Expense>)
  {
    forall i :: 0 <= i < |expenses| ==> PlainText(expenses[i].date) && PlainText(expenses[i].description)
  }

  lemma CategoryNamePlain(c: Category)
    ensures PlainText(CategoryName(c))
  {
  }

  lemma HeaderHasNoNewline()
    ensures '\n' !in HeaderLine()
  {
    forall i | 0 <= i < |HeaderCells| ensures '\n' !in HeaderCells[i] {
    }
    JoinFree(HeaderCells, ',', '\n');
  }

  /** A row has no newline unless the date or description brings one. */
  lemma RowHasNoNewline(e: Expense)
    requires '\n' !in e.date && '\n' !in e.description
    ensures '\n' !in Row(e)
  {
    AmountTextCharacters(e.amount);
    CategoryNamePlain(e.category);
    var q := QuoteAll(Cells(e));
    assert '\n' !in q[0] && '\n' !in q[1] && '\n' !in q[2] && '\n' !in q[3];
    JoinFree(q, ',', '\n');
  }

  /**
   * The export has one line more than there are expenses: line 0 is the
   * bare header, line i + 1 is the row of expense i.
   */
  lemma {:induction false} ExportLines(expenses: seq<Expense>)
    requires forall i :: 0 <= i < |expenses| ==> '\n' !in expenses[i].date && '\n' !in expenses[i].description
    ensures var lines := Split(ExportToCsv(expenses), '\n');
      |lines| == |expenses| + 1
      && lines[0] == "Date,Category,Description,Amount"
      && forall i :: 0 <= i < |expenses| ==> lines[i + 1] == Row(expenses[i])
  {
    var parts := [HeaderLine()] + Rows(expenses);
    forall i | 0 <= i < |parts| ensures '\n' !in parts[i] {
      if i > 0 {
        assert parts[i] == Row(expenses[i - 1]);
        RowHasNoNewline(expenses[i - 1]);
      } else {
        HeaderHasNoNewline();
      }
    }
    SplitJoin(parts, '\n');
  }

  // ---------------------------------------------------------------------------
  // Reading the export back
  // ---------------------------------------------------------------------------

  /** The fields a row carries. */
  datatype CsvRecord = CsvRecord(date: string, category: Category, description: string, amount: int)

  function RecordOf(e: Expense): CsvRecord
  {
    CsvRecord(e.date, e.category, e.description, e.amount)
  }

  function Records(expenses: seq<Expense>): (records: seq<CsvRecord>)
    ensures |records| == |expenses|
    ensures forall i :: 0 <= i < |expenses| ==> records[i] == RecordOf(expenses[i])
  {
    if expenses == [] then [] else [RecordOf(expenses[0])] + Records(expenses[1..])
  }

  /** The inside of a quoted cell. */
  function Unquote(cell: string): Option<string>
  {
    if |cell| >= 2 && cell[0] == '"' && cell[|cell| - 1] == '"' then Some(cell[1..|cell| - 1]) else None
  }

  /** A row split at its commas into four quoted cells. */
  function ParseRow(line: string): Option<CsvRecord>
  {
    var cells := Split(line, ',');
    if |cells| != 4 then None
    else
      match (Unquote(cells[0]), Unquote(cells[1]), Unquote(cells[2]), Unquote(cells[3]))
      case (Some(date), Some(name), Some(description), Some(amount)) =>
        (match (CategoryFromName(name), ParseAmount(amount))
         case (Some(c), Some(cents)) => Some(CsvRecord(date, c, description, cents))
         case _ => None)
      case _ => None
  }

  function ParseRows(lines: seq<string>): Option<seq<CsvRecord>>
  {
    if lines == [] then Some([])
    else
      match (ParseRow(lines[0]), ParseRows(lines[1..]))
      case (Some(r), Some(rs)) => Some([r] + rs)
      case _ => None
  }

  /** The whole text: the header line, then rows. */
  function ParseCsv(text: string): Option<seq<CsvRecord>>
  {
    var lines := Split(text, '\n');
    if lines[0] != "Date,Category,Description,Amount" then None else ParseRows(lines[1..])
  }

  /** Each row reads back as the fields of its expense. */
  lemma RowRoundTrip(e: Expense)
    requires PlainText(e.date) && PlainText(e.description)
    ensures ParseRow(Row(e)) == Some(RecordOf(e))
  {
    AmountTextCharacters(e.amount);
    CategoryNamePlain(e.category);
    var q := QuoteAll(Cells(e));
    assert ',' !in q[0] && ',' !in q[1] && ',' !in q[2] && ',' !in q[3];
    SplitJoin(q, ',');
    CategoryNameRoundTrip(e.category);
    AmountRoundTrip(e.amount);
  }

  lemma {:induction false} RowsRoundTrip(expenses: seq<Expense>)
    requires AllPlain(expenses)
    ensures ParseRows(Rows(expenses)) == Some(Records(expenses))
  {
    if expenses != [] {
      RowRoundTrip(expenses[0]);
      RowsRoundTrip(expenses[1..]);
      assert Rows(expenses)[1..] == Rows(expenses[1..]);
    }
  }

  /**
   * The export reads back as the date, category, description and amount of
   * every expense, in order, when no date or description holds a comma or a
   * newline (the cells are quoted but nothing inside them is escaped).
   */
  lemma ExportRoundTrip(expenses: seq<Expense>)
    requires AllPlain(expenses)
    ensures ParseCsv(ExportToCsv(expenses)) == Some(Records(expenses))
  {
    ExportLines(expenses);
    var lines := Split(ExportToCsv(expenses), '\n');
    assert lines[1..] == Rows(expenses);
    RowsRoundTrip(expenses);
  }
}
