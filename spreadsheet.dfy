/** The workbook as the spreadsheet library hands it to the handler, opened
    with computed values: an ordered list of named sheets, each a worksheet of
    rows of cells or a chartsheet, which has no rows. */
module Spreadsheet {
  import opened Wrappers
  import opened PyText
  import InsertionDict

  /** A non-empty cell value. `Formatted` stands for the kinds whose Python
      rendering is not modelled (floats, dates, times, durations) and carries
      the text `str()` produces for it. */
  datatype CellValue =
    | Text(s: string)
    | Integer(i: int)
    | Boolean(b: bool)
    | Formatted(shown: string)

  /** `cell.value`: `None` for an empty cell. */
  type Cell = Option<CellValue>

  type Row = seq<Cell>

  datatype Sheet = Worksheet(rows: seq<Row>) | Chartsheet

  /** The sheets in storage order, each with its name; sheet names are
      unique within a workbook. */
  type Workbook = sheets: seq<(string, Sheet)> | InsertionDict.DistinctKeys(sheets) witness []

  /** `workbook.sheetnames`: the keys of the name-to-sheet list, in order. */
  function SheetNames(sheets: seq<(string, Sheet)>): seq<string> {
    InsertionDict.Keys(sheets)
  }

  /** `workbook[name]`: the first sheet with that title, `None` where the
      library would raise `KeyError`. */
  function Lookup(sheets: seq<(string, Sheet)>, name: string): (r: Option<Sheet>)
    ensures r.Some? <==> name in SheetNames(sheets)
  {
    InsertionDict.Get(sheets, name)
  }

  /** The text of one cell: `""` for `None`, otherwise `str(cell.value)`. */
  function CellText(cell: Cell): string {
    match cell
    case None => ""
    case Some(Text(s)) => s
    case Some(Integer(i)) => IntToString(i)
    case Some(Boolean(b)) => BoolToString(b)
    case Some(Formatted(shown)) => shown
  }

  /** One row of the output: the text of each cell, in column order. */
  function RowText(row: Row): seq<string> {
    seq(|row|, k requires 0 <= k < |row| => CellText(row[k]))
  }

  /** The output rows of a worksheet: one per row of the sheet, in order. */
  function SheetText(rows: seq<Row>): seq<seq<string>> {
    seq(|rows|, j requires 0 <= j < |rows| => RowText(rows[j]))
  }

  /** Looking a sheet up by the name listed for it finds that very sheet,
      because names are unique. */
  lemma {:induction false} LookupByName(sheets: seq<(string, Sheet)>, i: int)
    requires InsertionDict.DistinctKeys(sheets)
    requires 0 <= i < |sheets|
    ensures Lookup(sheets, sheets[i].0) == Some(sheets[i].1)
    decreases i
  {
    if i > 0 {
      assert sheets[0].0 != sheets[i].0;
      var rest := sheets[1..];
      assert InsertionDict.DistinctKeys(rest) by {
        forall a, b | 0 <= a < b < |rest| ensures rest[a].0 != rest[b].0 {
          assert rest[a] == sheets[a + 1] && rest[b] == sheets[b + 1];
        }
      }
      assert rest[i - 1] == sheets[i];
      LookupByName(rest, i - 1);
    }
  }

  /** A cell's text is empty exactly when the cell is empty or holds a value
      whose string form is empty: the output does not tell these apart. */
  lemma CellTextEmpty(cell: Cell)
    ensures CellText(cell) == "" <==>
      cell == None || cell == Some(Text("")) || cell == Some(Formatted(""))
  {
    match cell
    case Some(Integer(i)) => assert |IntToString(i)| >= 1;
    case Some(Boolean(b)) => assert |BoolToString(b)| >= 4;
    case _ =>
  }

  /** An integer cell is written as its decimal string, never as a number, and
      the integer can be read back from it. */
  lemma IntegerCellText(i: int)
    ensures IsIntLiteral(CellText(Some(Integer(i))))
    ensures ParseInt(CellText(Some(Integer(i)))) == i
  {
    IntRoundTrip(i);
  }

  lemma FortyTwoCellText()
    ensures CellText(Some(Integer(42))) == "42"
    ensures CellText(None) == ""
  {
    assert NatToString(4) == "4";
    assert NatToString(42) == NatToString(4) + ['2'];
  }
}
