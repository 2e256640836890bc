/** Turning an opened workbook into the result mapping: sheet name to the text
    of its rows, for every sheet in storage order. */
module Extraction {
  import opened Wrappers
  import opened Spreadsheet
  import opened InsertionDict

  /** The result mapping: sheet name to rows of cell text, insertion-ordered. */
  type Payload = Dict<seq<seq<string>>>

  /** The failure text of reading `rows` from a chartsheet. */
  const NoRowsDetail := "'Chartsheet' object has no attribute 'rows'"

  predicate AllWorksheets(wb: Workbook) {
    forall i :: 0 <= i < |wb| ==> wb[i].1.Worksheet?
  }

  /** What extraction produces: a failure if any sheet is a chartsheet,
      otherwise one entry per sheet, in order, holding its row text. */
  function Extracted(wb: Workbook): Result<Payload, string> {
    if AllWorksheets(wb) then
      Success(seq(|wb|, i requires 0 <= i < |wb| => (wb[i].0, SheetText(wb[i].1.rows))))
    else
      Failure(NoRowsDetail)
  }

  /** The loops of the handler: for each name in `workbook.sheetnames`, fetch
      the sheet, append the text of each of its rows to `sheetData`, then set
      `result[name] = sheetData`. */
  method ExtractWorkbook(wb: Workbook) returns (r: Result<Payload, string>)
    ensures r == Extracted(wb)
  {
    var names := SheetNames(wb);
    var result: Payload := [];
    var i := 0;
    while i < |names|
      invariant 0 <= i <= |names|
      invariant forall k :: 0 <= k < i ==> wb[k].1.Worksheet?
      invariant |result| == i
      invariant forall k :: 0 <= k < i ==> result[k] == (wb[k].0, SheetText(wb[k].1.rows))
    {
      var name := names[i];
      LookupByName(wb, i);
      var sheet := Lookup(wb, name).value;
      if sheet.Chartsheet? {
        return Failure(NoRowsDetail);
      }
      var sheetData: seq<seq<string>> := [];
      var j := 0;
      while j < |sheet.rows|
        invariant 0 <= j <= |sheet.rows|
        invariant sheetData == SheetText(sheet.rows[..j])
      {
        assert sheet.rows[..j + 1] == sheet.rows[..j] + [sheet.rows[j]];
        sheetData := sheetData + [RowText(sheet.rows[j])];
        j := j + 1;
      }
      assert sheet.rows[..j] == sheet.rows;
      assert name !in Keys(result) by {
        forall k | 0 <= k < i ensures Keys(result)[k] != name {
          assert wb[k].0 != wb[i].0;
        }
      }
      AssignFresh(result, name, sheetData);
      result := Assign(result, name, sheetData);
      i := i + 1;
    }
    assert result == seq(|wb|, k requires 0 <= k < |wb| => (wb[k].0, SheetText(wb[k].1.rows)));
    return Success(result);
  }

  /** On success the keys are exactly the sheet names, in storage order. */
  lemma ExtractedKeys(wb: Workbook)
    requires Extracted(wb).Success?
    ensures Keys(Extracted(wb).value) == SheetNames(wb)
  {
  }

  /** On success each sheet's entry has one row per sheet row, one string per
      cell, and each string is the cell's text. */
  lemma ExtractedShape(wb: Workbook, i: int)
    requires Extracted(wb).Success?
    requires 0 <= i < |wb|
    ensures wb[i].1.Worksheet?
    ensures var rows := Extracted(wb).value[i].1;
      |rows| == |wb[i].1.rows| &&
      forall j :: 0 <= j < |rows| ==>
        |rows[j]| == |wb[i].1.rows[j]| &&
        forall k :: 0 <= k < |rows[j]| ==> rows[j][k] == CellText(wb[i].1.rows[j][k])
  {
  }

  /** Extraction fails exactly when some sheet is a chartsheet, and then with
      the chartsheet's missing-attribute text. */
  lemma ExtractedFails(wb: Workbook)
    ensures Extracted(wb).Failure? <==> exists i :: 0 <= i < |wb| && wb[i].1.Chartsheet?
    ensures Extracted(wb).Failure? ==> Extracted(wb).error == NoRowsDetail
  {
  }
}
