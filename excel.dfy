/**
 * `_get_data_from_excel`: the first sheet of the exported workbook, read
 * row by row from the fourth row on, one bill per row. The workbook is
 * given as the values xlrd exposes: a list of sheets, each a list of rows
 * of cells.
 */
module Excel {
  import opened Wrappers
  import opened Energir
  import opened Period

  /** A cell value: a string, or a number (xlrd gives floats, kept opaque here). */
  datatype Cell = Text(text: string) | Number(value: real)

  type Row = seq<Cell>
  type Sheet = seq<Row>

  datatype Workbook = Workbook(sheets: seq<Sheet>)

  /** One bill: the consumption cell as read, and the two dates of its period. */
  datatype Bill = Bill(gasM3: Cell, periodStart: string, periodEnd: string)

  /** Rows above this index are headers. */
  const FirstDataRow := 3
  const PeriodColumn := 2
  const GasColumn := 5

  /**
   * The bill of row `k`, or the exception reading it raises: the period
   * cell is read first, then the consumption cell, then the period is
   * searched for its two dates.
   */
  function RowBill(row: Row, k: nat): (r: Result<Bill, Error>)
    ensures r.Ok? <==>
      |row| > GasColumn && row[PeriodColumn].Text? && ExtractPeriod(row[PeriodColumn].text).Some?
    ensures r.Ok? ==> (
      && r.value.gasM3 == row[GasColumn]
      && ExtractPeriod(row[PeriodColumn].text) == Some((r.value.periodStart, r.value.periodEnd)))
    ensures |row| <= PeriodColumn ==> r == Err(CellOutOfRange(k, PeriodColumn))
    ensures PeriodColumn < |row| <= GasColumn ==> r == Err(CellOutOfRange(k, GasColumn))
    ensures |row| > GasColumn && row[PeriodColumn].Number? ==> r == Err(PeriodNotText(k))
  {
    if |row| <= PeriodColumn then Err(CellOutOfRange(k, PeriodColumn))
    else if |row| <= GasColumn then Err(CellOutOfRange(k, GasColumn))
    else match row[PeriodColumn]
      case Number(_) => Err(PeriodNotText(k))
      case Text(p) =>
        match ExtractPeriod(p)
        case None => Err(PeriodNotFound(k))
        case Some((start, end)) => Ok(Bill(row[GasColumn], start, end))
  }

  /** Every data row of the sheet from `from` on decodes. */
  ghost predicate RowsDecode(sheet: Sheet, from: nat) {
    forall k :: from <= k < |sheet| ==> RowBill(sheet[k], k).Ok?
  }

  /** The first row at or after `from` that does not decode. */
  function FirstBadRow(sheet: Sheet, from: nat): (r: Option<nat>)
    ensures r.Some? ==> from <= r.value < |sheet| && RowBill(sheet[r.value], r.value).Err?
    ensures r.Some? ==> forall k :: from <= k < r.value ==> RowBill(sheet[k], k).Ok?
    ensures r.None? <==> RowsDecode(sheet, from)
    decreases |sheet| - from
  {
    if from >= |sheet| then None
    else if RowBill(sheet[from], from).Err? then Some(from)
    else FirstBadRow(sheet, from + 1)
  }

  /** A failing row after rows that all decode is the first bad row. */
  lemma {:induction false} FirstBadRowAt(sheet: Sheet, from: nat, bad: nat)
    requires from <= bad < |sheet| && RowBill(sheet[bad], bad).Err?
    requires forall k :: from <= k < bad ==> RowBill(sheet[k], k).Ok?
    ensures FirstBadRow(sheet, from) == Some(bad)
    decreases bad - from
  {
    if from < bad {
      FirstBadRowAt(sheet, from + 1, bad);
    }
  }

  /** The number of data rows: `len(range(3, sheet.nrows))`. */
  function DataRows(sheet: Sheet): nat {
    if |sheet| <= FirstDataRow then 0 else |sheet| - FirstDataRow
  }

  /**
   * What the loop over the rows computes: the decoded data rows in order,
   * or the exception of the first row that does not decode.
   */
  function SheetBills(sheet: Sheet): (r: Result<seq<Bill>, Error>)
    ensures r.Ok? <==> RowsDecode(sheet, FirstDataRow)
    ensures r.Err? ==> exists k :: FirstDataRow <= k < |sheet| && RowBill(sheet[k], k) == Err(r.error)
  {
    match FirstBadRow(sheet, FirstDataRow)
    case Some(k) => Err(RowBill(sheet[k], k).error)
    case None =>
      Ok(seq(DataRows(sheet), k requires 0 <= k < DataRows(sheet) =>
        RowBill(sheet[k + FirstDataRow], k + FirstDataRow).value))
  }

  /**
   * The bytes of an export as `open_workbook` reads them: the workbook, or
   * None when they are not one.
   */
  type Xls = Option<Workbook>

  /**
   * The bills of an export: `open_workbook` fails on bytes that are not a
   * workbook, and `sheet_by_index(0)` raises IndexError on a workbook
   * without sheets.
   */
  function XlsBills(xls: Xls): (r: Result<seq<Bill>, Error>)
    ensures xls.None? ==> r == Err(UnreadableWorkbook)
    ensures r.Ok? <==> xls.Some? && |xls.value.sheets| > 0 && RowsDecode(xls.value.sheets[0], FirstDataRow)
    ensures r.Ok? ==> |r.value| == DataRows(xls.value.sheets[0])
  {
    match xls
    case None => Err(UnreadableWorkbook)
    case Some(wb) => if |wb.sheets| == 0 then Err(NoSheet) else SheetBills(wb.sheets[0])
  }

  /** `_get_data_from_excel`: open the export, take its first sheet, decode its rows in order. */
  method GetDataFromExcel(xls: Xls) returns (r: Result<seq<Bill>, Error>)
    ensures r == XlsBills(xls)
  {
    if xls.None? {
      return Err(UnreadableWorkbook);
    }
    var wb := xls.value;
    if |wb.sheets| == 0 {
      return Err(NoSheet);
    }
    r := DecodeSheet(wb.sheets[0]);
  }

  /** The loop of `_get_data_from_excel` over `range(3, sheet.nrows)`, appending one bill per row. */
  method DecodeSheet(sheet: Sheet) returns (r: Result<seq<Bill>, Error>)
    ensures r == SheetBills(sheet)
  {
    var bills: seq<Bill> := [];
    var idx := FirstDataRow;
    while idx < |sheet|
      invariant FirstDataRow <= idx
      invariant idx == FirstDataRow || idx <= |sheet|
      invariant |bills| == idx - FirstDataRow
      invariant forall k :: FirstDataRow <= k < idx ==> RowBill(sheet[k], k).Ok?
      invariant forall k :: 0 <= k < |bills| ==> bills[k] == RowBill(sheet[k + FirstDataRow], k + FirstDataRow).value
    {
      var bill := RowBill(sheet[idx], idx);
      if bill.Err? {
        FirstBadRowAt(sheet, FirstDataRow, idx);
        return Err(bill.error);
      }
      bills := bills + [bill.value];
      idx := idx + 1;
    }
    assert RowsDecode(sheet, FirstDataRow);
    assert bills == seq(DataRows(sheet), k requires 0 <= k < DataRows(sheet) =>
      RowBill(sheet[k + FirstDataRow], k + FirstDataRow).value);
    return Ok(bills);
  }

  /**
   * A sheet whose data rows all decode gives one bill per data row, so
   * exactly max(0, nrows - 3) bills; bill k comes from row k + 3, whose
   * consumption cell it carries unchanged and whose period cell alone
   * gives its two dates.
   */
  lemma BillsFollowRows(sheet: Sheet)
    requires RowsDecode(sheet, FirstDataRow)
    ensures SheetBills(sheet).Ok?
    ensures |SheetBills(sheet).value| == DataRows(sheet)
    ensures forall k :: 0 <= k < DataRows(sheet) ==>
      var row, bill := sheet[k + FirstDataRow], SheetBills(sheet).value[k];
      && |row| > GasColumn
      && bill.gasM3 == row[GasColumn]
      && row[PeriodColumn].Text?
      && ExtractPeriod(row[PeriodColumn].text) == Some((bill.periodStart, bill.periodEnd))
  {
  }

  /** A sheet with at most three rows holds only headers. */
  lemma HeaderOnlySheet(sheet: Sheet)
    requires |sheet| <= FirstDataRow
    ensures SheetBills(sheet) == Ok([])
  {
    assert RowsDecode(sheet, FirstDataRow);
    assert FirstBadRow(sheet, FirstDataRow).None?;
    assert |SheetBills(sheet).value| == DataRows(sheet) == 0;
  }

  /** Every listed date is exactly ten characters `DDDD-DD-DD`. */
  lemma BillDatesAreDateShaped(sheet: Sheet, k: nat)
    requires SheetBills(sheet).Ok? && k < |SheetBills(sheet).value|
    ensures DateShaped(SheetBills(sheet).value[k].periodStart)
    ensures DateShaped(SheetBills(sheet).value[k].periodEnd)
  {
    BillsFollowRows(sheet);
  }

  /**
   * One row that does not decode fails the whole sheet: no partial list
   * of bills is returned, and the error is that of the first such row.
   */
  lemma FirstBadRowFailsSheet(sheet: Sheet, k: nat)
    requires FirstDataRow <= k < |sheet| && RowBill(sheet[k], k).Err?
    requires forall j :: FirstDataRow <= j < k ==> RowBill(sheet[j], j).Ok?
    ensures SheetBills(sheet) == Err(RowBill(sheet[k], k).error)
  {
    var f := FirstBadRow(sheet, FirstDataRow);
    assert f.Some?;
    assert f == Some(k);
  }

  /** A bill depends only on the period and consumption cells of its row. */
  lemma RowBillReadsTwoCells(row: Row, row': Row, k: nat)
    requires |row| > GasColumn && |row'| > GasColumn
    requires row[PeriodColumn] == row'[PeriodColumn] && row[GasColumn] == row'[GasColumn]
    ensures RowBill(row, k) == RowBill(row', k)
  {
  }
}
