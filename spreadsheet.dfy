/**
 * The slice of an Apache POI sheet the providers observe: cells with their kind and
 * toString rendering, rows as sequences of optional cells, and a sheet with its
 * first and last row numbers and the rows that exist. Also the row loop that both
 * providers share: data rows are the present row indices 1 .. lastRowNum - firstRowNum.
 */
module Spreadsheet {
  import opened Wrappers

  /**
   * A cell. `Str` is a STRING cell with its text; `Other` stands for every numeric,
   * boolean, formula or error cell and carries what Cell.toString renders for it
   * (a numeric 123 renders as "123.0").
   */
  datatype Cell = Blank | Str(text: string) | Other(rendered: string)

  /** A row: the cells at columns 0 .. getLastCellNum() - 1, None where getCell returns null. */
  datatype Row = Row(cells: seq<Option<Cell>>)

  /** A sheet: getFirstRowNum, getLastRowNum and the rows that are not null, by index. */
  datatype Sheet = Sheet(firstRowNum: int, lastRowNum: int, rows: map<int, Row>)

  /** Row.getLastCellNum: one past the last column. */
  function LastCellNum(row: Row): nat {
    |row.cells|
  }

  /** Row.getCell: null beyond the row's cells. */
  function GetCell(row: Row, col: nat): Option<Cell> {
    if col < |row.cells| then row.cells[col] else None
  }

  /** Sheet.getRow: null for a row that does not exist. */
  function GetRow(sheet: Sheet, i: int): Option<Row> {
    if i in sheet.rows then Some(sheet.rows[i]) else None
  }

  /** Cell.toString: "" for a blank cell, the text of a string cell, the rendering otherwise. */
  function CellToString(cell: Cell): string {
    match cell
    case Blank => ""
    case Str(text) => text
    case Other(rendered) => rendered
  }

  /** rowCount in both providers: getLastRowNum() - getFirstRowNum(). */
  function RowCount(sheet: Sheet): int {
    sheet.lastRowNum - sheet.firstRowNum
  }

  /** The indices `for (int i = 1; i <= n; i++)` visits whose row is not null, in increasing order. */
  function DataRows(sheet: Sheet, n: int): seq<int>
    decreases n
  {
    if n < 1 then [] else DataRows(sheet, n - 1) + (if n in sheet.rows then [n] else [])
  }

  /**
   * The row loop of both providers: map every non-null row at 1 .. n in order,
   * stopping at the first row whose mapping fails.
   */
  function MapDataRows<T, E>(sheet: Sheet, f: Row -> Result<T, E>, n: int): Result<seq<T>, E>
    decreases n
  {
    if n < 1 then Ok([])
    else match MapDataRows(sheet, f, n - 1)
      case Err(e) => Err(e)
      case Ok(done) =>
        if n !in sheet.rows then Ok(done)
        else match f(sheet.rows[n])
          case Err(e) => Err(e)
          case Ok(v) => Ok(done + [v])
  }

  /** DataRows holds exactly the existing row indices in 1 .. n, strictly increasing. */
  lemma {:induction false} DataRowsExactly(sheet: Sheet, n: int)
    ensures forall k :: 0 <= k < |DataRows(sheet, n)| ==>
      1 <= DataRows(sheet, n)[k] <= n && DataRows(sheet, n)[k] in sheet.rows
    ensures forall k, l :: 0 <= k < l < |DataRows(sheet, n)| ==> DataRows(sheet, n)[k] < DataRows(sheet, n)[l]
    ensures forall i :: 1 <= i <= n && i in sheet.rows ==> i in DataRows(sheet, n)
    decreases n
  {
    if n >= 1 {
      DataRowsExactly(sheet, n - 1);
    }
  }

  /**
   * The loop succeeds exactly when every non-null row in 1 .. n maps, and then it
   * yields one value per such row, in row order.
   */
  lemma {:induction false} MapDataRowsOneEach<T, E>(sheet: Sheet, f: Row -> Result<T, E>, n: int)
    ensures MapDataRows(sheet, f, n).Ok? <==> forall i :: 1 <= i <= n && i in sheet.rows ==> f(sheet.rows[i]).Ok?
    ensures MapDataRows(sheet, f, n).Ok? ==>
      |MapDataRows(sheet, f, n).value| == |DataRows(sheet, n)| &&
      forall k :: 0 <= k < |DataRows(sheet, n)| ==>
        (DataRows(sheet, n)[k] in sheet.rows &&
         f(sheet.rows[DataRows(sheet, n)[k]]) == Ok(MapDataRows(sheet, f, n).value[k]))
    decreases n
  {
    if n >= 1 {
      MapDataRowsOneEach(sheet, f, n - 1);
      DataRowsExactly(sheet, n - 1);
    }
  }

  /** A failing loop reports the error of some non-null row in 1 .. n: nothing partial is returned. */
  lemma {:induction false} MapDataRowsErrorFromARow<T, E>(sheet: Sheet, f: Row -> Result<T, E>, n: int)
    requires MapDataRows(sheet, f, n).Err?
    ensures exists i :: 1 <= i <= n && i in sheet.rows && f(sheet.rows[i]) == Err(MapDataRows(sheet, f, n).error)
    decreases n
  {
    if MapDataRows(sheet, f, n - 1).Err? {
      MapDataRowsErrorFromARow(sheet, f, n - 1);
    } else {
      assert f(sheet.rows[n]) == Err(MapDataRows(sheet, f, n).error);
    }
  }

  /** Once a row fails, the loop's result is that failure however far it is run: it aborts there. */
  lemma {:induction false} MapDataRowsErrorSticks<T, E>(sheet: Sheet, f: Row -> Result<T, E>, m: int, n: int)
    requires m <= n && MapDataRows(sheet, f, m).Err?
    ensures MapDataRows(sheet, f, n) == MapDataRows(sheet, f, m)
    decreases n
  {
    if m < n {
      MapDataRowsErrorSticks(sheet, f, m, n - 1);
    }
  }

  /**
   * The loop bound uses absolute indices: when the header sits at row f >= 1, row f
   * itself is visited as a data row if f <= lastRowNum - f, and the last row is never visited.
   */
  lemma HeaderOffsetEffect(sheet: Sheet)
    requires 1 <= sheet.firstRowNum <= RowCount(sheet)
    requires sheet.firstRowNum in sheet.rows
    ensures sheet.firstRowNum in DataRows(sheet, RowCount(sheet))
    ensures sheet.lastRowNum !in DataRows(sheet, RowCount(sheet))
  {
    DataRowsExactly(sheet, RowCount(sheet));
  }

  /**
   * No row above lastRowNum - firstRowNum is ever read, whatever exists there; when that
   * bound is below 1 (a header-only sheet, or a header further down than the data reaches)
   * no row is read at all.
   */
  lemma RowsAboveCountNeverRead(sheet: Sheet)
    ensures forall i :: RowCount(sheet) < i ==> i !in DataRows(sheet, RowCount(sheet))
    ensures RowCount(sheet) < 1 ==> DataRows(sheet, RowCount(sheet)) == []
  {
    DataRowsExactly(sheet, RowCount(sheet));
  }
}
