/**
 * The hand-coded customer mapper: every data row becomes a Customer by walking its cells
 * left to right, skipping empty ones, and routing each value by its column's title in row 0.
 */
module CustomerExcelDataProvider {
  import opened Wrappers
  import opened JavaLang
  import opened Spreadsheet
  import opened CellFormat
  import opened CustomerDto
  import opened BaseDataProvider

  /** The field values of `new Customer()`. */
  const NoFields := CustomerState(None, None, None)

  /** What one pass of createItemFromRow's loop does at column j. */
  function CellStep(sheet: Sheet, row: Row, st: CustomerState, j: nat): Result<CustomerState, TitleError> {
    var cell := GetCell(row, j);
    if IsCellEmpty(cell) then Ok(st)
    else
      match GetColumnTitle(sheet, j)
      case Err(e) => Err(e)
      case Ok(title) => Ok(Assign(st, title, Some(GetCellStringValue(cell))))
  }

  /** The customer after the loop has visited columns 0 .. n - 1, or the first title failure. */
  function CustomerFromCells(sheet: Sheet, row: Row, n: nat): Result<CustomerState, TitleError> {
    if n == 0 then Ok(NoFields)
    else
      match CustomerFromCells(sheet, row, n - 1)
      case Err(e) => Err(e)
      case Ok(st) => CellStep(sheet, row, st, n - 1)
  }

  /** createItemFromRow on values: the loop over all columns 0 .. getLastCellNum() - 1. */
  function CustomerFromRow(sheet: Sheet, row: Row): Result<CustomerState, TitleError> {
    CustomerFromCells(sheet, row, LastCellNum(row))
  }

  function CustomerMapper(sheet: Sheet): Row -> Result<CustomerState, TitleError> {
    row => CustomerFromRow(sheet, row)
  }

  /** getData on values, given what workbook.getSheet("Sheet1") returned. */
  function Customers(sheet: Option<Sheet>): Result<seq<CustomerState>, TitleError> {
    match sheet
    case None => Ok([])
    case Some(s) => MapDataRows(s, CustomerMapper(s), RowCount(s))
  }

  /**
   * Column j of the row feeds field f: the cell is not empty, its text is not empty (a
   * non-string cell can pass the emptiness test and still render as blank) and its title
   * selects f.
   */
  predicate Feeds(sheet: Sheet, row: Row, j: nat, f: CustomerField) {
    !IsCellEmpty(GetCell(row, j)) && GetCellStringValue(GetCell(row, j)) != "" &&
    GetColumnTitle(sheet, j).Ok? && TitleField(GetColumnTitle(sheet, j).value) == Some(f)
  }

  /** Once a title fails, the rest of the row fails with that error. */
  lemma {:induction false} CustomerFromCellsErrorSticks(sheet: Sheet, row: Row, m: nat, n: nat)
    requires m <= n && CustomerFromCells(sheet, row, m).Err?
    ensures CustomerFromCells(sheet, row, n) == CustomerFromCells(sheet, row, m)
    decreases n
  {
    if m < n {
      CustomerFromCellsErrorSticks(sheet, row, m, n - 1);
    }
  }

  /** One column's effect on field f: set to the formatted cell text when the column feeds f, untouched otherwise. */
  lemma CellStepOnField(sheet: Sheet, row: Row, st: CustomerState, j: nat, f: CustomerField)
    requires CellStep(sheet, row, st, j).Ok?
    ensures Feeds(sheet, row, j, f) ==>
      FieldOf(CellStep(sheet, row, st, j).value, f) == Some(FormatValue(GetCellStringValue(GetCell(row, j))))
    ensures !Feeds(sheet, row, j, f) ==> FieldOf(CellStep(sheet, row, st, j).value, f) == FieldOf(st, f)
  {
  }

  /** The loop after n columns is the loop after n - 1 columns followed by one more step. */
  lemma CustomerFromCellsStep(sheet: Sheet, row: Row, n: nat)
    requires n > 0 && CustomerFromCells(sheet, row, n).Ok?
    ensures CustomerFromCells(sheet, row, n - 1).Ok?
    ensures CustomerFromCells(sheet, row, n) == CellStep(sheet, row, CustomerFromCells(sheet, row, n - 1).value, n - 1)
  {
  }

  /**
   * A field holds the formatted value of the rightmost non-empty cell whose column title
   * selects it: a later column feeding the same field overwrites an earlier one.
   */
  lemma {:induction false} RightmostNonEmptyWins(sheet: Sheet, row: Row, n: nat, f: CustomerField, j: nat)
    requires CustomerFromCells(sheet, row, n).Ok?
    requires j < n && Feeds(sheet, row, j, f)
    requires forall k :: j < k < n ==> !Feeds(sheet, row, k, f)
    ensures FieldOf(CustomerFromCells(sheet, row, n).value, f) == Some(FormatValue(GetCellStringValue(GetCell(row, j))))
    decreases n
  {
    CustomerFromCellsStep(sheet, row, n);
    var before := CustomerFromCells(sheet, row, n - 1).value;
    CellStepOnField(sheet, row, before, n - 1, f);
    if j < n - 1 {
      assert !Feeds(sheet, row, n - 1, f);
      RightmostNonEmptyWins(sheet, row, n - 1, f, j);
    }
  }

  /** A field that no non-empty cell's title selects stays null. */
  lemma {:induction false} UnfedFieldStaysNull(sheet: Sheet, row: Row, n: nat, f: CustomerField)
    requires CustomerFromCells(sheet, row, n).Ok?
    requires forall j :: 0 <= j < n ==> !Feeds(sheet, row, j, f)
    ensures FieldOf(CustomerFromCells(sheet, row, n).value, f) == None
    decreases n
  {
    if n > 0 {
      CustomerFromCellsStep(sheet, row, n);
      CellStepOnField(sheet, row, CustomerFromCells(sheet, row, n - 1).value, n - 1, f);
      UnfedFieldStaysNull(sheet, row, n - 1, f);
    }
  }

  /** A row whose cells are all empty yields a customer with every field null. */
  lemma {:induction false} EmptyRowYieldsNoFields(sheet: Sheet, row: Row, n: nat)
    requires forall j :: 0 <= j < n ==> IsCellEmpty(GetCell(row, j))
    ensures CustomerFromCells(sheet, row, n) == Ok(NoFields)
    decreases n
  {
    if n > 0 {
      EmptyRowYieldsNoFields(sheet, row, n - 1);
    }
  }

  /**
   * The row fails exactly when some non-empty cell sits under a title cell that is not a
   * string cell; the error names the leftmost such column.
   */
  lemma {:induction false} TitleFailureIff(sheet: Sheet, row: Row, n: nat)
    ensures CustomerFromCells(sheet, row, n).Err? <==>
      exists j :: 0 <= j < n && !IsCellEmpty(GetCell(row, j)) && GetColumnTitle(sheet, j).Err?
    ensures CustomerFromCells(sheet, row, n).Err? ==>
      var j := CustomerFromCells(sheet, row, n).error.column;
      j < n && !IsCellEmpty(GetCell(row, j)) && GetColumnTitle(sheet, j).Err? &&
      forall k :: 0 <= k < j ==> IsCellEmpty(GetCell(row, k)) || GetColumnTitle(sheet, k).Ok?
    decreases n
  {
    if n > 0 {
      TitleFailureIff(sheet, row, n - 1);
    }
  }

  /** createItemFromRow. */
  method CreateItemFromRow(sheet: Sheet, row: Row) returns (r: Result<Customer, TitleError>)
    ensures r.Ok? ==> fresh(r.value) && CustomerFromRow(sheet, row) == Ok(r.value.State())
    ensures r.Err? ==> CustomerFromRow(sheet, row) == Err(r.error)
  {
    var customer := new Customer();
    var cellCount := LastCellNum(row);
    var j := 0;
    while j < cellCount
      invariant 0 <= j <= cellCount
      invariant CustomerFromCells(sheet, row, j) == Ok(customer.State())
    {
      var currCell := GetCell(row, j);
      if !IsCellEmpty(currCell) {
        var currValue := GetCellStringValue(currCell);
        var columnTitle := GetColumnTitle(sheet, j);
        if columnTitle.Err? {
          CustomerFromCellsErrorSticks(sheet, row, j + 1, cellCount);
          return Err(columnTitle.error);
        }
        SetCellValue(customer, columnTitle.value, Some(currValue));
      }
      j := j + 1;
    }
    return Ok(customer);
  }

  /** processItemSheet: appends one customer per non-null row at 1 .. last - first to `records`. */
  method ProcessItemSheet(sheet: Sheet, records: seq<Customer>) returns (r: Result<seq<Customer>, TitleError>)
    ensures r.Ok? ==> MapDataRows(sheet, CustomerMapper(sheet), RowCount(sheet)).Ok?
    ensures r.Ok? ==> |r.value| == |records| + |MapDataRows(sheet, CustomerMapper(sheet), RowCount(sheet)).value|
    ensures r.Ok? ==> r.value[..|records|] == records
    ensures r.Ok? ==> forall k :: |records| <= k < |r.value| ==>
      fresh(r.value[k]) &&
      r.value[k].State() == MapDataRows(sheet, CustomerMapper(sheet), RowCount(sheet)).value[k - |records|]
    ensures r.Err? ==> MapDataRows(sheet, CustomerMapper(sheet), RowCount(sheet)) == Err(r.error)
  {
    var rowCount := RowCount(sheet);
    ghost var mapper := CustomerMapper(sheet);
    ghost var done: seq<CustomerState> := [];
    ghost var created: seq<Customer> := [];
    var out := records;
    var i := 1;
    while i <= rowCount
      invariant 1 <= i <= if rowCount < 1 then 1 else rowCount + 1
      invariant MapDataRows(sheet, mapper, i - 1) == Ok(done)
      invariant out == records + created && |created| == |done|
      invariant forall k :: 0 <= k < |created| ==> fresh(created[k]) && created[k].State() == done[k]
    {
      var row := GetRow(sheet, i);
      if row.Some? {
        var customer := CreateItemFromRow(sheet, row.value);
        if customer.Err? {
          assert MapDataRows(sheet, mapper, i) == Err(customer.error);
          MapDataRowsErrorSticks(sheet, mapper, i, rowCount);
          return Err(customer.error);
        }
        out := out + [customer.value];
        created := created + [customer.value];
        done := done + [customer.value.State()];
      }
      i := i + 1;
    }
    if rowCount < 1 {
      assert MapDataRows(sheet, mapper, rowCount) == Ok([]) == MapDataRows(sheet, mapper, i - 1);
    }
    assert forall k :: |records| <= k < |out| ==> out[k] == created[k - |records|];
    return Ok(out);
  }

  /** getData, given what workbook.getSheet("Sheet1") returned: an empty array without the sheet. */
  method GetData(sheet: Option<Sheet>) returns (r: Result<seq<Customer>, TitleError>)
    ensures r.Ok? ==> Customers(sheet).Ok? && |r.value| == |Customers(sheet).value|
    ensures r.Ok? ==> forall k :: 0 <= k < |r.value| ==>
      fresh(r.value[k]) && r.value[k].State() == Customers(sheet).value[k]
    ensures r.Err? ==> Customers(sheet) == Err(r.error)
  {
    if sheet.None? {
      return Ok([]);
    }
    r := ProcessItemSheet(sheet.value, []);
  }

  /**
   * One customer per non-null row at 1 .. last - first, in row order; the call fails
   * exactly when one of those rows does.
   */
  lemma CustomersOnePerRow(sheet: Sheet)
    ensures Customers(Some(sheet)).Ok? <==>
      forall i :: 1 <= i <= RowCount(sheet) && i in sheet.rows ==> CustomerFromRow(sheet, sheet.rows[i]).Ok?
    ensures Customers(Some(sheet)).Ok? ==>
      var rows := DataRows(sheet, RowCount(sheet));
      |Customers(Some(sheet)).value| == |rows| &&
      forall k :: 0 <= k < |rows| ==>
        (rows[k] in sheet.rows && CustomerFromRow(sheet, sheet.rows[rows[k]]) == Ok(Customers(Some(sheet)).value[k]))
  {
    MapDataRowsOneEach(sheet, CustomerMapper(sheet), RowCount(sheet));
  }

  /** A header row of clean titles and a row of plain texts give a customer holding those texts. */
  lemma JaneDoeRow()
    ensures var header := Row([Some(Str("Customer Name")), Some(Str("Address")), Some(Str("City"))]);
      var data := Row([Some(Str("Jane Doe")), Some(Str("1 Main St")), Some(Str("Springfield"))]);
      var sheet := Sheet(0, 1, map[0 := header, 1 := data]);
      Customers(Some(sheet)) == Ok([CustomerState(Some("Jane Doe"), Some("1 Main St"), Some("Springfield"))])
  {
    var header := Row([Some(Str("Customer Name")), Some(Str("Address")), Some(Str("City"))]);
    var data := Row([Some(Str("Jane Doe")), Some(Str("1 Main St")), Some(Str("Springfield"))]);
    var sheet := Sheet(0, 1, map[0 := header, 1 := data]);
    PlainText("Customer Name");
    PlainText("Address");
    PlainText("City");
    PlainText("Jane Doe");
    PlainText("1 Main St");
    PlainText("Springfield");
    assert GetColumnTitle(sheet, 0) == Ok("Customer Name");
    assert GetColumnTitle(sheet, 1) == Ok("Address");
    assert GetColumnTitle(sheet, 2) == Ok("City");
    var st1 := NoFields.(name := Some("Jane Doe"));
    var st2 := st1.(address := Some("1 Main St"));
    assert CustomerFromCells(sheet, data, 1) == Ok(st1);
    assert CustomerFromCells(sheet, data, 2) == Ok(st2);
    assert CustomerFromCells(sheet, data, 3) == Ok(st2.(city := Some("Springfield")));
    var jane := st2.(city := Some("Springfield"));
    assert CustomerFromRow(sheet, data) == Ok(jane);
    var mapper := CustomerMapper(sheet);
    assert 1 in sheet.rows && mapper(sheet.rows[1]) == Ok(jane);
    assert MapDataRows(sheet, mapper, 0) == Ok([]);
    assert MapDataRows(sheet, mapper, 1) == Ok([] + [jane]);
    assert [] + [jane] == [jane];
    assert RowCount(sheet) == 1;
    assert Customers(Some(sheet)) == MapDataRows(sheet, mapper, 1);
  }
}
