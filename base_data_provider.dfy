/**
 * The helpers of the hand-coded customer mapper: when a cell counts as empty, how a
 * column's title is read from row 0, and the switch on title text that chooses which
 * Customer field a value goes to.
 */
module BaseDataProvider {
  import opened Wrappers
  import opened JavaLang
  import opened Spreadsheet
  import opened CellFormat
  import opened CustomerDto

  /** EXCEL_TITLE_ROW_NUM: titles come from this fixed row, not from getFirstRowNum(). */
  const ExcelTitleRowNum: int := 0

  /**
   * getStringCellValue on a numeric, boolean or error cell, or on a formula cell whose cached
   * result is not a string, throws IllegalStateException.
   */
  datatype TitleError = NotAStringCell(column: nat)

  /** isCellEmpty: null, BLANK, or a STRING cell whose trimmed text is empty. */
  function IsCellEmpty(cell: Option<Cell>): (empty: bool)
    ensures cell.None? || cell == Some(Blank) ==> empty
    ensures cell.Some? && cell.value.Str? ==> (empty <==> AllTrimSpace(cell.value.text))
    ensures cell.Some? && cell.value.Other? ==> !empty
    ensures empty ==> GetCellStringValue(cell) == ""
  {
    match cell
    case None => true
    case Some(Blank) => TrimEmptyIff(""); true
    case Some(Str(text)) => TrimEmptyIff(text); Trim(text) == ""
    case Some(Other(_)) => false
  }

  /**
   * Cell.getStringCellValue: "" for BLANK, the text for STRING, an exception for the cells
   * `Other` stands for. A formula cell caching a string is an `Other` cell here, although
   * POI returns its cached text.
   */
  function GetStringCellValue(cell: Cell, col: nat): Result<string, TitleError> {
    match cell
    case Blank => Ok("")
    case Str(text) => Ok(text)
    case Other(_) => Err(NotAStringCell(col))
  }

  /** getColumnTitle: the trimmed string value of row 0's cell at `col`, "" when that row or cell is null. */
  function GetColumnTitle(sheet: Sheet, col: nat): (r: Result<string, TitleError>)
    ensures r.Ok? ==> IsTrimmed(r.value)
    ensures r.Err? <==> ExcelTitleRowNum in sheet.rows && GetCell(sheet.rows[ExcelTitleRowNum], col).Some? &&
                        GetCell(sheet.rows[ExcelTitleRowNum], col).value.Other?
    ensures r.Err? ==> r.error == NotAStringCell(col)
    ensures ExcelTitleRowNum !in sheet.rows ==> r == Ok("")
    ensures ExcelTitleRowNum in sheet.rows ==>
      var cell := GetCell(sheet.rows[ExcelTitleRowNum], col);
      (cell.None? || cell == Some(Blank) ==> r == Ok("")) &&
      (cell.Some? && cell.value.Str? ==> r == Ok(Trim(cell.value.text)))
  {
    match GetRow(sheet, ExcelTitleRowNum)
    case None => Ok("")
    case Some(titleRow) =>
      match GetCell(titleRow, col)
      case None => Ok("")
      case Some(cell) =>
        match GetStringCellValue(cell, col)
        case Err(e) => Err(e)
        case Ok(text) => Ok(Trim(text))
  }

  /** The title depends on row 0 only: moving the first row number leaves every title as it was. */
  lemma GetColumnTitleIgnoresFirstRowNum(sheet: Sheet, first: int, col: nat)
    ensures GetColumnTitle(sheet.(firstRowNum := first), col) == GetColumnTitle(sheet, col)
  {
  }

  /** The Customer fields the switch can set. */
  datatype CustomerField = NameField | AddressField | CityField

  /** The clean title of each field's column. */
  function CleanTitle(f: CustomerField): string {
    match f
    case NameField => "Customer Name"
    case AddressField => "Address"
    case CityField => "City"
  }

  /** The switch in setCellValue: exact, case-sensitive comparison with the clean title and its U+200B variant. */
  function TitleField(title: string): (f: Option<CustomerField>)
    ensures f.Some? ==> title == CleanTitle(f.value) || title == CleanTitle(f.value) + [ZeroWidthSpace]
  {
    if title == "Customer Name\U{200B}" || title == "Customer Name" then Some(NameField)
    else if title == "Address\U{200B}" || title == "Address" then Some(AddressField)
    else if title == "City\U{200B}" || title == "City" then Some(CityField)
    else None
  }

  /** Both spellings of every field's title select that field. */
  lemma TitleFieldSelectsBothSpellings(f: CustomerField)
    ensures TitleField(CleanTitle(f)) == Some(f)
    ensures TitleField(CleanTitle(f) + [ZeroWidthSpace]) == Some(f)
  {
  }

  /** Titles are compared exactly: another case or a trailing space selects nothing. */
  lemma TitleFieldIsExact()
    ensures TitleField("customer name") == None
    ensures TitleField("CITY") == None
    ensures TitleField("City ") == None
    ensures TitleField("") == None
  {
  }

  function FieldOf(st: CustomerState, f: CustomerField): Option<string> {
    match f
    case NameField => st.name
    case AddressField => st.address
    case CityField => st.city
  }

  /** setCellValue on the field values. */
  function Assign(st: CustomerState, columnTitle: string, value: Option<string>): (r: CustomerState)
    ensures value.None? || value == Some("") ==> r == st
    ensures TitleField(columnTitle).None? ==> r == st
    ensures forall f :: Some(f) != TitleField(columnTitle) ==> FieldOf(r, f) == FieldOf(st, f)
    ensures value.Some? && value.value != "" && TitleField(columnTitle).Some? ==>
      FieldOf(r, TitleField(columnTitle).value) == Some(FormatValue(value.value))
  {
    if value.None? || value.value == "" then st
    else
      var v := FormatValue(value.value);
      match TitleField(columnTitle)
      case None => st
      case Some(NameField) => st.(name := Some(v))
      case Some(AddressField) => st.(address := Some(v))
      case Some(CityField) => st.(city := Some(v))
  }

  /** Emptiness is checked before formatting: ".0" passes the check and sets the field to "". */
  lemma DotZeroSetsEmptyText(st: CustomerState)
    ensures Assign(st, "City", Some(".0")) == st.(city := Some(""))
  {
    FormatValueExamples();
  }

  /** setCellValue: one setter chosen by the title, or nothing for a null or empty value or an unknown title. */
  method SetCellValue(customer: Customer, columnTitle: string, value: Option<string>)
    modifies customer
    ensures customer.State() == Assign(old(customer.State()), columnTitle, value)
  {
    if value.Some? && value.value != "" {
      var v := FormatValue(value.value);
      if columnTitle == "Customer Name\U{200B}" || columnTitle == "Customer Name" {
        customer.SetName(Some(v));
      } else if columnTitle == "Address\U{200B}" || columnTitle == "Address" {
        customer.SetAddress(Some(v));
      } else if columnTitle == "City\U{200B}" || columnTitle == "City" {
        customer.SetCity(Some(v));
      }
    }
  }
}
