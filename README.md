# data-reader: spreadsheet rows to records, modelled in Dafny

The data-reader repository turns the rows of an Excel sheet named "Sheet1" into test records. It does
this two ways:

- **The generic mapper (`CoreDataProvider`).** It reads the header row at `getFirstRowNum()` into a map
  from header text to column. For each field of the record class annotated `@ExcelColumn`, it takes the
  column of the first declared alias found in that map. It reads the cell there, Java-`trim`s it, strips
  a trailing `.0` and converts the text to the field's type (String, int, long, double or boolean).
  `Item` is the one record class it serves.
- **The hand-coded customer mapper (`BaseDataProvider`, `CustomerExcelDataProvider`).** It walks every
  data row's cells from left to right and skips the empty ones. It reads each remaining cell's column
  title from row 0, and a fixed switch on that title calls one setter of a `Customer`.

Both mappers visit the rows `1 .. getLastRowNum() - getFirstRowNum()` and skip null rows.

The model follows the source's own shape:

- **Pure helpers become functions with contracts.** These are `trim`, `formatValue`, `getCellStringValue`,
  `isCellEmpty`, `getColumnTitle`, `convertToFieldType` and the title switch.
- **Loops become methods with invariants.** These are the header `forEach`, the alias loop, the field loop
  of `mapRowToObject`, the row loops, and the cell loop of `createItemFromRow`. Each method is proved equal
  to a specification function over values (`MapRow`, `MapSheet`, `CustomerFromRow`, `Customers`), and the
  properties are proved about those functions.
- **`Item` and `Customer` are classes whose methods update their fields.**
- **Reflection and `@ExcelColumn` become an explicit schema table** (`ItemDto.ItemSchema`): each field's
  name, type and aliases, in declaration order.
- **A spreadsheet is a value.**
  - A `Sheet` has `firstRowNum`, `lastRowNum` and a map from row index to the rows that are not null.
  - A `Row` is a sequence of optional cells; its length stands for `getLastCellNum()`.
  - A `Cell` is `Blank`, `Str(text)` for a STRING cell, or `Other(rendered)`. `Other` covers numeric,
    boolean, formula and error cells and carries what `Cell.toString` renders for them (a numeric 123
    renders as `"123.0"`). A formula cell whose cached result is a string is an `Other` cell too.
- **Java exceptions become `Result` errors.** `mapRowToObject`'s RuntimeException carries the field and
  the text. It is `ConversionFailed` when a numeric parse throws, and `AssignmentFailed` when `field.set`
  refuses the String that `convertToFieldType` returns for a type it does not know (a `float` or `char`
  field, say). `getStringCellValue` on a numeric, boolean or error title cell throws
  IllegalStateException, which becomes `NotAStringCell`. Null becomes `Option.None`.
- **The sheet lookup is an input.** What `workbook.getSheet("Sheet1")` returns is passed as an
  `Option<Sheet>`.

`getCellStringValue` and `formatValue` have the same body in `CoreDataProvider.java` and
`BaseDataProvider.java` (lines 66-68 and 79-87 there). They are defined once, in `CellFormat`, and both
providers use them.

The model follows the code as written; in particular:

- A resolved cell that is null or blank is not skipped by the generic mapper. A String field receives
  `""`, a boolean field `false`, and an int, long or double field fails the row. The field does not keep
  its default.
- `Boolean.parseBoolean` never fails: any text other than "true" in some case gives `false`.
- The data rows are the absolute indices `1 .. lastRowNum - firstRowNum`, not the rows below the header.
  A sheet whose first row is `f` never reads a row above `lastRowNum - f`; when that bound is below 1,
  no row is read at all (`Spreadsheet.RowsAboveCountNeverRead`). When `1 <= f <= lastRowNum - f` and the
  header row exists, the header row is mapped as data and the last row is never read
  (`Spreadsheet.HeaderOffsetEffect`).
- Duplicated header text maps to its rightmost column.

## Model

| member | source | states |
|---|---|---|
| JavaLang.Trim | src/test/java/com/antoanetatanasova/dataprovider/item/CoreDataProvider.java:146-148 | String.trim's result is no longer than its input and neither starts nor ends with a char at or below U+0020 |
| JavaLang.TrimOfPadded | src/test/java/com/antoanetatanasova/dataprovider/item/CoreDataProvider.java:146-148 | trimming any padding of chars at or below U+0020 around an already trimmed text gives back exactly that text |
| JavaLang.TrimIdempotent | src/test/java/com/antoanetatanasova/dataprovider/item/CoreDataProvider.java:146-148 | trimming twice is trimming once |
| JavaLang.TrimEmptyIff | src/test/java/com/antoanetatanasova/dataprovider/customer/BaseDataProvider.java:32-34 | trim gives "" exactly when every char is at or below U+0020 |
| JavaLang.TrimKeepsZeroWidthSpace | src/test/java/com/antoanetatanasova/dataprovider/item/CoreDataProvider.java:146-148 | a trailing U+200B survives trim, so the zero-width-space header variants stay distinct |
| JavaLang.IndexOf | src/test/java/com/antoanetatanasova/dataprovider/item/CoreDataProvider.java:161 | indexOf is -1 exactly when the char is absent, and otherwise the position of its first occurrence |
| JavaLang.DigitsValueOfRendering | src/test/java/com/antoanetatanasova/dataprovider/item/CoreDataProvider.java:131 | reading the decimal rendering of a natural number gives that number back |
| JavaLang.ParseInt | src/test/java/com/antoanetatanasova/dataprovider/item/CoreDataProvider.java:131 | Integer.parseInt accepts exactly the texts Long.parseLong accepts whose value fits in 32 bits, and yields the same number |
| JavaLang.ParseIntOfRendering | src/test/java/com/antoanetatanasova/dataprovider/item/CoreDataProvider.java:131 | parseInt inverts the decimal rendering of every non-negative int |
| JavaLang.ParseIntOfNegativeRendering | src/test/java/com/antoanetatanasova/dataprovider/item/CoreDataProvider.java:131 | parseInt inverts the '-'-prefixed rendering of every negative int |
| JavaLang.ParseLongOfRendering | src/test/java/com/antoanetatanasova/dataprovider/item/CoreDataProvider.java:134 | Long.parseLong inverts Long.toString for every long, negative ones included |
| JavaLang.ParseIntOfLongRendering | src/test/java/com/antoanetatanasova/dataprovider/item/CoreDataProvider.java:131 | the rendering of a long parses as an int exactly when the value fits in 32 bits, and then gives that value back |
| JavaLang.ParseDouble | src/test/java/com/antoanetatanasova/dataprovider/item/CoreDataProvider.java:132 | every integer literal parseLong accepts, Double.parseDouble accepts with the same value; text without an ASCII digit (the empty text included) never parses |
| JavaLang.ParseDoubleFractions | src/test/java/com/antoanetatanasova/dataprovider/item/CoreDataProvider.java:132 | the digits after the '.' are tenths, hundredths and so on: "2.5" is 2.5, "-.5" is -0.5, "0.25" is 0.25 |
| JavaLang.ParseBoolean | src/test/java/com/antoanetatanasova/dataprovider/item/CoreDataProvider.java:133 | Boolean.parseBoolean is true exactly for the 16 spellings of "true" with each letter in either case, and false for every other text |
| JavaLang.ParseBooleanExamples | src/test/java/com/antoanetatanasova/dataprovider/item/CoreDataProvider.java:133 | "true", "TRUE" and "True" give true; "", "yes", "1" and "false" give false |
| Spreadsheet.DataRowsExactly | src/test/java/com/antoanetatanasova/dataprovider/item/CoreDataProvider.java:42-46 | the visited rows are exactly the non-null indices in 1 .. last - first, strictly increasing |
| Spreadsheet.MapDataRowsOneEach | src/test/java/com/antoanetatanasova/dataprovider/item/CoreDataProvider.java:42-50 | the row loop succeeds exactly when every visited row maps, and then yields one value per visited row in row order |
| Spreadsheet.MapDataRowsErrorFromARow | src/test/java/com/antoanetatanasova/dataprovider/item/CoreDataProvider.java:44-50 | a failed row loop reports the error of some visited row and returns nothing partial |
| Spreadsheet.MapDataRowsErrorSticks | src/test/java/com/antoanetatanasova/dataprovider/item/CoreDataProvider.java:44-50 | once a row fails, the loop's outcome is that failure whatever rows follow |
| Spreadsheet.HeaderOffsetEffect | src/test/java/com/antoanetatanasova/dataprovider/item/CoreDataProvider.java:42-44 | when the header row f exists and 1 <= f <= lastRowNum - f, the header row itself is among the data rows and the last row is not |
| Spreadsheet.RowsAboveCountNeverRead | src/test/java/com/antoanetatanasova/dataprovider/item/CoreDataProvider.java:42-44 | no row above lastRowNum - firstRowNum is visited, and none at all when that bound is below 1 |
| CellFormat.GetCellStringValue | src/test/java/com/antoanetatanasova/dataprovider/item/CoreDataProvider.java:146-148 | "" for a null cell, otherwise the trimmed toString rendering, which is always trimmed |
| CellFormat.FormatValue | src/test/java/com/antoanetatanasova/dataprovider/item/CoreDataProvider.java:159-167 | a string that is all ASCII digits then ".0" loses exactly its ".0" and leaves digits; every other string is returned unchanged |
| CellFormat.FormatValueIdempotent | src/test/java/com/antoanetatanasova/dataprovider/item/CoreDataProvider.java:159-167 | formatting a formatted value changes nothing |
| CellFormat.FormatValueExamples | src/test/java/com/antoanetatanasova/dataprovider/item/CoreDataProvider.java:159-167 | "123.0" gives "123" and ".0" gives ""; "1.00", "2.5" and "-1.0" stay as they are |
| CellFormat.NumericCellReadsAsInteger | src/test/java/com/antoanetatanasova/dataprovider/item/CoreDataProvider.java:146-167 | a numeric cell rendered as the digits of n followed by ".0" reads as the digits of n |
| CellFormat.DigitsDotZeroReadsAsDigits | src/test/java/com/antoanetatanasova/dataprovider/item/CoreDataProvider.java:146-167 | a cell rendered as ASCII digits followed by ".0" reads as exactly those digits |
| CellFormat.PlainText | src/test/java/com/antoanetatanasova/dataprovider/item/CoreDataProvider.java:146-167 | a text with no padding that does not end in '0' is left unchanged by both trim and formatValue |
| Schema.DefaultOf | src/test/java/com/antoanetatanasova/dto/Item.java:21-22 | the value a field of each type has before assignment belongs to that type; a type that cannot hold a String starts at its own null or zero |
| ItemDto.ItemAliasesPairUp | src/test/java/com/antoanetatanasova/dto/Item.java:6-19 | seven fields, each with exactly two aliases: the U+200B-suffixed name first, then the clean name |
| ItemDto.ItemFieldTypes | src/test/java/com/antoanetatanasova/dto/Item.java:6-19 | unitPrice is a double, quantity an int, the other five are Strings |
| ItemDto.Item.Values | src/test/java/com/antoanetatanasova/dto/Item.java:6-19 | an Item's fields, in declaration order, each of its declared type |
| ItemDto.Item.constructor | src/test/java/com/antoanetatanasova/dto/Item.java:21-22 | the no-argument constructor leaves the Strings null, unitPrice 0.0 and quantity 0, which are the schema's defaults |
| ItemDto.Item.Create | src/test/java/com/antoanetatanasova/dto/Item.java:24-32 | the seven-argument constructor sets each field to the argument in the same position |
| ItemDto.Item.SetField | src/test/java/com/antoanetatanasova/dataprovider/item/CoreDataProvider.java:104-106 | setting the i-th declared field changes that field to the value and no other field |
| CoreDataProvider.IndexKeysRightmost | src/test/java/com/antoanetatanasova/dataprovider/item/CoreDataProvider.java:82-86 | putting keys in column order leaves exactly the keys present, each mapped to its rightmost column |
| CoreDataProvider.HeaderIndexRightmost | src/test/java/com/antoanetatanasova/dataprovider/item/CoreDataProvider.java:78-86 | every header column's text is a key, "" included, nothing else is, and duplicated text maps to its rightmost column |
| CoreDataProvider.BuildHeaderIndex | src/test/java/com/antoanetatanasova/dataprovider/item/CoreDataProvider.java:82-86 | the forEach over columns 0 .. getLastCellNum() - 1 builds exactly the header map |
| CoreDataProvider.FirstAliasColumn | src/test/java/com/antoanetatanasova/dataprovider/item/CoreDataProvider.java:92-97 | no column exactly when no alias is a header; otherwise the column of the first alias, in declared order, that is |
| CoreDataProvider.ResolveColumn | src/test/java/com/antoanetatanasova/dataprovider/item/CoreDataProvider.java:92-97 | the loop over the aliases that stops at the first hit finds the first alias column |
| CoreDataProvider.ConvertToFieldType | src/test/java/com/antoanetatanasova/dataprovider/item/CoreDataProvider.java:129-136 | String and unknown types get the text itself; boolean yields parseBoolean's result and never fails; int, long and double fail exactly when their parse does and otherwise yield the parsed number |
| CoreDataProvider.NumericConversionsAgree | src/test/java/com/antoanetatanasova/dataprovider/item/CoreDataProvider.java:131-134 | a text an int field accepts, a long field accepts with the same number; a text a long field accepts, a double field accepts with the same number |
| CoreDataProvider.ConvertLongField | src/test/java/com/antoanetatanasova/dataprovider/item/CoreDataProvider.java:134 | a long field converts every long's rendering back to it and refuses "2.5" and "" |
| CoreDataProvider.ConvertIntField | src/test/java/com/antoanetatanasova/dataprovider/item/CoreDataProvider.java:131 | an int field converts every non-negative int's rendering back to it and refuses "2.5", "abc" and "" |
| CoreDataProvider.ConvertBooleanField | src/test/java/com/antoanetatanasova/dataprovider/item/CoreDataProvider.java:133 | a boolean field gives true for "TRUE" and false for "", "yes" and "1" |
| CoreDataProvider.FieldOutcome | src/test/java/com/antoanetatanasova/dataprovider/item/CoreDataProvider.java:99-107 | one field's outcome, when it succeeds, holds a value of the field's type; a converted String that the field cannot hold fails, as field.set does |
| CoreDataProvider.MapInOrder | src/test/java/com/antoanetatanasova/dataprovider/item/CoreDataProvider.java:88-109 | the field loop succeeds exactly when every field does, and then yields each field's value in declaration order |
| CoreDataProvider.MapInOrderFirstError | src/test/java/com/antoanetatanasova/dataprovider/item/CoreDataProvider.java:88-113 | fail-fast: the error reported is that of the first field, in declaration order, that fails |
| CoreDataProvider.MapInOrderStep | src/test/java/com/antoanetatanasova/dataprovider/item/CoreDataProvider.java:88-109 | one more successful field extends the loop's result by that field's value |
| CoreDataProvider.FieldLoopStep | src/test/java/com/antoanetatanasova/dataprovider/item/CoreDataProvider.java:88-109 | after one more successful field the fields set so far are the loop's result and the rest still hold their defaults |
| CoreDataProvider.FillField | src/test/java/com/antoanetatanasova/dataprovider/item/CoreDataProvider.java:99-107 | one field's pass resolves, reads, formats, converts and sets that field only; on a conversion or assignment failure it reports the field's outcome and changes nothing |
| CoreDataProvider.MapRowToObject | src/test/java/com/antoanetatanasova/dataprovider/item/CoreDataProvider.java:75-115 | a fresh Item whose fields are the row's mapping, or that mapping's failure |
| CoreDataProvider.GetDataFromExcel | src/test/java/com/antoanetatanasova/dataprovider/item/CoreDataProvider.java:34-59 | fresh Items equal to the sheet's mapped rows, one per visited row and in order, or the failure of the whole call |
| CoreDataProvider.NoHeaderRowKeepsDefaults | src/test/java/com/antoanetatanasova/dataprovider/item/CoreDataProvider.java:78-80 | without a header row every field keeps its default value |
| CoreDataProvider.UnresolvedFieldKeepsDefault | src/test/java/com/antoanetatanasova/dataprovider/item/CoreDataProvider.java:92-107 | a field none of whose aliases is a header keeps its default |
| CoreDataProvider.ResolvedFieldIsConverted | src/test/java/com/antoanetatanasova/dataprovider/item/CoreDataProvider.java:99-107 | a resolved field gets the conversion of its cell's trimmed, ".0"-stripped text; a failed conversion fails the row; a field of an unknown type gets the text when it can hold a String and fails the row when it cannot |
| CoreDataProvider.EmptyResolvedCellNotSkipped | src/test/java/com/antoanetatanasova/dataprovider/item/CoreDataProvider.java:99-107 | a null or blank resolved cell gives a String field "" and a boolean field false, and fails an int, long or double field |
| CoreDataProvider.MapSheetOnePerRow | src/test/java/com/antoanetatanasova/dataprovider/item/CoreDataProvider.java:40-50 | no sheet gives no records; otherwise the call succeeds exactly when every visited row maps, with one record per such row in row order |
| CoreDataProvider.MapSheetFailsOnlyForARow | src/test/java/com/antoanetatanasova/dataprovider/item/CoreDataProvider.java:44-50 | a failed call is the failure of some visited row |
| CoreDataProvider.HeaderOnlySheetHasNoRecords | src/test/java/com/antoanetatanasova/dataprovider/item/CoreDataProvider.java:42-44 | a sheet holding only its header row yields no records and no error |
| CoreDataProvider.ZeroWidthAliasWins | src/test/java/com/antoanetatanasova/dto/Item.java:6-19 | with both spellings of a field's name among the headers, the U+200B-suffixed column is used |
| CoreDataProvider.EitherAliasAloneResolves | src/test/java/com/antoanetatanasova/dataprovider/item/CoreDataProvider.java:94-97 | when only one spelling of a field's name is a header, that spelling's column is used |
| CoreDataProvider.QuantityCells | src/test/java/com/antoanetatanasova/dto/Item.java:10-11 | a quantity cell rendered "10.0" converts to 10, while "2.5" and "abc" fail |
| CoreDataProvider.BoltHeaderIndex | src/test/java/com/antoanetatanasova/dataprovider/item/CoreDataProvider.java:82-86 | the headers "Item Name", "Unit Price" and "Quantity" map to columns 0, 1 and 2 |
| CoreDataProvider.BoltRow | src/test/java/com/antoanetatanasova/dataprovider/item/CoreDataProvider.java:75-115 | the row ["Bolt", 2.0, 10.0] under those headers gives name "Bolt", unit price 2.0, quantity 10 and the other fields null |
| CoreDataProvider.BoltSheet | src/test/java/com/antoanetatanasova/dataprovider/item/CoreDataProvider.java:34-59 | the sheet holding that header and that row maps to exactly that one record |
| CustomerDto.RenderCustomer | src/test/java/com/antoanetatanasova/dto/Customer.java:41-48 | toString's text has a fixed prefix, the two separators and a fixed suffix, each field's text (or "null") at its offset between them, and 38 more chars than the three fields |
| CustomerDto.RenderEmptyCustomer | src/test/java/com/antoanetatanasova/dto/Customer.java:41-48 | a customer with nothing set renders as Customer{name='null', address='null', city='null'} |
| CustomerDto.Customer.constructor | src/test/java/com/antoanetatanasova/dto/Customer.java:8-9 | the no-argument constructor leaves name, address and city null |
| CustomerDto.Customer.Create | src/test/java/com/antoanetatanasova/dto/Customer.java:11-15 | the three-argument constructor sets name, address and city to its arguments in that order |
| CustomerDto.Customer.GetName | src/test/java/com/antoanetatanasova/dto/Customer.java:17-19 | returns the name field |
| CustomerDto.Customer.SetName | src/test/java/com/antoanetatanasova/dto/Customer.java:21-23 | sets the name and leaves address and city unchanged |
| CustomerDto.Customer.GetAddress | src/test/java/com/antoanetatanasova/dto/Customer.java:25-27 | returns the address field |
| CustomerDto.Customer.SetAddress | src/test/java/com/antoanetatanasova/dto/Customer.java:29-31 | sets the address and leaves name and city unchanged |
| CustomerDto.Customer.GetCity | src/test/java/com/antoanetatanasova/dto/Customer.java:33-35 | returns the city field |
| CustomerDto.Customer.SetCity | src/test/java/com/antoanetatanasova/dto/Customer.java:37-39 | sets the city and leaves name and address unchanged |
| CustomerDto.Customer.ToString | src/test/java/com/antoanetatanasova/dto/Customer.java:41-48 | toString is the rendering of the customer's current fields |
| CustomerDto.SetThenGet | src/test/java/com/antoanetatanasova/dto/Customer.java:17-39 | each getter returns what its setter stored last, whatever was set on the other fields since |
| BaseDataProvider.IsCellEmpty | src/test/java/com/antoanetatanasova/dataprovider/customer/BaseDataProvider.java:27-37 | null and blank cells are empty; a string cell is empty exactly when all its chars are at or below U+0020; other cells never are; an empty cell reads as "" |
| BaseDataProvider.GetColumnTitle | src/test/java/com/antoanetatanasova/dataprovider/customer/BaseDataProvider.java:50-53 | the title comes from row 0. It is "" when that row or its cell is missing or the cell is blank, and the trimmed text of a string cell. It fails, naming the column, exactly when the cell there is a non-string, non-blank cell |
| BaseDataProvider.GetColumnTitleIgnoresFirstRowNum | src/test/java/com/antoanetatanasova/dataprovider/customer/BaseDataProvider.java:50-53 | the title does not depend on the sheet's first row number |
| BaseDataProvider.TitleField | src/test/java/com/antoanetatanasova/dataprovider/customer/BaseDataProvider.java:104-123 | a title selects a field only if it is that field's clean title or the clean title followed by U+200B |
| BaseDataProvider.TitleFieldSelectsBothSpellings | src/test/java/com/antoanetatanasova/dataprovider/customer/BaseDataProvider.java:104-119 | both spellings of every field's title select that field |
| BaseDataProvider.TitleFieldIsExact | src/test/java/com/antoanetatanasova/dataprovider/customer/BaseDataProvider.java:104-123 | titles compare exactly: another case, a trailing space or "" selects nothing |
| BaseDataProvider.Assign | src/test/java/com/antoanetatanasova/dataprovider/customer/BaseDataProvider.java:101-125 | a null or empty value or an unknown title changes nothing; otherwise the selected field becomes the formatted value and no other field changes |
| BaseDataProvider.DotZeroSetsEmptyText | src/test/java/com/antoanetatanasova/dataprovider/customer/BaseDataProvider.java:101-103 | emptiness is checked before formatting, so ".0" passes and sets the field to "" |
| BaseDataProvider.SetCellValue | src/test/java/com/antoanetatanasova/dataprovider/customer/BaseDataProvider.java:101-125 | the customer's new fields are the assignment of the value under the title to its old fields |
| CustomerExcelDataProvider.CustomerFromCellsErrorSticks | src/test/java/com/antoanetatanasova/dataprovider/customer/CustomerExcelDataProvider.java:55-61 | once a title fails, the row fails with that error |
| CustomerExcelDataProvider.CellStepOnField | src/test/java/com/antoanetatanasova/dataprovider/customer/CustomerExcelDataProvider.java:55-61 | a column that feeds a field sets it to the formatted cell text; any other column leaves that field alone |
| CustomerExcelDataProvider.RightmostNonEmptyWins | src/test/java/com/antoanetatanasova/dataprovider/customer/CustomerExcelDataProvider.java:55-61 | a field holds the formatted text of the rightmost non-empty cell whose title selects it; a later such column overwrites an earlier one |
| CustomerExcelDataProvider.UnfedFieldStaysNull | src/test/java/com/antoanetatanasova/dataprovider/customer/CustomerExcelDataProvider.java:55-61 | a field that no non-empty cell's title selects stays null |
| CustomerExcelDataProvider.EmptyRowYieldsNoFields | src/test/java/com/antoanetatanasova/dataprovider/customer/CustomerExcelDataProvider.java:51-64 | a row whose cells are all empty yields a customer with all three fields null |
| CustomerExcelDataProvider.TitleFailureIff | src/test/java/com/antoanetatanasova/dataprovider/customer/CustomerExcelDataProvider.java:55-61 | a row fails exactly when a non-empty cell sits under a non-string title cell; the error names the leftmost such column |
| CustomerExcelDataProvider.CreateItemFromRow | src/test/java/com/antoanetatanasova/dataprovider/customer/CustomerExcelDataProvider.java:51-64 | a fresh Customer whose fields are the row's mapping over columns 0 .. getLastCellNum() - 1, or that mapping's failure |
| CustomerExcelDataProvider.ProcessItemSheet | src/test/java/com/antoanetatanasova/dataprovider/customer/CustomerExcelDataProvider.java:37-49 | the given records are kept, followed by one fresh Customer per visited row in row order; or the failure of the row loop |
| CustomerExcelDataProvider.GetData | src/test/java/com/antoanetatanasova/dataprovider/customer/CustomerExcelDataProvider.java:22-35 | no sheet gives no customers; otherwise fresh Customers equal to the sheet's mapped rows, or the failure |
| CustomerExcelDataProvider.CustomersOnePerRow | src/test/java/com/antoanetatanasova/dataprovider/customer/CustomerExcelDataProvider.java:37-49 | the call succeeds exactly when every visited row maps, with one customer per such row in row order |
| CustomerExcelDataProvider.JaneDoeRow | src/test/java/com/antoanetatanasova/dataprovider/customer/CustomerExcelDataProvider.java:22-64 | titles "Customer Name", "Address" and "City" over the row "Jane Doe", "1 Main St", "Springfield" give exactly that one customer |

## Left out

- Opening the file, `XSSFWorkbook`, try-with-resources closing, the IOException catch and the
  `System.err` logging are not modelled. The providers start from the sheet that `getSheet` returned.
- `getSheet("Sheet1")` is left out, including its case-insensitive name match; the sheet or its absence
  is an input.
- `Cell.toString`'s rendering of numbers, dates and formulas is left out; a non-string cell carries its
  rendering as data.
- BaseDataProvider.GetColumnTitle: a title cell holding a formula whose cached result is a string is
  modelled as a failure (`NotAStringCell`). POI's `getStringCellValue` returns the cached text there, so
  Java would use it as the title. The cell model does not distinguish a formula's cached result type.
- `Row.getLastCellNum()` is the length of the row's cell sequence. A row with no cells, for which POI
  returns -1, is modelled as 0: both give an empty loop.
- Reflection is replaced by the explicit field table: `newInstance`, `getDeclaredFields` order,
  `setAccessible` and boxed field types.
- CoreDataProvider.MapRowToObject: the generic method serves any record class. The imperative method is
  written for `Item`, its only user; the value-level `MapRow` and its lemmas cover any field table. A
  field of a type `convertToFieldType` does not know is described only by whether it can hold a String;
  the exact initial value of one that cannot (`0`, `'\0'` or null) is the single value `OtherInitial`.
- CoreDataProvider.MapRowToObject: the RuntimeException's message text (the class name) is not modelled.
  The error value carries the failing field and text instead.
- JavaLang.ParseDouble: only plain decimal literals are modelled: an optional sign, ASCII digits and at
  most one '.'. Exponents, "NaN", "Infinity", hexadecimal forms, the 'd'/'f' suffixes, leading or
  trailing whitespace, binary rounding and -0.0 are not. Values are exact reals.
- JavaLang.ParseInt: non-ASCII Unicode digits, which `Integer.parseInt` also accepts, are not modelled.
  The same holds for JavaLang.ParseLong.
- JavaLang.ParseBoolean: case-insensitive matching is modelled for ASCII letters only, which are the only
  chars that fold onto "true".
- `setCellValue`'s null check on the value has no model-level case: `createItemFromRow` always passes a
  non-null string. `Assign` takes an optional value so that the check is still stated.
- `Item.toString` renders a double and is not modelled.
- `ConfigReader`, the TestNG `@DataProvider` wiring and tests, and the `_example` providers are not part
  of this model. `ExcelColumn` has no behaviour of its own; it is represented by the alias lists of the
  field table.
