/**
 * The generic alias-driven mapper: a header map built from the sheet's first row,
 * the first declared alias present in it choosing each field's column, the cell's
 * trimmed and ".0"-stripped text converted to the field's type, and one record per
 * non-null data row, or a failure for the whole call.
 */
module CoreDataProvider {
  import opened Wrappers
  import opened JavaLang
  import opened Spreadsheet
  import opened CellFormat
  import opened Schema
  import opened ItemDto

  /**
   * The RuntimeException mapRowToObject throws, with the field and the cell text that caused
   * it: a NumberFormatException from a numeric parse, or the IllegalArgumentException of
   * field.set when the converted String cannot be stored in the field.
   */
  datatype MapError =
    | ConversionFailed(field: string, text: string)
    | AssignmentFailed(field: string, text: string)

  // ---------------------------------------------------------------- header map

  /** The key the header map gives column `col`: the cell's trimmed rendering, "" for a null cell. */
  function HeaderText(header: Row, col: nat): string {
    GetCellStringValue(GetCell(header, col))
  }

  /** A map after put(keys[i], i) for i = 0, 1, .. in turn. */
  function IndexKeys(keys: seq<string>): map<string, nat>
    decreases |keys|
  {
    if keys == [] then map[] else IndexKeys(keys[..|keys| - 1])[keys[|keys| - 1] := |keys| - 1]
  }

  /**
   * Every key is present, nothing else is, and each maps to its rightmost position:
   * with duplicated header text, the last column wins.
   */
  lemma {:induction false} IndexKeysRightmost(keys: seq<string>)
    ensures forall j :: 0 <= j < |keys| ==> keys[j] in IndexKeys(keys)
    ensures forall t :: t in IndexKeys(keys) ==> IndexKeys(keys)[t] < |keys| && keys[IndexKeys(keys)[t]] == t
    ensures forall t, j :: t in IndexKeys(keys) && IndexKeys(keys)[t] < j < |keys| ==> keys[j] != t
    decreases |keys|
  {
    if keys != [] {
      var n := |keys| - 1;
      var init := keys[..n];
      IndexKeysRightmost(init);
      var prev := IndexKeys(init);
      var m := IndexKeys(keys);
      assert m == prev[keys[n] := n];
      forall j | 0 <= j < |keys| ensures keys[j] in m {
        if j < n { assert init[j] == keys[j]; }
      }
      forall t | t in m ensures m[t] < |keys| && keys[m[t]] == t {
        if t != keys[n] { assert init[prev[t]] == keys[prev[t]]; }
      }
      forall t, j | t in m && m[t] < j < |keys| ensures keys[j] != t {
        if t != keys[n] && j < n { assert init[j] == keys[j]; }
      }
    }
  }

  /** The header texts of columns 0 .. n - 1. */
  function HeaderTexts(header: Row, n: nat): (keys: seq<string>)
    ensures |keys| == n && forall j :: 0 <= j < n ==> keys[j] == HeaderText(header, j)
  {
    seq(n, j requires 0 <= j < n => HeaderText(header, j))
  }

  /** headerIndexMap after the forEach over columns 0 .. n - 1: put(text, column) in turn. */
  function HeaderIndex(header: Row, n: nat): map<string, nat> {
    IndexKeys(HeaderTexts(header, n))
  }

  /**
   * Every column's text is a key, "" included, and nothing else is; each key maps to
   * the rightmost column carrying that text.
   */
  lemma HeaderIndexRightmost(header: Row, n: nat)
    ensures forall j :: 0 <= j < n ==> HeaderText(header, j) in HeaderIndex(header, n)
    ensures forall t :: t in HeaderIndex(header, n) ==>
      HeaderIndex(header, n)[t] < n && HeaderText(header, HeaderIndex(header, n)[t]) == t
    ensures forall t, j :: t in HeaderIndex(header, n) && HeaderIndex(header, n)[t] < j < n ==>
      HeaderText(header, j) != t
  {
    IndexKeysRightmost(HeaderTexts(header, n));
  }

  /** The forEach that fills headerIndexMap. */
  method BuildHeaderIndex(header: Row) returns (index: map<string, nat>)
    ensures index == HeaderIndex(header, LastCellNum(header))
  {
    index := map[];
    var i := 0;
    while i < LastCellNum(header)
      invariant 0 <= i <= LastCellNum(header)
      invariant index == HeaderIndex(header, i)
    {
      var text := GetCellStringValue(GetCell(header, i));
      assert HeaderTexts(header, i + 1)[..i] == HeaderTexts(header, i);
      index := index[text := i];
      i := i + 1;
    }
  }

  // ---------------------------------------------------------------- alias resolution

  /** The column of the first alias, in declared order, that the header map holds. */
  function FirstAliasColumn(index: map<string, nat>, names: seq<string>): (col: Option<nat>)
    ensures col.None? <==> forall k :: 0 <= k < |names| ==> names[k] !in index
    ensures forall k :: 0 <= k < |names| && names[k] in index && (forall l :: 0 <= l < k ==> names[l] !in index) ==>
      col == Some(index[names[k]])
    decreases |names|
  {
    if names == [] then None
    else if names[0] in index then Some(index[names[0]])
    else FirstAliasColumn(index, names[1..])
  }

  /** The loop over annotation.names() that stops at the first non-null headerIndexMap.get. */
  method ResolveColumn(index: map<string, nat>, names: seq<string>) returns (cellIndex: Option<nat>)
    ensures cellIndex == FirstAliasColumn(index, names)
  {
    cellIndex := None;
    var k := 0;
    while k < |names|
      invariant 0 <= k <= |names|
      invariant forall l :: 0 <= l < k ==> names[l] !in index
      invariant cellIndex == None
    {
      if names[k] in index {
        cellIndex := Some(index[names[k]]);
        break;
      }
      k := k + 1;
    }
  }

  // ---------------------------------------------------------------- conversion

  /**
   * convertToFieldType: None stands for the NumberFormatException of a numeric parse. A type
   * it does not know gets the text itself back.
   */
  function ConvertToFieldType(t: FieldType, value: string): (r: Option<Value>)
    ensures r.Some? && !t.OtherType? ==> HasType(r.value, t)
    ensures t == StringType || t.OtherType? ==> r == Some(StrVal(Some(value)))
    ensures t == BooleanType ==> r == Some(BoolVal(ParseBoolean(value)))
    ensures t == IntType ==> (r.Some? <==> ParseInt(value).Some?)
    ensures t == IntType && r.Some? ==> r.value == IntVal(ParseInt(value).value)
    ensures t == LongType ==> (r.Some? <==> ParseLong(value).Some?)
    ensures t == LongType && r.Some? ==> r.value == LongVal(ParseLong(value).value)
    ensures t == DoubleType ==> (r.Some? <==> ParseDouble(value).Some?)
    ensures t == DoubleType && r.Some? ==> r.value == DoubleVal(ParseDouble(value).value)
  {
    match t
    case StringType => Some(StrVal(Some(value)))
    case IntType => (match ParseInt(value) case Some(n) => Some(IntVal(n)) case None => None)
    case DoubleType => (match ParseDouble(value) case Some(x) => Some(DoubleVal(x)) case None => None)
    case BooleanType => Some(BoolVal(ParseBoolean(value)))
    case LongType => (match ParseLong(value) case Some(n) => Some(LongVal(n)) case None => None)
    case OtherType(_) => Some(StrVal(Some(value)))
  }

  /**
   * The numeric field types agree: a text an int field accepts, a long and a double field
   * accept too, with the same number; a text a long field accepts, a double field accepts.
   */
  lemma NumericConversionsAgree(value: string)
    ensures ConvertToFieldType(IntType, value).Some? ==>
      ConvertToFieldType(LongType, value) == Some(LongVal(ConvertToFieldType(IntType, value).value.intValue))
    ensures ConvertToFieldType(LongType, value).Some? ==>
      ConvertToFieldType(DoubleType, value) == Some(DoubleVal(ConvertToFieldType(LongType, value).value.longValue as real))
  {
  }

  /** A long field converts the rendering of every long back to it, and refuses "2.5" and "". */
  lemma ConvertLongField(n: Int64)
    ensures ConvertToFieldType(LongType, IntegerToString(n)) == Some(LongVal(n))
    ensures ConvertToFieldType(LongType, "2.5") == None
    ensures ConvertToFieldType(LongType, "") == None
  {
    ParseLongOfRendering(n);
    assert !AllDigits("2.5") by { assert !IsAsciiDigit("2.5"[1]); }
  }

  /** An int field converts the rendering of every non-negative int back to it, and refuses "2.5" and "abc". */
  lemma ConvertIntField(n: Int32)
    requires n >= 0
    ensures ConvertToFieldType(IntType, NatToDigits(n)) == Some(IntVal(n))
    ensures ConvertToFieldType(IntType, "2.5") == None
    ensures ConvertToFieldType(IntType, "abc") == None
    ensures ConvertToFieldType(IntType, "") == None
  {
    ParseIntOfRendering(n);
    assert !AllDigits("2.5") by { assert !IsAsciiDigit("2.5"[1]); }
    assert !AllDigits("abc") by { assert !IsAsciiDigit("abc"[0]); }
  }

  /** A boolean field never fails: true exactly for "true" in any case, false for "", "yes" or "1". */
  lemma ConvertBooleanField()
    ensures ConvertToFieldType(BooleanType, "TRUE") == Some(BoolVal(true))
    ensures ConvertToFieldType(BooleanType, "") == Some(BoolVal(false))
    ensures ConvertToFieldType(BooleanType, "yes") == Some(BoolVal(false))
    ensures ConvertToFieldType(BooleanType, "1") == Some(BoolVal(false))
  {
    ParseBooleanExamples();
  }

  // ---------------------------------------------------------------- one row

  /** The text a resolved column yields: getCellStringValue, then formatValue. */
  function ResolvedText(row: Row, col: nat): string {
    FormatValue(GetCellStringValue(GetCell(row, col)))
  }

  /** What mapRowToObject does for one annotated field. */
  function FieldOutcome(decl: FieldDecl, index: map<string, nat>, row: Row): (r: Result<Value, MapError>)
    ensures r.Ok? ==> HasType(r.value, decl.ftype)
  {
    match FirstAliasColumn(index, decl.aliases)
    case None => Ok(DefaultOf(decl.ftype))
    case Some(col) =>
      var text := ResolvedText(row, col);
      match ConvertToFieldType(decl.ftype, text)
      case None => Err(ConversionFailed(decl.name, text))
      case Some(v) => if HasType(v, decl.ftype) then Ok(v) else Err(AssignmentFailed(decl.name, text))
  }

  /** A loop over `xs` in order that applies `f` to each and stops at the first failure. */
  function MapInOrder<A, T, E>(xs: seq<A>, f: A -> Result<T, E>): (r: Result<seq<T>, E>)
    ensures r.Ok? <==> forall i :: 0 <= i < |xs| ==> f(xs[i]).Ok?
    ensures r.Ok? ==> |r.value| == |xs| && forall i :: 0 <= i < |xs| ==> f(xs[i]) == Ok(r.value[i])
    decreases |xs|
  {
    if xs == [] then Ok([])
    else
      var n := |xs| - 1;
      match MapInOrder(xs[..n], f)
      case Err(e) => Err(e)
      case Ok(done) =>
        match f(xs[n])
        case Err(e) => Err(e)
        case Ok(v) => Ok(done + [v])
  }

  /** Fail-fast: the error reported is that of the first element, in order, that fails. */
  lemma {:induction false} MapInOrderFirstError<A, T, E>(xs: seq<A>, f: A -> Result<T, E>, k: nat)
    requires k < |xs| && MapInOrder(xs[..k], f).Ok? && f(xs[k]).Err?
    ensures MapInOrder(xs, f) == Err(f(xs[k]).error)
    decreases |xs|
  {
    var n := |xs| - 1;
    if k < n {
      assert xs[..n][..k] == xs[..k];
      MapInOrderFirstError(xs[..n], f, k);
    } else {
      assert xs[..n] == xs[..k];
    }
  }

  /** One more successful step of the loop extends its result by that step's value. */
  lemma MapInOrderStep<A, T, E>(xs: seq<A>, f: A -> Result<T, E>, k: nat, done: seq<T>, v: T)
    requires k < |xs| && MapInOrder(xs[..k], f) == Ok(done) && f(xs[k]) == Ok(v)
    ensures MapInOrder(xs[..k + 1], f) == Ok(done + [v])
  {
    assert xs[..k + 1][..k] == xs[..k];
  }

  /** The per-field step of mapRowToObject's loop over the annotated fields. */
  function FieldMapper(index: map<string, nat>, row: Row): FieldDecl -> Result<Value, MapError> {
    decl => FieldOutcome(decl, index, row)
  }

  /** mapRowToObject on values: the default instance without a header row, else the mapped fields. */
  function MapRow(schema: seq<FieldDecl>, sheet: Sheet, row: Row): Result<seq<Value>, MapError> {
    match GetRow(sheet, sheet.firstRowNum)
    case None => Ok(Defaults(schema))
    case Some(header) => MapInOrder(schema, FieldMapper(HeaderIndex(header, LastCellNum(header)), row))
  }

  /** The per-row mapping getDataFromExcel applies to every data row of `sheet`. */
  function RowMapper(schema: seq<FieldDecl>, sheet: Sheet): Row -> Result<seq<Value>, MapError> {
    row => MapRow(schema, sheet, row)
  }

  /** getDataFromExcel on values: no records without the sheet, else the loop over rows 1 .. last - first. */
  function MapSheet(schema: seq<FieldDecl>, sheet: Option<Sheet>): Result<seq<seq<Value>>, MapError> {
    match sheet
    case None => Ok([])
    case Some(s) => MapDataRows(s, RowMapper(schema, s), RowCount(s))
  }

  // ---------------------------------------------------------------- the imperative mapper

  /**
   * One pass of mapRowToObject's field loop on the f-th declared field of Item: resolve
   * its column, read and format the cell, convert, and set the field.
   */
  method FillField(instance: Item, f: nat, headerIndexMap: map<string, nat>, row: Row) returns (failure: Option<MapError>)
    requires f < |ItemSchema| && instance.Values()[f] == DefaultOf(ItemSchema[f].ftype)
    modifies instance
    ensures failure.Some? ==> FieldOutcome(ItemSchema[f], headerIndexMap, row) == Err(failure.value)
    ensures failure.Some? ==> instance.Values() == old(instance.Values())
    ensures failure.None? ==> FieldOutcome(ItemSchema[f], headerIndexMap, row) == Ok(instance.Values()[f])
    ensures instance.Values() == old(instance.Values())[f := instance.Values()[f]]
  {
    failure := None;
    var decl := ItemSchema[f];
    var cellIndex := ResolveColumn(headerIndexMap, decl.aliases);
    if cellIndex.Some? {
      var cellValue := GetCellStringValue(GetCell(row, cellIndex.value));
      cellValue := FormatValue(cellValue);
      var value := ConvertToFieldType(decl.ftype, cellValue);
      if value.None? {
        return Some(ConversionFailed(decl.name, cellValue));
      }
      if !HasType(value.value, decl.ftype) {
        return Some(AssignmentFailed(decl.name, cellValue));
      }
      instance.SetField(f, value.value);
    }
  }

  /** One successful pass of the field loop keeps both of its invariants, one field further on. */
  lemma FieldLoopStep(step: FieldDecl -> Result<Value, MapError>, f: nat, before: seq<Value>, v: Value)
    requires f < |ItemSchema| == |before|
    requires MapInOrder(ItemSchema[..f], step) == Ok(before[..f])
    requires before[f..] == Defaults(ItemSchema)[f..]
    requires step(ItemSchema[f]) == Ok(v)
    ensures MapInOrder(ItemSchema[..f + 1], step) == Ok(before[f := v][..f + 1])
    ensures before[f := v][f + 1..] == Defaults(ItemSchema)[f + 1..]
  {
    MapInOrderStep(ItemSchema, step, f, before[..f], v);
    assert before[f := v][..f + 1] == before[..f] + [v];
    assert before[f := v][f + 1..] == before[f..][1..];
    assert Defaults(ItemSchema)[f + 1..] == Defaults(ItemSchema)[f..][1..];
  }

  /** mapRowToObject for Item: a fresh instance whose fields are set one by one. */
  method MapRowToObject(sheet: Sheet, row: Row) returns (r: Result<Item, MapError>)
    ensures r.Ok? ==> fresh(r.value) && MapRow(ItemSchema, sheet, row) == Ok(r.value.Values())
    ensures r.Err? ==> MapRow(ItemSchema, sheet, row) == Err(r.error)
  {
    var instance := new Item();
    var headerRow := GetRow(sheet, sheet.firstRowNum);
    if headerRow.None? {
      return Ok(instance);
    }
    var headerIndexMap := BuildHeaderIndex(headerRow.value);
    ghost var step := FieldMapper(headerIndexMap, row);
    var f := 0;
    while f < |ItemSchema|
      invariant 0 <= f <= |ItemSchema|
      invariant MapInOrder(ItemSchema[..f], step) == Ok(instance.Values()[..f])
      invariant instance.Values()[f..] == Defaults(ItemSchema)[f..]
    {
      ghost var before := instance.Values();
      assert before[f] == before[f..][0];
      var failure := FillField(instance, f, headerIndexMap, row);
      if failure.Some? {
        MapInOrderFirstError(ItemSchema, step, f);
        return Err(failure.value);
      }
      FieldLoopStep(step, f, before, instance.Values()[f]);
      f := f + 1;
    }
    assert ItemSchema[..f] == ItemSchema;
    assert instance.Values()[..f] == instance.Values();
    assert MapRow(ItemSchema, sheet, row) == MapInOrder(ItemSchema, step);
    return Ok(instance);
  }

  /** getDataFromExcel, given what workbook.getSheet("Sheet1") returned. */
  method GetDataFromExcel(sheet: Option<Sheet>) returns (r: Result<seq<Item>, MapError>)
    ensures r.Ok? ==> MapSheet(ItemSchema, sheet).Ok? && |r.value| == |MapSheet(ItemSchema, sheet).value|
    ensures r.Ok? ==> forall k :: 0 <= k < |r.value| ==>
      fresh(r.value[k]) && r.value[k].Values() == MapSheet(ItemSchema, sheet).value[k]
    ensures r.Err? ==> MapSheet(ItemSchema, sheet) == Err(r.error)
  {
    var records: seq<Item> := [];
    if sheet.Some? {
      var s := sheet.value;
      var rowCount := RowCount(s);
      ghost var mapper := RowMapper(ItemSchema, s);
      ghost var done: seq<seq<Value>> := [];
      var i := 1;
      while i <= rowCount
        invariant 1 <= i <= if rowCount < 1 then 1 else rowCount + 1
        invariant MapDataRows(s, mapper, i - 1) == Ok(done)
        invariant |records| == |done|
        invariant forall k :: 0 <= k < |records| ==> fresh(records[k]) && records[k].Values() == done[k]
      {
        var row := GetRow(s, i);
        if row.Some? {
          var obj := MapRowToObject(s, row.value);
          if obj.Err? {
            assert MapDataRows(s, mapper, i) == Err(obj.error);
            MapDataRowsErrorSticks(s, mapper, i, rowCount);
            return Err(obj.error);
          }
          records := records + [obj.value];
          done := done + [obj.value.Values()];
        }
        i := i + 1;
      }
      if rowCount < 1 {
        assert MapDataRows(s, mapper, rowCount) == Ok([]) == MapDataRows(s, mapper, i - 1);
      }
      assert MapSheet(ItemSchema, sheet) == Ok(done);
    }
    return Ok(records);
  }

  // ---------------------------------------------------------------- properties of the mapping

  /** Without a header row every field keeps its default value. */
  lemma NoHeaderRowKeepsDefaults(schema: seq<FieldDecl>, sheet: Sheet, row: Row)
    requires sheet.firstRowNum !in sheet.rows
    ensures MapRow(schema, sheet, row) == Ok(Defaults(schema))
    ensures forall i :: 0 <= i < |schema| ==> MapRow(schema, sheet, row).value[i] == DefaultOf(schema[i].ftype)
  {
  }

  /** A field none of whose aliases is a header keeps its default value. */
  lemma UnresolvedFieldKeepsDefault(schema: seq<FieldDecl>, sheet: Sheet, row: Row, i: nat)
    requires i < |schema| && MapRow(schema, sheet, row).Ok?
    requires sheet.firstRowNum in sheet.rows
    requires forall k :: 0 <= k < |schema[i].aliases| ==>
      schema[i].aliases[k] !in HeaderIndex(sheet.rows[sheet.firstRowNum], LastCellNum(sheet.rows[sheet.firstRowNum]))
    ensures MapRow(schema, sheet, row).value[i] == DefaultOf(schema[i].ftype)
  {
  }

  /**
   * A field whose column resolves to `col` receives the conversion of that cell's trimmed,
   * ".0"-stripped text, and a conversion failure fails the whole row.
   */
  lemma ResolvedFieldIsConverted(schema: seq<FieldDecl>, sheet: Sheet, row: Row, i: nat, col: nat)
    requires i < |schema| && sheet.firstRowNum in sheet.rows
    requires FirstAliasColumn(HeaderIndex(sheet.rows[sheet.firstRowNum], LastCellNum(sheet.rows[sheet.firstRowNum])),
                              schema[i].aliases) == Some(col)
    ensures MapRow(schema, sheet, row).Ok? ==>
      Some(MapRow(schema, sheet, row).value[i]) == ConvertToFieldType(schema[i].ftype, ResolvedText(row, col))
    ensures ConvertToFieldType(schema[i].ftype, ResolvedText(row, col)).None? ==> MapRow(schema, sheet, row).Err?
    ensures schema[i].ftype == OtherType(true) && MapRow(schema, sheet, row).Ok? ==>
      MapRow(schema, sheet, row).value[i] == StrVal(Some(ResolvedText(row, col)))
    ensures schema[i].ftype == OtherType(false) ==> MapRow(schema, sheet, row).Err?
  {
  }

  /**
   * A resolved cell that is null or blank is not skipped: a String field receives "",
   * a boolean field false, and an int, long or double field fails the row.
   */
  lemma EmptyResolvedCellNotSkipped(schema: seq<FieldDecl>, sheet: Sheet, row: Row, i: nat, col: nat)
    requires i < |schema| && sheet.firstRowNum in sheet.rows
    requires FirstAliasColumn(HeaderIndex(sheet.rows[sheet.firstRowNum], LastCellNum(sheet.rows[sheet.firstRowNum])),
                              schema[i].aliases) == Some(col)
    requires GetCell(row, col) == None || GetCell(row, col) == Some(Blank)
    ensures schema[i].ftype == StringType && MapRow(schema, sheet, row).Ok? ==>
      MapRow(schema, sheet, row).value[i] == StrVal(Some(""))
    ensures schema[i].ftype == BooleanType && MapRow(schema, sheet, row).Ok? ==>
      MapRow(schema, sheet, row).value[i] == BoolVal(false)
    ensures schema[i].ftype in {IntType, LongType, DoubleType} ==> MapRow(schema, sheet, row).Err?
  {
    assert ResolvedText(row, col) == "" by {
      TrimOfPadded([], [], []);
    }
    ResolvedFieldIsConverted(schema, sheet, row, i, col);
  }

  /**
   * The whole call: no records without the sheet; otherwise it succeeds exactly when every
   * non-null row at 1 .. last - first maps, giving one record per such row in row order.
   */
  lemma MapSheetOnePerRow(schema: seq<FieldDecl>, sheet: Option<Sheet>)
    ensures sheet.None? ==> MapSheet(schema, sheet) == Ok([])
    ensures sheet.Some? ==>
      (MapSheet(schema, sheet).Ok? <==>
        forall i :: 1 <= i <= RowCount(sheet.value) && i in sheet.value.rows ==>
          MapRow(schema, sheet.value, sheet.value.rows[i]).Ok?)
    ensures sheet.Some? && MapSheet(schema, sheet).Ok? ==>
      var rows := DataRows(sheet.value, RowCount(sheet.value));
      |MapSheet(schema, sheet).value| == |rows| &&
      forall k :: 0 <= k < |rows| ==>
        (rows[k] in sheet.value.rows &&
         MapRow(schema, sheet.value, sheet.value.rows[rows[k]]) == Ok(MapSheet(schema, sheet).value[k]))
  {
    if sheet.Some? {
      var s := sheet.value;
      MapDataRowsOneEach(s, RowMapper(schema, s), RowCount(s));
    }
  }

  /** A failed call is the failure of some data row: no partial list is returned. */
  lemma MapSheetFailsOnlyForARow(schema: seq<FieldDecl>, sheet: Option<Sheet>)
    requires MapSheet(schema, sheet).Err?
    ensures sheet.Some?
    ensures exists i :: 1 <= i <= RowCount(sheet.value) && i in sheet.value.rows &&
                        MapRow(schema, sheet.value, sheet.value.rows[i]) == Err(MapSheet(schema, sheet).error)
  {
    var s := sheet.value;
    MapDataRowsErrorFromARow(s, RowMapper(schema, s), RowCount(s));
  }

  /** A sheet holding only its header row yields no records. */
  lemma HeaderOnlySheetHasNoRecords(schema: seq<FieldDecl>, sheet: Sheet)
    requires sheet.lastRowNum == sheet.firstRowNum
    ensures MapSheet(schema, Some(sheet)) == Ok([])
  {
  }

  // ---------------------------------------------------------------- properties of Item's table

  /** When the header row has both spellings of a field's name, the U+200B-suffixed column wins. */
  lemma ZeroWidthAliasWins(index: map<string, nat>, i: nat)
    requires i < |ItemSchema|
    requires ItemSchema[i].aliases[0] in index && ItemSchema[i].aliases[1] in index
    ensures FirstAliasColumn(index, ItemSchema[i].aliases) == Some(index[ItemSchema[i].aliases[0]])
  {
  }

  /** When only one spelling is present, the field resolves to that column, whichever it is. */
  lemma EitherAliasAloneResolves(index: map<string, nat>, i: nat, k: nat)
    requires i < |ItemSchema| && k < 2
    requires ItemSchema[i].aliases[k] in index && ItemSchema[i].aliases[1 - k] !in index
    ensures FirstAliasColumn(index, ItemSchema[i].aliases) == Some(index[ItemSchema[i].aliases[k]])
  {
  }

  /** A quantity cell rendered "10.0" maps to 10; "2.5" and "abc" fail the row. */
  lemma QuantityCells()
    ensures ConvertToFieldType(ItemSchema[2].ftype, ResolvedText(Row([Some(Other("10.0"))]), 0)) == Some(IntVal(10))
    ensures ConvertToFieldType(ItemSchema[2].ftype, ResolvedText(Row([Some(Other("2.5"))]), 0)) == None
    ensures ConvertToFieldType(ItemSchema[2].ftype, ResolvedText(Row([Some(Str("abc"))]), 0)) == None
  {
    assert ItemSchema[2].ftype == IntType;
    assert NatToDigits(10) == "10" by {
      assert NatToDigits(1) == "1";
      assert DigitChar(0) == '0';
    }
    NumericCellReadsAsInteger(10);
    assert ResolvedText(Row([Some(Other("10.0"))]), 0) == "10";
    ConvertIntField(10);
    assert ResolvedText(Row([Some(Other("2.5"))]), 0) == "2.5" by {
      TrimOfPadded([], "2.5", []);
      assert [] + "2.5" + [] == "2.5";
      FormatValueExamples();
    }
    assert ResolvedText(Row([Some(Str("abc"))]), 0) == "abc" by {
      TrimOfPadded([], "abc", []);
      assert [] + "abc" + [] == "abc";
    }
  }

  // ---------------------------------------------------------------- a worked row

  /** The header row of the worked example: three clean titles. */
  const BoltHeader := Row([Some(Str("Item Name")), Some(Str("Unit Price")), Some(Str("Quantity"))])

  /** Its data row: a string cell and two numeric cells rendered "2.0" and "10.0". */
  const BoltData := Row([Some(Str("Bolt")), Some(Other("2.0")), Some(Other("10.0"))])

  /** The header map the worked example should produce. */
  const BoltIndex: map<string, nat> := map["Item Name" := 0, "Unit Price" := 1, "Quantity" := 2]

  /** The field values the worked example should produce, in declared order. */
  const BoltValues: seq<Value> :=
    [StrVal(Some("Bolt")), DoubleVal(2.0), IntVal(10), StrVal(None), StrVal(None), StrVal(None), StrVal(None)]

  /** The header map of the worked example: each title to its column. */
  lemma BoltHeaderIndex()
    ensures HeaderIndex(BoltHeader, 3) == BoltIndex
  {
    PlainText("Item Name");
    PlainText("Unit Price");
    PlainText("Quantity");
    var keys := HeaderTexts(BoltHeader, 3);
    assert keys == ["Item Name", "Unit Price", "Quantity"];
    var k1: seq<string> := ["Item Name"];
    var k2: seq<string> := ["Item Name", "Unit Price"];
    assert k1[..0] == [] && k2[..1] == k1 && keys[..2] == k2;
    assert IndexKeys(k1) == map["Item Name" := 0];
    assert IndexKeys(k2) == map["Item Name" := 0, "Unit Price" := 1];
  }

  /** The decimal renderings of 2 and 10. */
  lemma SmallRenderings()
    ensures NatToDigits(2) == "2" && NatToDigits(10) == "10"
  {
    assert NatToDigits(1) == "1";
    assert DigitChar(0) == '0';
  }

  /** The name column yields "Bolt". */
  lemma BoltNameText()
    ensures ResolvedText(BoltData, 0) == "Bolt"
  {
    PlainText("Bolt");
  }

  /** The numeric cells yield "2" and "10" once their ".0" is stripped. */
  lemma BoltNumberTexts()
    ensures ResolvedText(BoltData, 1) == "2" && ResolvedText(BoltData, 2) == "10"
  {
    SmallRenderings();
    NumericCellReadsAsInteger(2);
    NumericCellReadsAsInteger(10);
    assert "2" + ".0" == "2.0" && "10" + ".0" == "10.0";
    assert GetCell(BoltData, 1) == Some(Other(NatToDigits(2) + ".0"));
    assert GetCell(BoltData, 2) == Some(Other(NatToDigits(10) + ".0"));
  }

  /** No alias with a trailing zero-width space is a key of the worked example's header map. */
  lemma BoltIndexHasNoZeroWidthKey(i: nat)
    requires i < |ItemSchema|
    ensures ItemSchema[i].aliases[0] !in BoltIndex
  {
    ItemAliasesPairUp();
    var t := ItemSchema[i].aliases[0];
    assert t[|t| - 1] == ZeroWidthSpace;
  }

  /** The unit price converts to 2.0 and the quantity to 10. */
  lemma BoltNumbers()
    ensures ConvertToFieldType(DoubleType, "2") == Some(DoubleVal(2.0))
    ensures ConvertToFieldType(IntType, "10") == Some(IntVal(10))
  {
    assert DigitsValue("2") == 2;
    SmallRenderings();
    ConvertIntField(10);
  }

  /** Each field of the worked example: the clean alias resolves the first three, nothing the rest. */
  lemma BoltField(i: nat)
    requires i < |ItemSchema|
    ensures FieldOutcome(ItemSchema[i], BoltIndex, BoltData) == Ok(BoltValues[i])
  {
    var decl := ItemSchema[i];
    BoltIndexHasNoZeroWidthKey(i);
    if i < 3 {
      assert decl.aliases[1] == ["Item Name", "Unit Price", "Quantity"][i];
      assert FirstAliasColumn(BoltIndex, decl.aliases) == Some(i);
      BoltNameText();
      BoltNumberTexts();
      BoltNumbers();
    } else {
      assert decl.aliases[1] !in BoltIndex;
      assert FirstAliasColumn(BoltIndex, decl.aliases) == None;
    }
  }

  /**
   * Header ["Item Name", "Unit Price", "Quantity"] and row ["Bolt", 2.0, 10.0] give the item
   * named "Bolt" with unit price 2.0 and quantity 10; the four fields without a column stay null.
   */
  lemma BoltRow()
    ensures MapRow(ItemSchema, Sheet(0, 1, map[0 := BoltHeader, 1 := BoltData]), BoltData) == Ok(BoltValues)
  {
    var sheet := Sheet(0, 1, map[0 := BoltHeader, 1 := BoltData]);
    BoltHeaderIndex();
    assert GetRow(sheet, 0) == Some(BoltHeader) && LastCellNum(BoltHeader) == 3;
    var step := FieldMapper(BoltIndex, BoltData);
    forall i | 0 <= i < |ItemSchema| ensures step(ItemSchema[i]) == Ok(BoltValues[i]) {
      BoltField(i);
    }
    var r := MapInOrder(ItemSchema, step);
    assert r.Ok? && |r.value| == |BoltValues|;
    assert r.value == BoltValues;
  }

  /** The whole call on the worked sheet: one record, the one above. */
  lemma BoltSheet()
    ensures MapSheet(ItemSchema, Some(Sheet(0, 1, map[0 := BoltHeader, 1 := BoltData]))) == Ok([BoltValues])
  {
    var sheet := Sheet(0, 1, map[0 := BoltHeader, 1 := BoltData]);
    BoltRow();
    var mapper := RowMapper(ItemSchema, sheet);
    assert 1 in sheet.rows && mapper(sheet.rows[1]) == Ok(BoltValues);
    assert MapDataRows(sheet, mapper, 0) == Ok([]);
    assert MapDataRows(sheet, mapper, 1) == Ok([] + [BoltValues]);
    assert [] + [BoltValues] == [BoltValues];
    assert RowCount(sheet) == 1;
  }
}
