/**
 * getCellStringValue and formatValue, which CoreDataProvider and BaseDataProvider
 * each declare with the same body: the trimmed rendering of a cell, and the removal
 * of the ".0" a numeric cell's rendering ends with.
 */
module CellFormat {
  import opened Wrappers
  import opened JavaLang
  import opened Spreadsheet

  /** getCellStringValue: "" for a null cell, otherwise the trimmed toString rendering. */
  function GetCellStringValue(cell: Option<Cell>): (s: string)
    ensures cell.None? ==> s == ""
    ensures cell.Some? ==> s == Trim(CellToString(cell.value))
    ensures IsTrimmed(s)
  {
    if cell.Some? then Trim(CellToString(cell.value)) else ""
  }

  /** The regex \d*\.0 matched against the whole string: ASCII digits, then ".0". */
  predicate MatchesDigitsDotZero(s: string) {
    |s| >= 2 && s[|s| - 2] == '.' && s[|s| - 1] == '0' && AllDigits(s[..|s| - 2])
  }

  /**
   * formatValue: when the whole string is digits followed by ".0", keep what precedes the
   * first '.'. That drops exactly the ".0" ("123.0" to "123", ".0" to "") and returns every
   * other string ("1.00", "2.5", "abc") unchanged.
   */
  function FormatValue(value: string): (r: string)
    ensures MatchesDigitsDotZero(value) ==> r == value[..|value| - 2] && AllDigits(r)
    ensures !MatchesDigitsDotZero(value) ==> r == value
  {
    if MatchesDigitsDotZero(value) then
      assert forall k :: 0 <= k < |value| - 2 ==> value[k] == value[..|value| - 2][k];
      assert IndexOf(value, '.') == |value| - 2;
      var dotIndex := IndexOf(value, '.');
      if dotIndex != -1 then value[..dotIndex] else value
    else value
  }

  /** formatValue is idempotent: a stripped result is all digits, so it has no ".0" left to match. */
  lemma FormatValueIdempotent(s: string)
    ensures FormatValue(FormatValue(s)) == FormatValue(s)
  {
    var r := FormatValue(s);
    if MatchesDigitsDotZero(s) {
      assert !IsAsciiDigit('.');
      assert !MatchesDigitsDotZero(r) by {
        if |r| >= 2 { assert r[|r| - 2] != '.'; }
      }
    }
  }

  /** Concrete cases of the rule. */
  lemma FormatValueExamples()
    ensures FormatValue("123.0") == "123"
    ensures FormatValue(".0") == ""
    ensures FormatValue("1.00") == "1.00"
    ensures FormatValue("2.5") == "2.5"
    ensures FormatValue("-1.0") == "-1.0"
  {
    assert !IsAsciiDigit('-');
    assert !MatchesDigitsDotZero("-1.0") by { assert "-1.0"[..2][0] == '-'; }
  }

  /** A cell rendered as ASCII digits followed by ".0" reads as those digits. */
  lemma DigitsDotZeroReadsAsDigits(d: string)
    requires |d| > 0 && AllDigits(d)
    ensures FormatValue(GetCellStringValue(Some(Other(d + ".0")))) == d
  {
    var s := d + ".0";
    assert s[0] == d[0] && s[|s| - 1] == '0';
    assert Trim(s) == s by {
      TrimOfPadded([], s, []);
      assert [] + s + [] == s;
    }
    assert s[..|s| - 2] == d;
  }

  /** A numeric cell whose rendering is n followed by ".0" reads as the digits of n. */
  lemma NumericCellReadsAsInteger(n: nat)
    ensures FormatValue(GetCellStringValue(Some(Other(NatToDigits(n) + ".0")))) == NatToDigits(n)
  {
    DigitsDotZeroReadsAsDigits(NatToDigits(n));
  }

  /** A text with no padding that does not end in '0' reads back unchanged, and formatting keeps it. */
  lemma PlainText(t: string)
    requires |t| > 0 && t[0] > ' ' && t[|t| - 1] > ' ' && t[|t| - 1] != '0'
    ensures Trim(t) == t && FormatValue(t) == t
  {
    TrimOfPadded([], t, []);
    assert [] + t + [] == t;
  }
}
