/**
 * The parts of java.lang the data providers rely on: String.trim, String.indexOf,
 * Integer.parseInt, Long.parseLong, Double.parseDouble (plain decimal literals only)
 * and Boolean.parseBoolean.
 */
module JavaLang {
  import opened Wrappers

  /** Java's 32-bit and 64-bit signed integers. */
  type Int32 = x: int | -0x8000_0000 <= x <= 0x7FFF_FFFF
  type Int64 = x: int | -0x8000_0000_0000_0000 <= x <= 0x7FFF_FFFF_FFFF_FFFF

  /** The zero-width space U+200B: above U+0020, so String.trim keeps it. */
  const ZeroWidthSpace: char := '\U{200B}'

  // ---------------------------------------------------------------- String.trim

  /** String.trim removes every char at or below U+0020 (not just what Unicode calls white space). */
  predicate IsTrimSpace(c: char) {
    c <= ' '
  }

  predicate AllTrimSpace(s: string) {
    forall k :: 0 <= k < |s| ==> IsTrimSpace(s[k])
  }

  /** A string that neither starts nor ends with a char trim would remove. */
  predicate IsTrimmed(s: string) {
    s == [] || (!IsTrimSpace(s[0]) && !IsTrimSpace(s[|s| - 1]))
  }

  /** The first loop of String.trim: advance `st` past leading chars <= U+0020. */
  function SkipLeading(s: string, st: nat): (i: nat)
    requires st <= |s|
    ensures st <= i <= |s|
    ensures forall k :: st <= k < i ==> IsTrimSpace(s[k])
    ensures i < |s| ==> !IsTrimSpace(s[i])
    decreases |s| - st
  {
    if st < |s| && IsTrimSpace(s[st]) then SkipLeading(s, st + 1) else st
  }

  /** The second loop of String.trim: pull `len` back past trailing chars <= U+0020, never below `st`. */
  function SkipTrailing(s: string, st: nat, len: nat): (j: nat)
    requires st <= len <= |s|
    ensures st <= j <= len
    ensures forall k :: j <= k < len ==> IsTrimSpace(s[k])
    ensures st < j ==> !IsTrimSpace(s[j - 1])
    decreases len
  {
    if st < len && IsTrimSpace(s[len - 1]) then SkipTrailing(s, st, len - 1) else len
  }

  /** String.trim. */
  function Trim(s: string): (r: string)
    ensures |r| <= |s|
    ensures IsTrimmed(r)
  {
    var st := SkipLeading(s, 0);
    s[st..SkipTrailing(s, st, |s|)]
  }

  /** Trim is characterised by what it keeps: padding of trim-space on both sides around a trimmed core. */
  lemma TrimOfPadded(a: string, m: string, b: string)
    requires AllTrimSpace(a) && AllTrimSpace(b) && IsTrimmed(m)
    ensures Trim(a + m + b) == m
  {
    var s := a + m + b;
    var st := SkipLeading(s, 0);
    var j := SkipTrailing(s, st, |s|);
    if m == [] {
      assert forall k :: 0 <= k < |s| ==> IsTrimSpace(s[k]) by {
        forall k | 0 <= k < |s| ensures IsTrimSpace(s[k]) {
          if k < |a| { assert s[k] == a[k]; } else { assert s[k] == b[k - |a|]; }
        }
      }
      assert st == |s|;
    } else {
      assert s[|a|] == m[0];
      assert st == |a|;
      assert s[|a| + |m| - 1] == m[|m| - 1];
      assert j == |a| + |m|;
      assert s[st..j] == m;
    }
  }

  lemma TrimIdempotent(s: string)
    ensures Trim(Trim(s)) == Trim(s)
  {
    TrimOfPadded([], Trim(s), []);
    assert [] + Trim(s) + [] == Trim(s);
  }

  /** Trim yields "" exactly for strings made only of chars <= U+0020. */
  lemma TrimEmptyIff(s: string)
    ensures Trim(s) == [] <==> AllTrimSpace(s)
  {
    if AllTrimSpace(s) {
      TrimOfPadded(s, [], []);
      assert s + [] + [] == s;
    } else {
      var k :| 0 <= k < |s| && !IsTrimSpace(s[k]);
      var st := SkipLeading(s, 0);
      assert st <= k;
      assert SkipTrailing(s, st, |s|) > k;
    }
  }

  /** A trailing zero-width space survives trim, which is why the headers need aliases ending in U+200B. */
  lemma TrimKeepsZeroWidthSpace(s: string)
    requires |s| > 0 && s[|s| - 1] == ZeroWidthSpace
    ensures |Trim(s)| > 0 && Trim(s)[|Trim(s)| - 1] == ZeroWidthSpace
  {
    var st := SkipLeading(s, 0);
    assert st < |s|;
    assert SkipTrailing(s, st, |s|) == |s|;
  }

  // ---------------------------------------------------------------- String.indexOf

  function IndexFrom(s: string, c: char, from: nat): (i: int)
    requires from <= |s|
    ensures i == -1 || from <= i < |s|
    ensures 0 <= i ==> s[i] == c && forall k :: from <= k < i ==> s[k] != c
    ensures i == -1 ==> forall k :: from <= k < |s| ==> s[k] != c
    decreases |s| - from
  {
    if from == |s| then -1 else if s[from] == c then from else IndexFrom(s, c, from + 1)
  }

  /** String.indexOf(char): the first position of `c`, or -1. */
  function IndexOf(s: string, c: char): (i: int)
    ensures -1 <= i < |s|
    ensures 0 <= i ==> s[i] == c && forall k :: 0 <= k < i ==> s[k] != c
    ensures i == -1 <==> forall k :: 0 <= k < |s| ==> s[k] != c
  {
    IndexFrom(s, c, 0)
  }

  // ---------------------------------------------------------------- decimal digits

  /** The regex class \d and the digits this model accepts in numbers: ASCII 0-9. */
  predicate IsAsciiDigit(c: char) {
    '0' <= c <= '9'
  }

  predicate AllDigits(s: string) {
    forall k :: 0 <= k < |s| ==> IsAsciiDigit(s[k])
  }

  function DigitValue(c: char): (d: nat)
    requires IsAsciiDigit(c)
    ensures d < 10
  {
    (c as int) - ('0' as int)
  }

  function DigitChar(d: nat): (c: char)
    requires d < 10
    ensures IsAsciiDigit(c) && DigitValue(c) == d
  {
    (d + '0' as int) as char
  }

  /** The value of a string of decimal digits, most significant first. */
  function DigitsValue(ds: string): nat
    requires AllDigits(ds)
    decreases |ds|
  {
    if ds == [] then 0 else 10 * DigitsValue(ds[..|ds| - 1]) + DigitValue(ds[|ds| - 1])
  }

  /** Decimal rendering of a natural number without leading zeros (the form Integer.toString gives). */
  function NatToDigits(n: nat): (ds: string)
    ensures |ds| > 0 && AllDigits(ds)
    decreases n
  {
    if n < 10 then [DigitChar(n)] else NatToDigits(n / 10) + [DigitChar(n % 10)]
  }

  lemma {:induction false} DigitsValueOfRendering(n: nat)
    ensures DigitsValue(NatToDigits(n)) == n
  {
    var ds := NatToDigits(n);
    if n >= 10 {
      DigitsValueOfRendering(n / 10);
      assert ds[..|ds| - 1] == NatToDigits(n / 10);
    }
  }

  // ---------------------------------------------------------------- Integer / Long parsing

  /** An optional '+' or '-' followed by at least one ASCII digit: the text parseInt and parseLong accept. */
  predicate IsIntegerLiteral(s: string) {
    if |s| > 0 && (s[0] == '-' || s[0] == '+') then |s| > 1 && AllDigits(s[1..])
    else |s| > 0 && AllDigits(s)
  }

  /** The mathematical value of a decimal integer literal, before any range check. */
  function IntegerLiteralValue(s: string): int
    requires IsIntegerLiteral(s)
  {
    if s[0] == '-' then -(DigitsValue(s[1..]) as int)
    else if s[0] == '+' then DigitsValue(s[1..])
    else DigitsValue(s)
  }

  /** Long.parseLong(s, 10): None stands for NumberFormatException. */
  function ParseLong(s: string): (r: Option<Int64>)
    ensures r.Some? <==> IsIntegerLiteral(s) && -0x8000_0000_0000_0000 <= IntegerLiteralValue(s) <= 0x7FFF_FFFF_FFFF_FFFF
    ensures r.Some? ==> r.value == IntegerLiteralValue(s)
  {
    if IsIntegerLiteral(s) && -0x8000_0000_0000_0000 <= IntegerLiteralValue(s) <= 0x7FFF_FFFF_FFFF_FFFF
    then Some(IntegerLiteralValue(s)) else None
  }

  /**
   * Integer.parseInt(s, 10): None stands for NumberFormatException. It accepts exactly
   * the texts parseLong accepts whose value fits in 32 bits, and yields the same number.
   */
  function ParseInt(s: string): (r: Option<Int32>)
    ensures r.Some? <==> IsIntegerLiteral(s) && -0x8000_0000 <= IntegerLiteralValue(s) <= 0x7FFF_FFFF
    ensures r.Some? ==> r.value == IntegerLiteralValue(s)
    ensures r.Some? <==> ParseLong(s).Some? && -0x8000_0000 <= ParseLong(s).value <= 0x7FFF_FFFF
    ensures r.Some? ==> r.value == ParseLong(s).value
  {
    if IsIntegerLiteral(s) && -0x8000_0000 <= IntegerLiteralValue(s) <= 0x7FFF_FFFF
    then Some(IntegerLiteralValue(s)) else None
  }

  /** Integer.toString and Long.toString: a '-' before the digits of a negative number. */
  function IntegerToString(n: int): (s: string)
    ensures IsIntegerLiteral(s)
  {
    if n < 0 then "-" + NatToDigits(-n) else NatToDigits(n)
  }

  /** parseInt inverts the decimal rendering of every non-negative int. */
  lemma ParseIntOfRendering(n: Int32)
    requires n >= 0
    ensures ParseInt(NatToDigits(n)) == Some(n)
  {
    DigitsValueOfRendering(n);
    var ds := NatToDigits(n);
    assert IsIntegerLiteral(ds);
  }

  /** parseInt inverts the rendering of every negative int, written with a leading '-'. */
  lemma ParseIntOfNegativeRendering(n: Int32)
    requires n < 0
    ensures ParseInt("-" + NatToDigits(-(n as int))) == Some(n)
  {
    var m: nat := -(n as int);
    DigitsValueOfRendering(m);
    var s := "-" + NatToDigits(m);
    assert s[1..] == NatToDigits(m);
  }

  /** parseLong inverts the rendering of every long. */
  lemma ParseLongOfRendering(n: Int64)
    ensures ParseLong(IntegerToString(n)) == Some(n)
  {
    var s := IntegerToString(n);
    if n < 0 {
      var m: nat := -(n as int);
      DigitsValueOfRendering(m);
      assert s[1..] == NatToDigits(m);
    } else {
      DigitsValueOfRendering(n);
    }
  }

  /** The rendering of a long parses as an int exactly when the value fits in 32 bits. */
  lemma ParseIntOfLongRendering(n: Int64)
    ensures ParseInt(IntegerToString(n)).Some? <==> -0x8000_0000 <= n <= 0x7FFF_FFFF
    ensures ParseInt(IntegerToString(n)).Some? ==> ParseInt(IntegerToString(n)).value == n
  {
    ParseLongOfRendering(n);
  }

  // ---------------------------------------------------------------- Double parsing

  function Pow10(n: nat): (p: nat)
    ensures p >= 1
  {
    if n == 0 then 1 else 10 * Pow10(n - 1)
  }

  /** Splits an optional leading sign off `s`. */
  function SignAndBody(s: string): (bool, string)
  {
    if |s| > 0 && (s[0] == '-' || s[0] == '+') then (s[0] == '-', s[1..]) else (false, s)
  }

  /**
   * Double.parseDouble restricted to plain decimal literals: an optional sign, digits,
   * and at most one '.', with at least one digit in all. The value is the exact real.
   * Every integer literal parseLong accepts is accepted with the same value, and a text
   * without a digit, the empty text included, is refused.
   */
  function ParseDouble(s: string): (r: Option<real>)
    ensures IsIntegerLiteral(s) ==> r == Some(IntegerLiteralValue(s) as real)
    ensures (forall k :: 0 <= k < |s| ==> !IsAsciiDigit(s[k])) ==> r == None
  {
    var (negative, body) := SignAndBody(s);
    assert IsIntegerLiteral(s) ==> AllDigits(body) && IndexOf(body, '.') == -1 by {
      if IsIntegerLiteral(s) {
        assert forall k :: 0 <= k < |body| ==> body[k] != '.';
      }
    }
    var dot := IndexOf(body, '.');
    var intPart := if dot == -1 then body else body[..dot];
    var fracPart := if dot == -1 then [] else body[dot + 1..];
    assert |intPart| > 0 ==> intPart[0] in s;
    assert |fracPart| > 0 ==> fracPart[0] in s;
    if AllDigits(intPart) && AllDigits(fracPart) && |intPart| + |fracPart| > 0 then
      var magnitude := DigitsValue(intPart) as real + DigitsValue(fracPart) as real / Pow10(|fracPart|) as real;
      Some(if negative then -magnitude else magnitude)
    else None
  }

  lemma ParseDoubleTwoPointFive()
    ensures ParseDouble("2.5") == Some(2.5)
  {
    assert IndexOf("2.5", '.') == 1;
    assert "2.5"[..1] == "2" && "2.5"[2..] == "5";
    assert DigitsValue("2") == 2 && DigitsValue("5") == 5;
  }

  lemma ParseDoubleMinusPointFive()
    ensures ParseDouble("-.5") == Some(-0.5)
  {
    assert "-.5"[1..] == ".5" && IndexOf(".5", '.') == 0;
    assert ".5"[..0] == "" && ".5"[1..] == "5";
    assert DigitsValue("") == 0 && DigitsValue("5") == 5;
  }

  lemma ParseDoubleZeroPointTwoFive()
    ensures ParseDouble("0.25") == Some(0.25)
  {
    assert IndexOf("0.25", '.') == 1;
    assert "0.25"[..1] == "0" && "0.25"[2..] == "25";
    assert DigitsValue("0") == 0;
    assert DigitsValue("25") == 25 by {
      assert "25"[..1] == "2";
    }
  }

  /** A fraction counts its digits after the '.': "2.5" is 2.5, "-.5" is -0.5, "0.25" is 0.25. */
  lemma ParseDoubleFractions()
    ensures ParseDouble("2.5") == Some(2.5)
    ensures ParseDouble("-.5") == Some(-0.5)
    ensures ParseDouble("0.25") == Some(0.25)
  {
    ParseDoubleTwoPointFive();
    ParseDoubleMinusPointFive();
    ParseDoubleZeroPointTwoFive();
  }

  // ---------------------------------------------------------------- Boolean parsing

  function ToLowerAscii(c: char): char {
    if 'A' <= c <= 'Z' then (c as int + 32) as char else c
  }

  /**
   * Boolean.parseBoolean: never fails; true exactly for "true" in any mix of cases, that is
   * for the 16 spellings with 't' or 'T', then 'r' or 'R', then 'u' or 'U', then 'e' or 'E'.
   * (Only the ASCII letters fold onto 't', 'r', 'u', 'e' under equalsIgnoreCase.)
   */
  function ParseBoolean(s: string): (b: bool)
    ensures b <==> |s| == 4 && s[0] in "tT" && s[1] in "rR" && s[2] in "uU" && s[3] in "eE"
  {
    |s| == 4 && forall k :: 0 <= k < 4 ==> ToLowerAscii(s[k]) == "true"[k]
  }

  lemma ParseBooleanExamples()
    ensures ParseBoolean("true") && ParseBoolean("TRUE") && ParseBoolean("True")
    ensures !ParseBoolean("") && !ParseBoolean("yes") && !ParseBoolean("1") && !ParseBoolean("false")
  {
  }
}
