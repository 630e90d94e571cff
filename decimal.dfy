/**
 * Python's decimal conversions between `int` and `str`: `str(n)`, `"%02d" % n`
 * and `int(s)` (base 10), with the whitespace that `str.strip` and `int` skip.
 */
module Decimal {
  import opened Wrappers

  predicate IsDigit(c: char) {
    '0' <= c <= '9'
  }

  function DigitChar(d: nat): (c: char)
    requires d < 10
    ensures IsDigit(c)
  {
    (d + '0' as int) as char
  }

  function DigitValue(c: char): (d: nat)
    requires IsDigit(c)
    ensures d < 10
  {
    c as int - '0' as int
  }

  /** Characters allowed in a decimal literal: digits and the `_` separator. */
  predicate DigitsOrUnderscores(s: string) {
    forall i :: 0 <= i < |s| ==> IsDigit(s[i]) || s[i] == '_'
  }

  predicate AllDigits(s: string) {
    forall i :: 0 <= i < |s| ==> IsDigit(s[i])
  }

  /** The value of a decimal literal; `_` separators carry no value. */
  function DigitsValue(s: string): nat
    requires DigitsOrUnderscores(s)
  {
    if s == [] then 0
    else if s[|s| - 1] == '_' then DigitsValue(s[..|s| - 1])
    else 10 * DigitsValue(s[..|s| - 1]) + DigitValue(s[|s| - 1])
  }

  /** `str(n)` for `n >= 0`: decimal digits, no leading zero, read back as `n`. */
  function NatToDecimal(n: nat): (r: string)
    ensures |r| >= 1 && AllDigits(r)
    ensures r[0] == '0' ==> n == 0 && |r| == 1
    ensures DigitsValue(r) == n
  {
    if n < 10 then [DigitChar(n)]
    else
      var init := NatToDecimal(n / 10);
      var r := init + [DigitChar(n % 10)];
      assert r[..|r| - 1] == init;
      r
  }

  /** `str(i)` for any Python `int`: a `-` sign, then the digits of `|i|`. */
  function IntToDecimal(i: int): (r: string)
    ensures |r| >= 1 && (i >= 0 ==> r == NatToDecimal(i))
    ensures i < 0 ==> r == "-" + NatToDecimal(-i)
  {
    if i < 0 then "-" + NatToDecimal(-i) else NatToDecimal(i)
  }

  /** `"%02d" % n` for `0 <= n < 100`: exactly two digits. */
  function TwoDigits(n: nat): (r: string)
    requires n < 100
    ensures |r| == 2 && AllDigits(r) && DigitsValue(r) == n
  {
    var tens := [DigitChar(n / 10)];
    assert tens[..0] == [];
    assert DigitsValue(tens) == n / 10;
    var r := tens + [DigitChar(n % 10)];
    assert r[..1] == tens;
    r
  }

  /** `c.isspace()` in Python: the Unicode whitespace characters. */
  predicate IsSpace(c: char) {
    || c == ' ' || '\t' <= c <= '\r' || '\U{1c}' <= c <= '\U{1f}' || c == '\U{85}' || c == '\U{a0}'
    || c == '\U{1680}' || '\U{2000}' <= c <= '\U{200a}' || c == '\U{2028}' || c == '\U{2029}'
    || c == '\U{202f}' || c == '\U{205f}' || c == '\U{3000}'
  }

  /** `s.strip()`: leading and trailing whitespace removed. */
  function Strip(s: string): (r: string)
    ensures |r| <= |s|
    ensures r != [] ==> !IsSpace(r[0]) && !IsSpace(r[|r| - 1])
    ensures s != [] && !IsSpace(s[0]) && !IsSpace(s[|s| - 1]) ==> r == s
  {
    RStrip(LStrip(s))
  }

  function LStrip(s: string): (r: string)
    ensures |r| <= |s| && (r != [] ==> !IsSpace(r[0]))
    ensures r == s[|s| - |r|..]
    ensures s != [] && !IsSpace(s[0]) ==> r == s
  {
    if s != [] && IsSpace(s[0]) then LStrip(s[1..]) else s
  }

  function RStrip(s: string): (r: string)
    ensures |r| <= |s| && (r != [] ==> !IsSpace(r[|r| - 1]))
    ensures r == s[..|r|]
    ensures s != [] && !IsSpace(s[|s| - 1]) ==> r == s
  {
    if s != [] && IsSpace(s[|s| - 1]) then RStrip(s[..|s| - 1]) else s
  }

  /** The digit part of a base-10 `int` literal: digits, with single `_` only between digits. */
  predicate WellFormedDigits(s: string) {
    && |s| >= 1
    && DigitsOrUnderscores(s)
    && IsDigit(s[0]) && IsDigit(s[|s| - 1])
    && forall i :: 0 <= i < |s| - 1 ==> !(s[i] == '_' && s[i + 1] == '_')
  }

  /** The `ValueError` that `int(s)` raises, carrying the rejected text. */
  datatype ValueError = InvalidLiteral(literal: string)

  /** A stripped `int` literal: an optional sign, then well-formed digits. */
  function ParseLiteral(t: string): Option<int> {
    var signed := |t| >= 1 && (t[0] == '-' || t[0] == '+');
    var body := if signed then t[1..] else t;
    if WellFormedDigits(body) then
      var v: int := DigitsValue(body);
      Some(if signed && t[0] == '-' then -v else v)
    else
      None
  }

  /**
   * `int(s)`: surrounding whitespace is skipped, an optional sign is read,
   * and the rest must be a well-formed digit string; anything else is a `ValueError`.
   */
  function ParseInt(s: string): (r: Result<int, ValueError>)
    ensures r.Failure? ==> r.error == InvalidLiteral(s)
  {
    match ParseLiteral(Strip(s))
    case Some(v) => Success(v)
    case None => Failure(InvalidLiteral(s))
  }

  lemma DigitIsNotSpace(c: char)
    requires IsDigit(c)
    ensures !IsSpace(c)
  {
  }

  /** A run of digits has no surrounding whitespace to skip. */
  lemma StripDigits(s: string)
    requires AllDigits(s) && s != []
    ensures Strip(s) == s
  {
    DigitIsNotSpace(s[0]);
    DigitIsNotSpace(s[|s| - 1]);
  }

  /** `lstrip` removes only leading whitespace: everything before what it keeps is whitespace. */
  lemma {:induction false} LStripRemovesLeadingSpace(s: string)
    ensures forall k :: 0 <= k < |s| - |LStrip(s)| ==> IsSpace(s[k])
    decreases |s|
  {
    if s != [] && IsSpace(s[0]) {
      var tail := s[1..];
      LStripRemovesLeadingSpace(tail);
      forall k | 1 <= k < |s| - |LStrip(s)|
        ensures IsSpace(s[k])
      {
        assert s[k] == tail[k - 1];
      }
    }
  }

  /** `rstrip` removes only trailing whitespace: everything after what it keeps is whitespace. */
  lemma {:induction false} RStripRemovesTrailingSpace(s: string)
    ensures forall k :: |RStrip(s)| <= k < |s| ==> IsSpace(s[k])
    decreases |s|
  {
    if s != [] && IsSpace(s[|s| - 1]) {
      var init := s[..|s| - 1];
      RStripRemovesTrailingSpace(init);
      forall k | |RStrip(s)| <= k < |s| - 1
        ensures IsSpace(s[k])
      {
        assert s[k] == init[k];
      }
    }
  }

  /**
   * A text cut down to a suffix `l` and then to a prefix `r` of that suffix, where
   * only whitespace was cut off, is a middle slice of the text with whitespace
   * around it; when `r` does not start with whitespace it is empty only for text
   * that is all whitespace.
   */
  lemma WhitespaceAround(s: string, l: string, r: string)
    requires |l| <= |s| && l == s[|s| - |l|..] && |r| <= |l| && r == l[..|r|]
    requires forall k :: 0 <= k < |s| - |l| ==> IsSpace(s[k])
    requires forall k :: |r| <= k < |l| ==> IsSpace(l[k])
    requires r != [] ==> !IsSpace(r[0])
    ensures exists i, j ::
              && 0 <= i <= j <= |s| && r == s[i..j]
              && (forall k :: 0 <= k < i ==> IsSpace(s[k]))
              && (forall k :: j <= k < |s| ==> IsSpace(s[k]))
    ensures r == [] <==> forall k :: 0 <= k < |s| ==> IsSpace(s[k])
  {
    var i := |s| - |l|;
    var j := i + |r|;
    assert r == s[i..j];
    forall k | j <= k < |s|
      ensures IsSpace(s[k])
    {
      assert s[k] == l[k - i];
    }
    if r != [] {
      assert s[i] == r[0];
    }
  }

  /**
   * `strip()` keeps one contiguous middle part of the text and removes only whitespace
   * around it; the result is empty exactly when the text is whitespace only.
   */
  lemma StripSpec(s: string)
    ensures var r := Strip(s);
      exists i, j ::
        && 0 <= i <= j <= |s| && r == s[i..j]
        && (forall k :: 0 <= k < i ==> IsSpace(s[k]))
        && (forall k :: j <= k < |s| ==> IsSpace(s[k]))
    ensures Strip(s) == [] <==> forall k :: 0 <= k < |s| ==> IsSpace(s[k])
  {
    LStripRemovesLeadingSpace(s);
    RStripRemovesTrailingSpace(LStrip(s));
    WhitespaceAround(s, LStrip(s), Strip(s));
  }

  /**
   * `int(s)` succeeds exactly when the stripped text is well-formed digits, with or
   * without one leading sign; anything else (empty text, a doubled or stray `_`, a
   * space after the sign, any other character) is rejected.
   */
  lemma ParseIntAccepts(s: string)
    ensures var t := Strip(s);
      (ParseInt(s).Success? <==> (WellFormedDigits(t) || (|t| >= 2 && (t[0] == '-' || t[0] == '+') && WellFormedDigits(t[1..]))))
  {
    var t := Strip(s);
    if |t| >= 1 && (t[0] == '-' || t[0] == '+') {
      assert !IsDigit(t[0]);
    }
  }

  /** A doubled `_` is rejected. */
  lemma ParseIntRejectsDoubleUnderscore()
    ensures ParseInt("1__0").Failure?
  {
    RejectedAsWritten("1__0");
    assert "1__0"[1] == '_' && "1__0"[2] == '_';
  }

  /** A space between the sign and the digits is rejected. */
  lemma ParseIntRejectsSpaceAfterSign()
    ensures ParseInt("- 5").Failure?
  {
    RejectedAsWritten("- 5");
    assert !IsDigit("- 5"[1..][0]);
  }

  /** A decimal point is rejected. */
  lemma ParseIntRejectsPoint()
    ensures ParseInt("1.5").Failure?
  {
    RejectedAsWritten("1.5");
    assert !IsDigit("1.5"[1]) && "1.5"[1] != '_';
  }

  /** The empty text, or whitespace alone, is rejected. */
  lemma ParseIntRejectsBlank(s: string)
    requires forall k :: 0 <= k < |s| ==> IsSpace(s[k])
    ensures ParseInt(s).Failure?
  {
    StripSpec(s);
    ParseIntAccepts(s);
  }

  /** A text without surrounding whitespace is parsed as it stands. */
  lemma RejectedAsWritten(s: string)
    requires s != [] && !IsSpace(s[0]) && !IsSpace(s[|s| - 1])
    ensures Strip(s) == s
    ensures ParseInt(s).Success? <==> (WellFormedDigits(s) || (|s| >= 2 && (s[0] == '-' || s[0] == '+') && WellFormedDigits(s[1..])))
  {
    ParseIntAccepts(s);
  }

  /** A plain run of digits is read as its value. */
  lemma ParseIntOfDigits(s: string)
    requires AllDigits(s) && s != []
    ensures ParseInt(s) == Success(DigitsValue(s))
  {
    StripDigits(s);
    assert WellFormedDigits(s);
    assert ParseLiteral(s) == Some(DigitsValue(s));
  }

  /** `int(str(i)) == i`: the two conversions are inverse to each other. */
  lemma ParseIntOfDecimal(i: int)
    ensures ParseInt(IntToDecimal(i)) == Success(i)
  {
    var s := IntToDecimal(i);
    if i >= 0 {
      ParseIntOfDigits(s);
    } else {
      var digits := NatToDecimal(-i);
      assert WellFormedDigits(digits);
      DigitIsNotSpace(s[|s| - 1]);
      assert s[|s| - 1] == digits[|digits| - 1];
      assert Strip(s) == s;
      assert s[1..] == digits;
      assert ParseLiteral(s) == Some(i);
    }
  }
}
