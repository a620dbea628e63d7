/**
 * Digits and the numeric conversions the services apply to scraped text:
 * Python's int() and float() on strings that hold only digits (and, for
 * float, periods), and the decimal rendering of integers used in URLs and
 * slugs.
 */
module Numbers {
  import opened Wrappers
  import opened Text

  /** What the regular expression class \d matches in the model: the ASCII digits. */
  predicate IsAsciiDigit(c: char)
  {
    '0' <= c <= '9'
  }

  /**
   * str.isdigit(): the ASCII digits and the superscript and subscript digits
   * (including the '²' of "m²"), which int() and float() reject.
   */
  predicate IsPyDigit(c: char)
  {
    IsAsciiDigit(c) || c == '\U{B9}' || c == '\U{B2}' || c == '\U{B3}' || c == '\U{2070}'
    || ('\U{2074}' <= c <= '\U{2079}') || ('\U{2080}' <= c <= '\U{2089}')
  }

  predicate AllAsciiDigits(s: string)
  {
    forall i :: 0 <= i < |s| ==> IsAsciiDigit(s[i])
  }

  function DigitValue(c: char): (d: nat)
    requires IsAsciiDigit(c)
    ensures d < 10
  {
    c as int - '0' as int
  }

  function DigitChar(d: nat): (c: char)
    requires d < 10
    ensures IsAsciiDigit(c) && DigitValue(c) == d
  {
    ('0' as int + d) as char
  }

  /** The value of a string of decimal digits, most significant first. */
  function DigitsValue(s: string): nat
    requires AllAsciiDigits(s)
  {
    if s == [] then 0 else DigitsValue(s[..|s| - 1]) * 10 + DigitValue(s[|s| - 1])
  }

  function Pow10(n: nat): (r: nat)
    ensures r >= 1
  {
    if n == 0 then 1 else 10 * Pow10(n - 1)
  }

  /** The exact value of a decimal numeral with `places` digits after the point. */
  function Decimal(whole: nat, fraction: nat, places: nat): (r: real)
    ensures r >= whole as real
  {
    whole as real + fraction as real / Pow10(places) as real
  }

  /** The decimal rendering of a natural number: Python's str() and JavaScript's String() on it. */
  function NatToString(n: nat): (s: string)
    ensures |s| >= 1 && AllAsciiDigits(s)
  {
    if n < 10 then [DigitChar(n)] else NatToString(n / 10) + [DigitChar(n % 10)]
  }

  /** Reading back the rendering of a number gives the number. */
  lemma {:induction false} NatToStringRoundTrip(n: nat)
    ensures DigitsValue(NatToString(n)) == n
  {
    if n >= 10 {
      var s := NatToString(n);
      assert s[..|s| - 1] == NatToString(n / 10);
      NatToStringRoundTrip(n / 10);
    }
  }

  /** Distinct numbers have distinct renderings. */
  lemma NatToStringInjective(m: nat, n: nat)
    requires NatToString(m) == NatToString(n)
    ensures m == n
  {
    NatToStringRoundTrip(m);
    NatToStringRoundTrip(n);
  }

  /** Python's str() on an int. */
  function IntToString(i: int): string
  {
    if i < 0 then "-" + NatToString(-i) else NatToString(i)
  }

  /**
   * Python's int(s) on a string of str.isdigit() characters (the only strings
   * the services pass it): None where int() raises ValueError, that is, for the
   * empty string and for superscript or subscript digits.
   */
  function ParseInt(s: string): (r: Option<int>)
    requires forall i :: 0 <= i < |s| ==> IsPyDigit(s[i])
    ensures r.Some? <==> s != [] && AllAsciiDigits(s)
    ensures r.Some? ==> r.value >= 0
  {
    if s != [] && AllAsciiDigits(s) then Some(DigitsValue(s)) else None
  }

  /**
   * Python's float(s) on a string of str.isdigit() characters and periods (the
   * only strings the services pass it), as an exact decimal. None where float()
   * raises ValueError: the empty string, "." alone, a second period, or a
   * superscript or subscript digit.
   */
  function ParseFloat(s: string): (r: Option<real>)
    requires forall i :: 0 <= i < |s| ==> IsPyDigit(s[i]) || s[i] == '.'
    ensures r.Some? ==> r.value >= 0.0
  {
    match FindIndex(s, ".")
    case None =>
      if s != [] && AllAsciiDigits(s) then Some(DigitsValue(s) as real) else None
    case Some(i) =>
      var whole, fraction := s[..i], s[i + 1..];
      if !AllAsciiDigits(whole) || !AllAsciiDigits(fraction) || (whole == [] && fraction == []) then None
      else Some(Decimal(DigitsValue(whole), DigitsValue(fraction), |fraction|))
  }

  /** A string of digits reads as the integer it denotes. */
  lemma ParseFloatWhole(a: string)
    requires a != [] && AllAsciiDigits(a)
    ensures ParseFloat(a) == Some(DigitsValue(a) as real)
  {
    ContainsChar(a, '.');
    FindIndexContains(a, ".");
  }

  /** Digits, a period, digits: the whole part plus the fraction scaled by its length. */
  lemma ParseFloatDecimal(a: string, b: string)
    requires AllAsciiDigits(a) && AllAsciiDigits(b) && (a != [] || b != [])
    ensures ParseFloat(a + "." + b) == Some(Decimal(DigitsValue(a), DigitsValue(b), |b|))
  {
    var s := a + "." + b;
    assert forall k :: 0 <= k < |s| ==> IsPyDigit(s[k]) || s[k] == '.' by {
      forall k | 0 <= k < |s| ensures IsPyDigit(s[k]) || s[k] == '.' {
        if k < |a| { assert s[k] == a[k]; } else if k > |a| { assert s[k] == b[k - |a| - 1]; }
      }
    }
    assert s[|a|..|a| + 1] == ".";
    assert OccursAt(s, ".", |a|);
    OccursContains(s, ".", |a|);
    FindIndexContains(s, ".");
    var i := FindIndex(s, ".").value;
    FindIndexFirst(s, ".", i);
    assert i <= |a|;
    assert s[i] == s[i..i + 1][0] == '.';
    assert forall k :: 0 <= k < |a| ==> s[k] == a[k];
    assert i == |a|;
    assert s[..i] == a;
    assert s[i + 1..] == b;
  }

  /** A second period makes float() fail. */
  lemma ParseFloatTwoPeriods(s: string, i: int, j: int)
    requires forall k :: 0 <= k < |s| ==> IsPyDigit(s[k]) || s[k] == '.'
    requires 0 <= i < j < |s| && s[i] == '.' && s[j] == '.'
    ensures ParseFloat(s) == None
  {
    assert s[i..i + 1] == ".";
    assert OccursAt(s, ".", i);
    OccursContains(s, ".", i);
    FindIndexContains(s, ".");
    var f := FindIndex(s, ".").value;
    FindIndexFirst(s, ".", f);
    assert f <= i;
    assert s[f + 1..][j - f - 1] == '.';
  }

  /** A superscript or subscript digit anywhere makes float() fail. */
  lemma ParseFloatRejectsNonAscii(s: string, k: int)
    requires forall i :: 0 <= i < |s| ==> IsPyDigit(s[i]) || s[i] == '.'
    requires 0 <= k < |s| && !IsAsciiDigit(s[k]) && s[k] != '.'
    ensures ParseFloat(s) == None
  {
    match FindIndex(s, ".")
    case None =>
    case Some(i) =>
      FindIndexFirst(s, ".", i);
      assert s[i..i + 1][0] == s[i];
      if k < i {
        assert s[..i][k] == s[k];
      } else {
        assert s[i + 1..][k - i - 1] == s[k];
      }
  }

  /** The leading run of ASCII digits of `s`. */
  function DigitPrefix(s: string): (r: string)
    ensures |r| <= |s| && r == s[..|r|] && AllAsciiDigits(r)
    ensures |r| < |s| ==> !IsAsciiDigit(s[|r|])
  {
    if s != [] && IsAsciiDigit(s[0]) then
      var t := DigitPrefix(s[1..]);
      assert s[..|t| + 1] == [s[0]] + s[1..][..|t|];
      [s[0]] + t
    else []
  }

  /** `re.findall(r'\d+', s)[0]` when a digit occurs, else None. */
  function FirstDigitRun(s: string): (r: Option<string>)
    ensures r.None? <==> forall i :: 0 <= i < |s| ==> !IsAsciiDigit(s[i])
    ensures r.Some? ==> r.value != [] && AllAsciiDigits(r.value)
  {
    if s == [] then None
    else if IsAsciiDigit(s[0]) then Some(DigitPrefix(s))
    else
      var r := FirstDigitRun(s[1..]);
      assert forall i :: 1 <= i < |s| ==> s[i] == s[1..][i - 1];
      r
  }

  /** The run read is the maximal run that starts at the first digit of `s`. */
  lemma {:induction false} FirstDigitRunAt(s: string, i: int)
    requires 0 <= i < |s| && IsAsciiDigit(s[i])
    requires forall j :: 0 <= j < i ==> !IsAsciiDigit(s[j])
    ensures FirstDigitRun(s) == Some(DigitPrefix(s[i..]))
  {
    if i > 0 {
      assert s[1..][i - 1..] == s[i..];
      FirstDigitRunAt(s[1..], i - 1);
    }
  }

  /** All the digits of `s`, concatenated: `''.join(c for c in s if c.isdigit())`. */
  function AllDigits(s: string): (r: string)
    ensures forall i :: 0 <= i < |r| ==> IsPyDigit(r[i])
  {
    Keep(s, IsPyDigit)
  }
}
