/**
 * The three acceptance tests of Go's `strconv` package that the example checker relies on:
 * `Atoi` (decimal integers of the platform's `int`, taken here to be 64 bits wide) and
 * `ParseBool`; `ParseFloat` is not modelled and is a parameter of the checker instead.
 * `FormatInt` and `FormatBool` (Go's `Itoa` and `FormatBool`) serve as the inverses
 * against which the parsers are checked.
 */
module Strconv {
  import opened Wrappers

  /** The range of Go's `int` on a 64-bit platform. */
  const MinInt: int := -0x8000_0000_0000_0000
  const MaxInt: int := 0x7fff_ffff_ffff_ffff

  predicate IsDigit(c: char) {
    '0' <= c <= '9'
  }

  predicate AllDigits(s: string) {
    forall i :: 0 <= i < |s| ==> IsDigit(s[i])
  }

  function DigitValue(c: char): (d: nat)
    requires IsDigit(c)
    ensures d < 10
  {
    c as int - '0' as int
  }

  function DigitChar(d: nat): (c: char)
    requires d < 10
    ensures IsDigit(c) && DigitValue(c) == d
  {
    ('0' as int + d) as char
  }

  /** The value of a string of decimal digits, most significant first. */
  function DigitsValue(s: string): nat
    requires AllDigits(s)
  {
    if s == [] then 0 else 10 * DigitsValue(s[..|s| - 1]) + DigitValue(s[|s| - 1])
  }

  /**
   * `strconv.Atoi`: an optional `+` or `-`, then one or more ASCII digits (leading zeros
   * allowed, no underscores, no spaces), whose value fits in a 64-bit `int`. `None` is the
   * syntax or range error.
   */
  function Atoi(s: string): (r: Option<int>)
    ensures r.Some? ==> MinInt <= r.value <= MaxInt
    ensures r.Some? ==> s != [] && (IsDigit(s[0]) || s[0] == '+' || s[0] == '-')
    ensures r.Some? ==> forall i :: 0 < i < |s| ==> IsDigit(s[i])
    ensures r.Some? ==> IsDigit(s[|s| - 1])
  {
    var signed := |s| > 0 && (s[0] == '-' || s[0] == '+');
    var digits := if signed then s[1..] else s;
    if digits == [] || !AllDigits(digits) then None
    else
      var n: int := if signed && s[0] == '-' then -(DigitsValue(digits) as int) else DigitsValue(digits);
      if MinInt <= n <= MaxInt then Some(n) else None
  }

  /** Decimal digits of `n` without leading zeros (the digits `strconv.Itoa` writes). */
  function FormatNat(n: nat): (s: string)
    ensures s != [] && AllDigits(s)
    ensures (s[0] == '0') == (n == 0)
    ensures n < 10 <==> |s| == 1
  {
    if n < 10 then [DigitChar(n)] else FormatNat(n / 10) + [DigitChar(n % 10)]
  }

  /** `strconv.Itoa`: a minus sign for negative values, then the digits of the magnitude. */
  function FormatInt(n: int): string {
    if n < 0 then "-" + FormatNat(-n) else FormatNat(n)
  }

  /** A digit string with no redundant leading zero. */
  predicate IsCanonicalDecimal(d: string) {
    d != [] && AllDigits(d) && (d[0] == '0' ==> |d| == 1)
  }

  /** The strings `FormatInt` can produce: no `+`, no leading zero, no `-0`. */
  predicate IsCanonicalInt(s: string) {
    if |s| > 0 && s[0] == '-' then IsCanonicalDecimal(s[1..]) && s[1..] != "0"
    else IsCanonicalDecimal(s)
  }

  lemma {:induction false} DigitsValueFormatNat(n: nat)
    ensures DigitsValue(FormatNat(n)) == n
  {
    var s := FormatNat(n);
    if n >= 10 {
      assert s[..|s| - 1] == FormatNat(n / 10);
      DigitsValueFormatNat(n / 10);
    }
  }

  lemma {:induction false} DigitsValueBound(d: string)
    requires AllDigits(d) && d != [] && d[0] != '0'
    ensures DigitsValue(d) > 0
  {
    if |d| > 1 {
      DigitsValueBound(d[..|d| - 1]);
    }
  }

  lemma {:induction false} FormatNatDigitsValue(d: string)
    requires IsCanonicalDecimal(d)
    ensures FormatNat(DigitsValue(d)) == d
  {
    if |d| > 1 {
      var init := d[..|d| - 1];
      assert IsCanonicalDecimal(init);
      DigitsValueBound(init);
      FormatNatDigitsValue(init);
      var v := DigitsValue(d);
      assert v / 10 == DigitsValue(init) && v % 10 == DigitValue(d[|d| - 1]);
      assert d == init + [d[|d| - 1]];
    }
  }

  /**
   * `Atoi` reads back what `FormatInt` writes exactly when the value fits in a 64-bit
   * `int`, and reports a range error otherwise.
   */
  lemma AtoiFormatInt(n: int)
    ensures Atoi(FormatInt(n)) == if MinInt <= n <= MaxInt then Some(n) else None
    ensures IsCanonicalInt(FormatInt(n))
  {
    var s := FormatInt(n);
    if n < 0 {
      assert s[1..] == FormatNat(-n);
      DigitsValueFormatNat(-n);
    } else {
      DigitsValueFormatNat(n);
    }
  }

  lemma AtoiExamples()
    ensures Atoi("42") == Some(42) && Atoi("-007") == Some(-7) && Atoi("+5") == Some(5)
    ensures Atoi("abc").None? && Atoi("").None? && Atoi("+").None? && Atoi("-").None? && Atoi(" 1").None? && Atoi("1_0").None?
  {
    assert DigitsValue("4") == 4 by { assert "4"[..0] == ""; }
    assert DigitsValue("42") == 42 by { assert "42"[..1] == "4"; }
    assert DigitsValue("007") == 7 by {
      assert "0"[..0] == "" && "00"[..1] == "0" && "007"[..2] == "00";
    }
    assert "-007"[1..] == "007";
    assert DigitsValue("5") == 5 by { assert "5"[..0] == ""; }
    assert "+5"[1..] == "5";
    assert !IsDigit("abc"[0]) && !IsDigit(" 1"[0]) && !IsDigit("1_0"[1]);
  }

  /** A canonical string that `Atoi` accepts is what `FormatInt` writes for its value. */
  lemma FormatIntAtoi(s: string)
    requires IsCanonicalInt(s) && Atoi(s).Some?
    ensures FormatInt(Atoi(s).value) == s
  {
    if s[0] == '-' {
      FormatNatDigitsValue(s[1..]);
      assert s == "-" + s[1..];
    } else {
      FormatNatDigitsValue(s);
    }
  }

  /**
   * The converse of the shape `Atoi`'s contract gives: every non-empty digit string, bare or
   * after a `+` or a `-`, is accepted with its value when that value fits in 64 bits, and
   * gives the range error otherwise.
   */
  lemma AtoiSignedDigits(d: string)
    requires d != [] && AllDigits(d)
    ensures Atoi(d) == if DigitsValue(d) <= MaxInt then Some(DigitsValue(d)) else None
    ensures Atoi("+" + d) == Atoi(d)
    ensures Atoi("-" + d) == if MinInt <= -(DigitsValue(d) as int) then Some(-(DigitsValue(d) as int)) else None
  {
    assert IsDigit(d[0]);
    assert ("+" + d)[1..] == d;
    assert ("-" + d)[1..] == d;
  }

  lemma {:induction false} DigitsValueLeadingZero(d: string)
    requires AllDigits(d)
    ensures AllDigits("0" + d) && DigitsValue("0" + d) == DigitsValue(d)
  {
    if d != [] {
      assert ("0" + d)[..|d|] == "0" + d[..|d| - 1];
      DigitsValueLeadingZero(d[..|d| - 1]);
    } else {
      assert ("0" + d)[..0] == "";
    }
  }

  /** Leading zeros, after an optional sign, change neither acceptance nor value. */
  lemma AtoiLeadingZero(d: string)
    requires d != [] && AllDigits(d)
    ensures Atoi("0" + d) == Atoi(d)
    ensures Atoi("+0" + d) == Atoi(d)
    ensures Atoi("-0" + d) == Atoi("-" + d)
  {
    DigitsValueLeadingZero(d);
    AtoiSignedDigits(d);
    AtoiSignedDigits("0" + d);
    assert "+0" + d == "+" + ("0" + d);
    assert "-0" + d == "-" + ("0" + d);
  }

  /** The value a canonical decimal string denotes. */
  function CanonicalValue(s: string): int
    requires IsCanonicalInt(s)
  {
    if s[0] == '-' then -(DigitsValue(s[1..]) as int) else DigitsValue(s)
  }

  /**
   * A canonical string is what `FormatInt` writes for its value, and `Atoi` accepts it with
   * that value exactly when the value fits in 64 bits.
   */
  lemma CanonicalIntAtoi(s: string)
    requires IsCanonicalInt(s)
    ensures FormatInt(CanonicalValue(s)) == s
    ensures Atoi(s) == if MinInt <= CanonicalValue(s) <= MaxInt then Some(CanonicalValue(s)) else None
  {
    var n := CanonicalValue(s);
    if s[0] == '-' {
      var d := s[1..];
      DigitsValueBound(d);
      FormatNatDigitsValue(d);
      assert FormatInt(n) == "-" + FormatNat(DigitsValue(d));
      assert s == "-" + d;
    } else {
      FormatNatDigitsValue(s);
    }
    AtoiFormatInt(n);
  }

  /** The strings that `strconv.ParseBool` reads as true, and those it reads as false. */
  const TrueSpellings: set<string> := {"1", "t", "T", "TRUE", "true", "True"}
  const FalseSpellings: set<string> := {"0", "f", "F", "FALSE", "false", "False"}

  /** `strconv.ParseBool`: exactly twelve spellings are accepted; `None` is the syntax error. */
  function ParseBool(str: string): (r: Option<bool>)
    ensures r.Some? <==> str in TrueSpellings + FalseSpellings
    ensures r == Some(true) <==> str in TrueSpellings
  {
    match str
    case "1" | "t" | "T" | "TRUE" | "true" | "True" => Some(true)
    case "0" | "f" | "F" | "FALSE" | "false" | "False" => Some(false)
    case _ => None
  }

  /** `strconv.FormatBool`. */
  function FormatBool(b: bool): string {
    if b then "true" else "false"
  }

  lemma ParseBoolFormatBool(b: bool)
    ensures ParseBool(FormatBool(b)) == Some(b)
  {
  }

  lemma ParseBoolExamples()
    ensures ParseBool("true") == Some(true) && ParseBool("F") == Some(false)
    ensures ParseBool("maybe").None? && ParseBool("yes").None? && ParseBool("tRUE").None? && ParseBool("").None?
  {
  }
}
