/**
  Python's integer conversions on ASCII text and on numbers: `int(str)`,
  `str(int)` and `int(float)` (truncation toward zero).
 */
module PyNum {
  import opened Wrappers
  import opened Text

  /**
    The body Python's `int()` accepts after the sign: digits, with single
    underscores allowed between two digits.
   */
  predicate IsNumeral(b: string) {
    |b| > 0 && IsDigit(b[0]) && IsNumeralTail(b[1..])
  }

  /** What may follow a digit inside a numeral. */
  predicate IsNumeralTail(t: string)
    decreases |t|
  {
    || |t| == 0
    || (IsDigit(t[0]) && IsNumeralTail(t[1..]))
    || (|t| >= 2 && t[0] == '_' && IsDigit(t[1]) && IsNumeralTail(t[2..]))
  }

  lemma {:induction false} DigitsAreNumeralTail(t: string)
    requires forall i :: 0 <= i < |t| ==> IsDigit(t[i])
    ensures IsNumeralTail(t)
    decreases |t|
  {
    if |t| > 0 {
      DigitsAreNumeralTail(t[1..]);
    }
  }

  /** The value of a numeral: its digits read in decimal, the underscores ignored. */
  function NumeralValue(b: string): nat
    decreases |b|
  {
    if |b| == 0 then 0
    else if IsDigit(b[|b| - 1]) then NumeralValue(b[..|b| - 1]) * 10 + DigitValue(b[|b| - 1])
    else NumeralValue(b[..|b| - 1])
  }

  /** Without underscores a numeral is worth its decimal value. */
  lemma {:induction false} NumeralValueOfDigits(s: string)
    requires forall i :: 0 <= i < |s| ==> IsDigit(s[i])
    ensures NumeralValue(s) == DigitsValue(s)
  {
    if |s| > 0 {
      NumeralValueOfDigits(s[..|s| - 1]);
    }
  }

  /**
    Python's `int(s)` for a string: surrounding whitespace is ignored, one
    optional sign, then a numeral. None stands for the ValueError Python raises.
   */
  function ParseInt(s: string): Option<int> {
    ParseSigned(Strip(s))
  }

  /** `int()` of a text already stripped: one optional sign, then a numeral. */
  function ParseSigned(t: string): Option<int> {
    if |t| > 0 && (t[0] == '+' || t[0] == '-') then
      if IsNumeral(t[1..]) then
        var v: int := NumeralValue(t[1..]);
        Some(if t[0] == '-' then -v else v)
      else None
    else if IsNumeral(t) then Some(NumeralValue(t))
    else None
  }

  /** A run of ASCII digits is a numeral denoting its decimal value. */
  lemma DigitsNumeral(s: string)
    requires IsDigits(s)
    ensures IsNumeral(s) && NumeralValue(s) == DigitsValue(s)
  {
    DigitsAreNumeralTail(s[1..]);
    NumeralValueOfDigits(s);
  }

  /** A string that starts with a digit and has no outer whitespace parses as its numeral. */
  lemma ParseIntOfNumeral(s: string)
    requires IsNumeral(s) && !IsSpace(s[|s| - 1])
    ensures ParseInt(s) == Some(NumeralValue(s) as int)
  {
    assert !IsSpace(s[0]) && s[0] != '+' && s[0] != '-';
    ParseIntUnstripped(s);
  }

  /** A minus sign followed by a numeral without trailing whitespace parses as the negated numeral. */
  lemma ParseIntOfNegated(d: string)
    requires IsNumeral(d) && !IsSpace(d[|d| - 1])
    ensures ParseInt("-" + d) == Some(-(NumeralValue(d) as int))
  {
    var s := "-" + d;
    assert s[0] == '-' && s[|s| - 1] == d[|d| - 1] && s[1..] == d;
    ParseIntUnstripped(s);
  }

  /** `int()` of a text without outer whitespace reads the text as it is. */
  lemma ParseIntUnstripped(s: string)
    requires s == [] || (!IsSpace(s[0]) && !IsSpace(s[|s| - 1]))
    ensures ParseInt(s) == ParseSigned(s)
  {
    StripNoOuterSpace(s);
  }

  /** A run of ASCII digits is parsed by `int()` to its decimal value. */
  lemma ParseIntOfDigits(s: string)
    requires IsDigits(s)
    ensures ParseInt(s) == Some(DigitsValue(s) as int)
  {
    DigitsNumeral(s);
    ParseIntOfNumeral(s);
  }

  function DigitChar(d: nat): (c: char)
    requires d < 10
    ensures IsDigit(c) && DigitValue(c) == d
  {
    ('0' as int + d) as char
  }

  /** Python's `str(n)` for a natural number: decimal digits without leading zeros. */
  function NatToString(n: nat): string
  {
    if n < 10 then [DigitChar(n)] else NatToString(n / 10) + [DigitChar(n % 10)]
  }

  /** Python's `str(i)` for an integer. */
  function IntToString(i: int): string {
    if i < 0 then "-" + NatToString(-i) else NatToString(i)
  }

  lemma {:induction false} NatToStringDigits(n: nat)
    ensures IsDigits(NatToString(n))
    ensures DigitsValue(NatToString(n)) == n
    ensures NatToString(n)[0] != '0' || n == 0
  {
    if n >= 10 {
      NatToStringDigits(n / 10);
      var s := NatToString(n);
      assert s[..|s| - 1] == NatToString(n / 10);
    }
  }

  /** `int(str(i)) == i`. */
  lemma ParseIntOfIntToString(i: int)
    ensures ParseInt(IntToString(i)) == Some(i)
  {
    var n: nat := if i < 0 then -i else i;
    NatToStringDigits(n);
    var d := NatToString(n);
    DigitsNumeral(d);
    assert IsDigit(d[|d| - 1]);
    assert IntToString(i) == if i < 0 then "-" + d else d;
    if i < 0 {
      ParseIntOfNegated(d);
    } else {
      ParseIntOfNumeral(d);
    }
  }

  /** Python's `int(x)` for a float: truncation toward zero. */
  function Trunc(x: real): (r: int)
    ensures 0.0 <= x ==> r as real <= x < r as real + 1.0
    ensures x < 0.0 ==> r as real - 1.0 < x <= r as real
  {
    if 0.0 <= x then x.Floor else -((-x).Floor)
  }
}
