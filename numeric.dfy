/**
 * Decimal reading of numeric text, standing in for Python's `float(text)` on
 * the inputs the extractor meets: optional surrounding whitespace, an optional
 * sign, digits with at most one decimal point, and an optional exponent.
 * Amounts are exact reals.
 */
module Numeric {
  import opened Wrappers
  import opened Text

  predicate AllDigits(s: string) {
    forall k :: 0 <= k < |s| ==> IsDigit(s[k])
  }

  /** The value of a run of decimal digits (the empty run is 0). */
  function DigitsValue(s: string): nat
    requires AllDigits(s)
    decreases |s|
  {
    if s == [] then 0 else DigitsValue(s[..|s| - 1]) * 10 + (s[|s| - 1] as int - '0' as int)
  }

  function Pow10(n: nat): (r: nat)
    ensures r >= 1
  {
    if n == 0 then 1 else 10 * Pow10(n - 1)
  }

  /** `x * 10**e`. */
  function Scale(x: real, e: int): real {
    if e >= 0 then x * Pow10(e) as real else x / Pow10(-e) as real
  }

  /** Digits with at most one '.', and at least one digit: "12", "12.5", ".5", "12.". */
  function ParseMantissa(s: string): Option<real> {
    var parts := Split(s, '.');
    if |parts| == 1 && IsDigits(parts[0]) then
      Some(DigitsValue(parts[0]) as real)
    else if |parts| == 2 && AllDigits(parts[0]) && AllDigits(parts[1]) && |parts[0]| + |parts[1]| > 0 then
      Some(DigitsValue(parts[0]) as real + DigitsValue(parts[1]) as real / Pow10(|parts[1]|) as real)
    else
      None
  }

  /** An exponent: an optional sign and at least one digit. */
  function ParseExponent(s: string): Option<int> {
    if |s| > 0 && (s[0] == '-' || s[0] == '+') then
      if IsDigits(s[1..]) then Some(if s[0] == '-' then -(DigitsValue(s[1..]) as int) else DigitsValue(s[1..])) else None
    else if IsDigits(s) then Some(DigitsValue(s))
    else None
  }

  /** A number without its sign: a mantissa, then optionally 'e' or 'E' and an exponent. */
  function ParseUnsigned(body: string): Option<real> {
    var parts := Split(Lower(body), 'e');
    if |parts| == 1 then ParseMantissa(parts[0])
    else if |parts| == 2 then
      match (ParseMantissa(parts[0]), ParseExponent(parts[1]))
      case (Some(m), Some(e)) => Some(Scale(m, e))
      case _ => None
    else None
  }

  function Negate(x: Option<real>): Option<real> {
    match x
    case Some(m) => Some(-m)
    case None => None
  }

  /**
   * `float(s)`, or None where Python raises ValueError. Whitespace around the
   * number is ignored, as `float` does.
   */
  function ParseFloat(s: string): Option<real> {
    var t := Strip(s);
    if |t| > 0 && t[0] == '-' then Negate(ParseUnsigned(t[1..]))
    else if |t| > 0 && t[0] == '+' then ParseUnsigned(t[1..])
    else ParseUnsigned(t)
  }

  /** `float(s.replace(',', ''))`: thousands separators are tolerated. */
  function ParseAmount(s: string): Option<real> {
    ParseFloat(RemoveChar(s, ','))
  }

  function DigitChar(d: nat): (c: char)
    requires d < 10
    ensures IsDigit(c)
  {
    ('0' as int + d) as char
  }

  /** The decimal notation of a natural number. */
  function NatToString(n: nat): (r: string)
    ensures IsDigits(r)
    decreases n
  {
    if n < 10 then [DigitChar(n)] else NatToString(n / 10) + [DigitChar(n % 10)]
  }

  lemma {:induction false} DigitsValueOfNatToString(n: nat)
    ensures DigitsValue(NatToString(n)) == n
    decreases n
  {
    if n >= 10 {
      DigitsValueOfNatToString(n / 10);
      var s := NatToString(n);
      assert s[..|s| - 1] == NatToString(n / 10);
    }
  }

  lemma LowerOfDigits(s: string)
    requires AllDigits(s) || s == "."
    ensures Lower(s) == s
  {
  }

  lemma LowerOfDecimal(a: string, b: string)
    requires AllDigits(a) && AllDigits(b)
    ensures Lower(a + "." + b) == a + "." + b
  {
    var s := a + "." + b;
    assert forall k :: 0 <= k < |s| ==> IsDigit(s[k]) || s[k] == '.' by {
      forall k | 0 <= k < |s| ensures IsDigit(s[k]) || s[k] == '.' {
        if k < |a| { assert s[k] == a[k]; }
        else if k > |a| { assert s[k] == b[k - |a| - 1]; }
      }
    }
  }

  /** Strings of digits and '.' carry no whitespace, so `strip` leaves them alone. */
  lemma StripOfNumeral(s: string)
    requires IsNumeral(s)
    ensures Strip(s) == s
  {
    StripCharsOfStripped(s, Whitespace);
  }

  /** Without a sign, `float` reads the unsigned number. */
  lemma ParseFloatUnsigned(s: string)
    requires Strip(s) == s
    requires s == [] || (s[0] != '-' && s[0] != '+')
    ensures ParseFloat(s) == ParseUnsigned(s)
  {
    var t := Strip(s);
    assert t == s;
    assert !(|t| > 0 && (t[0] == '-' || t[0] == '+'));
  }

  /** Without an exponent marker, the unsigned number is its mantissa. */
  lemma ParseUnsignedMantissa(s: string)
    requires Lower(s) == s
    requires 'e' !in s
    ensures ParseUnsigned(s) == ParseMantissa(s)
  {
    SplitWithoutSeparator(s, 'e');
  }

  lemma NoCharInDigits(s: string, c: char)
    requires AllDigits(s)
    requires !IsDigit(c)
    ensures c !in s
  {
  }

  /** Round trip: reading back the decimal notation of n gives n. */
  lemma ParseNatToString(n: nat)
    ensures ParseFloat(NatToString(n)) == Some(n as real)
  {
    var s := NatToString(n);
    assert ParseFloat(s) == ParseUnsigned(s) by {
      StripOfNumeral(s);
      ParseFloatUnsigned(s);
    }
    assert ParseUnsigned(s) == ParseMantissa(s) by {
      LowerOfDigits(s);
      NoCharInDigits(s, 'e');
      ParseUnsignedMantissa(s);
    }
    assert ParseMantissa(s) == Some(n as real) by {
      NoCharInDigits(s, '.');
      SplitWithoutSeparator(s, '.');
      DigitsValueOfNatToString(n);
    }
  }

  predicate IsNumeral(s: string) {
    forall k :: 0 <= k < |s| ==> IsDigit(s[k]) || s[k] == '.'
  }

  lemma DecimalIsNumeral(a: string, b: string)
    requires AllDigits(a) && AllDigits(b)
    ensures IsNumeral(a + "." + b)
  {
    var s := a + "." + b;
    forall k | 0 <= k < |s| ensures IsDigit(s[k]) || s[k] == '.' {
      if k < |a| { assert s[k] == a[k]; }
      else if k > |a| { assert s[k] == b[k - |a| - 1]; }
    }
  }

  lemma SplitDecimal(a: string, b: string)
    requires AllDigits(a) && AllDigits(b)
    ensures Split(a + "." + b, '.') == [a, b]
  {
    NoCharInDigits(a, '.');
    NoCharInDigits(b, '.');
    SplitJoin([a, b], '.');
    assert Join(".", [a, b]) == a + "." + b;
  }

  /** A numeral (digits and dots, starting with a digit) is read through its mantissa. */
  lemma FloatOfNumeral(s: string)
    requires IsNumeral(s) && |s| > 0 && IsDigit(s[0])
    ensures ParseFloat(s) == ParseMantissa(s)
  {
    assert ParseFloat(s) == ParseUnsigned(s) by {
      StripOfNumeral(s);
      ParseFloatUnsigned(s);
    }
    assert ParseUnsigned(s) == ParseMantissa(s) by {
      LowerOfNumeral(s);
      NoExponentInNumeral(s);
      ParseUnsignedMantissa(s);
    }
  }

  lemma LowerOfNumeral(s: string)
    requires IsNumeral(s)
    ensures Lower(s) == s
  {
  }

  lemma NoExponentInNumeral(s: string)
    requires IsNumeral(s)
    ensures 'e' !in s
  {
  }

  lemma FloatOfDecimal(a: string, b: string)
    requires IsDigits(a) && AllDigits(b)
    ensures ParseFloat(a + "." + b) == ParseMantissa(a + "." + b)
  {
    DecimalIsNumeral(a, b);
    assert (a + "." + b)[0] == a[0];
    FloatOfNumeral(a + "." + b);
  }

  /** A decimal numeral "a.b" reads as a + b / 10^|b|. */
  lemma ParseDecimalString(a: string, frac: string)
    requires IsDigits(a) && AllDigits(frac)
    ensures ParseFloat(a + "." + frac)
         == Some(DigitsValue(a) as real + DigitsValue(frac) as real / Pow10(|frac|) as real)
  {
    FloatOfDecimal(a, frac);
    SplitDecimal(a, frac);
    MantissaOfSplit(a, frac);
  }

  lemma MantissaOfSplit(a: string, b: string)
    requires IsDigits(a) && AllDigits(b)
    requires Split(a + "." + b, '.') == [a, b]
    ensures ParseMantissa(a + "." + b) == Some(DigitsValue(a) as real + DigitsValue(b) as real / Pow10(|b|) as real)
  {
  }

  /** A leading '-' negates. */
  lemma ParseNegative(n: nat)
    ensures ParseFloat("-" + NatToString(n)) == Some(-(n as real))
  {
    var a := NatToString(n);
    var s := "-" + a;
    assert forall k :: 0 <= k < |s| ==> s[k] !in Whitespace by {
      forall k | 0 <= k < |s| ensures s[k] !in Whitespace {
        if k > 0 { assert s[k] == a[k - 1]; }
      }
    }
    StripCharsOfStripped(s, Whitespace);
    assert s[1..] == a;
    LowerOfDigits(a);
    NoCharInDigits(a, 'e');
    ParseUnsignedMantissa(a);
    NoCharInDigits(a, '.');
    SplitWithoutSeparator(a, '.');
    DigitsValueOfNatToString(n);
  }
}
