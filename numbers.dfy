/**
 * Python's `int()` and `float()` applied to text, which the generators use to read a number
 * back from a string (apitest/learning/data_generator.py:377-386, apitest/core/test_generator.py:102).
 * Digits and whitespace are ASCII only; `float()` values are exact reals.
 */
module Numbers {
  import opened Wrappers
  import opened Strings
  import opened Json

  // ---------------------------------------------------------------------------
  // Digit parts

  /** Ten to the power n. */
  function Pow10(n: nat): (r: nat)
    ensures r >= 1
  {
    if n == 0 then 1 else 10 * Pow10(n - 1)
  }

  /**
   * Python's `digitpart`: decimal digits, with single underscores allowed between two of them
   * (`1_000`), read from its last digit backwards.
   */
  predicate IsDigitPart(t: string)
    decreases |t|
  {
    t != [] && IsDigit(t[|t| - 1]) &&
    (|t| == 1 || IsDigitPart(t[..|t| - 1]) || (|t| > 2 && t[|t| - 2] == '_' && IsDigitPart(t[..|t| - 2])))
  }

  /** The value of a digit part: its digits read in base ten, underscores skipped. */
  function DigitPartValue(t: string): nat
    requires IsDigitPart(t)
    decreases |t|
  {
    var d := t[|t| - 1] as int - '0' as int;
    if |t| == 1 then d
    else if IsDigitPart(t[..|t| - 1]) then 10 * DigitPartValue(t[..|t| - 1]) + d
    else 10 * DigitPartValue(t[..|t| - 2]) + d
  }

  /** The number of digits of a digit part. */
  function DigitCount(t: string): nat
    requires IsDigitPart(t)
    decreases |t|
  {
    if |t| == 1 then 1
    else if IsDigitPart(t[..|t| - 1]) then DigitCount(t[..|t| - 1]) + 1
    else DigitCount(t[..|t| - 2]) + 1
  }

  /** A digit part holds only digits and underscores, so no point and no exponent mark. */
  lemma {:induction false} DigitPartChars(t: string)
    requires IsDigitPart(t)
    ensures forall i :: 0 <= i < |t| ==> IsDigit(t[i]) || t[i] == '_'
    decreases |t|
  {
    if |t| > 1 {
      var u := if IsDigitPart(t[..|t| - 1]) then t[..|t| - 1] else t[..|t| - 2];
      DigitPartChars(u);
      assert forall i :: 0 <= i < |u| ==> t[i] == u[i];
    }
  }

  /** A digit part holds no point and no exponent mark. */
  lemma DigitPartPlain(t: string)
    requires IsDigitPart(t)
    ensures '.' !in t
    ensures forall i :: 0 <= i < |t| ==> !IsExponentMark(t[i])
  {
    DigitPartChars(t);
  }

  /** A signed text is not itself a digit part. */
  lemma SignNotPart(t: string)
    requires t != [] && (t[0] == '-' || t[0] == '+')
    ensures !IsDigitPart(t)
  {
    if IsDigitPart(t) {
      DigitPartChars(t);
    }
  }

  /** Plain digits form a digit part, worth what `ParseNat` reads, with one digit per character. */
  lemma {:induction false} DigitsArePart(t: string)
    requires IsDigits(t)
    ensures IsDigitPart(t) && DigitPartValue(t) == ParseNat(t) && DigitCount(t) == |t|
    decreases |t|
  {
    if |t| > 1 {
      DigitsArePart(t[..|t| - 1]);
    }
  }

  /** An underscore between two runs of digits keeps a digit part, worth the digits joined. */
  lemma {:induction false} UnderscorePart(a: string, b: string)
    requires IsDigits(a) && IsDigits(b)
    ensures IsDigitPart(a + "_" + b) && DigitPartValue(a + "_" + b) == ParseNat(a + b)
    decreases |b|
  {
    var t := a + "_" + b;
    DigitsArePart(a);
    assert (a + b)[..|a + b| - 1] == a + b[..|b| - 1];
    if |b| == 1 {
      assert t[..|t| - 1] == a + "_";
      assert !IsDigitPart(a + "_");
      assert t[..|t| - 2] == a;
    } else {
      UnderscorePart(a, b[..|b| - 1]);
      assert t[..|t| - 1] == a + "_" + b[..|b| - 1];
    }
  }

  /** An optional sign followed by a digit part. */
  predicate IsSignedDigitPart(t: string) {
    IsDigitPart(t) || (|t| > 1 && (t[0] == '-' || t[0] == '+') && IsDigitPart(t[1..]))
  }

  /** `int(t)` for text without surrounding whitespace; None where Python raises. */
  function SignedDigitPart(t: string): (r: Option<int>)
    ensures r.Some? <==> IsSignedDigitPart(t)
    ensures IsDigitPart(t) ==> r == Some(DigitPartValue(t))
  {
    if IsDigitPart(t) then Some(DigitPartValue(t))
    else if |t| > 1 && (t[0] == '-' || t[0] == '+') && IsDigitPart(t[1..]) then
      var n: int := DigitPartValue(t[1..]);
      Some(if t[0] == '-' then -n else n)
    else None
  }

  // ---------------------------------------------------------------------------
  // int()

  /**
   * `int(s)` for a string: succeeds exactly when the text, stripped of surrounding whitespace,
   * is an optional sign and a digit part; None where Python raises ValueError.
   */
  function ParseInt(s: string): (r: Option<int>)
    ensures r.Some? <==> IsSignedDigitPart(Strip(s))
    ensures IsDigits(Strip(s)) ==> r == Some(ParseNat(Strip(s)))
  {
    var t := Strip(s);
    if IsDigits(t) then
      DigitsArePart(t);
      SignedDigitPart(t)
    else SignedDigitPart(t)
  }

  /** `int(str(n)) == n`. */
  lemma ParseIntText(n: int)
    ensures ParseInt(IntText(n)) == Some(n)
  {
    var t := IntText(n);
    var m: nat := if n < 0 then -n else n;
    var digits := NatToString(m);
    DigitsArePart(digits);
    ParseNatToString(m);
    StripTrimmed(t);
    if n < 0 {
      assert t == "-" + digits;
      assert t[1..] == digits;
      SignNotPart(t);
    }
  }

  /** `int()` ignores whitespace around the number (`int(" 42\n") == int("42")`). */
  lemma ParseIntPadded(a: string, s: string, b: string)
    requires IsBlank(a) && IsBlank(b)
    ensures ParseInt(a + s + b) == ParseInt(s)
  {
    StripIgnoresPadding(a, s, b);
  }

  /** An underscore between two digits does not change the number (`int("4_2") == 42`). */
  lemma ParseIntUnderscore(a: string, b: string)
    requires IsDigits(a) && IsDigits(b)
    ensures ParseInt(a + "_" + b) == ParseInt(a + b) == Some(ParseNat(a + b))
  {
    var t := a + "_" + b;
    UnderscorePart(a, b);
    DigitsArePart(a + b);
    assert t[0] == a[0] && t[|t| - 1] == b[|b| - 1];
    StripTrimmed(t);
    StripTrimmed(a + b);
    assert !IsDigits(t) by { assert t[|a|] == '_'; }
  }

  // ---------------------------------------------------------------------------
  // float()

  /** The marks that start an exponent. */
  predicate IsExponentMark(ch: char) {
    ch == 'e' || ch == 'E'
  }

  /** Index of the first exponent mark at or after `i`. */
  function ExponentFrom(t: string, i: nat): (r: Option<nat>)
    requires i <= |t|
    ensures r.None? ==> forall k :: i <= k < |t| ==> !IsExponentMark(t[k])
    ensures r.Some? ==> i <= r.value < |t| && IsExponentMark(t[r.value])
    decreases |t| - i
  {
    if i == |t| then None
    else if IsExponentMark(t[i]) then Some(i)
    else ExponentFrom(t, i + 1)
  }

  /** `n` written after the point in `places` decimal places. */
  function Fraction(n: nat, places: nat): (r: real)
    ensures r >= 0.0
  {
    var d := Pow10(places) as real;
    assert d > 0.0;
    n as real / d
  }

  /** `m * 10 ** e`, exactly. */
  function Scale(m: real, e: int): real {
    if e >= 0 then m * Pow10(e) as real
    else
      var d := Pow10(-e) as real;
      assert d > 0.0;
      m / d
  }

  /** Python's `number`: `digits`, `digits.`, `digits.digits` or `.digits`, each a digit part. */
  function UnsignedDecimal(t: string): (r: Option<real>)
    ensures r.Some? ==> r.value >= 0.0
    ensures IsDigitPart(t) ==> r == Some(DigitPartValue(t) as real)
  {
    if IsDigitPart(t) then
      DigitPartPlain(t);
      Some(DigitPartValue(t) as real)
    else
      match IndexOf(t, '.')
      case None => None
      case Some(dot) =>
        var whole := t[..dot];
        var frac := t[dot + 1..];
        if (whole == [] || IsDigitPart(whole)) && (frac == [] || IsDigitPart(frac)) && (whole != [] || frac != []) then
          var fraction := if frac == [] then 0.0 else Fraction(DigitPartValue(frac), DigitCount(frac));
          Some((if whole == [] then 0 else DigitPartValue(whole)) as real + fraction)
        else None
  }

  /** Python's `floatnumber` without a sign: a number, then optionally `e` or `E` and a signed digit part. */
  function UnsignedFloat(t: string): (r: Option<real>)
  {
    match ExponentFrom(t, 0)
    case None => UnsignedDecimal(t)
    case Some(k) =>
      match UnsignedDecimal(t[..k])
      case None => None
      case Some(m) =>
        match SignedDigitPart(t[k + 1..])
        case None => None
        case Some(e) => Some(Scale(m, e))
  }

  /**
   * `float(s)` for a string: surrounding whitespace, an optional sign, a number and an optional
   * exponent; None where Python raises ValueError.
   */
  function ParseFloat(s: string): (r: Option<real>)
    ensures var t := Strip(s);
      |t| > 0 && t[0] == '-' ==> r == (match UnsignedFloat(t[1..]) case None => None case Some(x) => Some(-x))
    ensures var t := Strip(s);
      |t| > 0 && t[0] == '+' ==> r == UnsignedFloat(t[1..])
  {
    var t := Strip(s);
    if |t| > 0 && (t[0] == '-' || t[0] == '+') then
      match UnsignedFloat(t[1..])
      case None => None
      case Some(x) => Some(if t[0] == '-' then -x else x)
    else UnsignedFloat(t)
  }

  /** `float()` ignores whitespace around the number. */
  lemma ParseFloatPadded(a: string, s: string, b: string)
    requires IsBlank(a) && IsBlank(b)
    ensures ParseFloat(a + s + b) == ParseFloat(s)
  {
    StripIgnoresPadding(a, s, b);
    SameStripSameFloat(a + s + b, s);
  }

  /** `float()` reads only the stripped text. */
  lemma SameStripSameFloat(x: string, y: string)
    requires Strip(x) == Strip(y)
    ensures ParseFloat(x) == ParseFloat(y)
  {
  }

  /** A digit part alone reads as its value. */
  lemma UnsignedFloatPart(t: string)
    requires IsDigitPart(t)
    ensures UnsignedFloat(t) == Some(DigitPartValue(t) as real)
  {
    DigitPartPlain(t);
  }

  /** Every text `int()` reads, `float()` reads as the same number. */
  lemma IntIsFloat(s: string, n: int)
    requires ParseInt(s) == Some(n)
    ensures ParseFloat(s) == Some(n as real)
  {
    var t := Strip(s);
    if IsDigitPart(t) {
      DigitPartChars(t);
      UnsignedFloatPart(t);
    } else {
      UnsignedFloatPart(t[1..]);
    }
  }

  /** Text without surrounding whitespace or sign is read by `UnsignedFloat` alone. */
  lemma ParseFloatUnsigned(t: string)
    requires Strip(t) == t
    requires t != [] ==> t[0] != '-' && t[0] != '+'
    ensures ParseFloat(t) == UnsignedFloat(t)
  {
  }

  /** A digit part followed by an exponent: `float("1e-05") == 1 / 10 ** 5`, `float("2E3") == 2000`. */
  lemma ParseFloatExponent(m: string, mark: char, e: string)
    requires IsDigits(m) && IsExponentMark(mark) && IsSignedDigitPart(e)
    ensures ParseFloat(m + [mark] + e) == Some(Scale(ParseNat(m) as real, SignedDigitPart(e).value))
  {
    var t := m + [mark] + e;
    assert t[0] == m[0];
    assert t[|t| - 1] == e[|e| - 1];
    StripTrimmed(t);
    ParseFloatUnsigned(t);
    UnsignedExponent(m, mark, e);
  }

  /** Without sign or padding, digits and an exponent read as the digits scaled. */
  lemma UnsignedExponent(m: string, mark: char, e: string)
    requires IsDigits(m) && IsExponentMark(mark) && IsSignedDigitPart(e)
    ensures UnsignedFloat(m + [mark] + e) == Some(Scale(ParseNat(m) as real, SignedDigitPart(e).value))
  {
    var t := m + [mark] + e;
    DigitsArePart(m);
    DigitPartChars(m);
    assert t[|m|] == mark;
    ExponentFromSkips(t, 0, |m|);
    assert t[..|m|] == m;
    assert t[|m| + 1..] == e;
    assert UnsignedDecimal(m) == Some(ParseNat(m) as real);
  }

  /** The search for an exponent mark passes over indices without one. */
  lemma {:induction false} ExponentFromSkips(t: string, i: nat, k: nat)
    requires i <= k < |t| && IsExponentMark(t[k])
    requires forall j :: i <= j < k ==> !IsExponentMark(t[j])
    ensures ExponentFrom(t, i) == Some(k)
    decreases k - i
  {
    if i < k {
      ExponentFromSkips(t, i + 1, k);
    }
  }

  /** `float(str(x)) == x` for an integral float, which Python writes as its integer and `.0`. */
  lemma ParseFloatText(x: real)
    requires x == x.Floor as real
    ensures ParseFloat(Repr(Float(x))) == Some(x)
  {
    var n := x.Floor;
    assert Repr(Float(x)) == IntText(n) + ".0";
    if n < 0 {
      NegativePointZero(-n);
    } else {
      NonNegativePointZero(n);
    }
  }

  /** `-m.0` reads back as `-m`. */
  lemma NegativePointZero(m: nat)
    requires m > 0
    ensures ParseFloat(IntText(-(m as int)) + ".0") == Some(-(m as real))
  {
    var u := NatToString(m) + ".0";
    var t := "-" + u;
    assert IntText(-(m as int)) + ".0" == t;
    UnsignedPointZero(m);
    assert t[1..] == u;
    assert t[0] == '-' && t[|t| - 1] == '0';
    StripTrimmed(t);
    assert UnsignedFloat(t[1..]) == Some(m as real);
  }

  /** `m.0` reads back as `m`. */
  lemma NonNegativePointZero(m: nat)
    ensures ParseFloat(IntText(m) + ".0") == Some(m as real)
  {
    var u := NatToString(m) + ".0";
    UnsignedPointZero(m);
    assert IntText(m) + ".0" == u;
    StripTrimmed(u);
    ParseFloatUnsigned(u);
  }

  /** `m.0` reads back as m, with no exponent mark in the way; it starts with a digit. */
  lemma UnsignedPointZero(m: nat)
    ensures var u := NatToString(m) + ".0";
      UnsignedFloat(u) == Some(m as real) && IsDigit(u[0]) && u[|u| - 1] == '0'
  {
    var digits := NatToString(m);
    var u := digits + ".0";
    PointZero(m);
    forall k | 0 <= k < |u| ensures !IsExponentMark(u[k]) {
      if k < |digits| {
        assert u[k] == digits[k];
      }
    }
    assert u[0] == digits[0];
  }

  /** A natural written with a `.0` fraction reads back as itself. */
  lemma PointZero(m: nat)
    ensures UnsignedDecimal(NatToString(m) + ".0") == Some(m as real)
  {
    var digits := NatToString(m);
    var zero := "0";
    assert ParseNat(zero) == 0 by { assert zero[..0] == []; }
    assert Fraction(0, |zero|) == 0.0 by { assert Pow10(1) == 10; }
    DecimalWithFraction(digits, zero);
    assert digits + "." + zero == digits + ".0";
    ParseNatToString(m);
  }

  /** Digits, a point and digits read as the whole part plus the fraction. */
  lemma DecimalWithFraction(whole: string, frac: string)
    requires IsDigits(whole) && IsDigits(frac)
    ensures UnsignedDecimal(whole + "." + frac) == Some(ParseNat(whole) as real + Fraction(ParseNat(frac), |frac|))
  {
    var s := whole + "." + frac;
    assert !IsDigitPart(s) by {
      if IsDigitPart(s) {
        DigitPartPlain(s);
      }
    }
    assert s == whole + ("." + frac);
    IndexOfDigits(whole, "." + frac);
    assert s[..|whole|] == whole;
    assert s[|whole| + 1..] == frac;
    DigitsArePart(whole);
    DigitsArePart(frac);
  }

  /** The first '.' after a run of digits is where the digits end. */
  lemma IndexOfDigits(digits: string, rest: string)
    requires IsDigits(digits) && rest != [] && rest[0] == '.'
    ensures IndexOf(digits + rest, '.') == Some(|digits|)
  {
    var s := digits + rest;
    assert s[|digits|] == '.';
    assert forall k :: 0 <= k < |digits| ==> s[k] == digits[k] && s[k] != '.';
  }
}
