/** Java's `String.format("%.2f", x)` on an exact amount: a '-' when x is
    negative, then |x| rounded half-up to hundredths, written as decimal digits
    without leading zeros, a '.', and exactly two fractional digits. A parser for
    that shape is the partner that shows the rendering keeps the rounded value. */
module MoneyFormat {

  datatype Option<T> = None | Some(value: T)

  predicate IsDigit(c: char)
  {
    '0' <= c <= '9'
  }

  predicate AllDigits(s: string)
  {
    forall i :: 0 <= i < |s| ==> IsDigit(s[i])
  }

  function DigitValue(c: char): nat
    requires IsDigit(c)
  {
    c as int - '0' as int
  }

  function DigitChar(d: nat): (c: char)
    requires d < 10
    ensures IsDigit(c) && DigitValue(c) == d
  {
    ('0' as int + d) as char
  }

  /** The decimal digits of n, most significant first, without leading zeros. */
  function Decimal(n: nat): (s: string)
    ensures |s| >= 1 && AllDigits(s)
    ensures s[0] == '0' ==> n == 0
    ensures |s| == 1 <==> n < 10
  {
    if n < 10 then [DigitChar(n)] else Decimal(n / 10) + [DigitChar(n % 10)]
  }

  /** The number a string of decimal digits denotes. */
  function ValueOf(s: string): nat
    requires AllDigits(s)
  {
    if s == [] then 0 else 10 * ValueOf(s[..|s| - 1]) + DigitValue(s[|s| - 1])
  }

  /** Reading the digits back gives the number written. */
  lemma {:induction false} DecimalRoundTrip(n: nat)
    ensures ValueOf(Decimal(n)) == n
  {
    if n >= 10 {
      var s := Decimal(n);
      assert s[..|s| - 1] == Decimal(n / 10);
      DecimalRoundTrip(n / 10);
    }
  }

  /** A digit string without a leading zero is the rendering of what it denotes
      (the other direction: the rendering is the only canonical spelling). */
  lemma {:induction false} CanonicalDecimal(s: string)
    requires |s| >= 1 && AllDigits(s) && (s[0] == '0' ==> |s| == 1)
    ensures Decimal(ValueOf(s)) == s
  {
    if |s| == 1 {
      assert DigitChar(DigitValue(s[0])) == s[0];
    } else {
      var p := s[..|s| - 1];
      assert p[0] == s[0];
      CanonicalDecimal(p);
      LeadingDigitPositive(p);
      var d := DigitValue(s[|s| - 1]);
      assert ValueOf(s) / 10 == ValueOf(p) && ValueOf(s) % 10 == d;
      assert DigitChar(d) == s[|s| - 1];
      assert s == p + [s[|s| - 1]];
    }
  }

  /** A digit string that does not start with '0' denotes a positive number. */
  lemma {:induction false} LeadingDigitPositive(s: string)
    requires |s| >= 1 && AllDigits(s) && s[0] != '0'
    ensures ValueOf(s) >= 1
  {
    if |s| > 1 {
      LeadingDigitPositive(s[..|s| - 1]);
    }
  }

  /** Half-up rounding of a non-negative amount to a whole number of hundredths. */
  function HalfUpCents(x: real): (c: nat)
    requires x >= 0.0
    ensures c as real - 0.5 <= x * 100.0 < c as real + 0.5
  {
    (x * 100.0 + 0.5).Floor
  }

  /** The hundredths "%.2f" shows for x: the magnitude is rounded half-up (a half
      goes away from zero) and the sign is x's own. */
  function SignedCents(x: real): (c: int)
    ensures x >= 0.0 ==> c as real - 0.5 <= x * 100.0 < c as real + 0.5
    ensures x < 0.0 ==> c as real - 0.5 < x * 100.0 <= c as real + 0.5
    ensures x < 0.0 ==> c <= 0
    ensures x >= 0.0 ==> c >= 0
  {
    if x < 0.0 then -(HalfUpCents(-x) as int) else HalfUpCents(x)
  }

  /** A count of hundredths written as units, '.', and two digits. */
  function CentsText(c: nat): (s: string)
    ensures |s| >= 4 && s[|s| - 3] == '.'
    ensures AllDigits(s[..|s| - 3]) && AllDigits(s[|s| - 2..])
    ensures IsDigit(s[0])
  {
    var cents := c % 100;
    Decimal(c / 100) + "." + [DigitChar(cents / 10), DigitChar(cents % 10)]
  }

  /** What the leading '-' adds to the text and what it leaves in place. */
  lemma MinusPrefix(u: string)
    requires |u| >= 4
    ensures var s := "-" + u;
      |s| == |u| + 1 && s[0] == '-' && s[1..] == u && s[1..|s| - 3] == u[..|u| - 3] &&
      s[|s| - 3..] == u[|u| - 3..]
  {
  }

  /** The shape "%.2f" prints: a '-' exactly when `negative`, integer digits
      without a leading zero, '.', and two fractional digits. */
  predicate TwoDecimalsShape(s: string, negative: bool)
  {
    |s| >= 4 && (s[0] == '-' <==> negative) && s[|s| - 3] == '.' &&
    IsDigit(s[|s| - 2]) && IsDigit(s[|s| - 1]) &&
    var u := s[if negative then 1 else 0..|s| - 3];
    |u| >= 1 && AllDigits(u) && (u[0] == '0' ==> |u| == 1)
  }

  /** `s` is a text "%.2f" could print for x: the right shape, reading back as
      x rounded to hundredths. */
  predicate ShowsTwoDecimals(s: string, x: real)
  {
    TwoDecimalsShape(s, x < 0.0) && ParseTwoDecimals(s) == Some(SignedCents(x))
  }

  /** "%.2f" of x. */
  function FormatTwoDecimals(x: real): (s: string)
    ensures TwoDecimalsShape(s, x < 0.0)
  {
    if x < 0.0 then
      var u := CentsText(HalfUpCents(-x));
      MinusPrefix(u);
      "-" + u
    else
      CentsText(HalfUpCents(x))
  }

  /** Reads "units.dd", without a sign, as hundredths. */
  function ParseCents(s: string): Option<nat>
  {
    if |s| >= 4 && s[|s| - 3] == '.' && AllDigits(s[..|s| - 3]) && AllDigits(s[|s| - 2..]) then
      Some(100 * ValueOf(s[..|s| - 3]) + ValueOf(s[|s| - 2..]))
    else None
  }

  /** Reads an optionally signed "units.dd" as hundredths. */
  function ParseTwoDecimals(s: string): Option<int>
  {
    if |s| >= 1 && s[0] == '-' then
      match ParseCents(s[1..])
      case Some(c) => Some(-(c as int))
      case None => None
    else
      match ParseCents(s)
      case Some(c) => Some(c)
      case None => None
  }

  lemma TwoDigitsValue(a: char, b: char)
    requires IsDigit(a) && IsDigit(b)
    ensures ValueOf([a, b]) == 10 * DigitValue(a) + DigitValue(b)
  {
    var s := [a, b];
    assert s[..|s| - 1] == [a] && [a][..0] == [];
    assert ValueOf([a]) == DigitValue(a);
    assert s[|s| - 1] == b;
  }

  /** How ParseCents reads units, '.', and two digits. */
  lemma ParseUnitsDot(units: string, a: char, b: char)
    requires |units| >= 1 && AllDigits(units) && IsDigit(a) && IsDigit(b)
    ensures AllDigits([a, b])
    ensures ParseCents(units + "." + [a, b]) == Some(100 * ValueOf(units) + ValueOf([a, b]))
  {
    DotParts(units, a, b);
    ParseSplit(units + "." + [a, b], units, [a, b]);
  }

  /** ParseCents on a text whose parts are known. */
  lemma ParseSplit(s: string, units: string, f: string)
    requires |s| >= 4 && s[|s| - 3] == '.' && s[..|s| - 3] == units && s[|s| - 2..] == f
    requires AllDigits(units) && AllDigits(f)
    ensures ParseCents(s) == Some(100 * ValueOf(units) + ValueOf(f))
  {
  }

  /** Where units, '.', and two digits sit in their concatenation. */
  lemma DotParts(units: string, a: char, b: char)
    ensures var s := units + "." + [a, b];
      |s| == |units| + 3 && s[|s| - 3] == '.' && s[..|s| - 3] == units && s[|s| - 2..] == [a, b]
  {
  }

  /** The hundreds, tens and units of a count of hundredths recombine to it. */
  lemma CentsDigits(c: nat)
    ensures 100 * (c / 100) + 10 * (c % 100 / 10) + c % 100 % 10 == c
  {
    var cents := c % 100;
    assert c == 100 * (c / 100) + cents;
    assert cents == 10 * (cents / 10) + cents % 10;
  }

  lemma CentsTextRoundTrip(c: nat)
    ensures ParseCents(CentsText(c)) == Some(c)
  {
    var units, tens, ones := Decimal(c / 100), DigitChar(c % 100 / 10), DigitChar(c % 100 % 10);
    assert CentsText(c) == units + "." + [tens, ones];
    DecimalRoundTrip(c / 100);
    ParseUnitsDot(units, tens, ones);
    TwoDigitsValue(tens, ones);
    CentsDigits(c);
  }

  /** What "%.2f" prints reads back as the rounded, signed number of hundredths. */
  lemma FormatTwoDecimalsRoundTrip(x: real)
    ensures ParseTwoDecimals(FormatTwoDecimals(x)) == Some(SignedCents(x))
  {
    if x < 0.0 {
      var c := HalfUpCents(-x);
      var u := CentsText(c);
      CentsTextRoundTrip(c);
      MinusPrefix(u);
      assert FormatTwoDecimals(x) == "-" + u;
      assert SignedCents(x) == -(c as int);
    } else {
      var c := HalfUpCents(x);
      CentsTextRoundTrip(c);
      assert FormatTwoDecimals(x) == CentsText(c) && CentsText(c)[0] != '-';
      assert SignedCents(x) == c;
    }
  }

  /** FormatTwoDecimals prints a text that shows x. */
  lemma FormatTwoDecimalsShows(x: real)
    ensures ShowsTwoDecimals(FormatTwoDecimals(x), x)
  {
    FormatTwoDecimalsRoundTrip(x);
  }

  /** An unsigned "units.dd" text with canonical units is the only spelling of
      the hundredths it reads as. */
  lemma {:induction false} CentsTextUnique(s: string, c: nat)
    requires |s| >= 4 && s[|s| - 3] == '.' && IsDigit(s[|s| - 2]) && IsDigit(s[|s| - 1])
    requires var u := s[..|s| - 3]; |u| >= 1 && AllDigits(u) && (u[0] == '0' ==> |u| == 1)
    requires ParseCents(s) == Some(c)
    ensures s == CentsText(c)
  {
    var u, f := s[..|s| - 3], s[|s| - 2..];
    assert f == [s[|s| - 2], s[|s| - 1]];
    TwoDigitsValue(s[|s| - 2], s[|s| - 1]);
    var hi, lo := DigitValue(s[|s| - 2]), DigitValue(s[|s| - 1]);
    assert c == 100 * ValueOf(u) + 10 * hi + lo;
    assert c / 100 == ValueOf(u) && c % 100 / 10 == hi && c % 100 % 10 == lo;
    CanonicalDecimal(u);
    assert DigitChar(hi) == s[|s| - 2] && DigitChar(lo) == s[|s| - 1];
    assert s == u + "." + f;
  }

  /** The converse of FormatTwoDecimalsShows: a text that shows x is the one
      FormatTwoDecimals prints, so the shape and the value pin the text. */
  lemma ShowsTwoDecimalsUnique(s: string, x: real)
    requires ShowsTwoDecimals(s, x)
    ensures s == FormatTwoDecimals(x)
  {
    if x < 0.0 {
      var t := s[1..];
      assert t[..|t| - 3] == s[1..|s| - 3];
      assert ParseCents(t) == Some(HalfUpCents(-x));
      CentsTextUnique(t, HalfUpCents(-x));
      assert s == "-" + t;
    } else {
      CentsTextUnique(s, HalfUpCents(x));
    }
  }

  /** An amount that is a whole number of hundredths is not rounded, so (by
      FormatTwoDecimalsRoundTrip) "%.2f" shows it exactly. */
  lemma WholeCentsUnrounded(c: int)
    ensures SignedCents(c as real / 100.0) == c
  {
    var x := c as real / 100.0;
    assert x * 100.0 == c as real;
    var r := SignedCents(x);
    assert r as real - 0.5 <= c as real <= r as real + 0.5;
  }

  /** A balance of 600 prints as "600.00". */
  lemma RenderedBalance()
    ensures FormatTwoDecimals(600.0) == "600.00"
  {
    assert DigitChar(0) == '0' && DigitChar(6) == '6';
    assert Decimal(600) == "600" by {
      assert Decimal(6) == "6" && Decimal(60) == "60";
    }
    assert CentsText(60000) == "600.00";
    assert HalfUpCents(600.0) == 60000;
  }

  /** An overpayment of 500 prints as "-500.00". */
  lemma RenderedOverpayment()
    ensures FormatTwoDecimals(-500.0) == "-500.00"
  {
    assert DigitChar(0) == '0' && DigitChar(5) == '5';
    assert Decimal(500) == "500" by {
      assert Decimal(5) == "5" && Decimal(50) == "50";
    }
    assert CentsText(50000) == "500.00";
    assert HalfUpCents(500.0) == 50000;
  }
}
