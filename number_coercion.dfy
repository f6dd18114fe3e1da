/** `Number(text)`, the conversion `z.coerce.number()` applies to a submitted
    amount, for decimal numerals: surrounding white space is ignored, an empty
    or all-white text is 0, an optional sign is followed by digits with at most
    one decimal point, and anything else is NaN. Values are kept exactly. */
module NumberCoercion {
  import opened JsStrings

  /** What `Number(...)` produces: NaN, or a number (held as an exact real). */
  datatype Coerced = NaN | Num(value: real)

  predicate IsDigit(c: char) { '0' <= c <= '9' }

  predicate AllDigits(s: string) { forall i :: 0 <= i < |s| ==> IsDigit(s[i]) }

  function Pow10(k: nat): (p: nat)
    ensures p >= 1
  {
    if k == 0 then 1 else 10 * Pow10(k - 1)
  }

  /** The value of a run of decimal digits; it always fits in as many digits. */
  function DigitsValue(d: string): (n: nat)
    requires AllDigits(d)
    ensures n < Pow10(|d|)
  {
    if d == [] then 0
    else
      var high := DigitsValue(d[..|d| - 1]);
      assert high + 1 <= Pow10(|d| - 1);
      10 * high + (d[|d| - 1] as int - '0' as int)
  }

  /** Where the numeral splits into whole part and fraction: the index of its
      decimal point, or its length when it has none. */
  function PointAt(u: string): (k: nat)
    ensures k <= |u|
  {
    IndexOf(u, '.')
  }

  /** An unsigned decimal numeral: digits, optionally a point and more digits,
      with at least one digit in all ("5", "5.", ".5", "45.00"). */
  function UnsignedDecimal(u: string): (c: Coerced)
    ensures c.Num? ==> c.value >= 0.0
  {
    var k := PointAt(u);
    var whole := u[..k];
    var fraction := if k < |u| then u[k + 1..] else [];
    if AllDigits(whole) && AllDigits(fraction) && |whole| + |fraction| > 0 then
      Num(DigitsValue(whole) as real + DigitsValue(fraction) as real / Pow10(|fraction|) as real)
    else NaN
  }

  function Negate(c: Coerced): Coerced {
    match c
    case NaN => NaN
    case Num(v) => Num(-v)
  }

  /** `Number(s)` for a string `s`. */
  function StringToNumber(s: string): (c: Coerced)
    ensures AllWhite(s) ==> c == Num(0.0)
  {
    TrimmedEmptyIffAllWhite(s);
    var t := Trim(s);
    if t == [] then Num(0.0)
    else if t[0] == '-' then Negate(UnsignedDecimal(t[1..]))
    else if t[0] == '+' then UnsignedDecimal(t[1..])
    else UnsignedDecimal(t)
  }

  /** A numeral written with a minus sign never coerces to a positive number. */
  lemma MinusNeverPositive(s: string)
    requires Trim(s) != [] && Trim(s)[0] == '-'
    ensures !(StringToNumber(s).Num? && StringToNumber(s).value > 0.0)
  {
    var c := UnsignedDecimal(Trim(s)[1..]);
    assert StringToNumber(s) == Negate(c);
  }

  /** The numeral inside `s` (after trimming and an optional sign) has at most
      two digits after its decimal point. */
  predicate AtMostTwoDecimals(s: string) {
    var t := Trim(s);
    var u := if t != [] && (t[0] == '-' || t[0] == '+') then t[1..] else t;
    |u| <= PointAt(u) + 3
  }

  predicate IsWhole(x: real) { x == x.Floor as real }

  lemma HundredthsAreWhole(whole: nat, fraction: nat, digits: nat) returns (cents: nat)
    requires digits <= 2 && fraction < Pow10(digits)
    ensures (whole as real + fraction as real / Pow10(digits) as real) * 100.0 == cents as real
  {
    if digits == 0 {
      cents := 100 * whole;
    } else if digits == 1 {
      assert Pow10(1) == 10;
      cents := 100 * whole + 10 * fraction;
    } else {
      assert Pow10(2) == 10 * Pow10(1) == 100;
      cents := 100 * whole + fraction;
    }
  }

  lemma UnsignedCents(u: string) returns (cents: nat)
    requires UnsignedDecimal(u).Num? && |u| <= PointAt(u) + 3
    ensures UnsignedDecimal(u).value * 100.0 == cents as real
  {
    var k := PointAt(u);
    var whole := u[..k];
    var fraction := if k < |u| then u[k + 1..] else [];
    assert AllDigits(whole) && AllDigits(fraction);
    assert UnsignedDecimal(u).value
        == DigitsValue(whole) as real + DigitsValue(fraction) as real / Pow10(|fraction|) as real;
    cents := HundredthsAreWhole(DigitsValue(whole), DigitsValue(fraction), |fraction|);
  }

  /** An amount written with at most two decimals is a whole number of cents
      once multiplied by 100, as `amount * 100` in the invoice handlers does. */
  lemma CentsAreWhole(s: string)
    requires StringToNumber(s).Num? && AtMostTwoDecimals(s)
    ensures IsWhole(StringToNumber(s).value * 100.0)
  {
    var t := Trim(s);
    var cents: int := 0;
    if t != [] {
      var u := if t[0] == '-' || t[0] == '+' then t[1..] else t;
      var c := UnsignedDecimal(u);
      assert StringToNumber(s) == if t[0] == '-' then Negate(c) else c;
      var n := UnsignedCents(u);
      cents := if t[0] == '-' then -(n as int) else n;
    }
    assert StringToNumber(s).value * 100.0 == cents as real;
  }

  // ------------------------------------------- dollars-and-cents round trip

  function Digit(n: nat): (c: char)
    requires n < 10
    ensures IsDigit(c) && c as int - '0' as int == n
  {
    ('0' as int + n) as char
  }

  /** The decimal digits of `n`, without leading zeros. */
  function NatText(n: nat): (d: string)
    ensures d != [] && AllDigits(d)
  {
    if n < 10 then [Digit(n)] else NatText(n / 10) + [Digit(n % 10)]
  }

  lemma {:induction false} NatTextValue(n: nat)
    ensures DigitsValue(NatText(n)) == n
  {
    if n >= 10 {
      var d := NatText(n);
      assert d[..|d| - 1] == NatText(n / 10);
      NatTextValue(n / 10);
    }
  }

  /** An amount of `cents` written as dollars and cents, "D.DD" (4500 is
      "45.00", 7 is "0.07"). */
  function CentsText(cents: nat): string {
    NatText(cents / 100) + "." + CentDigits(cents % 100)
  }

  function CentDigits(r: nat): (f: string)
    requires r < 100
    ensures |f| == 2 && AllDigits(f)
  {
    [Digit(r / 10), Digit(r % 10)]
  }

  lemma PointAfterWhole(w: string, f: string)
    requires AllDigits(w)
    ensures PointAt(w + "." + f) == |w|
  {
    var u := w + "." + f;
    assert u[|w|] == '.';
  }

  lemma CentDigitsValue(r: nat)
    requires r < 100
    ensures DigitsValue(CentDigits(r)) == r
  {
    var f := CentDigits(r);
    assert f[..1] == [f[0]];
    assert [f[0]][..0] == [];
  }

  lemma DollarsAndCents(q: nat, r: nat)
    ensures q as real + r as real / Pow10(2) as real == (100 * q + r) as real / 100.0
  {
    assert Pow10(2) == 100 by { assert Pow10(1) == 10; }
  }

  lemma UnsignedCentsText(cents: nat)
    ensures UnsignedDecimal(CentsText(cents)) == Num(cents as real / 100.0)
  {
    var w, f := NatText(cents / 100), CentDigits(cents % 100);
    var u := CentsText(cents);
    PointAfterWhole(w, f);
    assert u[..|w|] == w && u[|w| + 1..] == f;
    NatTextValue(cents / 100);
    CentDigitsValue(cents % 100);
    DollarsAndCents(cents / 100, cents % 100);
  }

  /** Reading back an amount written as dollars and cents gives exactly that
      many hundredths. */
  lemma CentsTextRoundTrip(cents: nat)
    ensures StringToNumber(CentsText(cents)) == Num(cents as real / 100.0)
  {
    var u := CentsText(cents);
    var w := NatText(cents / 100);
    assert u[0] == w[0];
    assert u[|u| - 1] == CentDigits(cents % 100)[1];
    UnsignedOf(u);
    UnsignedCentsText(cents);
  }

  lemma FortyFiveDigits()
    ensures UnsignedDecimal("45.00") == Num(45.0)
  {
    assert PointAt("45.00") == 2;
    assert DigitsValue("45") == 45;
    assert DigitsValue("00") == 0;
  }

  lemma FortyFive()
    ensures StringToNumber("45.00") == Num(45.0)
  {
    UnsignedOf("45.00");
    FortyFiveDigits();
  }

  lemma Ten()
    ensures StringToNumber("10") == Num(10.0)
  {
    UnsignedOf("10");
    assert PointAt("10") == 2;
    assert DigitsValue("10") == 10;
  }

  lemma PaddedTen()
    ensures StringToNumber(" 10 ") == Num(10.0)
  {
    assert SkipWhite(" 10 ", 0) == 1;
    assert SkipWhiteBack(" 10 ", 4) == 3;
    assert Trim(" 10 ") == "10";
    assert PointAt("10") == 2;
    assert DigitsValue("10") == 10;
  }

  lemma UnsignedOf(s: string)
    requires s != [] && !IsWhiteSpace(s[0]) && !IsWhiteSpace(s[|s| - 1])
    requires s[0] != '-' && s[0] != '+'
    ensures StringToNumber(s) == UnsignedDecimal(s)
  {
    TrimKeeps(s);
  }

  lemma NotANumeral()
    ensures StringToNumber("abc") == NaN
  {
    UnsignedOf("abc");
    var k := PointAt("abc");
    assert k > 0 by { assert "abc"[0] != '.'; }
    assert !IsDigit("abc"[..k][0]);
  }

  lemma BlankIsZero()
    ensures StringToNumber("") == Num(0.0)
  {
    assert AllWhite("");
  }

  /** "45.00" is forty-five, " 10 " is ten, an empty text is zero and a word is
      NaN. */
  lemma ExampleNumerals()
    ensures StringToNumber("45.00") == Num(45.0)
    ensures StringToNumber("") == Num(0.0)
    ensures StringToNumber(" 10 ") == Num(10.0)
    ensures StringToNumber("abc") == NaN
  {
    FortyFive();
    BlankIsZero();
    PaddedTen();
    NotANumeral();
  }
}
