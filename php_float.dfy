/** PHP's `(float)` cast of a string, with exact arithmetic: the value of the leading
    decimal numeral (optional sign, digits, optional fraction, optional exponent),
    or 0 when the string does not start with one. */
module PhpFloat {
  import opened Decimal

  /** The length of the leading run of digits. */
  function DigitRun(s: string): (n: nat)
    ensures n <= |s|
    ensures AllDigits(s[..n])
    ensures n < |s| ==> !IsDigit(s[n])
  {
    if s == [] || !IsDigit(s[0]) then 0
    else
      var n := 1 + DigitRun(s[1..]);
      assert forall i :: 1 <= i < n ==> s[..n][i] == s[1..][..n - 1][i - 1];
      n
  }

  function Pow10(e: nat): (p: real)
    ensures p >= 1.0
  {
    if e == 0 then 1.0 else 10.0 * Pow10(e - 1)
  }

  /** The factor an exponent `e` stands for: 10 to the power `e`. */
  function Scale(e: int): (p: real)
    ensures p > 0.0
  {
    if e >= 0 then Pow10(e) else 1.0 / Pow10(-e)
  }

  /** The value of the digits after a decimal point, first digit worth a tenth. */
  function FractionValue(s: string): (f: real)
    requires AllDigits(s)
    ensures 0.0 <= f <= 1.0
  {
    if s == [] then 0.0
    else
      assert AllDigits(s[1..]);
      (DigitValue(s[0]) as real + FractionValue(s[1..])) / 10.0
  }

  /** An optional leading sign: whether it is a minus, and what follows it. */
  function SplitSign(s: string): (bool, string)
  {
    if s != [] && s[0] == '-' then (true, s[1..])
    else if s != [] && s[0] == '+' then (false, s[1..])
    else (false, s)
  }

  /** The exponent that follows a mantissa: `e` or `E`, an optional sign and at least
      one digit; anything else is no exponent, which counts as 0. */
  function ExponentOf(s: string): int
  {
    if s == [] || (s[0] != 'e' && s[0] != 'E') then 0
    else
      var (neg, u) := SplitSign(s[1..]);
      var k := DigitRun(u);
      if k == 0 then 0
      else if neg then -(DigitsValue(u[..k]) as int)
      else DigitsValue(u[..k]) as int
  }

  /** The pieces of an unsigned numeral: the digits before the point, the digits after
      it, and the text that follows them. */
  datatype Mantissa = Mantissa(whole: string, fraction: string, tail: string)

  function SplitMantissa(u: string): (m: Mantissa)
    ensures AllDigits(m.whole) && AllDigits(m.fraction)
  {
    var k := DigitRun(u);
    var rest := u[k..];
    if rest != [] && rest[0] == '.' then
      var f := DigitRun(rest[1..]);
      Mantissa(u[..k], rest[1..][..f], rest[1..][f..])
    else Mantissa(u[..k], [], rest)
  }

  /** A mantissa times ten to the power of an exponent. */
  function Scaled(m: real, e: int): real
  {
    m * Scale(e)
  }

  /** The value of the numeral at the start of `u`, which carries no sign. */
  function UnsignedValue(u: string): real
  {
    var m := SplitMantissa(u);
    if m.whole == [] && m.fraction == [] then 0.0
    else Scaled(DigitsValue(m.whole) as real + FractionValue(m.fraction), ExponentOf(m.tail))
  }

  /** The cast itself. */
  function ParseFloat(s: string): real
  {
    var (neg, u) := SplitSign(s);
    var v := UnsignedValue(u);
    if neg then -v else v
  }

  /** Text that cannot continue a numeral: it does not begin with a digit, a point or an exponent mark. */
  predicate EndsNumeral(t: string) {
    t == [] || !(IsDigit(t[0]) || t[0] == '.' || t[0] == 'e' || t[0] == 'E')
  }

  lemma {:induction false} DigitRunOfDigits(a: string, t: string)
    requires AllDigits(a)
    requires t == [] || !IsDigit(t[0])
    ensures DigitRun(a + t) == |a|
  {
    if a != [] {
      assert (a + t)[1..] == a[1..] + t;
      DigitRunOfDigits(a[1..], t);
    } else {
      assert a + t == t;
    }
  }

  /** A string that does not start with a numeral casts to 0. */
  lemma NoNumeralIsZero(s: string)
    requires s == [] || !(IsDigit(s[0]) || s[0] == '.' || s[0] == '-' || s[0] == '+')
    ensures ParseFloat(s) == 0.0
  {
  }

  /** Text after a mantissa that carries no exponent and no further digits. */
  predicate EndsMantissa(t: string) {
    t == [] || !(IsDigit(t[0]) || t[0] == 'e' || t[0] == 'E')
  }

  lemma NoExponent(t: string)
    requires EndsMantissa(t)
    ensures ExponentOf(t) == 0 && Scale(ExponentOf(t)) == 1.0
  {
  }

  lemma ScaledByNoExponent(m: real, t: string)
    requires EndsMantissa(t)
    ensures Scaled(m, ExponentOf(t)) == m
  {
    NoExponent(t);
  }

  lemma SplitWhole(a: string, t: string)
    requires AllDigits(a)
    requires EndsNumeral(t)
    ensures SplitMantissa(a + t) == Mantissa(a, [], t)
  {
    var u := a + t;
    DigitRunOfDigits(a, t);
    assert u[..|a|] == a && u[|a|..] == t;
  }

  lemma SplitWithFraction(a: string, f: string, t: string)
    requires AllDigits(a) && AllDigits(f)
    requires EndsMantissa(t)
    ensures SplitMantissa(a + "." + f + t) == Mantissa(a, f, t)
  {
    var u := a + "." + f + t;
    var rest := "." + f + t;
    assert u == a + rest;
    DigitRunOfDigits(a, rest);
    assert u[..|a|] == a && u[|a|..] == rest;
    assert rest[1..] == f + t;
    DigitRunOfDigits(f, t);
    assert (f + t)[..|f|] == f && (f + t)[|f|..] == t;
  }

  /** An unsigned run of digits followed by non-numeric text has the value of the digits. */
  lemma UnsignedWhole(a: string, t: string)
    requires |a| >= 1 && AllDigits(a)
    requires EndsNumeral(t)
    ensures UnsignedValue(a + t) == DigitsValue(a) as real
  {
    SplitWhole(a, t);
    ScaledByNoExponent(DigitsValue(a) as real + FractionValue([]), t);
  }

  /** Digits, a point and fraction digits, followed by text that ends the mantissa. */
  lemma UnsignedWithFraction(a: string, f: string, t: string)
    requires AllDigits(a) && AllDigits(f) && |a| >= 1
    requires EndsMantissa(t)
    ensures UnsignedValue(a + "." + f + t) == DigitsValue(a) as real + FractionValue(f)
  {
    SplitWithFraction(a, f, t);
    ScaledByNoExponent(DigitsValue(a) as real + FractionValue(f), t);
  }

  /** Without a leading sign the cast is the unsigned value. */
  lemma UnsignedCast(s: string)
    requires s == [] || (s[0] != '-' && s[0] != '+')
    ensures ParseFloat(s) == UnsignedValue(s)
  {
  }

  /** The cast reads a rendered natural number back, whatever non-numeric text follows it. */
  lemma NatPrefixRoundTrip(n: nat, t: string)
    requires EndsNumeral(t)
    ensures ParseFloat(NatToString(n) + t) == n as real
  {
    var a := NatToString(n);
    UnsignedCast(a + t);
    UnsignedWhole(a, t);
    NatToStringRoundTrip(n);
  }

  /** A leading minus negates the value of an unsigned numeral. */
  lemma MinusNegates(s: string)
    requires s == [] || (s[0] != '-' && s[0] != '+')
    ensures ParseFloat("-" + s) == -ParseFloat(s)
  {
    assert ("-" + s)[1..] == s;
  }

  /** Two-decimal amount text, as the payment provider writes it: `"100.00"` for 10000 cents. */
  function CentsToString(c: nat): string
  {
    NatToString(c / 100) + "." + [DigitChar(c / 10 % 10), DigitChar(c % 10)]
  }

  lemma CentsDigits(c: nat)
    ensures c == 100 * (c / 100) + 10 * (c / 10 % 10) + c % 10
  {
    var q := c / 10;
    assert c == 10 * q + c % 10;
    assert q == 10 * (q / 10) + q % 10;
    assert q / 10 == c / 100;
  }

  lemma TwoFractionDigits(x: nat, y: nat)
    requires x < 10 && y < 10
    ensures FractionValue([DigitChar(x), DigitChar(y)]) == x as real / 10.0 + y as real / 100.0
  {
    var f := [DigitChar(x), DigitChar(y)];
    assert f[1..] == [DigitChar(y)];
    assert FractionValue([DigitChar(y)]) == y as real / 10.0;
  }

  /** The cast reads a two-decimal amount back as its exact value. */
  lemma CentsRoundTrip(c: nat)
    ensures ParseFloat(CentsToString(c)) == c as real / 100.0
  {
    var a := NatToString(c / 100);
    var f := [DigitChar(c / 10 % 10), DigitChar(c % 10)];
    assert CentsToString(c) == a + "." + f + [];
    UnsignedCast(a + "." + f + []);
    UnsignedWithFraction(a, f, []);
    NatToStringRoundTrip(c / 100);
    TwoFractionDigits(c / 10 % 10, c % 10);
    CentsDigits(c);
  }
}
