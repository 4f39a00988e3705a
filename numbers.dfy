/** The part of JavaScript's number semantics the application depends on:
    amounts that may be NaN, addition as `reduce` uses it, and `parseFloat`
    on plain decimal text. Numbers are exact reals here; floating-point
    rounding and infinities are not modelled. */
module JsNumbers {

  /** A JavaScript number: a finite value or NaN. */
  datatype Number = Finite(value: real) | NaN

  /** `a + b` on JavaScript numbers: NaN absorbs everything. */
  function Add(a: Number, b: Number): (r: Number)
    ensures r.NaN? <==> a.NaN? || b.NaN?
    ensures r.Finite? ==> r.value == a.value + b.value
  {
    if a.Finite? && b.Finite? then Finite(a.value + b.value) else NaN
  }

  lemma AddAssociative(a: Number, b: Number, c: Number)
    ensures Add(Add(a, b), c) == Add(a, Add(b, c))
  {
  }

  lemma AddCommutative(a: Number, b: Number)
    ensures Add(a, b) == Add(b, a)
  {
  }

  predicate IsDigit(c: char) {
    '0' <= c <= '9'
  }

  predicate AllDigits(s: string) {
    forall i :: 0 <= i < |s| ==> IsDigit(s[i])
  }

  predicate HasDigit(s: string) {
    exists i :: 0 <= i < |s| && IsDigit(s[i])
  }

  /** The length of the longest prefix of `s` made of decimal digits. */
  function LeadingDigitCount(s: string): (k: nat)
    ensures k <= |s|
    ensures AllDigits(s[..k])
    ensures k < |s| ==> !IsDigit(s[k])
  {
    if s != [] && IsDigit(s[0]) then
      var k := 1 + LeadingDigitCount(s[1..]);
      assert s[..k] == [s[0]] + s[1..][..k - 1];
      k
    else 0
  }

  /** The contract of LeadingDigitCount pins it down: a digit prefix that
      stops at a non-digit (or at the end) is the leading one. */
  lemma LeadingDigitCountIs(s: string, m: nat)
    requires m <= |s| && AllDigits(s[..m])
    requires m < |s| ==> !IsDigit(s[m])
    ensures LeadingDigitCount(s) == m
  {
    var k := LeadingDigitCount(s);
    assert forall i :: 0 <= i < m ==> s[..m][i] == s[i];
    assert forall i :: 0 <= i < k ==> s[..k][i] == s[i];
  }

  function Pow10(n: nat): (r: nat)
    ensures r >= 1
  {
    if n == 0 then 1 else 10 * Pow10(n - 1)
  }

  function DigitValue(c: char): nat {
    if IsDigit(c) then c as int - '0' as int else 0
  }

  /** The value of a string of decimal digits, most significant first. */
  function DigitsValue(s: string): (v: nat)
    ensures v < Pow10(|s|)
  {
    if s == [] then 0 else DigitsValue(s[..|s| - 1]) * 10 + DigitValue(s[|s| - 1])
  }

  /** The value of the digits after a decimal point: `.d1 d2 ...`. */
  function FractionValue(f: string): (v: real)
    ensures 0.0 <= v < 1.0
  {
    if f == [] then 0.0 else (DigitValue(f[0]) as real + FractionValue(f[1..])) / 10.0
  }

  /** The value of `whole.fraction` for two digit strings. */
  function DecimalValue(whole: string, fraction: string): (v: real)
    ensures DigitsValue(whole) as real <= v < DigitsValue(whole) as real + 1.0
  {
    DigitsValue(whole) as real + FractionValue(fraction)
  }

  /** `v * 10^e`, one power of ten at a time. */
  function ScaleBy(v: real, e: int): (r: real)
    requires v >= 0.0
    ensures r >= 0.0
    ensures v == 0.0 ==> r == 0.0
    decreases if e >= 0 then e else -e
  {
    if e == 0 then v
    else if e > 0 then ScaleBy(v, e - 1) * 10.0
    else ScaleBy(v, e + 1) / 10.0
  }

  /** A non-negative exponent multiplies by that power of ten. */
  lemma {:induction false} ScaleByPow10(n: nat, e: nat)
    ensures ScaleBy(n as real, e) == (n * Pow10(e)) as real
  {
    if e > 0 {
      ScaleByPow10(n, e - 1);
      var p := Pow10(e - 1);
      assert n * Pow10(e) == (n * p) * 10;
    }
  }

  /** The text starts with a minus sign. */
  predicate IsNegative(s: string) {
    s != [] && s[0] == '-'
  }

  /** The text after an optional leading '+' or '-'. */
  function Unsigned(s: string): (u: string)
    ensures |u| <= |s|
    ensures s != [] && s[0] != '-' && s[0] != '+' ==> u == s
  {
    if s != [] && (s[0] == '-' || s[0] == '+') then s[1..] else s
  }

  /** The exponent written by an exponent part `('e' | 'E') [sign] digits`
      at the front of `e`; 0 when there is none (a bare 'e' is not read). */
  function ExponentValue(e: string): (x: int)
    ensures e == [] || (e[0] != 'e' && e[0] != 'E') ==> x == 0
  {
    if |e| >= 2 && (e[0] == 'e' || e[0] == 'E') then
      var digits := if e[1] == '-' || e[1] == '+' then e[2..] else e[1..];
      var n: int := DigitsValue(digits[..LeadingDigitCount(digits)]);
      if e[1] == '-' then -n else n
    else 0
  }

  /** The digits before the point of the decimal literal at the front of `u`. */
  function Whole(u: string): (w: string)
    ensures AllDigits(w) && |w| == LeadingDigitCount(u)
  {
    u[..LeadingDigitCount(u)]
  }

  /** The digits after the point, when a '.' follows the whole part. */
  function Fraction(u: string): (f: string)
    ensures AllDigits(f)
    ensures |Whole(u)| + 1 + |f| <= |u| || f == []
  {
    var k := LeadingDigitCount(u);
    if k < |u| && u[k] == '.' then u[k + 1..][..LeadingDigitCount(u[k + 1..])] else []
  }

  /** The length of the mantissa `digits [ '.' digits ]` at the front of `u`. */
  function MantissaLength(u: string): (m: nat)
    ensures m <= |u|
  {
    var k := LeadingDigitCount(u);
    if k < |u| && u[k] == '.' then k + 1 + |Fraction(u)| else k
  }

  /** The decimal literal without its sign: NaN when the mantissa has no digit. */
  function ParseUnsigned(u: string): (n: Number)
    ensures n.NaN? <==> |Whole(u)| + |Fraction(u)| == 0
    ensures n.Finite? ==> n.value >= 0.0
  {
    if |Whole(u)| + |Fraction(u)| == 0 then NaN
    else Finite(ScaleBy(DecimalValue(Whole(u), Fraction(u)), ExponentValue(u[MantissaLength(u)..])))
  }

  /** `parseFloat(s)` on text that starts with a decimal literal
      `[sign] digits [ '.' digits ] [ exponent ]`: the longest such prefix is
      read, and the result is NaN when its mantissa holds no digit (as for
      `''`, `'.'`, `'-'` and `'e5'`). The sign applies to the whole value. */
  function ParseFloat(s: string): (n: Number)
    ensures var u := Unsigned(s);
            n.NaN? <==> LeadingDigitCount(u) == 0 && (u == [] || u[0] != '.' || LeadingDigitCount(u[1..]) == 0)
    ensures n.Finite? && !IsNegative(s) ==> n.value >= 0.0
    ensures n.Finite? && IsNegative(s) ==> n.value <= 0.0
  {
    var v := ParseUnsigned(Unsigned(s));
    if IsNegative(s) then Negate(v) else v
  }

  /** Arithmetic negation, NaN staying NaN. */
  function Negate(n: Number): (r: Number)
    ensures r.NaN? <==> n.NaN?
    ensures r.Finite? ==> r.value == -n.value
  {
    if n.NaN? then NaN else Finite(-n.value)
  }

  /** Text made of digits only is read as its decimal value. */
  lemma ParseFloatOfDigits(s: string)
    requires s != [] && AllDigits(s)
    ensures ParseFloat(s) == Finite(DigitsValue(s) as real)
  {
    LeadingDigitCountIs(s, |s|);
    assert s[..|s|] == s;
    assert Unsigned(s) == s && Whole(s) == s && Fraction(s) == [];
    assert s[MantissaLength(s)..] == [];
  }

  /** A leading '-' negates the value of the text after it. */
  lemma ParseFloatOfNegative(t: string)
    requires t == [] || (t[0] != '-' && t[0] != '+')
    ensures ParseFloat(['-'] + t) == Negate(ParseFloat(t))
  {
    assert Unsigned(['-'] + t) == t;
  }

  /** An exponent part of digits only gives their value. */
  lemma ExponentOfDigits(x: string)
    requires x != [] && AllDigits(x)
    ensures ExponentValue(['e'] + x) == DigitsValue(x)
  {
    var e := ['e'] + x;
    assert e[1..] == x && e[1] == x[0];
    LeadingDigitCountIs(x, |x|);
    assert x[..|x|] == x;
  }

  /** The mantissa of `m` followed by a non-digit other than '.' is `m`. */
  lemma MantissaBeforeLetter(m: string, rest: string)
    requires m != [] && AllDigits(m) && rest != [] && !IsDigit(rest[0]) && rest[0] != '.'
    ensures Whole(m + rest) == m && Fraction(m + rest) == [] && MantissaLength(m + rest) == |m|
  {
    var s := m + rest;
    assert s[..|m|] == m && s[|m|] == rest[0];
    LeadingDigitCountIs(s, |m|);
  }

  /** A literal whose mantissa is the whole number `w` has value `w * 10^e`. */
  lemma IntegerMantissa(u: string, w: string, e: nat)
    requires w != [] && Whole(u) == w && Fraction(u) == [] && ExponentValue(u[MantissaLength(u)..]) == e
    ensures ParseUnsigned(u) == Finite((DigitsValue(w) * Pow10(e)) as real)
  {
    assert DecimalValue(w, []) == DigitsValue(w) as real;
    ScaleByPow10(DigitsValue(w), e);
  }

  /** `m e x`, for digit strings `m` and `x`, is `m` times ten to the `x`:
      parseFloat("1e3") is 1000. */
  lemma ParseFloatScientific(m: string, x: string)
    requires m != [] && AllDigits(m) && x != [] && AllDigits(x)
    ensures ParseFloat(m + ['e'] + x) == Finite((DigitsValue(m) * Pow10(DigitsValue(x))) as real)
  {
    var rest := ['e'] + x;
    var s := m + rest;
    assert m + ['e'] + x == s;
    assert s[0] == m[0];
    assert Unsigned(s) == s;
    MantissaBeforeLetter(m, rest);
    assert s[|m|..] == rest;
    ExponentOfDigits(x);
    IntegerMantissa(s, m, DigitsValue(x));
    assert !IsNegative(s);
  }
}
