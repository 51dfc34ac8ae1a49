/**
 * JavaScript numbers as far as the core needs them, and `Number(string)`: the
 * StringNumericLiteral grammar of section 7.1.4.1 of ECMA-262 (surrounding whitespace,
 * the empty string as 0, `0x`/`0o`/`0b` integers, an optional sign, `Infinity`, and
 * decimal literals with a fraction and an exponent). Values are exact reals.
 */
module JsNumbers {
  import opened Text
  import opened Wrappers

  datatype JsNumber = Finite(value: real) | NaN | PositiveInfinity | NegativeInfinity

  /** Value of a digit in bases up to 16, or -1 for a character that is no digit. */
  function DigitValue(c: char): (v: int)
    ensures -1 <= v < 16
  {
    if '0' <= c <= '9' then c as int - '0' as int
    else if 'a' <= c <= 'f' then c as int - 'a' as int + 10
    else if 'A' <= c <= 'F' then c as int - 'A' as int + 10
    else -1
  }

  /** Every character of `d` is a digit of the given base (the empty string included). */
  predicate AllDigits(d: string, base: nat) {
    forall i :: 0 <= i < |d| ==> 0 <= DigitValue(d[i]) < base
  }

  /** The value of a numeral, most significant digit first. */
  function NumeralValue(d: string, base: nat): nat
    requires AllDigits(d, base)
  {
    if d == [] then 0 else NumeralValue(d[..|d| - 1], base) * base + DigitValue(d[|d| - 1])
  }

  function Pow10(k: nat): (r: real)
    ensures r >= 1.0
  {
    if k == 0 then 1.0 else 10.0 * Pow10(k - 1)
  }

  /** 10 to an integer power. */
  function Power10(k: int): real {
    if k >= 0 then Pow10(k) else 1.0 / Pow10(-k)
  }

  /** `m × 10^k`, the value of a mantissa with its exponent. */
  function Scale(m: real, k: int): (r: real)
    ensures k == 0 ==> r == m
  {
    assert Power10(0) == 1.0;
    m * Power10(k)
  }

  /** Index of the first occurrence of one of `cs` in `s`, or `|s|` when there is none. */
  function IndexOfAny(s: string, cs: set<char>): (r: nat)
    ensures r <= |s|
    ensures forall i :: 0 <= i < r ==> s[i] !in cs
    ensures r < |s| ==> s[r] in cs
  {
    if s == [] || s[0] in cs then 0 else 1 + IndexOfAny(s[1..], cs)
  }

  /** `DecimalDigits . DecimalDigits`, `DecimalDigits .`, `. DecimalDigits` or `DecimalDigits`. */
  /** The value of the digits after a decimal point: `0.d₁d₂…` is `(d₁ + 0.d₂…) / 10`. */
  function FractionValue(frac: string): (r: real)
    requires AllDigits(frac, 10)
    ensures 0.0 <= r < 1.0
    ensures frac == [] ==> r == 0.0
  {
    if frac == [] then 0.0 else (DigitValue(frac[0]) as real + FractionValue(frac[1..])) / 10.0
  }

  function Mantissa(m: string): (r: Option<real>)
    ensures r.Some? ==> r.value >= 0.0
  {
    var d := IndexOfAny(m, {'.'});
    var whole := m[..d];
    var frac := if d < |m| then m[d + 1..] else "";
    if AllDigits(whole, 10) && AllDigits(frac, 10) && (|whole| > 0 || |frac| > 0) then
      Some(NumeralValue(whole, 10) as real + FractionValue(frac))
    else None
  }

  /** The digits after `e`/`E`, with an optional sign. */
  function Exponent(x: string): Option<int> {
    if |x| > 0 && (x[0] == '+' || x[0] == '-') then
      var digits := x[1..];
      if |digits| > 0 && AllDigits(digits, 10) then
        var v: int := NumeralValue(digits, 10);
        Some(if x[0] == '-' then -v else v)
      else None
    else if |x| > 0 && AllDigits(x, 10) then Some(NumeralValue(x, 10))
    else None
  }

  const InfinityLiteral: string := "Infinity"

  /** StrUnsignedDecimalLiteral. */
  function UnsignedDecimal(u: string): JsNumber
  {
    if u == InfinityLiteral then PositiveInfinity
    else
      var e := IndexOfAny(u, {'e', 'E'});
      var mantissa := Mantissa(u[..e]);
      var exponent := if e < |u| then Exponent(u[e + 1..]) else Some(0);
      if mantissa.Some? && exponent.Some? then
        Finite(Scale(mantissa.value, exponent.value))
      else NaN
  }

  /** NonDecimalIntegerLiteral after its `0x`, `0o` or `0b` prefix. */
  function NonDecimal(d: string, base: nat): JsNumber {
    if |d| > 0 && AllDigits(d, base) then Finite(NumeralValue(d, base) as real) else NaN
  }

  function Negate(n: JsNumber): JsNumber {
    match n
    case Finite(v) => Finite(-v)
    case NaN => NaN
    case PositiveInfinity => NegativeInfinity
    case NegativeInfinity => PositiveInfinity
  }

  /** `Number(s)` for a string `s`: the literal is read after trimming. */
  function StringToNumber(s: string): JsNumber {
    TrimmedToNumber(Trim(s))
  }

  /** StringNumericLiteral without its surrounding whitespace. */
  function TrimmedToNumber(t: string): JsNumber {
    if t == [] then Finite(0.0)
    else if |t| >= 2 && t[0] == '0' && (t[1] == 'x' || t[1] == 'X') then NonDecimal(t[2..], 16)
    else if |t| >= 2 && t[0] == '0' && (t[1] == 'o' || t[1] == 'O') then NonDecimal(t[2..], 8)
    else if |t| >= 2 && t[0] == '0' && (t[1] == 'b' || t[1] == 'B') then NonDecimal(t[2..], 2)
    else if t[0] == '+' then UnsignedDecimal(t[1..])
    else if t[0] == '-' then Negate(UnsignedDecimal(t[1..]))
    else UnsignedDecimal(t)
  }

  /** A string of whitespace only, the empty string included, converts to 0. */
  lemma BlankIsZero(s: string)
    requires HasOnlyWhitespace(s)
    ensures StringToNumber(s) == Finite(0.0)
  {
    TrimEmptyIff(s);
  }

  /** Reading back the decimal rendering of a natural number gives the number. */
  lemma {:induction false} NumeralValueOfDecimal(n: nat)
    ensures AllDigits(DecimalOf(n), 10) && NumeralValue(DecimalOf(n), 10) == n
  {
    var d := DecimalOf(n);
    if n >= 10 {
      NumeralValueOfDecimal(n / 10);
      assert d[..|d| - 1] == DecimalOf(n / 10);
    }
  }

  lemma DigitsAreNotWhitespace(d: string)
    requires forall i :: 0 <= i < |d| ==> IsDigit(d[i])
    requires |d| > 0
    ensures Trim(d) == d
  {
    assert TrimStart(d) == d;
    assert TrimEnd(d) == d;
  }

  /** With none of `cs` in `s`, the search runs to the end. */
  lemma IndexOfAbsent(s: string, cs: set<char>)
    requires forall i :: 0 <= i < |s| ==> s[i] !in cs
    ensures IndexOfAny(s, cs) == |s|
  {
  }

  /** A plain run of decimal digits is read as that integer. */
  lemma UnsignedDigits(d: string)
    requires |d| > 0 && forall i :: 0 <= i < |d| ==> IsDigit(d[i])
    ensures AllDigits(d, 10)
    ensures UnsignedDecimal(d) == Finite(NumeralValue(d, 10) as real)
  {
    assert d != InfinityLiteral by { assert IsDigit(d[0]); }
    IndexOfAbsent(d, {'e', 'E'});
    MantissaOfDigits(d);
    UnsignedWithoutExponent(d, NumeralValue(d, 10) as real);
  }

  /** A literal with no exponent part is read as its mantissa. */
  lemma UnsignedWithoutExponent(u: string, m: real)
    requires u != InfinityLiteral && IndexOfAny(u, {'e', 'E'}) == |u| && Mantissa(u) == Some(m)
    ensures UnsignedDecimal(u) == Finite(m)
  {
    assert u[..|u|] == u;
  }

  lemma MantissaOfDigits(d: string)
    requires |d| > 0 && forall i :: 0 <= i < |d| ==> IsDigit(d[i])
    ensures AllDigits(d, 10)
    ensures Mantissa(d) == Some(NumeralValue(d, 10) as real)
  {
    DecimalDigitsAreDigits(d);
    IndexOfAbsent(d, {'.'});
    MantissaWithoutPoint(d);
  }

  lemma DecimalDigitsAreDigits(d: string)
    requires forall i :: 0 <= i < |d| ==> IsDigit(d[i])
    ensures AllDigits(d, 10)
  {
  }

  /** A mantissa with no point is read as a whole number. */
  lemma MantissaWithoutPoint(m: string)
    requires |m| > 0 && AllDigits(m, 10) && IndexOfAny(m, {'.'}) == |m|
    ensures Mantissa(m) == Some(NumeralValue(m, 10) as real)
  {
    assert m[..|m|] == m;
    assert AllDigits("", 10);
  }

  /** `Number(String(n)) === n` for every natural number `n`. */
  lemma DecimalRoundTrip(n: nat)
    ensures StringToNumber(DecimalOf(n)) == Finite(n as real)
  {
    var d := DecimalOf(n);
    DigitsAreNotWhitespace(d);
    NumeralValueOfDecimal(n);
    UnsignedDigits(d);
    PlainDecimal(d);
    assert StringToNumber(d) == TrimmedToNumber(d);
  }

  /** A literal whose first two characters are decimal digits is read as an unsigned decimal. */
  lemma PlainDecimal(t: string)
    requires |t| > 0 && IsDigit(t[0]) && (|t| >= 2 ==> IsDigit(t[1]))
    ensures TrimmedToNumber(t) == UnsignedDecimal(t)
  {
  }

  /** A minus sign in front negates: `Number("-" + String(n)) === -n`. */
  lemma NegativeDecimalRoundTrip(n: nat)
    ensures StringToNumber("-" + DecimalOf(n)) == Finite(-(n as real))
  {
    var d := DecimalOf(n);
    var s := "-" + d;
    assert s[0] == '-';
    assert TrimStart(s) == s;
    assert TrimEnd(s) == s by { assert s[|s| - 1] == d[|d| - 1]; }
    assert s[1..] == d;
    NumeralValueOfDecimal(n);
    UnsignedDigits(d);
    assert UnsignedDecimal(s[1..]) == Finite(n as real);
  }

  /**
   * A literal of digits with one point at `k` and digits on both sides, such as `0.0031`,
   * is the whole part plus the fraction.
   */
  lemma FractionLiteral(u: string, k: nat)
    requires 0 < k < |u| - 1 && u[k] == '.'
    requires forall i :: 0 <= i < |u| && i != k ==> IsDigit(u[i])
    ensures AllDigits(u[..k], 10) && AllDigits(u[k + 1..], 10)
    ensures StringToNumber(u) == Finite(NumeralValue(u[..k], 10) as real + FractionValue(u[k + 1..]))
  {
    PointLiteralIsUnsigned(u, k);
    MantissaAtPoint(u, k);
    PointLiteralHasNoExponent(u, k);
  }

  /** Such a literal needs no trimming and has no sign and no radix prefix. */
  lemma PointLiteralIsUnsigned(u: string, k: nat)
    requires 0 < k < |u| - 1 && u[k] == '.'
    requires forall i :: 0 <= i < |u| && i != k ==> IsDigit(u[i])
    ensures StringToNumber(u) == UnsignedDecimal(u)
  {
    assert IsDigit(u[0]) && IsDigit(u[|u| - 1]);
    TrimmedAlready(u);
    DigitFirstIsUnsigned(u);
  }

  /** Such a literal is read as its mantissa: it is not `Infinity` and has no exponent. */
  lemma PointLiteralHasNoExponent(u: string, k: nat)
    requires 0 < k < |u| - 1 && u[k] == '.'
    requires forall i :: 0 <= i < |u| && i != k ==> IsDigit(u[i])
    requires Mantissa(u).Some?
    ensures UnsignedDecimal(u) == Finite(Mantissa(u).value)
  {
    assert u != InfinityLiteral by {
      assert IsDigit(u[0]);
    }
    IndexOfAbsent(u, {'e', 'E'});
    UnsignedWithoutExponent(u, Mantissa(u).value);
  }

  /** A literal that opens with a digit not followed by a radix letter is an unsigned decimal. */
  lemma DigitFirstIsUnsigned(t: string)
    requires |t| >= 2 && IsDigit(t[0]) && t[1] !in {'x', 'X', 'o', 'O', 'b', 'B'}
    ensures TrimmedToNumber(t) == UnsignedDecimal(t)
  {
  }

  /** A mantissa of digits with one point at `k` is read as the whole part plus the fraction. */
  lemma MantissaAtPoint(m: string, k: nat)
    requires k < |m| && m[k] == '.'
    requires forall i :: 0 <= i < |m| && i != k ==> IsDigit(m[i])
    requires k > 0
    ensures AllDigits(m[..k], 10) && AllDigits(m[k + 1..], 10)
    ensures Mantissa(m) == Some(NumeralValue(m[..k], 10) as real + FractionValue(m[k + 1..]))
  {
    IndexOfAbsent(m[..k], {'.'});
    assert IndexOfAny(m, {'.'}) == k;
    var frac := m[k + 1..];
    assert forall i :: 0 <= i < |frac| ==> IsDigit(frac[i]) by {
      forall i | 0 <= i < |frac| ensures IsDigit(frac[i]) { assert frac[i] == m[k + 1 + i]; }
    }
  }

  /** Text with no whitespace at either end is converted without trimming. */
  lemma TrimmedAlready(t: string)
    requires |t| > 0 && !IsWhitespace(t[0]) && !IsWhitespace(t[|t| - 1])
    ensures StringToNumber(t) == TrimmedToNumber(t)
  {
    assert TrimStart(t) == t;
    assert TrimEnd(t) == t;
  }

  /** A literal that starts with anything but a digit, a sign, a point or `Infinity` is NaN. */
  lemma NonNumericStart(t: string)
    requires |t| > 0 && DigitValue(t[0]) == -1
    requires t[0] !in {'+', '-', '.', 'I'}
    ensures TrimmedToNumber(t) == NaN
  {
    var e := IndexOfAny(t, {'e', 'E'});
    var m := t[..e];
    if e > 0 {
      var d := IndexOfAny(m, {'.'});
      assert d > 0;
      assert !AllDigits(m[..d], 10) by { assert m[..d][0] == t[0]; }
    }
    assert Mantissa(m) == None;
  }
}
