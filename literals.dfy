/** What Python's `int(x)` and `float(x)` accept, and the values they give.
    Both conversions ignore surrounding whitespace; `int` takes an optional
    sign and decimal digits, `float` a decimal mantissa with an optional
    exponent.  The value of a float literal is the exact rational number it
    denotes. */
module Literals {

  import opened Wrappers
  import opened Strings

  predicate IsDigit(c: char) {
    '0' <= c <= '9'
  }

  predicate AllDigits(s: string) {
    forall j :: 0 <= j < |s| ==> IsDigit(s[j])
  }

  /** The number written by a string of decimal digits ("" stands for 0). */
  function DigitsValue(s: string): nat
    requires AllDigits(s)
  {
    DigitsAfter(0, s)
  }

  /** Reads the digits of `s` after a value `acc` already read. */
  function DigitsAfter(acc: nat, s: string): nat
    requires AllDigits(s)
    decreases |s|
  {
    if |s| == 0 then acc else DigitsAfter(10 * acc + (s[0] as int - '0' as int), s[1..])
  }

  /** The text after an optional leading sign. */
  function Unsigned(t: string): (u: string)
    ensures u == t || (|t| > 0 && (t[0] == '+' || t[0] == '-') && u == t[1..])
  {
    if |t| > 0 && (t[0] == '+' || t[0] == '-') then t[1..] else t
  }

  function Sign(t: string): int {
    if |t| > 0 && t[0] == '-' then -1 else 1
  }

  /** An optional sign followed by at least one digit. */
  predicate IsIntText(t: string) {
    |Unsigned(t)| > 0 && AllDigits(Unsigned(t))
  }

  function IntTextValue(t: string): int
    requires IsIntText(t)
  {
    var d: int := DigitsValue(Unsigned(t));
    if Sign(t) < 0 then -d else d
  }

  /** `int(tok)` succeeds. */
  predicate IsIntLiteral(tok: string) {
    IsIntText(Strip(tok, Whitespace))
  }

  /** The value `int(tok)` returns. */
  function ParseInt(tok: string): int
    requires IsIntLiteral(tok)
  {
    IntTextValue(Strip(tok, Whitespace))
  }

  /** Position of the first exponent marker `e` or `E`. */
  function ExponentAt(u: string): (r: Option<nat>)
    ensures r.Some? ==> r.value < |u| && (u[r.value] == 'e' || u[r.value] == 'E')
  {
    if |u| == 0 then None
    else if u[0] == 'e' || u[0] == 'E' then Some(0)
    else match ExponentAt(u[1..])
      case None => None
      case Some(k) => Some(k + 1)
  }

  function Mantissa(u: string): string {
    match ExponentAt(u)
    case None => u
    case Some(k) => u[..k]
  }

  function Exponent(u: string): string {
    match ExponentAt(u)
    case None => "0"
    case Some(k) => u[k + 1..]
  }

  /** The digits before and after the decimal point of a mantissa. */
  function WholePart(m: string): string {
    match IndexOf(m, '.')
    case None => m
    case Some(d) => m[..d]
  }

  function FractionPart(m: string): string {
    match IndexOf(m, '.')
    case None => ""
    case Some(d) => m[d + 1..]
  }

  /** Digits with at most one decimal point and at least one digit. */
  predicate IsMantissa(m: string) {
    && AllDigits(WholePart(m))
    && AllDigits(FractionPart(m))
    && |WholePart(m)| + |FractionPart(m)| > 0
  }

  /** A float literal without surrounding whitespace. */
  predicate IsFloatText(t: string) {
    var u := Unsigned(t);
    IsMantissa(Mantissa(u)) && IsIntText(Exponent(u))
  }

  /** `v` times ten to the power `e`, for any integer `e`. */
  function Scale(v: real, e: int): real
    decreases if e < 0 then -e else e
  {
    if e == 0 then v
    else if e > 0 then Scale(v, e - 1) * 10.0
    else Scale(v, e + 1) / 10.0
  }

  function FloatTextValue(t: string): real
    requires IsFloatText(t)
  {
    var u := Unsigned(t);
    var m := Mantissa(u);
    var frac := FractionPart(m);
    var d := DigitsValue(WholePart(m) + frac) as real;
    Scale(if Sign(t) < 0 then -d else d, IntTextValue(Exponent(u)) - |frac|)
  }

  /** `float(tok)` succeeds (infinities and NaN are not modelled). */
  predicate IsFloatLiteral(tok: string) {
    IsFloatText(Strip(tok, Whitespace))
  }

  /** The value `float(tok)` returns, exactly. */
  function ParseFloat(tok: string): real
    requires IsFloatLiteral(tok)
  {
    FloatTextValue(Strip(tok, Whitespace))
  }

  // ---------------------------------------------------------------------
  // Number literals inside Python expressions
  // ---------------------------------------------------------------------

  predicate IsSignChar(c: char) {
    c == '+' || c == '-'
  }

  predicate IsExponentMarker(c: char) {
    c == 'e' || c == 'E'
  }

  /** A Python decimal integer literal: digits without a leading zero, or
      zeros only. */
  predicate IsDecimalLiteral(s: string) {
    |s| > 0 && AllDigits(s) && (s[0] != '0' || forall j :: 0 <= j < |s| ==> s[j] == '0')
  }

  /** A number literal of Python source that `float` reads the same way:
      digits with a decimal point or an exponent, or a decimal integer
      literal ("010" is refused as a literal although `float` reads it).
      It has no sign: in an expression a sign is an operator. */
  predicate IsNumeral(u: string) {
    && |u| > 0 && (IsDigit(u[0]) || u[0] == '.')
    && IsFloatText(u)
    && ('.' in u || ExponentAt(u).Some? || IsDecimalLiteral(u))
  }

  /** A numeral with an optional unary sign in front; its value, sign
      included, is `FloatTextValue`. */
  predicate IsSignedNumeral(a: string) {
    IsFloatText(a) && IsNumeral(Unsigned(a))
  }

  /** A mantissa is made of digits and a point, and is not empty. */
  lemma MantissaChars(m: string)
    requires IsMantissa(m)
    ensures |m| > 0
    ensures forall j :: 0 <= j < |m| ==> IsDigit(m[j]) || m[j] == '.'
  {
    match IndexOf(m, '.')
    case None =>
    case Some(d) =>
      assert forall j :: 0 <= j < d ==> m[j] == WholePart(m)[j];
      assert forall j :: d < j < |m| ==> m[j] == FractionPart(m)[j - d - 1];
  }

  /** An int text is not empty and holds digits after its first character. */
  lemma IntTextChars(x: string)
    requires IsIntText(x)
    ensures |x| > 0 && IsDigit(x[|x| - 1])
    ensures forall j :: 0 < j < |x| ==> IsDigit(x[j])
  {
    var ux := Unsigned(x);
    var off := |x| - |ux|;
    assert ux == x[off..];
    assert forall j :: off <= j < |x| ==> x[j] == ux[j - off];
  }

  /** In a float text without a leading sign, a sign can only open the
      exponent, and the text ends in a digit or a point. */
  lemma FloatTextSigns(u: string)
    requires IsFloatText(u) && |u| > 0 && !IsSignChar(u[0])
    ensures forall j :: 0 <= j < |u| && IsSignChar(u[j]) ==> 0 < j && IsExponentMarker(u[j - 1])
    ensures IsDigit(u[|u| - 1]) || u[|u| - 1] == '.'
  {
    assert Unsigned(u) == u;
    var at := ExponentAt(u);
    if at.None? {
      assert Mantissa(u) == u;
      MantissaChars(u);
    } else {
      var e := at.value;
      assert Mantissa(u) == u[..e] && Exponent(u) == u[e + 1..];
      MantissaChars(u[..e]);
      IntTextChars(u[e + 1..]);
      ExponentSigns(u, e, u[..e], u[e + 1..]);
    }
  }

  /** A mantissa `m`, an exponent marker at `e`, then a sign or digit
      followed by digits: the only sign is right after the marker. */
  lemma ExponentSigns(u: string, e: nat, m: string, x: string)
    requires e + 1 < |u| && IsExponentMarker(u[e]) && m == u[..e] && x == u[e + 1..]
    requires forall j :: 0 <= j < |m| ==> IsDigit(m[j]) || m[j] == '.'
    requires forall j :: 0 < j < |x| ==> IsDigit(x[j])
    requires IsDigit(x[|x| - 1])
    ensures forall j :: 0 <= j < |u| && IsSignChar(u[j]) ==> 0 < j && IsExponentMarker(u[j - 1])
    ensures IsDigit(u[|u| - 1])
  {
    forall j | 0 <= j < |u| && IsSignChar(u[j])
      ensures 0 < j && IsExponentMarker(u[j - 1])
    {
      if j < e {
        assert false;
      } else if j > e + 1 {
        assert false;
      }
    }
    assert u[|u| - 1] == x[|x| - 1];
  }

  /** A signed numeral's digits start after its sign, if it has one. */
  lemma SignedNumeralStart(a: string)
    requires IsSignedNumeral(a)
    ensures var off := |a| - |Unsigned(a)|;
      off <= 1 && off < |a| && !IsSignChar(a[off]) && (off == 1 <==> IsSignChar(a[0]))
    ensures var off := |a| - |Unsigned(a)|; IsDigit(a[off]) || a[off] == '.'
  {
    var u := Unsigned(a);
    assert |u| > 0 && (IsDigit(u[0]) || u[0] == '.') by {
      assert IsNumeral(u);
    }
    if |a| > 0 && (a[0] == '+' || a[0] == '-') {
      assert u == a[1..] && a[1] == u[0];
    } else {
      assert u == a;
    }
  }

  /** Past its unary sign, a signed numeral holds a sign only where it
      opens the exponent. */
  lemma SignedNumeralSigns(a: string)
    requires IsSignedNumeral(a)
    ensures var off := |a| - |Unsigned(a)|;
      forall j :: off <= j < |a| && IsSignChar(a[j]) ==> off < j && IsExponentMarker(a[j - 1])
  {
    var u := Unsigned(a);
    var off := |a| - |u|;
    assert u == a[off..];
    assert IsNumeral(u);
    FloatTextSigns(u);
    assert forall j :: off <= j < |a| ==> a[j] == u[j - off];
  }

  /** A signed numeral ends in a digit or a point. */
  lemma SignedNumeralEnd(a: string)
    requires IsSignedNumeral(a)
    ensures |a| > 0 && (IsDigit(a[|a| - 1]) || a[|a| - 1] == '.')
  {
    var u := Unsigned(a);
    assert IsNumeral(u);
    FloatTextSigns(u);
    var c := u[|u| - 1];
    assert IsDigit(c) || c == '.';
    LastOfSuffix(a, u);
  }

  lemma LastOfSuffix(a: string, u: string)
    requires |u| > 0 && (u == a || (|a| > 0 && u == a[1..]))
    ensures a[|a| - 1] == u[|u| - 1]
  {
  }

  /** Every int literal is also a float literal, of the same value, so
      `float` never rejects what `int` accepts. */
  lemma IntLiteralIsFloatLiteral(tok: string)
    requires IsIntLiteral(tok)
    ensures IsFloatLiteral(tok) && ParseFloat(tok) == ParseInt(tok) as real
  {
    var t := Strip(tok, Whitespace);
    var u := Unsigned(t);
    NoExponentInDigits(u);
    NoPointInDigits(u);
    assert Mantissa(u) == u;
    assert WholePart(u) == u && FractionPart(u) == "";
    assert Exponent(u) == "0";
    assert IsIntText("0") && IntTextValue("0") == 0 by {
      assert Unsigned("0") == "0";
    }
    assert u + "" == u;
  }

  lemma {:induction false} NoExponentInDigits(u: string)
    requires AllDigits(u)
    ensures ExponentAt(u).None?
  {
    if |u| > 0 {
      NoExponentInDigits(u[1..]);
    }
  }

  lemma {:induction false} NoPointInDigits(u: string)
    requires AllDigits(u)
    ensures IndexOf(u, '.').None?
  {
    if |u| > 0 {
      NoPointInDigits(u[1..]);
    }
  }

  /** `float("1.52E-02")` and, below, `float("10.000")`: the two halves of
      the glued token that the source gives as its example. */
  lemma FloatExampleExponent()
    ensures IsFloatLiteral("1.52E-02") && ParseFloat("1.52E-02") == 0.0152
  {
    StripFixed("1.52E-02", Whitespace);
    ExponentExampleText();
    ExponentExampleScale();
  }

  lemma ExponentExampleScale()
    ensures Scale(152.0, -4) == 0.0152
  {
    assert Scale(152.0, -2) == 1.52;
    assert Scale(152.0, -4) == Scale(152.0, -3) / 10.0 == Scale(152.0, -2) / 100.0;
  }

  lemma ExponentExampleText()
    ensures IsFloatText("1.52E-02") && FloatTextValue("1.52E-02") == Scale(152.0, -4)
  {
    ExponentExampleParts();
    ExponentExampleDigits();
    assert Unsigned("1.52E-02") == "1.52E-02";
    assert Sign("1.52E-02") == 1;
  }

  lemma ExponentExampleParts()
    ensures Mantissa("1.52E-02") == "1.52" && Exponent("1.52E-02") == "-02"
  {
    assert ExponentAt("1.52E-02") == Some(4);
  }

  lemma ExponentExampleDigits()
    ensures WholePart("1.52") == "1" && FractionPart("1.52") == "52"
    ensures DigitsValue("1" + "52") == 152
    ensures IsIntText("-02") && IntTextValue("-02") == -2
  {
    assert DigitsValue("152") == 152;
    assert "1" + "52" == "152";
  }

  lemma FloatExampleTen()
    ensures IsFloatLiteral("10.000") && ParseFloat("10.000") == 10.0
  {
    StripFixed("10.000", Whitespace);
    TenExampleText();
    TenExampleScale();
  }

  lemma TenExampleScale()
    ensures Scale(10000.0, -3) == 10.0
  {
    assert Scale(10000.0, -1) == 1000.0;
    assert Scale(10000.0, -3) == Scale(10000.0, -2) / 10.0 == Scale(10000.0, -1) / 100.0;
  }

  lemma TenExampleText()
    ensures IsFloatText("10.000") && FloatTextValue("10.000") == Scale(10000.0, -3)
  {
    TenExampleParts();
    TenExampleDigits();
    assert Unsigned("10.000") == "10.000";
    assert Sign("10.000") == 1;
  }

  lemma TenExampleParts()
    ensures Mantissa("10.000") == "10.000" && Exponent("10.000") == "0"
  {
    assert ExponentAt("10.000") == None;
  }

  lemma TenExampleDigits()
    ensures WholePart("10.000") == "10" && FractionPart("10.000") == "000"
    ensures DigitsValue("10" + "000") == 10000
    ensures IsIntText("0") && IntTextValue("0") == 0
  {
    assert DigitsValue("10000") == 10000;
    assert "10" + "000" == "10000";
  }
}
