/** The parts of JavaScript's number handling that the client relies on:
    `Number.prototype.toString` on integer values (used for the wire
    magnitudes and the status in an error message), `parseInt(s, 10)`
    (token lifetime, transit days) and `parseFloat` (monetary values). */
module JsNumbers {

  /** A JavaScript number as far as this model needs one. Infinities and the
      sign of zero are not represented. */
  datatype JsNumber = Finite(value: real) | NaN

  predicate IsDigit(c: char) { '0' <= c <= '9' }

  predicate AllDigits(s: string) { forall i :: 0 <= i < |s| ==> IsDigit(s[i]) }

  function DigitChar(d: nat): (c: char)
    requires d < 10
    ensures IsDigit(c) && c as int - '0' as int == d
  {
    (d + '0' as int) as char
  }

  function DigitValue(c: char): (d: nat)
    requires IsDigit(c)
    ensures d < 10
  {
    c as int - '0' as int
  }

  /** The decimal rendering of a natural number, without sign, point or exponent. */
  function NatToDecimal(n: nat): (s: string)
    ensures |s| >= 1 && AllDigits(s)
    ensures s[0] == '0' ==> n == 0
  {
    if n < 10 then [DigitChar(n)] else NatToDecimal(n / 10) + [DigitChar(n % 10)]
  }

  /** `n.toString()` for an integer-valued number: `10` renders as "10". */
  function IntToDecimal(n: int): (s: string)
    ensures |s| >= 1
    ensures s[0] == '-' <==> n < 0
  {
    if n < 0 then "-" + NatToDecimal(-n) else NatToDecimal(n)
  }

  /** The value of a string of decimal digits, most significant first. */
  function DigitsValue(s: string): nat
    requires AllDigits(s)
  {
    if s == [] then 0 else DigitsValue(s[..|s| - 1]) * 10 + DigitValue(s[|s| - 1])
  }

  function Pow10(k: nat): (p: nat)
    ensures p >= 1
  {
    if k == 0 then 1 else 10 * Pow10(k - 1)
  }

  /** The length of the longest prefix of `s` made of decimal digits. */
  function DigitPrefixLength(s: string): (k: nat)
    ensures k <= |s|
    ensures AllDigits(s[..k])
    ensures k < |s| ==> !IsDigit(s[k])
  {
    if s == [] || !IsDigit(s[0]) then 0 else 1 + DigitPrefixLength(s[1..])
  }

  /** ECMAScript WhiteSpace and LineTerminator code points: tab, vertical tab,
      form feed, the byte-order mark, line feed, carriage return, the line and
      paragraph separators, and the space separators (category Zs). */
  predicate IsWhiteSpace(c: char) {
    || c == '\t' || c == '\U{000B}' || c == '\U{000C}' || c == '\U{FEFF}'
    || c == '\n' || c == '\r' || c == '\U{2028}' || c == '\U{2029}'
    || c == ' ' || c == '\U{00A0}' || c == '\U{1680}'
    || ('\U{2000}' <= c <= '\U{200A}')
    || c == '\U{202F}' || c == '\U{205F}' || c == '\U{3000}'
  }

  /** Drops leading white space, as both parse functions do first. */
  function TrimStart(s: string): (t: string)
    ensures |t| <= |s| && t == s[|s| - |t|..]
    ensures t == [] || !IsWhiteSpace(t[0])
    ensures forall i :: 0 <= i < |s| - |t| ==> IsWhiteSpace(s[i])
  {
    if s != [] && IsWhiteSpace(s[0]) then TrimStart(s[1..]) else s
  }

  /** Whether a (trimmed) numeral starts with a minus sign. */
  predicate Negative(t: string) { |t| > 0 && t[0] == '-' }

  /** A numeral with its leading sign, if any, removed. */
  function Unsigned(t: string): string {
    if |t| > 0 && (t[0] == '-' || t[0] == '+') then t[1..] else t
  }

  function Signed(negative: bool, m: real): real {
    if negative then -m else m
  }

  /** `parseInt(s, 10)`: optional sign, then the longest run of decimal digits;
      NaN when there is no digit. Anything after the digits is ignored. */
  function ParseInt(s: string): (n: JsNumber)
    ensures n.Finite? <==> DigitPrefixLength(Unsigned(TrimStart(s))) > 0
    ensures n.Finite? ==> n.value == n.value.Floor as real
  {
    var t := TrimStart(s);
    var body := Unsigned(t);
    var k := DigitPrefixLength(body);
    if k == 0 then NaN
    else
      var m: int := DigitsValue(body[..k]);
      Finite((if Negative(t) then -m else m) as real)
  }

  /** The digits of the fraction part of an unsigned numeral whose integer
      part has `k` digits: the digits after a '.', if one follows. */
  function FractionDigits(body: string, k: nat): (f: string)
    requires k <= |body|
    ensures AllDigits(f)
  {
    if k < |body| && body[k] == '.' then
      var rest := body[k + 1..];
      rest[..DigitPrefixLength(rest)]
    else []
  }

  /** The value of fraction digits: "25" is 0.25. It lies in [0, 1), and
      shifting it by as many decimal places as there are digits gives the
      digits' integer value. */
  function FractionValue(f: string): (v: real)
    requires AllDigits(f)
    ensures f == [] ==> v == 0.0
    ensures 0.0 <= v < 1.0
    ensures v * Pow10(|f|) as real == DigitsValue(f) as real
  {
    DigitsValueBelowPow10(f);
    ShiftedFraction(DigitsValue(f) as real, Pow10(|f|) as real)
  }

  /** d / p for 0 <= d < p. */
  function ShiftedFraction(d: real, p: real): (q: real)
    requires 0.0 <= d < p
    ensures 0.0 <= q < 1.0 && q * p == d
  {
    QuotientBelowOne(d, p);
    d / p
  }

  lemma QuotientBelowOne(d: real, p: real)
    requires 0.0 <= d < p
    ensures 0.0 <= d / p < 1.0 && (d / p) * p == d
  {
    assert (d / p) * p == d;
  }

  /** `parseFloat(s)` for plain decimal numerals: optional sign, integer digits,
      optional '.' and fraction digits, at least one digit in all; NaN
      otherwise. Anything after the numeral is ignored. */
  function ParseFloat(s: string): (n: JsNumber)
    ensures n.Finite? <==>
      var body := Unsigned(TrimStart(s));
      var k := DigitPrefixLength(body);
      k > 0 || FractionDigits(body, k) != []
  {
    var t := TrimStart(s);
    var body := Unsigned(t);
    var k := DigitPrefixLength(body);
    var fraction := FractionDigits(body, k);
    if k == 0 && fraction == [] then NaN
    else
      var m := DigitsValue(body[..k]) as real + FractionValue(fraction);
      Finite(Signed(Negative(t), m))
  }

  lemma {:induction false} DigitsValueOfDecimal(n: nat)
    ensures DigitsValue(NatToDecimal(n)) == n
  {
    if n >= 10 {
      var prefix := NatToDecimal(n / 10);
      var s := NatToDecimal(n);
      assert s == prefix + [DigitChar(n % 10)];
      assert s[..|s| - 1] == prefix;
      DigitsValueOfDecimal(n / 10);
    }
  }

  /** A string of k digits is worth less than 10^k. */
  lemma {:induction false} DigitsValueBelowPow10(s: string)
    requires AllDigits(s)
    ensures DigitsValue(s) < Pow10(|s|)
  {
    if s != [] {
      var prefix := s[..|s| - 1];
      DigitsValueBelowPow10(prefix);
      assert DigitsValue(prefix) + 1 <= Pow10(|prefix|);
      assert DigitsValue(s) < (DigitsValue(prefix) + 1) * 10;
    }
  }

  lemma DigitPrefixOfDigits(s: string)
    requires AllDigits(s)
    ensures DigitPrefixLength(s) == |s|
  {
    if s != [] {
      DigitPrefixOfDigits(s[1..]);
    }
  }

  /** The rendering of an integer parses back to it: `parseInt(n.toString(), 10) == n`. */
  lemma IntToDecimalParsesBack(n: int)
    ensures ParseInt(IntToDecimal(n)) == Finite(n as real)
  {
    var s := IntToDecimal(n);
    var m: nat := if n < 0 then -n else n;
    var digits := NatToDecimal(m);
    assert TrimStart(s) == s;
    assert Unsigned(s) == digits;
    DigitPrefixOfDigits(digits);
    assert digits[..|digits|] == digits;
    DigitsValueOfDecimal(m);
  }

  /** The digit prefix of digits followed by a non-digit stops at the non-digit. */
  lemma {:induction false} DigitPrefixStopsAtNonDigit(d: string, rest: string)
    requires AllDigits(d) && rest != [] && !IsDigit(rest[0])
    ensures DigitPrefixLength(d + rest) == |d|
  {
    if d != [] {
      assert (d + rest)[1..] == d[1..] + rest;
      DigitPrefixStopsAtNonDigit(d[1..], rest);
    }
  }

  /** A decimal numeral "m.f" parses to m plus the value of its fraction digits:
      `parseFloat("15.25") == 15.25`. */
  lemma DecimalNumeralParses(m: nat, f: string)
    requires AllDigits(f)
    ensures ParseFloat(NatToDecimal(m) + "." + f) == Finite(m as real + FractionValue(f))
  {
    var digits := NatToDecimal(m);
    var s := digits + "." + f;
    DecimalNumeralIsPlain(digits, f);
    DecimalNumeralParts(digits, f);
    assert s[..|digits|] == digits;
    DigitsValueOfDecimal(m);
    ParseFloatOfPlainNumeral(s, |digits|, f);
  }

  /** "d.f" with `d` a non-empty run of digits has no blank and no sign. */
  lemma DecimalNumeralIsPlain(d: string, f: string)
    requires d != [] && AllDigits(d)
    ensures var s := d + "." + f; TrimStart(s) == s && Unsigned(s) == s && !Negative(s)
  {
    var s := d + "." + f;
    assert s[0] == d[0];
  }

  /** "d.f" splits into its whole digits `d` and its fraction digits `f`. */
  lemma DecimalNumeralParts(d: string, f: string)
    requires AllDigits(d) && AllDigits(f)
    ensures var s := d + "." + f; DigitPrefixLength(s) == |d| && FractionDigits(s, |d|) == f
  {
    var s := d + "." + f;
    assert s == d + ("." + f);
    DigitPrefixStopsAtNonDigit(d, "." + f);
    assert s[|d| + 1..] == f;
    DigitPrefixOfDigits(f);
    assert f[..|f|] == f;
  }

  /** `parseFloat` of a numeral with no blank, no sign and a digit in front:
      its whole digits plus its fraction digits. */
  lemma ParseFloatOfPlainNumeral(s: string, k: nat, f: string)
    requires TrimStart(s) == s && Unsigned(s) == s && !Negative(s)
    requires 0 < k <= |s| && DigitPrefixLength(s) == k && FractionDigits(s, k) == f
    ensures ParseFloat(s) == Finite(DigitsValue(s[..k]) as real + FractionValue(f))
  {
  }

  /** On a numeral without a fraction part `parseFloat` agrees with `parseInt`. */
  lemma ParseFloatOfWholeNumeral(s: string)
    requires var body := Unsigned(TrimStart(s));
      FractionDigits(body, DigitPrefixLength(body)) == []
    ensures ParseFloat(s) == ParseInt(s)
  {
    var t := TrimStart(s);
    var body := Unsigned(t);
    var k := DigitPrefixLength(body);
    if k > 0 {
      var m: int := DigitsValue(body[..k]);
      assert ParseFloat(s) == Finite(Signed(Negative(t), m as real));
    }
  }

  /** The same for `parseFloat`: `parseFloat(n.toString()) == n`. */
  lemma IntToDecimalParsesBackAsFloat(n: int)
    ensures ParseFloat(IntToDecimal(n)) == Finite(n as real)
  {
    var s := IntToDecimal(n);
    var m: nat := if n < 0 then -n else n;
    var digits := NatToDecimal(m);
    assert TrimStart(s) == s;
    assert Unsigned(s) == digits;
    DigitPrefixOfDigits(digits);
    assert FractionDigits(digits, |digits|) == [];
    ParseFloatOfWholeNumeral(s);
    IntToDecimalParsesBack(n);
  }

  /** Rendering is injective: distinct integers have distinct renderings. */
  lemma IntToDecimalInjective(a: int, b: int)
    requires IntToDecimal(a) == IntToDecimal(b)
    ensures a == b
  {
    IntToDecimalParsesBack(a);
    IntToDecimalParsesBack(b);
  }
}
