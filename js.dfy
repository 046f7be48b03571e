/** The parts of JavaScript's value semantics that the handlers rely on:
    truthiness, the coercion of form strings to numbers that `Number(...)` and
    the relational operators perform, the `\d` and `\s` character classes of
    regular expressions, and `toFixed(2)` read back as a number. */
module Js {
  import opened Wrappers

  /** `\d`: an ASCII decimal digit. */
  predicate IsDigit(c: char) {
    '0' <= c <= '9'
  }

  predicate AllDigits(s: string) {
    forall k :: 0 <= k < |s| ==> IsDigit(s[k])
  }

  /** `\s`: the white-space and line-terminator characters of ECMAScript. */
  predicate IsWhitespace(c: char) {
    c == ' ' || c == '\t' || c == '\n' || c == '\r' || c == '\U{000B}' || c == '\U{000C}'
    || c == '\U{00A0}' || c == '\U{1680}' || ('\U{2000}' <= c <= '\U{200A}')
    || c == '\U{2028}' || c == '\U{2029}' || c == '\U{202F}' || c == '\U{205F}'
    || c == '\U{3000}' || c == '\U{FEFF}'
  }

  /** A JavaScript number: a real value or NaN (the infinities never arise here). */
  datatype JsNum = Num(v: real) | NaN

  /** A form field as the handlers see it: the string an input produced, or a
      number that came from the server's JSON. */
  datatype Value = Text(s: string) | Number(n: real)

  /** JavaScript truthiness: the empty string and the number 0 are falsy. */
  predicate Truthy(v: Value) {
    match v
    case Text(s) => s != ""
    case Number(n) => n != 0.0
  }

  function DigitValue(c: char): (d: nat)
    requires IsDigit(c)
    ensures d < 10
  {
    (c as int - '0' as int) as nat
  }

  function DigitChar(d: nat): (c: char)
    requires d < 10
    ensures IsDigit(c) && DigitValue(c) == d
  {
    ('0' as int + d) as char
  }

  /** The value of a string of decimal digits, read most significant first. */
  function DigitsValue(ds: string): nat
    requires AllDigits(ds)
  {
    if ds == [] then 0 else DigitsValue(ds[..|ds| - 1]) * 10 + DigitValue(ds[|ds| - 1])
  }

  function Pow10(k: nat): (p: nat)
    ensures p >= 1
  {
    if k == 0 then 1 else 10 * Pow10(k - 1)
  }

  /** The index of the first `c` in `s`, or -1. */
  function IndexOfChar(s: string, c: char): (i: int)
    ensures -1 <= i < |s|
    ensures i == -1 <==> c !in s
    ensures 0 <= i ==> s[i] == c && c !in s[..i]
  {
    if s == [] then -1
    else if s[0] == c then 0
    else
      var j := IndexOfChar(s[1..], c);
      if j == -1 then -1
      else
        assert s[..j + 1] == [s[0]] + s[1..][..j];
        j + 1
  }

  /** An unsigned decimal literal `ddd`, `ddd.ddd`, `ddd.` or `.ddd`. */
  function ParseUnsigned(s: string): Option<real> {
    var dot := IndexOfChar(s, '.');
    if dot == -1 then
      if s != "" && AllDigits(s) then Some(DigitsValue(s) as real) else None
    else
      var whole, frac := s[..dot], s[dot + 1..];
      if AllDigits(whole) && AllDigits(frac) && |whole| + |frac| > 0
      then Some(DigitsValue(whole) as real + DigitsValue(frac) as real / Pow10(|frac|) as real)
      else None
  }

  /** `Number(s)` for the strings a number input produces: the empty string is
      0, an optionally signed decimal literal is its value, anything else NaN. */
  function ParseNumber(s: string): JsNum {
    if s == "" then Num(0.0)
    else if s[0] == '-' || s[0] == '+' then
      match ParseUnsigned(s[1..])
      case Some(v) => Num(if s[0] == '-' then -v else v)
      case None => NaN
    else
      match ParseUnsigned(s)
      case Some(v) => Num(v)
      case None => NaN
  }

  /** `Number(v)`, and the coercion that `<`, `<=` and `>` apply to a string operand. */
  function ToNumber(v: Value): JsNum {
    match v
    case Text(s) => ParseNumber(s)
    case Number(n) => Num(n)
  }

  /** `v <= 0`, `v < 0` and `v > 0` after coercion; every comparison with NaN is false. */
  predicate AtMostZero(v: Value) {
    match ToNumber(v)
    case Num(n) => n <= 0.0
    case NaN => false
  }

  predicate BelowZero(v: Value) {
    match ToNumber(v)
    case Num(n) => n < 0.0
    case NaN => false
  }

  /** The canonical decimal rendering of a natural number. */
  function DecimalString(n: nat): (s: string)
    ensures s != ""
  {
    if n < 10 then [DigitChar(n)] else DecimalString(n / 10) + [DigitChar(n % 10)]
  }

  lemma {:induction false} DecimalStringValue(n: nat)
    ensures AllDigits(DecimalString(n))
    ensures DigitsValue(DecimalString(n)) == n
  {
    if n >= 10 {
      DecimalStringValue(n / 10);
      var s := DecimalString(n);
      assert s[..|s| - 1] == DecimalString(n / 10);
    }
  }

  /** Reading back a rendered natural number gives that number, and a leading
      minus sign negates it. */
  lemma ParseDecimalString(n: nat)
    ensures ParseNumber(DecimalString(n)) == Num(n as real)
    ensures ParseNumber("-" + DecimalString(n)) == Num(-(n as real))
  {
    var s := DecimalString(n);
    DecimalStringValue(n);
    ParseDigits(s);
    assert s[0] != '-' && s[0] != '+' by { assert IsDigit(s[0]); }
    var t := "-" + s;
    assert t[0] == '-' && t[1..] == s;
  }

  lemma ParseDigits(s: string)
    requires s != "" && AllDigits(s)
    ensures ParseUnsigned(s) == Some(DigitsValue(s) as real)
  {
  }

  /** `+x.toFixed(2)`: x rounded to two decimals, halves away from zero. */
  function ToFixed2(x: real): (r: real)
    ensures -0.005 <= r - x <= 0.005
    ensures (r * 100.0).Floor as real == r * 100.0
    ensures 0.0 <= x ==> 0.0 <= r
  {
    var c := if x < 0.0 then -RoundedCents(-x) else RoundedCents(x);
    var r := c as real / 100.0;
    assert r * 100.0 == c as real;
    assert (c as real).Floor == c;
    r
  }

  /** The whole number of hundredths nearest to x >= 0, halves rounded up. */
  function RoundedCents(x: real): (c: int)
    requires 0.0 <= x
    ensures 0 <= c
    ensures x * 100.0 - 0.5 < c as real <= x * 100.0 + 0.5
  {
    (x * 100.0 + 0.5).Floor
  }
}
