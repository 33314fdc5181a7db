/**
 * The JavaScript string behaviour the storefront relies on: the `\s`
 * character class, `toLowerCase`, `includes`, rendering an integer with
 * `${n}`, and the numeric prefixes read by `parseInt` and `parseFloat`.
 * Case folding is ASCII only; `\s` is ECMAScript's own fixed set of
 * white-space and line-terminator code points.
 */
module Text {
  import opened Wrappers

  /** The characters matched by the regular-expression class `\s`. */
  predicate IsSpace(c: char)
  {
    c == '\t' || c == '\n' || c == '\U{B}' || c == '\U{C}' || c == '\r' || c == ' ' ||
    c == '\U{A0}' || c == '\U{1680}' || ('\U{2000}' <= c <= '\U{200A}') ||
    c == '\U{2028}' || c == '\U{2029}' || c == '\U{202F}' || c == '\U{205F}' ||
    c == '\U{3000}' || c == '\U{FEFF}'
  }

  predicate IsDigit(c: char)
  {
    '0' <= c <= '9'
  }

  predicate AllDigits(s: string)
  {
    forall i :: 0 <= i < |s| ==> IsDigit(s[i])
  }

  function LowerChar(c: char): char
  {
    if 'A' <= c <= 'Z' then (c as int + 32) as char else c
  }

  /** `toLowerCase`, restricted to ASCII letters. */
  function Lower(s: string): (r: string)
    ensures |r| == |s|
    ensures forall i :: 0 <= i < |s| ==> r[i] == LowerChar(s[i])
  {
    seq(|s|, i requires 0 <= i < |s| => LowerChar(s[i]))
  }

  predicate StartsWith(s: string, prefix: string)
  {
    |prefix| <= |s| && s[..|prefix|] == prefix
  }

  /** `s.includes(sub)`: `sub` occurs in `s` at some position. */
  predicate Contains(s: string, sub: string)
    decreases |s|
  {
    StartsWith(s, sub) || (s != [] && Contains(s[1..], sub))
  }

  /** `a.toLowerCase().includes(b.toLowerCase())`. */
  predicate ContainsIgnoreCase(s: string, sub: string)
  {
    Contains(Lower(s), Lower(sub))
  }

  function DigitChar(d: nat): (c: char)
    requires d < 10
    ensures IsDigit(c)
  {
    ('0' as int + d) as char
  }

  function DigitValue(c: char): (d: nat)
    requires IsDigit(c)
    ensures d < 10
  {
    c as int - '0' as int
  }

  /** Decimal rendering of a natural number, as `${n}` prints it. */
  function NatToString(n: nat): (r: string)
    ensures |r| >= 1 && AllDigits(r)
  {
    if n < 10 then [DigitChar(n)] else NatToString(n / 10) + [DigitChar(n % 10)]
  }

  /** Decimal rendering of an integer, with a leading '-' when it is negative. */
  function IntToString(n: int): string
  {
    if n < 0 then "-" + NatToString(-n) else NatToString(n)
  }

  /** The value of a string of decimal digits (most significant first). */
  function DigitsValue(s: string): nat
    requires AllDigits(s)
  {
    if s == [] then 0 else DigitsValue(s[..|s| - 1]) * 10 + DigitValue(s[|s| - 1])
  }

  /** Reading back a rendered natural number gives the number. */
  lemma {:induction false} NatToStringValue(n: nat)
    ensures DigitsValue(NatToString(n)) == n
  {
    var s := NatToString(n);
    if n >= 10 {
      NatToStringValue(n / 10);
      assert s[..|s| - 1] == NatToString(n / 10);
    }
  }

  /** The longest prefix of `s` made of decimal digits. */
  function DigitRun(s: string): (r: string)
    ensures r <= s && AllDigits(r)
    ensures |r| == |s| || !IsDigit(s[|r|])
  {
    if s == [] || !IsDigit(s[0]) then [] else [s[0]] + DigitRun(s[1..])
  }

  /** A run of digits followed by a non-digit (or nothing) is read as exactly that run. */
  lemma {:induction false} DigitRunOf(d: string, rest: string)
    requires AllDigits(d)
    requires rest == [] || !IsDigit(rest[0])
    ensures DigitRun(d + rest) == d
  {
    if d != [] {
      assert (d + rest)[1..] == d[1..] + rest;
      DigitRunOf(d[1..], rest);
      assert [d[0]] + d[1..] == d;
    } else {
      assert d + rest == rest;
    }
  }

  /** Drops leading `\s` characters, as `parseInt` and `parseFloat` do. */
  function TrimStart(s: string): (r: string)
    ensures |r| <= |s|
    ensures r == [] || !IsSpace(r[0])
  {
    if s != [] && IsSpace(s[0]) then TrimStart(s[1..]) else s
  }

  /** `parseInt(s)`: `None` stands for NaN. */
  function ParseIntPrefix(s: string): Option<int>
  {
    var t := TrimStart(s);
    var negative := |t| > 0 && t[0] == '-';
    var u := if |t| > 0 && (t[0] == '-' || t[0] == '+') then t[1..] else t;
    var d := DigitRun(u);
    if d == [] then None
    else Some(if negative then -(DigitsValue(d) as int) else DigitsValue(d))
  }

  function Pow10(n: nat): (r: nat)
    ensures r >= 1
  {
    if n == 0 then 1 else 10 * Pow10(n - 1)
  }

  /** The factor 10^e for a possibly negative exponent e. */
  function Scale(e: int): real
  {
    if e >= 0 then Pow10(e) as real else 1.0 / (Pow10(-e) as real)
  }

  /** The exponent of a leading `e[+-]digits`, or 0 when there is none. */
  function ExponentPrefix(s: string): int
  {
    if |s| > 0 && (s[0] == 'e' || s[0] == 'E') then
      var t := s[1..];
      var negative := |t| > 0 && t[0] == '-';
      var u := if |t| > 0 && (t[0] == '-' || t[0] == '+') then t[1..] else t;
      var d := DigitRun(u);
      if d == [] then 0 else if negative then -(DigitsValue(d) as int) else DigitsValue(d)
    else 0
  }

  /** Whether a leading sign is '-', and the text after an optional sign. */
  function Unsigned(t: string): (string, bool)
  {
    if |t| > 0 && (t[0] == '-' || t[0] == '+') then (t[1..], t[0] == '-') else (t, false)
  }

  /** The value of a decimal numeral `whole.frac`. */
  function DecimalValue(whole: string, frac: string): real
    requires AllDigits(whole) && AllDigits(frac)
  {
    DigitsValue(whole) as real + DigitsValue(frac) as real / Pow10(|frac|) as real
  }

  /** The text after the integer digits: its fraction digits and what follows them. */
  function Fraction(rest: string): (string, string)
  {
    if |rest| > 0 && rest[0] == '.' then
      var f := DigitRun(rest[1..]);
      (f, rest[1 + |f|..])
    else ([], rest)
  }

  /** An unsigned decimal number with an optional exponent, as `parseFloat` reads it. */
  function UnsignedFloat(u: string): Option<real>
  {
    var whole := DigitRun(u);
    var (fraction, tail) := Fraction(u[|whole|..]);
    if whole == [] && fraction == [] then None
    else Some(DecimalValue(whole, fraction) * Scale(ExponentPrefix(tail)))
  }

  /**
   * `parseFloat(s)` read exactly: leading white space, an optional sign, digits
   * with an optional fraction (at least one digit in all) and an optional
   * exponent. `None` stands for NaN.
   */
  function ParseFloatPrefix(s: string): Option<real>
  {
    SignedFloat(Unsigned(TrimStart(s)))
  }

  /** The number read from the unsigned text, negated after a '-'. */
  function SignedFloat(split: (string, bool)): Option<real>
  {
    match UnsignedFloat(split.0)
    case None => None
    case Some(m) => Some(if split.1 then -m else m)
  }

  /** Text that does not start with white space is not trimmed. */
  lemma TrimStartNoSpace(s: string)
    requires s != [] && !IsSpace(s[0])
    ensures TrimStart(s) == s
  {
  }

  /** Text that starts with neither space, sign, digit nor point is not a number. */
  lemma NoNumberPrefix(s: string)
    requires s != [] && !IsSpace(s[0]) && !IsDigit(s[0])
    requires s[0] != '-' && s[0] != '+' && s[0] != '.'
    ensures ParseFloatPrefix(s) == None
  {
    TrimStartNoSpace(s);
    assert Unsigned(s) == (s, false);
    assert DigitRun(s) == [];
    assert Fraction(s) == ([], s);
  }

  /** A point followed by digits and nothing else is all fraction. */
  lemma FractionOnly(frac: string)
    requires AllDigits(frac)
    ensures Fraction("." + frac) == (frac, "")
  {
    var rest := "." + frac;
    assert rest[1..] == frac + "";
    DigitRunOf(frac, "");
    assert rest[1 + |frac|..] == "";
  }

  lemma UnsignedFloatDecimal(whole: string, frac: string)
    requires AllDigits(whole) && AllDigits(frac) && whole != []
    ensures UnsignedFloat(whole + "." + frac) == Some(DecimalValue(whole, frac))
  {
    var u := whole + "." + frac;
    assert u == whole + ("." + frac);
    DigitRunOf(whole, "." + frac);
    assert u[|whole|..] == "." + frac;
    FractionOnly(frac);
    assert Scale(ExponentPrefix("")) == 1.0;
  }

  /** `parseFloat` reads an unsigned numeral `whole.frac` as its decimal value. */
  lemma ParseFloatDecimal(whole: string, frac: string)
    requires AllDigits(whole) && AllDigits(frac) && whole != []
    ensures ParseFloatPrefix(whole + "." + frac) == Some(DecimalValue(whole, frac))
  {
    var u := whole + "." + frac;
    assert u[0] == whole[0];
    TrimStartNoSpace(u);
    assert Unsigned(u) == (u, false);
    UnsignedFloatDecimal(whole, frac);
  }

  /** A leading '-' negates what `parseFloat` reads. */
  lemma ParseFloatNegated(body: string, v: real)
    requires body != [] && IsDigit(body[0])
    requires ParseFloatPrefix(body) == Some(v)
    ensures ParseFloatPrefix("-" + body) == Some(-v)
  {
    var t := "-" + body;
    TrimStartNoSpace(t);
    TrimStartNoSpace(body);
    assert t[1..] == body;
    assert Unsigned(t) == (body, true);
    assert Unsigned(body) == (body, false);
  }
}
