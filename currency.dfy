/**
 * Dirham amounts as text. Amounts are integer cents; `formatAEDSimple`
 * renders one as "AED " followed by the amount with two decimals, and
 * `parseAED` strips the letters A, E and D, white space and commas before
 * reading a decimal number (0 when there is none).
 */
module Currency {
  import opened Wrappers
  import opened Text
  import Seqs

  /** The characters of the class `[AED\s,]` that the cleaning step removes. */
  predicate Stripped(c: char)
  {
    c == 'A' || c == 'E' || c == 'D' || c == ',' || IsSpace(c)
  }

  /** `replace(/[AED\s,]/g, '')`. */
  function Clean(s: string): string
  {
    Seqs.Filter(s, (c: char) => !Stripped(c))
  }

  /** Cleaning removes every stripped character and keeps every other one. */
  lemma CleanMembership(s: string)
    ensures forall i :: 0 <= i < |Clean(s)| ==> !Stripped(Clean(s)[i]) && Clean(s)[i] in s
    ensures forall i :: 0 <= i < |s| && !Stripped(s[i]) ==> s[i] in Clean(s)
  {
    Seqs.FilterMembership(s, (c: char) => !Stripped(c));
  }

  /** The survivors keep their original order. */
  lemma CleanKeepsOrder(s: string)
    ensures Seqs.IsSubsequence(Clean(s), s)
  {
    Seqs.FilterIsSubsequence(s, (c: char) => !Stripped(c));
  }

  lemma CleanAppend(a: string, b: string)
    ensures Clean(a + b) == Clean(a) + Clean(b)
  {
    Seqs.FilterAppend(a, b, (c: char) => !Stripped(c));
  }

  /** A string with no stripped character is left as it is. */
  lemma CleanNoop(s: string)
    requires forall i :: 0 <= i < |s| ==> !Stripped(s[i])
    ensures Clean(s) == s
  {
    Seqs.FilterAll(s, (c: char) => !Stripped(c));
  }

  /** Cleaning twice is cleaning once. */
  lemma CleanIdempotent(s: string)
    ensures Clean(Clean(s)) == Clean(s)
  {
    CleanMembership(s);
    CleanNoop(Clean(s));
  }

  /** Cleaning one character at the front. */
  lemma CleanCons(c: char, s: string)
    ensures Clean([c] + s) == (if Stripped(c) then [] else [c]) + Clean(s)
  {
    assert ([c] + s)[1..] == s;
  }

  /** The class is per character and case-sensitive. */
  lemma CleanIsCaseSensitive()
    ensures Clean("DEAD") == ""
    ensures Clean("aed") == "aed"
  {
    CleanCons('D', "");
    CleanCons('A', "D");
    CleanCons('E', "AD");
    CleanCons('D', "EAD");
    assert "DEAD" == ['D'] + "EAD" && "EAD" == ['E'] + "AD" && "AD" == ['A'] + "D";
    CleanNoop("aed");
  }

  /** `parseFloat(cleaned) || 0`: NaN (and zero) become 0. */
  function ParseAED(amount: string): (r: real)
    ensures ParseFloatPrefix(Clean(amount)).None? ==> r == 0.0
    ensures ParseFloatPrefix(Clean(amount)).Some? ==> r == ParseFloatPrefix(Clean(amount)).value
  {
    ParseFloatPrefix(Clean(amount)).GetOr(0.0)
  }

  /** The two decimals of a cent count below 100. */
  function TwoDigits(n: nat): (r: string)
    requires n < 100
    ensures |r| == 2 && AllDigits(r)
  {
    [DigitChar(n / 10), DigitChar(n % 10)]
  }

  /** A non-negative cent count with two decimals. */
  function Fixed2Magnitude(n: nat): string
  {
    NatToString(n / 100) + "." + TwoDigits(n % 100)
  }

  /** `(cents / 100).toFixed(2)`. */
  function FormatFixed2(cents: int): string
  {
    if cents < 0 then "-" + Fixed2Magnitude(-cents) else Fixed2Magnitude(cents)
  }

  /** `formatAEDSimple`: "AED " and the amount with two decimals. */
  function FormatAEDSimple(cents: int): string
  {
    "AED " + FormatFixed2(cents)
  }

  lemma TwoDigitsValue(m: nat)
    requires m < 100
    ensures DigitsValue(TwoDigits(m)) == m
  {
    var t := TwoDigits(m);
    assert t[..1] == [DigitChar(m / 10)];
    assert [DigitChar(m / 10)][..0] == [];
    assert DigitsValue(t[..1]) == m / 10;
    assert DigitValue(t[1]) == m % 10;
  }

  lemma CentsAsDecimal(n: nat)
    ensures (n / 100) as real + (n % 100) as real / 100.0 == n as real / 100.0
  {
    assert n == (n / 100) * 100 + n % 100;
  }

  lemma TwoDecimalsValue(whole: string, frac: string, q: nat, m: nat)
    requires AllDigits(whole) && AllDigits(frac) && |frac| == 2
    requires DigitsValue(whole) == q && DigitsValue(frac) == m
    ensures DecimalValue(whole, frac) == q as real + m as real / 100.0
  {
    var two := |frac|;
    assert Pow10(2) == 100;
    assert Pow10(two) == 100;
  }

  /** A numeral with two decimals reads back as its value. */
  lemma TwoDecimalsParse(whole: string, frac: string, q: nat, m: nat)
    requires AllDigits(whole) && AllDigits(frac) && whole != [] && |frac| == 2
    requires DigitsValue(whole) == q && DigitsValue(frac) == m
    ensures ParseFloatPrefix(whole + "." + frac) == Some(q as real + m as real / 100.0)
  {
    ParseFloatDecimal(whole, frac);
    TwoDecimalsValue(whole, frac, q, m);
  }

  /** The unsigned part of a rendering reads back as the magnitude. */
  lemma MagnitudeParses(n: nat)
    ensures ParseFloatPrefix(Fixed2Magnitude(n)) == Some(n as real / 100.0)
  {
    NatToStringValue(n / 100);
    TwoDigitsValue(n % 100);
    TwoDecimalsParse(NatToString(n / 100), TwoDigits(n % 100), n / 100, n % 100);
    CentsAsDecimal(n);
  }

  lemma MagnitudeStartsWithDigit(n: nat)
    ensures |Fixed2Magnitude(n)| > 0 && IsDigit(Fixed2Magnitude(n)[0])
  {
    var w := NatToString(n / 100);
    assert Fixed2Magnitude(n)[0] == w[0];
  }

  /** A negative amount's rendering: a minus sign before the magnitude. */
  lemma NegativeFixed2Parses(n: nat)
    ensures ParseFloatPrefix("-" + Fixed2Magnitude(n)) == Some(-(n as real / 100.0))
  {
    MagnitudeParses(n);
    MagnitudeStartsWithDigit(n);
    ParseFloatNegated(Fixed2Magnitude(n), n as real / 100.0);
  }

  lemma NegatedCents(cents: int)
    ensures -((-cents) as real / 100.0) == cents as real / 100.0
  {
  }

  /** A two-decimal rendering is read back as exactly the amount. */
  lemma FormatFixed2Parses(cents: int)
    ensures ParseFloatPrefix(FormatFixed2(cents)) == Some(cents as real / 100.0)
  {
    if cents < 0 {
      assert FormatFixed2(cents) == "-" + Fixed2Magnitude(-cents);
      NegativeFixed2Parses(-cents);
      NegatedCents(cents);
    } else {
      MagnitudeParses(cents);
    }
  }

  /** The prefix that `formatAEDSimple` adds is removed entirely by the cleaning. */
  lemma CleanPrefix(f: string)
    ensures Clean("AED " + f) == Clean(f)
  {
    CleanCons(' ', f);
    CleanCons('D', " " + f);
    CleanCons('E', "D " + f);
    CleanCons('A', "ED " + f);
    assert "AED " + f == ['A'] + ("ED " + f);
    assert "ED " + f == ['E'] + ("D " + f);
    assert "D " + f == ['D'] + (" " + f);
    assert " " + f == [' '] + f;
  }

  /** Formatting with `formatAEDSimple` and parsing with `parseAED` is the identity on cents. */
  lemma FormatParseRoundTrip(cents: int)
    ensures ParseAED(FormatAEDSimple(cents)) == cents as real / 100.0
  {
    var f := FormatFixed2(cents);
    CleanPrefix(f);
    CleanNoop(f);
    FormatFixed2Parses(cents);
  }

  /** Text with no numeric prefix after cleaning is worth 0: the bare currency code, */
  lemma CodeAloneIsZero()
    ensures ParseAED("AED") == 0.0
  {
    CleanCons('D', "");
    CleanCons('E', "D");
    CleanCons('A', "ED");
    assert "AED" == ['A'] + "ED" && "ED" == ['E'] + "D" && "D" == ['D'] + "";
  }

  /** the empty text, */
  lemma EmptyIsZero()
    ensures ParseAED("") == 0.0
  {
  }

  /** and letters that are not a number. */
  lemma LettersAreZero()
    ensures ParseAED("AED abc") == 0.0
  {
    CleanPrefix("abc");
    assert "AED abc" == "AED " + "abc";
    CleanNoop("abc");
    NoNumberPrefix("abc");
  }
}
