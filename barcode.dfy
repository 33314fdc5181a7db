/**
 * Display barcodes: a barcode is a string of bars ('|') and white space.
 * Generation picks one of a fixed list of patterns with a random draw; the
 * two stores carry their own copies of such a list.
 */
module Barcode {
  import Text

  /** The pattern list of the client-side generator. */
  const Patterns: seq<string> := [
    "||||| |||| ||||",
    "|||| ||| |||||",
    "||| |||| ||||||",
    "|||| ||| |||| ||",
    "|| |||| ||||| |",
    "||| || ||| ||||",
    "|||| || ||| |||",
    "|| ||| |||| |||"
  ]

  /** The pattern list of the database store's generator (the same eight). */
  const DatabasePatterns: seq<string> := [
    "||||| |||| ||||",
    "|||| ||| |||||",
    "||| |||| ||||||",
    "|||| ||| |||| ||",
    "|| |||| ||||| |",
    "||| || ||| ||||",
    "|||| || ||| |||",
    "|| ||| |||| |||"
  ]

  /** The pattern list of the in-memory store's generator (the first five). */
  const MemoryPatterns: seq<string> := [
    "||||| |||| ||||",
    "|||| ||| |||||",
    "||| |||| ||||||",
    "|||| ||| |||| ||",
    "|| |||| ||||| |"
  ]

  predicate IsBarChar(c: char)
  {
    c == '|' || Text.IsSpace(c)
  }

  /** The regular expression `^[\|\s]+$`: non-empty, bars and white space only. */
  predicate MatchesBarPattern(s: string)
  {
    s != [] && forall i :: 0 <= i < |s| ==> IsBarChar(s[i])
  }

  /** The regular-expression test and a length above ten. */
  function ValidateBarcode(barcode: string): (ok: bool)
    ensures ok ==> forall i :: 0 <= i < |barcode| ==> IsBarChar(barcode[i])
    ensures ok ==> |barcode| > 10
    ensures (|barcode| > 10 && forall i :: 0 <= i < |barcode| ==> IsBarChar(barcode[i])) ==> ok
  {
    MatchesBarPattern(barcode) && |barcode| > 10
  }

  /** Nothing of length ten or less is accepted, not even ten bars or the empty string. */
  lemma ShortBarcodesRejected(barcode: string)
    requires |barcode| <= 10
    ensures !ValidateBarcode(barcode)
  {
  }

  /** Every entry of a list has only bar and space characters and more than ten of them. */
  lemma {:induction false} PatternsValid()
    ensures forall i :: 0 <= i < |Patterns| ==> ValidateBarcode(Patterns[i])
    ensures forall i :: 0 <= i < |DatabasePatterns| ==> ValidateBarcode(DatabasePatterns[i])
    ensures forall i :: 0 <= i < |MemoryPatterns| ==> ValidateBarcode(MemoryPatterns[i])
  {
    forall s | s in Patterns ensures ValidateBarcode(s) {
      PatternValid(s);
    }
    assert DatabasePatterns == Patterns;
    assert MemoryPatterns == Patterns[..5];
  }

  lemma PatternValid(s: string)
    requires s in Patterns
    ensures ValidateBarcode(s)
  {
    assert forall i :: 0 <= i < |s| ==> s[i] == '|' || s[i] == ' ';
  }

  /**
   * `Math.floor(draw * n)` for a draw of `Math.random()` (in [0, 1)): an
   * index into a list of n entries.
   */
  function PickIndex(draw: real, n: nat): (i: nat)
    requires 0.0 <= draw < 1.0 && n > 0
    ensures i < n
  {
    var scaled := draw * n as real;
    assert n as real - scaled == (1.0 - draw) * n as real;
    assert (1.0 - draw) * n as real > 0.0;
    scaled.Floor
  }

  /** The client generator: the pattern the draw selects. */
  function GenerateBarcode(draw: real): (barcode: string)
    requires 0.0 <= draw < 1.0
    ensures barcode in Patterns
    ensures ValidateBarcode(barcode)
  {
    PatternsValid();
    Patterns[PickIndex(draw, |Patterns|)]
  }

  /** The placeholder QR code: the data behind a fixed prefix. */
  function GenerateQRCode(data: string): (code: string)
    ensures |code| == |data| + 3
    ensures code[..3] == "QR:" && code[3..] == data
  {
    "QR:" + data
  }
}
