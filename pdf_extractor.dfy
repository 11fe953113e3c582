/*
 * The test that decides whether text extracted from a PDF is good enough or
 * whether the page images must go through OCR instead. Extraction itself is
 * I/O and is not part of this model.
 */
module PdfExtractor {
  import opened TextUtil

  /**
   * `c.isprintable()` for the characters whose category Latin-1 fixes: the C0
   * controls, DEL, the C1 controls and the soft hyphen are not printable, and
   * no whitespace is printable except the plain space.
   */
  predicate IsPrintable(c: char)
  {
    && !(c < ' ')
    && !('\U{007F}' <= c <= '\U{009F}')
    && c != '\U{00AD}'
    && (c == ' ' || !IsSpace(c))
  }

  /** `c.isprintable() or c.isspace()`. */
  predicate Readable(c: char)
  {
    IsPrintable(c) || IsSpace(c)
  }

  /** How many characters of `s` are readable. */
  function CountReadable(s: string): (n: nat)
    ensures n <= |s|
  {
    if s == [] then 0
    else CountReadable(s[..|s| - 1]) + (if Readable(s[|s| - 1]) then 1 else 0)
  }

  /**
   * `should_use_ocr(text, min_length)`. The readable fraction is compared with
   * 0.8 by cross-multiplying: `n / len < 0.8` is `5 * n < 4 * len`.
   */
  function ShouldUseOcr(text: string, minLength: int := 100): (r: bool)
    ensures text == [] || |Strip(text)| < minLength ==> r
  {
    if text == [] || |Strip(text)| < minLength then true
    else CountReadable(text) * 5 < |text| * 4
  }

  /** Empty text, and text whose stripped length is below the minimum, need OCR. */
  lemma ShortTextNeedsOcr(text: string, minLength: int)
    requires text == [] || |Strip(text)| < minLength
    ensures ShouldUseOcr(text, minLength)
  {
  }

  /** `n / len < 0.8` in exact arithmetic is `5 * n < 4 * len`. */
  lemma RatioBelowFourFifths(n: int, len: int)
    requires len > 0
    ensures (n as real) / (len as real) < 0.8 <==> n * 5 < len * 4
  {
    var l := len as real;
    DivisionUndone(n as real, l);
    ScaleKeepsOrder((n as real) / l, 0.8, l);
  }

  /** Dividing by a non-zero number and multiplying back gives the original. */
  lemma DivisionUndone(x: real, l: real)
    requires l != 0.0
    ensures x / l * l == x
  {
  }

  /** Multiplying both sides by a positive number keeps a strict inequality. */
  lemma ScaleKeepsOrder(a: real, b: real, l: real)
    requires l > 0.0
    ensures a < b <==> a * l < b * l
  {
    assert a * l - b * l == (a - b) * l;
  }

  /**
   * Otherwise OCR is needed exactly when the readable characters make up less
   * than 80% of the text.
   */
  lemma OcrIffMostlyUnreadable(text: string, minLength: int)
    requires text != [] && |Strip(text)| >= minLength
    ensures ShouldUseOcr(text, minLength) <==> (CountReadable(text) as real) / (|text| as real) < 0.8
  {
    RatioBelowFourFifths(CountReadable(text), |text|);
  }

  /** Every character counts when every character is readable. */
  lemma {:induction false} AllReadableCountsAll(s: string)
    requires forall i :: 0 <= i < |s| ==> Readable(s[i])
    ensures CountReadable(s) == |s|
  {
    if s != [] {
      AllReadableCountsAll(s[..|s| - 1]);
    }
  }

  /** Fully readable text long enough after stripping does not need OCR. */
  lemma ReadableTextNeedsNoOcr(text: string, minLength: int)
    requires forall i :: 0 <= i < |text| ==> Readable(text[i])
    requires text != [] && |Strip(text)| >= minLength
    ensures !ShouldUseOcr(text, minLength)
  {
    AllReadableCountsAll(text);
  }
}
