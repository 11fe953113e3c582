/*
 * Text cleaning applied to extracted contract text: whitespace normalisation,
 * header/footer line removal, punctuation-run clean-up and the pipeline that
 * chains them.
 *
 * Every regular expression in this file is simple enough to write out exactly:
 * `re.sub(" +", " ")`, `re.sub("\n{3,}", "\n\n")` and the three punctuation
 * substitutions each cut every run of one character down to a fixed length
 * (`CapRuns`), and the two line patterns of the header/footer filter are
 * recognisers written by hand (`PageNumberLine`, `DateLine`).
 */
module Cleaner {
  import opened TextUtil

  /** `k` copies of `c`. */
  function Rep(c: char, k: nat): (r: string)
    ensures |r| == k && forall i :: 0 <= i < k ==> r[i] == c
  {
    seq(k, _ => c)
  }

  /**
   * Every run of `c` longer than `k` cut down to `k` characters; all other text
   * unchanged. A substitution of the runs of at least `k + 1` copies of `c` by
   * `k` copies is exactly this: ` +` to " " is cap 1 on ' ', `\n{3,}` to
   * "\n\n" is cap 2 on '\n', `\.{4,}` to "..." is cap 3 on '.', and `-{3,}`
   * to "--" and `_{3,}` to "__" are cap 2 on '-' and '_'.
   */
  function CapRuns(s: string, c: char, k: nat): (r: string)
    ensures |r| <= |s|
  {
    if s == [] then []
    else
      var out := CapRuns(s[..|s| - 1], c, k);
      if s[|s| - 1] == c && EndsWith(out, Rep(c, k)) then out else out + [s[|s| - 1]]
  }

  /** No run of `c` in `s` is longer than `k`. */
  predicate NoRunLongerThan(s: string, c: char, k: nat)
  {
    !Contains(s, Rep(c, k + 1))
  }

  /** `s` with every `c` deleted. */
  function Without(s: string, c: char): (r: string)
    ensures |r| <= |s|
    ensures c !in r
  {
    if s == [] then []
    else if s[|s| - 1] == c then Without(s[..|s| - 1], c)
    else Without(s[..|s| - 1], c) + [s[|s| - 1]]
  }

  /** A run of `k + 1` copies of `c` ends `s + [x]` exactly when `x` is `c` and `k` copies end `s`. */
  lemma EndsWithRepStep(s: string, x: char, c: char, k: nat)
    ensures EndsWith(s + [x], Rep(c, k + 1)) <==> x == c && EndsWith(s, Rep(c, k))
  {
    var t := s + [x];
    assert Rep(c, k + 1) == Rep(c, k) + [c];
    if k <= |s| {
      var a := s[|s| - k..];
      assert t[|t| - (k + 1)..] == a + [x];
      assert (a + [x])[..k] == a && (a + [x])[k] == x;
      assert (Rep(c, k) + [c])[..k] == Rep(c, k);
    }
  }

  /** With a positive cap the last character always survives. */
  lemma CapRunsLast(s: string, c: char, k: nat)
    requires s != [] && k >= 1
    ensures CapRuns(s, c, k) != [] && CapRuns(s, c, k)[|CapRuns(s, c, k)| - 1] == s[|s| - 1]
  {
    var out := CapRuns(s[..|s| - 1], c, k);
    if CapRuns(s, c, k) == out {
      assert out[|out| - 1] == Rep(c, k)[k - 1];
    }
  }

  /** After capping, no run of `c` is longer than `k`. */
  lemma {:induction false} CapRunsBounded(s: string, c: char, k: nat)
    ensures NoRunLongerThan(CapRuns(s, c, k), c, k)
  {
    if s != [] {
      var x, init := s[|s| - 1], s[..|s| - 1];
      var out := CapRuns(init, c, k);
      CapRunsBounded(init, c, k);
      ContainsAppend(out, x, Rep(c, k + 1));
      EndsWithRepStep(out, x, c, k);
    }
  }

  /** Capping changes nothing when no run is too long already. */
  lemma {:induction false} CapRunsIdentity(s: string, c: char, k: nat)
    requires NoRunLongerThan(s, c, k)
    ensures CapRuns(s, c, k) == s
  {
    if s != [] {
      var x, init := s[|s| - 1], s[..|s| - 1];
      SliceAvoids(s, 0, |s| - 1, Rep(c, k + 1));
      assert s[0..|s| - 1] == init;
      CapRunsIdentity(init, c, k);
      assert init + [x] == s;
      EndsWithRepStep(init, x, c, k);
      EndsWithContains(s, Rep(c, k + 1));
    }
  }

  /** Capping only ever deletes copies of `c`: every other character survives, in order. */
  lemma {:induction false} CapRunsOnlyDeletes(s: string, c: char, k: nat)
    ensures Without(CapRuns(s, c, k), c) == Without(s, c)
  {
    if s != [] {
      var init := s[..|s| - 1];
      CapRunsOnlyDeletes(init, c, k);
      var out := CapRuns(init, c, k);
      if CapRuns(s, c, k) != out {
        assert (out + [s[|s| - 1]])[..|out|] == out;
      }
    }
  }

  /** A trailing run of another character `d` in the capped text is a trailing run of the original. */
  lemma {:induction false} CapRunsKeepsTail(s: string, c: char, k: nat, d: char, j: nat)
    requires d != c && k >= 1
    ensures EndsWith(CapRuns(s, c, k), Rep(d, j)) ==> EndsWith(s, Rep(d, j))
  {
    if j > 0 && s != [] {
      var x, init := s[|s| - 1], s[..|s| - 1];
      var out := CapRuns(init, c, k);
      var r := CapRuns(s, c, k);
      CapRunsLast(s, c, k);
      CapRunsKeepsTail(init, c, k, d, j - 1);
      EndsWithRepStep(out, x, d, j - 1);
      EndsWithRepStep(init, x, d, j - 1);
      assert init + [x] == s;
      assert EndsWith(r, Rep(d, j)) ==> r[|r| - 1] == Rep(d, j)[j - 1];
    }
  }

  /** Capping runs of `c` never lengthens a run of another character `d`. */
  lemma {:induction false} CapRunsKeepsOtherRuns(s: string, c: char, k: nat, d: char, m: nat)
    requires d != c && k >= 1
    requires NoRunLongerThan(s, d, m)
    ensures NoRunLongerThan(CapRuns(s, c, k), d, m)
  {
    if s != [] {
      var x, init := s[|s| - 1], s[..|s| - 1];
      var out := CapRuns(init, c, k);
      SliceAvoids(s, 0, |s| - 1, Rep(d, m + 1));
      assert s[0..|s| - 1] == init;
      CapRunsKeepsOtherRuns(init, c, k, d, m);
      ContainsAppend(out, x, Rep(d, m + 1));
      CapRunsKeepsTail(s, c, k, d, m + 1);
      EndsWithContains(s, Rep(d, m + 1));
    }
  }

  // ---------------------------------------------------------------------------
  // normalize_whitespace

  /** Every line stripped, as in `[line.strip() for line in lines]`. */
  function StripEach(lines: seq<string>): (r: seq<string>)
    ensures |r| == |lines|
    ensures forall i :: 0 <= i < |lines| ==> r[i] == Strip(lines[i])
  {
    seq(|lines|, i requires 0 <= i < |lines| => Strip(lines[i]))
  }

  /**
   * `normalize_whitespace`: space runs to one space, runs of three or more
   * newlines to two, every line stripped, then the whole text stripped.
   */
  function NormalizeWhitespace(text: string): (r: string)
    ensures IsStripped(r)
  {
    Strip(StripLines(CollapseBlanks(text)))
  }

  /** The two substitutions of `normalize_whitespace`: ` +` to " ", then `\n{3,}` to "\n\n". */
  function CollapseBlanks(text: string): string
  {
    CapRuns(CapRuns(text, ' ', 1), '\n', 2)
  }

  /** `"\n".join(line.strip() for line in text.split("\n"))`. */
  function StripLines(text: string): string
  {
    Join(StripEach(Split(text, '\n')), "\n")
  }

  /**
   * Every line of `s` is stripped: a whitespace character other than the
   * line break neither starts nor ends the text and has no line break on
   * either side of it.
   */
  predicate LinesStripped(s: string)
  {
    forall i :: 0 <= i < |s| && IsSpace(s[i]) && s[i] != '\n' ==>
      0 < i < |s| - 1 && s[i - 1] != '\n' && s[i + 1] != '\n'
  }

  /** Joining stripped, single-line pieces with line breaks gives text whose lines are stripped. */
  lemma {:induction false} JoinLinesStripped(parts: seq<string>)
    requires forall k :: 0 <= k < |parts| ==> IsStripped(parts[k]) && '\n' !in parts[k]
    ensures LinesStripped(Join(parts, "\n"))
    decreases |parts|
  {
    if |parts| > 1 {
      var p, rest := parts[0], Join(parts[1..], "\n");
      JoinLinesStripped(parts[1..]);
      var s := Join(parts, "\n");
      assert s == p + "\n" + rest;
      forall i | 0 <= i < |s| && IsSpace(s[i]) && s[i] != '\n'
        ensures 0 < i < |s| - 1 && s[i - 1] != '\n' && s[i + 1] != '\n'
      {
        if i < |p| {
          assert s[i] == p[i];
          assert 0 < i < |p| - 1;
          assert s[i - 1] == p[i - 1] && s[i + 1] == p[i + 1];
        } else {
          var j := i - |p| - 1;
          assert s[i] == rest[j];
          assert 0 < j < |rest| - 1 && rest[j - 1] != '\n' && rest[j + 1] != '\n';
          assert s[i - 1] == rest[j - 1] && s[i + 1] == rest[j + 1];
        }
      }
    }
  }

  /** Stripping the whole text keeps its lines stripped. */
  lemma StripKeepsLinesStripped(s: string)
    requires LinesStripped(s)
    ensures LinesStripped(Strip(s))
  {
    var a := StripIsSlice(s);
    var r := Strip(s);
    forall i | 0 <= i < |r| && IsSpace(r[i]) && r[i] != '\n'
      ensures 0 < i < |r| - 1 && r[i - 1] != '\n' && r[i + 1] != '\n'
    {
      assert r[i] == s[a + i];
      assert r[i - 1] == s[a + i - 1] && r[i + 1] == s[a + i + 1];
    }
  }

  /** A stripped line is a slice of the line, so a line without breaks stays without them. */
  lemma StripKeepsSingleLine(line: string)
    requires '\n' !in line
    ensures '\n' !in Strip(line)
  {
    var a := StripIsSlice(line);
    forall i | 0 <= i < |Strip(line)| ensures Strip(line)[i] != '\n' {
      assert Strip(line)[i] == line[a + i];
    }
  }

  /** Stripping lines that avoid `sub` gives lines that avoid it. */
  lemma StripEachAvoids(lines: seq<string>, sub: string)
    requires forall k :: 0 <= k < |lines| ==> !Contains(lines[k], sub)
    ensures forall k :: 0 <= k < |lines| ==> !Contains(StripEach(lines)[k], sub)
  {
    forall k | 0 <= k < |lines| ensures !Contains(StripEach(lines)[k], sub) {
      var a := StripIsSlice(lines[k]);
      SliceAvoids(lines[k], a, a + |Strip(lines[k])|, sub);
    }
  }

  /** Stripped single lines are stripped and stay single lines. */
  lemma StripEachSingleLines(lines: seq<string>)
    requires forall k :: 0 <= k < |lines| ==> '\n' !in lines[k]
    ensures forall k :: 0 <= k < |lines| ==> IsStripped(StripEach(lines)[k]) && '\n' !in StripEach(lines)[k]
  {
    forall k | 0 <= k < |lines| ensures '\n' !in StripEach(lines)[k] {
      StripKeepsSingleLine(lines[k]);
    }
  }

  /** Stripping every line of text without two spaces in a row keeps it so. */
  lemma StripLinesAvoid(text: string, two: string)
    requires two == Rep(' ', 2) && !Contains(text, two)
    ensures !Contains(StripLines(text), two)
  {
    SplitPiecesAvoid(text, '\n', two);
    StripEachAvoids(Split(text, '\n'), two);
    assert '\n' !in two;
    JoinAvoids(StripEach(Split(text, '\n')), '\n', two);
  }

  /** The output of `normalize_whitespace` never holds two spaces in a row. */
  lemma NormalizeNoDoubleSpace(text: string)
    ensures NoRunLongerThan(NormalizeWhitespace(text), ' ', 1)
  {
    var spaced := CapRuns(text, ' ', 1);
    var collapsed := CollapseBlanks(text);
    var two := Rep(' ', 2);
    CapRunsBounded(text, ' ', 1);
    CapRunsKeepsOtherRuns(spaced, '\n', 2, ' ', 1);
    StripLinesAvoid(collapsed, two);
    var joined := StripLines(collapsed);
    var b := StripIsSlice(joined);
    SliceAvoids(joined, b, b + |Strip(joined)|, two);
  }

  /**
   * The output of `normalize_whitespace` has no leading or trailing
   * whitespace, and every line of it is stripped.
   */
  lemma NormalizeLinesStripped(text: string)
    ensures IsStripped(NormalizeWhitespace(text))
    ensures LinesStripped(NormalizeWhitespace(text))
  {
    var collapsed := CollapseBlanks(text);
    StripEachSingleLines(Split(collapsed, '\n'));
    JoinLinesStripped(StripEach(Split(collapsed, '\n')));
    StripKeepsLinesStripped(StripLines(collapsed));
  }

  // ---------------------------------------------------------------------------
  // remove_headers_footers

  /** Length of the run of digits at the start of `s`. */
  function DigitPrefix(s: string): (n: nat)
    ensures n <= |s| && forall i :: 0 <= i < n ==> IsDigit(s[i])
    ensures n < |s| ==> !IsDigit(s[n])
  {
    if s != [] && IsDigit(s[0]) then 1 + DigitPrefix(s[1..]) else 0
  }

  /** Length of the run of whitespace at the start of `s`. */
  function SpacePrefix(s: string): (n: nat)
    ensures n <= |s| && forall i :: 0 <= i < n ==> IsSpace(s[i])
    ensures n < |s| ==> !IsSpace(s[n])
  {
    if s != [] && IsSpace(s[0]) then 1 + SpacePrefix(s[1..]) else 0
  }

  const PageWord := "page"
  const OfWord := "of"

  /** `\s+of\s+\d+` (any case of "of") matching all of `s`. */
  predicate OfTotal(s: string)
  {
    var w := SpacePrefix(s);
    w > 0 && w + 2 <= |s| && Lower(s[w..w + 2]) == OfWord
    && var rest := s[w + 2..];
    var w2 := SpacePrefix(rest);
    w2 > 0 && IsDigitString(rest[w2..])
  }

  /** `\d+(?:\s+of\s+\d+)?` matching all of `s`. */
  predicate NumberOfTotal(s: string)
  {
    var d := DigitPrefix(s);
    d > 0 && (d == |s| || OfTotal(s[d..]))
  }

  /**
   * `(?:Page\s+)?\d+(?:\s+of\s+\d+)?` (ignoring case) matching all of `s`. The
   * optional prefix is taken exactly when "page" and some whitespace start
   * the text: without it the digits would have to start at a letter.
   */
  predicate PageTotal(s: string)
  {
    var body :=
      if |s| > 4 && Lower(s[..4]) == PageWord && IsSpace(s[4]) then s[4 + SpacePrefix(s[4..])..] else s;
    NumberOfTotal(body)
  }

  /**
   * A page-number line: `^\s*(?:Page\s+)?\d+(?:\s+of\s+\d+)?\s*$` with
   * IGNORECASE matches it. The pattern's core begins with a letter or digit
   * and ends with a digit, so the surrounding `\s*` take exactly the
   * whitespace that `strip` removes.
   */
  predicate PageNumberLine(line: string)
  {
    PageTotal(Strip(line))
  }

  /** `/` or `-`, the separators of `[/-]`. */
  predicate DateSeparator(c: char) { c == '/' || c == '-' }

  /**
   * A standalone numeric date: `^\s*\d{1,2}[/-]\d{1,2}[/-]\d{2,4}\s*$` matches
   * the line. A separator cannot be a digit, so each digit group is the whole
   * run of digits it starts.
   */
  predicate DateLine(line: string)
  {
    var s := Strip(line);
    var a := DigitPrefix(s);
    1 <= a <= 2 && a < |s| && DateSeparator(s[a])
    && var t := s[a + 1..];
    var b := DigitPrefix(t);
    1 <= b <= 2 && b < |t| && DateSeparator(t[b])
    && var u := t[b + 1..];
    2 <= |u| <= 4 && IsDigitString(u)
  }

  /** `len(line.strip()) < 5 and line.strip().isdigit()`. */
  predicate ShortNumberLine(line: string)
  {
    |Strip(line)| < 5 && IsDigitString(Strip(line))
  }

  /** The lines `remove_headers_footers` skips. */
  predicate Dropped(line: string)
  {
    PageNumberLine(line) || DateLine(line) || ShortNumberLine(line)
  }

  /** The lines that are not dropped, in their original order. */
  function KeptLines(lines: seq<string>): (r: seq<string>)
    ensures |r| <= |lines|
  {
    if lines == [] then []
    else
      var init := KeptLines(lines[..|lines| - 1]);
      if Dropped(lines[|lines| - 1]) then init else init + [lines[|lines| - 1]]
  }

  /** The text `remove_headers_footers` returns: the kept lines joined by line breaks. */
  function HeadersFootersRemoved(text: string): string
  {
    Join(KeptLines(Split(text, '\n')), "\n")
  }

  /** One more line either is dropped or is appended to the kept lines. */
  lemma KeptLinesStep(lines: seq<string>, i: nat)
    requires i < |lines|
    ensures KeptLines(lines[..i + 1]) ==
      if Dropped(lines[i]) then KeptLines(lines[..i]) else KeptLines(lines[..i]) + [lines[i]]
  {
    assert lines[..i + 1][..i] == lines[..i];
  }

  /** `remove_headers_footers`: split into lines, skip the dropped ones, join the rest. */
  method RemoveHeadersFooters(text: string) returns (r: string)
    ensures r == HeadersFootersRemoved(text)
  {
    var lines := Split(text, '\n');
    var cleaned: seq<string> := [];
    for i := 0 to |lines|
      invariant cleaned == KeptLines(lines[..i])
    {
      var line := lines[i];
      KeptLinesStep(lines, i);
      if PageNumberLine(line) {
        continue;
      }
      if DateLine(line) {
        continue;
      }
      if |Strip(line)| < 5 && IsDigitString(Strip(line)) {
        continue;
      }
      cleaned := cleaned + [line];
    }
    assert lines[..|lines|] == lines;
    r := Join(cleaned, "\n");
  }

  /** Filtering distributes over concatenation, so the kept lines keep their order. */
  lemma {:induction false} KeptLinesAppend(a: seq<string>, b: seq<string>)
    ensures KeptLines(a + b) == KeptLines(a) + KeptLines(b)
    decreases |b|
  {
    if b == [] {
      assert a + b == a;
    } else {
      var b' := b[..|b| - 1];
      assert (a + b)[..|a + b| - 1] == a + b';
      KeptLinesAppend(a, b');
    }
  }

  /** Kept lines are exactly the input lines that are not dropped. */
  lemma {:induction false} KeptLinesMembers(lines: seq<string>)
    ensures forall l :: l in KeptLines(lines) <==> l in lines && !Dropped(l)
  {
    if lines != [] {
      var init := lines[..|lines| - 1];
      KeptLinesMembers(init);
      assert lines == init + [lines[|lines| - 1]];
    }
  }

  /** A line with no digit in it is never dropped. */
  lemma LineWithoutDigitIsKept(line: string)
    requires forall i :: 0 <= i < |line| ==> !IsDigit(line[i])
    ensures !Dropped(line)
  {
    var s := Strip(line);
    var a := StripIsSlice(line);
    assert forall i :: 0 <= i < |s| ==> s[i] == line[a + i];
    if |s| > 4 && Lower(s[..4]) == PageWord && IsSpace(s[4]) {
      var w := 4 + SpacePrefix(s[4..]);
      assert s[w..] == s[w..];
      assert DigitPrefix(s[w..]) == 0 by {
        assert s[w..] != [] ==> s[w..][0] == s[w];
      }
    }
  }

  /**
   * When some line survives, the lines of the output are exactly the kept
   * input lines.
   */
  lemma RemovedHeadersFootersLines(text: string)
    requires KeptLines(Split(text, '\n')) != []
    ensures Split(HeadersFootersRemoved(text), '\n') == KeptLines(Split(text, '\n'))
  {
    var lines := Split(text, '\n');
    var kept := KeptLines(lines);
    KeptLinesMembers(lines);
    forall k | 0 <= k < |kept| ensures '\n' !in kept[k] {
      assert kept[k] in lines;
    }
    SplitJoin(kept, '\n');
  }

  // ---------------------------------------------------------------------------
  // remove_excessive_punctuation

  /** `remove_excessive_punctuation`: dot runs to "...", dash runs to "--", underscore runs to "__". */
  function RemoveExcessivePunctuation(text: string): (r: string)
    ensures |r| <= |text|
  {
    CapRuns(CapRuns(CapRuns(text, '.', 3), '-', 2), '_', 2)
  }

  /** The three punctuation limits hold together. */
  predicate PunctuationTidy(s: string)
  {
    NoRunLongerThan(s, '.', 3) && NoRunLongerThan(s, '-', 2) && NoRunLongerThan(s, '_', 2)
  }

  /** The output has no run of four dots or three dashes or underscores. */
  lemma PunctuationRunsBounded(text: string)
    ensures PunctuationTidy(RemoveExcessivePunctuation(text))
  {
    var dots := CapRuns(text, '.', 3);
    var dashes := CapRuns(dots, '-', 2);
    CapRunsBounded(text, '.', 3);
    CapRunsKeepsOtherRuns(dots, '-', 2, '.', 3);
    CapRunsKeepsOtherRuns(dashes, '_', 2, '.', 3);
    CapRunsBounded(dots, '-', 2);
    CapRunsKeepsOtherRuns(dashes, '_', 2, '-', 2);
    CapRunsBounded(dashes, '_', 2);
  }

  /** Tidy text is left unchanged, so the clean-up is idempotent. */
  lemma PunctuationIdempotent(text: string)
    ensures RemoveExcessivePunctuation(RemoveExcessivePunctuation(text)) == RemoveExcessivePunctuation(text)
  {
    var r := RemoveExcessivePunctuation(text);
    PunctuationRunsBounded(text);
    CapRunsIdentity(r, '.', 3);
    CapRunsIdentity(r, '-', 2);
    CapRunsIdentity(r, '_', 2);
  }

  // ---------------------------------------------------------------------------
  // clean_contract_text

  /** The pipeline: normalise, drop header/footer lines, tidy punctuation, normalise again. */
  function CleanedText(text: string): (r: string)
    ensures IsStripped(r)
  {
    var first := NormalizeWhitespace(text);
    var body := HeadersFootersRemoved(first);
    NormalizeWhitespace(RemoveExcessivePunctuation(body))
  }

  /** `clean_contract_text`. */
  method CleanContractText(text: string) returns (r: string)
    ensures r == CleanedText(text)
    ensures IsStripped(r) && NoRunLongerThan(r, ' ', 1) && LinesStripped(r)
  {
    var first := NormalizeWhitespace(text);
    var body := RemoveHeadersFooters(first);
    var tidy := RemoveExcessivePunctuation(body);
    r := NormalizeWhitespace(tidy);
    NormalizeNoDoubleSpace(tidy);
    NormalizeLinesStripped(tidy);
  }
}
