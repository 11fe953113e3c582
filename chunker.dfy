/**
 * Splitting contract text into clauses (lexguard/nlp/chunker.py): a split at numbered section
 * markers, a fallback split at blank lines, a filter that drops short pieces and headers, and a
 * pass that merges short neighbours.
 */
module Chunker {
  import opened TextUtil
  import opened Regex

  /** Section markers such as `1.`, `2.1`, `a)`, `iv)`, `(ii)`, `(b)`, at a line start. */
  const SectionMarker: Pattern :=
    Pattern(@"(?:^|\n)(?:\d+\.(?:\d+\.?)?|[a-z]\)|[ivx]+\)|\([ivx]+\)|\([a-z]\))\s+", true, true)

  // ---------------------------------------------------------------- numbered sections

  function Starts(ms: seq<Match>): (starts: seq<nat>)
    ensures |starts| == |ms|
    ensures forall i :: 0 <= i < |ms| ==> starts[i] == ms[i].start
  {
    seq(|ms|, i requires 0 <= i < |ms| => ms[i].start)
  }

  /** Where piece `i` ends: at the next marker's start, the last piece at the end of the text. */
  function PieceEnd(text: string, starts: seq<nat>, i: nat): int
  {
    if i + 1 < |starts| then starts[i + 1] else |text|
  }

  /** The pieces cut at the given marker starts; with no marker, the whole text is one piece. */
  function NumberedSplit(text: string, starts: seq<nat>): (pieces: seq<string>)
    ensures starts == [] ==> pieces == [text]
    ensures starts != [] ==> |pieces| == |starts|
  {
    if starts == [] then [text]
    else seq(|starts|, i requires 0 <= i < |starts| => PySlice(text, starts[i], PieceEnd(text, starts, i)))
  }

  /** `_split_by_numbered_sections`. */
  method SplitByNumberedSections(text: string, engine: Engine) returns (clauses: seq<string>)
    ensures clauses == NumberedSplit(text, Starts(engine(SectionMarker, text)))
  {
    var matches := engine(SectionMarker, text);
    var positions := Starts(matches);
    if positions == [] {
      return [text];
    }
    clauses := [];
    for i := 0 to |matches|
      invariant |clauses| == i
      invariant forall k :: 0 <= k < i ==> clauses[k] == PySlice(text, positions[k], PieceEnd(text, positions, k))
    {
      var start := matches[i].start;
      var end := if i + 1 < |positions| then positions[i + 1] else |text|;
      clauses := clauses + [PySlice(text, start, end)];
    }
  }

  /** Concatenation of a sequence of strings. */
  function Concat(xs: seq<string>): string
  {
    if xs == [] then "" else xs[0] + Concat(xs[1..])
  }

  lemma {:induction false} ConcatPiecesFrom(text: string, starts: seq<nat>, k: nat)
    requires forall i :: 0 <= i < |starts| ==> starts[i] <= |text|
    requires forall i, j :: 0 <= i < j < |starts| ==> starts[i] < starts[j]
    requires k < |starts|
    ensures Concat(NumberedSplit(text, starts)[k..]) == text[starts[k]..]
    decreases |starts| - k
  {
    var pieces := NumberedSplit(text, starts);
    var tail := pieces[k..];
    assert tail[0] == pieces[k] && tail[1..] == pieces[k + 1..];
    assert Concat(tail) == pieces[k] + Concat(pieces[k + 1..]);
    if k + 1 < |starts| {
      ConcatPiecesFrom(text, starts, k + 1);
      PySliceInBounds(text, starts[k], starts[k + 1]);
      assert pieces[k] == text[starts[k]..starts[k + 1]];
      assert text[starts[k]..] == text[starts[k]..starts[k + 1]] + text[starts[k + 1]..];
    } else {
      PySliceInBounds(text, starts[k], |text|);
      assert pieces[k] == text[starts[k]..];
      assert pieces[k + 1..] == [];
    }
  }

  /**
   * With at least one marker the pieces, in order, spell out the text from the first marker on:
   * nothing after the first marker is lost or repeated, and the text before it is discarded.
   */
  lemma NumberedPiecesCoverFromFirstMarker(text: string, ms: seq<Match>)
    requires Sound(ms, text) && ms != []
    ensures Concat(NumberedSplit(text, Starts(ms))) == text[ms[0].start..]
    ensures |NumberedSplit(text, Starts(ms))| == |ms|
  {
    var starts := Starts(ms);
    ConcatPiecesFrom(text, starts, 0);
    assert NumberedSplit(text, starts)[0..] == NumberedSplit(text, starts);
  }

  // ---------------------------------------------------------------- paragraphs

  /** No two consecutive line breaks: the piece contains no blank line. */
  predicate NoBlankLine(p: string)
  {
    forall i :: 0 <= i && i + 1 < |p| ==> !(p[i] == '\n' && p[i + 1] == '\n')
  }

  /** `s` with its leading line breaks removed. */
  function DropNewlines(s: string): (r: string)
    ensures |r| <= |s| && r == s[|s| - |r|..]
    ensures r != [] ==> r[0] != '\n'
  {
    if s != [] && s[0] == '\n' then DropNewlines(s[1..]) else s
  }

  /** `re.split(r"\n{2,}", s)`: the pieces between maximal runs of two or more line breaks. */
  function SplitOnBlankRuns(s: string): (r: seq<string>)
    ensures |r| >= 1
    ensures |r[0]| <= |s| && r[0] == s[..|r[0]|]
    ensures forall k :: 0 <= k < |r| ==> NoBlankLine(r[k])
    decreases |s|
  {
    if s == [] then [""]
    else if |s| >= 2 && s[0] == '\n' && s[1] == '\n' then [""] + SplitOnBlankRuns(DropNewlines(s))
    else
      var rest := SplitOnBlankRuns(s[1..]);
      var head := [s[0]] + rest[0];
      assert NoBlankLine(head) by {
        forall i | 0 <= i && i + 1 < |head|
          ensures !(head[i] == '\n' && head[i + 1] == '\n')
        {
          if i == 0 {
            assert head[1] == s[1];
          } else {
            assert head[i] == rest[0][i - 1] && head[i + 1] == rest[0][i];
          }
        }
      }
      [head] + rest[1..]
  }

  /** A slice of a string without blank lines has none either. */
  lemma NoBlankLineSlice(p: string, i: nat, j: nat)
    requires i <= j <= |p| && NoBlankLine(p)
    ensures NoBlankLine(p[i..j])
  {
    var q := p[i..j];
    forall k | 0 <= k && k + 1 < |q|
      ensures !(q[k] == '\n' && q[k + 1] == '\n')
    {
      assert q[k] == p[i + k] && q[k + 1] == p[i + k + 1];
    }
  }

  /** `[p.strip() for p in pieces if p.strip()]`. */
  function StripNonEmpty(pieces: seq<string>): (r: seq<string>)
    ensures |r| <= |pieces|
    ensures forall k :: 0 <= k < |r| ==> r[k] != [] && IsStripped(r[k])
  {
    if pieces == [] then []
    else
      var rest := StripNonEmpty(pieces[1..]);
      var p := Strip(pieces[0]);
      if p != [] then [p] + rest else rest
  }

  lemma {:induction false} StripNonEmptyKeepsNoBlankLine(pieces: seq<string>)
    requires forall k :: 0 <= k < |pieces| ==> NoBlankLine(pieces[k])
    ensures forall k :: 0 <= k < |StripNonEmpty(pieces)| ==> NoBlankLine(StripNonEmpty(pieces)[k])
  {
    if pieces != [] {
      StripNonEmptyKeepsNoBlankLine(pieces[1..]);
      var i := StripIsSlice(pieces[0]);
      NoBlankLineSlice(pieces[0], i, i + |Strip(pieces[0])|);
    }
  }

  /** The leading line breaks of `s`: what `DropNewlines` removes. */
  function LeadingNewlines(s: string): string
  {
    s[..|s| - |DropNewlines(s)|]
  }

  /** The separators `re.split(r"\n{2,}", s)` cuts out, in order: each maximal run of two or more line breaks. */
  function BlankRuns(s: string): seq<string>
    decreases |s|
  {
    if s == [] then []
    else if |s| >= 2 && s[0] == '\n' && s[1] == '\n' then [LeadingNewlines(s)] + BlankRuns(DropNewlines(s))
    else BlankRuns(s[1..])
  }

  /** The pieces with the separators put back between them: `p0 + r0 + p1 + r1 + ... + pn`. */
  function Interleave(pieces: seq<string>, runs: seq<string>): string
    requires |pieces| == |runs| + 1
    decreases |runs|
  {
    if runs == [] then pieces[0] else pieces[0] + runs[0] + Interleave(pieces[1..], runs[1..])
  }

  /** A character put in front of the first piece comes first in the interleaving. */
  lemma InterleaveConsFirst(c: char, pieces: seq<string>, runs: seq<string>)
    requires |pieces| == |runs| + 1
    ensures Interleave([[c] + pieces[0]] + pieces[1..], runs) == [c] + Interleave(pieces, runs)
  {
    var moved := [[c] + pieces[0]] + pieces[1..];
    assert moved[1..] == pieces[1..];
  }

  /** Every line break removed by `DropNewlines` is a line break. */
  lemma {:induction false} LeadingNewlinesAreNewlines(s: string)
    ensures forall i :: 0 <= i < |LeadingNewlines(s)| ==> LeadingNewlines(s)[i] == '\n'
    decreases |s|
  {
    if s != [] && s[0] == '\n' {
      LeadingNewlinesAreNewlines(s[1..]);
      forall i | 0 <= i < |LeadingNewlines(s)| ensures LeadingNewlines(s)[i] == '\n' {
        if i > 0 {
          assert LeadingNewlines(s)[i] == LeadingNewlines(s[1..])[i - 1];
        }
      }
    }
  }

  /** Dropping the leading line breaks of a text that starts with two of them shortens it by at least two. */
  lemma {:induction false} DropRunShortens(s: string)
    requires |s| >= 2 && s[0] == '\n' && s[1] == '\n'
    ensures |LeadingNewlines(s)| >= 2 && s == LeadingNewlines(s) + DropNewlines(s)
  {
    DropTwoNewlines(s);
    var k := |s| - |DropNewlines(s)|;
    assert s == s[..k] + s[k..];
  }

  /** Two leading line breaks are both dropped. */
  lemma {:induction false} DropTwoNewlines(s: string)
    requires |s| >= 2 && s[0] == '\n' && s[1] == '\n'
    ensures DropNewlines(s) == DropNewlines(s[2..])
  {
    var t := s[1..];
    assert t != [] && t[0] == '\n';
    assert DropNewlines(s) == DropNewlines(t);
    assert t[1..] == s[2..];
    assert DropNewlines(t) == DropNewlines(t[1..]);
  }

  /** The split has one piece more than there are runs. */
  lemma {:induction false} BlankRunsCount(s: string)
    ensures |SplitOnBlankRuns(s)| == |BlankRuns(s)| + 1
    decreases |s|
  {
    if s == [] {
    } else if |s| >= 2 && s[0] == '\n' && s[1] == '\n' {
      DropRunShortens(s);
      BlankRunsCount(DropNewlines(s));
    } else {
      BlankRunsCount(s[1..]);
    }
  }

  /** The split loses nothing: putting the cut-out runs back between the pieces gives the text again. */
  lemma {:induction false} SplitOnBlankRunsRoundTrip(s: string)
    ensures |SplitOnBlankRuns(s)| == |BlankRuns(s)| + 1
    ensures Interleave(SplitOnBlankRuns(s), BlankRuns(s)) == s
    decreases |s|
  {
    BlankRunsCount(s);
    if s == [] {
    } else if |s| >= 2 && s[0] == '\n' && s[1] == '\n' {
      var d := DropNewlines(s);
      DropRunShortens(s);
      SplitOnBlankRunsRoundTrip(d);
      var pieces := SplitOnBlankRuns(s);
      var runs := BlankRuns(s);
      assert pieces[1..] == SplitOnBlankRuns(d) && runs[1..] == BlankRuns(d);
      assert Interleave(pieces, runs) == "" + LeadingNewlines(s) + Interleave(SplitOnBlankRuns(d), BlankRuns(d));
    } else {
      var t := s[1..];
      SplitOnBlankRunsRoundTrip(t);
      var rest := SplitOnBlankRuns(t);
      InterleaveConsFirst(s[0], rest, BlankRuns(t));
      assert SplitOnBlankRuns(s) == [[s[0]] + rest[0]] + rest[1..];
      assert [s[0]] + t == s;
    }
  }

  /** Every run cut out is two or more line breaks and nothing else. */
  lemma {:induction false} BlankRunsAreRuns(s: string)
    ensures forall k :: 0 <= k < |BlankRuns(s)| ==>
      |BlankRuns(s)[k]| >= 2 && forall i :: 0 <= i < |BlankRuns(s)[k]| ==> BlankRuns(s)[k][i] == '\n'
    decreases |s|
  {
    if s == [] {
    } else if |s| >= 2 && s[0] == '\n' && s[1] == '\n' {
      DropRunShortens(s);
      LeadingNewlinesAreNewlines(s);
      BlankRunsAreRuns(DropNewlines(s));
      assert BlankRuns(s)[1..] == BlankRuns(DropNewlines(s));
    } else {
      BlankRunsAreRuns(s[1..]);
    }
  }

  /** Every piece after a run starts with something other than a line break, so the runs are maximal. */
  lemma {:induction false} PiecesAfterRunsStartOtherwise(s: string)
    ensures forall k :: 1 <= k < |SplitOnBlankRuns(s)| ==>
      SplitOnBlankRuns(s)[k] == [] || SplitOnBlankRuns(s)[k][0] != '\n'
    decreases |s|
  {
    if s == [] {
    } else if |s| >= 2 && s[0] == '\n' && s[1] == '\n' {
      var d := DropNewlines(s);
      DropRunShortens(s);
      PiecesAfterRunsStartOtherwise(d);
      var pieces := SplitOnBlankRuns(s);
      assert pieces[1..] == SplitOnBlankRuns(d);
      assert SplitOnBlankRuns(d)[0] == d[..|SplitOnBlankRuns(d)[0]|];
    } else {
      PiecesAfterRunsStartOtherwise(s[1..]);
      var rest := SplitOnBlankRuns(s[1..]);
      assert SplitOnBlankRuns(s)[1..] == rest[1..];
    }
  }

  /** Whether a piece survives `if p.strip()`. */
  predicate HasText(p: string)
  {
    Strip(p) != []
  }

  /** Filtering one more element in front puts it in front exactly when it passes. */
  lemma {:induction false} FilterCons<T>(p: T -> bool, x: T, xs: seq<T>)
    ensures Filter(p, [x] + xs) == (if p(x) then [x] else []) + Filter(p, xs)
    decreases |xs|
  {
    if xs != [] {
      var init := xs[..|xs| - 1];
      FilterCons(p, x, init);
      assert ([x] + xs)[..|[x] + xs| - 1] == [x] + init;
    }
  }

  /**
   * `[p.strip() for p in pieces if p.strip()]` is the independent map-after-filter: the pieces
   * with some text, in order, each stripped.
   */
  lemma {:induction false} StripNonEmptyIsMapFilter(pieces: seq<string>)
    ensures StripNonEmpty(pieces) == Map(Strip, Filter(HasText, pieces))
  {
    if pieces != [] {
      StripNonEmptyIsMapFilter(pieces[1..]);
      FilterCons(HasText, pieces[0], pieces[1..]);
      assert [pieces[0]] + pieces[1..] == pieces;
    }
  }

  /** `_split_by_paragraphs`. */
  function Paragraphs(text: string): (r: seq<string>)
    ensures forall k :: 0 <= k < |r| ==> r[k] != [] && IsStripped(r[k])
  {
    StripNonEmpty(SplitOnBlankRuns(text))
  }

  /** Every paragraph is non-empty, stripped, and contains no blank line. */
  lemma ParagraphsAreStrippedWithoutBlankLines(text: string)
    ensures forall k :: 0 <= k < |Paragraphs(text)| ==>
      var p := Paragraphs(text)[k]; p != [] && IsStripped(p) && NoBlankLine(p)
  {
    StripNonEmptyKeepsNoBlankLine(SplitOnBlankRuns(text));
  }

  /**
   * The paragraphs are the pieces between the blank-line runs that hold some text, in order and
   * stripped; and those pieces, with the runs put back, are the text.
   */
  lemma ParagraphsOfText(text: string)
    ensures Paragraphs(text) == Map(Strip, Filter(HasText, SplitOnBlankRuns(text)))
    ensures |SplitOnBlankRuns(text)| == |BlankRuns(text)| + 1
    ensures Interleave(SplitOnBlankRuns(text), BlankRuns(text)) == text
  {
    StripNonEmptyIsMapFilter(SplitOnBlankRuns(text));
    SplitOnBlankRunsRoundTrip(text);
  }

  // ---------------------------------------------------------------- filtering

  /** `_is_likely_header`: short and upper-case, or short, single-line and not ending in a period. */
  predicate IsLikelyHeader(text: string): (r: bool)
    ensures r ==> |Strip(text)| < 100
  {
    var t := Strip(text);
    (|t| < 100 && IsUpperString(t)) || (|t| < 80 && '\n' !in t && !EndsWith(t, "."))
  }

  /** A single line under 80 characters is a header unless it ends with a period. */
  lemma ShortLineIsHeaderUnlessPeriod(t: string)
    requires IsStripped(t) && |t| < 80 && '\n' !in t
    ensures IsLikelyHeader(t) <== !EndsWith(t, ".")
    ensures !IsUpperString(t) ==> (IsLikelyHeader(t) <==> !EndsWith(t, "."))
  {
    StrippedStripIsIdentity(t);
  }

  /** The cleaning loop: strip each piece, keep it when long enough and not a header. */
  function KeepClauses(pieces: seq<string>, minLength: int): (r: seq<string>)
    ensures |r| <= |pieces|
  {
    if pieces == [] then []
    else
      var prev := KeepClauses(pieces[..|pieces| - 1], minLength);
      var c := Strip(pieces[|pieces| - 1]);
      if |c| < minLength || IsLikelyHeader(c) then prev else prev + [c]
  }

  /** What the cleaning loop keeps: stripped, at least `minLength` long, and not a header. */
  predicate IsClause(c: string, minLength: int)
  {
    IsStripped(c) && |c| >= minLength && !IsLikelyHeader(c)
  }

  /** Every kept clause is stripped, long enough and not a header. */
  lemma {:induction false} KeepClausesShape(pieces: seq<string>, minLength: int)
    ensures forall k :: 0 <= k < |KeepClauses(pieces, minLength)| ==> IsClause(KeepClauses(pieces, minLength)[k], minLength)
  {
    if pieces != [] {
      KeepClausesShape(pieces[..|pieces| - 1], minLength);
      StripIsStripped(pieces[|pieces| - 1]);
    }
  }

  /** The pieces the cleaning loop sees: the numbered split, or the paragraphs when it gave at most one. */
  function Candidates(text: string, markers: seq<Match>): (r: seq<string>)
    ensures |markers| >= 2 ==> |r| == |markers|
    ensures |markers| < 2 ==> r == Paragraphs(text)
  {
    var numbered := NumberedSplit(text, Starts(markers));
    if |numbered| <= 1 then Paragraphs(text) else numbered
  }

  /** `split_into_clauses`. */
  method SplitIntoClauses(text: string, engine: Engine, minLength: int := 50) returns (cleaned: seq<string>)
    ensures cleaned == KeepClauses(Candidates(text, engine(SectionMarker, text)), minLength)
    ensures forall k :: 0 <= k < |cleaned| ==> IsClause(cleaned[k], minLength)
  {
    var clauses := SplitByNumberedSections(text, engine);
    if |clauses| <= 1 {
      clauses := Paragraphs(text);
    }
    cleaned := [];
    for i := 0 to |clauses|
      invariant cleaned == KeepClauses(clauses[..i], minLength)
    {
      assert clauses[..i + 1][..i] == clauses[..i];
      var clause := Strip(clauses[i]);
      if |clause| < minLength {
        continue;
      }
      if IsLikelyHeader(clause) {
        continue;
      }
      cleaned := cleaned + [clause];
    }
    assert clauses[..|clauses|] == clauses;
    KeepClausesShape(clauses, minLength);
  }

  /** Empty text has no clauses. */
  lemma EmptyTextHasNoClauses(markers: seq<Match>, minLength: int)
    requires Sound(markers, "")
    ensures KeepClauses(Candidates("", markers), minLength) == []
  {
    assert Paragraphs("") == [];
  }

  // ---------------------------------------------------------------- merging

  /** The merge loop from a current accumulated clause onward. */
  function MergeFrom(current: string, rest: seq<string>, minLength: int): (r: seq<string>)
    ensures 1 <= |r| <= 1 + |rest|
    ensures forall k :: 0 <= k < |r| - 1 ==> |r[k]| >= minLength
    decreases |rest|
  {
    if rest == [] then [current]
    else if |current| < minLength then MergeFrom(current + " " + rest[0], rest[1..], minLength)
    else [current] + MergeFrom(rest[0], rest[1..], minLength)
  }

  function MergeShort(clauses: seq<string>, minLength: int): (r: seq<string>)
    ensures |r| <= |clauses| && (clauses != [] ==> r != [])
    ensures forall k :: 0 <= k < |r| - 1 ==> |r[k]| >= minLength
  {
    if clauses == [] then [] else MergeFrom(clauses[0], clauses[1..], minLength)
  }

  /** `merge_short_clauses`. */
  method MergeShortClauses(clauses: seq<string>, minLength: int := 100) returns (merged: seq<string>)
    ensures merged == MergeShort(clauses, minLength)
  {
    if clauses == [] {
      return [];
    }
    merged := [];
    var current := clauses[0];
    for i := 1 to |clauses|
      invariant merged + MergeFrom(current, clauses[i..], minLength) == MergeShort(clauses, minLength)
    {
      assert clauses[i..][0] == clauses[i] && clauses[i..][1..] == clauses[i + 1..];
      if |current| < minLength {
        current := current + " " + clauses[i];
      } else {
        merged := merged + [current];
        current := clauses[i];
      }
    }
    assert MergeFrom(current, clauses[|clauses|..], minLength) == [current];
    merged := merged + [current];
  }

  lemma JoinCons(a: string, xs: seq<string>, sep: string)
    requires xs != []
    ensures Join([a] + xs, sep) == a + sep + Join(xs, sep)
  {
    assert ([a] + xs)[1..] == xs;
  }

  lemma {:induction false} MergeFromKeepsText(current: string, rest: seq<string>, minLength: int)
    ensures Join(MergeFrom(current, rest, minLength), " ") == Join([current] + rest, " ")
    decreases |rest|
  {
    if rest != [] {
      var tail := rest[1..];
      assert rest == [rest[0]] + tail;
      if |current| < minLength {
        MergeFromKeepsText(current + " " + rest[0], tail, minLength);
        JoinCons(current, rest, " ");
        if tail != [] {
          JoinCons(current + " " + rest[0], tail, " ");
          JoinCons(rest[0], tail, " ");
        }
      } else {
        MergeFromKeepsText(rest[0], tail, minLength);
        JoinCons(current, MergeFrom(rest[0], tail, minLength), " ");
        JoinCons(current, rest, " ");
      }
    }
  }

  /**
   * Merging only regroups: joined with single spaces the merged clauses read exactly as the input
   * did, there are no more of them, none is lost, and every clause but the last reaches the length.
   */
  lemma MergeShortProperties(clauses: seq<string>, minLength: int)
    ensures Join(MergeShort(clauses, minLength), " ") == Join(clauses, " ")
    ensures |MergeShort(clauses, minLength)| <= |clauses|
    ensures MergeShort(clauses, minLength) == [] <==> clauses == []
    ensures forall k :: 0 <= k < |MergeShort(clauses, minLength)| - 1 ==> |MergeShort(clauses, minLength)[k]| >= minLength
  {
    if clauses != [] {
      MergeFromKeepsText(clauses[0], clauses[1..], minLength);
      assert [clauses[0]] + clauses[1..] == clauses;
    }
  }

  /** Clauses that all reach the length are left as they are. */
  lemma {:induction false} MergeLongClausesUnchanged(clauses: seq<string>, minLength: int)
    requires forall k :: 0 <= k < |clauses| ==> |clauses[k]| >= minLength
    ensures MergeShort(clauses, minLength) == clauses
    decreases |clauses|
  {
    if |clauses| > 1 {
      MergeLongClausesUnchanged(clauses[1..], minLength);
      assert [clauses[0]] + clauses[1..] == clauses;
    }
  }
}
