/**
 * The Python `str` operations the pipeline relies on, written out over `seq<char>`.
 * Case mapping and character classes follow Python for ASCII; whitespace follows
 * `str.isspace` exactly.
 */
module TextUtil {

  /** `c.isspace()` in Python: ASCII whitespace, the information separators and the Unicode spaces. */
  predicate IsSpace(c: char)
  {
    || c == ' ' || c == '\t' || c == '\n' || c == '\r'
    || c == '\U{000B}' || c == '\U{000C}'
    || ('\U{001C}' <= c <= '\U{001F}')
    || c == '\U{0085}' || c == '\U{00A0}' || c == '\U{1680}'
    || ('\U{2000}' <= c <= '\U{200A}')
    || c == '\U{2028}' || c == '\U{2029}' || c == '\U{202F}' || c == '\U{205F}' || c == '\U{3000}'
  }

  predicate IsDigit(c: char) { '0' <= c <= '9' }
  predicate IsUpperChar(c: char) { 'A' <= c <= 'Z' }
  predicate IsLowerChar(c: char) { 'a' <= c <= 'z' }
  predicate IsLetter(c: char) { IsUpperChar(c) || IsLowerChar(c) }

  function LowerChar(c: char): char
  {
    if IsUpperChar(c) then (c as int + 32) as char else c
  }

  function UpperChar(c: char): char
  {
    if IsLowerChar(c) then (c as int - 32) as char else c
  }

  /** `s.lower()`. */
  function Lower(s: string): (r: string)
    ensures |r| == |s|
    ensures forall i :: 0 <= i < |s| ==> r[i] == LowerChar(s[i])
  {
    seq(|s|, i requires 0 <= i < |s| => LowerChar(s[i]))
  }

  /** `s.isupper()`: some cased character, and none of them lower-case. */
  predicate IsUpperString(s: string)
  {
    (exists i :: 0 <= i < |s| && IsUpperChar(s[i])) && forall i :: 0 <= i < |s| ==> !IsLowerChar(s[i])
  }

  /** `s.isdigit()`: non-empty and all digits. */
  predicate IsDigitString(s: string)
  {
    |s| > 0 && forall i :: 0 <= i < |s| ==> IsDigit(s[i])
  }

  /** `s.title()`: a letter is upper-cased when the character before it is not a letter. */
  function Title(s: string): (r: string)
    ensures |r| == |s|
  {
    TitleAfter(s, false)
  }

  function TitleAfter(s: string, afterLetter: bool): (r: string)
    ensures |r| == |s|
  {
    if s == [] then []
    else
      var c := if afterLetter then LowerChar(s[0]) else UpperChar(s[0]);
      [c] + TitleAfter(s[1..], IsLetter(s[0]))
  }

  // ---------------------------------------------------------------- stripping

  /** The index of the first character at or after `i` that is not whitespace, or `|s|`. */
  function SkipSpace(s: string, i: nat): (k: nat)
    requires i <= |s|
    ensures i <= k <= |s|
    ensures k < |s| ==> !IsSpace(s[k])
    ensures forall j :: i <= j < k ==> IsSpace(s[j])
    decreases |s| - i
  {
    if i == |s| || !IsSpace(s[i]) then i else SkipSpace(s, i + 1)
  }

  /** The end of `s[..j]` once its trailing whitespace is dropped. */
  function TrimSpace(s: string, j: nat): (k: nat)
    requires j <= |s|
    ensures k <= j
    ensures k > 0 ==> !IsSpace(s[k - 1])
    ensures forall i :: k <= i < j ==> IsSpace(s[i])
  {
    if j == 0 || !IsSpace(s[j - 1]) then j else TrimSpace(s, j - 1)
  }

  /** `s.strip()`: the longest slice of `s` that neither starts nor ends with whitespace. */
  function Strip(s: string): (r: string)
    ensures |r| <= |s|
    ensures r != [] ==> !IsSpace(r[0]) && !IsSpace(r[|r| - 1])
  {
    var a := SkipSpace(s, 0);
    var b := TrimSpace(s, |s|);
    if a < b then s[a..b] else []
  }

  predicate IsStripped(s: string)
  {
    s == [] || (!IsSpace(s[0]) && !IsSpace(s[|s| - 1]))
  }

  /** What `strip()` returns is stripped. */
  lemma StripIsStripped(s: string)
    ensures IsStripped(Strip(s))
  {
  }

  /** Strip returns a slice `s[i..i + |r|]` of its input. */
  lemma StripIsSlice(s: string) returns (i: nat)
    ensures i + |Strip(s)| <= |s| && Strip(s) == s[i..i + |Strip(s)|]
  {
    var a := SkipSpace(s, 0);
    i := if a < TrimSpace(s, |s|) then a else 0;
  }

  /** Strip adds no character. */
  lemma StripKeepsChars(g: string)
    ensures forall c :: c in Strip(g) ==> c in g
  {
    var a := StripIsSlice(g);
    forall c | c in Strip(g) ensures c in g {
      var i :| 0 <= i < |Strip(g)| && Strip(g)[i] == c;
      assert g[a + i] == c;
    }
  }

  lemma StrippedStripIsIdentity(s: string)
    requires IsStripped(s)
    ensures Strip(s) == s
  {
  }

  lemma StripIdempotent(s: string)
    ensures Strip(Strip(s)) == Strip(s)
  {
    StrippedStripIsIdentity(Strip(s));
  }

  lemma StripOfSpaceFree(s: string)
    requires forall i :: 0 <= i < |s| ==> !IsSpace(s[i])
    ensures Strip(s) == s
  {
  }

  /** Stripping keeps every non-whitespace character: only a whitespace-only string strips to "". */
  lemma StripEmptyOnlyIfAllSpace(s: string)
    requires Strip(s) == []
    ensures forall i :: 0 <= i < |s| ==> IsSpace(s[i])
  {
  }

  // ---------------------------------------------------------------- searching

  predicate StartsWith(s: string, prefix: string)
  {
    |prefix| <= |s| && s[..|prefix|] == prefix
  }

  predicate EndsWith(s: string, suffix: string)
  {
    |suffix| <= |s| && s[|s| - |suffix|..] == suffix
  }

  /** `sub` occurs in `s` starting at index `i`. */
  predicate OccursAt(s: string, sub: string, i: nat)
  {
    i + |sub| <= |s| && s[i..i + |sub|] == sub
  }

  /** `sub in s`. */
  predicate Contains(s: string, sub: string)
  {
    exists i: nat :: i <= |s| && OccursAt(s, sub, i)
  }

  /** `s.find(sub, start)`: the least index at or after `start` where `sub` occurs, or -1. */
  function FindFrom(s: string, sub: string, start: nat): (r: int)
    ensures r == -1 || (start <= r && OccursAt(s, sub, r))
    ensures r == -1 ==> forall i: nat :: start <= i ==> !OccursAt(s, sub, i)
    ensures r != -1 ==> forall i: nat :: start <= i < r ==> !OccursAt(s, sub, i)
    decreases |s| - start
  {
    if start + |sub| > |s| then -1
    else if s[start..start + |sub|] == sub then start
    else FindFrom(s, sub, start + 1)
  }

  function Find(s: string, sub: string): (r: int)
    ensures r == -1 <==> !Contains(s, sub)
    ensures r != -1 ==> 0 <= r && OccursAt(s, sub, r)
  {
    FindFrom(s, sub, 0)
  }

  /** `s.count(sub)` for a non-empty `sub`: non-overlapping occurrences, scanning left to right. */
  function CountOccurrences(s: string, sub: string): nat
    requires sub != []
    decreases |s|
  {
    if |s| < |sub| then 0
    else if s[..|sub|] == sub then 1 + CountOccurrences(s[|sub|..], sub)
    else CountOccurrences(s[1..], sub)
  }

  /** An occurrence means a count of at least one. */
  lemma {:induction false} ContainsCountsAtLeastOne(s: string, sub: string)
    requires sub != [] && Contains(s, sub)
    ensures CountOccurrences(s, sub) >= 1
    decreases |s|
  {
    if s[..|sub|] != sub {
      var i: nat :| i <= |s| && OccursAt(s, sub, i);
      assert i > 0;
      assert OccursAt(s[1..], sub, i - 1) by {
        assert s[1..][i - 1..i - 1 + |sub|] == s[i..i + |sub|];
      }
      ContainsCountsAtLeastOne(s[1..], sub);
    }
  }

  // ---------------------------------------------------------------- slicing

  /** Concatenation is associative; stated once so that callers need not prove it in a large context. */
  lemma AppendAssoc<T>(a: seq<T>, b: seq<T>, c: seq<T>)
    ensures a + b + c == a + (b + c)
  {
  }

  /** `[f(x) for x in xs]`. */
  function Map<A, B>(f: A -> B, xs: seq<A>): (r: seq<B>)
    ensures |r| == |xs|
    ensures forall i :: 0 <= i < |xs| ==> r[i] == f(xs[i])
  {
    seq(|xs|, i requires 0 <= i < |xs| => f(xs[i]))
  }

  /** Mapping one more element appends its image; stated once, for any `f`, so that loops need not unfold `f`. */
  lemma MapStep<A, B>(f: A -> B, xs: seq<A>, j: nat)
    requires j < |xs|
    ensures Map(f, xs[..j + 1]) == Map(f, xs[..j]) + [f(xs[j])]
  {
  }

  /** Replacing the first element after a seam. */
  lemma UpdateAtSeam<A>(xs: seq<A>, ys: seq<A>, v: A)
    requires ys != []
    ensures (xs + ys)[|xs| := v] == xs + [v] + ys[1..]
  {
  }

  /** `[f(i, x) for i, x in enumerate(xs)]`. */
  function MapIndexed<A, B>(f: (nat, A) -> B, xs: seq<A>): (r: seq<B>)
    ensures |r| == |xs|
    ensures forall i :: 0 <= i < |xs| ==> r[i] == f(i, xs[i])
  {
    seq(|xs|, i requires 0 <= i < |xs| => f(i, xs[i]))
  }

  /** Enumerating one more element appends its image. */
  lemma MapIndexedStep<A, B>(f: (nat, A) -> B, xs: seq<A>, j: nat)
    requires j < |xs|
    ensures MapIndexed(f, xs[..j + 1]) == MapIndexed(f, xs[..j]) + [f(j, xs[j])]
  {
  }

  /** The lists `f` gives for each of `xs`, concatenated in order. */
  function FlatMap<A, B>(f: A -> seq<B>, xs: seq<A>): seq<B>
  {
    if xs == [] then [] else FlatMap(f, xs[..|xs| - 1]) + f(xs[|xs| - 1])
  }

  /** Concatenating over two lists concatenates the results. */
  lemma {:induction false} FlatMapAppend<A, B>(f: A -> seq<B>, xs: seq<A>, ys: seq<A>)
    ensures FlatMap(f, xs + ys) == FlatMap(f, xs) + FlatMap(f, ys)
    decreases |ys|
  {
    if ys == [] {
      assert xs + ys == xs;
    } else {
      var ys' := ys[..|ys| - 1];
      assert (xs + ys)[..|xs + ys| - 1] == xs + ys';
      FlatMapAppend(f, xs, ys');
      AppendAssoc(FlatMap(f, xs), FlatMap(f, ys'), f(ys[|ys| - 1]));
    }
  }

  /** Everything in a concatenation comes from the list of one of the elements. */
  lemma {:induction false} FlatMapFrom<A, B>(f: A -> seq<B>, xs: seq<A>)
    ensures forall y :: y in FlatMap(f, xs) ==> exists i :: 0 <= i < |xs| && y in f(xs[i])
  {
    if xs != [] {
      var init := xs[..|xs| - 1];
      FlatMapFrom(f, init);
      forall y | y in FlatMap(f, xs) ensures exists i :: 0 <= i < |xs| && y in f(xs[i]) {
        if y in FlatMap(f, init) {
          var i :| 0 <= i < |init| && y in f(init[i]);
          assert init[i] == xs[i];
        } else {
          assert y in f(xs[|xs| - 1]);
        }
      }
    }
  }

  /** The elements of `xs` in order of first occurrence, each once. */
  function Distinct<T(==)>(xs: seq<T>): seq<T>
  {
    if xs == [] then []
    else
      var d := Distinct(xs[..|xs| - 1]);
      if xs[|xs| - 1] in d then d else d + [xs[|xs| - 1]]
  }

  /** De-duplication keeps every element and adds none. */
  lemma {:induction false} DistinctSameElements<T>(xs: seq<T>)
    ensures forall x :: x in Distinct(xs) <==> x in xs
  {
    if xs != [] {
      DistinctSameElements(xs[..|xs| - 1]);
      assert xs == xs[..|xs| - 1] + [xs[|xs| - 1]];
    }
  }

  /** No element appears twice after de-duplication. */
  lemma {:induction false} DistinctHasNoDuplicates<T>(xs: seq<T>)
    ensures forall i, j :: 0 <= i < j < |Distinct(xs)| ==> Distinct(xs)[i] != Distinct(xs)[j]
  {
    if xs != [] {
      DistinctHasNoDuplicates(xs[..|xs| - 1]);
    }
  }

  /** A prefix of a list without duplicates has none. */
  lemma TakeKeepsNoDuplicates<T>(xs: seq<T>, k: nat)
    requires forall i, j :: 0 <= i < j < |xs| ==> xs[i] != xs[j]
    ensures forall i, j :: 0 <= i < j < |Take(xs, k)| ==> Take(xs, k)[i] != Take(xs, k)[j]
  {
    assert Take(xs, k) == xs[..|Take(xs, k)|];
  }

  /** `[x for x in xs if p(x)]`. */
  function Filter<T>(p: T -> bool, xs: seq<T>): (r: seq<T>)
    ensures |r| <= |xs|
  {
    if xs == [] then [] else Filter(p, xs[..|xs| - 1]) + (if p(xs[|xs| - 1]) then [xs[|xs| - 1]] else [])
  }

  /** Filtering one more element appends it exactly when it passes. */
  lemma FilterStep<T>(p: T -> bool, xs: seq<T>, j: nat)
    requires j < |xs|
    ensures Filter(p, xs[..j + 1]) == Filter(p, xs[..j]) + (if p(xs[j]) then [xs[j]] else [])
  {
    assert xs[..j + 1][..j] == xs[..j];
  }

  /** A filter keeps exactly the elements that pass. */
  lemma {:induction false} FilterExact<T>(p: T -> bool, xs: seq<T>)
    ensures forall x :: x in Filter(p, xs) <==> x in xs && p(x)
  {
    if xs != [] {
      FilterExact(p, xs[..|xs| - 1]);
      assert xs == xs[..|xs| - 1] + [xs[|xs| - 1]];
    }
  }

  /** `s.replace(a, b)` for single characters `a` and `b`. */
  function ReplaceChar(s: string, a: char, b: char): (r: string)
    ensures |r| == |s|
    ensures forall i :: 0 <= i < |s| ==> r[i] == if s[i] == a then b else s[i]
  {
    Map((c: char) => if c == a then b else c, s)
  }

  /** Python's normalisation of one slice bound. */
  function SliceBound(k: int, n: nat): (b: nat)
    ensures b <= n
  {
    if k < 0 then (if k + n < 0 then 0 else k + n) else if k > n then n else k
  }

  /** `s[a:b]` with Python's treatment of negative and out-of-range bounds. */
  function PySlice<T>(s: seq<T>, a: int, b: int): (r: seq<T>)
    ensures |r| <= |s|
  {
    var lo := SliceBound(a, |s|);
    var hi := SliceBound(b, |s|);
    if lo < hi then s[lo..hi] else []
  }

  /** Within bounds, a Python slice is the plain slice. */
  lemma PySliceInBounds<T>(s: seq<T>, a: int, b: int)
    requires 0 <= a <= b <= |s|
    ensures PySlice(s, a, b) == s[a..b]
  {
  }

  /** `s[:k]`. */
  function Take<T>(s: seq<T>, k: int): (r: seq<T>)
    ensures k >= 0 ==> |r| == if k < |s| then k else |s|
    ensures k >= 0 ==> r == s[..|r|]
  {
    PySlice(s, 0, k)
  }

  /** `text[:limit] + "..." if len(text) > limit else text`. */
  function Snippet(text: string, limit: nat): string
  {
    if |text| > limit then Take(text, limit) + "..." else text
  }

  /** A long text is cut to its first `limit` characters and marked; a short one is kept whole. */
  lemma SnippetShape(text: string, limit: nat)
    ensures |Snippet(text, limit)| <= limit + 3
    ensures |text| <= limit ==> Snippet(text, limit) == text
    ensures |text| > limit ==> Snippet(text, limit) == text[..limit] + "..."
  {
    if |text| > limit {
      assert |Snippet(text, limit)| == limit + 3;
    }
  }

  // ---------------------------------------------------------------- split and join

  /** `s.split(sep)` for a one-character separator. */
  function Split(s: string, sep: char): (r: seq<string>)
    ensures |r| >= 1
    ensures forall k :: 0 <= k < |r| ==> sep !in r[k]
  {
    if s == [] then [""]
    else
      var rest := Split(s[1..], sep);
      if s[0] == sep then [""] + rest else [[s[0]] + rest[0]] + rest[1..]
  }

  /** `sep.join(parts)`. */
  function Join(parts: seq<string>, sep: string): string
  {
    if parts == [] then ""
    else if |parts| == 1 then parts[0]
    else parts[0] + sep + Join(parts[1..], sep)
  }

  /** A join opens with its first part. */
  lemma JoinStartsWithFirst(parts: seq<string>, sep: string)
    requires |parts| >= 1
    ensures StartsWith(Join(parts, sep), parts[0])
  {
    if |parts| > 1 {
      assert Join(parts, sep)[..|parts[0]|] == parts[0];
    }
  }

  /** Joining one more part adds the separator and the part. */
  lemma {:induction false} JoinSnoc(parts: seq<string>, sep: string, x: string)
    ensures Join(parts + [x], sep) == if parts == [] then x else Join(parts, sep) + sep + x
  {
    if |parts| > 1 {
      assert (parts + [x])[1..] == parts[1..] + [x];
      JoinSnoc(parts[1..], sep, x);
    }
  }

  /** Every part occurs in the joined text, after the parts before it and their separators. */
  lemma {:induction false} JoinPartAt(parts: seq<string>, sep: string, k: nat) returns (i: nat)
    requires k < |parts|
    ensures OccursAt(Join(parts, sep), parts[k], i)
  {
    if k == 0 {
      i := 0;
      assert Join(parts, sep)[..|parts[0]|] == parts[0];
    } else {
      var j := JoinPartAt(parts[1..], sep, k - 1);
      var rest := Join(parts[1..], sep);
      i := |parts[0]| + |sep| + j;
      assert Join(parts, sep) == parts[0] + sep + rest;
      assert Join(parts, sep)[i..i + |parts[k]|] == rest[j..j + |parts[k]|];
    }
  }

  lemma {:induction false} JoinSplit(s: string, sep: char)
    ensures Join(Split(s, sep), [sep]) == s
  {
    if s != [] {
      JoinSplit(s[1..], sep);
      var rest := Split(s[1..], sep);
      if s[0] != sep {
        if |rest| > 1 {
          assert ([[s[0]] + rest[0]] + rest[1..])[1..] == rest[1..];
          assert Join(rest, [sep]) == rest[0] + [sep] + Join(rest[1..], [sep]);
        }
      }
    }
  }

  /** The first piece of a split is a prefix of the string. */
  lemma {:induction false} SplitFirstIsPrefix(s: string, sep: char)
    ensures |Split(s, sep)[0]| <= |s| && Split(s, sep)[0] == s[..|Split(s, sep)[0]|]
  {
    if s != [] && s[0] != sep {
      SplitFirstIsPrefix(s[1..], sep);
    }
  }

  /** Every piece of a split of a string that avoids `sub` avoids it too (each piece is a slice). */
  lemma {:induction false} SplitPiecesAvoid(s: string, sep: char, sub: string)
    requires sub != [] && !Contains(s, sub)
    ensures forall k :: 0 <= k < |Split(s, sep)| ==> !Contains(Split(s, sep)[k], sub)
  {
    var r := Split(s, sep);
    if s == [] {
      assert !OccursAt(r[0], sub, 0);
    } else {
      var rest := Split(s[1..], sep);
      SliceAvoids(s, 1, |s|, sub);
      assert s[1..|s|] == s[1..];
      SplitPiecesAvoid(s[1..], sep, sub);
      if s[0] == sep {
        assert !OccursAt(r[0], sub, 0);
        assert forall k :: 1 <= k < |r| ==> r[k] == rest[k - 1];
      } else {
        SplitFirstIsPrefix(s[1..], sep);
        var m := |rest[0]|;
        assert r[0] == s[..m + 1];
        SliceAvoids(s, 0, m + 1, sub);
        assert forall k :: 1 <= k < |r| ==> r[k] == rest[k];
      }
    }
  }

  /** Splitting a separator-free string in front of more text extends the first piece. */
  lemma {:induction false} SplitFreePrefix(p: string, t: string, sep: char)
    requires sep !in p
    ensures Split(p + t, sep) == [p + Split(t, sep)[0]] + Split(t, sep)[1..]
  {
    if p != [] {
      assert (p + t)[1..] == p[1..] + t;
      SplitFreePrefix(p[1..], t, sep);
      assert [p[0]] + (p[1..] + Split(t, sep)[0]) == p + Split(t, sep)[0];
    } else {
      assert p + t == t;
      assert p + Split(t, sep)[0] == Split(t, sep)[0];
      assert [Split(t, sep)[0]] + Split(t, sep)[1..] == Split(t, sep);
    }
  }

  /** Joining separator-free pieces and splitting again gives the pieces back. */
  lemma {:induction false} SplitJoin(parts: seq<string>, sep: char)
    requires |parts| >= 1
    requires forall k :: 0 <= k < |parts| ==> sep !in parts[k]
    ensures Split(Join(parts, [sep]), sep) == parts
  {
    if |parts| == 1 {
      SplitFreePrefix(parts[0], [], sep);
      assert parts[0] + [] == parts[0];
    } else {
      var rest := Join(parts[1..], [sep]);
      SplitJoin(parts[1..], sep);
      assert Join(parts, [sep]) == parts[0] + ([sep] + rest);
      SplitFreePrefix(parts[0], [sep] + rest, sep);
      assert ([sep] + rest)[1..] == rest;
      assert Split([sep] + rest, sep) == [""] + parts[1..];
      assert parts[0] + "" == parts[0];
      assert [parts[0]] + parts[1..] == parts;
    }
  }

  /** A slice of a string that avoids `sub` avoids it too. */
  lemma SliceAvoids(s: string, a: nat, b: nat, sub: string)
    requires a <= b <= |s| && !Contains(s, sub)
    ensures !Contains(s[a..b], sub)
  {
    forall i: nat | i <= |s[a..b]| && OccursAt(s[a..b], sub, i) ensures false {
      var w, j: nat := s[a..b], a + i;
      assert w[i..i + |sub|] == sub;
      assert s[j..j + |sub|] == w[i..i + |sub|];
      assert OccursAt(s, sub, j);
    }
  }

  /** A suffix is an occurrence. */
  lemma EndsWithContains(s: string, sub: string)
    ensures EndsWith(s, sub) ==> Contains(s, sub)
  {
    if EndsWith(s, sub) {
      assert OccursAt(s, sub, |s| - |sub|);
    }
  }

  /** An occurrence in `s + [x]` lies in `s` or ends the whole text. */
  lemma ContainsAppend(s: string, x: char, sub: string)
    requires sub != []
    ensures Contains(s + [x], sub) <==> Contains(s, sub) || EndsWith(s + [x], sub)
  {
    var t := s + [x];
    if Contains(t, sub) {
      var i: nat :| i <= |t| && OccursAt(t, sub, i);
      if i + |sub| <= |s| {
        assert t[i..i + |sub|] == s[i..i + |sub|];
        assert OccursAt(s, sub, i);
      } else {
        assert i == |t| - |sub|;
      }
    }
    if Contains(s, sub) {
      var i: nat :| i <= |s| && OccursAt(s, sub, i);
      assert t[i..i + |sub|] == s[i..i + |sub|];
      assert OccursAt(t, sub, i);
    }
    EndsWithContains(t, sub);
  }

  /** An occurrence of `sub` that overlaps the separator between `p` and `rest` contains it. */
  lemma SeparatorInside(p: string, rest: string, sep: char, sub: string, i: nat)
    requires i <= |p| < i + |sub| && OccursAt(p + [sep] + rest, sub, i)
    ensures sub[|p| - i] == sep
  {
    var s := p + [sep] + rest;
    assert sub[|p| - i] == s[i..i + |sub|][|p| - i] == s[|p|];
  }

  /** Joining pieces that avoid `sub` with a separator character absent from `sub` avoids `sub`. */
  lemma {:induction false} JoinAvoids(parts: seq<string>, sep: char, sub: string)
    requires sub != [] && sep !in sub
    requires forall k :: 0 <= k < |parts| ==> !Contains(parts[k], sub)
    ensures !Contains(Join(parts, [sep]), sub)
    decreases |parts|
  {
    if |parts| > 1 {
      var p, rest := parts[0], Join(parts[1..], [sep]);
      JoinAvoids(parts[1..], sep, sub);
      var s := Join(parts, [sep]);
      assert s == p + [sep] + rest;
      forall i: nat | i <= |s| && OccursAt(s, sub, i) ensures false {
        if i + |sub| <= |p| {
          assert s[i..i + |sub|] == p[i..i + |sub|];
          assert OccursAt(p, sub, i);
        } else if i > |p| {
          assert s[i..i + |sub|] == rest[i - |p| - 1..i - |p| - 1 + |sub|];
          assert OccursAt(rest, sub, i - |p| - 1);
        } else {
          SeparatorInside(p, rest, sep, sub, i);
        }
      }
    }
  }

  /** `s.replace(target, replacement)` for a non-empty `target`. */
  function ReplaceAll(s: string, target: string, replacement: string): string
    requires target != []
    decreases |s|
  {
    if |s| < |target| then s
    else if s[..|target|] == target then replacement + ReplaceAll(s[|target|..], target, replacement)
    else [s[0]] + ReplaceAll(s[1..], target, replacement)
  }

  // ---------------------------------------------------------------- numbers

  function DigitChar(d: nat): char
    requires d < 10
  {
    ('0' as int + d) as char
  }

  /** `str(n)`. */
  function NatToString(n: nat): (r: string)
    ensures |r| >= 1
    ensures forall i :: 0 <= i < |r| ==> IsDigit(r[i])
  {
    if n < 10 then [DigitChar(n)] else NatToString(n / 10) + [DigitChar(n % 10)]
  }

  /** `int(s)` on a string of ASCII digits. */
  function DigitsValue(s: string): nat
    requires forall i :: 0 <= i < |s| ==> IsDigit(s[i])
  {
    if s == [] then 0
    else
      assert IsDigit(s[|s| - 1]);
      DigitsValue(s[..|s| - 1]) * 10 + (s[|s| - 1] as int - '0' as int)
  }

  /** Reading back the digits of `str(n)` gives `n`. */
  lemma {:induction false} NatToStringValue(n: nat)
    ensures DigitsValue(NatToString(n)) == n
  {
    if n >= 10 {
      NatToStringValue(n / 10);
      var s := NatToString(n);
      assert s[..|s| - 1] == NatToString(n / 10);
    }
  }

  /** Different numbers have different decimal texts. */
  lemma NatToStringInjective(m: nat, n: nat)
    ensures NatToString(m) == NatToString(n) ==> m == n
  {
    NatToStringValue(m);
    NatToStringValue(n);
  }
}
