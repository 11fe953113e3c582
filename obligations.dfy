/*
 * Obligation extraction: phrases that follow "shall", "must not", "may",
 * "responsible for" and similar cue words, gathered per category.
 *
 * The patterns are matched by the abstract engine of module Regex; this module
 * models what is done with the matches: the captured phrase is stripped, its
 * whitespace runs collapsed, phrases of unsuitable length dropped, and each list
 * capped at eight.
 */
module Obligations {
  import opened TextUtil
  import opened Regex

  /** The obligation patterns are all matched with IGNORECASE. */
  function Rx(source: string): Pattern
  {
    Pattern(source, true, false)
  }

  const MustPattern := Rx(@"(?:shall|must|required to|obligated to|agrees? to)\s+([^\.]{20,150})")
  const WillPattern := Rx(@"(?:will|is to)\s+([^\.]{20,150})")
  const MustNotPattern := Rx(@"(?:shall not|must not|may not|prohibited from|forbidden to)\s+([^\.]{20,150})")
  const WillNotPattern := Rx(@"(?:will not|cannot|restrictions? on)\s+([^\.]{20,150})")
  const RightPattern := Rx(@"(?:has the right to|entitled to|may)\s+([^\.]{20,150})")
  const ReservedRightPattern := Rx(@"(?:reserves? the right to)\s+([^\.]{20,150})")
  const GrantPattern := Rx(@"(?:grants?|grant(?:s|ed))\s+([^\.]{20,150})")
  const ResponsiblePattern := Rx(@"(?:responsible for|responsibility to|in charge of)\s+([^\.]{20,150})")
  const DutiesPattern := Rx(@"(?:duties include|responsible for)\s+([^\.]{20,150})")

  /** Each list is cut to its first eight items. */
  const MaxItems := 8

  /** The patterns of `extract_requirements(text, positive)`. */
  function RequirementPatterns(positive: bool): seq<Pattern>
  {
    if positive then [MustPattern, WillPattern] else [MustNotPattern, WillNotPattern]
  }

  const RightsPatterns := [RightPattern, ReservedRightPattern, GrantPattern]
  const ResponsibilityPatterns := [ResponsiblePattern, DutiesPattern]

  /** No two spaces in a row. */
  predicate SingleSpaced(s: string)
  {
    forall i :: 0 <= i < |s| - 1 ==> !(s[i] == ' ' && s[i + 1] == ' ')
  }

  /** `re.sub(r'\s+', ' ', s)`: every run of whitespace becomes one space. */
  function CollapseWhitespace(s: string): (r: string)
    ensures |r| <= |s|
  {
    if s == [] then []
    else
      var out := CollapseWhitespace(s[..|s| - 1]);
      var x := s[|s| - 1];
      if IsSpace(x) then
        if out != [] && out[|out| - 1] == ' ' then out else out + [' ']
      else out + [x]
  }

  /**
   * The collapsed text ends in a space exactly when `s` ends in whitespace,
   * starts with the image of the first character of `s`, holds no whitespace
   * but the plain space, never two in a row, and no character that `s` lacks
   * except that space.
   */
  lemma {:induction false} CollapseWhitespaceTidy(s: string)
    ensures (CollapseWhitespace(s) == []) == (s == [])
    ensures s != [] ==> (CollapseWhitespace(s)[|CollapseWhitespace(s)| - 1] == ' ') == IsSpace(s[|s| - 1])
    ensures s != [] ==> CollapseWhitespace(s)[0] == if IsSpace(s[0]) then ' ' else s[0]
    ensures forall i :: 0 <= i < |CollapseWhitespace(s)| && IsSpace(CollapseWhitespace(s)[i]) ==> CollapseWhitespace(s)[i] == ' '
    ensures SingleSpaced(CollapseWhitespace(s))
    ensures forall c :: c in CollapseWhitespace(s) ==> c == ' ' || c in s
  {
    if s != [] {
      var init := s[..|s| - 1];
      CollapseWhitespaceTidy(init);
      assert forall c :: c in init ==> c in s;
    }
  }

  /** A captured phrase after `.strip()` and the whitespace collapse. */
  function CleanItem(g: string): string
  {
    CollapseWhitespace(Strip(g))
  }

  /** `10 < len(item) < 200`. */
  predicate Kept(item: string)
  {
    10 < |item| < 200
  }

  /** Every match's capture, cleaned. */
  function Cleaned(ms: seq<Match>): (r: seq<string>)
    ensures |r| == |ms|
  {
    seq(|ms|, i requires 0 <= i < |ms| => CleanItem(Capture(ms[i], 1)))
  }

  /** The phrase alone when it is kept, nothing otherwise. */
  function KeepIf(item: string): seq<string>
  {
    if Kept(item) then [item] else []
  }

  /** The phrases of suitable length, in order, duplicates included. */
  function KeptItems(xs: seq<string>): seq<string>
  {
    if xs == [] then [] else KeptItems(xs[..|xs| - 1]) + KeepIf(xs[|xs| - 1])
  }

  /** The items one pattern's matches contribute, in match order. */
  function MatchItems(ms: seq<Match>): seq<string>
  {
    KeptItems(Cleaned(ms))
  }

  /** The items each pattern contributes on `text`. */
  function ItemsOf(engine: Engine, text: string): Pattern -> seq<string>
  {
    p => MatchItems(engine(p, text))
  }

  /** All items, pattern by pattern, before the cap. */
  function PatternItems(engine: Engine, ps: seq<Pattern>, text: string): (r: seq<string>)
    ensures forall it :: it in r ==> exists i :: 0 <= i < |ps| && it in MatchItems(engine(ps[i], text))
  {
    FlatMapFrom(ItemsOf(engine, text), ps);
    FlatMap(ItemsOf(engine, text), ps)
  }

  /** One more phrase is appended when it is kept. */
  lemma KeptItemsStep(xs: seq<string>, j: nat)
    requires j < |xs|
    ensures KeptItems(xs[..j + 1]) == KeptItems(xs[..j]) + KeepIf(xs[j])
  {
    assert xs[..j + 1][..j] == xs[..j];
  }

  /** One more match: its cleaned capture is appended when kept. */
  lemma MatchItemsStep(ms: seq<Match>, j: nat)
    requires j < |ms|
    ensures KeptItems(Cleaned(ms)[..j + 1]) == KeptItems(Cleaned(ms)[..j]) + KeepIf(CleanItem(Capture(ms[j], 1)))
  {
    KeptItemsStep(Cleaned(ms), j);
  }

  /** One more pattern adds the items of its matches. */
  lemma PatternItemsStep(engine: Engine, ps: seq<Pattern>, k: nat, text: string)
    requires k < |ps|
    ensures PatternItems(engine, ps[..k + 1], text) == PatternItems(engine, ps[..k], text) + MatchItems(engine(ps[k], text))
  {
    assert ps[..k + 1][..k] == ps[..k];
    assert ItemsOf(engine, text)(ps[k]) == MatchItems(engine(ps[k], text));
  }

  /** The body of the inner loop: clean one match's capture and append it when kept. */
  method KeepCleaned(got: seq<string>, m: Match) returns (r: seq<string>)
    ensures r == got + KeepIf(CleanItem(Capture(m, 1)))
  {
    var item := CleanItem(Capture(m, 1));
    r := got;
    if 10 < |item| < 200 {
      r := r + [item];
    }
  }

  /** The inner loop: clean every match's capture and append the kept ones. */
  method AppendMatchItems(found: seq<string>, ms: seq<Match>) returns (r: seq<string>)
    ensures r == found + MatchItems(ms)
  {
    var got: seq<string> := [];
    for j := 0 to |ms|
      invariant got == KeptItems(Cleaned(ms)[..j])
    {
      MatchItemsStep(ms, j);
      got := KeepCleaned(got, ms[j]);
    }
    assert Cleaned(ms)[..|ms|] == Cleaned(ms);
    r := found + got;
  }

  /** The loop shared by the three extractors: every pattern, every match, clean, filter, cap. */
  method CollectItems(patterns: seq<Pattern>, text: string, engine: Engine) returns (items: seq<string>)
    ensures items == Take(PatternItems(engine, patterns, text), MaxItems)
  {
    var found: seq<string> := [];
    for k := 0 to |patterns|
      invariant found == PatternItems(engine, patterns[..k], text)
    {
      found := AppendMatchItems(found, engine(patterns[k], text));
      PatternItemsStep(engine, patterns, k, text);
    }
    assert patterns[..|patterns|] == patterns;
    items := Take(found, MaxItems);
  }

  /** The list `extract_requirements(text, positive)` returns. */
  function Requirements(engine: Engine, text: string, positive: bool): seq<string>
  {
    Take(PatternItems(engine, RequirementPatterns(positive), text), MaxItems)
  }

  /** The list `extract_rights(text)` returns. */
  function Rights(engine: Engine, text: string): seq<string>
  {
    Take(PatternItems(engine, RightsPatterns, text), MaxItems)
  }

  /** The list `extract_responsibilities(text)` returns. */
  function Responsibilities(engine: Engine, text: string): seq<string>
  {
    Take(PatternItems(engine, ResponsibilityPatterns, text), MaxItems)
  }

  /** `extract_requirements(text, positive)`. */
  method ExtractRequirements(text: string, positive: bool := true, engine: Engine) returns (r: seq<string>)
    ensures r == Requirements(engine, text, positive)
  {
    r := CollectItems(RequirementPatterns(positive), text, engine);
  }

  /** `extract_rights(text)`. */
  method ExtractRights(text: string, engine: Engine) returns (r: seq<string>)
    ensures r == Rights(engine, text)
  {
    r := CollectItems(RightsPatterns, text, engine);
  }

  /** `extract_responsibilities(text)`. */
  method ExtractResponsibilities(text: string, engine: Engine) returns (r: seq<string>)
    ensures r == Responsibilities(engine, text)
  {
    r := CollectItems(ResponsibilityPatterns, text, engine);
  }

  const MustDoKey := "must_do"
  const MustNotDoKey := "must_not_do"
  const RightsKey := "rights"
  const ResponsibilitiesKey := "responsibilities"

  /** The dictionary `extract_obligations(text)` returns. */
  function ObligationMap(engine: Engine, text: string): (r: map<string, seq<string>>)
    ensures r.Keys == {MustDoKey, MustNotDoKey, RightsKey, ResponsibilitiesKey}
    ensures forall k :: k in r ==> |r[k]| <= MaxItems
  {
    map[MustDoKey := Requirements(engine, text, true), MustNotDoKey := Requirements(engine, text, false),
        RightsKey := Rights(engine, text), ResponsibilitiesKey := Responsibilities(engine, text)]
  }

  /** `extract_obligations(text)`: the four lists under their four keys. */
  method ExtractObligations(text: string, engine: Engine) returns (r: map<string, seq<string>>)
    ensures r == ObligationMap(engine, text)
  {
    var mustDo := ExtractRequirements(text, true, engine);
    var mustNotDo := ExtractRequirements(text, false, engine);
    var rights := ExtractRights(text, engine);
    var responsibilities := ExtractResponsibilities(text, engine);
    r := map[MustDoKey := mustDo, MustNotDoKey := mustNotDo, RightsKey := rights,
             ResponsibilitiesKey := responsibilities];
  }

  /**
   * A cleaned phrase is tidy: no leading or trailing whitespace, no
   * whitespace but single spaces, and no character the capture lacked.
   */
  lemma CleanItemTidy(g: string)
    ensures IsStripped(CleanItem(g)) && SingleSpaced(CleanItem(g))
    ensures forall i :: 0 <= i < |CleanItem(g)| && IsSpace(CleanItem(g)[i]) ==> CleanItem(g)[i] == ' '
    ensures forall c :: c in CleanItem(g) ==> c == ' ' || c in g
  {
    StripKeepsChars(g);
    CollapseWhitespaceTidy(Strip(g));
  }

  /** The kept phrases of a concatenation are concatenated: order is kept. */
  lemma {:induction false} KeptItemsAppend(a: seq<string>, b: seq<string>)
    ensures KeptItems(a + b) == KeptItems(a) + KeptItems(b)
    decreases |b|
  {
    if b == [] {
      assert a + b == a;
    } else {
      var b', x := b[..|b| - 1], b[|b| - 1];
      var tail := KeepIf(x);
      calc {
        KeptItems(a + b);
        { assert (a + b)[..|a + b| - 1] == a + b' && (a + b)[|a + b| - 1] == x; }
        KeptItems(a + b') + tail;
        { KeptItemsAppend(a, b'); }
        KeptItems(a) + KeptItems(b') + tail;
        KeptItems(a) + (KeptItems(b') + tail);
      }
    }
  }

  /** The items of consecutive match lists are concatenated, in match order. */
  lemma MatchItemsAppend(a: seq<Match>, b: seq<Match>)
    ensures MatchItems(a + b) == MatchItems(a) + MatchItems(b)
  {
    assert Cleaned(a + b) == Cleaned(a) + Cleaned(b);
    KeptItemsAppend(Cleaned(a), Cleaned(b));
  }

  /** Items appear in pattern order: the items of two pattern lists are concatenated. */
  lemma PatternItemsAppend(engine: Engine, ps: seq<Pattern>, qs: seq<Pattern>, text: string)
    ensures PatternItems(engine, ps + qs, text) == PatternItems(engine, ps, text) + PatternItems(engine, qs, text)
  {
    FlatMapAppend(ItemsOf(engine, text), ps, qs);
  }

  /** Repeated phrases are not merged: two matches with the same kept capture give two items. */
  lemma DuplicatesKept(m: Match, n: Match)
    requires Capture(m, 1) == Capture(n, 1) && Kept(CleanItem(Capture(m, 1)))
    ensures MatchItems([m, n]) == [CleanItem(Capture(m, 1)), CleanItem(Capture(m, 1))]
  {
    var item := CleanItem(Capture(m, 1));
    var xs := Cleaned([m, n]);
    assert xs == [item, item];
    assert KeptItems(xs[..1]) == [item] by {
      assert xs[..1] == [item] && [item][..0] == [];
    }
  }

  /** Every item has a suitable length and is tidy. */
  lemma {:induction false} PatternItemsTidy(engine: Engine, ps: seq<Pattern>, text: string)
    ensures forall it :: it in PatternItems(engine, ps, text) ==>
      Kept(it) && IsStripped(it) && SingleSpaced(it)
      && forall i :: 0 <= i < |it| && IsSpace(it[i]) ==> it[i] == ' '
  {
    if ps != [] {
      PatternItemsTidy(engine, ps[..|ps| - 1], text);
      var ms := engine(ps[|ps| - 1], text);
      forall j | 0 <= j < |ms| ensures Tidy(Cleaned(ms)[j]) {
        CleanItemTidy(Capture(ms[j], 1));
      }
      KeptItemsFrom(Cleaned(ms));
    }
  }

  /** No leading or trailing whitespace, no whitespace but single spaces. */
  predicate Tidy(s: string)
  {
    IsStripped(s) && SingleSpaced(s) && forall i :: 0 <= i < |s| && IsSpace(s[i]) ==> s[i] == ' '
  }

  /** The kept phrases are phrases of the input of suitable length. */
  lemma {:induction false} KeptItemsFrom(xs: seq<string>)
    ensures forall it :: it in KeptItems(xs) ==> it in xs && Kept(it)
  {
    if xs != [] {
      KeptItemsFrom(xs[..|xs| - 1]);
      assert forall it :: it in xs[..|xs| - 1] ==> it in xs;
    }
  }

  /** The captures of `ps` on `text` contain no '.', as `[^\.]` promises. */
  predicate CapturesWithoutPeriod(engine: Engine, ps: seq<Pattern>, text: string)
  {
    forall k, j :: 0 <= k < |ps| && 0 <= j < |engine(ps[k], text)| ==> '.' !in Capture(engine(ps[k], text)[j], 1)
  }

  /** When the engine honours `[^\.]`, no item contains a period. */
  lemma {:induction false} PatternItemsWithoutPeriod(engine: Engine, ps: seq<Pattern>, text: string)
    requires CapturesWithoutPeriod(engine, ps, text)
    ensures forall it :: it in PatternItems(engine, ps, text) ==> '.' !in it
  {
    if ps != [] {
      var init := ps[..|ps| - 1];
      assert CapturesWithoutPeriod(engine, init, text) by {
        forall k, j | 0 <= k < |init| && 0 <= j < |engine(init[k], text)|
          ensures '.' !in Capture(engine(init[k], text)[j], 1)
        {
          assert init[k] == ps[k];
        }
      }
      PatternItemsWithoutPeriod(engine, init, text);
      var ms := engine(ps[|ps| - 1], text);
      forall j | 0 <= j < |ms| ensures '.' !in Cleaned(ms)[j] {
        CleanItemTidy(Capture(ms[j], 1));
      }
      KeptItemsFrom(Cleaned(ms));
    }
  }
}
