/*
 * Key-term extraction: defined terms, monetary amounts, entity names, time
 * periods and legal concepts, gathered into one record.
 *
 * The regular expressions are matched by the abstract engine of module Regex;
 * this module models what is done with the matches.
 */
module KeyTerms {
  import opened TextUtil
  import opened Regex

  // ---------------------------------------------------------------- generic helpers

  /** `[m.group(k) for m in matches]`, what `re.findall` returns for a pattern with one group. */
  function Captures(ms: seq<Match>, k: nat): (r: seq<string>)
    ensures |r| == |ms|
  {
    seq(|ms|, i requires 0 <= i < |ms| => Capture(ms[i], k))
  }

  // ---------------------------------------------------------------- defined terms

  /** One defined term: the term and its definition. */
  datatype DefinedTerm = DefinedTerm(term: string, definition: string)

  const QuotedTermPattern := Pattern(@"""([A-Z][^""]+)""\s+(?:means?|refers? to|is defined as)", false, false)
  const CapitalizedPattern := Pattern(@"\b([A-Z][a-z]+(?:\s+[A-Z][a-z]+){1,3})\b", false, false)

  /** The definition text after a quoted term is taken from at most this many characters. */
  const DefinitionWindow := 100
  /** A capitalised phrase must occur this often to count as a term. */
  const MinFrequency := 3
  /** At most this many frequent phrases are considered. */
  const MaxFrequent := 10
  /** At most this many defined terms are returned. */
  const MaxDefinedTerms := 15
  const FrequentDefinition := "Frequent term in contract"

  /** `text[start:start + 100].split('.')[0].strip()`. */
  function DefinitionAt(text: string, start: nat): string
  {
    Strip(Split(PySlice(text, start, start + DefinitionWindow), '.')[0])
  }

  /** The entry of one quoted-term match. */
  function QuotedTerm(text: string, m: Match): DefinedTerm
  {
    DefinedTerm(Capture(m, 1), DefinitionAt(text, m.end))
  }

  /** The entries of the quoted-term matches, in match order. */
  function QuotedTerms(text: string, ms: seq<Match>): (r: seq<DefinedTerm>)
    ensures |r| == |ms|
  {
    Map((m: Match) => QuotedTerm(text, m), ms)
  }

  /**
   * `[term for term, count in Counter(capitalized).items() if count >= 3]`: a Counter lists its
   * keys in order of first insertion.
   */
  function FrequentTerms(caps: seq<string>): (r: seq<string>)
    ensures forall t :: t in r ==> t in caps
  {
    DistinctSameElements(caps);
    DistinctHasNoDuplicates(caps);
    FrequentAmongExact(Distinct(caps), caps);
    FrequentAmong(Distinct(caps), caps)
  }

  /** The elements of `ds` that occur at least three times in `caps`, in order. */
  function FrequentAmong(ds: seq<string>, caps: seq<string>): seq<string>
  {
    if ds == [] then []
    else
      var f := FrequentAmong(ds[..|ds| - 1], caps);
      if multiset(caps)[ds[|ds| - 1]] >= MinFrequency then f + [ds[|ds| - 1]] else f
  }

  /** `[d["term"] for d in defined_terms]`. */
  function Terms(ds: seq<DefinedTerm>): (r: seq<string>)
    ensures |r| == |ds|
  {
    seq(|ds|, i requires 0 <= i < |ds| => ds[i].term)
  }

  /** The second loop: each frequent phrase not yet listed as a term is appended. */
  function AddFrequent(ds: seq<DefinedTerm>, ts: seq<string>): seq<DefinedTerm>
  {
    if ts == [] then ds
    else
      var prev := AddFrequent(ds, ts[..|ts| - 1]);
      if ts[|ts| - 1] in Terms(prev) then prev else prev + [DefinedTerm(ts[|ts| - 1], FrequentDefinition)]
  }

  /** The list `extract_defined_terms(text)` returns. */
  function DefinedTerms(engine: Engine, text: string): (r: seq<DefinedTerm>)
    ensures |r| <= MaxDefinedTerms
  {
    var quoted := QuotedTerms(text, engine(QuotedTermPattern, text));
    var frequent := FrequentTerms(Captures(engine(CapitalizedPattern, text), 1));
    Take(AddFrequent(quoted, Take(frequent, MaxFrequent)), MaxDefinedTerms)
  }

  /** The first loop of `extract_defined_terms`. */
  method CollectQuotedTerms(text: string, ms: seq<Match>) returns (r: seq<DefinedTerm>)
    ensures r == QuotedTerms(text, ms)
  {
    r := [];
    for j := 0 to |ms|
      invariant r == QuotedTerms(text, ms[..j])
    {
      var term := Capture(ms[j], 1);
      var definition := DefinitionAt(text, ms[j].end);
      MapStep((m: Match) => QuotedTerm(text, m), ms, j);
      r := r + [DefinedTerm(term, definition)];
    }
    assert ms[..|ms|] == ms;
  }

  /** One more frequent phrase. */
  lemma AddFrequentStep(ds: seq<DefinedTerm>, ts: seq<string>, j: nat)
    requires j < |ts|
    ensures AddFrequent(ds, ts[..j + 1]) ==
      var prev := AddFrequent(ds, ts[..j]);
      if ts[j] in Terms(prev) then prev else prev + [DefinedTerm(ts[j], FrequentDefinition)]
  {
    assert ts[..j + 1][..j] == ts[..j];
  }

  /** The second loop of `extract_defined_terms`. */
  method AppendFrequentTerms(ds: seq<DefinedTerm>, ts: seq<string>) returns (r: seq<DefinedTerm>)
    ensures r == AddFrequent(ds, ts)
  {
    r := ds;
    for j := 0 to |ts|
      invariant r == AddFrequent(ds, ts[..j])
    {
      AddFrequentStep(ds, ts, j);
      if ts[j] !in Terms(r) {
        r := r + [DefinedTerm(ts[j], FrequentDefinition)];
      }
    }
    assert ts[..|ts|] == ts;
  }

  /** `extract_defined_terms(text)`. */
  method ExtractDefinedTerms(text: string, engine: Engine) returns (r: seq<DefinedTerm>)
    ensures r == DefinedTerms(engine, text)
  {
    var definedTerms := CollectQuotedTerms(text, engine(QuotedTermPattern, text));
    var capitalized := Captures(engine(CapitalizedPattern, text), 1);
    var commonCaps := FrequentTerms(capitalized);
    definedTerms := AppendFrequentTerms(definedTerms, Take(commonCaps, MaxFrequent));
    r := Take(definedTerms, MaxDefinedTerms);
  }

  /** A phrase is frequent exactly when it occurs at least three times; none is listed twice. */
  lemma FrequentTermsExact(caps: seq<string>)
    ensures forall t :: t in FrequentTerms(caps) <==> multiset(caps)[t] >= MinFrequency
    ensures forall i, j :: 0 <= i < j < |FrequentTerms(caps)| ==> FrequentTerms(caps)[i] != FrequentTerms(caps)[j]
  {
    DistinctSameElements(caps);
    DistinctHasNoDuplicates(caps);
    FrequentAmongExact(Distinct(caps), caps);
  }

  /** Filtering by frequency keeps exactly the frequent elements, without creating duplicates. */
  lemma {:induction false} FrequentAmongExact(ds: seq<string>, caps: seq<string>)
    requires forall i, j :: 0 <= i < j < |ds| ==> ds[i] != ds[j]
    ensures forall t :: t in FrequentAmong(ds, caps) <==> t in ds && multiset(caps)[t] >= MinFrequency
    ensures forall i, j :: 0 <= i < j < |FrequentAmong(ds, caps)| ==> FrequentAmong(ds, caps)[i] != FrequentAmong(ds, caps)[j]
  {
    if ds != [] {
      var init := ds[..|ds| - 1];
      FrequentAmongExact(init, caps);
      assert ds == init + [ds[|ds| - 1]];
      assert ds[|ds| - 1] !in init by {
        forall i | 0 <= i < |init| ensures init[i] != ds[|ds| - 1] {
          assert init[i] == ds[i];
        }
      }
    }
  }

  /**
   * The second loop only appends: every appended entry is a frequent phrase with the fixed
   * definition, and no entry repeats a term listed before it.
   */
  lemma {:induction false} AddFrequentShape(ds: seq<DefinedTerm>, ts: seq<string>)
    ensures |ds| <= |AddFrequent(ds, ts)| <= |ds| + |ts|
    ensures AddFrequent(ds, ts)[..|ds|] == ds
    ensures forall k :: |ds| <= k < |AddFrequent(ds, ts)| ==>
      var e := AddFrequent(ds, ts)[k];
      e.definition == FrequentDefinition && e.term in ts && e.term !in Terms(AddFrequent(ds, ts)[..k])
  {
    if ts != [] {
      var init := ts[..|ts| - 1];
      AddFrequentShape(ds, init);
      var prev := AddFrequent(ds, init);
      var r := AddFrequent(ds, ts);
      forall k | |ds| <= k < |r|
        ensures r[k].definition == FrequentDefinition && r[k].term in ts && r[k].term !in Terms(r[..k])
      {
        if k < |prev| {
          assert r[..k] == prev[..k];
          assert init[..] <= ts;
        } else {
          assert r[..k] == prev;
        }
      }
    }
  }

  /** A prefix of the terms lists the terms of the prefix. */
  lemma TermsPrefix(ds: seq<DefinedTerm>, k: nat)
    requires k <= |ds|
    ensures Terms(ds[..k]) == Terms(ds)[..k]
  {
  }

  /**
   * At most fifteen terms: the quoted terms first, in match order, then frequent phrases, at most
   * ten, each occurring at least three times, with the fixed definition, repeating no earlier term.
   */
  lemma DefinedTermsShape(engine: Engine, text: string)
    ensures var r := DefinedTerms(engine, text);
      var quoted := QuotedTerms(text, engine(QuotedTermPattern, text));
      var caps := Captures(engine(CapitalizedPattern, text), 1);
      && |r| <= MaxDefinedTerms
      && |r| <= |quoted| + MaxFrequent
      && (forall k :: 0 <= k < |r| && k < |quoted| ==> r[k] == quoted[k])
      && (forall k :: |quoted| <= k < |r| ==>
            r[k].definition == FrequentDefinition && multiset(caps)[r[k].term] >= MinFrequency
            && r[k].term !in Terms(r[..k]))
  {
    var quoted := QuotedTerms(text, engine(QuotedTermPattern, text));
    var caps := Captures(engine(CapitalizedPattern, text), 1);
    var frequent := Take(FrequentTerms(caps), MaxFrequent);
    var full := AddFrequent(quoted, frequent);
    AddFrequentShape(quoted, frequent);
    FrequentTermsExact(caps);
    var r := DefinedTerms(engine, text);
    assert r == full[..|r|];
    forall k | |quoted| <= k < |r|
      ensures r[k].definition == FrequentDefinition && multiset(caps)[r[k].term] >= MinFrequency
      ensures r[k].term !in Terms(r[..k])
    {
      assert r[k] == full[k] && r[..k] == full[..k];
      assert full[k].term in frequent;
      assert frequent == FrequentTerms(caps)[..|frequent|];
    }
  }

  // ---------------------------------------------------------------- monetary amounts

  /** One amount: the amount with its dollar sign, and what it is for. */
  datatype Amount = Amount(amount: string, context: string)

  const MoneyPattern := Pattern(@"\$\s*([0-9]{1,3}(?:,?[0-9]{3})*(?:\.[0-9]{2})?)\s*(?:per|for|to|as)?\s*([a-zA-Z\s]{0,30})", false, false)
  const NotSpecified := "Not specified"
  /** At most this many amounts are returned. */
  const MaxAmounts := 10

  /** `match.group(2).strip() if match.group(2) else ""`, then `context or "Not specified"`. */
  function ContextOf(m: Match): string
  {
    var context := match Group(m, 2)
      case Some(g) => if g != [] then Strip(g) else []
      case None => [];
    if context == [] then NotSpecified else context
  }

  /** The entry of one money match. */
  function AmountOf(m: Match): Amount
  {
    Amount("$" + Capture(m, 1), ContextOf(m))
  }

  /** The entries of all money matches, in match order. */
  function AmountsOf(ms: seq<Match>): (r: seq<Amount>)
    ensures |r| == |ms|
  {
    seq(|ms|, i requires 0 <= i < |ms| => AmountOf(ms[i]))
  }

  /** `extract_monetary_amounts(text)`. */
  method ExtractMonetaryAmounts(text: string, engine: Engine) returns (r: seq<Amount>)
    ensures r == Take(AmountsOf(engine(MoneyPattern, text)), MaxAmounts)
  {
    var ms := engine(MoneyPattern, text);
    var amounts: seq<Amount> := [];
    for j := 0 to |ms|
      invariant amounts == AmountsOf(ms)[..j]
    {
      var amount := Capture(ms[j], 1);
      var context := match Group(ms[j], 2)
        case Some(g) => if g != [] then Strip(g) else []
        case None => [];
      amounts := amounts + [Amount("$" + amount, if context == [] then NotSpecified else context)];
    }
    r := Take(amounts, MaxAmounts);
  }

  /**
   * A context that strips to nothing, or is absent, becomes "Not specified"; any other context is
   * the stripped group.
   */
  lemma ContextIsStrippedGroup(m: Match)
    ensures Strip(Capture(m, 2)) == [] ==> ContextOf(m) == NotSpecified
    ensures Strip(Capture(m, 2)) != [] ==> ContextOf(m) == Strip(Capture(m, 2))
  {
  }

  /** At most ten amounts, each starting with "$", each with a non-empty, stripped context. */
  lemma AmountsShape(ms: seq<Match>)
    ensures var r := Take(AmountsOf(ms), MaxAmounts);
      && |r| <= MaxAmounts
      && forall k :: 0 <= k < |r| ==>
           StartsWith(r[k].amount, "$") && r[k].context != [] && IsStripped(r[k].context)
  {
    var r := Take(AmountsOf(ms), MaxAmounts);
    forall k | 0 <= k < |r|
      ensures StartsWith(r[k].amount, "$") && r[k].context != [] && IsStripped(r[k].context)
    {
      assert r[k] == AmountOf(ms[k]);
      StripIsStripped(Capture(ms[k], 2));
      match Group(ms[k], 2)
      case Some(g) => StripIsStripped(g);
      case None =>
    }
  }

  // ---------------------------------------------------------------- entities

  const EntityPattern := Pattern(@"\b([A-Z][A-Za-z\s&]+(?:LLC|Inc|Corp|Ltd|LLP|L\.L\.C\.|Corporation)\.?)\b", false, false)
  /** At most this many entities are returned. */
  const MaxEntities := 10

  /** `list(set(matches))[:10]`, the set listed in order of first occurrence. */
  function Entities(engine: Engine, text: string): (r: seq<string>)
    ensures |r| <= MaxEntities
  {
    Take(Distinct(Captures(engine(EntityPattern, text), 1)), MaxEntities)
  }

  /** At most ten entities, no two the same, each one of the matches. */
  lemma EntitiesShape(engine: Engine, text: string)
    ensures var r := Entities(engine, text);
      && |r| <= MaxEntities
      && (forall i, j :: 0 <= i < j < |r| ==> r[i] != r[j])
      && (forall e :: e in r ==> e in Captures(engine(EntityPattern, text), 1))
  {
    var matches := Captures(engine(EntityPattern, text), 1);
    DistinctSameElements(matches);
    DistinctHasNoDuplicates(matches);
    TakeKeepsNoDuplicates(Distinct(matches), MaxEntities);
    assert Entities(engine, text) == Distinct(matches)[..|Entities(engine, text)|];
  }

  // ---------------------------------------------------------------- time periods

  /** One time period: the matched text and its kind. */
  datatype Period = Period(text: string, kind: string)

  const DurationPattern := Pattern(@"(\d+)\s*(day|week|month|year)s?", true, false)
  const RelativePattern := Pattern(@"(within|after|before)\s+(\d+)\s+(day|week|month|year)s?", true, false)
  const FrequencyPattern := Pattern(@"(annual|monthly|weekly|daily|quarterly)", true, false)

  const DurationKind := "duration"
  const RelativeKind := "relative_time"
  const FrequencyKind := "frequency"

  /** The three patterns with their kinds, in the order they are tried. */
  const PeriodPatterns := [(DurationPattern, DurationKind), (RelativePattern, RelativeKind), (FrequencyPattern, FrequencyKind)]
  /** At most this many periods are returned. */
  const MaxPeriods := 10

  /** One pattern's periods: each match's whole text with the pattern's kind, in match order. */
  function MatchPeriods(ms: seq<Match>, kind: string): (r: seq<Period>)
    ensures |r| == |ms|
  {
    seq(|ms|, i requires 0 <= i < |ms| => Period(Capture(ms[i], 0), kind))
  }

  /** The periods a pattern gives on `text`. */
  function PeriodsOf(engine: Engine, text: string): ((Pattern, string)) -> seq<Period>
  {
    (pk: (Pattern, string)) => MatchPeriods(engine(pk.0, text), pk.1)
  }

  /** All periods, pattern by pattern, before the cap. */
  function PatternPeriods(engine: Engine, ps: seq<(Pattern, string)>, text: string): seq<Period>
  {
    FlatMap(PeriodsOf(engine, text), ps)
  }

  /** One more pattern. */
  lemma PatternPeriodsStep(engine: Engine, ps: seq<(Pattern, string)>, k: nat, text: string)
    requires k < |ps|
    ensures PatternPeriods(engine, ps[..k + 1], text)
         == PatternPeriods(engine, ps[..k], text) + MatchPeriods(engine(ps[k].0, text), ps[k].1)
  {
    assert ps[..k + 1][..k] == ps[..k];
  }

  /** The inner loop: one entry per match. */
  method AppendPeriods(found: seq<Period>, ms: seq<Match>, kind: string) returns (r: seq<Period>)
    ensures r == found + MatchPeriods(ms, kind)
  {
    var got: seq<Period> := [];
    for j := 0 to |ms|
      invariant got == MatchPeriods(ms, kind)[..j]
    {
      got := got + [Period(Capture(ms[j], 0), kind)];
    }
    r := found + got;
  }

  /** `extract_time_periods(text)`. */
  method ExtractTimePeriods(text: string, engine: Engine) returns (r: seq<Period>)
    ensures r == Take(PatternPeriods(engine, PeriodPatterns, text), MaxPeriods)
  {
    var periods: seq<Period> := [];
    for k := 0 to |PeriodPatterns|
      invariant periods == PatternPeriods(engine, PeriodPatterns[..k], text)
    {
      var (pattern, periodType) := PeriodPatterns[k];
      periods := AppendPeriods(periods, engine(pattern, text), periodType);
      PatternPeriodsStep(engine, PeriodPatterns, k, text);
    }
    assert PeriodPatterns[..|PeriodPatterns|] == PeriodPatterns;
    r := Take(periods, MaxPeriods);
  }

  /** Periods appear in pattern order: the periods of two pattern lists are concatenated. */
  lemma PatternPeriodsAppend(engine: Engine, ps: seq<(Pattern, string)>, qs: seq<(Pattern, string)>, text: string)
    ensures PatternPeriods(engine, ps + qs, text) == PatternPeriods(engine, ps, text) + PatternPeriods(engine, qs, text)
  {
    FlatMapAppend(PeriodsOf(engine, text), ps, qs);
  }

  /** Every period carries the kind of one of the patterns and the whole text of one of its matches. */
  lemma {:induction false} PatternPeriodsFrom(engine: Engine, ps: seq<(Pattern, string)>, text: string)
    ensures forall p :: p in PatternPeriods(engine, ps, text) ==>
      exists k, j :: 0 <= k < |ps| && 0 <= j < |engine(ps[k].0, text)|
        && p == Period(Capture(engine(ps[k].0, text)[j], 0), ps[k].1)
  {
    if ps != [] {
      var init := ps[..|ps| - 1];
      PatternPeriodsFrom(engine, init, text);
      var last := |ps| - 1;
      var ms := engine(ps[last].0, text);
      assert PatternPeriods(engine, ps, text) == PatternPeriods(engine, init, text) + MatchPeriods(ms, ps[last].1);
      forall p | p in PatternPeriods(engine, ps, text)
        ensures exists k, j :: (0 <= k < |ps| && 0 <= j < |engine(ps[k].0, text)|
          && p == Period(Capture(engine(ps[k].0, text)[j], 0), ps[k].1))
      {
        if p in PatternPeriods(engine, init, text) {
          var k, j :| 0 <= k < |init| && 0 <= j < |engine(init[k].0, text)|
            && p == Period(Capture(engine(init[k].0, text)[j], 0), init[k].1);
          assert init[k] == ps[k];
        } else {
          var j :| 0 <= j < |ms| && MatchPeriods(ms, ps[last].1)[j] == p;
          assert p == Period(Capture(engine(ps[last].0, text)[j], 0), ps[last].1);
        }
      }
    }
  }

  /** At most ten periods, each of kind duration, relative_time or frequency. */
  lemma TimePeriodsShape(engine: Engine, text: string)
    ensures var r := Take(PatternPeriods(engine, PeriodPatterns, text), MaxPeriods);
      && |r| <= MaxPeriods
      && forall p :: p in r ==> p.kind == DurationKind || p.kind == RelativeKind || p.kind == FrequencyKind
  {
    var all := PatternPeriods(engine, PeriodPatterns, text);
    PatternPeriodsFrom(engine, PeriodPatterns, text);
    var r := Take(all, MaxPeriods);
    assert r == all[..|r|];
    forall p | p in r ensures p.kind == DurationKind || p.kind == RelativeKind || p.kind == FrequencyKind {
      assert p in all;
      var k, j :| 0 <= k < |PeriodPatterns| && 0 <= j < |engine(PeriodPatterns[k].0, text)|
        && p == Period(Capture(engine(PeriodPatterns[k].0, text)[j], 0), PeriodPatterns[k].1);
    }
  }

  // ---------------------------------------------------------------- key concepts

  /** The legal concepts looked for, in order. */
  const LegalConcepts := [
    "confidentiality", "indemnification", "termination", "liability",
    "intellectual property", "non-compete", "non-solicitation",
    "arbitration", "jurisdiction", "force majeure", "warranties",
    "representations", "governing law", "severability", "amendment"
  ]
  /** At most this many concepts are returned. */
  const MaxConcepts := 12

  /** `f"{concept.title()} ({count}x)"`. */
  function ConceptEntry(concept: string, count: nat): string
  {
    Title(concept) + " (" + NatToString(count) + "x)"
  }

  /** The entries of the concepts of `cs` found in `lowered`, in list order. */
  function ConceptEntries(lowered: string, cs: seq<string>): seq<string>
    requires forall i :: 0 <= i < |cs| ==> cs[i] != []
  {
    if cs == [] then []
    else
      var prev := ConceptEntries(lowered, cs[..|cs| - 1]);
      var c := cs[|cs| - 1];
      if Contains(lowered, c) then prev + [ConceptEntry(c, CountOccurrences(lowered, c))] else prev
  }

  /** One more concept. */
  lemma ConceptEntriesStep(lowered: string, cs: seq<string>, j: nat)
    requires forall i :: 0 <= i < |cs| ==> cs[i] != []
    requires j < |cs|
    ensures ConceptEntries(lowered, cs[..j + 1]) ==
      var prev := ConceptEntries(lowered, cs[..j]);
      if Contains(lowered, cs[j]) then prev + [ConceptEntry(cs[j], CountOccurrences(lowered, cs[j]))] else prev
  {
    assert cs[..j + 1][..j] == cs[..j];
  }

  /** `extract_key_concepts(text)`. */
  method ExtractKeyConcepts(text: string) returns (r: seq<string>)
    ensures r == Take(ConceptEntries(Lower(text), LegalConcepts), MaxConcepts)
  {
    var textLower := Lower(text);
    var found: seq<string> := [];
    for j := 0 to |LegalConcepts|
      invariant found == ConceptEntries(textLower, LegalConcepts[..j])
    {
      ConceptEntriesStep(textLower, LegalConcepts, j);
      var concept := LegalConcepts[j];
      if Contains(textLower, concept) {
        var count := CountOccurrences(textLower, concept);
        found := found + [ConceptEntry(concept, count)];
      }
    }
    assert LegalConcepts[..|LegalConcepts|] == LegalConcepts;
    r := Take(found, MaxConcepts);
  }

  /**
   * Exactly the concepts found get an entry, each "<Title> (<n>x)" with n at least one, the number
   * of non-overlapping occurrences.
   */
  lemma {:induction false} ConceptEntriesExact(lowered: string, cs: seq<string>)
    requires forall i :: 0 <= i < |cs| ==> cs[i] != []
    ensures forall e :: e in ConceptEntries(lowered, cs) ==>
      exists c :: c in cs && Contains(lowered, c) && CountOccurrences(lowered, c) >= 1
        && e == ConceptEntry(c, CountOccurrences(lowered, c))
    ensures forall c :: c in cs && Contains(lowered, c) ==>
      ConceptEntry(c, CountOccurrences(lowered, c)) in ConceptEntries(lowered, cs)
    ensures |ConceptEntries(lowered, cs)| <= |cs|
  {
    if cs != [] {
      var init, c := cs[..|cs| - 1], cs[|cs| - 1];
      ConceptEntriesExact(lowered, init);
      assert cs == init + [c];
      if Contains(lowered, c) {
        ContainsCountsAtLeastOne(lowered, c);
      }
    }
  }

  // ---------------------------------------------------------------- the record

  /** The dictionary `extract_key_terms` returns, one field per key. */
  datatype KeyTermSet = KeyTermSet(
    definedTerms: seq<DefinedTerm>,
    monetaryAmounts: seq<Amount>,
    importantEntities: seq<string>,
    timePeriods: seq<Period>,
    keyConcepts: seq<string>)

  /** `extract_key_terms(text)`. */
  method ExtractKeyTerms(text: string, engine: Engine) returns (r: KeyTermSet)
    ensures r.definedTerms == DefinedTerms(engine, text)
    ensures r.monetaryAmounts == Take(AmountsOf(engine(MoneyPattern, text)), MaxAmounts)
    ensures r.importantEntities == Entities(engine, text)
    ensures r.timePeriods == Take(PatternPeriods(engine, PeriodPatterns, text), MaxPeriods)
    ensures r.keyConcepts == Take(ConceptEntries(Lower(text), LegalConcepts), MaxConcepts)
  {
    var definedTerms := ExtractDefinedTerms(text, engine);
    var amounts := ExtractMonetaryAmounts(text, engine);
    var periods := ExtractTimePeriods(text, engine);
    var concepts := ExtractKeyConcepts(text);
    r := KeyTermSet(definedTerms, amounts, Entities(engine, text), periods, concepts);
  }
}
