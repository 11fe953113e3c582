/*
 * The plain-English contract summary: tallies of clause types and risk levels,
 * the first clauses of the main types, the high-risk clauses, and the text built
 * from them. The language-model summary is a parameter: the model's reply, or
 * None when the call raised.
 */
module SummaryBuilder {
  import opened Wrappers
  import opened TextUtil
  import opened RiskModel
  import opened ClauseModel
  import opened ContractModel

  // ---------------------------------------------------------------- clause type values

  /** What `getattr(clause, "clause_type", "")` can hold: an enum member, or any other value. */
  datatype TypeAttr = Member(member: ClauseType) | Other(shown: string)

  /** `_get_clause_type_value`: the member's `.value`, or the value's `str()`. */
  function TypeValue(a: TypeAttr): string
  {
    match a
    case Member(t) => Value(t)
    case Other(s) => s
  }

  /**
   * A clause that stores the value string (as `use_enum_values` makes it) and one that stores the
   * member get the same value exactly when the string names that member.
   */
  lemma StoredFormsAgree(s: string, t: ClauseType)
    ensures TypeValue(Other(s)) == TypeValue(Member(t)) <==> FromValue(s) == Some(t)
  {
    StoredValueComparisonAgrees(t, s);
  }

  // ---------------------------------------------------------------- what is read of a clause

  /** The fields of a clause the summary reads. */
  datatype ClauseView = ClauseView(text: string, typeValue: string, riskLevel: Option<RiskLevel>)

  function View(c: Clause): ClauseView
    reads c
  {
    ClauseView(c.text, TypeValue(Member(c.clauseType)), c.riskLevel)
  }

  function Views(cs: seq<Clause>): (r: seq<ClauseView>)
    reads set c | c in cs
    ensures |r| == |cs|
  {
    if cs == [] then [] else Views(cs[..|cs| - 1]) + [View(cs[|cs| - 1])]
  }

  function Types(vs: seq<ClauseView>): seq<string>
  {
    Map((v: ClauseView) => v.typeValue, vs)
  }

  function Levels(vs: seq<ClauseView>): seq<Option<RiskLevel>>
  {
    Map((v: ClauseView) => v.riskLevel, vs)
  }

  /** The clauses of one type, in clause order. */
  function OfType(vs: seq<ClauseView>, t: string): seq<ClauseView>
  {
    Filter((v: ClauseView) => v.typeValue == t, vs)
  }

  /** The high-risk clauses, in clause order. */
  function HighRiskOf(vs: seq<ClauseView>): seq<ClauseView>
  {
    Filter((v: ClauseView) => v.riskLevel == Some(High), vs)
  }

  // ---------------------------------------------------------------- the tallies

  /** How many key clauses are kept per type. */
  const MaxKeyClauses := 2

  /**
   * The four dictionaries the loop fills. A dictionary remembers the order its keys were added
   * in, so the type counts come with `typeOrder`, their keys in insertion order.
   */
  datatype Tally = Tally(
    typeCounts: map<string, nat>,
    typeOrder: seq<string>,
    riskCounts: map<RiskLevel, nat>,
    highRiskClauses: seq<ClauseView>,
    keyClausesByType: map<string, seq<ClauseView>>)

  /** `clause_type_counts` of a list of type values: each value that occurs, with its multiplicity. */
  function TypeCounts(xs: seq<string>): map<string, nat>
  {
    map x | x in xs :: multiset(xs)[x]
  }

  /** `risk_counts` of a list of levels: the multiplicity of each of the three levels. */
  function RiskCounts(ls: seq<Option<RiskLevel>>): map<RiskLevel, nat>
  {
    map[High := multiset(ls)[Some(High)], Medium := multiset(ls)[Some(Medium)], Low := multiset(ls)[Some(Low)]]
  }

  /** `key_clauses_by_type`: the first two clauses of each type that occurs. */
  function KeyClauses(vs: seq<ClauseView>): map<string, seq<ClauseView>>
  {
    map x | x in Types(vs) :: Take(OfType(vs, x), MaxKeyClauses)
  }

  /**
   * The tallies of a clause list, defined directly: the multiplicity of each type, the types in
   * order of first occurrence, the multiplicity of each risk level, the high-risk clauses, and the
   * first two clauses of each type.
   */
  function TallyOf(vs: seq<ClauseView>): (r: Tally)
    ensures |r.highRiskClauses| <= |vs|
  {
    Tally(TypeCounts(Types(vs)), Distinct(Types(vs)), RiskCounts(Levels(vs)), HighRiskOf(vs), KeyClauses(vs))
  }

  /** The loop of `_build_rule_based_summary` over the clauses. */
  method TallyClauses(vs: seq<ClauseView>) returns (t: Tally)
    ensures t == TallyOf(vs)
  {
    var typeCounts: map<string, nat> := map[];
    var typeOrder: seq<string> := [];
    var riskCounts := map[High := 0, Medium := 0, Low := 0];
    var highRisk: seq<ClauseView> := [];
    var keyClauses: map<string, seq<ClauseView>> := map[];
    for i := 0 to |vs|
      invariant typeCounts == TypeCounts(Types(vs[..i])) && typeOrder == Distinct(Types(vs[..i]))
      invariant riskCounts == RiskCounts(Levels(vs[..i])) && highRisk == HighRiskOf(vs[..i])
      invariant keyClauses == KeyClauses(vs[..i])
    {
      typeCounts, typeOrder := CountType(vs, i, typeCounts, typeOrder);
      riskCounts, highRisk := CountRisk(vs, i, riskCounts, highRisk);
      keyClauses := KeepKeyClause(vs, i, keyClauses);
    }
    assert vs[..|vs|] == vs;
    t := Tally(typeCounts, typeOrder, riskCounts, highRisk, keyClauses);
  }

  /** Types of a prefix one longer. */
  lemma TypesStep(vs: seq<ClauseView>, i: nat)
    requires i < |vs|
    ensures Types(vs[..i + 1]) == Types(vs[..i]) + [vs[i].typeValue]
    ensures Levels(vs[..i + 1]) == Levels(vs[..i]) + [vs[i].riskLevel]
  {
    MapStep((v: ClauseView) => v.typeValue, vs, i);
    MapStep((v: ClauseView) => v.riskLevel, vs, i);
  }

  /** A list grown by one element lists its new distinct element last. */
  lemma DistinctSnoc<T>(xs: seq<T>, x: T)
    ensures Distinct(xs + [x]) == if x in Distinct(xs) then Distinct(xs) else Distinct(xs) + [x]
  {
    assert (xs + [x])[..|xs|] == xs;
  }

  /** One more occurrence of a value adds one to its count, creating the entry at 1. */
  lemma TypeCountsSnoc(xs: seq<string>, y: string)
    ensures TypeCounts(xs + [y]) == TypeCounts(xs)[y := CountOf(TypeCounts(xs), y) + 1]
  {
    assert multiset(xs + [y]) == multiset(xs) + multiset{y};
  }

  /** `clause_type_counts[t] = clause_type_counts.get(t, 0) + 1`. */
  method CountType(vs: seq<ClauseView>, i: nat, typeCounts: map<string, nat>, typeOrder: seq<string>)
    returns (counts: map<string, nat>, order: seq<string>)
    requires i < |vs|
    requires typeCounts == TypeCounts(Types(vs[..i])) && typeOrder == Distinct(Types(vs[..i]))
    ensures counts == TypeCounts(Types(vs[..i + 1])) && order == Distinct(Types(vs[..i + 1]))
  {
    var clauseType := vs[i].typeValue;
    TypesStep(vs, i);
    TypeCountsSnoc(Types(vs[..i]), clauseType);
    DistinctSnoc(Types(vs[..i]), clauseType);
    DistinctSameElements(Types(vs[..i]));
    order := if clauseType in typeCounts then typeOrder else typeOrder + [clauseType];
    counts := typeCounts[clauseType := (if clauseType in typeCounts then typeCounts[clauseType] else 0) + 1];
  }

  /** One more level adds one to the count of that level; a clause without a level adds nothing. */
  lemma RiskCountsSnoc(ls: seq<Option<RiskLevel>>, l: Option<RiskLevel>)
    ensures l.Some? ==> RiskCounts(ls + [l]) == RiskCounts(ls)[l.value := CountOf(RiskCounts(ls), l.value) + 1]
    ensures l.None? ==> RiskCounts(ls + [l]) == RiskCounts(ls)
  {
    assert multiset(ls + [l]) == multiset(ls) + multiset{l};
    match l
    case Some(High) =>
    case Some(Medium) =>
    case Some(Low) =>
    case None =>
  }

  /** `risk_counts[level] += 1` for a clause with a level, and the high-risk list. */
  method CountRisk(vs: seq<ClauseView>, i: nat, riskCounts: map<RiskLevel, nat>, highRisk: seq<ClauseView>)
    returns (counts: map<RiskLevel, nat>, high: seq<ClauseView>)
    requires i < |vs|
    requires riskCounts == RiskCounts(Levels(vs[..i])) && highRisk == HighRiskOf(vs[..i])
    ensures counts == RiskCounts(Levels(vs[..i + 1])) && high == HighRiskOf(vs[..i + 1])
  {
    var level := vs[i].riskLevel;
    TypesStep(vs, i);
    RiskCountsSnoc(Levels(vs[..i]), level);
    FilterStep((v: ClauseView) => v.riskLevel == Some(High), vs, i);
    counts, high := riskCounts, highRisk;
    if level.Some? {
      counts := counts[level.value := counts[level.value] + 1];
      if level.value == High {
        high := high + [vs[i]];
      }
    }
  }

  /** The clauses of a type that does not occur: none. */
  lemma {:induction false} OfTypeAbsent(vs: seq<ClauseView>, x: string)
    ensures OfType(vs, x) == [] <==> x !in Types(vs)
  {
    if vs != [] {
      var n := |vs| - 1;
      OfTypeAbsent(vs[..n], x);
      TypesStep(vs, n);
      FilterStep((v: ClauseView) => v.typeValue == x, vs, n);
      assert vs[..n + 1] == vs;
    }
  }

  /** One more clause changes the clauses of its own type only, by appending it. */
  lemma OfTypeStep(vs: seq<ClauseView>, i: nat, y: string)
    requires i < |vs|
    ensures OfType(vs[..i + 1], y) == if vs[i].typeValue == y then OfType(vs[..i], y) + [vs[i]] else OfType(vs[..i], y)
  {
    FilterStep((v: ClauseView) => v.typeValue == y, vs, i);
  }

  /** The first two clauses of one type after one more clause. */
  lemma KeyEntryStep(vs: seq<ClauseView>, i: nat, y: string)
    requires i < |vs|
    ensures var before, after := Take(OfType(vs[..i], y), MaxKeyClauses), Take(OfType(vs[..i + 1], y), MaxKeyClauses);
      && (vs[i].typeValue != y ==> after == before)
      && (vs[i].typeValue == y && y !in Types(vs[..i]) ==> after == [vs[i]])
      && (vs[i].typeValue == y && |before| < MaxKeyClauses ==> after == before + [vs[i]])
      && (|before| >= MaxKeyClauses ==> after == before)
  {
    OfTypeStep(vs, i, y);
    OfTypeAbsent(vs[..i], y);
  }

  /**
   * One more clause: its type gets the clause appended while it has fewer than two, and a new
   * entry holding just the clause when it is the first of its type.
   */
  lemma KeyClausesStep(vs: seq<ClauseView>, i: nat)
    requires i < |vs|
    ensures var kc, x := KeyClauses(vs[..i]), vs[i].typeValue;
      KeyClauses(vs[..i + 1])
        == if x !in kc then kc[x := [vs[i]]]
           else if |kc[x]| < MaxKeyClauses then kc[x := kc[x] + [vs[i]]]
           else kc
  {
    var done, x := vs[..i], vs[i].typeValue;
    var kc := KeyClauses(done);
    var next := if x !in kc then kc[x := [vs[i]]]
      else if |kc[x]| < MaxKeyClauses then kc[x := kc[x] + [vs[i]]]
      else kc;
    TypesStep(vs, i);
    assert next.Keys == KeyClauses(vs[..i + 1]).Keys;
    forall y | y in next ensures next[y] == KeyClauses(vs[..i + 1])[y] {
      KeyEntryStep(vs, i, y);
    }
  }

  /** The first two clauses of each type are collected. */
  method KeepKeyClause(vs: seq<ClauseView>, i: nat, keyClauses: map<string, seq<ClauseView>>)
    returns (key: map<string, seq<ClauseView>>)
    requires i < |vs|
    requires keyClauses == KeyClauses(vs[..i])
    ensures key == KeyClauses(vs[..i + 1])
  {
    var clauseType := vs[i].typeValue;
    KeyClausesStep(vs, i);
    key := keyClauses;
    if clauseType !in key || |key[clauseType]| < MaxKeyClauses {
      if clauseType !in key {
        key := key[clauseType := []];
      }
      assert clauseType !in keyClauses ==> key[clauseType] + [vs[i]] == [vs[i]];
      key := key[clauseType := key[clauseType] + [vs[i]]];
    }
  }

  // ---------------------------------------------------------------- tally properties

  /** Sum of the multiplicities in `m` of the elements of `ks`. */
  function SumMultiplicities<T>(ks: seq<T>, m: multiset<T>): nat
  {
    if ks == [] then 0 else SumMultiplicities(ks[..|ks| - 1], m) + m[ks[|ks| - 1]]
  }

  /** In a list without duplicates an element occurs once or not at all. */
  lemma {:induction false} OccursOnce<T>(ks: seq<T>, x: T)
    requires forall i, j :: 0 <= i < j < |ks| ==> ks[i] != ks[j]
    ensures multiset(ks)[x] == if x in ks then 1 else 0
  {
    if ks != [] {
      var init := ks[..|ks| - 1];
      OccursOnce(init, x);
      assert ks == init + [ks[|ks| - 1]];
      if x == ks[|ks| - 1] {
        assert x !in init by {
          forall i | 0 <= i < |init| ensures init[i] != x {
            assert init[i] == ks[i];
          }
        }
      }
    }
  }

  /** Adding one element to the multiset adds its number of occurrences in `ks` to the sum. */
  lemma {:induction false} SumMultiplicitiesAdd<T>(ks: seq<T>, m: multiset<T>, x: T)
    ensures SumMultiplicities(ks, m + multiset{x}) == SumMultiplicities(ks, m) + multiset(ks)[x]
  {
    if ks != [] {
      var init := ks[..|ks| - 1];
      SumMultiplicitiesAdd(init, m, x);
      assert ks == init + [ks[|ks| - 1]];
    }
  }

  /** The multiplicities of the distinct elements of a list add up to its length. */
  lemma {:induction false} DistinctMultiplicitiesSum<T>(xs: seq<T>)
    ensures SumMultiplicities(Distinct(xs), multiset(xs)) == |xs|
  {
    if xs != [] {
      var init, x := xs[..|xs| - 1], xs[|xs| - 1];
      DistinctMultiplicitiesSum(init);
      assert xs == init + [x];
      SumMultiplicitiesAdd(Distinct(init), multiset(init), x);
      DistinctHasNoDuplicates(init);
      OccursOnce(Distinct(init), x);
      DistinctSameElements(init);
      if x !in Distinct(init) {
        assert Distinct(xs) == Distinct(init) + [x];
        assert Distinct(xs)[..|Distinct(xs)| - 1] == Distinct(init);
      }
    }
  }

  /** The per-type counts add up to the number of clauses. */
  lemma TypeCountsSum(vs: seq<ClauseView>)
    ensures var t := TallyOf(vs);
      SumMultiplicities(t.typeOrder, multiset(Types(vs))) == |vs|
      && (forall x :: x in t.typeOrder <==> x in t.typeCounts)
      && (forall x :: x in t.typeCounts ==> t.typeCounts[x] == multiset(Types(vs))[x])
  {
    DistinctMultiplicitiesSum(Types(vs));
    DistinctSameElements(Types(vs));
  }

  /** Every element of a list of optional levels is one of the four values. */
  lemma {:induction false} LevelMultiplicitiesSum(ls: seq<Option<RiskLevel>>)
    ensures multiset(ls)[Some(High)] + multiset(ls)[Some(Medium)] + multiset(ls)[Some(Low)] + multiset(ls)[None] == |ls|
  {
    if ls != [] {
      var init := ls[..|ls| - 1];
      LevelMultiplicitiesSum(init);
      assert ls == init + [ls[|ls| - 1]];
      assert multiset(ls) == multiset(init) + multiset{ls[|ls| - 1]};
      match ls[|ls| - 1]
      case Some(High) =>
      case Some(Medium) =>
      case Some(Low) =>
      case None =>
    }
  }

  /** The risk counts add up to the number of clauses that have a level. */
  lemma RiskCountsSum(vs: seq<ClauseView>)
    ensures var t := TallyOf(vs);
      t.riskCounts[High] + t.riskCounts[Medium] + t.riskCounts[Low] == |vs| - multiset(Levels(vs))[None]
  {
    LevelMultiplicitiesSum(Levels(vs));
  }

  /** The high-risk list holds exactly the clauses of level high, in clause order. */
  lemma HighRiskClausesExact(vs: seq<ClauseView>)
    ensures forall v :: v in TallyOf(vs).highRiskClauses <==> v in vs && v.riskLevel == Some(High)
  {
    FilterExact((v: ClauseView) => v.riskLevel == Some(High), vs);
  }

  // ---------------------------------------------------------------- text pieces

  const Bullet := "  \U{2022} "
  const SnippetLimit := 200
  const HighRiskSnippetLimit := 180
  const MaxHighlighted := 3

  /** `'s' if count != 1 else ''`. */
  function Plural(n: nat): string
  {
    if n != 1 then "s" else ""
  }

  /** `value.replace('_', ' ').title()`. */
  function TypeDisplay(value: string): string
  {
    Title(ReplaceChar(value, '_', ' '))
  }

  function HeaderLines(title: string, filename: string, uploadedAt: string, n: nat): seq<string>
  {
    [ "\U{1F4C4} **Contract Summary: " + title + "**",
      "\n\U{1F4CB} **Document Information:**",
      Bullet + "File: " + filename,
      Bullet + "Uploaded: " + uploadedAt,
      Bullet + "Total Clauses: " + NatToString(n),
      "\n\U{1F4CA} **Contract Overview:**",
      "\nThis contract contains " + NatToString(n) + " clauses covering the following areas:" ]
  }

  /** `d.get(k, 0)`. */
  function CountOf<K>(m: map<K, nat>, k: K): nat
  {
    if k in m then m[k] else 0
  }

  /** `clause_type_counts.items()`: the entries in key insertion order. */
  function TypeItems(t: Tally): seq<(string, nat)>
  {
    Map((x: string) => (x, CountOf(t.typeCounts, x)), t.typeOrder)
  }

  /** Insert an entry after every entry whose count is at least its own. */
  function InsertByCount(sorted: seq<(string, nat)>, e: (string, nat)): seq<(string, nat)>
  {
    if sorted == [] then [e]
    else if sorted[|sorted| - 1].1 >= e.1 then sorted + [e]
    else InsertByCount(sorted[..|sorted| - 1], e) + [sorted[|sorted| - 1]]
  }

  /**
   * `sorted(items, key=lambda x: x[1], reverse=True)`: a stable sort by decreasing count, so
   * entries with equal counts keep their order.
   */
  function SortByCount(items: seq<(string, nat)>): (r: seq<(string, nat)>)
    ensures |r| == |items|
  {
    if items == [] then []
    else
      var sorted := SortByCount(items[..|items| - 1]);
      InsertByCountKeeps(sorted, items[|items| - 1]);
      assert |multiset(InsertByCount(sorted, items[|items| - 1]))| == |multiset(sorted)| + 1;
      InsertByCount(sorted, items[|items| - 1])
  }

  predicate CountsDecrease(s: seq<(string, nat)>)
  {
    forall i, j :: 0 <= i < j < |s| ==> s[i].1 >= s[j].1
  }

  /**
   * The entry goes in at position `p`: after the entries before `p`, the last of which counts at
   * least as much, and before the entries from `p` on, which all count less.
   */
  lemma {:induction false} InsertByCountAt(sorted: seq<(string, nat)>, e: (string, nat)) returns (p: nat)
    ensures p <= |sorted| && InsertByCount(sorted, e) == sorted[..p] + [e] + sorted[p..]
    ensures forall k :: p <= k < |sorted| ==> sorted[k].1 < e.1
    ensures p > 0 ==> sorted[p - 1].1 >= e.1
  {
    if sorted == [] {
      p := 0;
    } else if sorted[|sorted| - 1].1 >= e.1 {
      p := |sorted|;
    } else {
      var init, last := sorted[..|sorted| - 1], sorted[|sorted| - 1];
      p := InsertByCountAt(init, e);
      assert sorted[..p] == init[..p];
      assert sorted[p..] == init[p..] + [last];
      AppendAssoc(init[..p] + [e], init[p..], [last]);
    }
  }

  /** The element at index `i` of a list with `e` inserted at position `p`. */
  lemma InsertedAt(sorted: seq<(string, nat)>, e: (string, nat), p: nat, i: nat)
    requires p <= |sorted| && i <= |sorted|
    ensures var r := sorted[..p] + [e] + sorted[p..];
      r[i] == if i < p then sorted[i] else if i == p then e else sorted[i - 1]
  {
  }

  /** An entry put between the entries that count at least as much and those that count less. */
  lemma InsertBetweenSorted(sorted: seq<(string, nat)>, e: (string, nat), p: nat)
    requires CountsDecrease(sorted) && p <= |sorted|
    requires forall k :: p <= k < |sorted| ==> sorted[k].1 < e.1
    requires p > 0 ==> sorted[p - 1].1 >= e.1
    ensures CountsDecrease(sorted[..p] + [e] + sorted[p..])
  {
    var r := sorted[..p] + [e] + sorted[p..];
    forall i, j | 0 <= i < j < |r| ensures r[i].1 >= r[j].1 {
      InsertedAt(sorted, e, p, i);
      InsertedAt(sorted, e, p, j);
    }
  }

  /** Inserting adds exactly the entry. */
  lemma InsertByCountKeeps(sorted: seq<(string, nat)>, e: (string, nat))
    ensures multiset(InsertByCount(sorted, e)) == multiset(sorted) + multiset{e}
  {
    var p := InsertByCountAt(sorted, e);
    var front, back := sorted[..p], sorted[p..];
    assert sorted == front + back;
    assert multiset(front + [e] + back) == multiset(front) + multiset{e} + multiset(back);
  }

  /** Inserting into a list sorted by decreasing count keeps it sorted. */
  lemma InsertByCountSorted(sorted: seq<(string, nat)>, e: (string, nat))
    requires CountsDecrease(sorted)
    ensures CountsDecrease(InsertByCount(sorted, e))
  {
    var p := InsertByCountAt(sorted, e);
    InsertBetweenSorted(sorted, e, p);
  }

  /** The sort orders by decreasing count. */
  lemma {:induction false} SortByCountSorted(items: seq<(string, nat)>)
    ensures CountsDecrease(SortByCount(items))
  {
    if items != [] {
      SortByCountSorted(items[..|items| - 1]);
      InsertByCountSorted(SortByCount(items[..|items| - 1]), items[|items| - 1]);
    }
  }

  /** The sort keeps every entry, as often as it occurs. */
  lemma {:induction false} SortByCountKeeps(items: seq<(string, nat)>)
    ensures multiset(SortByCount(items)) == multiset(items)
  {
    if items != [] {
      var init := items[..|items| - 1];
      SortByCountKeeps(init);
      InsertByCountKeeps(SortByCount(init), items[|items| - 1]);
      assert items == init + [items[|items| - 1]];
    }
  }

  function TypeLine(e: (string, nat)): string
  {
    Bullet + "**" + TypeDisplay(e.0) + "**: " + NatToString(e.1) + " clause" + Plural(e.1)
  }

  function RiskLines(t: Tally): seq<string>
  {
    var high, medium, low := CountOf(t.riskCounts, High), CountOf(t.riskCounts, Medium), CountOf(t.riskCounts, Low);
    [ "\n\U{26A0}\U{FE0F} **Risk Assessment:**",
      Bullet + "\U{1F534} High Risk: " + NatToString(high) + " clause" + Plural(high),
      Bullet + "\U{1F7E1} Medium Risk: " + NatToString(medium) + " clause" + Plural(medium),
      Bullet + "\U{1F7E2} Low Risk: " + NatToString(low) + " clause" + Plural(low) ]
  }

  function WarningLine(high: nat): string
  {
    "\n\U{26A0}\U{FE0F} **Warning**: This contract contains " + NatToString(high)
      + " high-risk clause(s) that require careful review. Pay special attention to liability, termination, and payment terms."
  }

  function NoteLine(medium: nat): string
  {
    "\n\U{26A0}\U{FE0F} **Note**: This contract has " + NatToString(medium)
      + " medium-risk items worth reviewing. Consider discussing key terms with your legal advisor."
  }

  const StandardLine := "\n\U{2713} **Assessment**: This contract appears to have standard, low-risk terms. However, always review all clauses carefully before signing."

  /** Which of the three assessments a contract gets. */
  datatype Verdict = Warning(high: nat) | Note(medium: nat) | Standard

  /** Any high-risk clause gives the warning, else more than three medium-risk ones the note. */
  function VerdictOf(t: Tally): Verdict
  {
    if CountOf(t.riskCounts, High) > 0 then Warning(CountOf(t.riskCounts, High))
    else if CountOf(t.riskCounts, Medium) > 3 then Note(CountOf(t.riskCounts, Medium))
    else Standard
  }

  function VerdictLine(v: Verdict): string
  {
    match v
    case Warning(high) => WarningLine(high)
    case Note(medium) => NoteLine(medium)
    case Standard => StandardLine
  }

  /** The overall assessment. */
  function Assessment(t: Tally): string
  {
    VerdictLine(VerdictOf(t))
  }

  function HighlightLine(v: ClauseView): string
  {
    Bullet + Snippet(v.text, SnippetLimit)
  }

  /** The highlight section of one type: a heading and its first two clauses, when it has any. */
  function Highlight(t: Tally, key: string, heading: string): seq<string>
  {
    if key in t.typeCounts then
      var cs := if key in t.keyClausesByType then t.keyClausesByType[key] else [];
      if cs != [] then [heading] + Map(HighlightLine, Take(cs, MaxKeyClauses)) else []
    else []
  }

  const PaymentHeading := "\n\U{1F4B0} **Payment Terms:**"
  const TerminationHeading := "\n\U{1F6AA} **Termination Conditions:**"
  const LiabilityHeading := "\n\U{1F6E1}\U{FE0F} **Liability Terms:**"

  function Highlights(t: Tally): seq<string>
  {
    ["\n\U{1F50D} **Key Highlights:**"]
      + Highlight(t, "payment", PaymentHeading)
      + Highlight(t, "termination", TerminationHeading)
      + Highlight(t, "liability", LiabilityHeading)
  }

  function HighRiskLine(v: ClauseView): string
  {
    Bullet + "**" + TypeDisplay(v.typeValue) + "**: " + Snippet(v.text, HighRiskSnippetLimit)
  }

  const HighRiskHeading := "\n\U{1F6A8} **High-Risk Clauses Requiring Attention:**"

  /** The first three high-risk clauses under a heading, when there are any. */
  function HighRiskSection(t: Tally): seq<string>
  {
    if t.highRiskClauses != [] then [HighRiskHeading] + Map(HighRiskLine, Take(t.highRiskClauses, MaxHighlighted))
    else []
  }

  const HighRiskAdvice := [
    Bullet + "Review all high-risk clauses with a legal professional",
    Bullet + "Consider negotiating terms for high-risk areas"
  ]
  const StandardAdvice := [
    Bullet + "Use the 'Questions' tab to explore specific contract terms",
    Bullet + "Download the full PDF report for detailed analysis",
    Bullet + "Keep this analysis for your records"
  ]

  function Recommendations(t: Tally): seq<string>
  {
    ["\n\U{1F4A1} **Recommendations:**"]
      + (if CountOf(t.riskCounts, High) > 0 then HighRiskAdvice else [])
      + StandardAdvice
  }

  /** `summary_parts` of a contract with the given tallies. */
  function SummaryParts(title: string, filename: string, uploadedAt: string, n: nat, t: Tally): seq<string>
  {
    HeaderLines(title, filename, uploadedAt, n)
      + Map(TypeLine, SortByCount(TypeItems(t)))
      + RiskLines(t)
      + [Assessment(t)]
      + Highlights(t)
      + HighRiskSection(t)
      + Recommendations(t)
  }

  /** The first summary line is the title line. */
  lemma SummaryOpensWithTitle(title: string, filename: string, uploadedAt: string, n: nat, t: Tally)
    ensures var parts := SummaryParts(title, filename, uploadedAt, n, t);
      |parts| >= 1 && parts[0] == "\U{1F4C4} **Contract Summary: " + title + "**"
  {
    var h := HeaderLines(title, filename, uploadedAt, n);
    assert SummaryParts(title, filename, uploadedAt, n, t)[0] == h[0];
  }

  /** What `_build_rule_based_summary` returns for a contract whose clauses read as `vs`. */
  function RuleBasedSummary(c: Contract, vs: seq<ClauseView>): (r: string)
    ensures StartsWith(r, "\U{1F4C4} **Contract Summary: " + c.title + "**")
  {
    var parts := SummaryParts(c.title, c.originalFilename, c.uploadedAt, |vs|, TallyOf(vs));
    SummaryOpensWithTitle(c.title, c.originalFilename, c.uploadedAt, |vs|, TallyOf(vs));
    JoinStartsWithFirst(parts, "\n");
    Join(parts, "\n")
  }

  /** `_build_rule_based_summary(contract)`. */
  method BuildRuleBasedSummary(c: Contract) returns (r: string)
    ensures r == RuleBasedSummary(c, Views(c.clauses))
  {
    var clauses := Views(c.clauses);
    var tally := TallyClauses(clauses);
    var parts := SummaryParts(c.title, c.originalFilename, c.uploadedAt, |clauses|, tally);
    r := Join(parts, "\n");
  }

  // ---------------------------------------------------------------- language-model summary

  const LlmTextLimit := 8000
  const TruncationMarker := "\n\n[Document truncated for analysis...]"

  /** The contract text sent to the model: the first 8000 characters, marked when cut. */
  function LlmInputText(text: string): string
  {
    Take(text, LlmTextLimit) + (if |text| > LlmTextLimit then TruncationMarker else "")
  }

  /** A text within the limit is sent whole; a longer one is cut to the limit and marked. */
  lemma LlmInputTextShape(text: string)
    ensures |text| <= LlmTextLimit ==> LlmInputText(text) == text
    ensures |text| > LlmTextLimit ==> LlmInputText(text) == text[..LlmTextLimit] + TruncationMarker
    ensures |LlmInputText(text)| <= LlmTextLimit + |TruncationMarker|
  {
  }

  /**
   * `build_contract_summary(contract, use_llm)`. `llmSummary` is the model's reply to the summary
   * prompt built from `LlmInputText(c.text)`, or None when building it raised.
   */
  method BuildContractSummary(c: Contract, useLlm: bool := false, llmSummary: Option<string>) returns (r: string)
    ensures useLlm && llmSummary.Some? ==> r == llmSummary.value
    ensures !useLlm || llmSummary.None? ==> r == RuleBasedSummary(c, Views(c.clauses))
  {
    if useLlm {
      match llmSummary
      case Some(s) => return s;
      case None =>
    }
    r := BuildRuleBasedSummary(c);
  }

  // ---------------------------------------------------------------- summary properties

  /**
   * The assessment of a clause list: the warning, with their number, exactly when some clause is
   * of high risk; otherwise the note, with their number, exactly when more than three are of
   * medium risk; otherwise the standard text.
   */
  lemma AssessmentOfClauses(vs: seq<ClauseView>)
    ensures var v, medium := VerdictOf(TallyOf(vs)), multiset(Levels(vs))[Some(Medium)];
      && (v.Warning? <==> exists c :: c in vs && c.riskLevel == Some(High))
      && (v.Warning? ==> v.high == |HighRiskOf(vs)|)
      && (v.Note? <==> (forall c :: c in vs ==> c.riskLevel != Some(High)) && medium > 3)
      && (v.Note? ==> v.medium == medium)
  {
    FilterExact((v: ClauseView) => v.riskLevel == Some(High), vs);
    FilterCountsMultiplicity(vs);
    if HighRiskOf(vs) != [] {
      assert HighRiskOf(vs)[0] in HighRiskOf(vs);
    }
  }

  /** The number of high-risk clauses is the multiplicity of the high level. */
  lemma {:induction false} FilterCountsMultiplicity(vs: seq<ClauseView>)
    ensures |HighRiskOf(vs)| == multiset(Levels(vs))[Some(High)]
  {
    if vs != [] {
      var init := vs[..|vs| - 1];
      FilterCountsMultiplicity(init);
      TypesStep(vs, |vs| - 1);
      assert vs[..|vs| - 1 + 1] == vs;
    }
  }

  /**
   * At most the first three high-risk clauses are highlighted, each as its type and its text cut
   * to 180 characters; without high-risk clauses the section is absent.
   */
  lemma HighRiskSectionShape(vs: seq<ClauseView>)
    ensures var s := HighRiskSection(TallyOf(vs));
      var hs := HighRiskOf(vs);
      && (hs == [] ==> s == [])
      && (hs != [] ==>
            && |s| == 1 + (if |hs| < MaxHighlighted then |hs| else MaxHighlighted)
            && s[0] == HighRiskHeading
            && forall k :: 1 <= k < |s| ==> s[k] == HighRiskLine(hs[k - 1]) && hs[k - 1].riskLevel == Some(High))
  {
    var hs := HighRiskOf(vs);
    FilterExact((v: ClauseView) => v.riskLevel == Some(High), vs);
    forall k | 0 <= k < |hs| ensures hs[k].riskLevel == Some(High) {
      assert hs[k] in hs;
    }
  }

  /** The payment highlights are the first two payment clauses, each cut to 200 characters. */
  lemma PaymentHighlights(vs: seq<ClauseView>)
    ensures var ps := OfType(vs, "payment");
      Highlight(TallyOf(vs), "payment", PaymentHeading)
        == if ps == [] then [] else [PaymentHeading] + Map(HighlightLine, Take(ps, MaxKeyClauses))
  {
    OfTypeAbsent(vs, "payment");
  }

  /** The type lines list every type once, by decreasing count. */
  lemma TypeLinesSorted(vs: seq<ClauseView>)
    ensures var items := SortByCount(TypeItems(TallyOf(vs)));
      && CountsDecrease(items)
      && multiset(items) == multiset(TypeItems(TallyOf(vs)))
      && forall e :: e in items ==> e.0 in Types(vs) && e.1 == multiset(Types(vs))[e.0]
  {
    var t := TallyOf(vs);
    SortByCountSorted(TypeItems(t));
    SortByCountKeeps(TypeItems(t));
    DistinctSameElements(Types(vs));
    var items := SortByCount(TypeItems(t));
    forall e | e in items ensures e.0 in Types(vs) && e.1 == multiset(Types(vs))[e.0] {
      assert e in multiset(TypeItems(t));
      assert e in TypeItems(t);
    }
  }

  /** The two extra recommendations appear exactly when there is a high-risk clause. */
  lemma RecommendationsShape(vs: seq<ClauseView>)
    ensures var r := Recommendations(TallyOf(vs));
      var high := multiset(Levels(vs))[Some(High)];
      && (high > 0 ==> |r| == 6 && r[1..3] == HighRiskAdvice)
      && (high == 0 ==> |r| == 4)
      && r[|r| - 3..] == StandardAdvice
  {
  }

  // ---------------------------------------------------------------- key risks

  const KeyRiskTextLimit := 100

  /** One key risk: the type, then the first 100 characters, always followed by "...". */
  function KeyRiskLine(v: ClauseView): string
  {
    TypeDisplay(v.typeValue) + ": " + Take(v.text, KeyRiskTextLimit) + "..."
  }

  /** `get_key_risks(contract, limit)`. */
  method GetKeyRisks(c: Contract, limit: int := 5) returns (risks: seq<string>)
    ensures risks == Map(KeyRiskLine, Take(HighRiskOf(Views(c.clauses)), limit))
  {
    var highRiskClauses := HighRiskOf(Views(c.clauses));
    var chosen := Take(highRiskClauses, limit);
    risks := [];
    for j := 0 to |chosen|
      invariant risks == Map(KeyRiskLine, chosen[..j])
    {
      MapStep(KeyRiskLine, chosen, j);
      risks := risks + [KeyRiskLine(chosen[j])];
    }
    assert chosen[..|chosen|] == chosen;
  }

  /**
   * A non-negative limit gives min(limit, number of high-risk clauses) entries, the i-th from the
   * i-th high-risk clause; a negative limit drops that many from the end, as a slice does.
   */
  lemma KeyRisksShape(vs: seq<ClauseView>, limit: int)
    ensures var hs := HighRiskOf(vs);
      var r := Map(KeyRiskLine, Take(hs, limit));
      && (limit >= 0 ==> |r| == if limit < |hs| then limit else |hs|)
      && (limit < 0 ==> |r| == if |hs| + limit > 0 then |hs| + limit else 0)
      && (forall k :: 0 <= k < |r| ==> r[k] == KeyRiskLine(hs[k]) && hs[k].riskLevel == Some(High))
  {
    var hs := HighRiskOf(vs);
    FilterExact((v: ClauseView) => v.riskLevel == Some(High), vs);
    forall k | 0 <= k < |hs| ensures hs[k].riskLevel == Some(High) {
      assert hs[k] in hs;
    }
    assert Take(hs, limit) == hs[..|Take(hs, limit)|] by {
      if limit < 0 {
        assert Take(hs, limit) == PySlice(hs, 0, limit);
      }
    }
  }
}
