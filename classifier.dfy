/**
 * Clause classification (lexguard/nlp/clause_classifier.py): keyword patterns per type, a
 * rule-based classifier that picks the type with most pattern matches, an optional model
 * refinement for ambiguous results, and a confidence measure.
 */
module Classifier {
  import opened Wrappers
  import opened TextUtil
  import opened Regex
  import opened ClauseModel

  /** Every keyword pattern is used case-insensitively. */
  function Rx(source: string): Pattern
  {
    Pattern(source, true, false)
  }

  /** The types that have keyword patterns, in table order. */
  const PatternedTypes: seq<ClauseType> := [Termination, Liability, Payment, Confidentiality, Ip, NonCompete]

  /** The keyword patterns of each type; MISC and UNSURE have none. */
  function PatternsFor(t: ClauseType): seq<string>
  {
    match t
    case Termination => [
      @"\btermination\b", @"\bterminate\b", @"\bexpir(?:e|ation)\b",
      @"\bend(?:ing)?\s+(?:of|this)\s+agreement\b", @"\bnotice\s+(?:of|to)\s+terminate\b",
      @"\bcancellation\b"]
    case Liability => [
      @"\bliability\b", @"\bliable\b", @"\bindemnif(?:y|ication)\b", @"\bhold\s+harmless\b",
      @"\bdamages\b", @"\blosses\b", @"\blimitation\s+of\s+liability\b", @"\bexculpation\b"]
    case Payment => [
      @"\bpayment\b", @"\bpay\b", @"\bcompensation\b", @"\bfee(?:s)?\b", @"\bsalary\b",
      @"\bwage(?:s)?\b", @"\bremuneration\b", @"\binvoice\b", @"\b\$\d+", @"\bamount\s+(?:of|due)\b"]
    case Confidentiality => [
      @"\bconfidential(?:ity)?\b", @"\bnon-disclosure\b", @"\bproprietary\s+information\b",
      @"\btrade\s+secret(?:s)?\b", @"\bdisclosure\b", @"\bsecrecy\b"]
    case Ip => [
      @"\bintellectual\s+property\b", @"\bcopyright(?:s)?\b", @"\bpatent(?:s)?\b",
      @"\btrademark(?:s)?\b", @"\bownership\s+of\s+work\b", @"\binvention(?:s)?\b",
      @"\bwork\s+product\b"]
    case NonCompete => [
      @"\bnon-compete\b", @"\bnon\s+compete\b", @"\bcompete\b", @"\brestrictive\s+covenant\b",
      @"\bnon-solicitation\b", @"\bsolicitation\b"]
    case Misc => []
    case Unsure => []
  }

  // ---------------------------------------------------------------- rule-based classification

  /** Total number of matches of the patterns `ps` in `lowered`. */
  function SumMatches(engine: Engine, ps: seq<string>, lowered: string): nat
  {
    if ps == [] then 0
    else SumMatches(engine, ps[..|ps| - 1], lowered) + CountMatches(engine, Rx(ps[|ps| - 1]), lowered)
  }

  /** The keyword score of type `t` for a clause. */
  function RuleScore(engine: Engine, text: string, t: ClauseType): nat
  {
    SumMatches(engine, PatternsFor(t), Lower(text))
  }

  /** The scores of all types, in declaration order. */
  function ScoreVector(engine: Engine, text: string): (v: seq<nat>)
    ensures |v| == |AllTypes|
    ensures forall i :: 0 <= i < |AllTypes| ==> v[i] == RuleScore(engine, text, AllTypes[i])
  {
    seq(|AllTypes|, i requires 0 <= i < |AllTypes| => RuleScore(engine, text, AllTypes[i]))
  }

  /** `max(...)` over a sequence: the index of the first greatest element. */
  function ArgMaxFirst(xs: seq<nat>): (i: nat)
    requires xs != []
    ensures i < |xs|
    ensures forall j :: 0 <= j < |xs| ==> xs[j] <= xs[i]
    ensures forall j :: 0 <= j < i ==> xs[j] < xs[i]
  {
    if |xs| == 1 then 0
    else
      var b := ArgMaxFirst(xs[..|xs| - 1]);
      if xs[|xs| - 1] > xs[b] then |xs| - 1 else b
  }

  /** The rule-based classification of a clause. */
  function RuleClassify(engine: Engine, text: string): (r: ClauseType)
    ensures r != Unsure
  {
    ScoreVectorAt(engine, text, Unsure);
    UnpatternedScoreZero(engine, text, Unsure);
    var v := ScoreVector(engine, text);
    var i := ArgMaxFirst(v);
    if v[i] == 0 then Misc else AllTypes[i]
  }

  /** Entry `Index(t)` of the score vector is the rule score of `t`. */
  lemma ScoreVectorAt(engine: Engine, text: string, t: ClauseType)
    ensures ScoreVector(engine, text)[Index(t)] == RuleScore(engine, text, t)
  {
  }

  lemma UnpatternedScoreZero(engine: Engine, text: string, t: ClauseType)
    requires t !in PatternedTypes
    ensures RuleScore(engine, text, t) == 0
  {
    assert t == Misc || t == Unsure;
  }

  /** The tally computed over the keyword table is the score vector. */
  lemma TallyIsScoreVector(engine: Engine, text: string, values: seq<nat>)
    requires |values| == |AllTypes|
    requires forall i :: 0 <= i < |AllTypes| ==> values[i] == SumMatches(engine, PatternsFor(AllTypes[i]), Lower(text))
    ensures values == ScoreVector(engine, text)
  {
  }

  /**
   * The rules answer MISC exactly when no pattern matches; otherwise they answer a type with the
   * highest score, the earliest in declaration order among those tied, and never UNSURE.
   */
  lemma RuleClassifyIsFirstBest(engine: Engine, text: string)
    ensures RuleClassify(engine, text) == Misc <==> forall t :: RuleScore(engine, text, t) == 0
    ensures RuleClassify(engine, text) != Unsure
    ensures var r := RuleClassify(engine, text);
      r != Misc ==>
        && RuleScore(engine, text, r) > 0
        && r in PatternedTypes
        && (forall t :: RuleScore(engine, text, t) <= RuleScore(engine, text, r))
        && (forall t :: Index(t) < Index(r) ==> RuleScore(engine, text, t) < RuleScore(engine, text, r))
  {
    var v := ScoreVector(engine, text);
    var i := ArgMaxFirst(v);
    var r := RuleClassify(engine, text);
    forall t ensures RuleScore(engine, text, t) <= v[i] {
      ScoreVectorAt(engine, text, t);
    }
    if v[i] != 0 {
      assert r == AllTypes[i];
      AllTypesInDeclarationOrder();
      assert Index(r) == i;
      ScoreVectorAt(engine, text, r);
      forall t | Index(t) < Index(r) ensures RuleScore(engine, text, t) < RuleScore(engine, text, r) {
        ScoreVectorAt(engine, text, t);
      }
      if r !in PatternedTypes {
        UnpatternedScoreZero(engine, text, r);
      }
    } else {
      assert r == Misc;
    }
  }

  /**
   * The score table of `_classify_with_rules`, the dictionary held as a sequence in declaration
   * order: every type starts at 0 and each type of `table` adds the matches of its patterns.
   */
  method TallyScores(engine: Engine, table: ClauseType -> seq<string>, lowered: string) returns (scores: seq<nat>)
    requires table(Misc) == [] && table(Unsure) == []
    ensures |scores| == |AllTypes|
    ensures forall i :: 0 <= i < |AllTypes| ==> scores[i] == SumMatches(engine, table(AllTypes[i]), lowered)
  {
    scores := seq(|AllTypes|, _ => 0);
    for k := 0 to |PatternedTypes|
      invariant |scores| == |AllTypes|
      invariant forall i :: 0 <= i < |AllTypes| ==> scores[i] == if i < k then SumMatches(engine, table(AllTypes[i]), lowered) else 0
    {
      var patterns := table(PatternedTypes[k]);
      assert PatternedTypes[k] == AllTypes[k];
      for j := 0 to |patterns|
        invariant |scores| == |AllTypes|
        invariant scores[k] == SumMatches(engine, patterns[..j], lowered)
        invariant forall i :: 0 <= i < |AllTypes| && i != k ==> scores[i] == if i < k then SumMatches(engine, table(AllTypes[i]), lowered) else 0
      {
        assert patterns[..j + 1][..j] == patterns[..j];
        var matches := CountMatches(engine, Rx(patterns[j]), lowered);
        scores := scores[k := scores[k] + matches];
      }
      assert patterns[..|patterns|] == patterns;
    }
  }

  /** Appending one element: the first maximum moves to it only when it is strictly greater. */
  lemma ArgMaxFirstExtend(xs: seq<nat>, k: nat)
    requires 0 < k < |xs|
    ensures ArgMaxFirst(xs[..k + 1]) == if xs[k] > xs[ArgMaxFirst(xs[..k])] then k else ArgMaxFirst(xs[..k])
  {
    assert xs[..k + 1][..k] == xs[..k];
  }

  /** `max(scores.values())`: the value at the first maximum. */
  method MaxValue(values: seq<nat>) returns (maxScore: nat)
    requires |values| > 0
    ensures maxScore == values[ArgMaxFirst(values)]
  {
    maxScore := values[0];
    for k := 1 to |values|
      invariant maxScore == values[ArgMaxFirst(values[..k])]
    {
      ArgMaxFirstExtend(values, k);
      if values[k] > maxScore {
        maxScore := values[k];
      }
    }
    assert values[..|values|] == values;
  }

  /** `max(scores.items(), key=...)`: the first entry with the greatest score. */
  method FirstMaxIndex(values: seq<nat>) returns (bestIndex: nat)
    requires |values| > 0
    ensures bestIndex == ArgMaxFirst(values)
  {
    bestIndex := 0;
    for k := 1 to |values|
      invariant bestIndex == ArgMaxFirst(values[..k])
    {
      ArgMaxFirstExtend(values, k);
      if values[k] > values[bestIndex] {
        bestIndex := k;
      }
    }
    assert values[..|values|] == values;
  }

  /** `_classify_with_rules`. */
  method ClassifyWithRules(engine: Engine, text: string) returns (best: ClauseType)
    ensures best == RuleClassify(engine, text)
  {
    var values := TallyScores(engine, PatternsFor, Lower(text));
    TallyIsScoreVector(engine, text, values);
    var maxScore := MaxValue(values);
    if maxScore == 0 {
      return Misc;
    }
    var bestIndex := FirstMaxIndex(values);
    best := AllTypes[bestIndex];
  }

  // ---------------------------------------------------------------- model refinement

  /** The first type, from position `k` of declaration order on, whose value occurs in `lowered`. */
  function FirstLabelFrom(lowered: string, k: nat): (r: Option<ClauseType>)
    requires k <= |AllTypes|
    ensures r.Some? ==> k <= Index(r.value) && Contains(lowered, Value(r.value))
    ensures r.Some? ==> forall j :: k <= j < Index(r.value) ==> !Contains(lowered, Value(AllTypes[j]))
    ensures r.None? ==> forall j :: k <= j < |AllTypes| ==> !Contains(lowered, Value(AllTypes[j]))
    decreases |AllTypes| - k
  {
    if k == |AllTypes| then None
    else if Contains(lowered, Value(AllTypes[k])) then Some(AllTypes[k])
    else FirstLabelFrom(lowered, k + 1)
  }

  /** The label parse of a model reply: the first type whose value occurs in it, else MISC. */
  function LabelFromReply(reply: string): (r: ClauseType)
    ensures r == Misc || Contains(Lower(reply), Value(r))
  {
    match FirstLabelFrom(Lower(reply), 0)
    case Some(t) => t
    case None => Misc
  }

  /**
   * The label parse returns a type whose value occurs in the lower-cased reply and that no earlier
   * type's value precedes in declaration order; when no value occurs at all, it returns MISC.
   */
  lemma LabelFromReplyIsFirstMentioned(reply: string)
    ensures var r := LabelFromReply(reply);
      (forall t :: Index(t) < Index(r) ==> !Contains(Lower(reply), Value(t)))
      && (Contains(Lower(reply), Value(r)) || (r == Misc && forall t :: !Contains(Lower(reply), Value(t))))
  {
    var r := LabelFromReply(reply);
    forall t | Index(t) < Index(r) ensures !Contains(Lower(reply), Value(t)) {
      assert AllTypes[Index(t)] == t;
    }
    if FirstLabelFrom(Lower(reply), 0).None? {
      forall t ensures !Contains(Lower(reply), Value(t)) {
        assert AllTypes[Index(t)] == t;
      }
    }
  }

  /** A string in which no two adjacent characters spell the first two of `sub` does not contain `sub`. */
  lemma NoOccurrenceWithoutLeadingPair(s: string, sub: string)
    requires |sub| >= 2
    requires forall i :: 0 <= i < |s| - 1 ==> !(s[i] == sub[0] && s[i + 1] == sub[1])
    ensures !Contains(s, sub)
  {
    forall i: nat | i <= |s| ensures !OccursAt(s, sub, i) {
      if i + |sub| <= |s| {
        assert s[i..i + |sub|][0] == s[i] && s[i..i + |sub|][1] == s[i + 1];
      }
    }
  }

  /**
   * The parse looks for the values as substrings, so a reply that merely contains the word
   * "relationship" is read as the IP type.
   */
  lemma RelationshipReadsAsIp()
    ensures LabelFromReply("relationship") == Ip
  {
    var s := "relationship";
    assert Lower(s) == s by {
      assert forall i :: 0 <= i < |s| ==> !IsUpperChar(s[i]);
    }
    assert OccursAt(s, "ip", 10);
    NoOccurrenceWithoutLeadingPair(s, "termination");
    NoOccurrenceWithoutLeadingPair(s, "liability");
    NoOccurrenceWithoutLeadingPair(s, "payment");
    NoOccurrenceWithoutLeadingPair(s, "confidentiality");
  }

  /**
   * `classify_clause`: the rule result, replaced by the model's label only when refinement is
   * requested and the rules were not sure. `reply` is the model's answer, None when the call failed.
   */
  function ClassifyClause(engine: Engine, text: string, useLlm: bool := false, reply: Option<string>): (r: ClauseType)
    ensures !useLlm || reply.None? ==> r == RuleClassify(engine, text)
  {
    var rule := RuleClassify(engine, text);
    if useLlm && (rule == Unsure || rule == Misc) then
      match reply
      case Some(answer) => LabelFromReply(answer)
      case None => rule
    else rule
  }

  /** Once a pattern matches, the model is never consulted, whatever it would answer. */
  lemma ModelOnlyRefinesUnmatchedClauses(engine: Engine, text: string, reply: Option<string>)
    requires exists t :: RuleScore(engine, text, t) > 0
    ensures ClassifyClause(engine, text, true, reply) == RuleClassify(engine, text)
    ensures ClassifyClause(engine, text, true, reply) != Misc
  {
    RuleClassifyIsFirstBest(engine, text);
  }

  /** With no pattern matched, a refinement yields the reply's label, or MISC when the call failed. */
  lemma UnmatchedClauseTakesModelLabel(engine: Engine, text: string, reply: Option<string>)
    requires forall t :: RuleScore(engine, text, t) == 0
    ensures ClassifyClause(engine, text, true, reply) == if reply.Some? then LabelFromReply(reply.value) else Misc
  {
    RuleClassifyIsFirstBest(engine, text);
  }

  // ---------------------------------------------------------------- confidence

  /** An exact fraction `num / den`. */
  datatype Ratio = Ratio(num: nat, den: nat)

  /** The number of patterns in `ps` that match `lowered` at least once. */
  function MatchedPatterns(engine: Engine, ps: seq<string>, lowered: string): (n: nat)
    ensures n <= |ps|
  {
    if ps == [] then 0
    else MatchedPatterns(engine, ps[..|ps| - 1], lowered) + if Found(engine, Rx(ps[|ps| - 1]), lowered) then 1 else 0
  }

  /** `get_classification_confidence`. */
  method ClassificationConfidence(engine: Engine, text: string, t: ClauseType) returns (c: Ratio)
    ensures c.den > 0 && c.num <= c.den
    ensures t !in PatternedTypes ==> c == Ratio(1, 2)
    ensures t in PatternedTypes ==>
      var n := MatchedPatterns(engine, PatternsFor(t), Lower(text));
      c == Ratio(if n < 3 then n else 3, 3)
  {
    if t !in PatternedTypes {
      return Ratio(1, 2);
    }
    var matchCount := CountMatchedPatterns(engine, PatternsFor(t), Lower(text));
    c := Ratio(if matchCount < 3 then matchCount else 3, 3);
  }

  /** The loop of `get_classification_confidence`: how many of the patterns match at least once. */
  method CountMatchedPatterns(engine: Engine, patterns: seq<string>, lowered: string) returns (matchCount: nat)
    ensures matchCount == MatchedPatterns(engine, patterns, lowered)
  {
    matchCount := 0;
    for j := 0 to |patterns|
      invariant matchCount == MatchedPatterns(engine, patterns[..j], lowered)
    {
      assert patterns[..j + 1][..j] == patterns[..j];
      if Found(engine, Rx(patterns[j]), lowered) {
        matchCount := matchCount + 1;
      }
    }
    assert patterns[..|patterns|] == patterns;
  }

  lemma {:induction false} MatchesImplyMatchedPattern(engine: Engine, ps: seq<string>, lowered: string)
    requires SumMatches(engine, ps, lowered) > 0
    ensures MatchedPatterns(engine, ps, lowered) > 0
  {
    var last := ps[|ps| - 1];
    if !Found(engine, Rx(last), lowered) {
      MatchesImplyMatchedPattern(engine, ps[..|ps| - 1], lowered);
    }
  }

  /** A type the rules assign has at least one matching pattern, hence a confidence of at least 1/3. */
  lemma RuleTypeHasPositiveConfidence(engine: Engine, text: string)
    requires RuleClassify(engine, text) != Misc
    ensures MatchedPatterns(engine, PatternsFor(RuleClassify(engine, text)), Lower(text)) >= 1
  {
    RuleClassifyIsFirstBest(engine, text);
    MatchesImplyMatchedPattern(engine, PatternsFor(RuleClassify(engine, text)), Lower(text));
  }
}
