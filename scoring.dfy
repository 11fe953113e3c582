/**
 * Rule-based risk scoring (lexguard/risk/scoring.py). A score is held in integer hundredths:
 * every base and every adjustment is a multiple of 0.05, so the sums are exact and none can fall
 * on the 0.33 / 0.66 level thresholds.
 */
module Scoring {
  import opened Wrappers
  import opened TextUtil
  import opened Regex
  import opened RiskModel
  import opened ClauseModel

  /** The scorer searches the lower-cased text without flags. */
  function Rx(source: string): Pattern
  {
    Pattern(source, false, false)
  }

  const UnlimitedPattern := Rx(@"\bunlimited\b")
  const IndemnifyPattern := Rx(@"\bindemnif(?:y|ication)\b")
  const HoldHarmlessPattern := Rx(@"\bhold\s+harmless\b")
  const LimitationPattern := Rx(@"\blimit(?:ed|ation)\b")
  const NoticePattern := Rx(@"(\d+)\s*(?:day|hour)")
  const ImmediatePattern := Rx(@"\bimmediate(?:ly)?\b")
  const WithoutCausePattern := Rx(@"\bwithout\s+cause\b")
  const DurationPattern := Rx(@"(\d+)\s*(?:year|month)")
  const GlobalPattern := Rx(@"\bglobal(?:ly)?\b|\bworldwide\b")
  const BroadAssignmentPattern := Rx(@"\ball\s+(?:work|invention|creation)")
  const PreExistingPattern := Rx(@"\bpre-existing\b")
  const NoPayPattern := Rx(@"\bno\s+(?:pay|compensation|salary)\b")
  const AtWillPattern := Rx(@"\bat\s+will\b")
  const IrrevocablePattern := Rx(@"\birrevocable\b")
  const PerpetualPattern := Rx(@"\bperpetual\b")
  const WaivePattern := Rx(@"\bwaive\b")

  // The reasons each rule records.
  const UnlimitedReason := "Contains 'unlimited' liability"
  const IndemnifyReason := "Includes indemnification obligations"
  const HoldHarmlessReason := "Contains hold harmless clause"
  const NoLimitationReason := "No liability limitation mentioned"
  const ImmediateReason := "Allows immediate termination"
  const WithoutCauseReason := "Allows termination without cause"
  const GlobalReason := "Global or worldwide scope"
  const BroadAssignmentReason := "Broad IP assignment clause"
  const NoPreExistingReason := "No mention of pre-existing IP"
  const NoPayReason := "Unpaid or volunteer position"
  const AtWillReason := "At-will payment terms"
  const IrrevocableReason := "Contains irrevocable terms"
  const PerpetualReason := "Perpetual/indefinite terms"
  const WaiveReason := "Contains rights waiver"

  function VeryShortNoticeReason(days: nat): string { "Very short notice period (" + NatToString(days) + " days)" }
  function ShortNoticeReason(days: nat): string { "Short notice period (" + NatToString(days) + " days)" }
  function VeryLongDurationReason(months: nat): string { "Very long non-compete duration (" + NatToString(months) + " months)" }
  function LongDurationReason(months: nat): string { "Long non-compete duration (" + NatToString(months) + " months)" }

  /** The base risk of each type (0.6 for liability down to 0.1 for misc). */
  function BaseScore(t: ClauseType): (base: nat)
    ensures 10 <= base <= 60
  {
    match t
    case Liability => 60
    case NonCompete => 50
    case Termination => 40
    case Ip => 40
    case Confidentiality => 30
    case Payment => 20
    case Misc => 10
    case Unsure => 20
  }

  /** `int(s)` for the digit runs that `(\d+)` captures; other strings do not arise. */
  function IntOf(s: string): nat
  {
    if forall i :: 0 <= i < |s| ==> IsDigit(s[i]) then DigitsValue(s) else 0
  }

  /** What one rule adds, in hundredths: every rule adds something. */
  type Delta = d: nat | d > 0 witness 5

  /** One fired rule: the amount it adds and the reason it records. */
  datatype Adjustment = Adjustment(delta: Delta, reason: string)

  function SumDeltas(adjs: seq<Adjustment>): nat
  {
    if adjs == [] then 0 else SumDeltas(adjs[..|adjs| - 1]) + adjs[|adjs| - 1].delta
  }

  function Reasons(adjs: seq<Adjustment>): (rs: seq<string>)
    ensures |rs| == |adjs|
  {
    if adjs == [] then [] else Reasons(adjs[..|adjs| - 1]) + [adjs[|adjs| - 1].reason]
  }

  lemma {:induction false} SumDeltasAppend(a: seq<Adjustment>, b: seq<Adjustment>)
    ensures SumDeltas(a + b) == SumDeltas(a) + SumDeltas(b)
    decreases |b|
  {
    if b != [] {
      assert (a + b)[..|a + b| - 1] == a + b[..|b| - 1];
      SumDeltasAppend(a, b[..|b| - 1]);
    } else {
      assert a + b == a;
    }
  }

  /** A rule that fires when its pattern is found. */
  function When(found: bool, delta: Delta, reason: string): seq<Adjustment>
  {
    if found then [Adjustment(delta, reason)] else []
  }

  function LiabilityAdjustments(engine: Engine, lowered: string): seq<Adjustment>
  {
    When(Found(engine, UnlimitedPattern, lowered), 20, UnlimitedReason)
    + When(Found(engine, IndemnifyPattern, lowered), 15, IndemnifyReason)
    + When(Found(engine, HoldHarmlessPattern, lowered), 10, HoldHarmlessReason)
    + When(!Found(engine, LimitationPattern, lowered), 10, NoLimitationReason)
  }

  /** The notice period: the number of the first "<N> day" or "<N> hour" match, hours read as days. */
  function NoticeAdjustment(engine: Engine, lowered: string): seq<Adjustment>
  {
    var ms := engine(NoticePattern, lowered);
    if ms == [] then []
    else
      var days := IntOf(Capture(ms[0], 1));
      if days < 7 then [Adjustment(25, VeryShortNoticeReason(days))]
      else if days < 30 then [Adjustment(10, ShortNoticeReason(days))]
      else []
  }

  function TerminationAdjustments(engine: Engine, lowered: string): seq<Adjustment>
  {
    NoticeAdjustment(engine, lowered)
    + When(Found(engine, ImmediatePattern, lowered), 20, ImmediateReason)
    + When(Found(engine, WithoutCausePattern, lowered), 15, WithoutCauseReason)
  }

  /** The duration in months: the first "<N> year|month" number, times 12 when "year" occurs anywhere. */
  function DurationMonths(value: nat, lowered: string): nat
  {
    if Contains(lowered, "year") then value * 12 else value
  }

  function DurationAdjustment(engine: Engine, lowered: string): seq<Adjustment>
  {
    var ms := engine(DurationPattern, lowered);
    if ms == [] then []
    else
      var months := DurationMonths(IntOf(Capture(ms[0], 1)), lowered);
      if months > 24 then [Adjustment(30, VeryLongDurationReason(months))]
      else if months > 12 then [Adjustment(15, LongDurationReason(months))]
      else []
  }

  function NonCompeteAdjustments(engine: Engine, lowered: string): seq<Adjustment>
  {
    DurationAdjustment(engine, lowered)
    + When(Found(engine, GlobalPattern, lowered), 20, GlobalReason)
  }

  function IpAdjustments(engine: Engine, lowered: string): seq<Adjustment>
  {
    When(Found(engine, BroadAssignmentPattern, lowered), 15, BroadAssignmentReason)
    + When(!Found(engine, PreExistingPattern, lowered), 10, NoPreExistingReason)
  }

  function PaymentAdjustments(engine: Engine, lowered: string): seq<Adjustment>
  {
    When(Found(engine, NoPayPattern, lowered), 40, NoPayReason)
    + When(Found(engine, AtWillPattern, lowered), 10, AtWillReason)
  }

  /** The type-specific rules; only one branch applies, and four types have none. */
  function TypeAdjustments(engine: Engine, t: ClauseType, lowered: string): seq<Adjustment>
  {
    match t
    case Liability => LiabilityAdjustments(engine, lowered)
    case Termination => TerminationAdjustments(engine, lowered)
    case NonCompete => NonCompeteAdjustments(engine, lowered)
    case Ip => IpAdjustments(engine, lowered)
    case Payment => PaymentAdjustments(engine, lowered)
    case _ => []
  }

  /** The red flags checked for every type. */
  function GeneralAdjustments(engine: Engine, lowered: string): seq<Adjustment>
  {
    When(Found(engine, IrrevocablePattern, lowered), 10, IrrevocableReason)
    + When(Found(engine, PerpetualPattern, lowered), 15, PerpetualReason)
    + When(Found(engine, WaivePattern, lowered), 10, WaiveReason)
  }

  /** All rules that fire for a clause, in the order they are checked. */
  function Adjustments(engine: Engine, t: ClauseType, text: string): seq<Adjustment>
  {
    var lowered := Lower(text);
    TypeAdjustments(engine, t, lowered) + GeneralAdjustments(engine, lowered)
  }

  function StandardReason(t: ClauseType): string
  {
    "Standard " + Value(t) + " clause"
  }

  /** `min(score, 1.0)`. */
  function Cap(score: nat): nat
  {
    if score < 100 then score else 100
  }

  /** The rule-based score of a clause of type `t` with text `text`. */
  function RiskScore(engine: Engine, t: ClauseType, text: string): (r: nat)
    ensures BaseScore(t) <= r <= 100
  {
    Cap(BaseScore(t) + SumDeltas(Adjustments(engine, t, text)))
  }

  /** The reasons recorded for it: one per fired rule, or the standard reason when none fired. */
  function RiskReasons(engine: Engine, t: ClauseType, text: string): (r: seq<string>)
    ensures |r| >= 1
  {
    var adjs := Adjustments(engine, t, text);
    if adjs == [] then [StandardReason(t)] else Reasons(adjs)
  }

  /** `score_to_level`: below 0.33 is low, below 0.66 medium, anything else high. */
  function ScoreToLevel(score: int): (r: RiskLevel)
    ensures r == Low <==> (score as real) / 100.0 < 0.33
    ensures r == High <==> (score as real) / 100.0 >= 0.66
  {
    if score < 33 then Low else if score < 66 then Medium else High
  }

  function Rank(level: RiskLevel): nat
  {
    match level
    case Low => 0
    case Medium => 1
    case High => 2
  }

  lemma {:induction false} ReasonsAppend(a: seq<Adjustment>, b: seq<Adjustment>)
    ensures Reasons(a + b) == Reasons(a) + Reasons(b)
    decreases |b|
  {
    if b != [] {
      assert (a + b)[..|a + b| - 1] == a + b[..|b| - 1];
      ReasonsAppend(a, b[..|b| - 1]);
    } else {
      assert a + b == a;
    }
  }

  /** `score` and `reasons` are `score0` and `reasons0` with the rules `adjs` applied in order. */
  ghost predicate Tracks(score: nat, reasons: seq<string>, score0: nat, reasons0: seq<string>, adjs: seq<Adjustment>)
  {
    score == score0 + SumDeltas(adjs) && reasons == reasons0 + Reasons(adjs)
  }

  /** Applying `a` and then `b` is applying `a + b`. */
  lemma Chain(score0: nat, reasons0: seq<string>, score1: nat, reasons1: seq<string>, score2: nat, reasons2: seq<string>,
              a: seq<Adjustment>, b: seq<Adjustment>)
    requires Tracks(score1, reasons1, score0, reasons0, a)
    requires Tracks(score2, reasons2, score1, reasons1, b)
    ensures Tracks(score2, reasons2, score0, reasons0, a + b)
  {
    SumDeltasAppend(a, b);
    ReasonsAppend(a, b);
  }

  /** One rule of `_calculate_risk_score`: `if found: score += delta; reasons.append(reason)`. */
  method Fire(found: bool, delta: Delta, reason: string, score0: nat, reasons0: seq<string>)
    returns (score: nat, reasons: seq<string>)
    ensures Tracks(score, reasons, score0, reasons0, When(found, delta, reason))
  {
    score, reasons := score0, reasons0;
    if found {
      score := score + delta;
      reasons := reasons + [reason];
    }
  }

  /** The liability branch of `_calculate_risk_score`. */
  method ApplyLiabilityRules(engine: Engine, lowered: string, score0: nat, reasons0: seq<string>)
    returns (score: nat, reasons: seq<string>)
    ensures Tracks(score, reasons, score0, reasons0, LiabilityAdjustments(engine, lowered))
  {
    ghost var w1 := When(Found(engine, UnlimitedPattern, lowered), 20, UnlimitedReason);
    ghost var w2 := When(Found(engine, IndemnifyPattern, lowered), 15, IndemnifyReason);
    ghost var w3 := When(Found(engine, HoldHarmlessPattern, lowered), 10, HoldHarmlessReason);
    ghost var w4 := When(!Found(engine, LimitationPattern, lowered), 10, NoLimitationReason);
    var s1, r1 := Fire(Found(engine, UnlimitedPattern, lowered), 20, UnlimitedReason, score0, reasons0);
    var s2, r2 := Fire(Found(engine, IndemnifyPattern, lowered), 15, IndemnifyReason, s1, r1);
    Chain(score0, reasons0, s1, r1, s2, r2, w1, w2);
    var s3, r3 := Fire(Found(engine, HoldHarmlessPattern, lowered), 10, HoldHarmlessReason, s2, r2);
    Chain(score0, reasons0, s2, r2, s3, r3, w1 + w2, w3);
    score, reasons := Fire(!Found(engine, LimitationPattern, lowered), 10, NoLimitationReason, s3, r3);
    Chain(score0, reasons0, s3, r3, score, reasons, w1 + w2 + w3, w4);
  }

  /** The notice-period rule: under 7 days adds 0.25, under 30 days adds 0.10. */
  method ApplyNoticeRule(engine: Engine, lowered: string, score0: nat, reasons0: seq<string>)
    returns (score: nat, reasons: seq<string>)
    ensures Tracks(score, reasons, score0, reasons0, NoticeAdjustment(engine, lowered))
  {
    score, reasons := score0, reasons0;
    var noticeMatches := engine(NoticePattern, lowered);
    if noticeMatches != [] {
      var days := IntOf(Capture(noticeMatches[0], 1));
      if days < 7 {
        score := score + 25;
        reasons := reasons + [VeryShortNoticeReason(days)];
      } else if days < 30 {
        score := score + 10;
        reasons := reasons + [ShortNoticeReason(days)];
      }
    }
  }

  /** The termination branch of `_calculate_risk_score`. */
  method ApplyTerminationRules(engine: Engine, lowered: string, score0: nat, reasons0: seq<string>)
    returns (score: nat, reasons: seq<string>)
    ensures Tracks(score, reasons, score0, reasons0, TerminationAdjustments(engine, lowered))
  {
    ghost var w1 := NoticeAdjustment(engine, lowered);
    ghost var w2 := When(Found(engine, ImmediatePattern, lowered), 20, ImmediateReason);
    ghost var w3 := When(Found(engine, WithoutCausePattern, lowered), 15, WithoutCauseReason);
    var s1, r1 := ApplyNoticeRule(engine, lowered, score0, reasons0);
    var s2, r2 := Fire(Found(engine, ImmediatePattern, lowered), 20, ImmediateReason, s1, r1);
    Chain(score0, reasons0, s1, r1, s2, r2, w1, w2);
    score, reasons := Fire(Found(engine, WithoutCausePattern, lowered), 15, WithoutCauseReason, s2, r2);
    Chain(score0, reasons0, s2, r2, score, reasons, w1 + w2, w3);
  }

  /** The duration rule: over 24 months adds 0.30, over 12 months adds 0.15. */
  method ApplyDurationRule(engine: Engine, lowered: string, score0: nat, reasons0: seq<string>)
    returns (score: nat, reasons: seq<string>)
    ensures Tracks(score, reasons, score0, reasons0, DurationAdjustment(engine, lowered))
  {
    score, reasons := score0, reasons0;
    var durationMatches := engine(DurationPattern, lowered);
    if durationMatches != [] {
      var value := IntOf(Capture(durationMatches[0], 1));
      var months := if Contains(lowered, "year") then value * 12 else value;
      if months > 24 {
        score := score + 30;
        reasons := reasons + [VeryLongDurationReason(months)];
      } else if months > 12 {
        score := score + 15;
        reasons := reasons + [LongDurationReason(months)];
      }
    }
  }

  /** The non-compete branch of `_calculate_risk_score`. */
  method ApplyNonCompeteRules(engine: Engine, lowered: string, score0: nat, reasons0: seq<string>)
    returns (score: nat, reasons: seq<string>)
    ensures Tracks(score, reasons, score0, reasons0, NonCompeteAdjustments(engine, lowered))
  {
    ghost var w1 := DurationAdjustment(engine, lowered);
    ghost var w2 := When(Found(engine, GlobalPattern, lowered), 20, GlobalReason);
    var s1, r1 := ApplyDurationRule(engine, lowered, score0, reasons0);
    score, reasons := Fire(Found(engine, GlobalPattern, lowered), 20, GlobalReason, s1, r1);
    Chain(score0, reasons0, s1, r1, score, reasons, w1, w2);
  }

  /** The IP branch of `_calculate_risk_score`. */
  method ApplyIpRules(engine: Engine, lowered: string, score0: nat, reasons0: seq<string>)
    returns (score: nat, reasons: seq<string>)
    ensures Tracks(score, reasons, score0, reasons0, IpAdjustments(engine, lowered))
  {
    ghost var w1 := When(Found(engine, BroadAssignmentPattern, lowered), 15, BroadAssignmentReason);
    ghost var w2 := When(!Found(engine, PreExistingPattern, lowered), 10, NoPreExistingReason);
    var s1, r1 := Fire(Found(engine, BroadAssignmentPattern, lowered), 15, BroadAssignmentReason, score0, reasons0);
    score, reasons := Fire(!Found(engine, PreExistingPattern, lowered), 10, NoPreExistingReason, s1, r1);
    Chain(score0, reasons0, s1, r1, score, reasons, w1, w2);
  }

  /** The payment branch of `_calculate_risk_score`. */
  method ApplyPaymentRules(engine: Engine, lowered: string, score0: nat, reasons0: seq<string>)
    returns (score: nat, reasons: seq<string>)
    ensures Tracks(score, reasons, score0, reasons0, PaymentAdjustments(engine, lowered))
  {
    ghost var w1 := When(Found(engine, NoPayPattern, lowered), 40, NoPayReason);
    ghost var w2 := When(Found(engine, AtWillPattern, lowered), 10, AtWillReason);
    var s1, r1 := Fire(Found(engine, NoPayPattern, lowered), 40, NoPayReason, score0, reasons0);
    score, reasons := Fire(Found(engine, AtWillPattern, lowered), 10, AtWillReason, s1, r1);
    Chain(score0, reasons0, s1, r1, score, reasons, w1, w2);
  }

  /** The red flags of `_calculate_risk_score`, checked for every type. */
  method ApplyGeneralRules(engine: Engine, lowered: string, score0: nat, reasons0: seq<string>)
    returns (score: nat, reasons: seq<string>)
    ensures Tracks(score, reasons, score0, reasons0, GeneralAdjustments(engine, lowered))
  {
    ghost var w1 := When(Found(engine, IrrevocablePattern, lowered), 10, IrrevocableReason);
    ghost var w2 := When(Found(engine, PerpetualPattern, lowered), 15, PerpetualReason);
    ghost var w3 := When(Found(engine, WaivePattern, lowered), 10, WaiveReason);
    var s1, r1 := Fire(Found(engine, IrrevocablePattern, lowered), 10, IrrevocableReason, score0, reasons0);
    var s2, r2 := Fire(Found(engine, PerpetualPattern, lowered), 15, PerpetualReason, s1, r1);
    Chain(score0, reasons0, s1, r1, s2, r2, w1, w2);
    score, reasons := Fire(Found(engine, WaivePattern, lowered), 10, WaiveReason, s2, r2);
    Chain(score0, reasons0, s2, r2, score, reasons, w1 + w2, w3);
  }

  /** The type-specific branch of `_calculate_risk_score`: at most one of the five applies. */
  method ApplyTypeRules(engine: Engine, t: ClauseType, lowered: string, score0: nat)
    returns (score: nat, reasons: seq<string>)
    ensures Tracks(score, reasons, score0, [], TypeAdjustments(engine, t, lowered))
  {
    score, reasons := score0, [];
    if t == Liability {
      score, reasons := ApplyLiabilityRules(engine, lowered, score0, []);
    } else if t == Termination {
      score, reasons := ApplyTerminationRules(engine, lowered, score0, []);
    } else if t == NonCompete {
      score, reasons := ApplyNonCompeteRules(engine, lowered, score0, []);
    } else if t == Ip {
      score, reasons := ApplyIpRules(engine, lowered, score0, []);
    } else if t == Payment {
      score, reasons := ApplyPaymentRules(engine, lowered, score0, []);
    }
  }

  /** `_calculate_risk_score`: the base plus every fired adjustment, capped, with its reasons. */
  method CalculateRiskScore(t: ClauseType, text: string, engine: Engine) returns (score: nat, reasons: seq<string>)
    ensures score == RiskScore(engine, t, text) && reasons == RiskReasons(engine, t, text)
  {
    score, reasons := ApplyAllRules(t, text, engine);
    // Cap score at 1.0
    score := if score < 100 then score else 100;
    if reasons == [] {
      reasons := [StandardReason(t)];
    }
  }

  /** The rules of `_calculate_risk_score` in order: the type's rules, then the general ones. */
  method ApplyAllRules(t: ClauseType, text: string, engine: Engine) returns (score: nat, reasons: seq<string>)
    ensures Tracks(score, reasons, BaseScore(t), [], Adjustments(engine, t, text))
  {
    var lowered := Lower(text);
    var base := BaseScore(t);
    var typeScore, typeReasons := ApplyTypeRules(engine, t, lowered, base);
    score, reasons := ApplyGeneralRules(engine, lowered, typeScore, typeReasons);
    ghost var typeAdjs, generalAdjs := TypeAdjustments(engine, t, lowered), GeneralAdjustments(engine, lowered);
    Chain(base, [], typeScore, typeReasons, score, reasons, typeAdjs, generalAdjs);
    assert typeAdjs + generalAdjs == Adjustments(engine, t, text);
  }

  /**
   * `calculate_clause_risk` with the rule-based score: stores the score and its level on the clause
   * and returns the assessment, with recommendations left for the negotiation step.
   */
  method CalculateClauseRisk(clause: Clause, engine: Engine) returns (risk: ClauseRisk)
    modifies clause
    ensures var score := RiskScore(engine, old(clause.clauseType), old(clause.text));
      && clause.riskScore == Some(score)
      && clause.riskLevel == Some(ScoreToLevel(score))
      && NewClauseRisk(old(clause.id), score, Some(ScoreToLevel(score)),
                       RiskReasons(engine, old(clause.clauseType), old(clause.text)), []) == Some(risk)
    ensures clause.Valid()
    ensures clause.id == old(clause.id) && clause.contractId == old(clause.contractId)
    ensures clause.index == old(clause.index) && clause.text == old(clause.text)
    ensures clause.clauseType == old(clause.clauseType)
    ensures clause.startChar == old(clause.startChar) && clause.endChar == old(clause.endChar)
    ensures clause.embeddingId == old(clause.embeddingId)
  {
    var score, reasons := CalculateRiskScore(clause.clauseType, clause.text, engine);
    RiskScoreBounds(engine, clause.clauseType, clause.text);
    var level := ScoreToLevel(score);
    clause.riskScore := Some(score);
    clause.riskLevel := Some(level);
    risk := ClauseRisk(clause.id, score, level, reasons, []);
  }

  // ---------------------------------------------------------------- properties

  /** Every fired rule contributes its whole delta to the sum. */
  lemma {:induction false} FiredRuleCounts(adjs: seq<Adjustment>, k: nat)
    requires k < |adjs|
    ensures SumDeltas(adjs) >= adjs[k].delta
    decreases |adjs|
  {
    if k < |adjs| - 1 {
      FiredRuleCounts(adjs[..|adjs| - 1], k);
    }
  }

  /** The score never drops below the type's base and never exceeds 1.0. */
  lemma RiskScoreBounds(engine: Engine, t: ClauseType, text: string)
    ensures 10 <= BaseScore(t) <= RiskScore(engine, t, text) <= 100
  {
  }

  /**
   * No rule fired exactly when the score is the type's base, and then the only reason is the
   * standard one; otherwise there is one reason per fired rule.
   */
  lemma StandardReasonIffBaseScore(engine: Engine, t: ClauseType, text: string)
    ensures Adjustments(engine, t, text) == [] <==> RiskScore(engine, t, text) == BaseScore(t)
    ensures Adjustments(engine, t, text) == [] ==> RiskReasons(engine, t, text) == [StandardReason(t)]
    ensures |RiskReasons(engine, t, text)| == if Adjustments(engine, t, text) == [] then 1 else |Adjustments(engine, t, text)|
  {
    var adjs := Adjustments(engine, t, text);
    if adjs != [] {
      FiredRuleCounts(adjs, 0);
    }
  }

  /** The k-th reason is the reason of the k-th fired rule. */
  lemma {:induction false} ReasonsAt(adjs: seq<Adjustment>, k: nat)
    requires k < |adjs|
    ensures Reasons(adjs)[k] == adjs[k].reason
    decreases |adjs|
  {
    if k < |adjs| - 1 {
      ReasonsAt(adjs[..|adjs| - 1], k);
    }
  }

  /** Rules fired later only add to what the earlier ones scored. */
  lemma SumDeltasOfPrefix(a: seq<Adjustment>, b: seq<Adjustment>)
    ensures SumDeltas(a + b) >= SumDeltas(a)
  {
    SumDeltasAppend(a, b);
  }

  /** Levels only rise with the score. */
  lemma ScoreToLevelMonotone(a: int, b: int)
    requires a <= b
    ensures Rank(ScoreToLevel(a)) <= Rank(ScoreToLevel(b))
  {
  }

  /** An uncapped liability clause with "unlimited" liability and an indemnity scores at least 0.95: high risk. */
  lemma UnlimitedIndemnityIsHighRisk(engine: Engine, text: string)
    requires Found(engine, UnlimitedPattern, Lower(text)) && Found(engine, IndemnifyPattern, Lower(text))
    ensures RiskScore(engine, Liability, text) >= 95
    ensures ScoreToLevel(RiskScore(engine, Liability, text)) == High
  {
    var lowered := Lower(text);
    var first := [Adjustment(20, UnlimitedReason), Adjustment(15, IndemnifyReason)];
    var liability := LiabilityAdjustments(engine, lowered);
    var rest3 := When(Found(engine, HoldHarmlessPattern, lowered), 10, HoldHarmlessReason);
    var rest4 := When(!Found(engine, LimitationPattern, lowered), 10, NoLimitationReason);
    assert liability == first + rest3 + rest4;
    SumDeltasOfPrefix(first + rest3, rest4);
    SumDeltasOfPrefix(first, rest3);
    SumDeltasOfPrefix(liability, GeneralAdjustments(engine, lowered));
  }

  /** A termination clause allowing immediate termination without cause scores at least 0.75, citing the first. */
  lemma ImmediateTerminationWithoutCause(engine: Engine, text: string)
    requires Found(engine, ImmediatePattern, Lower(text)) && Found(engine, WithoutCausePattern, Lower(text))
    ensures RiskScore(engine, Termination, text) >= 75
    ensures ImmediateReason in RiskReasons(engine, Termination, text)
  {
    var lowered := Lower(text);
    var notice := NoticeAdjustment(engine, lowered);
    var fired := [Adjustment(20, ImmediateReason), Adjustment(15, WithoutCauseReason)];
    var termination := TerminationAdjustments(engine, lowered);
    var adjs := Adjustments(engine, Termination, text);
    assert termination == notice + fired;
    SumDeltasAppend(notice, fired);
    SumDeltasOfPrefix(termination, GeneralAdjustments(engine, lowered));
    assert adjs[|notice|] == Adjustment(20, ImmediateReason);
    ReasonsAt(adjs, |notice|);
  }

  /** A non-compete running 3 years with a worldwide scope reaches the 1.0 cap. */
  lemma ThreeYearGlobalNonCompeteIsCapped(engine: Engine, text: string)
    requires engine(DurationPattern, Lower(text)) != []
    requires Capture(engine(DurationPattern, Lower(text))[0], 1) == "3"
    requires Contains(Lower(text), "year")
    requires Found(engine, GlobalPattern, Lower(text))
    ensures RiskScore(engine, NonCompete, text) == 100
  {
    var lowered := Lower(text);
    assert IntOf("3") == 3;
    var fired := [Adjustment(30, VeryLongDurationReason(36)), Adjustment(20, GlobalReason)];
    assert NonCompeteAdjustments(engine, lowered) == fired;
    SumDeltasOfPrefix(fired, GeneralAdjustments(engine, lowered));
  }

  /** A miscellaneous clause with no red flag keeps its 0.1 base: low risk, with the standard reason. */
  lemma PlainMiscClauseIsLowRisk(engine: Engine, text: string)
    requires !Found(engine, IrrevocablePattern, Lower(text))
    requires !Found(engine, PerpetualPattern, Lower(text))
    requires !Found(engine, WaivePattern, Lower(text))
    ensures RiskScore(engine, Misc, text) == 10
    ensures ScoreToLevel(RiskScore(engine, Misc, text)) == Low
    ensures RiskReasons(engine, Misc, text) == ["Standard misc clause"]
  {
    assert Adjustments(engine, Misc, text) == [];
    assert Value(Misc) == "misc";
    assert StandardReason(Misc) == "Standard misc clause";
  }

  /** An unpaid position scores at least 0.6 and says so. */
  lemma UnpaidPositionIsRisky(engine: Engine, text: string)
    requires Found(engine, NoPayPattern, Lower(text))
    ensures RiskScore(engine, Payment, text) >= 60
    ensures NoPayReason in RiskReasons(engine, Payment, text)
  {
    var lowered := Lower(text);
    var adjs := Adjustments(engine, Payment, text);
    var payment := PaymentAdjustments(engine, lowered);
    var rest := When(Found(engine, AtWillPattern, lowered), 10, AtWillReason);
    assert payment == [Adjustment(40, NoPayReason)] + rest;
    SumDeltasOfPrefix([Adjustment(40, NoPayReason)], rest);
    SumDeltasOfPrefix(payment, GeneralAdjustments(engine, lowered));
    assert adjs[0] == Adjustment(40, NoPayReason);
    ReasonsAt(adjs, 0);
  }
}
