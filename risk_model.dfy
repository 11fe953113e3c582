/**
 * Risk assessment records (lexguard/models/risk.py). Scores are held in integer hundredths:
 * every score the rule-based scorer produces is a multiple of 0.05, so `35` stands for 0.35.
 */
module RiskModel {
  import opened Wrappers

  datatype RiskLevel = Low | Medium | High

  function LevelValue(level: RiskLevel): string
  {
    match level
    case Low => "low"
    case Medium => "medium"
    case High => "high"
  }

  /** Validation of the `Literal["low", "medium", "high"]` field: the string's level, if it is one. */
  function LevelFromValue(s: string): (r: Option<RiskLevel>)
    ensures r.Some? ==> LevelValue(r.value) == s
  {
    if s == "low" then Some(Low)
    else if s == "medium" then Some(Medium)
    else if s == "high" then Some(High)
    else None
  }

  /** Exactly the three strings low, medium and high are risk levels, each naming a different level. */
  lemma LevelValuesAreExactlyThree(s: string)
    ensures LevelFromValue(s).Some? <==> s in {"low", "medium", "high"}
    ensures forall l: RiskLevel :: LevelFromValue(LevelValue(l)) == Some(l)
  {
  }

  /** A validated `ClauseRisk`: 0 <= score <= 100 and a level are guaranteed by construction. */
  datatype ClauseRisk = ClauseRisk(
    clauseId: string,
    score: int,
    level: RiskLevel,
    reasons: seq<string>,
    recommendations: seq<string>)

  /**
   * `ClauseRisk(...)`: construction is rejected (None) when the score lies outside [0, 1] or no
   * level is given; reasons and recommendations default to empty lists.
   */
  function NewClauseRisk(
    clauseId: string,
    score: int,
    level: Option<RiskLevel>,
    reasons: seq<string> := [],
    recommendations: seq<string> := []): (r: Option<ClauseRisk>)
    ensures r.Some? <==> 0 <= score <= 100 && level.Some?
    ensures r.Some? ==> r.value.clauseId == clauseId && r.value.score == score && r.value.level == level.value
    ensures r.Some? ==> r.value.reasons == reasons && r.value.recommendations == recommendations
  {
    if 0 <= score <= 100 && level.Some? then
      Some(ClauseRisk(clauseId, score, level.value, reasons, recommendations))
    else None
  }

  /** Built with only an id, a score and a level, a risk has no reasons and no recommendations. */
  lemma NewClauseRiskDefaults(clauseId: string, score: int, level: RiskLevel)
    requires 0 <= score <= 100
    ensures NewClauseRisk(clauseId, score, Some(level)).Some?
    ensures NewClauseRisk(clauseId, score, Some(level)).value.reasons == []
    ensures NewClauseRisk(clauseId, score, Some(level)).value.recommendations == []
  {
  }
}
