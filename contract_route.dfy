/*
 * Two contract endpoints. The risk summary walks the clauses of a freshly loaded copy of a stored
 * contract, scores the unscored ones in place, rebuilds a risk entry for the scored ones and counts the levels; the
 * clause analysis finds the first clause with a given id and replaces its text, type and score.
 * The store is a map from contract id to contract whose clauses are objects; saving it to disk
 * is not part of this model.
 */
module ContractRoute {
  import opened Wrappers
  import opened TextUtil
  import opened Regex
  import opened Http
  import opened RiskModel
  import opened ClauseModel
  import opened ContractModel
  import opened Classifier
  import opened Scoring
  import Negotiation

  /** The body of the risk summary. */
  datatype RiskSummary = RiskSummary(
    contractId: string,
    totalClauses: nat,
    highCount: nat,
    mediumCount: nat,
    lowCount: nat,
    clauseRisks: seq<ClauseRisk>)

  const ContractNotFound := "Contract not found"
  const ClauseNotFound := "Clause not found"
  const RiskErrorDetail := "Error calculating risk"

  /** The clause objects of a stored contract: what the two endpoints may change. */
  function ClauseObjects(store: Store, contractId: string): set<Clause>
  {
    if contractId in store then set c | c in store[contractId].clauses else {}
  }

  // ---------------------------------------------------------------- risk summary

  /** A clause that is scored gets its risk rebuilt from the stored fields; validation needs a level and a score in [0, 1]. */
  predicate Unbuildable(s: ClauseState)
  {
    s.riskScore.Some? && !(0 <= s.riskScore.value <= 100 && s.riskLevel.Some?)
  }

  /** The clause after the summary visited it: an unscored clause is scored by the rules, a scored one is left as it is. */
  function Scored(engine: Engine, s: ClauseState): (r: ClauseState)
    ensures r.riskScore.Some? && r.id == s.id && r.text == s.text && r.clauseType == s.clauseType
    ensures s.riskScore.Some? ==> r == s
  {
    if s.riskScore.None? then
      var score := RiskScore(engine, s.clauseType, s.text);
      s.(riskScore := Some(score), riskLevel := Some(ScoreToLevel(score)))
    else s
  }

  /** The clauses after the walk visited them all. */
  function Visited(engine: Engine, ss: seq<ClauseState>): (r: seq<ClauseState>)
    ensures |r| == |ss|
  {
    Map((s: ClauseState) => Scored(engine, s), ss)
  }

  /**
   * The risk entry of one clause: a fresh rule-based assessment for an unscored clause, the stored
   * score and level with no reasons for a scored one (None when validation rejects them); a medium
   * or high entry gets the rule suggestions for the clause type.
   */
  function RiskOf(engine: Engine, s: ClauseState): (r: Option<ClauseRisk>)
    ensures r.Some? ==> r.value.clauseId == s.id
  {
    var base :=
      if s.riskScore.None? then
        var score := RiskScore(engine, s.clauseType, s.text);
        NewClauseRisk(s.id, score, Some(ScoreToLevel(score)), RiskReasons(engine, s.clauseType, s.text), [])
      else NewClauseRisk(s.id, s.riskScore.value, s.riskLevel, [], []);
    match base
    case None => None
    case Some(r) =>
      if r.level == High || r.level == Medium then Some(r.(recommendations := Negotiation.RuleSuggestions(s.clauseType)))
      else Some(r)
  }

  /** The entries of the clauses, in order. */
  function Entries(engine: Engine, ss: seq<ClauseState>): (r: seq<Option<ClauseRisk>>)
    ensures |r| == |ss|
  {
    Map((s: ClauseState) => RiskOf(engine, s), ss)
  }

  /** How many entries have level `l`. */
  function CountLevel(rs: seq<ClauseRisk>, l: RiskLevel): nat
  {
    if rs == [] then 0
    else CountLevel(rs[..|rs| - 1], l) + (if rs[|rs| - 1].level == l then 1 else 0)
  }

  /** The answer of `get_contract_risk` for the clauses of a stored contract. */
  function RiskResponse(contractId: string, ss: seq<ClauseState>, engine: Engine): (r: Response<RiskSummary>)
    ensures r.Error? ==> r == Error(500, RiskErrorDetail)
    ensures r.Ok? ==> r.body.contractId == contractId && r.body.totalClauses == |ss| == |r.body.clauseRisks|
  {
    match AllSome(Entries(engine, ss))
    case None => Error(500, RiskErrorDetail)
    case Some(rs) =>
      Ok(RiskSummary(contractId, |ss|, CountLevel(rs, High), CountLevel(rs, Medium), CountLevel(rs, Low), rs))
  }

  /** Where the walk stops: the first clause whose stored risk cannot be rebuilt, or the end. */
  function FirstUnbuildable(ss: seq<ClauseState>): (n: nat)
    ensures n <= |ss|
    ensures forall k :: 0 <= k < n ==> !Unbuildable(ss[k])
    ensures n < |ss| ==> Unbuildable(ss[n])
  {
    if ss == [] then 0
    else if Unbuildable(ss[0]) then 0
    else 1 + FirstUnbuildable(ss[1..])
  }

  /** The walk stops at the first clause that fails validation. */
  lemma FirstUnbuildableAt(ss: seq<ClauseState>, i: nat)
    requires i <= |ss|
    requires forall k :: 0 <= k < i ==> !Unbuildable(ss[k])
    requires i < |ss| ==> Unbuildable(ss[i])
    ensures FirstUnbuildable(ss) == i
  {
  }

  /** Exactly the clauses whose stored risk fails validation have no entry. */
  lemma RiskOfNoneIff(engine: Engine, s: ClauseState)
    ensures RiskOf(engine, s).None? <==> Unbuildable(s)
  {
    if s.riskScore.None? {
      RiskScoreBounds(engine, s.clauseType, s.text);
    }
  }

  /** One turn of the loop: the entry of one clause, scoring it first when it has no score. */
  method ClauseEntry(clause: Clause, engine: Engine) returns (entry: Option<ClauseRisk>)
    modifies clause
    ensures entry == RiskOf(engine, old(clause.State()))
    ensures clause.State() == Scored(engine, old(clause.State()))
  {
    var base: Option<ClauseRisk>;
    if clause.riskScore == None {
      var risk := CalculateClauseRisk(clause, engine);
      base := Some(risk);
    } else {
      base := NewClauseRisk(clause.id, clause.riskScore.value, clause.riskLevel, [], []);
    }
    if base.None? {
      return None;
    }
    var risk := base.value;
    if risk.level == High || risk.level == Medium {
      Negotiation.RulesOnlyGivesTypeList(clause.clauseType, clause.riskLevel, false, None);
      var suggestions := Negotiation.SuggestNegotiationPoints(clause, false, None);
      risk := risk.(recommendations := suggestions.value);
    }
    entry := Some(risk);
  }

  /**
   * One turn of the loop as the summary sees it: the first `i` clauses are visited and their
   * entries collected and counted; clause `i` is visited, and its entry, when it has one, is
   * collected and counted too.
   */
  method WalkStep(
    cs: seq<Clause>, i: nat, engine: Engine,
    ghost ss: seq<ClauseState>, ghost entries: seq<Option<ClauseRisk>>, ghost visited: seq<ClauseState>,
    risks: seq<ClauseRisk>, high: nat, medium: nat, low: nat)
    returns (entry: Option<ClauseRisk>, risks': seq<ClauseRisk>, high': nat, medium': nat, low': nat)
    requires i < |cs| == |ss| && Separate(cs)
    requires entries == Entries(engine, ss) && visited == Visited(engine, ss)
    requires forall k :: 0 <= k < i ==> !Unbuildable(ss[k]) && cs[k].State() == visited[k]
    requires forall k :: i <= k < |cs| ==> cs[k].State() == ss[k]
    requires |risks| == i && forall k :: 0 <= k < i ==> entries[k] == Some(risks[k])
    requires high == CountLevel(risks, High) && medium == CountLevel(risks, Medium) && low == CountLevel(risks, Low)
    modifies cs[i]
    ensures entry == entries[i]
    ensures entry.None? <==> Unbuildable(ss[i])
    ensures forall k :: 0 <= k < i ==> !Unbuildable(ss[k]) && cs[k].State() == visited[k]
    ensures forall k :: i <= k < |cs| ==> cs[k].State() == if k == i then visited[k] else ss[k]
    ensures entry.None? ==> visited[i] == ss[i]
    ensures entry.Some? ==> |risks'| == i + 1 && forall k :: 0 <= k <= i ==> entries[k] == Some(risks'[k])
    ensures entry.Some? ==>
      high' == CountLevel(risks', High) && medium' == CountLevel(risks', Medium) && low' == CountLevel(risks', Low)
  {
    risks', high', medium', low' := risks, high, medium, low;
    entry := ClauseEntryAt(cs, i, engine, ss, entries, visited);
    if entry.None? {
      return;
    }
    var risk := entry.value;
    assert (risks + [risk])[..|risks|] == risks;
    risks' := risks + [risk];
    if risk.level == High {
      high' := high + 1;
    } else if risk.level == Medium {
      medium' := medium + 1;
    } else {
      low' := low + 1;
    }
  }

  /** Clause `i` visited: its entry, and the clause as the walk leaves it. */
  method ClauseEntryAt(
    cs: seq<Clause>, i: nat, engine: Engine,
    ghost ss: seq<ClauseState>, ghost entries: seq<Option<ClauseRisk>>, ghost visited: seq<ClauseState>)
    returns (entry: Option<ClauseRisk>)
    requires i < |cs| == |ss| && cs[i].State() == ss[i]
    requires entries == Entries(engine, ss) && visited == Visited(engine, ss)
    modifies cs[i]
    ensures entry == entries[i]
    ensures entry.None? <==> Unbuildable(ss[i])
    ensures cs[i].State() == visited[i]
    ensures entry.None? ==> visited[i] == ss[i]
  {
    entry := ClauseEntry(cs[i], engine);
    EntryStep(engine, ss, entries, i);
    VisitedStep(engine, ss, visited, i);
  }

  /** The entry of clause `i`, and whether there is one. */
  lemma EntryStep(engine: Engine, ss: seq<ClauseState>, entries: seq<Option<ClauseRisk>>, i: nat)
    requires i < |ss| && entries == Entries(engine, ss)
    ensures entries[i] == RiskOf(engine, ss[i])
    ensures entries[i].None? <==> Unbuildable(ss[i])
  {
    RiskOfNoneIff(engine, ss[i]);
  }

  /** Clause `i` visited; a clause that fails validation is left as it is. */
  lemma VisitedStep(engine: Engine, ss: seq<ClauseState>, visited: seq<ClauseState>, i: nat)
    requires i < |ss| && visited == Visited(engine, ss)
    ensures visited[i] == Scored(engine, ss[i])
    ensures Unbuildable(ss[i]) ==> visited[i] == ss[i]
  {
  }

  /**
   * `get_contract_risk(contract_id)`. The walk scores the unscored clauses of the loaded copy,
   * which is never saved: the method changes no object it did not allocate, so the stored
   * contract is left as it was.
   */
  method GetContractRisk(store: Store, contractId: string, engine: Engine) returns (r: Response<RiskSummary>)
    ensures contractId !in store ==> r == Error(404, ContractNotFound)
    ensures contractId in store ==> r == RiskResponse(contractId, old(States(store[contractId].clauses)), engine)
    ensures contractId in store ==> forall c | c in store[contractId].clauses :: unchanged(c)
  {
    var found := LoadCopy(store, contractId);
    if found.None? {
      return Error(404, ContractNotFound);
    }
    var cs := found.value.clauses;
    ghost var saved := store[contractId].clauses;
    assert forall c | c in saved :: c !in cs;
    r := RiskWalk(contractId, cs, engine);
  }

  /**
   * The loop of `get_contract_risk` over the loaded clauses: the answer, with the clauses before
   * the stop scored and the rest as they were.
   */
  method RiskWalk(contractId: string, cs: seq<Clause>, engine: Engine) returns (r: Response<RiskSummary>)
    requires Separate(cs)
    modifies set c | c in cs
    ensures
      var ss := old(States(cs));
      var n := FirstUnbuildable(ss);
      r == RiskResponse(contractId, ss, engine) && States(cs) == Visited(engine, ss)[..n] + ss[n..]
  {
    ghost var ss := States(cs);
    ghost var entries := Entries(engine, ss);
    ghost var visited := Visited(engine, ss);
    var risks: seq<ClauseRisk> := [];
    var high, medium, low := 0, 0, 0;
    for i := 0 to |cs|
      invariant forall k :: 0 <= k < i ==> !Unbuildable(ss[k]) && cs[k].State() == visited[k]
      invariant forall k :: i <= k < |cs| ==> cs[k].State() == ss[k]
      invariant |risks| == i && forall k :: 0 <= k < i ==> entries[k] == Some(risks[k])
      invariant high == CountLevel(risks, High) && medium == CountLevel(risks, Medium) && low == CountLevel(risks, Low)
    {
      var entry;
      entry, risks, high, medium, low := WalkStep(cs, i, engine, ss, entries, visited, risks, high, medium, low);
      if entry.None? {
        RiskResponseError(contractId, ss, engine, entries, i);
        FirstUnbuildableAt(ss, i);
        WalkedStates(cs, visited, ss, i);
        return Error(500, RiskErrorDetail);
      }
    }
    AllSomeOfSomes(entries, risks);
    RiskResponseOk(contractId, ss, engine, risks);
    FirstUnbuildableAt(ss, |ss|);
    WalkedStates(cs, visited, ss, |cs|);
    r := Ok(RiskSummary(contractId, |cs|, high, medium, low, risks));
  }

  /** The clauses before `i` are visited and the rest are as they were. */
  lemma WalkedStates(cs: seq<Clause>, visited: seq<ClauseState>, ss: seq<ClauseState>, i: nat)
    requires i <= |cs| == |visited| == |ss|
    requires forall k :: 0 <= k < i ==> cs[k].State() == visited[k]
    requires forall k :: i <= k < |cs| ==> cs[k].State() == ss[k]
    ensures States(cs) == visited[..i] + ss[i..]
  {
    assert forall k :: 0 <= k < |cs| ==> States(cs)[k] == (visited[..i] + ss[i..])[k];
  }

  /** The summary fails when some clause has no entry. */
  lemma RiskResponseError(
    contractId: string, ss: seq<ClauseState>, engine: Engine, entries: seq<Option<ClauseRisk>>, i: nat)
    requires entries == Entries(engine, ss) && i < |entries| && entries[i].None?
    ensures RiskResponse(contractId, ss, engine) == Error(500, RiskErrorDetail)
  {
  }

  /** The summary when every clause has an entry: the entries in order, counted by level. */
  lemma RiskResponseOk(contractId: string, ss: seq<ClauseState>, engine: Engine, risks: seq<ClauseRisk>)
    requires AllSome(Entries(engine, ss)) == Some(risks)
    ensures RiskResponse(contractId, ss, engine)
         == Ok(RiskSummary(contractId, |ss|, CountLevel(risks, High), CountLevel(risks, Medium), CountLevel(risks, Low), risks))
  {
  }

  // ---------------------------------------------------------------- clause analysis

  /** The index of the first clause with id `id`, or the number of clauses when none has it. */
  function FirstWithId(ss: seq<ClauseState>, id: string): (k: nat)
    ensures k <= |ss|
    ensures forall j :: 0 <= j < k ==> ss[j].id != id
    ensures k < |ss| ==> ss[k].id == id
  {
    if ss == [] then 0
    else if ss[0].id == id then 0
    else 1 + FirstWithId(ss[1..], id)
  }

  /** The clause after `analyze_clause`: new text, its rule-based type, and the score of that type and text. */
  function Reanalysed(engine: Engine, s: ClauseState, newText: string): ClauseState
  {
    var t := RuleClassify(engine, newText);
    var score := RiskScore(engine, t, newText);
    s.(text := newText, clauseType := t, riskScore := Some(score), riskLevel := Some(ScoreToLevel(score)))
  }

  /** The update of the target clause: text, then `classify_clause(text)`, then the score. */
  method Reanalyse(clause: Clause, newText: string, engine: Engine)
    modifies clause
    ensures clause.State() == Reanalysed(engine, old(clause.State()), newText)
  {
    clause.text := newText;
    clause.clauseType := ClassifyClause(engine, newText, false, None);
    var risk := CalculateClauseRisk(clause, engine);
  }

  /** The search loop with `break`: the index of the first clause with the id, or `|cs|`. */
  method FindClause(cs: seq<Clause>, clauseId: string) returns (k: nat)
    ensures k == FirstWithId(States(cs), clauseId)
  {
    k := 0;
    while k < |cs|
      invariant k <= |cs|
      invariant forall j :: 0 <= j < k ==> cs[j].id != clauseId
    {
      if cs[k].id == clauseId {
        break;
      }
      k := k + 1;
    }
    FirstWithIdUnique(States(cs), clauseId, k);
  }

  /** Only one index is the first with an id. */
  lemma FirstWithIdUnique(ss: seq<ClauseState>, id: string, k: nat)
    requires k <= |ss|
    requires forall j :: 0 <= j < k ==> ss[j].id != id
    requires k < |ss| ==> ss[k].id == id
    ensures k == FirstWithId(ss, id)
  {
  }

  /** `analyze_clause(contract_id, clause_id, request)`: the first clause with the id is re-analysed. */
  method AnalyzeClause(store: Store, contractId: string, clauseId: string, newText: string, engine: Engine)
    returns (r: Response<Clause>)
    requires contractId in store ==> Separate(store[contractId].clauses)
    modifies ClauseObjects(store, contractId)
    ensures contractId !in store ==> r == Error(404, ContractNotFound)
    ensures contractId in store ==>
      var cs := store[contractId].clauses;
      var ss := old(States(cs));
      var k := FirstWithId(ss, clauseId);
      && (k == |ss| ==> r == Error(404, ClauseNotFound) && States(cs) == ss)
      && (k < |ss| ==> r == Ok(cs[k]) && States(cs) == ss[k := Reanalysed(engine, ss[k], newText)])
  {
    var found := Load(store, contractId);
    if found.None? {
      return Error(404, ContractNotFound);
    }
    var cs := found.value.clauses;
    var k := FindClause(cs, clauseId);
    if k == |cs| {
      return Error(404, ClauseNotFound);
    }
    ghost var ss := States(cs);
    Reanalyse(cs[k], newText, engine);
    UpdatedStates(cs, ss, k);
    r := Ok(cs[k]);
  }

  /** Only clause `k` changed. */
  lemma UpdatedStates(cs: seq<Clause>, ss: seq<ClauseState>, k: nat)
    requires k < |cs| == |ss|
    requires forall j :: 0 <= j < |cs| && j != k ==> cs[j].State() == ss[j]
    ensures States(cs) == ss[k := cs[k].State()]
  {
    assert forall j :: 0 <= j < |cs| ==> States(cs)[j] == ss[k := cs[k].State()][j];
  }

  // ---------------------------------------------------------------- properties

  /** Every entry is counted once: the three level counts add up to the number of entries. */
  lemma {:induction false} CountLevelsTotal(rs: seq<ClauseRisk>)
    ensures CountLevel(rs, High) + CountLevel(rs, Medium) + CountLevel(rs, Low) == |rs|
  {
    if rs != [] {
      CountLevelsTotal(rs[..|rs| - 1]);
    }
  }

  /**
   * The summary reports as many clauses as the contract has, one entry per clause in order, and
   * high + medium + low equals that total; it is an error exactly when some stored risk fails
   * validation.
   */
  lemma RiskResponseTotals(contractId: string, ss: seq<ClauseState>, engine: Engine)
    ensures var r := RiskResponse(contractId, ss, engine);
      && (r.Error? <==> exists k :: 0 <= k < |ss| && Unbuildable(ss[k]))
      && (r.Error? ==> r == Error(500, RiskErrorDetail))
      && (r.Ok? ==>
            && r.body.contractId == contractId
            && r.body.totalClauses == |ss| == |r.body.clauseRisks|
            && r.body.highCount + r.body.mediumCount + r.body.lowCount == r.body.totalClauses
            && forall k :: 0 <= k < |ss| ==> Some(r.body.clauseRisks[k]) == RiskOf(engine, ss[k]))
  {
    var xs := Entries(engine, ss);
    forall k | 0 <= k < |ss| ensures xs[k] == RiskOf(engine, ss[k]) && (xs[k].None? <==> Unbuildable(ss[k])) {
      RiskOfNoneIff(engine, ss[k]);
    }
    if AllSome(xs).Some? {
      CountLevelsTotal(AllSome(xs).value);
    }
  }

  /**
   * One entry: it names its clause; an unscored clause gets the rule-based score, level and
   * reasons; a scored one keeps its stored score and level with no reasons; recommendations are
   * the rule suggestions for the clause type when the level is medium or high, and none otherwise.
   */
  lemma RiskOfShape(engine: Engine, s: ClauseState)
    ensures var e := RiskOf(engine, s);
      && (e.Some? ==> e.value.clauseId == s.id)
      && (e.Some? && s.riskScore.None? ==>
            && e.value.score == RiskScore(engine, s.clauseType, s.text)
            && e.value.level == ScoreToLevel(e.value.score)
            && e.value.reasons == RiskReasons(engine, s.clauseType, s.text))
      && (e.Some? && s.riskScore.Some? ==>
            e.value.score == s.riskScore.value && Some(e.value.level) == s.riskLevel && e.value.reasons == [])
      && (e.Some? ==>
            e.value.recommendations
              == if e.value.level in {High, Medium} then Negotiation.RuleSuggestions(s.clauseType) else [])
  {
  }

  /** Visiting a clause twice is visiting it once, and its entry afterwards is rebuilt from the stored fields. */
  lemma ScoredIdempotent(engine: Engine, s: ClauseState)
    ensures Scored(engine, Scored(engine, s)) == Scored(engine, s)
    ensures Scored(engine, s).riskScore.Some?
    ensures s.riskScore.None? ==> !Unbuildable(Scored(engine, s))
    ensures Scored(engine, s).id == s.id && Scored(engine, s).text == s.text
  {
    if s.riskScore.None? {
      RiskScoreBounds(engine, s.clauseType, s.text);
    }
  }

  /** The walk leaves only scored clauses behind it and clauses after the stopping point untouched. */
  lemma WalkShape(engine: Engine, ss: seq<ClauseState>)
    ensures var n := FirstUnbuildable(ss);
      var after := Visited(engine, ss)[..n] + ss[n..];
      && |after| == |ss|
      && (forall k :: 0 <= k < n ==> after[k] == Scored(engine, ss[k]) && after[k].riskScore.Some?)
      && (forall k :: n <= k < |ss| ==> after[k] == ss[k])
      && (forall k :: 0 <= k < |ss| ==> after[k].id == ss[k].id && after[k].text == ss[k].text)
  {
    var n := FirstUnbuildable(ss);
    var after := Visited(engine, ss)[..n] + ss[n..];
    forall k | 0 <= k < |ss|
      ensures after[k] == if k < n then Scored(engine, ss[k]) else ss[k]
      ensures k < n ==> after[k].riskScore.Some?
      ensures after[k].id == ss[k].id && after[k].text == ss[k].text
    {
      if k < n {
        ScoredIdempotent(engine, ss[k]);
      }
    }
  }

  /**
   * The re-analysed clause has the new text, the rule-based type of that text, a score between the
   * type's base score and 1.0 and the level of that score; its id, contract, index, offsets and
   * embedding id are kept. Re-analysing with the same text again changes nothing.
   */
  lemma ReanalysedShape(engine: Engine, s: ClauseState, newText: string)
    ensures var a := Reanalysed(engine, s, newText);
      && a.text == newText && a.clauseType == RuleClassify(engine, newText)
      && a.riskScore.Some? && a.riskLevel == Some(ScoreToLevel(a.riskScore.value))
      && 10 <= BaseScore(a.clauseType) <= a.riskScore.value <= 100
      && a.id == s.id && a.contractId == s.contractId && a.index == s.index
      && a.startChar == s.startChar && a.endChar == s.endChar && a.embeddingId == s.embeddingId
      && Reanalysed(engine, a, newText) == a
  {
    RiskScoreBounds(engine, RuleClassify(engine, newText), newText);
  }
}
