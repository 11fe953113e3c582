/*
 * The upload handler: the guards on the file name and the extracted text, then
 * one clause per segment, each classified by the rules and scored, and the
 * contract saved under its new id. Saving the uploaded bytes, the PDF text
 * extraction and the vector store are outside the model: the generated id, the
 * upload time and the extracted text (or the exception raised while extracting)
 * are parameters, and the saved contracts are a map.
 */
module UploadRoute {
  import opened Wrappers
  import opened TextUtil
  import opened Regex
  import opened Http
  import opened RiskModel
  import opened ClauseModel
  import opened ContractModel
  import opened Cleaner
  import opened Classifier
  import opened Scoring
  import Chunker
  import Negotiation

  /** The body of a successful upload. */
  datatype UploadResponse = UploadResponse(contractId: string, title: string, clauseCount: nat, message: string)

  const PdfSuffix := ".pdf"
  const MinTextLength := 100
  const NotPdfDetail := "Only PDF files are supported"
  const ShortTextDetail := "Could not extract sufficient text from PDF. File may be corrupted or scanned."
  const NoClausesDetail := "Could not identify clauses in the document"
  const ProcessingErrorPrefix := "Error processing file: "
  const SuccessMessage := "Contract processed successfully"

  /** `f"{contract_id}_clause_{i}"`. */
  function ClauseId(contractId: string, i: nat): string
  {
    contractId + "_clause_" + NatToString(i)
  }

  /** `filename.replace(".pdf", "")`. */
  function TitleOf(filename: string): string
  {
    ReplaceAll(filename, PdfSuffix, "")
  }

  /** `split_into_clauses(text)` with the default minimum length. */
  function Segments(engine: Engine, text: string): (r: seq<string>)
    ensures forall k :: 0 <= k < |r| ==> Chunker.IsClause(r[k], 50)
  {
    Chunker.KeepClausesShape(Chunker.Candidates(text, engine(Chunker.SectionMarker, text)), 50);
    Chunker.KeepClauses(Chunker.Candidates(text, engine(Chunker.SectionMarker, text)), 50)
  }

  /**
   * The clause the loop stores for segment `i`: id, contract id, index and text from the
   * segment, the rule-based type of the text, and the rule-based score with its level.
   */
  function Expected(contractId: string, i: nat, text: string, engine: Engine): (r: ClauseState)
    ensures r.text == text && r.contractId == contractId
    ensures r.riskScore.Some? && r.riskLevel == Some(ScoreToLevel(r.riskScore.value))
  {
    var t := RuleClassify(engine, text);
    var score := RiskScore(engine, t, text);
    ClauseState(ClauseId(contractId, i), contractId, i, text, t, None, None, Some(score), Some(ScoreToLevel(score)), None)
  }

  /** The clauses the loop stores for the segments, in segment order. */
  function ExpectedStates(contractId: string, segments: seq<string>, engine: Engine): seq<ClauseState>
  {
    MapIndexed((k: nat, text: string) => Expected(contractId, k, text, engine), segments)
  }

  /**
   * One turn of the loop: a new clause, classified without the language model and scored;
   * for a medium or high level the rule suggestions go on the returned risk, which is not
   * stored with the clause.
   */
  method ProcessClause(contractId: string, i: nat, text: string, engine: Engine)
    returns (clause: Clause, risk: ClauseRisk)
    ensures fresh(clause)
    ensures clause.State() == Expected(contractId, i, text, engine) && clause.Valid()
    ensures risk.clauseId == clause.id
    ensures clause.riskScore == Some(risk.score) && clause.riskLevel == Some(risk.level)
    ensures risk.reasons == RiskReasons(engine, clause.clauseType, text)
    ensures risk.recommendations
      == if risk.level == High || risk.level == Medium then Negotiation.RuleSuggestions(clause.clauseType) else []
  {
    var clauseType := ClassifyClause(engine, text, false, None);
    clause := new Clause(ClauseId(contractId, i), contractId, i, text, clauseType);
    risk := CalculateClauseRisk(clause, engine);
    if risk.level == High || risk.level == Medium {
      Negotiation.RulesOnlyGivesTypeList(clause.clauseType, clause.riskLevel, false, None);
      var suggestions := Negotiation.SuggestNegotiationPoints(clause, false, None);
      risk := risk.(recommendations := suggestions.value);
    }
  }

  /**
   * A turn of the loop as the loop keeps it: the clause for segment `i` is stored and the risk is
   * dropped.
   */
  method ProcessClauseKept(contractId: string, segments: seq<string>, i: nat, engine: Engine) returns (clause: Clause)
    requires i < |segments|
    ensures fresh(clause)
    ensures ExpectedStates(contractId, segments[..i + 1], engine)
         == ExpectedStates(contractId, segments[..i], engine) + [clause.State()]
  {
    var risk;
    clause, risk := ProcessClause(contractId, i, segments[i], engine);
    MapIndexedStep((k: nat, text: string) => Expected(contractId, k, text, engine), segments, i);
  }

  /** The loop over the segments: clause `k` is built from segment `k`, each a new object. */
  method ProcessClauses(contractId: string, segments: seq<string>, engine: Engine) returns (clauses: seq<Clause>)
    ensures States(clauses) == ExpectedStates(contractId, segments, engine)
  {
    clauses := [];
    for i := 0 to |segments|
      invariant States(clauses) == ExpectedStates(contractId, segments[..i], engine)
    {
      var clause := ProcessClauseKept(contractId, segments, i, engine);
      StatesSnoc(clauses, clause);
      clauses := clauses + [clause];
    }
    assert segments[..|segments|] == segments;
  }

  /** The file name ends in ".pdf" and the cleaned text is long enough and yields clauses. */
  predicate Accepted(filename: string, extracted: Outcome<string>, engine: Engine)
  {
    && EndsWith(filename, PdfSuffix)
    && extracted.Done?
    && |CleanedText(extracted.value)| >= MinTextLength
    && Segments(engine, CleanedText(extracted.value)) != []
  }

  /** The end of a successful upload: the contract built from its clauses is saved under its id. */
  method SaveUpload(
    filename: string, contractId: string, uploadedAt: string, text: string, clauseTexts: seq<string>,
    engine: Engine, store: Store)
    returns (r: Response<UploadResponse>, saved: Store)
    ensures r == Ok(UploadResponse(contractId, TitleOf(filename), |clauseTexts|, SuccessMessage))
    ensures contractId in saved && saved == store[contractId := saved[contractId]]
    ensures var c := saved[contractId];
      && c.id == contractId && c.title == TitleOf(filename) && c.uploadedAt == uploadedAt
      && c.originalFilename == filename && c.text == text
      && States(c.clauses) == ExpectedStates(contractId, clauseTexts, engine)
  {
    var title := TitleOf(filename);
    var clauses := ProcessClauses(contractId, clauseTexts, engine);
    var contract := Contract(contractId, title, uploadedAt, filename, text, clauses);
    saved := store[contractId := contract];
    r := Ok(UploadResponse(contractId, title, |clauses|, SuccessMessage));
  }

  /**
   * `upload_contract(file)`. `extracted` is what `extract_text_from_pdf` returned for the saved
   * file, or the exception it raised.
   */
  method UploadContract(
    filename: string, contractId: string, uploadedAt: string, extracted: Outcome<string>,
    engine: Engine, store: Store)
    returns (r: Response<UploadResponse>, saved: Store)
    ensures !EndsWith(filename, PdfSuffix) ==> r == Error(400, NotPdfDetail) && saved == store
    ensures EndsWith(filename, PdfSuffix) && extracted.Raised? ==>
      r == Error(500, ProcessingErrorPrefix + extracted.message) && saved == store
    ensures EndsWith(filename, PdfSuffix) && extracted.Done? && |CleanedText(extracted.value)| < MinTextLength ==>
      r == Error(400, ShortTextDetail) && saved == store
    ensures (EndsWith(filename, PdfSuffix) && extracted.Done? && |CleanedText(extracted.value)| >= MinTextLength
             && Segments(engine, CleanedText(extracted.value)) == []) ==>
      r == Error(400, NoClausesDetail) && saved == store
    ensures Accepted(filename, extracted, engine) ==>
      var text := CleanedText(extracted.value);
      var segments := Segments(engine, text);
      && r == Ok(UploadResponse(contractId, TitleOf(filename), |segments|, SuccessMessage))
      && contractId in saved && saved == store[contractId := saved[contractId]]
      && var c := saved[contractId];
      && c.id == contractId && c.title == TitleOf(filename) && c.uploadedAt == uploadedAt
      && c.originalFilename == filename && c.text == text
      && States(c.clauses) == ExpectedStates(contractId, segments, engine)
  {
    saved := store;
    if !EndsWith(filename, PdfSuffix) {
      return Error(400, NotPdfDetail), saved;
    }
    if extracted.Raised? {
      return Error(500, ProcessingErrorPrefix + extracted.message), saved;
    }
    var text := CleanContractText(extracted.value);
    if |text| < MinTextLength {
      return Error(400, ShortTextDetail), saved;
    }
    var clauseTexts := Chunker.SplitIntoClauses(text, engine);
    if clauseTexts == [] {
      return Error(400, NoClausesDetail), saved;
    }
    r, saved := SaveUpload(filename, contractId, uploadedAt, text, clauseTexts, engine, store);
  }

  // ---------------------------------------------------------------- properties

  /** Clause ids of one contract are pairwise different. */
  lemma ClauseIdsDistinct(contractId: string, i: nat, j: nat)
    ensures ClauseId(contractId, i) == ClauseId(contractId, j) <==> i == j
  {
    var prefix := contractId + "_clause_";
    if ClauseId(contractId, i) == ClauseId(contractId, j) {
      assert NatToString(i) == ClauseId(contractId, i)[|prefix|..];
      assert NatToString(j) == ClauseId(contractId, j)[|prefix|..];
      NatToStringInjective(i, j);
    }
  }

  /** Every clause id starts with the contract id and the clause marker. */
  lemma ClauseIdShape(contractId: string, i: nat)
    ensures StartsWith(ClauseId(contractId, i), contractId + "_clause_")
    ensures |ClauseId(contractId, i)| > |contractId| + 8
  {
    assert ClauseId(contractId, i)[..|contractId + "_clause_"|] == contractId + "_clause_";
  }

  /**
   * The clause built from one segment carries its id, index, text and contract; it is scored, its
   * level is the level of its score, and the score lies between its type's base score (at least
   * 0.10) and 1.0.
   */
  lemma ExpectedShape(contractId: string, k: nat, text: string, engine: Engine)
    ensures var s := Expected(contractId, k, text, engine);
      && s.id == ClauseId(contractId, k) && s.index == k && s.text == text && s.contractId == contractId
      && s.riskScore.Some? && s.riskLevel == Some(ScoreToLevel(s.riskScore.value))
      && 10 <= BaseScore(s.clauseType) <= s.riskScore.value <= 100
  {
    RiskScoreBounds(engine, RuleClassify(engine, text), text);
  }

  /**
   * Clause `k` of an upload has index `k`, the `k`-th segment as text and an id of its own; it is
   * scored, its level is the level of its score, and the score lies between its type's base score
   * (at least 0.10) and 1.0.
   */
  lemma ExpectedStatesShape(contractId: string, segments: seq<string>, engine: Engine)
    ensures var ss := ExpectedStates(contractId, segments, engine);
      && |ss| == |segments|
      && (forall k :: 0 <= k < |ss| ==>
            && ss[k].index == k && ss[k].text == segments[k] && ss[k].contractId == contractId
            && ss[k].riskScore.Some? && ss[k].riskLevel == Some(ScoreToLevel(ss[k].riskScore.value))
            && 10 <= BaseScore(ss[k].clauseType) <= ss[k].riskScore.value <= 100)
      && (forall j, k :: 0 <= j < k < |ss| ==> ss[j].id != ss[k].id)
  {
    var ss := ExpectedStates(contractId, segments, engine);
    forall k | 0 <= k < |ss|
      ensures && ss[k].index == k && ss[k].text == segments[k] && ss[k].contractId == contractId
              && ss[k].riskScore.Some? && ss[k].riskLevel == Some(ScoreToLevel(ss[k].riskScore.value))
              && 10 <= BaseScore(ss[k].clauseType) <= ss[k].riskScore.value <= 100
              && ss[k].id == ClauseId(contractId, k)
    {
      ExpectedShape(contractId, k, segments[k], engine);
    }
    forall j, k | 0 <= j < k < |ss| ensures ss[j].id != ss[k].id {
      ClauseIdsDistinct(contractId, j, k);
    }
  }
}
