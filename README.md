# LexGuard contract analysis, modelled in Dafny

LexGuard reads a contract PDF, cleans the extracted text, splits it into
clauses, classifies each clause by keyword rules (optionally refined by a
language model), scores its risk, suggests negotiation points, and extracts
parties, obligations, key terms and dates. A web backend exposes the upload,
the risk summary, clause re-analysis and a question-answering chat over the
stored clauses; two language-model clients (Gemini and a local Ollama server)
turn chat messages into a prompt and dig JSON out of the replies.

This project models that core:

- the clause and risk records (`ClauseModel`, `RiskModel`, `ContractModel`);
- text ingestion: cleaning (`Cleaner`) and the OCR decision (`PdfExtractor`);
- clause splitting and merging (`Chunker`) and rule classification (`Classifier`);
- risk scoring (`Scoring`) and negotiation suggestions (`Negotiation`);
- the analysis extractors (`Parties`, `Obligations`, `KeyTerms`, `Dates`);
- the rule-based contract summary (`SummaryBuilder`);
- the upload, contract and chat endpoints (`UploadRoute`, `ContractRoute`, `ChatRoute`);
- the two clients' own logic (`LlmMessages`, `GeminiClient`, `OllamaClient`).

Regular expressions are matched by an abstract engine (module `Regex`): a
function from a pattern and a text to the list of matches `re.finditer`
would give, each with its span and groups. The model states what the code
does with the matches. A few small, fixed patterns are written out exactly
(page-number lines, blank-line runs, punctuation runs, whitespace runs).
Whether a pattern compiles is a parameter too: the party extractor splices
names into patterns unescaped, and a name that breaks the pattern makes the
search raise `re.error`.
Scores are integers in hundredths: every constant of the scoring rules is a
multiple of 0.05. The language model, the vector search, `json.loads`, the
PDF text extraction, the generated contract id and the upload time are
parameters of the operations that use them. A language-model call is an
`Outcome` (its reply, or the exception it raised) or an `Option` (None when
it raised); the Ollama server's answer is a `ServerReply`, which tells a body
that is not JSON from other failures, since the client handles the two
differently. Clauses and chat messages are objects, because the source
changes them in place; a contract is a value holding its clause objects, and
the contract storage is a map from contract id to contract. Loading a
contract for the risk summary builds new clause objects from the saved
values, as reading the saved file does, so what the summary changes on them
never reaches the store.

## Model

| member | source | states |
|---|---|---|
| ClauseModel.Clause.FromState | lexguard/storage/file_store.py:60-62 | a clause rebuilt from saved values holds exactly those values |
| ContractModel.LoadCopy | lexguard/storage/file_store.py:41-64 | None exactly for an unknown id; else the saved contract with new, distinct clause objects holding the saved field values |
| RiskModel.LevelFromValue | lexguard/models/risk.py:9-14 | a level read from a string has that string as its value; None for any other string, as validation rejects it |
| RiskModel.LevelValuesAreExactlyThree | lexguard/models/risk.py:9-22 | exactly "low", "medium" and "high" are levels, and every level's value reads back as that level |
| RiskModel.NewClauseRisk | lexguard/models/risk.py:17-28 | construction succeeds exactly when the score lies in [0, 1] and a level is given, and the record then holds the given fields |
| RiskModel.NewClauseRiskDefaults | lexguard/models/risk.py:23-28 | reasons and recommendations default to empty lists |
| ClauseModel.Index | lexguard/models/clause.py:9-19 | each clause type has its own position in the declaration order |
| ClauseModel.FromValue | lexguard/models/clause.py:9-19 | a type found for a string has that string as its value; None where the enum lookup raises ValueError |
| ClauseModel.AllTypesInDeclarationOrder | lexguard/models/clause.py:9-19 | the enum has eight members, listed once each, each at its own index |
| ClauseModel.StoredValueComparisonAgrees | lexguard/models/clause.py:48-51 | a stored value string equals a type's value exactly when looking it up gives that type |
| ClauseModel.ValueInjective | lexguard/models/clause.py:12-19 | two types with the same value are the same type |
| ClauseModel.States | lexguard/models/clause.py:22-46 | one state per clause, the clause's current fields, in order |
| ClauseModel.Clause.constructor | lexguard/models/clause.py:22-46 | a new clause holds the given fields, with no score, level, offsets or embedding id |
| ClauseModel.Clause.Untyped | lexguard/models/clause.py:29-31 | a clause built without a type is of type unsure, with no score and no level |
| PdfExtractor.CountReadable | lexguard/ingest/pdf_extractor.py:65 | the number of printable-or-whitespace characters is at most the text length |
| PdfExtractor.ShouldUseOcr | lexguard/ingest/pdf_extractor.py:50-69 | an empty text, or one whose stripped form is shorter than the minimum (100 unless given), always needs OCR |
| PdfExtractor.ShortTextNeedsOcr | lexguard/ingest/pdf_extractor.py:61-62 | an empty text, or one whose stripped form is shorter than the minimum, needs OCR |
| PdfExtractor.RatioBelowFourFifths | lexguard/ingest/pdf_extractor.py:65-66 | the float ratio test `readable / len < 0.8` is the integer test `5 * readable < 4 * len` |
| PdfExtractor.OcrIffMostlyUnreadable | lexguard/ingest/pdf_extractor.py:61-69 | otherwise OCR is needed exactly when fewer than 80% of the characters are readable |
| PdfExtractor.AllReadableCountsAll | lexguard/ingest/pdf_extractor.py:65 | a text of readable characters only counts every character |
| PdfExtractor.ReadableTextNeedsNoOcr | lexguard/ingest/pdf_extractor.py:61-69 | a fully readable text whose stripped form reaches the minimum needs no OCR |
| Cleaner.CapRunsBounded | lexguard/ingest/cleaner.py:91-97 | after capping, no character runs longer than the cap |
| Cleaner.CapRunsIdentity | lexguard/ingest/cleaner.py:91-97 | a text without an over-long run is unchanged |
| Cleaner.CapRunsOnlyDeletes | lexguard/ingest/cleaner.py:91-97 | capping deletes only copies of the capped character: with those removed, input and output agree |
| Cleaner.CapRunsKeepsOtherRuns | lexguard/ingest/cleaner.py:91-97 | capping runs of one character never lengthens a run of another |
| Cleaner.StripEach | lexguard/ingest/cleaner.py:30 | one stripped line per input line, in order |
| Cleaner.JoinLinesStripped | lexguard/ingest/cleaner.py:30-31 | stripped single-line pieces joined with line breaks give text whose every line is stripped |
| Cleaner.StripKeepsLinesStripped | lexguard/ingest/cleaner.py:33 | stripping the whole text keeps its lines stripped |
| Cleaner.NormalizeNoDoubleSpace | lexguard/ingest/cleaner.py:9-33 | the normalised text never holds two spaces in a row |
| Cleaner.NormalizeLinesStripped | lexguard/ingest/cleaner.py:29-33 | the normalised text is stripped, and so is every line of it |
| Cleaner.NormalizeWhitespace | lexguard/ingest/cleaner.py:9-33 | the normalised text is stripped |
| Cleaner.RemoveHeadersFooters | lexguard/ingest/cleaner.py:36-77 | the loop returns the lines that are neither page numbers nor numeric dates nor short numbers, joined with line breaks |
| Cleaner.KeptLines | lexguard/ingest/cleaner.py:62-77 | filtering the lines never adds one |
| Cleaner.KeptLinesAppend | lexguard/ingest/cleaner.py:62-77 | the lines kept of two line lists are the lines kept of each, concatenated |
| Cleaner.KeptLinesMembers | lexguard/ingest/cleaner.py:62-75 | a line is kept exactly when it is an input line that is not a header or footer line |
| Cleaner.LineWithoutDigitIsKept | lexguard/ingest/cleaner.py:55-73 | a line without a digit is never dropped |
| Cleaner.RemovedHeadersFootersLines | lexguard/ingest/cleaner.py:51-77 | when some line survives, the output's lines are exactly the kept input lines |
| Cleaner.RemoveExcessivePunctuation | lexguard/ingest/cleaner.py:80-99 | the clean-up never lengthens the text |
| Cleaner.PunctuationRunsBounded | lexguard/ingest/cleaner.py:90-99 | the output has no run of four dots, three dashes or three underscores |
| Cleaner.PunctuationIdempotent | lexguard/ingest/cleaner.py:80-99 | cleaning punctuation twice is cleaning it once |
| Cleaner.CleanContractText | lexguard/ingest/cleaner.py:102-123 | the cleaned text is stripped, holds no two spaces in a row, and every line of it is stripped |
| Cleaner.CleanedText | lexguard/ingest/cleaner.py:102-123 | the cleaned text is stripped |
| Chunker.NumberedSplit | lexguard/nlp/chunker.py:66-76 | no marker gives the whole text; otherwise one piece per marker |
| Chunker.SplitByNumberedSections | lexguard/nlp/chunker.py:55-76 | the loop cuts the text at each marker's start, each piece running to the next marker or the end |
| Chunker.NumberedPiecesCoverFromFirstMarker | lexguard/nlp/chunker.py:69-76 | one piece per marker, and together the pieces are the text from the first marker on |
| Chunker.ConcatPiecesFrom | lexguard/nlp/chunker.py:69-76 | with increasing starts inside the text, the pieces from marker k on, concatenated, are the text from marker k's start |
| Chunker.SplitOnBlankRuns | lexguard/nlp/chunker.py:82 | at least one piece, the first a prefix of the text, and no piece holds a blank-line run |
| Chunker.DropNewlines | lexguard/nlp/chunker.py:82 | dropping the newlines at the front leaves a suffix of the text that does not start with a newline |
| Chunker.BlankRunsCount | lexguard/nlp/chunker.py:82 | the cut gives one more piece than there are blank-line runs |
| Chunker.SplitOnBlankRunsRoundTrip | lexguard/nlp/chunker.py:82 | the pieces, interleaved with the blank-line runs they were cut at, give back the text |
| Chunker.BlankRunsAreRuns | lexguard/nlp/chunker.py:82 | every separator is a run of two or more newlines |
| Chunker.PiecesAfterRunsStartOtherwise | lexguard/nlp/chunker.py:82 | every piece after a separator is empty or does not start with a newline, so each run is cut whole |
| Chunker.StripNonEmpty | lexguard/nlp/chunker.py:83 | the kept pieces are non-empty and stripped, no more than were given |
| Chunker.StripNonEmptyKeepsNoBlankLine | lexguard/nlp/chunker.py:82-83 | stripping and dropping pieces never creates a blank-line run |
| Chunker.StripNonEmptyIsMapFilter | lexguard/nlp/chunker.py:83 | the kept pieces are exactly the stripped forms of the pieces with text, in order |
| Chunker.Paragraphs | lexguard/nlp/chunker.py:79-83 | every paragraph is non-empty and stripped |
| Chunker.ParagraphsAreStrippedWithoutBlankLines | lexguard/nlp/chunker.py:79-83 | every paragraph is non-empty, stripped and holds no blank-line run |
| Chunker.ParagraphsOfText | lexguard/nlp/chunker.py:79-83 | the paragraphs are the stripped pieces with text of a cut at blank-line runs that, interleaved with those runs, gives back the text |
| Chunker.Candidates | lexguard/nlp/chunker.py:29-34 | with two or more section markers, one candidate per marker; otherwise the paragraphs |
| Chunker.IsLikelyHeader | lexguard/nlp/chunker.py:86-105 | a header is shorter than 100 characters once stripped |
| Chunker.ShortLineIsHeaderUnlessPeriod | lexguard/nlp/chunker.py:86-105 | a stripped single line under 80 characters not ending in a period is a header; unless it is upper case, it is one exactly then |
| Chunker.KeepClauses | lexguard/nlp/chunker.py:37-49 | the filter never yields more clauses than candidates |
| Chunker.KeepClausesShape | lexguard/nlp/chunker.py:37-49 | every kept clause is stripped, at least the minimum length, and not a header |
| Chunker.SplitIntoClauses | lexguard/nlp/chunker.py:10-52 | the filtered candidates (the numbered pieces when there are several, else the paragraphs); each is stripped, long enough and not a header |
| Chunker.EmptyTextHasNoClauses | lexguard/nlp/chunker.py:10-52 | an empty text gives no clauses |
| Chunker.MergeFrom | lexguard/nlp/chunker.py:124-135 | between one piece and one more than the rest, and every piece but the last reaches the minimum |
| Chunker.MergeShort | lexguard/nlp/chunker.py:108-137 | no more pieces than given, at least one when some were given, every piece but the last at least the minimum |
| Chunker.MergeShortClauses | lexguard/nlp/chunker.py:108-137 | the loop computes the merge of the whole list |
| Chunker.MergeFromKeepsText | lexguard/nlp/chunker.py:127-135 | joined with spaces, the merged pieces are the input pieces joined with spaces |
| Chunker.MergeShortProperties | lexguard/nlp/chunker.py:108-137 | the same text when joined with spaces, no more pieces, empty exactly when the input is, every piece but the last long enough |
| Chunker.MergeLongClausesUnchanged | lexguard/nlp/chunker.py:127-132 | pieces that all reach the minimum are left as they are |
| Classifier.ScoreVector | lexguard/nlp/clause_classifier.py:110-116 | one score per type in declaration order, the type's total number of pattern matches |
| Classifier.ArgMaxFirst | lexguard/nlp/clause_classifier.py:125 | the chosen index holds the maximum and no earlier index does |
| Classifier.RuleClassify | lexguard/nlp/clause_classifier.py:100-127 | the rules never answer unsure |
| Classifier.TallyIsScoreVector | lexguard/nlp/clause_classifier.py:111-116 | a tally of every type's summed pattern matches is the score vector |
| Classifier.RuleClassifyIsFirstBest | lexguard/nlp/clause_classifier.py:100-127 | misc exactly when no type scores, never unsure; otherwise the type has the highest score and every earlier type scores less |
| Classifier.TallyScores | lexguard/nlp/clause_classifier.py:111-116 | the loop gives every type the sum of its patterns' matches |
| Classifier.MaxValue | lexguard/nlp/clause_classifier.py:119 | the loop's maximum is the score at the first best index |
| Classifier.FirstMaxIndex | lexguard/nlp/clause_classifier.py:125 | the loop finds the first index holding the maximum |
| Classifier.ClassifyWithRules | lexguard/nlp/clause_classifier.py:100-127 | the loops return the first best type, or misc without matches |
| Classifier.FirstLabelFrom | lexguard/nlp/clause_classifier.py:158-160 | the first type from a position on whose value the reply contains; none when no later type's value occurs |
| Classifier.LabelFromReply | lexguard/nlp/clause_classifier.py:155-162 | the label is misc or a type whose value the lower-cased reply contains |
| Classifier.LabelFromReplyIsFirstMentioned | lexguard/nlp/clause_classifier.py:155-162 | the label is the first type in declaration order whose value the lower-cased reply contains, else misc |
| Classifier.RelationshipReadsAsIp | lexguard/nlp/clause_classifier.py:158-160 | the reply "relationship" is read as ip: "ip" occurs in it and comes earlier in the list |
| Classifier.ClassifyClause | lexguard/nlp/clause_classifier.py:72-97 | without the model, or when the model raises, the rule type |
| Classifier.ModelOnlyRefinesUnmatchedClauses | lexguard/nlp/clause_classifier.py:88-97 | a clause some rule matches keeps its rule type, which is not misc, even with the model |
| Classifier.UnmatchedClauseTakesModelLabel | lexguard/nlp/clause_classifier.py:90-95 | a clause no rule matches takes the label read from the model's reply, and stays misc when the model raises |
| Classifier.MatchedPatterns | lexguard/nlp/clause_classifier.py:186-189 | at most the number of patterns |
| Classifier.ClassificationConfidence | lexguard/nlp/clause_classifier.py:169-193 | a ratio in [0, 1]: one half for unsure or misc, else the matched patterns over three, capped at one |
| Classifier.CountMatchedPatterns | lexguard/nlp/clause_classifier.py:186-189 | the loop counts the matching patterns of the type |
| Classifier.RuleTypeHasPositiveConfidence | lexguard/nlp/clause_classifier.py:180-192 | a clause the rules give a type has at least one matching pattern of that type |
| Scoring.BaseScore | lexguard/risk/scoring.py:65-75 | every type's base score lies between 0.10 and 0.60 |
| Scoring.Fire | lexguard/risk/scoring.py:79-81 | the score and reasons gain the rule's delta and reason exactly when it fires |
| Scoring.ApplyLiabilityRules | lexguard/risk/scoring.py:78-93 | the score and reasons gain exactly the deltas and reasons of the liability rules that fire |
| Scoring.ApplyNoticeRule | lexguard/risk/scoring.py:98-106 | the score and reasons gain the notice-period adjustment when a notice period is found |
| Scoring.ApplyTerminationRules | lexguard/risk/scoring.py:96-114 | the score and reasons gain exactly the deltas and reasons of the termination rules that fire |
| Scoring.ApplyDurationRule | lexguard/risk/scoring.py:119-132 | the score and reasons gain the non-compete duration adjustment when a duration is found |
| Scoring.ApplyNonCompeteRules | lexguard/risk/scoring.py:117-136 | the score and reasons gain exactly the deltas and reasons of the non-compete rules that fire |
| Scoring.ApplyIpRules | lexguard/risk/scoring.py:139-146 | the score and reasons gain exactly the deltas and reasons of the intellectual-property rules that fire |
| Scoring.ApplyPaymentRules | lexguard/risk/scoring.py:149-156 | the score and reasons gain exactly the deltas and reasons of the payment rules that fire |
| Scoring.ApplyGeneralRules | lexguard/risk/scoring.py:159-169 | the score and reasons gain exactly the deltas and reasons of the rules for every type that fire |
| Scoring.ApplyTypeRules | lexguard/risk/scoring.py:77-156 | from the base score, only the rules of the clause's own type are applied |
| Scoring.CalculateRiskScore | lexguard/risk/scoring.py:53-179 | the score is the base plus the fired deltas, capped at 1.0, with the fired reasons or else the standard reason |
| Scoring.RiskScore | lexguard/risk/scoring.py:64-172 | the score lies between the type's base score and 1.0 |
| Scoring.RiskReasons | lexguard/risk/scoring.py:174-177 | there is always at least one reason |
| Scoring.ScoreToLevel | lexguard/risk/scoring.py:212-227 | low exactly below 0.33, high exactly from 0.66, as the score read as a fraction |
| Scoring.ApplyAllRules | lexguard/risk/scoring.py:64-169 | from the base score, the type's rules and then the general rules are applied |
| Scoring.CalculateClauseRisk | lexguard/risk/scoring.py:13-50 | the clause gets the rule score and its level, its other fields unchanged; the record carries both and no recommendations |
| Scoring.RiskScoreBounds | lexguard/risk/scoring.py:75-172 | a score lies between its type's base score, at least 0.10, and 1.0 |
| Scoring.StandardReasonIffBaseScore | lexguard/risk/scoring.py:174-177 | no rule fires exactly when the score is the base; then the one reason is the standard one, else one reason per fired rule |
| Scoring.ScoreToLevelMonotone | lexguard/risk/scoring.py:212-227 | a higher score never gives a lower level |
| Scoring.UnlimitedIndemnityIsHighRisk | lexguard/risk/scoring.py:78-85 | an unlimited indemnity clause scores at least 0.95 and is of high risk |
| Scoring.ImmediateTerminationWithoutCause | lexguard/risk/scoring.py:108-114 | immediate termination without cause scores at least 0.75 and gives the immediate-termination reason |
| Scoring.ThreeYearGlobalNonCompeteIsCapped | lexguard/risk/scoring.py:119-136 | a three-year worldwide non-compete scores exactly 1.0 |
| Scoring.PlainMiscClauseIsLowRisk | lexguard/risk/scoring.py:159-177 | a misc clause that fires nothing is of low risk with the standard reason |
| Scoring.UnpaidPositionIsRisky | lexguard/risk/scoring.py:150-152 | an unpaid payment clause scores at least 0.60 and gives the no-payment reason |
| Negotiation.SuggestNegotiationPoints | lexguard/risk/negotiation.py:11-41 | the rule list, extended by the model's items only when asked and the level is medium or high, deduplicated ignoring case, at most five; None when an item is not a string |
| Negotiation.NegotiationPoints | lexguard/risk/negotiation.py:11-41 | at most five suggestions when every item is a string |
| Negotiation.LlmSuggestions | lexguard/risk/negotiation.py:161-175 | anything but a JSON object, and a failed call, give a list |
| Negotiation.LlmSuggestionsCases | lexguard/risk/negotiation.py:161-175 | a failed call or a scalar reply gives []; a list reply is kept as it is; an object gives the value of its last "suggestions" binding, or [] without one |
| Negotiation.LookupIsLastBinding | lexguard/risk/negotiation.py:165-166 | `result["suggestions"]` is the value of the last binding of the key, as decoding keeps it |
| Negotiation.DedupAndTruncate | lexguard/risk/negotiation.py:34-41 | the loop keeps the first of each lower-cased text, at most five; None when an item is not a string |
| Negotiation.Texts | lexguard/risk/negotiation.py:37 | when every item is a string, one text per item |
| Negotiation.TextsOfPrefix | lexguard/risk/negotiation.py:36-38 | an item that is not a string makes the whole list fail, as `lower()` raises on it |
| Negotiation.DedupProperties | lexguard/risk/negotiation.py:34-39 | each kept suggestion is an input, no two share a lower-cased form, every input's lower-cased form is kept, never more than the input |
| Negotiation.DedupPrefix | lexguard/risk/negotiation.py:34-39 | deduplicating a longer list extends the deduplicated prefix |
| Negotiation.DedupOfDistinct | lexguard/risk/negotiation.py:34-39 | suggestions whose lower-cased forms differ are kept as they are |
| Negotiation.RuleSuggestionsShape | lexguard/risk/negotiation.py:44-131 | five suggestions for a type with its own list, three general ones otherwise, none repeated ignoring case |
| Negotiation.RulesOnlyGivesTypeList | lexguard/risk/negotiation.py:22-41 | without augmentation the result is exactly the type's rule list |
| Negotiation.SpecificListsIgnoreAugmentation | lexguard/risk/negotiation.py:22-41 | a type with its own five-item list gets that list whatever the model adds |
| Parties.RoleCascade | lexguard/analysis/parties.py:60-75 | the role is one of five: the first cue group (employer, employee, vendor, client) that matches after the name decides, else the default |
| Parties.Role | lexguard/analysis/parties.py:60-75 | the role is one of the five role names |
| Parties.RoleOutcome | lexguard/analysis/parties.py:60-75 | when no search raises, the role is the cascade's |
| Parties.RoleOutcomeRaises | lexguard/analysis/parties.py:62-73 | a name whose first pattern does not compile raises its `re.error`; when all four compile the role is the cascade's; any error raised is the compile error of one of the four patterns |
| Parties.RoleWindowOnly | lexguard/analysis/parties.py:62-73 | the role depends only on the first 1000 characters |
| Parties.AddPatternMatches | lexguard/analysis/parties.py:39-47 | the loop adds each match's candidates in match order, and stops with the `re.error` of the first added name whose role search raises |
| Parties.Dedup | lexguard/analysis/parties.py:49-55 | the loop keeps the first candidate of each name |
| Parties.IdentifyParties | lexguard/analysis/parties.py:10-57 | the parties are the unique candidates of the first 2000 characters, at most five; or the `re.error` of the first candidate name whose role search raises |
| Parties.IdentifiedParties | lexguard/analysis/parties.py:10-57 | at most five parties |
| Parties.AllCompileGivesParties | lexguard/analysis/parties.py:10-75 | when every pattern compiles, the parties are returned |
| Parties.RaisedForLookedUpName | lexguard/analysis/parties.py:44-47 | an error comes from the role search of a candidate name of more than five characters, not from a "between" pair |
| Parties.UniqueSameNames | lexguard/analysis/parties.py:49-55 | deduplication keeps exactly the names of the candidates |
| Parties.UniqueIsFirstOccurrences | lexguard/analysis/parties.py:49-55 | each kept party is the first candidate with its name |
| Parties.UniqueDistinct | lexguard/analysis/parties.py:49-55 | no two kept parties share a name |
| Parties.CandidatesWellFormed | lexguard/analysis/parties.py:36-47 | every candidate has a stripped name and a known role; a name not from a "between" match has more than five characters |
| Parties.BetweenAddsPairs | lexguard/analysis/parties.py:40-42 | "between" matches append their pairs, none skipped or merged |
| Parties.PairsAt | lexguard/analysis/parties.py:40-42 | pair j holds match j's stripped first and second party names |
| Parties.OtherMatchIsNew | lexguard/analysis/parties.py:44-47 | another match adds only a stripped name of more than five characters not yet listed, with its role |
| Parties.IdentifiedPartiesShape | lexguard/analysis/parties.py:10-57 | at most five parties, distinct names, well formed, each a candidate |
| Parties.SearchWindowOnly | lexguard/analysis/parties.py:34 | text after the first 2000 characters never changes the parties |
| Obligations.CollapseWhitespace | lexguard/analysis/obligations.py:54 | collapsing never lengthens the text |
| Obligations.CollapseWhitespaceTidy | lexguard/analysis/obligations.py:54 | the collapsed text has only single spaces as whitespace and no new characters, with its ends kept |
| Obligations.Cleaned | lexguard/analysis/obligations.py:52-54 | one cleaned phrase per match |
| Obligations.PatternItems | lexguard/analysis/obligations.py:50-56 | every item comes from a match of one of the patterns |
| Obligations.CollectItems | lexguard/analysis/obligations.py:50-58 | the loop keeps the cleaned phrases of suitable length, pattern by pattern, at most eight |
| Obligations.ExtractRequirements | lexguard/analysis/obligations.py:33-58 | the requirements of the positive or negative patterns |
| Obligations.ExtractRights | lexguard/analysis/obligations.py:61-78 | the rights of the three patterns |
| Obligations.ExtractResponsibilities | lexguard/analysis/obligations.py:81-97 | the responsibilities of the two patterns |
| Obligations.ObligationMap | lexguard/analysis/obligations.py:22-27 | exactly the four keys, each list at most eight long |
| Obligations.ExtractObligations | lexguard/analysis/obligations.py:10-30 | the four lists under their keys |
| Obligations.CleanItemTidy | lexguard/analysis/obligations.py:52-54 | a cleaned phrase is stripped, single-spaced and has only characters of the capture |
| Obligations.KeptItemsAppend | lexguard/analysis/obligations.py:50-56 | filtering keeps order across concatenation |
| Obligations.MatchItemsAppend | lexguard/analysis/obligations.py:51-56 | items of consecutive matches are concatenated in match order |
| Obligations.PatternItemsAppend | lexguard/analysis/obligations.py:50-56 | items appear in pattern order |
| Obligations.DuplicatesKept | lexguard/analysis/obligations.py:50-56 | repeated phrases are listed twice, not merged |
| Obligations.PatternItemsTidy | lexguard/analysis/obligations.py:52-56 | every item has between 11 and 199 characters and is tidy |
| Obligations.KeptItemsFrom | lexguard/analysis/obligations.py:55-56 | every kept item is an input phrase of suitable length |
| Obligations.PatternItemsWithoutPeriod | lexguard/analysis/obligations.py:40-56 | when the captures hold no period, no item does |
| KeyTerms.Captures | lexguard/analysis/key_terms.py:49 | one capture per match |
| KeyTerms.QuotedTerms | lexguard/analysis/key_terms.py:41-46 | one defined term per quoted-term match |
| KeyTerms.Terms | lexguard/analysis/key_terms.py:53 | one term per entry |
| KeyTerms.CollectQuotedTerms | lexguard/analysis/key_terms.py:41-46 | the first loop gives the quoted terms in match order |
| KeyTerms.AppendFrequentTerms | lexguard/analysis/key_terms.py:52-54 | the second loop appends the frequent phrases not yet listed |
| KeyTerms.ExtractDefinedTerms | lexguard/analysis/key_terms.py:35-56 | the quoted terms, then at most ten frequent phrases, at most fifteen in all |
| KeyTerms.DefinedTerms | lexguard/analysis/key_terms.py:35-56 | at most fifteen terms |
| KeyTerms.FrequentTerms | lexguard/analysis/key_terms.py:49-50 | a frequent phrase is one of the captured phrases |
| KeyTerms.FrequentTermsExact | lexguard/analysis/key_terms.py:49-50 | a phrase is frequent exactly when it occurs at least three times; none is listed twice |
| KeyTerms.FrequentAmongExact | lexguard/analysis/key_terms.py:50 | the frequency filter keeps exactly the frequent elements and adds no duplicate |
| KeyTerms.AddFrequentShape | lexguard/analysis/key_terms.py:52-54 | the second loop only appends frequent phrases with the fixed definition, none repeating an earlier term |
| KeyTerms.DefinedTermsShape | lexguard/analysis/key_terms.py:35-56 | at most fifteen terms: quoted terms first, then frequent phrases, each new |
| KeyTerms.AmountsOf | lexguard/analysis/key_terms.py:66-72 | one amount entry per money match |
| KeyTerms.ExtractMonetaryAmounts | lexguard/analysis/key_terms.py:59-74 | the entries of the money matches, at most ten |
| KeyTerms.ContextIsStrippedGroup | lexguard/analysis/key_terms.py:68-71 | the context is the stripped group, or "Not specified" when that is empty |
| KeyTerms.AmountsShape | lexguard/analysis/key_terms.py:59-74 | at most ten amounts, each starting with "$" and with a stripped non-empty context |
| KeyTerms.Entities | lexguard/analysis/key_terms.py:77-86 | at most ten entities |
| KeyTerms.EntitiesShape | lexguard/analysis/key_terms.py:77-86 | at most ten entities, no two alike, each one of the matches |
| KeyTerms.MatchPeriods | lexguard/analysis/key_terms.py:101-105 | one period per match, with its whole text and the pattern's kind |
| KeyTerms.AppendPeriods | lexguard/analysis/key_terms.py:101-105 | the inner loop appends one period per match |
| KeyTerms.ExtractTimePeriods | lexguard/analysis/key_terms.py:89-107 | the periods of the three patterns in order, at most ten |
| KeyTerms.PatternPeriodsAppend | lexguard/analysis/key_terms.py:100-105 | periods appear in pattern order |
| KeyTerms.PatternPeriodsFrom | lexguard/analysis/key_terms.py:100-105 | every period is the whole text of a match with its pattern's kind |
| KeyTerms.TimePeriodsShape | lexguard/analysis/key_terms.py:89-107 | at most ten periods, each a duration, relative time or frequency |
| KeyTerms.ExtractKeyConcepts | lexguard/analysis/key_terms.py:110-128 | the entries of the concepts found in the lower-cased text, in list order, at most twelve |
| KeyTerms.ConceptEntriesExact | lexguard/analysis/key_terms.py:119-128 | exactly the concepts found get an entry, with their positive occurrence count |
| KeyTerms.ExtractKeyTerms | lexguard/analysis/key_terms.py:11-32 | the five lists under their five keys |
| Dates.AppendDates | lexguard/analysis/dates.py:44-56 | the inner loop appends one entry per match |
| Dates.ExtractImportantDates | lexguard/analysis/dates.py:11-58 | the entries of the seven patterns in order, at most ten |
| Dates.ImportantDates | lexguard/analysis/dates.py:11-58 | at most ten dates |
| Dates.WindowInBounds | lexguard/analysis/dates.py:48-49 | the context window lies in the text and covers the match with at most 20 characters before and 30 after |
| Dates.NewlinesToSpacesShape | lexguard/analysis/dates.py:50 | the replacement leaves no newline and changes nothing else |
| Dates.ContextShape | lexguard/analysis/dates.py:48-55 | a context is stripped and has no newline |
| Dates.PatternDatesAppend | lexguard/analysis/dates.py:43-56 | dates appear in pattern order |
| Dates.PatternDatesFrom | lexguard/analysis/dates.py:43-56 | every entry comes from a match of a pattern and carries its type |
| Dates.DateOfShape | lexguard/analysis/dates.py:45-56 | an entry has a stripped date text and a stripped context without newlines |
| Dates.PatternDatesShape | lexguard/analysis/dates.py:43-56 | patterns of the six types give only well-formed entries of those types |
| Dates.ImportantDatesShape | lexguard/analysis/dates.py:26-58 | at most ten dates, each of one of the six types and well formed |
| SummaryBuilder.StoredFormsAgree | lexguard/reports/summary_builder.py:215-220 | a stored value string and a stored enum member give the same type value exactly when they name the same type |
| SummaryBuilder.TallyClauses | lexguard/reports/summary_builder.py:75-98 | the loop computes type counts, type order, risk counts, high-risk list and key clauses |
| SummaryBuilder.TallyOf | lexguard/reports/summary_builder.py:75-98 | the high-risk list is never longer than the clause list |
| SummaryBuilder.TypeCountsSnoc | lexguard/reports/summary_builder.py:86 | one more clause adds one to its type's count |
| SummaryBuilder.CountType | lexguard/reports/summary_builder.py:85-86 | the type count step keeps the counts and the insertion order |
| SummaryBuilder.RiskCountsSnoc | lexguard/reports/summary_builder.py:89-90 | one more clause adds one to its level's count, nothing without a level |
| SummaryBuilder.CountRisk | lexguard/reports/summary_builder.py:89-92 | the risk step keeps the counts and the high-risk list |
| SummaryBuilder.KeyClausesStep | lexguard/reports/summary_builder.py:95-98 | a clause joins its type's list while the list has fewer than two |
| SummaryBuilder.KeepKeyClause | lexguard/reports/summary_builder.py:95-98 | the key-clause step keeps the first two clauses of each type |
| SummaryBuilder.TypeCountsSum | lexguard/reports/summary_builder.py:83-86 | the type counts add up to the number of clauses |
| SummaryBuilder.RiskCountsSum | lexguard/reports/summary_builder.py:79-90 | the risk counts add up to the number of clauses with a level |
| SummaryBuilder.HighRiskClausesExact | lexguard/reports/summary_builder.py:89-92 | the high-risk list holds exactly the clauses of level high |
| SummaryBuilder.InsertByCountKeeps | lexguard/reports/summary_builder.py:112-114 | an insertion adds exactly the entry |
| SummaryBuilder.InsertByCountSorted | lexguard/reports/summary_builder.py:112-114 | an insertion keeps the list sorted by decreasing count |
| SummaryBuilder.SortByCountSorted | lexguard/reports/summary_builder.py:112-114 | the sort orders by decreasing count |
| SummaryBuilder.SortByCountKeeps | lexguard/reports/summary_builder.py:112-114 | the sort is a permutation of the entries |
| SummaryBuilder.SortByCount | lexguard/reports/summary_builder.py:112-114 | the sort keeps the number of entries |
| SummaryBuilder.BuildRuleBasedSummary | lexguard/reports/summary_builder.py:65-188 | the summary lines of the contract, joined with newlines |
| SummaryBuilder.RuleBasedSummary | lexguard/reports/summary_builder.py:65-188 | the summary opens with the contract's title line |
| SummaryBuilder.LlmInputTextShape | lexguard/reports/summary_builder.py:46-49 | a text within 8000 characters is sent whole, a longer one cut and marked |
| SummaryBuilder.BuildContractSummary | lexguard/reports/summary_builder.py:11-28 | the model's summary when asked for and it answers, else the rule-based one |
| SummaryBuilder.AssessmentOfClauses | lexguard/reports/summary_builder.py:125-139 | the warning exactly when some clause is high, else the note exactly when over three are medium |
| SummaryBuilder.HighRiskSectionShape | lexguard/reports/summary_builder.py:172-177 | at most the first three high-risk clauses are shown, cut to 180 characters; none gives no section |
| SummaryBuilder.PaymentHighlights | lexguard/reports/summary_builder.py:144-151 | the payment highlights are the first two payment clauses, cut to 200 characters |
| SummaryBuilder.TypeLinesSorted | lexguard/reports/summary_builder.py:111-116 | every type is listed once with its count, by decreasing count |
| SummaryBuilder.RecommendationsShape | lexguard/reports/summary_builder.py:180-186 | the two extra recommendations appear exactly when a clause is high |
| SummaryBuilder.GetKeyRisks | lexguard/reports/summary_builder.py:191-212 | one line per high-risk clause, up to the limit |
| SummaryBuilder.KeyRisksShape | lexguard/reports/summary_builder.py:202-212 | a non-negative limit gives min(limit, high count) lines, a negative one drops from the end |
| UploadRoute.ProcessClause | backend/routes/upload.py:117-138 | a new clause classified and scored by the rules; suggestions only for medium or high risk, on the risk record |
| UploadRoute.Segments | backend/routes/upload.py:96 | every segment is stripped, reaches 50 characters and is not a header |
| UploadRoute.Expected | backend/routes/upload.py:117-133 | the clause holds its segment and contract id, and its level is the level of its score |
| UploadRoute.ProcessClauseKept | backend/routes/upload.py:117-140 | the clause for segment i is the expected one |
| UploadRoute.ProcessClauses | backend/routes/upload.py:115-142 | clause k is built from segment k |
| UploadRoute.SaveUpload | backend/routes/upload.py:105-160 | the contract is saved under its id with one clause per segment, and the count is reported |
| UploadRoute.UploadContract | backend/routes/upload.py:33-166 | 400 for a non-PDF name, a short text or no clauses; 500 when extraction raised; else saved |
| UploadRoute.ClauseIdsDistinct | backend/routes/upload.py:123 | two clause ids of a contract are equal exactly when their indices are |
| UploadRoute.ClauseIdShape | backend/routes/upload.py:123 | a clause id starts with the contract id and "_clause_" |
| UploadRoute.ExpectedShape | backend/routes/upload.py:117-133 | the clause carries its segment, is scored, and its level is the level of its score |
| UploadRoute.ExpectedStatesShape | backend/routes/upload.py:115-142 | clause k has index k, segment k, a distinct id and a consistent score and level |
| ContractRoute.FirstUnbuildable | backend/routes/contract.py:142-162 | the walk stops at the first clause whose stored risk fails validation |
| ContractRoute.RiskOfNoneIff | backend/routes/contract.py:144-153 | exactly the clauses whose stored risk fails validation have no entry |
| ContractRoute.RiskOf | backend/routes/contract.py:143-157 | an entry carries its clause's id |
| ContractRoute.ClauseEntry | backend/routes/contract.py:143-157 | the entry of a clause, scoring it first when it has no score |
| ContractRoute.WalkStep | backend/routes/contract.py:142-162 | one turn of the loop: the clause is visited and its entry collected and counted |
| ContractRoute.Scored | backend/routes/contract.py:143-145 | a visited clause has a score and keeps its id, text and type; a scored clause is unchanged |
| ContractRoute.GetContractRisk | backend/routes/contract.py:121-175 | 404 for an unknown contract; else the summary of the saved clauses; the saved clause objects are unchanged, since only the loaded copy is scored and it is never saved |
| ContractRoute.RiskWalk | backend/routes/contract.py:137-175 | the loop over the loaded clauses gives the summary, with the clauses before the stop scored in place and the rest as they were |
| ContractRoute.RiskResponseError | backend/routes/contract.py:173-175 | a clause without an entry makes the summary an error 500 |
| ContractRoute.RiskResponseOk | backend/routes/contract.py:164-171 | otherwise the summary lists the entries and counts their levels |
| ContractRoute.RiskResponse | backend/routes/contract.py:139-175 | an error is the 500 answer; a summary is for the contract, with one entry per clause and the clause count as total |
| ContractRoute.CountLevelsTotal | backend/routes/contract.py:161-162 | every entry is counted under exactly one level |
| ContractRoute.RiskResponseTotals | backend/routes/contract.py:139-171 | total is the clause count, high + medium + low equals it, and it fails exactly on a bad stored risk |
| ContractRoute.RiskOfShape | backend/routes/contract.py:143-157 | a rule entry for an unscored clause, the stored one for a scored clause, suggestions only for medium or high |
| ContractRoute.ScoredIdempotent | backend/routes/contract.py:143-145 | visiting a clause twice is visiting it once; it then has a score |
| ContractRoute.WalkShape | backend/routes/contract.py:142-162 | clauses before the stop are scored, the rest untouched |
| ContractRoute.FirstWithId | backend/routes/contract.py:292-296 | the index of the first clause with the id, or the count when none has it |
| ContractRoute.FindClause | backend/routes/contract.py:292-296 | the search loop with break finds that first index |
| ContractRoute.FirstWithIdUnique | backend/routes/contract.py:292-296 | only one index is the first with an id |
| ContractRoute.Reanalyse | backend/routes/contract.py:302-309 | the clause gets the new text, its rule type and the rule score and level |
| ContractRoute.AnalyzeClause | backend/routes/contract.py:273-318 | 404 for an unknown contract or clause id; otherwise only the first clause with the id changes |
| ContractRoute.ReanalysedShape | backend/routes/contract.py:302-309 | the new text, type, score and level are set and the rest kept; doing it again changes nothing |
| LlmMessages.AppendToLast | lexguard/llm/ollama_client.py:89-90 | IndexError for no messages, KeyError without content, else the suffix on the last content |
| LlmMessages.AppendedToLast | lexguard/llm/gemini_client.py:68-69 | only the last content changes, by the suffix |
| LlmMessages.AppendSeenByCaller | lexguard/llm/gemini_client.py:68-69 | the list copy shares the dicts, so the caller's list sees the append |
| GeminiClient.MessagesToPrompt | lexguard/llm/gemini_client.py:78-94 | the loop builds the prompt of the messages' values |
| GeminiClient.NormalizeModelName | lexguard/llm/gemini_client.py:17-26 | a model name always starts with "models/" |
| GeminiClient.Prompt | lexguard/llm/gemini_client.py:78-94 | the prompt ends with the "Assistant:" cue |
| GeminiClient.ChatStructured | lexguard/llm/gemini_client.py:61-76 | the instruction is appended to the caller's last message; the reply is parsed, or the fallback with the raw reply; a last message without content raises KeyError and is left as it was |
| GeminiClient.NormalizeModelNameShape | lexguard/llm/gemini_client.py:17-26 | the name starts with "models/" and is stripped; None or "" give the default |
| GeminiClient.NormalizeModelNameIdempotent | lexguard/llm/gemini_client.py:17-26 | normalising twice is normalising once |
| GeminiClient.PromptShape | lexguard/llm/gemini_client.py:81-94 | one part per message with its role's prefix, any other role as User, the cue last |
| GeminiClient.StructuredReplyShape | lexguard/llm/gemini_client.py:71-76 | a reply is never turned into an exception; non-JSON gives the error and the raw reply |
| OllamaClient.MessagesToPrompt | lexguard/llm/ollama_client.py:117-141 | the loop builds the prompt, or raises KeyError for the first missing key |
| OllamaClient.Prompt | lexguard/llm/ollama_client.py:117-141 | a prompt that is built ends with the "Assistant:" cue |
| OllamaClient.ChatStructured | lexguard/llm/ollama_client.py:74-115 | the instruction is appended to the caller's last message; the reply is unfenced and parsed; a body that is not JSON gives the fallback; a last message without content raises KeyError and is left as it was |
| OllamaClient.PromptRaisesIff | lexguard/llm/ollama_client.py:129-131 | the prompt fails exactly when some message lacks a key, with that key |
| OllamaClient.PromptEndsWithCue | lexguard/llm/ollama_client.py:140-141 | a prompt ends with "Assistant:" |
| OllamaClient.PromptPartsFromMessages | lexguard/llm/ollama_client.py:133-138 | every part is a known role's prefix and a message's content |
| OllamaClient.UnknownRoleDropped | lexguard/llm/ollama_client.py:129-138 | a message with an unknown role leaves the prompt as without it |
| OllamaClient.SameAsGeminiPrompt | lexguard/llm/ollama_client.py:117-141 | with known roles and both keys the two clients build the same prompt |
| OllamaClient.KeptIsGeminiParts | lexguard/llm/ollama_client.py:129-138 | the kept parts are the Gemini parts when every role is known |
| OllamaClient.NoFenceKeepsText | lexguard/llm/ollama_client.py:95-107 | without a fence the stripped reply is parsed |
| OllamaClient.ClosedFence | lexguard/llm/ollama_client.py:98-105 | a closed fence gives the stripped text between it and the next fence, which holds no fence |
| OllamaClient.UnclosedFenceDropsLastChar | lexguard/llm/ollama_client.py:99-101 | with no closing fence the slice loses the reply's last character |
| OllamaClient.ExtractPayloadCases | lexguard/llm/ollama_client.py:95-105 | the json fence first, else a plain fence, else the stripped reply |
| OllamaClient.ExtractPayload | lexguard/llm/ollama_client.py:95-105 | the text handed to the JSON parser is stripped |
| OllamaClient.ParseReplyShape | lexguard/llm/ollama_client.py:107-112 | JSON is returned parsed, anything else as the error payload alone |
| OllamaClient.StructuredReplyErrors | lexguard/llm/ollama_client.py:29-115 | a KeyError or another server failure passes through; a server body that is not JSON gives the fallback, as do replies that do not parse |
| ChatRoute.BuildContext | backend/routes/chat.py:71-90 | the loop builds the numbered context and one response entry per result |
| ChatRoute.ChatWithContract | backend/routes/chat.py:31-116 | 404 unknown; 500 when search or the model raises; the fixed answer for no results; else the answer and the entries |
| ChatRoute.RelevantShape | backend/routes/chat.py:79-88 | one entry per result in order, text cut to 200 characters plus "...", "unknown" for missing metadata |
| ChatRoute.ContextHoldsEveryResult | backend/routes/chat.py:71-90 | every result's block and full text occur in the context |
| ChatRoute.OccursWithin | backend/routes/chat.py:71-90 | a text occurring inside a block that occurs in the context occurs in the context at the summed offset |
| ChatRoute.ModelSeesQuestionAndClauses | backend/routes/chat.py:96-104 | the model gets the system role, then a prompt holding the question and every result's text |
| ChatRoute.BlockNumbersDistinct | backend/routes/chat.py:71-77 | blocks with different numbers differ |

## Left out

- Regular-expression matching itself: patterns are matched by an abstract engine, so no property depends on what a pattern matches beyond what is stated as an assumption (`Sound` match lists, captures without periods). Which patterns compile is a parameter as well; only the party extractor builds patterns from data.
- Parties.RoleCascade: it states the cascade as it runs when all four role patterns compile; the `re.error` case is stated by Parties.RoleOutcomeRaises and Parties.IdentifyParties.
- Unicode: lower-casing, title-casing, `isupper`, `isprintable` and `isdigit` are modelled on ASCII; `isspace` uses Python's whitespace set.
- Floating point: scores are exact hundredths, and the OCR ratio is compared in integers.
- Scoring.CalculateClauseRisk: the language-model blend (70% model, 30% rules) is not modelled; the rule score is the result, as when the model call fails.
- UploadRoute.UploadContract: the 500 answer `"Error processing file: ..."` when `vector_store.upsert_clauses` or `save_contract` raises is not modelled, since the vector store is absent and the store is a map that cannot fail.
- ContractRoute.AnalyzeClause: its `calculate_clause_risk(use_llm=True)` is modelled as the rule score, the result when the model call fails; the 500 answer when saving raises is not modelled, since saving is outside the model.
- ContractRoute.AnalyzeClause: it changes the stored clause object in place, which has the effect of the source's load, change and `save_contract`; it requires the stored clause objects to be distinct, as loading makes them.
- UploadRoute.ProcessClauses: it does not state that the clause objects are new and distinct; it states that their ids are distinct.
- KeyTerms.EntitiesShape: `list(set(matches))` has no fixed order in Python; the model lists the set in order of first occurrence.
- The language models' network calls (Gemini, Ollama and the other providers), their temperature and token settings, the client factory and the configuration: the model's reply is a parameter.
- Ollama's mapping of a connection failure to `ConnectionError` is part of the network call and is not modelled.
- The prompt templates other than the question-answering one; the risk, classification, suggestion and summary prompts are sent to the model, whose reply is a parameter.
- The vector store (embedding, upsert and similarity ranking): search results are a parameter.
- PDF text extraction and OCR: the extracted text is a parameter; only the OCR decision is modelled.
- `parse_date` in lexguard/analysis/dates.py is not modelled: it depends on `datetime.strptime`.
- Saving and loading contracts on disk, the upload file copy, the generated uuid and the upload time: storage is a map and the id and time are parameters.
- The other endpoints (contract list, contract details, clause list, PDF and Word reports) and the Streamlit front end.
- Logging.
