/*
 * The question-answering endpoint: the closest clauses of the contract are
 * looked up, numbered into a context for the language model, and returned with
 * the model's answer. The vector search and the model are parameters: `search`
 * gives the results for a contract, a query and a count (or the exception it
 * raised), `chat` the model's answer to a list of messages (or the exception
 * raised by the client or while creating it).
 */
module ChatRoute {
  import opened Wrappers
  import opened TextUtil
  import opened Http
  import opened ContractModel
  import opened LlmMessages

  /** One hit of the vector search: the clause id, its text and its stored metadata. */
  datatype SearchResult = SearchResult(id: string, text: string, metadata: map<string, string>)

  /** An entry of `relevant_clauses` in the response. */
  datatype RelevantClause = RelevantClause(id: string, text: string, clauseType: string, riskLevel: string)

  /** The body of a successful chat request. */
  datatype ChatResponse = ChatResponse(answer: string, relevantClauses: seq<RelevantClause>)

  const NotFoundDetail := "Contract not found"
  const ChatErrorDetail := "Error processing your question. Please try again."
  const NoResultsAnswer := "I couldn't find relevant clauses to answer your question. Try rephrasing or ask about specific topics like termination, liability, or payment."
  const SystemInstruction := "You are a legal contract assistant. Answer questions accurately based on the provided contract clauses."
  const SearchK := 5
  const SnippetLimit := 200
  const Unknown := "unknown"

  /** The head and tail of the question-answering prompt template around the context and the question. */
  const QaPromptHead := "You are a legal contract assistant. Answer the user's question about their contract based on the relevant clauses provided.\n\nRelevant clauses:\n"
  const QaPromptMiddle := "\n\nUser question: "
  const QaPromptTail := "\n\nProvide a clear, accurate answer. If the answer isn't in the provided context, say so.\nBe specific and cite relevant clause details when possible.\n"

  /** `metadata.get(key, "unknown")`. */
  function MetadataGet(metadata: map<string, string>, key: string): string
  {
    if key in metadata then metadata[key] else Unknown
  }

  /** The context block for the `number`-th result (numbered from 1). */
  function ContextBlock(number: nat, r: SearchResult): string
  {
    "Clause " + NatToString(number) + " [" + MetadataGet(r.metadata, "clause_type") + "]:\n" + r.text + "\n"
  }

  /** The response entry for a result: the text cut to 200 characters plus "...", the type and level or "unknown". */
  function Relevant(r: SearchResult): RelevantClause
  {
    RelevantClause(r.id, Snippet(r.text, SnippetLimit), MetadataGet(r.metadata, "clause_type"), MetadataGet(r.metadata, "risk_level"))
  }

  /** The blocks for the results in order, numbered from 1. */
  function ContextBlocks(results: seq<SearchResult>): seq<string>
  {
    MapIndexed((k: nat, r: SearchResult) => ContextBlock(k + 1, r), results)
  }

  /** `"\n".join(context_parts)`. */
  function Context(results: seq<SearchResult>): string
  {
    Join(ContextBlocks(results), "\n")
  }

  /** `CONTRACT_QA_PROMPT.format(context=context, question=query)`. */
  function QaPrompt(context: string, question: string): string
  {
    QaPromptHead + context + QaPromptMiddle + question + QaPromptTail
  }

  /** The system instruction, then the prompt as the user's message. */
  function ChatMessages(prompt: string): seq<MessageValue>
  {
    [MessageValue(Some("system"), Some(SystemInstruction)), MessageValue(Some("user"), Some(prompt))]
  }

  /** The loop over `enumerate(search_results, 1)`: the context and the response entries. */
  method BuildContext(results: seq<SearchResult>) returns (context: string, relevantClauses: seq<RelevantClause>)
    ensures context == Context(results)
    ensures relevantClauses == Map(Relevant, results)
  {
    var contextParts: seq<string> := [];
    relevantClauses := [];
    for i := 0 to |results|
      invariant contextParts == MapIndexed((k: nat, r: SearchResult) => ContextBlock(k + 1, r), results[..i])
      invariant relevantClauses == Map(Relevant, results[..i])
    {
      var result := results[i];
      var number := i + 1;
      MapIndexedStep((k: nat, r: SearchResult) => ContextBlock(k + 1, r), results, i);
      MapStep(Relevant, results, i);
      contextParts := contextParts + [ContextBlock(number, result)];
      var clauseType := MetadataGet(result.metadata, "clause_type");
      var riskLevel := MetadataGet(result.metadata, "risk_level");
      relevantClauses := relevantClauses + [RelevantClause(result.id, Snippet(result.text, SnippetLimit), clauseType, riskLevel)];
    }
    assert results[..|results|] == results;
    context := Join(contextParts, "\n");
  }

  /** `chat_with_contract(contract_id, request)`. */
  method ChatWithContract(
    store: Store, contractId: string, query: string,
    search: (string, string, nat) -> Outcome<seq<SearchResult>>,
    chat: seq<MessageValue> -> Outcome<string>)
    returns (r: Response<ChatResponse>)
    ensures contractId !in store ==> r == Error(404, NotFoundDetail)
    ensures contractId in store && search(contractId, query, SearchK).Raised? ==> r == Error(500, ChatErrorDetail)
    ensures contractId in store && search(contractId, query, SearchK) == Done([]) ==>
      r == Ok(ChatResponse(NoResultsAnswer, []))
    ensures contractId in store && search(contractId, query, SearchK).Done? && search(contractId, query, SearchK).value != [] ==>
      var results := search(contractId, query, SearchK).value;
      var reply := chat(ChatMessages(QaPrompt(Context(results), query)));
      && (reply.Raised? ==> r == Error(500, ChatErrorDetail))
      && (reply.Done? ==> r == Ok(ChatResponse(reply.value, Map(Relevant, results))))
  {
    var contract := Load(store, contractId);
    if contract.None? {
      return Error(404, NotFoundDetail);
    }
    var searchResults := search(contractId, query, SearchK);
    if searchResults.Raised? {
      return Error(500, ChatErrorDetail);
    }
    if searchResults.value == [] {
      return Ok(ChatResponse(NoResultsAnswer, []));
    }
    var context, relevantClauses := BuildContext(searchResults.value);
    var prompt := QaPrompt(context, query);
    var messages := ChatMessages(prompt);
    var answer := chat(messages);
    if answer.Raised? {
      return Error(500, ChatErrorDetail);
    }
    r := Ok(ChatResponse(answer.value, relevantClauses));
  }

  // ---------------------------------------------------------------- properties

  /** An occurrence inside an occurrence is an occurrence. */
  lemma OccursWithin(s: string, b: string, t: string, i: nat, j: nat)
    requires OccursAt(s, b, i) && OccursAt(b, t, j)
    ensures OccursAt(s, t, i + j)
  {
    forall q | 0 <= q < |t| ensures s[i + j + q] == t[q] {
      assert s[i + j + q] == s[i..i + |b|][j + q];
      assert t[q] == b[j..j + |t|][q];
    }
    assert s[i + j..i + j + |t|] == t;
  }

  /**
   * The response lists one entry per result, in order: the result's id, its text whole when it
   * has at most 200 characters and otherwise its first 200 followed by "...", and its type and
   * risk level from the metadata, "unknown" where missing.
   */
  lemma RelevantShape(results: seq<SearchResult>)
    ensures var rel := Map(Relevant, results);
      && |rel| == |results|
      && forall k :: 0 <= k < |results| ==>
        && rel[k].id == results[k].id
        && |rel[k].text| <= SnippetLimit + 3
        && (|results[k].text| <= SnippetLimit ==> rel[k].text == results[k].text)
        && (|results[k].text| > SnippetLimit ==> rel[k].text == results[k].text[..SnippetLimit] + "...")
        && (rel[k].clauseType == if "clause_type" in results[k].metadata then results[k].metadata["clause_type"] else Unknown)
        && (rel[k].riskLevel == if "risk_level" in results[k].metadata then results[k].metadata["risk_level"] else Unknown)
  {
    forall k | 0 <= k < |results|
      ensures |Snippet(results[k].text, SnippetLimit)| <= SnippetLimit + 3
      ensures |results[k].text| <= SnippetLimit ==> Snippet(results[k].text, SnippetLimit) == results[k].text
      ensures |results[k].text| > SnippetLimit ==> Snippet(results[k].text, SnippetLimit) == results[k].text[..SnippetLimit] + "..."
    {
      SnippetShape(results[k].text, SnippetLimit);
    }
  }

  /** The full text of every result, in its numbered block, is in the context. */
  lemma ContextHoldsEveryResult(results: seq<SearchResult>)
    ensures forall k :: 0 <= k < |results| ==>
      && Contains(Context(results), ContextBlock(k + 1, results[k]))
      && Contains(Context(results), results[k].text)
  {
    var blocks := ContextBlocks(results);
    forall k | 0 <= k < |results|
      ensures Contains(Context(results), ContextBlock(k + 1, results[k]))
      ensures Contains(Context(results), results[k].text)
    {
      var i := JoinPartAt(blocks, "\n", k);
      var block := blocks[k];
      var head := "Clause " + NatToString(k + 1) + " [" + MetadataGet(results[k].metadata, "clause_type") + "]:\n";
      assert block[|head|..|head| + |results[k].text|] == results[k].text;
      OccursWithin(Context(results), block, results[k].text, i, |head|);
    }
  }

  /**
   * The model is told its role, and then sees the question and the full text of every result
   * found.
   */
  lemma ModelSeesQuestionAndClauses(results: seq<SearchResult>, query: string)
    ensures var messages := ChatMessages(QaPrompt(Context(results), query));
      && |messages| == 2
      && messages[0] == MessageValue(Some("system"), Some(SystemInstruction))
      && messages[1].role == Some("user")
      && Contains(messages[1].content.value, query)
      && forall k :: 0 <= k < |results| ==> Contains(messages[1].content.value, results[k].text)
  {
    var context := Context(results);
    var prompt := QaPrompt(context, query);
    var at := |QaPromptHead| + |context| + |QaPromptMiddle|;
    assert prompt[at..at + |query|] == query;
    assert OccursAt(prompt, query, at);
    assert OccursAt(prompt, context, |QaPromptHead|) by {
      assert prompt[|QaPromptHead|..|QaPromptHead| + |context|] == context;
    }
    ContextHoldsEveryResult(results);
    forall k | 0 <= k < |results| ensures Contains(prompt, results[k].text) {
      var j: nat :| j <= |context| && OccursAt(context, results[k].text, j);
      OccursWithin(prompt, context, results[k].text, |QaPromptHead|, j);
    }
  }

  /** Two blocks with different numbers differ, whatever their results: each clause keeps its own number. */
  lemma BlockNumbersDistinct(m: nat, n: nat, a: SearchResult, b: SearchResult)
    requires m != n
    ensures ContextBlock(m, a) != ContextBlock(n, b)
  {
    var dm := NatToString(m);
    var dn := NatToString(n);
    var x := ContextBlock(m, a);
    var y := ContextBlock(n, b);
    assert x[7..7 + |dm|] == dm && x[7 + |dm|] == ' ';
    assert y[7..7 + |dn|] == dn && y[7 + |dn|] == ' ';
    if |dm| < |dn| {
      assert y[7 + |dm|] == dn[|dm|];
    } else if |dn| < |dm| {
      assert x[7 + |dn|] == dm[|dn|];
    } else {
      NatToStringInjective(m, n);
    }
  }
}
