/*
 * The Gemini client's own logic: the model-name normalisation, the prompt it
 * builds from chat messages, and the shaping of a structured reply. The call to
 * the Gemini service is a parameter `generate` from prompt to reply text (or
 * the exception it raised); `json.loads` is a parameter `parse`, None for a
 * JSONDecodeError.
 */
module GeminiClient {
  import opened Wrappers
  import opened TextUtil
  import opened Http
  import opened LlmMessages

  const DefaultModel := "models/gemini-1.5-flash-latest"
  const ModelsPrefix := "models/"
  const JsonInstruction := "\n\nRespond with valid JSON only."
  const PartSeparator := "\n\n"
  const PromptEnd := "Assistant:"

  /** `_normalize_gemini_model_name`: the default for None or "", else the stripped name under "models/". */
  function NormalizeModelName(name: Option<string>): (r: string)
    ensures StartsWith(r, ModelsPrefix)
  {
    if name.None? || name.value == "" then DefaultModel
    else
      var stripped := Strip(name.value);
      if StartsWith(stripped, ModelsPrefix) then stripped else ModelsPrefix + stripped
  }

  /** The prefix of a message's prompt part: system and assistant by name, every other or missing role as the user. */
  function RolePrefix(role: Option<string>): string
  {
    if role == Some("system") then "System: "
    else if role == Some("assistant") then "Assistant: "
    else "User: "
  }

  /** One part of the prompt; a missing content is "". */
  function Part(m: MessageValue): string
  {
    RolePrefix(m.role) + (if m.content.Some? then m.content.value else "")
  }

  /** The parts in order: one per message, then the cue for the answer. */
  function PromptParts(vs: seq<MessageValue>): seq<string>
  {
    Map(Part, vs) + [PromptEnd]
  }

  /** What `_messages_to_prompt` returns. */
  function Prompt(vs: seq<MessageValue>): (r: string)
    ensures EndsWith(r, PromptEnd)
  {
    JoinSnoc(Map(Part, vs), PartSeparator, PromptEnd);
    var joined := Join(PromptParts(vs), PartSeparator);
    assert joined[|joined| - |PromptEnd|..] == PromptEnd;
    joined
  }

  /** `_messages_to_prompt(messages)`. */
  method MessagesToPrompt(messages: seq<Message>) returns (prompt: string)
    ensures prompt == Prompt(Values(messages))
  {
    ghost var vs := Values(messages);
    var promptParts: seq<string> := [];
    for i := 0 to |messages|
      invariant promptParts == Map(Part, vs[..i])
    {
      var message := messages[i];
      var role := if message.role.Some? then message.role.value else "user";
      var content := if message.content.Some? then message.content.value else "";
      MapStep(Part, vs, i);
      if role == "system" {
        promptParts := promptParts + ["System: " + content];
      } else if role == "assistant" {
        promptParts := promptParts + ["Assistant: " + content];
      } else {
        promptParts := promptParts + ["User: " + content];
      }
    }
    assert vs[..|messages|] == vs;
    promptParts := promptParts + [PromptEnd];
    prompt := Join(promptParts, PartSeparator);
  }

  /** The payload returned when the reply is not JSON: the reason and the raw reply. */
  function ParseFallback(raw: string): Json
  {
    JObject([("error", JString(ParseFailure)), ("raw", JString(raw))])
  }

  /** The end of `chat_structured`: the parsed reply, the fallback payload, or the service's exception. */
  function StructuredReply(reply: Outcome<string>, parse: string -> Option<Json>): Outcome<Json>
  {
    match reply
    case Raised(message) => Raised(message)
    case Done(text) => if parse(text).Some? then Done(parse(text).value) else Done(ParseFallback(text))
  }

  /**
   * `chat_structured(messages, schema)`: the JSON instruction is appended to the caller's last
   * message, the prompt is built from the messages as they then are, and the reply is parsed.
   */
  method ChatStructured(messages: seq<Message>, generate: string -> Outcome<string>, parse: string -> Option<Json>)
    returns (r: Outcome<Json>)
    modifies LastOf(messages)
    ensures messages == [] ==> r == Raised(IndexErrorMessage)
    ensures messages != [] ==>
      var last := messages[|messages| - 1];
      && last.role == old(last.role)
      && (old(last.content).None? ==> r == Raised(KeyErrorMessage("content")) && last.content == None)
      && (old(last.content).Some? ==>
            && last.content == Some(old(last.content).value + JsonInstruction)
            && r == StructuredReply(generate(Prompt(Values(messages))), parse))
  {
    var raised := AppendToLast(messages, JsonInstruction);
    if raised.Some? {
      return Raised(raised.value);
    }
    var prompt := MessagesToPrompt(messages);
    var reply := generate(prompt);
    match reply
    case Raised(message) =>
      r := Raised(message);
    case Done(rawResponse) =>
      var parsed := parse(rawResponse);
      if parsed.Some? {
        r := Done(parsed.value);
      } else {
        r := Done(ParseFallback(rawResponse));
      }
  }

  // ---------------------------------------------------------------- properties

  /** "models/" followed by something stripped, or the stripped name itself when it has the prefix. */
  lemma PrefixedIsStripped(s: string)
    requires IsStripped(s)
    ensures IsStripped(ModelsPrefix + s)
  {
  }

  /**
   * The normalised name always starts with "models/" and is stripped. None and "" give the default.
   * Any other name gives its stripped form, with "models/" put in front unless it is already there;
   * a whitespace-only name gives exactly "models/".
   */
  lemma NormalizeModelNameShape(name: Option<string>)
    ensures var r := NormalizeModelName(name);
      && StartsWith(r, ModelsPrefix) && IsStripped(r)
      && (name.None? || name == Some("") ==> r == DefaultModel)
      && (name.Some? && name.value != "" ==>
            && EndsWith(r, Strip(name.value))
            && (r == Strip(name.value) <==> StartsWith(Strip(name.value), ModelsPrefix))
            && (Strip(name.value) == "" ==> r == ModelsPrefix))
  {
    if name.Some? && name.value != "" {
      var stripped := Strip(name.value);
      StripIsStripped(name.value);
      if !StartsWith(stripped, ModelsPrefix) {
        PrefixedIsStripped(stripped);
        assert (ModelsPrefix + stripped)[|ModelsPrefix + stripped| - |stripped|..] == stripped;
      }
    }
  }

  /** Normalising a normalised name changes nothing. */
  lemma NormalizeModelNameIdempotent(name: Option<string>)
    ensures NormalizeModelName(Some(NormalizeModelName(name))) == NormalizeModelName(name)
  {
    var r := NormalizeModelName(name);
    NormalizeModelNameShape(name);
    StrippedStripIsIdentity(r);
  }

  /**
   * The prompt has one part per message plus the final cue; part `k` is message `k`'s content
   * after "System: ", "Assistant: " or, for any other or missing role, "User: "; each part occurs
   * in the prompt, and the prompt ends with "Assistant:".
   */
  lemma PromptShape(vs: seq<MessageValue>)
    ensures var parts := PromptParts(vs);
      && |parts| == |vs| + 1 && parts[|vs|] == PromptEnd
      && (forall k :: 0 <= k < |vs| ==>
            && StartsWith(parts[k], RolePrefix(vs[k].role))
            && (vs[k].role != Some("system") && vs[k].role != Some("assistant") ==> StartsWith(parts[k], "User: ")))
      && EndsWith(Prompt(vs), PromptEnd)
      && forall k :: 0 <= k < |parts| ==> Contains(Prompt(vs), parts[k])
  {
    var parts := PromptParts(vs);
    forall k | 0 <= k < |vs| ensures StartsWith(parts[k], RolePrefix(vs[k].role)) {
      assert parts[k][..|RolePrefix(vs[k].role)|] == RolePrefix(vs[k].role);
    }
    JoinSnoc(Map(Part, vs), PartSeparator, PromptEnd);
    var joined := Join(parts, PartSeparator);
    assert joined[|joined| - |PromptEnd|..] == PromptEnd;
    forall k | 0 <= k < |parts| ensures Contains(joined, parts[k]) {
      var i := JoinPartAt(parts, PartSeparator, k);
    }
  }

  /**
   * A reply that arrives is never turned into an exception: JSON is returned parsed, anything else
   * as a payload with the failure reason under "error" and the reply itself under "raw". An
   * exception from the service is passed on unchanged.
   */
  lemma StructuredReplyShape(reply: Outcome<string>, parse: string -> Option<Json>)
    ensures var r := StructuredReply(reply, parse);
      && (reply.Raised? ==> r == Raised(reply.message))
      && (reply.Done? ==> r.Done?)
      && (reply.Done? && parse(reply.value).Some? ==> r.value == parse(reply.value).value)
      && (reply.Done? && parse(reply.value).None? ==>
            && r.value.JObject?
            && HasKey(r.value.fields, "error") && Lookup(r.value.fields, "error") == JString(ParseFailure)
            && HasKey(r.value.fields, "raw") && Lookup(r.value.fields, "raw") == JString(reply.value))
  {
    if reply.Done? && parse(reply.value).None? {
      var fields := ParseFallback(reply.value).fields;
      assert fields[0].0 == "error" && fields[1].0 == "raw";
      assert Lookup(fields[..1], "error") == JString(ParseFailure);
    }
  }
}
