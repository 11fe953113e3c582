/*
 * The Ollama client's own logic: the prompt it builds from chat messages, and
 * the way `chat_structured` digs the JSON out of a reply that may be wrapped in
 * a markdown code fence. The call to the local Ollama server is a parameter
 * `generate` from prompt to what the server's answer gives `chat` (see
 * `ServerReply`); `json.loads` is a parameter `parse`, None for a JSONDecodeError.
 */
module OllamaClient {
  import opened Wrappers
  import opened TextUtil
  import opened Http
  import opened LlmMessages
  import GeminiClient

  const JsonInstruction := "\n\nRespond with valid JSON only, no other text."
  const PartSeparator := "\n\n"
  const PromptEnd := "Assistant:"
  const JsonFence := "```json"
  const Fence := "```"

  // ---------------------------------------------------------------- the prompt

  /** The part for a role the client knows; any other role gives no part. */
  function RolePart(role: string, content: string): Option<string>
  {
    if role == "system" then Some("System: " + content)
    else if role == "user" then Some("User: " + content)
    else if role == "assistant" then Some("Assistant: " + content)
    else None
  }

  /** The key `message["role"]` or `message["content"]` fails on, reading the role first. */
  function MissingKey(m: MessageValue): Option<string>
  {
    if m.role.None? then Some("role") else if m.content.None? then Some("content") else None
  }

  /** What one message adds to the prompt: its part, or nothing. */
  function PartOf(m: MessageValue): seq<string>
  {
    if m.role.Some? && m.content.Some? && RolePart(m.role.value, m.content.value).Some?
    then [RolePart(m.role.value, m.content.value).value]
    else []
  }

  /** The missing key of the first message that lacks one. */
  function FirstMissingKey(vs: seq<MessageValue>): Option<string>
  {
    if vs == [] then None
    else if FirstMissingKey(vs[..|vs| - 1]).Some? then FirstMissingKey(vs[..|vs| - 1])
    else MissingKey(vs[|vs| - 1])
  }

  /** What `_messages_to_prompt` returns, or the KeyError it raises. */
  function Prompt(vs: seq<MessageValue>): (r: Outcome<string>)
    ensures r.Done? ==> EndsWith(r.value, PromptEnd)
  {
    if FirstMissingKey(vs).Some? then Raised(KeyErrorMessage(FirstMissingKey(vs).value))
    else
      var kept := FlatMap(PartOf, vs);
      JoinSnoc(kept, PartSeparator, PromptEnd);
      var joined := Join(kept + [PromptEnd], PartSeparator);
      assert joined[|joined| - |PromptEnd|..] == PromptEnd;
      Done(joined)
  }

  /** A missing key in a prefix is the first missing key of the whole list. */
  lemma {:induction false} FirstMissingKeyPrefix(vs: seq<MessageValue>, j: nat)
    requires j <= |vs| && FirstMissingKey(vs[..j]).Some?
    ensures FirstMissingKey(vs) == FirstMissingKey(vs[..j])
    decreases |vs| - j
  {
    if j < |vs| {
      var init := vs[..|vs| - 1];
      assert init[..j] == vs[..j];
      FirstMissingKeyPrefix(init, j);
    } else {
      assert vs[..j] == vs;
    }
  }

  /** One turn of the prompt loop, on the list's values. */
  lemma PromptStep(vs: seq<MessageValue>, i: nat)
    requires i < |vs|
    ensures FirstMissingKey(vs[..i + 1])
         == if FirstMissingKey(vs[..i]).Some? then FirstMissingKey(vs[..i]) else MissingKey(vs[i])
    ensures FlatMap(PartOf, vs[..i + 1]) == FlatMap(PartOf, vs[..i]) + PartOf(vs[i])
  {
    assert vs[..i + 1][..i] == vs[..i];
  }

  /** `_messages_to_prompt(messages)`. */
  method MessagesToPrompt(messages: seq<Message>) returns (r: Outcome<string>)
    ensures r == Prompt(Values(messages))
  {
    ghost var vs := Values(messages);
    var promptParts: seq<string> := [];
    for i := 0 to |messages|
      invariant FirstMissingKey(vs[..i]).None?
      invariant promptParts == FlatMap(PartOf, vs[..i])
    {
      var message := messages[i];
      PromptStep(vs, i);
      if message.role.None? {
        FirstMissingKeyPrefix(vs, i + 1);
        return Raised(KeyErrorMessage("role"));
      }
      if message.content.None? {
        FirstMissingKeyPrefix(vs, i + 1);
        return Raised(KeyErrorMessage("content"));
      }
      var role := message.role.value;
      var content := message.content.value;
      if role == "system" {
        promptParts := promptParts + ["System: " + content];
      } else if role == "user" {
        promptParts := promptParts + ["User: " + content];
      } else if role == "assistant" {
        promptParts := promptParts + ["Assistant: " + content];
      }
    }
    assert vs[..|messages|] == vs;
    promptParts := promptParts + [PromptEnd];
    r := Done(Join(promptParts, PartSeparator));
  }

  // ---------------------------------------------------------------- the reply

  /**
   * What `chat` makes of the server's answer: the "response" text of its JSON body; a body that
   * is not JSON, for which `response.json()` raises a JSONDecodeError; or any other exception
   * (a failed connection, an error status), passed on by `chat`.
   */
  datatype ServerReply = Answer(text: string) | BodyNotJson | Failure(message: string)

  /** The text between `fence` and the next "```" after it, stripped; to the end but one when no "```" follows. */
  function FencedPayload(t: string, fence: string): string
    requires Contains(t, fence)
  {
    var start := Find(t, fence) + |fence|;
    var end := FindFrom(t, Fence, start);
    Strip(PySlice(t, start, end))
  }

  /** The text `chat_structured` hands to `json.loads`. */
  function ExtractPayload(text: string): (r: string)
    ensures IsStripped(r)
  {
    var t := Strip(text);
    StripIsStripped(text);
    if Contains(t, JsonFence) then
      StripIsStripped(PySlice(t, Find(t, JsonFence) + |JsonFence|, FindFrom(t, Fence, Find(t, JsonFence) + |JsonFence|)));
      FencedPayload(t, JsonFence)
    else if Contains(t, Fence) then
      StripIsStripped(PySlice(t, Find(t, Fence) + |Fence|, FindFrom(t, Fence, Find(t, Fence) + |Fence|)));
      FencedPayload(t, Fence)
    else t
  }

  /** The payload returned when the reply is not JSON. */
  function ParseFallback(): Json
  {
    JObject([("error", JString(ParseFailure))])
  }

  /** The end of `chat_structured` once the model has answered. */
  function ParseReply(text: string, parse: string -> Option<Json>): Json
  {
    var parsed := parse(ExtractPayload(text));
    if parsed.Some? then parsed.value else ParseFallback()
  }

  /** What `chat_structured` returns for the messages as they are once the instruction is appended. */
  function StructuredReply(vs: seq<MessageValue>, generate: string -> ServerReply, parse: string -> Option<Json>): Outcome<Json>
  {
    match Prompt(vs)
    case Raised(message) => Raised(message)
    case Done(prompt) =>
      match generate(prompt)
      case Failure(message) => Raised(message)
      case BodyNotJson => Done(ParseFallback())
      case Answer(text) => Done(ParseReply(text, parse))
  }

  /**
   * `chat_structured(messages, schema)`: the JSON instruction is appended to the caller's last
   * message, the model is asked with the messages as they then are, and the reply is stripped,
   * unwrapped from a code fence and parsed.
   */
  method ChatStructured(messages: seq<Message>, generate: string -> ServerReply, parse: string -> Option<Json>)
    returns (r: Outcome<Json>)
    modifies LastOf(messages)
    ensures messages == [] ==> r == Raised(IndexErrorMessage)
    ensures messages != [] ==>
      var last := messages[|messages| - 1];
      && last.role == old(last.role)
      && (old(last.content).None? ==> r == Raised(KeyErrorMessage("content")) && last.content == None)
      && (old(last.content).Some? ==>
            && last.content == Some(old(last.content).value + JsonInstruction)
            && r == StructuredReply(Values(messages), generate, parse))
  {
    var raised := AppendToLast(messages, JsonInstruction);
    if raised.Some? {
      return Raised(raised.value);
    }
    var prompt := MessagesToPrompt(messages);
    if prompt.Raised? {
      return Raised(prompt.message);
    }
    var reply := generate(prompt.value);
    if reply.Failure? {
      return Raised(reply.message);
    }
    if reply.BodyNotJson? {
      return Done(ParseFallback());
    }
    var responseText := reply.text;
    responseText := Strip(responseText);
    if Contains(responseText, JsonFence) {
      var start := Find(responseText, JsonFence) + 7;
      var end := FindFrom(responseText, Fence, start);
      responseText := Strip(PySlice(responseText, start, end));
    } else if Contains(responseText, Fence) {
      var start := Find(responseText, Fence) + 3;
      var end := FindFrom(responseText, Fence, start);
      responseText := Strip(PySlice(responseText, start, end));
    }
    assert responseText == ExtractPayload(reply.text);
    var parsed := parse(responseText);
    if parsed.Some? {
      r := Done(parsed.value);
    } else {
      r := Done(ParseFallback());
    }
  }

  // ---------------------------------------------------------------- properties

  /** The prompt fails exactly when some message lacks a key, and then with that message's key. */
  lemma {:induction false} PromptRaisesIff(vs: seq<MessageValue>)
    ensures Prompt(vs).Raised? <==> exists k :: 0 <= k < |vs| && MissingKey(vs[k]).Some?
    ensures Prompt(vs).Raised? ==>
      exists k :: 0 <= k < |vs| && MissingKey(vs[k]).Some? && Prompt(vs).message == KeyErrorMessage(MissingKey(vs[k]).value)
  {
    if vs != [] {
      var init := vs[..|vs| - 1];
      PromptRaisesIff(init);
      if FirstMissingKey(init).Some? {
        var k :| 0 <= k < |init| && MissingKey(init[k]).Some?
              && Prompt(init).message == KeyErrorMessage(MissingKey(init[k]).value);
        assert vs[k] == init[k];
      } else {
        assert forall k :: 0 <= k < |init| ==> vs[k] == init[k];
      }
    }
  }

  /** A list whose every message has both keys gives a prompt that ends with the cue for the answer. */
  lemma PromptEndsWithCue(vs: seq<MessageValue>)
    requires forall k :: 0 <= k < |vs| ==> MissingKey(vs[k]).None?
    ensures Prompt(vs).Done? && EndsWith(Prompt(vs).value, PromptEnd)
  {
    PromptRaisesIff(vs);
    var kept := FlatMap(PartOf, vs);
    JoinSnoc(kept, PartSeparator, PromptEnd);
    var joined := Join(kept + [PromptEnd], PartSeparator);
    assert joined[|joined| - |PromptEnd|..] == PromptEnd;
  }

  /** Every part of the prompt but the cue is a known role's prefix followed by a message's content. */
  lemma PromptPartsFromMessages(vs: seq<MessageValue>)
    ensures forall p :: p in FlatMap(PartOf, vs) ==> exists k ::
      && 0 <= k < |vs| && vs[k].role.Some? && vs[k].content.Some?
      && RolePart(vs[k].role.value, vs[k].content.value) == Some(p)
  {
    FlatMapFrom(PartOf, vs);
  }

  /** The first missing key of a joined list: the first list's, else the second's. */
  lemma {:induction false} FirstMissingKeyAppend(xs: seq<MessageValue>, ys: seq<MessageValue>)
    ensures FirstMissingKey(xs + ys)
         == if FirstMissingKey(xs).Some? then FirstMissingKey(xs) else FirstMissingKey(ys)
    decreases |ys|
  {
    if ys == [] {
      assert xs + ys == xs;
    } else {
      var ys' := ys[..|ys| - 1];
      assert (xs + ys)[..|xs + ys| - 1] == xs + ys';
      FirstMissingKeyAppend(xs, ys');
    }
  }

  /**
   * A message with both keys and a role other than system, user or assistant is dropped: the
   * prompt is the same as without it.
   */
  lemma UnknownRoleDropped(before: seq<MessageValue>, m: MessageValue, after: seq<MessageValue>)
    requires m.role.Some? && m.content.Some?
    requires m.role.value != "system" && m.role.value != "user" && m.role.value != "assistant"
    ensures Prompt(before + [m] + after) == Prompt(before + after)
  {
    var withM := before + [m];
    assert [m][..|[m]| - 1] == [];
    assert FirstMissingKey([m]) == None;
    assert FlatMap(PartOf, [m]) == [];
    FirstMissingKeyAppend(before, [m]);
    FirstMissingKeyAppend(withM, after);
    FirstMissingKeyAppend(before, after);
    assert FirstMissingKey(withM + after) == FirstMissingKey(before + after);
    FlatMapAppend(PartOf, before, [m]);
    FlatMapAppend(PartOf, withM, after);
    FlatMapAppend(PartOf, before, after);
    assert FlatMap(PartOf, withM + after) == FlatMap(PartOf, before + after);
  }

  /** On messages with both keys and a known role the two clients build the same prompt. */
  lemma {:induction false} SameAsGeminiPrompt(vs: seq<MessageValue>)
    requires forall k :: 0 <= k < |vs| ==> vs[k].role.Some? && vs[k].content.Some?
    requires forall k :: 0 <= k < |vs| ==> vs[k].role.value in {"system", "user", "assistant"}
    ensures Prompt(vs) == Done(GeminiClient.Prompt(vs))
  {
    KeptIsGeminiParts(vs);
    PromptRaisesIff(vs);
  }

  /** The parts the Ollama prompt keeps are the Gemini prompt's parts when every role is known. */
  lemma {:induction false} KeptIsGeminiParts(vs: seq<MessageValue>)
    requires forall k :: 0 <= k < |vs| ==> vs[k].role.Some? && vs[k].content.Some?
    requires forall k :: 0 <= k < |vs| ==> vs[k].role.value in {"system", "user", "assistant"}
    ensures FlatMap(PartOf, vs) == Map(GeminiClient.Part, vs)
  {
    if vs != [] {
      var init := vs[..|vs| - 1];
      KeptIsGeminiParts(init);
      assert Map(GeminiClient.Part, vs) == Map(GeminiClient.Part, init) + [GeminiClient.Part(vs[|vs| - 1])];
    }
  }

  /** Without a fence the stripped reply itself is parsed. */
  lemma NoFenceKeepsText(text: string)
    requires !Contains(Strip(text), Fence)
    ensures ExtractPayload(text) == Strip(text)
  {
    if Contains(Strip(text), JsonFence) {
      var t := Strip(text);
      var i: nat :| i <= |t| && OccursAt(t, JsonFence, i);
      assert t[i..i + 3] == t[i..i + 7][..3];
      assert OccursAt(t, Fence, i);
    }
  }

  /** The text between a position and the next "```" after it holds no "```". */
  lemma NoFenceBeforeNext(t: string, start: nat)
    requires FindFrom(t, Fence, start) != -1
    ensures var end := FindFrom(t, Fence, start);
      start <= end <= |t| && !Contains(t[start..end], Fence)
  {
    var end := FindFrom(t, Fence, start);
    var u := t[start..end];
    forall j: nat | j <= |u| && OccursAt(u, Fence, j) ensures false {
      assert t[start + j..start + j + 3] == u[j..j + 3];
      assert OccursAt(t, Fence, start + j);
    }
  }

  /**
   * A closed fence: the payload is the stripped text strictly between the opening fence (the
   * first "```json", else the first "```") and the next "```", which holds no "```" itself.
   */
  lemma ClosedFence(t: string, fence: string)
    requires Contains(t, fence) && FindFrom(t, Fence, Find(t, fence) + |fence|) != -1
    ensures var start := Find(t, fence) + |fence|;
      var end := FindFrom(t, Fence, start);
      && 0 <= start <= end <= |t|
      && FencedPayload(t, fence) == Strip(t[start..end])
      && !Contains(t[start..end], Fence)
      && IsStripped(FencedPayload(t, fence))
  {
    var start: nat := Find(t, fence) + |fence|;
    var end := FindFrom(t, Fence, start);
    NoFenceBeforeNext(t, start);
    PySliceInBounds(t, start, end);
    assert FencedPayload(t, fence) == Strip(t[start..end]);
    StripIsStripped(t[start..end]);
  }

  /**
   * An opening fence with no "```" after it: `find` gives -1, so the slice stops one character
   * before the end and the last character of the reply is lost.
   */
  lemma UnclosedFenceDropsLastChar(t: string, fence: string)
    requires fence == JsonFence || fence == Fence
    requires Contains(t, fence) && FindFrom(t, Fence, Find(t, fence) + |fence|) == -1
    ensures var start := Find(t, fence) + |fence|;
      && start <= |t|
      && FencedPayload(t, fence) == if start < |t| - 1 then Strip(t[start..|t| - 1]) else ""
  {
  }

  /** The reply is unwrapped from the json fence when there is one, else from a plain fence. */
  lemma ExtractPayloadCases(text: string)
    ensures var t := Strip(text);
      && (Contains(t, JsonFence) ==> ExtractPayload(text) == FencedPayload(t, JsonFence))
      && (!Contains(t, JsonFence) && Contains(t, Fence) ==> ExtractPayload(text) == FencedPayload(t, Fence))
      && IsStripped(ExtractPayload(text))
  {
    var t := Strip(text);
    StripIsStripped(text);
    if Contains(t, JsonFence) {
      StripIsStripped(PySlice(t, Find(t, JsonFence) + 7, FindFrom(t, Fence, Find(t, JsonFence) + 7)));
    } else if Contains(t, Fence) {
      StripIsStripped(PySlice(t, Find(t, Fence) + 3, FindFrom(t, Fence, Find(t, Fence) + 3)));
    }
  }

  /**
   * Once the model has answered, `chat_structured` never raises: JSON is returned parsed, and
   * anything else gives the payload with the failure reason under "error" and nothing else.
   */
  lemma ParseReplyShape(text: string, parse: string -> Option<Json>)
    ensures parse(ExtractPayload(text)).Some? ==> ParseReply(text, parse) == parse(ExtractPayload(text)).value
    ensures parse(ExtractPayload(text)).None? ==>
      var fields := ParseReply(text, parse).fields;
      && Keys(fields) == ["error"] && Lookup(fields, "error") == JString(ParseFailure)
  {
  }

  /**
   * A KeyError while building the prompt and any other failure of the server call pass through;
   * a server body that is not JSON is caught like a reply that is not JSON, giving the fallback.
   */
  lemma StructuredReplyErrors(vs: seq<MessageValue>, generate: string -> ServerReply, parse: string -> Option<Json>)
    ensures var r := StructuredReply(vs, generate, parse);
      && (Prompt(vs).Raised? ==> r == Raised(Prompt(vs).message))
      && (Prompt(vs).Done? && generate(Prompt(vs).value).Failure? ==> r == Raised(generate(Prompt(vs).value).message))
      && (Prompt(vs).Done? && generate(Prompt(vs).value).BodyNotJson? ==> r == Done(ParseFallback()))
      && (Prompt(vs).Done? && !generate(Prompt(vs).value).Failure? ==> r.Done?)
  {
  }
}
