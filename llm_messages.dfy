/*
 * The chat messages the language-model clients take: OpenAI-style dicts with a
 * "role" and a "content" key. The clients read them, and `chat_structured`
 * appends an instruction to the content of the caller's last dict in place (the
 * list is copied, the dicts are not), so a message is an object. Either key can
 * be missing from a dict.
 */
module LlmMessages {
  import opened Wrappers

  /** What a message dict holds: each key's value, or None when the key is missing. */
  datatype MessageValue = MessageValue(role: Option<string>, content: Option<string>)

  /** `str(IndexError)` for `messages[-1]` on an empty list. */
  const IndexErrorMessage := "list index out of range"
  /** `str(KeyError(key))`. */
  function KeyErrorMessage(key: string): string { "'" + key + "'" }

  /** The reason both clients give when the reply is not JSON. */
  const ParseFailure := "Failed to parse structured output"

  /** A message dict, shared between the caller's list and the client's copy of it. */
  class Message {
    var role: Option<string>
    var content: Option<string>

    constructor(role: Option<string>, content: Option<string>)
      ensures this.role == role && this.content == content
    {
      this.role := role;
      this.content := content;
    }

    function Value(): MessageValue
      reads this
    {
      MessageValue(role, content)
    }
  }

  /** The values of a list of messages, in order. */
  function Values(ms: seq<Message>): (r: seq<MessageValue>)
    reads set m | m in ms
    ensures |r| == |ms|
    ensures forall k :: 0 <= k < |ms| ==> r[k] == ms[k].Value()
  {
    if ms == [] then [] else Values(ms[..|ms| - 1]) + [ms[|ms| - 1].Value()]
  }

  /** The last message of a list, as a frame: what `messages[-1][...] += ...` may change. */
  function LastOf(ms: seq<Message>): set<Message>
  {
    if ms == [] then {} else {ms[|ms| - 1]}
  }

  /**
   * `messages[-1]["content"] += suffix`: IndexError on an empty list, KeyError when the last dict
   * has no content; otherwise the content of that dict, wherever else it appears, gets the suffix.
   * `raised` is the exception's message, or None.
   */
  method AppendToLast(messages: seq<Message>, suffix: string) returns (raised: Option<string>)
    modifies LastOf(messages)
    ensures messages == [] ==> raised == Some(IndexErrorMessage)
    ensures messages != [] ==>
      var last := messages[|messages| - 1];
      && last.role == old(last.role)
      && (old(last.content).None? ==> raised == Some(KeyErrorMessage("content")) && last.content == None)
      && (old(last.content).Some? ==> raised == None && last.content == Some(old(last.content).value + suffix))
  {
    if messages == [] {
      return Some(IndexErrorMessage);
    }
    var last := messages[|messages| - 1];
    if last.content.None? {
      return Some(KeyErrorMessage("content"));
    }
    last.content := Some(last.content.value + suffix);
    raised := None;
  }

  /** The value-level effect of the append: only the last content changes, and only when it exists. */
  function AppendedToLast(vs: seq<MessageValue>, suffix: string): (r: seq<MessageValue>)
    requires vs != [] && vs[|vs| - 1].content.Some?
    ensures |r| == |vs|
    ensures forall k :: 0 <= k < |vs| - 1 ==> r[k] == vs[k]
    ensures r[|vs| - 1].role == vs[|vs| - 1].role
    ensures r[|vs| - 1].content == Some(vs[|vs| - 1].content.value + suffix)
  {
    var last := vs[|vs| - 1];
    vs[|vs| - 1 := last.(content := Some(last.content.value + suffix))]
  }

  /** The messages of a list are different dicts. */
  predicate Separate(ms: seq<Message>)
  {
    forall j, k :: 0 <= j < k < |ms| ==> ms[j] != ms[k]
  }

  /**
   * When the list holds each dict once, appending to the last message changes the list's values
   * only in the last content; the caller's list sees the same change, since it holds the same dicts.
   */
  twostate lemma AppendSeenByCaller(messages: seq<Message>, suffix: string)
    requires Separate(messages) && messages != [] && old(messages[|messages| - 1].content).Some?
    requires forall k :: 0 <= k < |messages| - 1 ==> unchanged(messages[k])
    requires messages[|messages| - 1].role == old(messages[|messages| - 1].role)
    requires messages[|messages| - 1].content == Some(old(messages[|messages| - 1].content).value + suffix)
    ensures Values(messages) == AppendedToLast(old(Values(messages)), suffix)
  {
    var vs := old(Values(messages));
    var ws := Values(messages);
    var appended := AppendedToLast(vs, suffix);
    forall k | 0 <= k < |messages| ensures ws[k] == appended[k] {
      if k < |messages| - 1 {
        assert ws[k] == messages[k].Value() && vs[k] == old(messages[k].Value());
      }
    }
  }
}
