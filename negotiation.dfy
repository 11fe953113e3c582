/**
 * Negotiation suggestions (lexguard/risk/negotiation.py): a fixed list per clause type, optionally
 * extended with what the LLM proposes, de-duplicated ignoring case and cut to five.
 */
module Negotiation {
  import opened Wrappers
  import opened TextUtil
  import opened RiskModel
  import opened ClauseModel

  // The fixed suggestion lists of `_get_rule_based_suggestions`.
  const LiabilitySuggestions: seq<string> := [
    "Request a cap on total liability (e.g., contract value or specific amount)",
    "Exclude indirect, consequential, or punitive damages",
    "Add mutual indemnification provisions",
    "Clarify what events trigger indemnification",
    "Request right to defend claims with own counsel"]
  const TerminationSuggestions: seq<string> := [
    "Negotiate longer notice period (30-90 days)",
    "Request termination only 'for cause' with defined reasons",
    "Add severance or termination payment provisions",
    "Include dispute resolution before termination",
    "Clarify obligations upon termination"]
  const NonCompeteSuggestions: seq<string> := [
    "Reduce duration to 6-12 months maximum",
    "Narrow geographic scope to specific regions",
    "Define 'competing business' more narrowly",
    "Add exceptions for existing commitments",
    "Include compensation for non-compete period"]
  const IpSuggestions: seq<string> := [
    "Exclude pre-existing intellectual property",
    "Limit assignment to work created during employment",
    "Add carve-out for personal projects",
    "Clarify ownership of derivative works",
    "Request license-back for your contributions"]
  const ConfidentialitySuggestions: seq<string> := [
    "Define 'confidential information' more clearly",
    "Add exceptions for public information",
    "Limit duration of confidentiality obligations",
    "Exclude information already known",
    "Allow disclosure when legally required"]
  const PaymentSuggestions: seq<string> := [
    "Specify exact payment amounts and schedule",
    "Add late payment penalties or interest",
    "Include expense reimbursement terms",
    "Clarify payment method and currency",
    "Add cost-of-living or performance adjustments"]
  const GenericSuggestions: seq<string> := [
    "Request clearer definitions of key terms",
    "Add specific performance metrics or criteria",
    "Include dispute resolution procedures"]

  /** `_get_rule_based_suggestions`: five fixed items for six of the types, three generic ones otherwise. */
  function RuleSuggestions(t: ClauseType): seq<string>
  {
    match t
    case Liability => LiabilitySuggestions
    case Termination => TerminationSuggestions
    case NonCompete => NonCompeteSuggestions
    case Ip => IpSuggestions
    case Confidentiality => ConfidentialitySuggestions
    case Payment => PaymentSuggestions
    case _ => GenericSuggestions
  }

  /** The types with a specific list of their own. */
  predicate HasSpecificList(t: ClauseType)
  {
    t in {Liability, Termination, NonCompete, Ip, Confidentiality, Payment}
  }

  /**
   * The result shaping of `_get_llm_suggestions`; `reply` is what `chat_structured` returned, None
   * when it raised. A dict with "suggestions" gives that value, a list gives itself, anything else [].
   */
  function LlmSuggestions(reply: Option<Json>): (r: Json)
    ensures reply.None? || !reply.value.JObject? ==> r.JArray?
  {
    match reply
    case Some(JObject(fields)) => if HasKey(fields, "suggestions") then Lookup(fields, "suggestions") else JArray([])
    case Some(JArray(items)) => JArray(items)
    case _ => JArray([])
  }

  /**
   * The three shapes of a reply: a failed call or a scalar gives the empty list, a list is kept
   * as it is, and an object gives the value of its last "suggestions" binding, or [] without one.
   */
  lemma LlmSuggestionsCases(reply: Option<Json>)
    ensures reply.None? ==> LlmSuggestions(reply) == JArray([])
    ensures reply.Some? && reply.value.JArray? ==> LlmSuggestions(reply) == reply.value
    ensures reply.Some? && !reply.value.JArray? && !reply.value.JObject? ==> LlmSuggestions(reply) == JArray([])
    ensures reply.Some? && reply.value.JObject? ==>
      var fields := reply.value.fields;
      && (!HasKey(fields, "suggestions") ==> LlmSuggestions(reply) == JArray([]))
      && (HasKey(fields, "suggestions") ==>
            exists i :: 0 <= i < |fields| && fields[i] == ("suggestions", LlmSuggestions(reply))
              && forall j :: i < j < |fields| ==> fields[j].0 != "suggestions")
  {
    if reply.Some? && reply.value.JObject? && HasKey(reply.value.fields, "suggestions") {
      LookupIsLastBinding(reply.value.fields, "suggestions");
    }
  }

  /** `d[key]` is the value of the last binding of `key`. */
  lemma {:induction false} LookupIsLastBinding(fields: seq<(string, Json)>, key: string)
    requires HasKey(fields, key)
    ensures exists i ::
      (0 <= i < |fields| && fields[i] == (key, Lookup(fields, key)) && forall j :: i < j < |fields| ==> fields[j].0 != key)
  {
    var n := |fields| - 1;
    if fields[n].0 != key {
      var front := fields[..n];
      var i0 :| 0 <= i0 < |fields| && fields[i0].0 == key;
      assert front[i0] == fields[i0];
      LookupIsLastBinding(front, key);
      var i :| (0 <= i < |front| && front[i] == (key, Lookup(front, key)) && forall j :: i < j < |front| ==> front[j].0 != key);
      assert fields[i] == front[i];
      assert forall j :: i < j < |fields| ==> fields[j].0 != key by {
        forall j | i < j < |fields|
          ensures fields[j].0 != key
        {
          if j < n {
            assert fields[j] == front[j];
          }
        }
      }
    }
  }

  /** The values `list.extend(v)` appends: list items, a string's characters, a dict's keys; None for a TypeError. */
  function ExtendItems(v: Json): Option<seq<Json>>
  {
    match v
    case JArray(items) => Some(items)
    case JString(s) => Some(seq(|s|, i requires 0 <= i < |s| => JString([s[i]])))
    case JObject(fields) => var ks := Keys(fields); Some(seq(|ks|, i requires 0 <= i < |ks| => JString(ks[i])))
    case _ => None
  }

  /** Augmentation runs only when asked for and only for medium or high risk. */
  predicate Augments(useLlm: bool, level: Option<RiskLevel>)
  {
    useLlm && (level == Some(Medium) || level == Some(High))
  }

  function AsJson(xs: seq<string>): (js: seq<Json>)
    ensures |js| == |xs| && forall i :: 0 <= i < |xs| ==> js[i] == JString(xs[i])
  {
    seq(|xs|, i requires 0 <= i < |xs| => JString(xs[i]))
  }

  /** The list the de-duplication loop walks: the rule items, then whatever the LLM step appended. */
  function Candidates(t: ClauseType, level: Option<RiskLevel>, useLlm: bool, reply: Option<Json>): seq<Json>
  {
    var extension :=
      if Augments(useLlm, level) then
        match ExtendItems(LlmSuggestions(reply))
        case Some(items) => items
        case None => []
      else [];
    AsJson(RuleSuggestions(t)) + extension
  }

  /** The strings of a list of values, or None when one of them has no `.lower()`. */
  function Texts(items: seq<Json>): (r: Option<seq<string>>)
    ensures r.Some? ==> |r.value| == |items|
  {
    if items == [] then Some([])
    else
      match Texts(items[..|items| - 1])
      case None => None
      case Some(prefix) =>
        match items[|items| - 1]
        case JString(s) => Some(prefix + [s])
        case _ => None
  }

  /** The lower-cased forms of the items kept so far: the `seen` set. */
  function Lowered(xs: seq<string>): set<string>
  {
    set x | x in xs :: Lower(x)
  }

  /** The order-preserving, case-insensitive de-duplication: an item is kept unless an earlier one matches it. */
  function Dedup(xs: seq<string>): seq<string>
  {
    if xs == [] then []
    else
      var kept := Dedup(xs[..|xs| - 1]);
      var x := xs[|xs| - 1];
      if Lower(x) in Lowered(kept) then kept else kept + [x]
  }

  predicate CaselessDistinct(xs: seq<string>)
  {
    forall i, j :: 0 <= i < j < |xs| ==> Lower(xs[i]) != Lower(xs[j])
  }

  /** `suggest_negotiation_points`, None when the loop meets an item that is not a string. */
  function NegotiationPoints(t: ClauseType, level: Option<RiskLevel>, useLlm: bool, reply: Option<Json>): (r: Option<seq<string>>)
    ensures r.Some? ==> |r.value| <= 5
  {
    match Texts(Candidates(t, level, useLlm, reply))
    case None => None
    case Some(xs) => Some(Take(Dedup(xs), 5))
  }

  /** `suggest_negotiation_points`: gathers the candidates, then de-duplicates them and keeps five. */
  method SuggestNegotiationPoints(clause: Clause, useLlm: bool := false, reply: Option<Json>) returns (r: Option<seq<string>>)
    ensures r == NegotiationPoints(clause.clauseType, clause.riskLevel, useLlm, reply)
    ensures r.Some? ==> |r.value| <= 5 && CaselessDistinct(r.value)
  {
    var suggestions := Candidates(clause.clauseType, clause.riskLevel, useLlm, reply);
    r := DedupAndTruncate(suggestions);
  }

  /** The loop of `suggest_negotiation_points` over `seen` and `unique_suggestions`, then `[:5]`. */
  method DedupAndTruncate(suggestions: seq<Json>) returns (r: Option<seq<string>>)
    ensures r == match Texts(suggestions) case None => None case Some(xs) => Some(Take(Dedup(xs), 5))
    ensures r.Some? ==> |r.value| <= 5 && CaselessDistinct(r.value)
  {
    var seen: set<string> := {};
    var unique: seq<string> := [];
    for i := 0 to |suggestions|
      invariant Texts(suggestions[..i]).Some?
      invariant unique == Dedup(Texts(suggestions[..i]).value)
      invariant seen == Lowered(unique)
    {
      assert suggestions[..i + 1][..i] == suggestions[..i];
      ghost var done := Texts(suggestions[..i]).value;
      match suggestions[i] {
        case JString(s) =>
          assert Texts(suggestions[..i + 1]) == Some(done + [s]);
          assert (done + [s])[..|done|] == done;
          if Lower(s) !in seen {
            assert Lowered(unique + [s]) == Lowered(unique) + {Lower(s)};
            seen := seen + {Lower(s)};
            unique := unique + [s];
          }
        case _ =>
          TextsOfPrefix(suggestions, i);
          return None;
      }
    }
    assert suggestions[..|suggestions|] == suggestions;
    r := Some(Take(unique, 5));
    DedupProperties(Texts(suggestions).value);
    TakeKeepsDistinct(unique, 5);
  }

  // ---------------------------------------------------------------- properties

  /** A non-string item anywhere makes the whole list fail. */
  lemma {:induction false} TextsOfPrefix(items: seq<Json>, i: nat)
    requires i < |items| && !items[i].JString?
    ensures Texts(items) == None
    decreases |items|
  {
    if i < |items| - 1 {
      assert items[..|items| - 1][i] == items[i];
      TextsOfPrefix(items[..|items| - 1], i);
    }
  }

  /** Texts of an all-string list is that list of strings. */
  lemma {:induction false} TextsOfStrings(xs: seq<string>)
    ensures Texts(AsJson(xs)) == Some(xs)
    decreases |xs|
  {
    if xs != [] {
      assert AsJson(xs)[..|xs| - 1] == AsJson(xs[..|xs| - 1]);
      TextsOfStrings(xs[..|xs| - 1]);
      assert xs[..|xs| - 1] + [xs[|xs| - 1]] == xs;
    }
  }

  /** Texts distributes over concatenation. */
  lemma {:induction false} TextsAppend(a: seq<Json>, b: seq<Json>)
    ensures Texts(a + b) == match (Texts(a), Texts(b))
        case (Some(x), Some(y)) => Some(x + y)
        case _ => None
    decreases |b|
  {
    if b == [] {
      assert a + b == a;
      if Texts(a).Some? {
        assert Texts(a).value + [] == Texts(a).value;
      }
    } else {
      var init, last := b[..|b| - 1], b[|b| - 1];
      assert (a + b)[..|a + b| - 1] == a + init;
      assert (a + b)[|a + b| - 1] == last;
      TextsAppend(a, init);
      if Texts(a).Some? && Texts(init).Some? && last.JString? {
        var x, y := Texts(a).value, Texts(init).value;
        assert x + (y + [last.str]) == (x + y) + [last.str];
      }
    }
  }

  /**
   * De-duplication keeps only items of its input, no two of them equal ignoring case, and loses no
   * item's lower-cased form.
   */
  lemma {:induction false} DedupProperties(xs: seq<string>)
    ensures forall x :: x in Dedup(xs) ==> x in xs
    ensures CaselessDistinct(Dedup(xs))
    ensures Lowered(Dedup(xs)) == Lowered(xs)
    ensures |Dedup(xs)| <= |xs|
    decreases |xs|
  {
    if xs != [] {
      var init := xs[..|xs| - 1];
      var x := xs[|xs| - 1];
      DedupProperties(init);
      var kept := Dedup(init);
      assert xs == init + [x];
      assert Lowered(xs) == Lowered(init) + {Lower(x)};
      if Lower(x) !in Lowered(kept) {
        assert Lowered(kept + [x]) == Lowered(kept) + {Lower(x)};
        forall i | 0 <= i < |kept| ensures Lower(kept[i]) != Lower(x) {
          assert Lower(kept[i]) in Lowered(kept);
        }
      }
    }
  }

  /** The first occurrence wins and the order is kept: de-duplicating a longer list only appends. */
  lemma {:induction false} DedupPrefix(xs: seq<string>, ys: seq<string>)
    ensures |Dedup(xs)| <= |Dedup(xs + ys)|
    ensures Dedup(xs + ys)[..|Dedup(xs)|] == Dedup(xs)
    decreases |ys|
  {
    if ys == [] {
      assert xs + ys == xs;
    } else {
      var init := ys[..|ys| - 1];
      assert (xs + ys)[..|xs + ys| - 1] == xs + init;
      DedupPrefix(xs, init);
    }
  }

  /** A list with no caseless repeats is its own de-duplication. */
  lemma {:induction false} DedupOfDistinct(xs: seq<string>)
    requires CaselessDistinct(xs)
    ensures Dedup(xs) == xs
    decreases |xs|
  {
    if xs != [] {
      var init := xs[..|xs| - 1];
      var x := xs[|xs| - 1];
      assert CaselessDistinct(init) by {
        forall i, j | 0 <= i < j < |init| ensures Lower(init[i]) != Lower(init[j]) {
          assert init[i] == xs[i] && init[j] == xs[j];
        }
      }
      DedupOfDistinct(init);
      assert Lower(x) !in Lowered(init) by {
        forall u | u in init ensures Lower(u) != Lower(x) {
          var i :| 0 <= i < |init| && init[i] == u;
          assert xs[i] == u && xs[|xs| - 1] == x;
        }
      }
      assert init + [x] == xs;
    }
  }

  lemma TakeKeepsDistinct(xs: seq<string>, k: nat)
    requires CaselessDistinct(xs)
    ensures CaselessDistinct(Take(xs, k))
  {
    var t := Take(xs, k);
    assert forall i :: 0 <= i < |t| ==> t[i] == xs[i];
  }

  /** Each type's own list has no caseless repeats, five items for six types and three for the rest. */
  lemma RuleSuggestionsShape(t: ClauseType)
    ensures |RuleSuggestions(t)| == if HasSpecificList(t) then 5 else 3
    ensures CaselessDistinct(RuleSuggestions(t))
  {
    match t
    case Liability => ListDistinct(LiabilitySuggestions);
    case Termination => ListDistinct(TerminationSuggestions);
    case NonCompete =>
      assert LowerChar(NonCompeteSuggestions[1][0]) != LowerChar(NonCompeteSuggestions[4][0]);
      ListDistinct(NonCompeteSuggestions);
    case Ip => ListDistinct(IpSuggestions);
    case Confidentiality => ListDistinct(ConfidentialitySuggestions);
    case Payment =>
      assert LowerChar(PaymentSuggestions[2][0]) != LowerChar(PaymentSuggestions[3][0]);
      ListDistinct(PaymentSuggestions);
    case _ => ListDistinct(GenericSuggestions);
  }

  /** Items of different lengths, or with different first letters, are caselessly distinct. */
  lemma ListDistinct(xs: seq<string>)
    requires forall i, j :: 0 <= i < j < |xs| ==>
      |xs[i]| != |xs[j]| || (0 < |xs[i]| && 0 < |xs[j]| && LowerChar(xs[i][0]) != LowerChar(xs[j][0]))
    ensures CaselessDistinct(xs)
  {
    forall i, j | 0 <= i < j < |xs| ensures Lower(xs[i]) != Lower(xs[j]) {
      if |xs[i]| == |xs[j]| {
        assert Lower(xs[i])[0] != Lower(xs[j])[0];
      }
    }
  }

  /** Two strings that differ ignoring case at a position differ after lower-casing. */
  lemma FirstDifference(a: string, b: string)
    requires |a| != |b| || exists k :: 0 <= k < |a| && k < |b| && LowerChar(a[k]) != LowerChar(b[k])
    ensures Lower(a) != Lower(b)
  {
    if |a| == |b| {
      var k :| 0 <= k < |a| && k < |b| && LowerChar(a[k]) != LowerChar(b[k]);
      assert Lower(a)[k] != Lower(b)[k];
    }
  }

  /** Without augmentation the result is the type's own list. */
  lemma RulesOnlyGivesTypeList(t: ClauseType, level: Option<RiskLevel>, useLlm: bool, reply: Option<Json>)
    requires !Augments(useLlm, level)
    ensures NegotiationPoints(t, level, useLlm, reply) == Some(RuleSuggestions(t))
  {
    var rules := RuleSuggestions(t);
    assert Candidates(t, level, useLlm, reply) == AsJson(rules);
    TextsOfStrings(rules);
    RuleSuggestionsShape(t);
    DedupOfDistinct(rules);
    assert Take(rules, 5) == rules;
  }

  /** For the six types with a list of their own, augmentation never changes the result: the five rule items fill it. */
  lemma SpecificListsIgnoreAugmentation(t: ClauseType, level: Option<RiskLevel>, useLlm: bool, reply: Option<Json>)
    requires HasSpecificList(t)
    requires NegotiationPoints(t, level, useLlm, reply).Some?
    ensures NegotiationPoints(t, level, useLlm, reply) == Some(RuleSuggestions(t))
  {
    var rules := RuleSuggestions(t);
    var candidates := Candidates(t, level, useLlm, reply);
    var extension := candidates[|rules|..];
    assert candidates == AsJson(rules) + extension;
    TextsAppend(AsJson(rules), extension);
    TextsOfStrings(rules);
    var more := Texts(extension).value;
    RuleSuggestionsShape(t);
    DedupOfDistinct(rules);
    DedupPrefix(rules, more);
  }
}
