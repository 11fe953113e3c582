/**
 * The regular-expression engine is not modelled. A pattern is named by its source text and
 * its flags, and an `Engine` stands for `re.finditer`: it lists the non-overlapping matches of
 * a pattern in a text. Every property below is stated relative to whatever engine is passed in.
 */
module Regex {
  import opened Wrappers

  /** A compiled pattern: its source text and the `re.IGNORECASE` / `re.MULTILINE` flags. */
  datatype Pattern = Pattern(source: string, ignoreCase: bool, multiline: bool)

  /** One match: its span and its groups; group 0 is the whole match, an absent group is None. */
  datatype Match = Match(start: nat, end: nat, groups: seq<Option<string>>)

  /** `re.finditer(pattern, text)`. */
  type Engine = (Pattern, string) -> seq<Match>

  /** `len(re.findall(pattern, text))`. */
  function CountMatches(engine: Engine, p: Pattern, text: string): nat
  {
    |engine(p, text)|
  }

  /** `re.search(pattern, text) is not None`. */
  predicate Found(engine: Engine, p: Pattern, text: string)
  {
    |engine(p, text)| > 0
  }

  /** `m.group(k)`, None when the group did not take part. */
  function Group(m: Match, k: nat): Option<string>
  {
    if k < |m.groups| then m.groups[k] else None
  }

  /**
   * `m.group(k)` for a group the pattern always fills. The patterns this is used with never leave
   * that group out of a match, so the empty fallback does not arise.
   */
  function Capture(m: Match, k: nat): string
  {
    match Group(m, k)
    case Some(g) => g
    case None => ""
  }

  /** What `re.finditer` guarantees about the spans it yields. */
  predicate Sound(ms: seq<Match>, text: string)
  {
    && (forall i :: 0 <= i < |ms| ==> ms[i].start <= ms[i].end <= |text|)
    && (forall i, j :: 0 <= i < j < |ms| ==> ms[i].end <= ms[j].start && ms[i].start < ms[j].start)
  }
}
