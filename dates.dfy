/*
 * Important dates: every match of seven typed patterns, with the date text, its
 * type and a short stripped context taken around the match. Parsing a date
 * string into a calendar date is not part of this model.
 */
module Dates {
  import opened TextUtil
  import opened Regex

  /** One date found in a contract. */
  datatype ImportantDate = ImportantDate(date: string, kind: string, context: string)

  const DateKind := "date"
  const EffectiveDateKind := "effective_date"
  const TermKind := "term"
  const ExpirationKind := "expiration"
  const RenewalKind := "renewal"
  const DeadlineKind := "deadline"

  /** The six types a date can have. */
  predicate IsDateKind(k: string)
  {
    k == DateKind || k == EffectiveDateKind || k == TermKind
    || k == ExpirationKind || k == RenewalKind || k == DeadlineKind
  }

  const NumericDatePattern := Pattern(@"(\d{1,2}[/-]\d{1,2}[/-]\d{2,4})", true, false)
  const MonthDatePattern := Pattern(@"((?:January|February|March|April|May|June|July|August|September|October|November|December)\s+\d{1,2},?\s+\d{4})", true, false)
  const EffectivePattern := Pattern(@"effective\s+(?:date|as of)\s*[:]?\s*([^,\.]+)", true, false)
  const TermPattern := Pattern(@"term of\s+(\d+\s+(?:day|week|month|year)s?)", true, false)
  const ExpirationPattern := Pattern(@"expir(?:e|ation|y)\s+(?:date|on)?\s*[:]?\s*([^,\.]+)", true, false)
  const RenewalPattern := Pattern(@"renew(?:al)?\s+(?:date|on)?\s*[:]?\s*([^,\.]+)", true, false)
  const DeadlinePattern := Pattern(@"deadline\s+(?:of|for|is)?\s*[:]?\s*([^,\.]+)", true, false)

  /** The seven patterns with their types, in the order they are tried. */
  const DatePatterns := [
    (NumericDatePattern, DateKind),
    (MonthDatePattern, DateKind),
    (EffectivePattern, EffectiveDateKind),
    (TermPattern, TermKind),
    (ExpirationPattern, ExpirationKind),
    (RenewalPattern, RenewalKind),
    (DeadlinePattern, DeadlineKind)
  ]

  /** Characters of context taken before and after a match. */
  const ContextBefore := 20
  const ContextAfter := 30
  /** At most this many dates are returned. */
  const MaxDates := 10

  /** `max(0, match.start() - 20)`. */
  function WindowStart(m: Match): nat
  {
    if m.start - ContextBefore > 0 then m.start - ContextBefore else 0
  }

  /** `min(len(text), match.end() + 30)`. */
  function WindowEnd(text: string, m: Match): nat
  {
    if |text| < m.end + ContextAfter then |text| else m.end + ContextAfter
  }

  /** `s.replace('\n', ' ')`. */
  function NewlinesToSpaces(s: string): string
  {
    ReplaceChar(s, '\n', ' ')
  }

  /** The context of a match: the window around it, newlines made spaces, stripped. */
  function ContextAt(text: string, m: Match): string
  {
    Strip(NewlinesToSpaces(PySlice(text, WindowStart(m), WindowEnd(text, m))))
  }

  /** The entry one match of a pattern of type `kind` gives. */
  function DateOf(text: string, kind: string): Match -> ImportantDate
  {
    m => ImportantDate(Strip(Capture(m, 1)), kind, ContextAt(text, m))
  }

  /** The entries a pattern gives on `text`, in match order. */
  function DatesOf(engine: Engine, text: string): ((Pattern, string)) -> seq<ImportantDate>
  {
    (pk: (Pattern, string)) => Map(DateOf(text, pk.1), engine(pk.0, text))
  }

  /** All entries, pattern by pattern, before the cap. */
  function PatternDates(engine: Engine, ps: seq<(Pattern, string)>, text: string): seq<ImportantDate>
  {
    FlatMap(DatesOf(engine, text), ps)
  }

  /** What `extract_important_dates(text)` returns. */
  function ImportantDates(engine: Engine, text: string): (r: seq<ImportantDate>)
    ensures |r| <= MaxDates
  {
    Take(PatternDates(engine, DatePatterns, text), MaxDates)
  }

  /** The inner loop: one entry per match of one pattern. */
  method AppendDates(found: seq<ImportantDate>, text: string, ms: seq<Match>, dateType: string)
    returns (r: seq<ImportantDate>)
    ensures r == found + Map(DateOf(text, dateType), ms)
  {
    var got: seq<ImportantDate> := [];
    for j := 0 to |ms|
      invariant got == Map(DateOf(text, dateType), ms[..j])
    {
      var dateStr := Strip(Capture(ms[j], 1));
      var start := if ms[j].start - ContextBefore > 0 then ms[j].start - ContextBefore else 0;
      var end := if |text| < ms[j].end + ContextAfter then |text| else ms[j].end + ContextAfter;
      var context := NewlinesToSpaces(PySlice(text, start, end));
      MapStep(DateOf(text, dateType), ms, j);
      got := got + [ImportantDate(dateStr, dateType, Strip(context))];
    }
    assert ms[..|ms|] == ms;
    r := found + got;
  }

  /** One more pattern. */
  lemma PatternDatesStep(engine: Engine, ps: seq<(Pattern, string)>, k: nat, text: string)
    requires k < |ps|
    ensures PatternDates(engine, ps[..k + 1], text)
         == PatternDates(engine, ps[..k], text) + Map(DateOf(text, ps[k].1), engine(ps[k].0, text))
  {
    assert ps[..k + 1][..k] == ps[..k];
  }

  /** `extract_important_dates(text)`. */
  method ExtractImportantDates(text: string, engine: Engine) returns (r: seq<ImportantDate>)
    ensures r == ImportantDates(engine, text)
  {
    var dates: seq<ImportantDate> := [];
    for k := 0 to |DatePatterns|
      invariant dates == PatternDates(engine, DatePatterns[..k], text)
    {
      var (pattern, dateType) := DatePatterns[k];
      dates := AppendDates(dates, text, engine(pattern, text), dateType);
      PatternDatesStep(engine, DatePatterns, k, text);
    }
    assert DatePatterns[..|DatePatterns|] == DatePatterns;
    r := Take(dates, MaxDates);
  }

  /**
   * The context window lies inside the text; for a match inside the text it covers the match
   * and at most twenty characters before and thirty after it.
   */
  lemma WindowInBounds(text: string, m: Match)
    ensures 0 <= WindowStart(m) && WindowEnd(text, m) <= |text|
    ensures m.start <= m.end <= |text| ==>
      && WindowStart(m) <= m.start && m.end <= WindowEnd(text, m)
      && WindowEnd(text, m) - WindowStart(m) <= (m.end - m.start) + ContextBefore + ContextAfter
      && PySlice(text, WindowStart(m), WindowEnd(text, m)) == text[WindowStart(m)..WindowEnd(text, m)]
  {
    if m.start <= m.end <= |text| {
      PySliceInBounds(text, WindowStart(m), WindowEnd(text, m));
    }
  }

  /** After the replacement no newline is left, and nothing else changes. */
  lemma NewlinesToSpacesShape(s: string)
    ensures '\n' !in NewlinesToSpaces(s)
    ensures |NewlinesToSpaces(s)| == |s|
    ensures forall i :: 0 <= i < |s| && s[i] != '\n' ==> NewlinesToSpaces(s)[i] == s[i]
  {
    var r := NewlinesToSpaces(s);
    forall i | 0 <= i < |r| ensures r[i] != '\n' {
    }
  }

  /** A context holds no newline and is stripped. */
  lemma ContextShape(text: string, m: Match)
    ensures '\n' !in ContextAt(text, m)
    ensures IsStripped(ContextAt(text, m))
  {
    var spaced := NewlinesToSpaces(PySlice(text, WindowStart(m), WindowEnd(text, m)));
    NewlinesToSpacesShape(PySlice(text, WindowStart(m), WindowEnd(text, m)));
    StripKeepsChars(spaced);
    StripIsStripped(spaced);
  }

  /** Dates appear in pattern order: the entries of two pattern lists are concatenated. */
  lemma PatternDatesAppend(engine: Engine, ps: seq<(Pattern, string)>, qs: seq<(Pattern, string)>, text: string)
    ensures PatternDates(engine, ps + qs, text) == PatternDates(engine, ps, text) + PatternDates(engine, qs, text)
  {
    FlatMapAppend(DatesOf(engine, text), ps, qs);
  }

  /** Every entry is the entry of one match of one of the patterns, carrying that pattern's type. */
  lemma PatternDatesFrom(engine: Engine, ps: seq<(Pattern, string)>, text: string)
    ensures forall d :: d in PatternDates(engine, ps, text) ==>
      exists k, j :: (0 <= k < |ps| && 0 <= j < |engine(ps[k].0, text)|
        && d == DateOf(text, ps[k].1)(engine(ps[k].0, text)[j]))
  {
    FlatMapFrom(DatesOf(engine, text), ps);
    forall d | d in PatternDates(engine, ps, text)
      ensures exists k, j :: (0 <= k < |ps| && 0 <= j < |engine(ps[k].0, text)|
        && d == DateOf(text, ps[k].1)(engine(ps[k].0, text)[j]))
    {
      var k :| 0 <= k < |ps| && d in DatesOf(engine, text)(ps[k]);
      var ms := engine(ps[k].0, text);
      var j :| 0 <= j < |ms| && Map(DateOf(text, ps[k].1), ms)[j] == d;
    }
  }

  /** Every entry has a stripped date text and a stripped context without newlines. */
  lemma DateOfShape(text: string, kind: string, m: Match)
    ensures var d := DateOf(text, kind)(m);
      d.kind == kind && IsStripped(d.date) && IsStripped(d.context) && '\n' !in d.context
  {
    StripIsStripped(Capture(m, 1));
    ContextShape(text, m);
  }

  /** Patterns of the six types give only well-formed entries of those types. */
  lemma PatternDatesShape(engine: Engine, ps: seq<(Pattern, string)>, text: string)
    requires forall k :: 0 <= k < |ps| ==> IsDateKind(ps[k].1)
    ensures forall d :: d in PatternDates(engine, ps, text) ==>
      IsDateKind(d.kind) && IsStripped(d.date) && IsStripped(d.context) && '\n' !in d.context
  {
    PatternDatesFrom(engine, ps, text);
    forall d | d in PatternDates(engine, ps, text)
      ensures IsDateKind(d.kind) && IsStripped(d.date) && IsStripped(d.context) && '\n' !in d.context
    {
      var k, j :| 0 <= k < |ps| && 0 <= j < |engine(ps[k].0, text)|
        && d == DateOf(text, ps[k].1)(engine(ps[k].0, text)[j]);
      DateOfShape(text, ps[k].1, engine(ps[k].0, text)[j]);
    }
  }

  /**
   * At most ten dates; each has one of the six types, a stripped date text and a stripped
   * context without newlines.
   */
  lemma ImportantDatesShape(engine: Engine, text: string)
    ensures |ImportantDates(engine, text)| <= MaxDates
    ensures forall d :: d in ImportantDates(engine, text) ==>
      IsDateKind(d.kind) && IsStripped(d.date) && IsStripped(d.context) && '\n' !in d.context
  {
    var all := PatternDates(engine, DatePatterns, text);
    PatternDatesShape(engine, DatePatterns, text);
    assert ImportantDates(engine, text) == all[..|ImportantDates(engine, text)|];
  }
}
