/*
 * Party identification: names found near the start of the contract by three
 * patterns, each given a role, then de-duplicated by name and cut to five.
 *
 * The patterns are matched by the abstract engine of module Regex; the
 * role of a name is decided by a cascade of searches for the name followed by
 * a cue word, in the lower-cased first thousand characters. The name is spliced
 * into those patterns unescaped, so a name such as `Acme (North` gives a pattern
 * that does not compile and `re.search` raises `re.error`: a parameter
 * `compileError` gives the message of that error for each pattern, None for a
 * pattern that compiles. The three fixed patterns compile.
 */
module Parties {
  import opened TextUtil
  import opened Regex
  import opened Wrappers
  import opened Http

  /** One entry of the result: its "name" and "role". */
  datatype Party = Party(name: string, role: string)

  const BetweenPattern := Pattern(@"(?:between|by and between)\s+([^,]+?)\s+(?:and|&)\s+([^,\.]+)", true, false)
  const CompanyPattern := Pattern(@"([A-Z][A-Za-z\s&]+(?:LLC|Inc|Corp|Ltd|LLP|L\.L\.C\.|Corporation)\.?)", true, false)
  const ReferredPattern := Pattern(@"referred to as\s+[""\']([^""\']+)[""\']", true, false)

  /** The three patterns, in the order they are tried; the first is the "between" pattern. */
  const PartyPatterns := [BetweenPattern, CompanyPattern, ReferredPattern]

  /** Only this many leading characters are searched for parties. */
  const SearchLimit := 2000
  /** Only this many leading characters are searched for role cues. */
  const RoleLimit := 1000
  /** At most this many parties are returned. */
  const MaxParties := 5
  /** A name from the second or third pattern must be longer than this. */
  const MinNameLength := 5

  const FirstParty := "Party 1"
  const SecondParty := "Party 2"
  const EmployerRole := "Employer/Company"
  const EmployeeRole := "Employee/Contractor"
  const VendorRole := "Vendor/Supplier"
  const ClientRole := "Client/Customer"
  const DefaultRole := "Party"

  const EmployerCues := "employer|company"
  const EmployeeCues := "employee|contractor"
  const VendorCues := "vendor|supplier"
  const ClientCues := "client|customer"

  /** Every role a party can be given. */
  predicate IsRole(role: string)
  {
    || role == FirstParty || role == SecondParty
    || role == EmployerRole || role == EmployeeRole || role == VendorRole || role == ClientRole
    || role == DefaultRole
  }

  /** `rf'{party_lower}.*?(?:{cues})'`: the lower-cased name is spliced in unescaped, no flags. */
  function RolePattern(partyLower: string, cues: string): Pattern
  {
    Pattern(partyLower + @".*?(?:" + cues + ")", false, false)
  }

  /** Whether the name is followed somewhere by one of the cues in the role window. */
  predicate HasCue(engine: Engine, name: string, text: string, cues: string)
  {
    Found(engine, RolePattern(Lower(name), cues), Take(Lower(text), RoleLimit))
  }

  /** `determine_party_role(party_name, text)`: the first cue found decides, in a fixed order. */
  function Role(engine: Engine, name: string, text: string): (r: string)
    ensures r in [EmployerRole, EmployeeRole, VendorRole, ClientRole, DefaultRole]
  {
    if HasCue(engine, name, text, EmployerCues) then EmployerRole
    else if HasCue(engine, name, text, EmployeeCues) then EmployeeRole
    else if HasCue(engine, name, text, VendorCues) then VendorRole
    else if HasCue(engine, name, text, ClientCues) then ClientRole
    else DefaultRole
  }

  /** `re.search(rf'{party_lower}.*?(?:{cues})', text_lower[:1000])`: whether a cue follows the name, or the `re.error`. */
  function SearchCue(compileError: Pattern -> Option<string>, engine: Engine, name: string, text: string, cues: string): Outcome<bool>
  {
    var p := RolePattern(Lower(name), cues);
    if compileError(p).Some? then Raised(compileError(p).value) else Done(HasCue(engine, name, text, cues))
  }

  /**
   * `determine_party_role(party_name, text)` with compilation: the searches run in order until a
   * cue is found, and the first pattern that does not compile raises. When it returns, the role
   * is the cascade's.
   */
  function RoleOutcome(compileError: Pattern -> Option<string>, engine: Engine, name: string, text: string): (r: Outcome<string>)
    ensures r.Done? ==> r.value == Role(engine, name, text)
  {
    match SearchCue(compileError, engine, name, text, EmployerCues)
    case Raised(m) => Raised(m)
    case Done(true) => Done(EmployerRole)
    case Done(false) =>
      match SearchCue(compileError, engine, name, text, EmployeeCues)
      case Raised(m) => Raised(m)
      case Done(true) => Done(EmployeeRole)
      case Done(false) =>
        match SearchCue(compileError, engine, name, text, VendorCues)
        case Raised(m) => Raised(m)
        case Done(true) => Done(VendorRole)
        case Done(false) =>
          match SearchCue(compileError, engine, name, text, ClientCues)
          case Raised(m) => Raised(m)
          case Done(true) => Done(ClientRole)
          case Done(false) => Done(DefaultRole)
  }

  /** Whether the pattern for a name and a cue group compiles. */
  predicate Compiles(compileError: Pattern -> Option<string>, name: string, cues: string)
  {
    compileError(RolePattern(Lower(name), cues)).None?
  }

  /**
   * The first search always runs, so a name whose first pattern does not compile always raises
   * its error; when all four patterns compile the role is the cascade's; and an error raised is
   * always the compile error of one of the four patterns.
   */
  lemma RoleOutcomeRaises(compileError: Pattern -> Option<string>, engine: Engine, name: string, text: string)
    ensures !Compiles(compileError, name, EmployerCues) ==>
      RoleOutcome(compileError, engine, name, text) == Raised(compileError(RolePattern(Lower(name), EmployerCues)).value)
    ensures (Compiles(compileError, name, EmployerCues) && Compiles(compileError, name, EmployeeCues)
          && Compiles(compileError, name, VendorCues) && Compiles(compileError, name, ClientCues)) ==>
      RoleOutcome(compileError, engine, name, text) == Done(Role(engine, name, text))
    ensures RoleOutcome(compileError, engine, name, text).Raised? ==>
      exists cues :: cues in [EmployerCues, EmployeeCues, VendorCues, ClientCues]
        && compileError(RolePattern(Lower(name), cues)) == Some(RoleOutcome(compileError, engine, name, text).message)
  {
    var r := RoleOutcome(compileError, engine, name, text);
    if r.Raised? {
      if !Compiles(compileError, name, EmployerCues) {
        assert EmployerCues in [EmployerCues, EmployeeCues, VendorCues, ClientCues];
      } else if !Compiles(compileError, name, EmployeeCues) {
        assert EmployeeCues in [EmployerCues, EmployeeCues, VendorCues, ClientCues];
      } else if !Compiles(compileError, name, VendorCues) {
        assert VendorCues in [EmployerCues, EmployeeCues, VendorCues, ClientCues];
      } else {
        assert ClientCues in [EmployerCues, EmployeeCues, VendorCues, ClientCues];
      }
    }
  }

  /**
   * The cascade: each role is given exactly when its cue is found and no
   * earlier cue is, and "Party" exactly when no cue is found.
   */
  lemma RoleCascade(engine: Engine, name: string, text: string)
    ensures IsRole(Role(engine, name, text))
    ensures Role(engine, name, text) == EmployerRole <==> HasCue(engine, name, text, EmployerCues)
    ensures Role(engine, name, text) == EmployeeRole <==>
      !HasCue(engine, name, text, EmployerCues) && HasCue(engine, name, text, EmployeeCues)
    ensures Role(engine, name, text) == VendorRole <==>
      !HasCue(engine, name, text, EmployerCues) && !HasCue(engine, name, text, EmployeeCues)
      && HasCue(engine, name, text, VendorCues)
    ensures Role(engine, name, text) == ClientRole <==>
      !HasCue(engine, name, text, EmployerCues) && !HasCue(engine, name, text, EmployeeCues)
      && !HasCue(engine, name, text, VendorCues) && HasCue(engine, name, text, ClientCues)
    ensures Role(engine, name, text) == DefaultRole <==>
      !HasCue(engine, name, text, EmployerCues) && !HasCue(engine, name, text, EmployeeCues)
      && !HasCue(engine, name, text, VendorCues) && !HasCue(engine, name, text, ClientCues)
  {
  }

  /** Texts that agree on their first thousand characters get the same role for every name. */
  lemma RoleWindowOnly(engine: Engine, name: string, t1: string, t2: string)
    requires Take(t1, RoleLimit) == Take(t2, RoleLimit)
    ensures Role(engine, name, t1) == Role(engine, name, t2)
  {
    LowerTake(t1, RoleLimit);
    LowerTake(t2, RoleLimit);
  }

  /** Lower-casing commutes with taking a prefix. */
  lemma LowerTake(t: string, k: nat)
    ensures Take(Lower(t), k) == Lower(Take(t, k))
  {
  }

  /** `[p["name"] for p in parties]`. */
  function Names(ps: seq<Party>): (r: seq<string>)
    ensures |r| == |ps|
  {
    seq(|ps|, i requires 0 <= i < |ps| => ps[i].name)
  }

  /** What one match adds: both names for "between", otherwise a long enough new name with its role. */
  function AddMatch(ps: seq<Party>, between: bool, m: Match, engine: Engine, text: string): seq<Party>
  {
    if between then ps + PairOf(m) else AddNamed(ps, m, engine, text)
  }

  /** The two entries of one "between" match: its first name as "Party 1", its second as "Party 2". */
  function PairOf(m: Match): seq<Party>
  {
    [Party(Strip(Capture(m, 1)), FirstParty), Party(Strip(Capture(m, 2)), SecondParty)]
  }

  /** What a match of the other patterns adds: a name longer than five and not yet listed, with its role. */
  function AddNamed(ps: seq<Party>, m: Match, engine: Engine, text: string): seq<Party>
  {
    var name := Strip(Capture(m, 1));
    if |name| > MinNameLength && name !in Names(ps) then ps + [Party(name, Role(engine, name, text))]
    else ps
  }

  /** What a pattern's matches add, in match order. */
  function AddMatches(ps: seq<Party>, between: bool, ms: seq<Match>, engine: Engine, text: string): seq<Party>
  {
    if ms == [] then ps
    else AddMatch(AddMatches(ps, between, ms[..|ms| - 1], engine, text), between, ms[|ms| - 1], engine, text)
  }

  /** The candidate list after the first `k` patterns. */
  function CandidatesUpTo(engine: Engine, text: string, k: nat): seq<Party>
    requires k <= |PartyPatterns|
  {
    if k == 0 then []
    else
      AddMatches(CandidatesUpTo(engine, text, k - 1), k - 1 == 0,
                 engine(PartyPatterns[k - 1], Take(text, SearchLimit)), engine, text)
  }

  /** The candidate list before de-duplication. */
  function Candidates(engine: Engine, text: string): seq<Party>
  {
    CandidatesUpTo(engine, text, |PartyPatterns|)
  }

  /** The de-duplication loop: a party is kept unless its name was kept already. */
  function Unique(ps: seq<Party>): seq<Party>
  {
    if ps == [] then []
    else
      var u := Unique(ps[..|ps| - 1]);
      if ps[|ps| - 1].name in Names(u) then u else u + [ps[|ps| - 1]]
  }

  /** The list `identify_parties(text)` returns. */
  function IdentifiedParties(engine: Engine, text: string): (r: seq<Party>)
    ensures |r| <= MaxParties
  {
    Take(Unique(Candidates(engine, text)), MaxParties)
  }

  /** One more match. */
  lemma AddMatchesStep(ps: seq<Party>, between: bool, ms: seq<Match>, j: nat, engine: Engine, text: string)
    requires j < |ms|
    ensures AddMatches(ps, between, ms[..j + 1], engine, text)
         == AddMatch(AddMatches(ps, between, ms[..j], engine, text), between, ms[j], engine, text)
  {
    assert ms[..j + 1][..j] == ms[..j];
  }

  /** Whether `determine_party_role` raises for an entry: a name given a role by the cascade whose search raises. */
  predicate Blocked(compileError: Pattern -> Option<string>, engine: Engine, text: string, p: Party)
  {
    p.role != FirstParty && p.role != SecondParty && RoleOutcome(compileError, engine, p.name, text).Raised?
  }

  /** The error of the first blocked entry: where `identify_parties` stops. */
  function FirstRaised(compileError: Pattern -> Option<string>, engine: Engine, text: string, ps: seq<Party>): Option<string>
  {
    if ps == [] then None
    else if FirstRaised(compileError, engine, text, ps[..|ps| - 1]).Some? then FirstRaised(compileError, engine, text, ps[..|ps| - 1])
    else if Blocked(compileError, engine, text, ps[|ps| - 1]) then Some(RoleOutcome(compileError, engine, ps[|ps| - 1].name, text).message)
    else None
  }

  /** A candidate list, or the error raised while it is built. */
  function Guarded(compileError: Pattern -> Option<string>, engine: Engine, text: string, ps: seq<Party>): Outcome<seq<Party>>
  {
    match FirstRaised(compileError, engine, text, ps)
    case Some(m) => Raised(m)
    case None => Done(ps)
  }

  /** The first error of a joined list: the first list's, else the second's. */
  lemma {:induction false} FirstRaisedAppend(compileError: Pattern -> Option<string>, engine: Engine, text: string, xs: seq<Party>, ys: seq<Party>)
    ensures FirstRaised(compileError, engine, text, xs + ys)
         == if FirstRaised(compileError, engine, text, xs).Some? then FirstRaised(compileError, engine, text, xs)
            else FirstRaised(compileError, engine, text, ys)
    decreases |ys|
  {
    if ys == [] {
      assert xs + ys == xs;
    } else {
      var init := ys[..|ys| - 1];
      assert (xs + ys)[..|xs + ys| - 1] == xs + init;
      FirstRaisedAppend(compileError, engine, text, xs, init);
    }
  }

  /** An error in a prefix is the error of the whole list. */
  lemma PrefixFirstRaised(compileError: Pattern -> Option<string>, engine: Engine, text: string, a: seq<Party>, full: seq<Party>)
    requires |a| <= |full| && full[..|a|] == a
    requires FirstRaised(compileError, engine, text, a).Some?
    ensures FirstRaised(compileError, engine, text, full) == FirstRaised(compileError, engine, text, a)
  {
    assert full == a + full[|a|..];
    FirstRaisedAppend(compileError, engine, text, a, full[|a|..]);
  }

  /** The list after the first `j` matches is a prefix of the list after all of them. */
  lemma {:induction false} AddMatchesPrefix(ps: seq<Party>, between: bool, ms: seq<Match>, j: nat, engine: Engine, text: string)
    requires j <= |ms|
    ensures var a := AddMatches(ps, between, ms[..j], engine, text);
      var full := AddMatches(ps, between, ms, engine, text);
      |a| <= |full| && full[..|a|] == a
    decreases |ms|
  {
    if j < |ms| {
      var init := ms[..|ms| - 1];
      assert init[..j] == ms[..j];
      AddMatchesPrefix(ps, between, init, j, engine, text);
    } else {
      assert ms[..j] == ms;
    }
  }

  /** The entries a "between" match adds are never blocked. */
  lemma PairNotBlocked(compileError: Pattern -> Option<string>, engine: Engine, text: string, acc: seq<Party>, m: Match)
    requires FirstRaised(compileError, engine, text, acc).None?
    ensures FirstRaised(compileError, engine, text, acc + PairOf(m)).None?
  {
    var pair := PairOf(m);
    assert pair[..1] == [pair[0]] && [pair[0]][..0] == [];
    assert FirstRaised(compileError, engine, text, [pair[0]]).None?;
    assert FirstRaised(compileError, engine, text, pair).None?;
    FirstRaisedAppend(compileError, engine, text, acc, pair);
  }

  /** A name whose role is found is not blocked; one whose search raises stops the list with that error. */
  lemma NamedStep(compileError: Pattern -> Option<string>, engine: Engine, text: string, acc: seq<Party>, name: string)
    requires FirstRaised(compileError, engine, text, acc).None?
    ensures var r := RoleOutcome(compileError, engine, name, text);
      FirstRaised(compileError, engine, text, acc + [Party(name, Role(engine, name, text))])
        == if r.Raised? then Some(r.message) else None
  {
    assert (acc + [Party(name, Role(engine, name, text))])[..|acc|] == acc;
  }

  /** The match loop of one pattern; it stops at the first name whose role search raises. */
  method AddPatternMatches(parties: seq<Party>, between: bool, ms: seq<Match>, engine: Engine,
                           compileError: Pattern -> Option<string>, text: string)
    returns (r: Outcome<seq<Party>>)
    requires FirstRaised(compileError, engine, text, parties).None?
    ensures r == Guarded(compileError, engine, text, AddMatches(parties, between, ms, engine, text))
  {
    var acc := parties;
    for j := 0 to |ms|
      invariant acc == AddMatches(parties, between, ms[..j], engine, text)
      invariant FirstRaised(compileError, engine, text, acc).None?
    {
      AddMatchesStep(parties, between, ms, j, engine, text);
      if between {
        PairNotBlocked(compileError, engine, text, acc, ms[j]);
        acc := acc + [Party(Strip(Capture(ms[j], 1)), FirstParty), Party(Strip(Capture(ms[j], 2)), SecondParty)];
      } else {
        var name := Strip(Capture(ms[j], 1));
        if |name| > MinNameLength && name !in Names(acc) {
          var role := RoleOutcome(compileError, engine, name, text);
          NamedStep(compileError, engine, text, acc, name);
          if role.Raised? {
            AddMatchesPrefix(parties, between, ms, j + 1, engine, text);
            PrefixFirstRaised(compileError, engine, text, acc + [Party(name, Role(engine, name, text))],
                              AddMatches(parties, between, ms, engine, text));
            return Raised(role.message);
          }
          acc := acc + [Party(name, role.value)];
        }
      }
    }
    assert ms[..|ms|] == ms;
    r := Done(acc);
  }

  /** Appending a party adds its name. */
  lemma NamesAppend(u: seq<Party>, p: Party)
    ensures Names(u + [p]) == Names(u) + [p.name]
  {
  }

  /** The de-duplication loop, with the set of names seen so far. */
  method Dedup(parties: seq<Party>) returns (unique: seq<Party>)
    ensures unique == Unique(parties)
  {
    var seen: set<string> := {};
    unique := [];
    for j := 0 to |parties|
      invariant unique == Unique(parties[..j])
      invariant forall n :: n in seen <==> n in Names(unique)
    {
      assert parties[..j + 1][..j] == parties[..j];
      if parties[j].name !in seen {
        NamesAppend(unique, parties[j]);
        seen := seen + {parties[j].name};
        unique := unique + [parties[j]];
      }
    }
    assert parties[..|parties|] == parties;
  }

  /** What `identify_parties(text)` returns, or the `re.error` it raises. */
  function IdentifyPartiesResult(compileError: Pattern -> Option<string>, engine: Engine, text: string): Outcome<seq<Party>>
  {
    match FirstRaised(compileError, engine, text, Candidates(engine, text))
    case Some(m) => Raised(m)
    case None => Done(IdentifiedParties(engine, text))
  }

  /** An error while building the first `k` patterns' candidates is the error of the whole list. */
  lemma {:induction false} CandidatesPrefixRaised(compileError: Pattern -> Option<string>, engine: Engine, text: string, k: nat)
    requires k <= |PartyPatterns|
    requires FirstRaised(compileError, engine, text, CandidatesUpTo(engine, text, k)).Some?
    ensures FirstRaised(compileError, engine, text, Candidates(engine, text))
         == FirstRaised(compileError, engine, text, CandidatesUpTo(engine, text, k))
    decreases |PartyPatterns| - k
  {
    if k < |PartyPatterns| {
      var ms := engine(PartyPatterns[k], Take(text, SearchLimit));
      AddMatchesPrefix(CandidatesUpTo(engine, text, k), k == 0, ms, 0, engine, text);
      assert ms[..0] == [];
      PrefixFirstRaised(compileError, engine, text, CandidatesUpTo(engine, text, k), CandidatesUpTo(engine, text, k + 1));
      CandidatesPrefixRaised(compileError, engine, text, k + 1);
    }
  }

  /** `identify_parties(text)`. */
  method IdentifyParties(text: string, engine: Engine, compileError: Pattern -> Option<string>) returns (r: Outcome<seq<Party>>)
    ensures r == IdentifyPartiesResult(compileError, engine, text)
  {
    var textStart := Take(text, SearchLimit);
    var parties: seq<Party> := [];
    for i := 0 to |PartyPatterns|
      invariant parties == CandidatesUpTo(engine, text, i)
      invariant FirstRaised(compileError, engine, text, parties).None?
    {
      var step := AddPatternMatches(parties, i == 0, engine(PartyPatterns[i], textStart), engine, compileError, text);
      if step.Raised? {
        CandidatesPrefixRaised(compileError, engine, text, i + 1);
        return Raised(step.message);
      }
      parties := step.value;
    }
    var unique := Dedup(parties);
    r := Done(Take(unique, MaxParties));
  }

  /** When every pattern compiles, no search raises and the parties are returned. */
  lemma AllCompileGivesParties(compileError: Pattern -> Option<string>, engine: Engine, text: string)
    requires forall p :: compileError(p).None?
    ensures IdentifyPartiesResult(compileError, engine, text) == Done(IdentifiedParties(engine, text))
  {
    NoErrorNoneRaised(compileError, engine, text, Candidates(engine, text));
  }

  /** Without compile errors no entry is blocked. */
  lemma {:induction false} NoErrorNoneRaised(compileError: Pattern -> Option<string>, engine: Engine, text: string, ps: seq<Party>)
    requires forall p :: compileError(p).None?
    ensures FirstRaised(compileError, engine, text, ps).None?
  {
    if ps != [] {
      NoErrorNoneRaised(compileError, engine, text, ps[..|ps| - 1]);
      RoleOutcomeRaises(compileError, engine, ps[|ps| - 1].name, text);
    }
  }

  /**
   * An error raised is the compile error of a role pattern for a candidate name that came from
   * the second or third pattern and was long enough and new, so its role was looked up.
   */
  lemma RaisedForLookedUpName(compileError: Pattern -> Option<string>, engine: Engine, text: string)
    ensures IdentifyPartiesResult(compileError, engine, text).Raised? ==>
      exists p :: p in Candidates(engine, text) && p.role != FirstParty && p.role != SecondParty
        && |p.name| > MinNameLength
        && RoleOutcome(compileError, engine, p.name, text) == Raised(IdentifyPartiesResult(compileError, engine, text).message)
  {
    var c := Candidates(engine, text);
    if FirstRaised(compileError, engine, text, c).Some? {
      var p := FirstRaisedFrom(compileError, engine, text, c);
      CandidatesWellFormed(engine, text, |PartyPatterns|);
      assert WellFormed(p);
    }
  }

  /** The entry the first error comes from. */
  lemma {:induction false} FirstRaisedFrom(compileError: Pattern -> Option<string>, engine: Engine, text: string, ps: seq<Party>)
    returns (p: Party)
    requires FirstRaised(compileError, engine, text, ps).Some?
    ensures p in ps && Blocked(compileError, engine, text, p)
    ensures RoleOutcome(compileError, engine, p.name, text) == Raised(FirstRaised(compileError, engine, text, ps).value)
  {
    var init := ps[..|ps| - 1];
    if FirstRaised(compileError, engine, text, init).Some? {
      p := FirstRaisedFrom(compileError, engine, text, init);
      assert p in ps;
    } else {
      p := ps[|ps| - 1];
    }
  }

  // ---------------------------------------------------------------- de-duplication

  /** No two entries share a name. */
  predicate DistinctNames(ps: seq<Party>)
  {
    forall i, j :: 0 <= i < j < |ps| ==> ps[i].name != ps[j].name
  }

  /** Whether entry `i` is the first with its name. */
  predicate IsFirst(ps: seq<Party>, i: nat)
    requires i < |ps|
  {
    forall j :: 0 <= j < i ==> ps[j].name != ps[i].name
  }

  /** The first occurrence of every name, in order: a reference definition by index. */
  function FirstOccurrences(ps: seq<Party>): seq<Party>
  {
    if ps == [] then []
    else if IsFirst(ps, |ps| - 1) then FirstOccurrences(ps[..|ps| - 1]) + [ps[|ps| - 1]]
    else FirstOccurrences(ps[..|ps| - 1])
  }

  /** De-duplication keeps every name and no other. */
  lemma {:induction false} UniqueSameNames(ps: seq<Party>)
    ensures forall n :: n in Names(Unique(ps)) <==> n in Names(ps)
  {
    if ps != [] {
      var init := ps[..|ps| - 1];
      UniqueSameNames(init);
      NamesAppend(init, ps[|ps| - 1]);
      assert ps == init + [ps[|ps| - 1]];
      if ps[|ps| - 1].name !in Names(Unique(init)) {
        NamesAppend(Unique(init), ps[|ps| - 1]);
      }
    }
  }

  /** The last entry is a first occurrence exactly when its name is new. */
  lemma LastIsFirst(ps: seq<Party>)
    requires ps != []
    ensures IsFirst(ps, |ps| - 1) <==> ps[|ps| - 1].name !in Names(ps[..|ps| - 1])
  {
    var init := ps[..|ps| - 1];
    if ps[|ps| - 1].name in Names(init) {
      var j :| 0 <= j < |init| && Names(init)[j] == ps[|ps| - 1].name;
      assert ps[j].name == ps[|ps| - 1].name;
    } else {
      forall j | 0 <= j < |init| ensures ps[j].name != ps[|ps| - 1].name {
        assert Names(init)[j] == ps[j].name;
      }
    }
  }

  /** The de-duplication loop keeps exactly the first occurrence of each name, in order. */
  lemma {:induction false} UniqueIsFirstOccurrences(ps: seq<Party>)
    ensures Unique(ps) == FirstOccurrences(ps)
  {
    if ps != [] {
      var init := ps[..|ps| - 1];
      UniqueIsFirstOccurrences(init);
      UniqueSameNames(init);
      LastIsFirst(ps);
    }
  }

  /** No two kept entries share a name. */
  lemma {:induction false} UniqueDistinct(ps: seq<Party>)
    ensures DistinctNames(Unique(ps))
  {
    if ps != [] {
      var init := ps[..|ps| - 1];
      UniqueDistinct(init);
      var u := Unique(init);
      var last := ps[|ps| - 1];
      if last.name !in Names(u) {
        forall i | 0 <= i < |u| ensures u[i].name != last.name {
          assert Names(u)[i] == u[i].name;
        }
      }
    }
  }

  // ---------------------------------------------------------------- candidates

  /** What every candidate satisfies: a stripped name, a known role, and a long name unless from "between". */
  predicate WellFormed(p: Party)
  {
    && IsStripped(p.name)
    && IsRole(p.role)
    && (p.role != FirstParty && p.role != SecondParty ==> |p.name| > MinNameLength)
  }

  /** One match keeps every candidate well formed. */
  lemma AddMatchWellFormed(ps: seq<Party>, between: bool, m: Match, engine: Engine, text: string)
    requires forall p :: p in ps ==> WellFormed(p)
    ensures forall p :: p in AddMatch(ps, between, m, engine, text) ==> WellFormed(p)
  {
    var name := Strip(Capture(m, 1));
    if between {
      NameWellFormed(Capture(m, 1), FirstParty);
      NameWellFormed(Capture(m, 2), SecondParty);
    } else if |name| > MinNameLength && name !in Names(ps) {
      RoleCascade(engine, name, text);
      NameWellFormed(Capture(m, 1), Role(engine, name, text));
    }
  }

  /** A stripped capture with a known role, long enough unless it is a "between" name, is well formed. */
  lemma NameWellFormed(g: string, role: string)
    requires IsRole(role)
    requires role != FirstParty && role != SecondParty ==> |Strip(g)| > MinNameLength
    ensures WellFormed(Party(Strip(g), role))
  {
    StripIsStripped(g);
  }

  /** Every match keeps every candidate well formed. */
  lemma {:induction false} AddMatchesWellFormed(ps: seq<Party>, between: bool, ms: seq<Match>, engine: Engine, text: string)
    requires forall p :: p in ps ==> WellFormed(p)
    ensures forall p :: p in AddMatches(ps, between, ms, engine, text) ==> WellFormed(p)
  {
    if ms != [] {
      AddMatchesWellFormed(ps, between, ms[..|ms| - 1], engine, text);
      AddMatchWellFormed(AddMatches(ps, between, ms[..|ms| - 1], engine, text), between, ms[|ms| - 1], engine, text);
    }
  }

  /** Every candidate is well formed. */
  lemma {:induction false} CandidatesWellFormed(engine: Engine, text: string, k: nat)
    requires k <= |PartyPatterns|
    ensures forall p :: p in CandidatesUpTo(engine, text, k) ==> WellFormed(p)
  {
    if k > 0 {
      CandidatesWellFormed(engine, text, k - 1);
      AddMatchesWellFormed(CandidatesUpTo(engine, text, k - 1), k - 1 == 0,
                           engine(PartyPatterns[k - 1], Take(text, SearchLimit)), engine, text);
    }
  }

  /** The pairs of all matches, in match order. */
  function Pairs(ms: seq<Match>): seq<Party>
  {
    FlatMap(PairOf, ms)
  }

  /** Every "between" match appends its pair, and nothing is skipped or merged. */
  lemma {:induction false} BetweenAddsPairs(ps: seq<Party>, ms: seq<Match>, engine: Engine, text: string)
    ensures AddMatches(ps, true, ms, engine, text) == ps + Pairs(ms)
  {
    if ms != [] {
      var init := ms[..|ms| - 1];
      BetweenAddsPairs(ps, init, engine, text);
      AppendAssoc(ps, Pairs(init), PairOf(ms[|ms| - 1]));
    }
  }

  /** When every list has two entries, entries `2j` and `2j + 1` of the concatenation are those of `ms[j]`. */
  lemma {:induction false} FlatMapPairsAt(f: Match -> seq<Party>, ms: seq<Match>)
    requires forall m :: |f(m)| == 2
    ensures |FlatMap(f, ms)| == 2 * |ms|
    ensures forall j :: 0 <= j < |ms| ==> FlatMap(f, ms)[2 * j] == f(ms[j])[0] && FlatMap(f, ms)[2 * j + 1] == f(ms[j])[1]
  {
    if ms != [] {
      var init, last := ms[..|ms| - 1], ms[|ms| - 1];
      FlatMapPairsAt(f, init);
      var prev := FlatMap(f, init);
      var r := FlatMap(f, ms);
      forall j | 0 <= j < |ms| ensures r[2 * j] == f(ms[j])[0] && r[2 * j + 1] == f(ms[j])[1] {
        if j < |init| {
          assert r[2 * j] == prev[2 * j] && r[2 * j + 1] == prev[2 * j + 1];
          assert init[j] == ms[j];
        } else {
          assert r[2 * j] == r[|prev|] == f(last)[0];
          assert r[2 * j + 1] == r[|prev| + 1] == f(last)[1];
        }
      }
    }
  }

  /** Entry `2j` of the pairs is match `j`'s "Party 1", entry `2j + 1` its "Party 2". */
  lemma PairsAt(ms: seq<Match>)
    ensures |Pairs(ms)| == 2 * |ms|
    ensures forall j :: 0 <= j < |ms| ==>
      Pairs(ms)[2 * j] == Party(Strip(Capture(ms[j], 1)), FirstParty)
      && Pairs(ms)[2 * j + 1] == Party(Strip(Capture(ms[j], 2)), SecondParty)
  {
    FlatMapPairsAt(PairOf, ms);
  }

  /** Candidates from other patterns are never a name already listed. */
  lemma OtherMatchIsNew(ps: seq<Party>, m: Match, engine: Engine, text: string)
    ensures |AddMatch(ps, false, m, engine, text)| > |ps| ==>
      var name := Strip(Capture(m, 1));
      |name| > MinNameLength && name !in Names(ps)
      && AddMatch(ps, false, m, engine, text) == ps + [Party(name, Role(engine, name, text))]
  {
  }

  // ---------------------------------------------------------------- the result

  /** At most five parties, no name twice, each well formed. */
  lemma IdentifiedPartiesShape(engine: Engine, text: string)
    ensures |IdentifiedParties(engine, text)| <= MaxParties
    ensures DistinctNames(IdentifiedParties(engine, text))
    ensures forall p :: p in IdentifiedParties(engine, text) ==> WellFormed(p)
    ensures forall p :: p in IdentifiedParties(engine, text) ==> p in Candidates(engine, text)
  {
    var c := Candidates(engine, text);
    CandidatesWellFormed(engine, text, |PartyPatterns|);
    UniqueDistinct(c);
    UniqueIsFirstOccurrences(c);
    FirstOccurrencesFrom(c);
    var r := IdentifiedParties(engine, text);
    assert r == Unique(c)[..|r|];
  }

  /** First occurrences are entries of the list. */
  lemma {:induction false} FirstOccurrencesFrom(ps: seq<Party>)
    ensures forall p :: p in FirstOccurrences(ps) ==> p in ps
  {
    if ps != [] {
      FirstOccurrencesFrom(ps[..|ps| - 1]);
      assert forall p :: p in ps[..|ps| - 1] ==> p in ps;
    }
  }

  /** The matches of a pattern on two texts with the same search window, added to the same list. */
  lemma {:induction false} AddMatchesWindowOnly(ps: seq<Party>, between: bool, ms: seq<Match>, engine: Engine, t1: string, t2: string)
    requires Take(t1, SearchLimit) == Take(t2, SearchLimit)
    ensures AddMatches(ps, between, ms, engine, t1) == AddMatches(ps, between, ms, engine, t2)
  {
    if ms != [] {
      AddMatchesWindowOnly(ps, between, ms[..|ms| - 1], engine, t1, t2);
      assert Take(t1, RoleLimit) == Take(t2, RoleLimit) by {
        assert Take(t1, RoleLimit) == Take(t1, SearchLimit)[..|Take(t1, RoleLimit)|];
      }
      RoleWindowOnly(engine, Strip(Capture(ms[|ms| - 1], 1)), t1, t2);
    }
  }

  /** Only the first 2000 characters matter: texts that agree on them give the same parties. */
  lemma {:induction false} CandidatesWindowOnly(engine: Engine, t1: string, t2: string, k: nat)
    requires k <= |PartyPatterns|
    requires Take(t1, SearchLimit) == Take(t2, SearchLimit)
    ensures CandidatesUpTo(engine, t1, k) == CandidatesUpTo(engine, t2, k)
  {
    if k > 0 {
      CandidatesWindowOnly(engine, t1, t2, k - 1);
      AddMatchesWindowOnly(CandidatesUpTo(engine, t1, k - 1), k - 1 == 0,
                           engine(PartyPatterns[k - 1], Take(t1, SearchLimit)), engine, t1, t2);
    }
  }

  /** Texts that agree on their first 2000 characters have the same parties. */
  lemma SearchWindowOnly(engine: Engine, t1: string, t2: string)
    requires Take(t1, SearchLimit) == Take(t2, SearchLimit)
    ensures IdentifiedParties(engine, t1) == IdentifiedParties(engine, t2)
  {
    CandidatesWindowOnly(engine, t1, t2, |PartyPatterns|);
  }
}
