/** Clauses and their closed set of types (lexguard/models/clause.py). */
module ClauseModel {
  import opened Wrappers
  import opened RiskModel

  /** The clause types, in declaration order. */
  datatype ClauseType = Termination | Liability | Payment | Confidentiality | Ip | NonCompete | Misc | Unsure

  /** The string value each type is stored as. */
  function Value(t: ClauseType): string
  {
    match t
    case Termination => "termination"
    case Liability => "liability"
    case Payment => "payment"
    case Confidentiality => "confidentiality"
    case Ip => "ip"
    case NonCompete => "non_compete"
    case Misc => "misc"
    case Unsure => "unsure"
  }

  /** Iterating the enum yields this sequence. */
  const AllTypes: seq<ClauseType> :=
    [Termination, Liability, Payment, Confidentiality, Ip, NonCompete, Misc, Unsure]

  /** Position of a type in declaration order. */
  function Index(t: ClauseType): (i: nat)
    ensures i < |AllTypes| && AllTypes[i] == t
  {
    match t
    case Termination => 0
    case Liability => 1
    case Payment => 2
    case Confidentiality => 3
    case Ip => 4
    case NonCompete => 5
    case Misc => 6
    case Unsure => 7
  }

  /** `ClauseType(s)`: the member whose value is `s`, None where Python raises ValueError. */
  function FromValue(s: string): (r: Option<ClauseType>)
    ensures r.Some? ==> Value(r.value) == s
  {
    if s == "termination" then Some(Termination)
    else if s == "liability" then Some(Liability)
    else if s == "payment" then Some(Payment)
    else if s == "confidentiality" then Some(Confidentiality)
    else if s == "ip" then Some(Ip)
    else if s == "non_compete" then Some(NonCompete)
    else if s == "misc" then Some(Misc)
    else if s == "unsure" then Some(Unsure)
    else None
  }

  /** The enum has exactly eight members, listed once each, in declaration order. */
  lemma AllTypesInDeclarationOrder()
    ensures |AllTypes| == 8
    ensures forall i, j :: 0 <= i < j < |AllTypes| ==> AllTypes[i] != AllTypes[j]
    ensures forall t: ClauseType :: t in AllTypes
    ensures forall i :: 0 <= i < |AllTypes| ==> Index(AllTypes[i]) == i
  {
    forall t: ClauseType ensures t in AllTypes {
      assert AllTypes[Index(t)] == t;
    }
  }

  /**
   * With `use_enum_values` a clause stores the value string, so comparing the stored string with
   * a member and comparing the member itself agree, in both directions.
   */
  lemma StoredValueComparisonAgrees(t: ClauseType, s: string)
    ensures Value(t) == s <==> FromValue(s) == Some(t)
  {
  }

  /** Different members have different values. */
  lemma ValueInjective(t: ClauseType, u: ClauseType)
    ensures Value(t) == Value(u) <==> t == u
  {
    StoredValueComparisonAgrees(u, Value(t));
  }

  /** The field values of a clause at one moment. */
  datatype ClauseState = ClauseState(
    id: string,
    contractId: string,
    index: int,
    text: string,
    clauseType: ClauseType,
    startChar: Option<int>,
    endChar: Option<int>,
    riskScore: Option<int>,
    riskLevel: Option<RiskLevel>,
    embeddingId: Option<string>)

  /** The field values of each clause of a list, in order. */
  function States(cs: seq<Clause>): (r: seq<ClauseState>)
    reads set c | c in cs
    ensures |r| == |cs|
    ensures forall k :: 0 <= k < |cs| ==> r[k] == cs[k].State()
  {
    if cs == [] then [] else States(cs[..|cs| - 1]) + [cs[|cs| - 1].State()]
  }

  /** The states of a list grown by one clause. */
  lemma StatesSnoc(cs: seq<Clause>, c: Clause)
    ensures States(cs + [c]) == States(cs) + [c.State()]
  {
    assert (cs + [c])[..|cs|] == cs;
  }

  /** The clauses of a list are different objects, as they are when a contract is loaded. */
  predicate Separate(cs: seq<Clause>)
  {
    forall j, k :: 0 <= j < k < |cs| ==> cs[j] != cs[k]
  }

  /** A clause of a contract. Risk fields are set in place by the scorer and the routes. */
  class Clause {
    var id: string
    var contractId: string
    var index: int
    var text: string
    var clauseType: ClauseType
    var startChar: Option<int>
    var endChar: Option<int>
    /** The risk score in hundredths, None until scored. */
    var riskScore: Option<int>
    var riskLevel: Option<RiskLevel>
    var embeddingId: Option<string>

    /** The field constraints validated on construction: a present score lies in [0, 1]. */
    ghost predicate Valid()
      reads this
    {
      riskScore.Some? ==> 0 <= riskScore.value <= 100
    }

    /** The current field values. */
    function State(): ClauseState
      reads this
    {
      ClauseState(id, contractId, index, text, clauseType, startChar, endChar, riskScore, riskLevel, embeddingId)
    }

    /** `Clause(id=..., contract_id=..., index=..., text=..., clause_type=...)`. */
    constructor (id: string, contractId: string, index: int, text: string, clauseType: ClauseType)
      ensures Valid()
      ensures this.id == id && this.contractId == contractId && this.index == index
      ensures this.text == text && this.clauseType == clauseType
      ensures riskScore == None && riskLevel == None
      ensures startChar == None && endChar == None && embeddingId == None
    {
      this.id := id;
      this.contractId := contractId;
      this.index := index;
      this.text := text;
      this.clauseType := clauseType;
      startChar, endChar := None, None;
      riskScore, riskLevel := None, None;
      embeddingId := None;
    }

    /** A clause rebuilt from saved field values, as loading a stored contract does. */
    constructor FromState(s: ClauseState)
      ensures State() == s
    {
      id, contractId, index, text, clauseType := s.id, s.contractId, s.index, s.text, s.clauseType;
      startChar, endChar := s.startChar, s.endChar;
      riskScore, riskLevel := s.riskScore, s.riskLevel;
      embeddingId := s.embeddingId;
    }

    /** A clause built without a type gets UNSURE. */
    constructor Untyped(id: string, contractId: string, index: int, text: string)
      ensures Valid()
      ensures this.id == id && this.contractId == contractId && this.index == index && this.text == text
      ensures clauseType == Unsure
      ensures riskScore == None && riskLevel == None
    {
      this.id := id;
      this.contractId := contractId;
      this.index := index;
      this.text := text;
      clauseType := Unsure;
      startChar, endChar := None, None;
      riskScore, riskLevel := None, None;
      embeddingId := None;
    }
  }
}
