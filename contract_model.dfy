/**
 * Contracts (lexguard/models/contract.py) and the store the routes load them from. The store is a
 * map from contract id to contract; reading and writing it as files is not part of this model.
 */
module ContractModel {
  import opened Wrappers
  import opened ClauseModel

  /**
   * A contract and its clauses. The clauses are objects the routes update in place. The upload
   * time is kept as the text the routes and the summary print, since date arithmetic is not
   * modelled.
   */
  datatype Contract = Contract(
    id: string,
    title: string,
    uploadedAt: string,
    originalFilename: string,
    text: string,
    clauses: seq<Clause>)

  /** Saved contracts by id. */
  type Store = map<string, Contract>

  /** `load_contract(contract_id)`: None for an unknown id. */
  function Load(store: Store, id: string): (r: Option<Contract>)
    ensures r.Some? <==> id in store
    ensures r.Some? ==> r.value == store[id]
  {
    if id in store then Some(store[id]) else None
  }

  /**
   * `load_contract(contract_id)` as a fresh read of the saved data: the contract comes back with
   * new clause objects holding the saved field values, so changing them leaves the store as it is.
   */
  method LoadCopy(store: Store, id: string) returns (r: Option<Contract>)
    ensures r.Some? <==> id in store
    ensures r.Some? ==>
      var saved := store[id];
      && r.value == saved.(clauses := r.value.clauses)
      && States(r.value.clauses) == States(saved.clauses)
      && Separate(r.value.clauses)
      && forall k :: 0 <= k < |r.value.clauses| ==> fresh(r.value.clauses[k])
  {
    if id !in store {
      return None;
    }
    var saved := store[id];
    var copies: seq<Clause> := [];
    for i := 0 to |saved.clauses|
      invariant |copies| == i
      invariant forall k :: 0 <= k < i ==> fresh(copies[k]) && copies[k].State() == saved.clauses[k].State()
      invariant Separate(copies)
    {
      var c := new Clause.FromState(saved.clauses[i].State());
      copies := copies + [c];
    }
    r := Some(saved.(clauses := copies));
  }
}
