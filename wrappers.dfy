/** Optional values and the JSON values that the LLM clients hand back after `json.loads`. */
module Wrappers {

  datatype Option<+T> = None | Some(value: T)

  /** The values of a list of options, or None as soon as one of them is None. */
  function AllSome<T>(xs: seq<Option<T>>): (r: Option<seq<T>>)
    ensures r.Some? <==> forall k :: 0 <= k < |xs| ==> xs[k].Some?
    ensures r.Some? ==> |r.value| == |xs| && forall k :: 0 <= k < |xs| ==> r.value[k] == xs[k].value
  {
    if xs == [] then Some([])
    else
      match AllSome(xs[..|xs| - 1])
      case None => None
      case Some(vs) => if xs[|xs| - 1].Some? then Some(vs + [xs[|xs| - 1].value]) else None
  }

  /** Values all present, in order, are collected as they are. */
  lemma AllSomeOfSomes<T>(xs: seq<Option<T>>, vs: seq<T>)
    requires |vs| == |xs| && forall k :: 0 <= k < |xs| ==> xs[k] == Some(vs[k])
    ensures AllSome(xs) == Some(vs)
  {
    assert AllSome(xs).value == vs;
  }

  /** One more value. */
  lemma AllSomeSnoc<T>(xs: seq<Option<T>>, v: T)
    requires AllSome(xs).Some?
    ensures AllSome(xs + [Some(v)]) == Some(AllSome(xs).value + [v])
  {
    assert (xs + [Some(v)])[..|xs|] == xs;
  }

  /** A decoded JSON value. Objects keep their (key, value) pairs in document order. */
  datatype Json =
    | JNull
    | JBool(b: bool)
    | JNumber(n: int)
    | JString(str: string)
    | JArray(items: seq<Json>)
    | JObject(fields: seq<(string, Json)>)

  /** `key in d` for a decoded object. */
  predicate HasKey(fields: seq<(string, Json)>, key: string)
  {
    exists i :: 0 <= i < |fields| && fields[i].0 == key
  }

  /** `d[key]`: `json.loads` keeps the last binding of a repeated key. */
  function Lookup(fields: seq<(string, Json)>, key: string): (v: Json)
    requires HasKey(fields, key)
    ensures exists i :: 0 <= i < |fields| && fields[i] == (key, v)
  {
    var last := fields[|fields| - 1];
    if last.0 == key then last.1
    else
      assert HasKey(fields[..|fields| - 1], key) by {
        var i :| 0 <= i < |fields| && fields[i].0 == key;
        assert i < |fields| - 1 && fields[..|fields| - 1][i] == fields[i];
      }
      var v := Lookup(fields[..|fields| - 1], key);
      ghost var i :| 0 <= i < |fields| - 1 && fields[..|fields| - 1][i] == (key, v);
      assert fields[i] == (key, v);
      v
  }

  /** The distinct keys of a decoded object, in the order a Python dict iterates them. */
  function Keys(fields: seq<(string, Json)>): (ks: seq<string>)
    ensures forall k :: k in ks <==> HasKey(fields, k)
  {
    if fields == [] then []
    else
      var ks := Keys(fields[..|fields| - 1]);
      var k := fields[|fields| - 1].0;
      assert forall j :: HasKey(fields, j) <==> HasKey(fields[..|fields| - 1], j) || j == k by {
        forall j ensures HasKey(fields, j) ==> HasKey(fields[..|fields| - 1], j) || j == k {
          if HasKey(fields, j) && j != k {
            var i :| 0 <= i < |fields| && fields[i].0 == j;
            assert i < |fields| - 1 && fields[..|fields| - 1][i] == fields[i];
          }
        }
        forall j ensures HasKey(fields[..|fields| - 1], j) ==> HasKey(fields, j) {
          if HasKey(fields[..|fields| - 1], j) {
            var i :| 0 <= i < |fields| - 1 && fields[..|fields| - 1][i].0 == j;
            assert fields[i].0 == j;
          }
        }
        assert fields[|fields| - 1].0 == k;
      }
      if k in ks then ks else ks + [k]
  }
}
