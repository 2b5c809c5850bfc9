/** Decoded JSON values as the service sees them after `res.json()`.
    An object keeps its entries in insertion order, as a Python dict does. */
module JsonValue {

  datatype Option<+T> = None | Some(value: T) {
    /** The value if present, otherwise `default`. */
    function ValueOr(default: T): T {
      match this
      case Some(v) => v
      case None => default
    }
  }

  datatype Json =
    | Null
    | Bool(b: bool)
    | Num(r: real)
    | Str(s: string)
    | Arr(items: seq<Json>)
    | Obj(fields: seq<(string, Json)>)

  /** Python's truth value of a decoded JSON value (`bool(v)`). */
  predicate Truthy(j: Json) {
    match j
    case Null => false
    case Bool(b) => b
    case Num(r) => r != 0.0
    case Str(s) => s != ""
    case Arr(items) => items != []
    case Obj(fields) => fields != []
  }

  /** The keys of an object in insertion order (`list(d.keys())`). */
  function Keys(fields: seq<(string, Json)>): (ks: seq<string>)
    ensures |ks| == |fields|
    ensures forall i :: 0 <= i < |fields| ==> ks[i] == fields[i].0
  {
    seq(|fields|, i requires 0 <= i < |fields| => fields[i].0)
  }

  /** A Python dict never holds a key twice. */
  predicate UniqueKeys(fields: seq<(string, Json)>) {
    forall i, j :: 0 <= i < j < |fields| ==> fields[i].0 != fields[j].0
  }

  /** The entry stored under `key`, if any. */
  function Lookup(fields: seq<(string, Json)>, key: string): (r: Option<Json>)
    ensures r.Some? ==> (key, r.value) in fields
    ensures r.None? ==> forall i :: 0 <= i < |fields| ==> fields[i].0 != key
  {
    if fields == [] then None
    else if fields[0].0 == key then Some(fields[0].1)
    else Lookup(fields[1..], key)
  }

  /** In a dict, the lookup of a stored key yields exactly the value stored with it. */
  lemma {:induction false} LookupAt(fields: seq<(string, Json)>, i: nat)
    requires UniqueKeys(fields) && i < |fields|
    ensures Lookup(fields, fields[i].0) == Some(fields[i].1)
  {
    if i > 0 {
      assert fields[0].0 != fields[i].0;
      assert fields[1..][i - 1] == fields[i];
      LookupAt(fields[1..], i - 1);
    }
  }

  /** `v` is what `fields` stores under `key`, or `default` when the key is absent. */
  ghost predicate StoredOr(fields: seq<(string, Json)>, key: string, default: Json, v: Json) {
    || (exists i :: 0 <= i < |fields| && fields[i] == (key, v))
    || (v == default && forall i :: 0 <= i < |fields| ==> fields[i].0 != key)
  }

  /** `d.get(key)` without a default, as an optional value; a non-object has no entries. */
  function Get(j: Json, key: string): (r: Option<Json>)
    ensures r.Some? ==> j.Obj? && (key, r.value) in j.fields
    ensures r.None? ==> !j.Obj? || forall i :: 0 <= i < |j.fields| ==> j.fields[i].0 != key
  {
    match j
    case Obj(fields) => Lookup(fields, key)
    case _ => None
  }

  /** `d.get(key, default)`. */
  function GetOr(j: Json, key: string, default: Json): (r: Json)
    ensures j.Obj? ==> StoredOr(j.fields, key, default, r)
    ensures j.Obj? && (exists i :: 0 <= i < |j.fields| && j.fields[i].0 == key) ==> (key, r) in j.fields
    ensures !j.Obj? ==> r == default
  {
    Get(j, key).ValueOr(default)
  }

  /** Python's slice `s[:n]`: the first `n` elements, or all of them when there are fewer. */
  function Take<T>(s: seq<T>, n: nat): (r: seq<T>)
    ensures |r| == if |s| <= n then |s| else n
    ensures r <= s
  {
    if |s| <= n then s else s[..n]
  }
}
