/** The JSON-like values that Python dictionaries, lists and scalars form when
    MetaScript serialises a tree or exchanges a message with an agent.
    Object fields keep their insertion order, as Python dictionaries do. */
module Json {
  import opened Wrappers

  datatype Json =
    | JNull
    | JBool(b: bool)
    | JInt(i: int)
    | JStr(s: string)
    | JList(items: seq<Json>)
    | JObject(fields: seq<(string, Json)>)

  /** `d.get(key)` on a dictionary: the value of the first field named `key`. */
  function Get(j: Json, key: string): (r: Option<Json>)
    ensures r.Some? ==> j.JObject? && exists k :: 0 <= k < |j.fields| && j.fields[k] == (key, r.value)
    ensures r.None? && j.JObject? ==> forall k :: 0 <= k < |j.fields| ==> j.fields[k].0 != key
  {
    if !j.JObject? then None else Lookup(j.fields, key)
  }

  function Lookup(fields: seq<(string, Json)>, key: string): (r: Option<Json>)
    ensures r.Some? ==> exists k :: 0 <= k < |fields| && fields[k] == (key, r.value)
    ensures r.None? ==> forall k :: 0 <= k < |fields| ==> fields[k].0 != key
  {
    if fields == [] then None
    else if fields[0].0 == key then Some(fields[0].1)
    else
      var r := Lookup(fields[1..], key);
      assert r.Some? ==> fields[1..][0] in fields;
      r
  }

  /** The second of two fields is found under its own key when the first key differs. */
  lemma SecondField(k1: string, v1: Json, k2: string, v2: Json)
    requires k1 != k2
    ensures Get(JObject([(k1, v1), (k2, v2)]), k2) == Some(v2)
  {
    var fs := [(k1, v1), (k2, v2)];
    assert fs[1..] == [(k2, v2)];
    assert Lookup(fs[1..], k2) == Some(v2);
  }

  /** `d.get(key, default)`. */
  function GetOr(j: Json, key: string, default: Json): (r: Json)
    ensures Get(j, key).None? ==> r == default
    ensures Get(j, key).Some? ==> r == Get(j, key).value
  {
    match Get(j, key)
    case Some(v) => v
    case None => default
  }

  /** Python truthiness: `None`, `False`, `0`, `""`, `[]` and `{}` are false. */
  predicate Truthy(j: Json) {
    match j
    case JNull => false
    case JBool(b) => b
    case JInt(i) => i != 0
    case JStr(s) => s != []
    case JList(l) => l != []
    case JObject(f) => f != []
  }

  /** `a or b` where a missing value (`None`) is false. */
  function Or(a: Option<Json>, b: Option<Json>): (r: Option<Json>)
    ensures a.Some? && Truthy(a.value) ==> r == a
    ensures (a.None? || !Truthy(a.value)) ==> r == b
  {
    if a.Some? && Truthy(a.value) then a else b
  }
}
