/**
 * The JavaScript values that `JSON.parse` produces, and the property reads the
 * services perform on them. `JSON.parse` itself is not modelled: callers pass
 * a parser oracle of type `string -> Option<Json>` (None = a SyntaxError).
 */
module Json {
  import opened Wrappers

  /** A parsed JSON value. Numbers are kept as integers: only their truthiness is
      ever inspected. An object keeps its members in insertion order, which is the
      order `Object.values` reports for the non-numeric keys used here. */
  datatype Json =
    | JNull
    | JBool(b: bool)
    | JNum(n: int)
    | JStr(s: string)
    | JArr(items: seq<Json>)
    | JObj(fields: seq<(string, Json)>)

  /** The parser oracle standing in for `JSON.parse`. */
  type Parser = string -> Option<Json>

  /** The value stored under `key` (objects produced by `JSON.parse` have distinct keys,
      so the first entry is the only one). */
  function Lookup(fields: seq<(string, Json)>, key: string): (r: Option<Json>)
    ensures r.None? <==> forall i :: 0 <= i < |fields| ==> fields[i].0 != key
    ensures r.Some? ==> exists i :: 0 <= i < |fields| && fields[i] == (key, r.value)
    ensures forall i :: 0 <= i < |fields| && fields[i].0 == key && FirstWithKey(fields, key, i) ==>
      r == Some(fields[i].1)
  {
    if |fields| == 0 then None
    else if fields[0].0 == key then Some(fields[0].1)
    else
      var r := Lookup(fields[1..], key);
      assert r.Some? ==> exists i :: 0 <= i < |fields[1..]| && fields[1..][i] == (key, r.value);
      assert forall i :: 1 <= i < |fields| && FirstWithKey(fields, key, i) ==> FirstWithKey(fields[1..], key, i - 1);
      r
  }

  /** No entry before position `i` has the key `key`. */
  predicate FirstWithKey(fields: seq<(string, Json)>, key: string, i: int) {
    forall j :: 0 <= j < i && j < |fields| ==> fields[j].0 != key
  }

  /** `v[key]`: an object answers with its member, every other value with undefined
      (None). On null the source throws a TypeError instead; the callers make that
      throw visible themselves (`ExploreOf` and `OptionValues` test for `JNull`, and a
      missing field ends `Text` and `TopicOf` in a failure and `Absorb` in a kept view). */
  function Get(v: Json, key: string): (r: Option<Json>)
    ensures v.JObj? ==> r == Lookup(v.fields, key)
    ensures !v.JObj? ==> r.None?
  {
    match v
    case JObj(fields) => Lookup(fields, key)
    case _ => None
  }

  /** JavaScript truthiness of a possibly undefined value. */
  predicate Truthy(v: Option<Json>) {
    match v
    case None => false
    case Some(JNull) => false
    case Some(JBool(b)) => b
    case Some(JNum(n)) => n != 0
    case Some(JStr(s)) => s != ""
    case Some(JArr(_)) => true
    case Some(JObj(_)) => true
  }
}
