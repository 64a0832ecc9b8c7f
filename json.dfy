/**
 * The loosely typed values that Python's `json` module hands to the game:
 * dictionaries are objects keyed by strings, lists keep their order.
 */
module Json {

  datatype Value =
    | Null
    | Bool(b: bool)
    | Int(i: int)
    | Float(x: real)
    | Str(s: string)
    | List(items: seq<Value>)
    | Object(fields: map<string, Value>)

  /** Python's `isinstance(v, int)`, which also holds for `True` and `False`. */
  predicate IsInt(v: Value) {
    v.Int? || v.Bool?
  }

  /** The integer Python sees in an int-like value (`True == 1`, `False == 0`). */
  function AsInt(v: Value): int
    requires IsInt(v)
  {
    if v.Int? then v.i else if v.b then 1 else 0
  }

  predicate AllStrings(vs: seq<Value>) {
    forall k :: 0 <= k < |vs| ==> vs[k].Str?
  }

  /** A JSON list whose every element is a string. */
  predicate IsStringList(v: Value) {
    v.List? && AllStrings(v.items)
  }

  /** The strings inside a list of string values, in order. */
  function Strings(vs: seq<Value>): (r: seq<string>)
    requires AllStrings(vs)
    ensures |r| == |vs|
    ensures forall k :: 0 <= k < |vs| ==> r[k] == vs[k].s
  {
    if vs == [] then [] else [vs[0].s] + Strings(vs[1..])
  }

  /** A list of strings as JSON string values, in order. */
  function StringValues(ss: seq<string>): (r: seq<Value>)
    ensures |r| == |ss| && AllStrings(r)
    ensures forall k :: 0 <= k < |ss| ==> r[k] == Str(ss[k])
  {
    if ss == [] then [] else [Str(ss[0])] + StringValues(ss[1..])
  }

  lemma StringsOfStringValues(ss: seq<string>)
    ensures Strings(StringValues(ss)) == ss
  {
  }

  /** `d.get(key, default)` for a key whose value, when present, is a string. */
  function GetStr(d: map<string, Value>, key: string, default: string): string
    requires key in d ==> d[key].Str?
  {
    if key in d then d[key].s else default
  }
}
