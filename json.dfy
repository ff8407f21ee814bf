/** JSON values as the adapter sees them once a body has been parsed, with the
    two pieces of Python semantics the adapter leans on: `dict.get` with a
    default and the truth value of a value (`if x`, `x or y`). Python's `None`
    and JSON `null` are the same value, so `JNull` stands for both. */
module Json {

  datatype Json =
    | JNull
    | JBool(b: bool)
    | JInt(i: int)
    | JString(s: string)
    | JArray(items: seq<Json>)
    | JObject(fields: map<string, Json>)

  /** Python's `bool(v)`: null, false, 0, "", [] and {} are falsy, everything else truthy. */
  predicate Truthy(v: Json) {
    match v
    case JNull => false
    case JBool(b) => b
    case JInt(i) => i != 0
    case JString(s) => s != ""
    case JArray(items) => items != []
    case JObject(fields) => fields != map[]
  }

  /** Python's `d.get(k, default)` on a dictionary. */
  function Get(d: map<string, Json>, k: string, default: Json): (v: Json)
    ensures k in d ==> v == d[k]
    ensures k !in d ==> v == default
  {
    if k in d then d[k] else default
  }

  /** Follows a path of object keys from `v`; None when a step is not an object
      or lacks the key. Used to state where a value sits in a built body. */
  function Lookup(v: Json, path: seq<string>): Option<Json>
  {
    if path == [] then Some(v)
    else match v
      case JObject(fields) =>
        if path[0] in fields then Lookup(fields[path[0]], path[1..]) else None
      case _ => None
  }

  datatype Option<+T> = None | Some(value: T)

  /** The only values that `if v` rejects are the six empty or zero ones. */
  lemma FalsyValues(v: Json)
    ensures !Truthy(v) <==>
      v == JNull || v == JBool(false) || v == JInt(0) || v == JString("")
      || v == JArray([]) || v == JObject(map[])
  {
    match v
    case JObject(fields) =>
      if fields != map[] {
        assert v != JObject(map[]);
      }
    case _ =>
  }
}
