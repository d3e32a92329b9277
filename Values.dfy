/** Parsed JSON/YAML values as the Python scripts see them after `json.load`
    or `yaml.safe_load`, with the two pieces of Python semantics the scripts
    lean on: truthiness and `dict.get` with a default. */
module Values {

  datatype Option<+T> = None | Some(value: T)

  /** A decoded document. Numbers are integers: the scripts never look at
      fractional values, only at their truthiness. */
  datatype Json =
    | JNull
    | JBool(b: bool)
    | JNum(n: int)
    | JStr(s: string)
    | JArr(items: seq<Json>)
    | JObj(fields: map<string, Json>)

  /** Python's `bool(v)`: None, False, 0 and empty containers are false. */
  predicate Truthy(v: Json) {
    match v
    case JNull => false
    case JBool(b) => b
    case JNum(n) => n != 0
    case JStr(s) => s != []
    case JArr(items) => items != []
    case JObj(fields) => fields != map[]
  }

  /** `d.get(key, default)`. */
  function GetOr(d: map<string, Json>, key: string, default: Json): (r: Json)
    ensures key in d ==> r == d[key]
    ensures key !in d ==> r == default
  {
    if key in d then d[key] else default
  }

  /** `d.get(key)`: a missing key reads as None. */
  function Get(d: map<string, Json>, key: string): Json {
    GetOr(d, key, JNull)
  }

  /** The strings `ts` as a JSON list. */
  function StrList(ts: seq<string>): (r: Json)
    ensures r.JArr? && |r.items| == |ts|
    ensures forall i :: 0 <= i < |ts| ==> r.items[i] == JStr(ts[i])
  {
    JArr(seq(|ts|, i requires 0 <= i < |ts| => JStr(ts[i])))
  }
}
