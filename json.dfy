/** Decoded JSON values, as Python's `json` module hands them to the webhook. */
module Json {
  import opened Wrappers

  /** Numbers are integers: Telegram's ids and sizes are; floats are not modelled. */
  datatype Json =
    | JNull
    | JBool(b: bool)
    | JNum(n: int)
    | JStr(s: string)
    | JArr(items: seq<Json>)
    | JObj(fields: map<string, Json>)

  /** Python truthiness: `None`, `False`, `0`, `""`, `[]` and `{}` are false. */
  predicate Truthy(j: Json) {
    match j
    case JNull => false
    case JBool(b) => b
    case JNum(n) => n != 0
    case JStr(s) => s != ""
    case JArr(items) => items != []
    case JObj(fields) => fields != map[]
  }

  /** `d.get(key, default)` on a dict. */
  function Get(fields: map<string, Json>, key: string, default: Json): (r: Json)
    ensures key in fields ==> r == fields[key]
    ensures key !in fields ==> r == default
  {
    if key in fields then fields[key] else default
  }

  /** `j[key]` with a string key: `None` stands for the KeyError or TypeError Python raises
      when `j` is not a dict or has no such key. */
  function Subscript(j: Json, key: string): (r: Option<Json>)
    ensures r.Some? <==> j.JObj? && key in j.fields
    ensures r.Some? ==> r.value == j.fields[key]
  {
    if j.JObj? && key in j.fields then Some(j.fields[key]) else None
  }

  /** Python's `a or b`. */
  function Or(a: Json, b: Json): (r: Json)
    ensures Truthy(a) ==> r == a
    ensures !Truthy(a) ==> r == b
  {
    if Truthy(a) then a else b
  }

  /** A Python `Optional[str]` as a JSON-like value (`None` becomes null). */
  function FromText(o: Option<string>): (r: Json)
    ensures o.None? <==> r == JNull
    ensures o.Some? ==> r == JStr(o.value)
  {
    if o.Some? then JStr(o.value) else JNull
  }
}
