/** Decoded JSON values, as `json.loads` yields them to the handlers. */
module JsonValue {

  datatype Json =
    | JNull
    | JBool(b: bool)
    | JNum(n: real)
    | JStr(s: string)
    | JArr(items: seq<Json>)
    | JObj(fields: map<string, Json>)

  /** Python truthiness of a decoded value (`if value:`). */
  predicate Truthy(j: Json)
  {
    match j
    case JNull => false
    case JBool(b) => b
    case JNum(n) => n != 0.0
    case JStr(s) => s != ""
    case JArr(xs) => xs != []
    case JObj(m) => m != map[]
  }

  /** `d.get(key)`: the stored value, or `None` (here `JNull`) when the key is absent. */
  function Get(fields: map<string, Json>, key: string): Json
  {
    if key in fields then fields[key] else JNull
  }
}
