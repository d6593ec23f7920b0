/** Values produced by Python's `json.load`. */
module Json {
  import opened Wrappers
  import opened PyDict

  datatype Json =
    | JNull
    | JBool(b: bool)
    | JInt(i: int)
    | JFloat(f: real)
    | JStr(s: string)
    | JList(items: seq<Json>)
    | JObj(obj: Dict<string, Json>)

  /** Python truthiness of a JSON value. */
  predicate Truthy(j: Json) {
    match j
    case JNull => false
    case JBool(b) => b
    case JInt(i) => i != 0
    case JFloat(f) => f != 0.0
    case JStr(s) => s != ""
    case JList(items) => items != []
    case JObj(obj) => obj.vals != map[]
  }

  /** `obj.get(key)`. */
  function Field(obj: Dict<string, Json>, key: string): Option<Json> {
    Get(obj, key)
  }
}
