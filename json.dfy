/** The JSON values that `json.loads` produces, and the two Python operations the
    orchestrator applies to them: truthiness (`if parsed:`) and `dict.get`. */
module JsonValue {

  /** A decoded JSON document. Numbers are integers in this model. */
  datatype Json =
    | Null
    | Bool(b: bool)
    | Number(n: int)
    | Str(s: string)
    | Array(items: seq<Json>)
    | Object(fields: map<string, Json>)

  /** Python's truth value of the decoded object: `None`, `False`, `0`, `""`,
      `[]` and `{}` are false, everything else is true. */
  predicate Truthy(j: Json)
  {
    match j
    case Null => false
    case Bool(b) => b
    case Number(n) => n != 0
    case Str(s) => s != []
    case Array(items) => items != []
    case Object(fields) => fields != map[]
  }

  /** `fields.get(key, default)` on a decoded object. */
  function GetOr(fields: map<string, Json>, key: string, default: Json): Json
  {
    if key in fields then fields[key] else default
  }
}
