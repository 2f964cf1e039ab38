/** Dynamically typed values as they arrive in JSON request bodies and documents. */
module Values {
  import opened Wrappers
  import opened Text

  datatype Json =
    | JNull
    | JBool(b: bool)
    | JInt(i: int)
    | JStr(s: string)
    | JObj(fields: map<string, Json>)
    | JArr(items: seq<Json>)

  /** Python truthiness of a value. */
  predicate Truthy(v: Json) {
    match v
    case JNull => false
    case JBool(b) => b
    case JInt(i) => i != 0
    case JStr(s) => s != []
    case JObj(fields) => |fields| > 0
    case JArr(items) => |items| > 0
  }

  /**
   * Python's `str(v)` as it appears inside an f-string message. A dict or a
   * list is rendered by its first bracket only.
   */
  function Show(v: Json): (r: string)
    ensures v.JStr? ==> r == v.s
    ensures v.JInt? ==> ParseInt(r) == Some(v.i)
  {
    ParseIntToString(if v.JInt? then v.i else 0);
    match v
    case JNull => "None"
    case JBool(b) => if b then "True" else "False"
    case JInt(i) => IntToString(i)
    case JStr(s) => s
    case JObj(_) => "{"
    case JArr(_) => "["
  }
}
