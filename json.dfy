/** JSON documents as Python's `json` module decodes them (numbers are whole numbers here). */
module Json {
  import opened Outcomes

  datatype Json =
    | JNull
    | JBool(b: bool)
    | JNum(n: int)
    | JStr(s: string)
    | JArr(items: seq<Json>)
    | JObj(fields: map<string, Json>)

  /** Python truthiness of a decoded value, as in `if meta:`. */
  predicate Truthy(j: Json)
  {
    match j
    case JNull => false
    case JBool(b) => b
    case JNum(n) => n != 0
    case JStr(s) => s != ""
    case JArr(items) => items != []
    case JObj(fields) => |fields| != 0
  }

  /** Calling a method that only dicts have on a value that is not a dict. */
  datatype JsonFault = AttributeError

  /** `obj.get(key, default)`: fails with AttributeError unless `obj` is a dict. */
  function Get(obj: Json, key: string, default: Json): (r: Result<Json, JsonFault>)
    ensures r.Ok? <==> obj.JObj?
    ensures obj.JObj? && key in obj.fields ==> r == Ok(obj.fields[key])
    ensures obj.JObj? && key !in obj.fields ==> r == Ok(default)
  {
    match obj
    case JObj(fields) => Ok(if key in fields then fields[key] else default)
    case _ => Err(AttributeError)
  }

  const EmptyObject: Json := JObj(map[])
}
