/**
  JSON values as they reach the model: parsed request bodies, index hits,
  LLM tool-call records and documents. Objects are finite maps, so key order
  is not represented; numbers are mathematical reals (no NaN or Infinity).
 */
module Json {
  import opened Wrappers

  datatype Json =
    | JNull
    | JBool(b: bool)
    | JNum(n: real)
    | JStr(s: string)
    | JArr(items: seq<Json>)
    | JObj(fields: map<string, Json>)

  /** A JSON object, the shape of documents and records. */
  type Object = map<string, Json>

  /**
    Labels for the exceptions Python raises on values of the wrong type: a
    `.get` on something other than a dict, and a `for` over something that
    cannot be iterated.
   */
  const NoGetError := "AttributeError: object has no attribute 'get'"
  const NotIterableError := "TypeError: object is not iterable"

  /** JavaScript truthiness: only null, false, 0 and "" are falsy; arrays and objects are truthy. */
  predicate JsTruthy(j: Json) {
    match j
    case JNull => false
    case JBool(b) => b
    case JNum(n) => n != 0.0
    case JStr(s) => s != ""
    case JArr(_) => true
    case JObj(_) => true
  }

  /** Python truthiness: None, False, 0, "" and empty lists and dicts are falsy. */
  predicate PyTruthy(j: Json) {
    match j
    case JNull => false
    case JBool(b) => b
    case JNum(n) => n != 0.0
    case JStr(s) => s != ""
    case JArr(xs) => xs != []
    case JObj(m) => m != map[]
  }

  /** Looks up `key` in an object; absent keys and non-objects give None. */
  function Field(j: Json, key: string): (r: Option<Json>)
    ensures r.Some? <==> j.JObj? && key in j.fields
    ensures r.Some? ==> r.value == j.fields[key]
  {
    if j.JObj? && key in j.fields then Some(j.fields[key]) else None
  }

  /** Python `d.get(key, default)` on a dict. */
  function Get(m: Object, key: string, default: Json): (r: Json)
    ensures key in m ==> r == m[key]
    ensures key !in m ==> r == default
  {
    if key in m then m[key] else default
  }
}
