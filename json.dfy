// Parsed JSON values as the model-service flows see them after `JSON.parse`, with
// JavaScript's truthiness and property access.
module JsonValues {
  import opened Outcomes

  /** A JSON value; numbers are integers, and an object keeps the last value given for a key. */
  datatype Json =
    | JNull
    | JBool(b: bool)
    | JNum(n: int)
    | JStr(s: string)
    | JArr(elems: seq<Json>)
    | JObj(fields: map<string, Json>)

  /** `!!v`: `null`, `false`, `0` and `""` are falsy; arrays and objects are truthy, even when empty. */
  predicate Truthy(j: Json) {
    match j
    case JNull => false
    case JBool(b) => b
    case JNum(n) => n != 0
    case JStr(s) => s != ""
    case JArr(_) => true
    case JObj(_) => true
  }

  /** `j.key`: the property of an object, absent (`undefined`) otherwise. */
  function Field(j: Json, key: string): (r: Option<Json>)
    ensures r.Some? <==> j.JObj? && key in j.fields
  {
    if j.JObj? && key in j.fields then Some(j.fields[key]) else None
  }

  predicate TruthyField(j: Json, key: string) {
    Field(j, key).Some? && Truthy(Field(j, key).value)
  }

  /** `typeof j.key === 'number'`. */
  predicate NumberField(j: Json, key: string) {
    Field(j, key).Some? && Field(j, key).value.JNum?
  }
}
