/** Decoded JSON values as the controller handles them, together with the three
    JavaScript notions its code leans on: truthiness (`if (cached)`, `a || b`),
    property access that may yield `undefined`, and object literals whose
    `undefined` members disappear when the object is serialized. */
module JsonValues {

  datatype Option<+T> = None | Some(value: T)

  /** A JSON value. Numbers are kept as reals; NaN cannot come out of a JSON parse. */
  datatype Json =
    | JNull
    | JBool(b: bool)
    | JNum(n: real)
    | JStr(s: string)
    | JArr(items: seq<Json>)
    | JObj(fields: map<string, Json>)

  /** JavaScript truthiness of a value. */
  predicate Truthy(j: Json) {
    match j
    case JNull => false
    case JBool(b) => b
    case JNum(n) => n != 0.0
    case JStr(s) => s != ""
    case JArr(_) => true
    case JObj(_) => true
  }

  /** `j.name`: None stands for `undefined` (no such member, or `j` is not an object). */
  function Field(j: Json, name: string): Option<Json> {
    if j.JObj? && name in j.fields then Some(j.fields[name]) else None
  }

  /** `null` or `undefined`, the two values `??` and `?.` look through. */
  predicate Nullish(o: Option<Json>) {
    o.None? || o.value.JNull?
  }

  /** An object-literal member `name: o`; an `undefined` member is not serialized. */
  function Put(m: map<string, Json>, name: string, o: Option<Json>): map<string, Json> {
    if o.Some? then m[name := o.value] else m
  }

  /** The `{ message }` body every error response of the controller carries. */
  function Message(msg: string): Json {
    JObj(map["message" := JStr(msg)])
  }
}
