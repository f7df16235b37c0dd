/**
 * The values `response.json()` can decode, with the two pieces of JavaScript
 * semantics the chat code relies on: truthiness and property access.
 */
module JsValue {
  import opened Wrappers

  /**
   * A decoded JSON value. Numbers are kept as integers: the chat code only asks
   * whether a number is truthy, i.e. non-zero. An object maps each own key to
   * its value (a duplicated key in the text keeps its last value when decoded).
   */
  datatype Json =
    | JNull
    | JBool(b: bool)
    | JNum(n: int)
    | JStr(s: string)
    | JArr(items: seq<Json>)
    | JObj(fields: map<string, Json>)

  /** JavaScript truthiness of a decoded value: `null`, `false`, `0` and `""` are falsy. */
  predicate Truthy(v: Json) {
    match v
    case JNull => false
    case JBool(b) => b
    case JNum(n) => n != 0
    case JStr(s) => s != ""
    case JArr(_) => true
    case JObj(_) => true
  }

  /** Truthiness of a property read, where a missing property reads as `undefined`, which is falsy. */
  predicate TruthyOpt(v: Option<Json>) {
    v.Some? && Truthy(v.value)
  }

  /**
   * `data.key` on a decoded value: an object yields its own property, anything
   * else (an array included) has no such property and yields `undefined`.
   */
  function Get(data: Json, key: string): (r: Option<Json>)
    ensures r.Some? <==> data.JObj? && key in data.fields
    ensures r.Some? ==> r.value == data.fields[key]
  {
    if data.JObj? && key in data.fields then Some(data.fields[key]) else None
  }

  /** JavaScript's `a || b`: `a` when it is truthy, `b` otherwise. */
  function Or(a: Option<Json>, b: Option<Json>): (r: Option<Json>)
    ensures TruthyOpt(a) ==> r == a
    ensures !TruthyOpt(a) ==> r == b
  {
    if TruthyOpt(a) then a else b
  }
}
