/**
 * JSON values as the training page handles them, with JavaScript's truthiness and property
 * access; parsing and serialising text are left opaque (they are parameters of the page).
 */
module JsValues {
  import opened Wrappers

  /** A value `JSON.parse` can return. NaN is not a JSON value and is not modelled. */
  datatype Json =
    | JNull
    | JBool(b: bool)
    | JNum(n: real)
    | JStr(s: string)
    | JArr(items: seq<Json>)
    | JObj(fields: map<string, Json>)

  /** JavaScript truthiness: `null`, `false`, `0` and `""` are falsy, arrays and objects are truthy. */
  function Truthy(j: Json): (t: bool)
    ensures !t <==> j == JNull || j == JBool(false) || j == JNum(0.0) || j == JStr("")
  {
    match j
    case JNull => false
    case JBool(b) => b
    case JNum(n) => n != 0.0
    case JStr(s) => s != ""
    case JArr(_) => true
    case JObj(_) => true
  }

  /**
   * `j?.key` (and `j.key` for any `j` but `null`) for the data keys the training page reads,
   * `training_params` and `custom_command`: an object's own field, and `undefined` (None) for a
   * missing field or a non-object receiver. It is not a model of inherited properties such as
   * `length` or `constructor`, which no such key names.
   */
  function Member(j: Json, key: string): (r: Option<Json>)
    ensures r.Some? <==> j.JObj? && key in j.fields
    ensures r.Some? ==> r.value == j.fields[key]
  {
    if j.JObj? && key in j.fields then Some(j.fields[key]) else None
  }

  /** Truthiness of a value that may be `undefined`: `undefined` joins the four falsy JSON values. */
  function TruthyOpt(o: Option<Json>): (t: bool)
    ensures !t <==> o == None || o == Some(JNull) || o == Some(JBool(false)) || o == Some(JNum(0.0)) || o == Some(JStr(""))
  {
    o.Some? && Truthy(o.value)
  }
}
