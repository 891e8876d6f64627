/**
 * JSON values as `JSON.parse` produces them, and JavaScript truthiness on them.
 * `JSON.parse` itself is not modelled: every operation that parses takes a
 * parser as a parameter, `Some(v)` for a text it accepts and `None` for one it
 * throws on.
 */
module Json {
  import opened Wrappers

  datatype JsonValue =
    | JNull
    | JBool(b: bool)
    | JNumber(n: real)
    | JString(s: string)
    | JArray(items: seq<JsonValue>)
    | JObject(members: seq<(string, JsonValue)>)

  /** `JSON.parse`, supplied from outside the model. */
  type JsonParser = string -> Option<JsonValue>

  /** `!v` in JavaScript: null, false, 0 (and -0) and the empty string are falsy. */
  predicate Falsy(v: JsonValue) {
    v == JNull || v == JBool(false) || v == JNumber(0.0) || v == JString("")
  }
}
