/**
  The part of the `json` crate's `JsonValue` that the configuration code uses: building
  an object, indexing it by key, and the `as_bool`, `as_i32` and `as_str` accessors.
  Text parsing and `dump` belong to the crate and enter the model as function
  parameters.
 */
module Json {
  import opened Wrappers
  import opened RustText

  datatype JsonValue =
    | Null
    | Boolean(b: bool)
    | Number(n: int)                        // only integral numbers are modelled
    | Str(s: string)                        // the crate's `Short` and `String` variants
    | Object(members: map<string, JsonValue>)
    | Array(items: seq<JsonValue>)

  /** `json::parse`: the document a text denotes, or None when the text is rejected. */
  type Parser = string -> Option<JsonValue>

  /** `JsonValue::dump`: the compact text of a document. */
  type Dumper = JsonValue -> string

  /** `value[key]`: the member under `key`, or Null when it is absent or `value` is no object. */
  function Index(value: JsonValue, key: string): JsonValue {
    if value.Object? && key in value.members then value.members[key] else Null
  }

  /** `as_bool`. */
  function AsBool(value: JsonValue): Option<bool> {
    if value.Boolean? then Some(value.b) else None
  }

  /** `as_i32`: a number that fits in an `i32`. */
  function AsI32(value: JsonValue): Option<Int32> {
    if value.Number? && I32_MIN <= value.n <= I32_MAX then Some(value.n) else None
  }

  /** `as_str`. */
  function AsStr(value: JsonValue): Option<string> {
    if value.Str? then Some(value.s) else None
  }
}
