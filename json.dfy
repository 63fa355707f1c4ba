/**
 * The request body as `request.json()` delivers it: a parsed JSON value, or a
 * body that does not parse (which makes `request.json()` throw).
 */
module Json {

  /** A parsed JSON value. Object keys are unique, as after `JSON.parse`
      (a repeated key keeps its last value). */
  datatype Value =
    | Null
    | Bool(b: bool)
    | Number(n: real)
    | Str(s: string)
    | Array(items: seq<Value>)
    | Object(fields: map<string, Value>)

  datatype RequestBody = Unparseable | Parsed(value: Value)
}
