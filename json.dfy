/** A JSON value as serde_json's `Value` holds it. Numbers are kept as integers:
    the model never looks inside a number, so floating point is left out. */
module Json {

  datatype Value =
    | Null
    | Bool(b: bool)
    | Number(n: int)
    | Str(s: string)
    | Array(items: seq<Value>)
    | Object(fields: map<string, Value>)
}
