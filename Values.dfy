/**
 * Dynamically typed values as they travel between the host and its plugins: Go's `any`
 * holding what `encoding/json` and the YAML decoder produce, with `Null` for Go's nil.
 */
module Values {

  datatype Value =
    | Null
    | Bool(b: bool)
    | Int(i: int)
    | Str(s: string)
    | Array(items: seq<Value>)
    | Object(fields: map<string, Value>)
}
