/**
 * The shape of an already-decoded JSON value, as Go's `encoding/json` hands it
 * to the pretty-printer when decoding into `any`: a string, a list, an object
 * (Go's `map[string]any`) or a scalar.  Go decodes numbers to float64; the
 * model keeps a number as its literal from the input and does not model
 * either way a float64 is printed (`%v` or `json.Marshal`).
 */
module Json {
  import opened Wrappers

  datatype Value =
    | Null
    | Bool(b: bool)
    | Number(literal: string)
    | Str(s: string)
    | Arr(items: seq<Value>)
    | Obj(fields: map<string, Value>)

  /**
   * Decoding a text as a JSON object (`json.Unmarshal` into `map[string]any`).
   * The decoder is outside the model, so it is passed in: `None` is a text that
   * is not (yet) a complete JSON object.
   */
  type ObjectParser = string -> Option<map<string, Value>>
}
