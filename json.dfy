/** The values `encoding/json` produces when it decodes into `interface{}`. */
module JsonValue {

  /** A decoded JSON value. Numbers are `float64` in Go; here a `real` stands for one. */
  datatype Json =
    | JString(s: string)
    | JNumber(x: real)
    | JBool(b: bool)
    | JObject(fields: map<string, Json>)
    | JArray(items: seq<Json>)
    | JNull

  /** A decoded JSON object (`map[string]interface{}`). */
  type Object = map<string, Json>

  /**
   * The two formatting services the webhook handler borrows from Go's library and that
   * this model does not open up: `fmt.Sprintf("%.2f", x)` for numbers, and
   * `json.Marshal` for nested objects and arrays (which cannot fail on decoded values).
   */
  datatype Renderer = Renderer(fixed2: real -> string, marshal: Json -> string)

  /** The string stored under `key`, when there is one: Go's `data[key].(string)` with its `ok`. */
  predicate HasString(data: Object, key: string) {
    key in data && data[key].JString?
  }
}
