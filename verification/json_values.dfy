/** Values the domain records carry but the core never inspects: JSON
    payloads (`map[string]any`, `map[string]interface{}`) and timestamps. */
module JsonValues {

  /** A decoded JSON value; a number is kept as its literal text. */
  datatype Json =
    | JNull
    | JBool(b: bool)
    | JNumber(literal: string)
    | JString(s: string)
    | JArray(items: seq<Json>)
    | JObject(fields: map<string, Json>)

  /** A `time.Time`, as an opaque instant. */
  datatype Time = Time(nanos: int)

  /** The zero `time.Time`. */
  const ZeroTime := Time(0)
}
