/** Go's `url.Values`: a query parameter name maps to a list of values. Only
    `Set` is used by the core; the wire encoding (`Values.Encode`) is passed to
    the members that need it as a function parameter. */
module UrlValues {

  type Values = map<string, seq<string>>

  /** `Values.Set`: the key ends up holding exactly this one value, replacing
      whatever it held; every other key is untouched. */
  function Set(q: Values, key: string, value: string): Values {
    q[key := [value]]
  }

  /** `Values.Get`: the first value stored under the key, or "". */
  function Get(q: Values, key: string): string {
    if key in q && |q[key]| > 0 then q[key][0] else ""
  }
}
