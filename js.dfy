/** The JavaScript values the core reads and writes: parsed JSON bodies, and
    the truthiness rules behind the source's `||` and `if (!x)` tests. */
module Js {
  import opened Wrappers

  /** A parsed JSON value. Object keys map to values; JSON numbers are reals. */
  datatype Json =
    | JNull
    | JBool(b: bool)
    | JNumber(n: real)
    | JString(s: string)
    | JArray(elems: seq<Json>)
    | JObject(fields: map<string, Json>)

  /** JavaScript truthiness of a JSON value: `null`, `false`, `0` and `""` are falsy. */
  predicate Truthy(j: Json) {
    match j
    case JNull => false
    case JBool(b) => b
    case JNumber(n) => n != 0.0
    case JString(s) => s != ""
    case _ => true
  }

  /** Truthiness of an optional string (an environment variable, an argument
      that may be `undefined`). */
  predicate Present(s: Option<string>) {
    s.Some? && s.value != ""
  }

  /** JavaScript `a || b` on values that are strings or `undefined`. */
  function Or(a: Option<string>, b: Option<string>): (r: Option<string>)
    ensures Present(r) <==> Present(a) || Present(b)
    ensures Present(a) ==> r == a
    ensures !Present(a) ==> r == b
  {
    if Present(a) then a else b
  }

  /** Reading property `key` of a non-null value: `undefined` (None) unless it
      is an object holding that key. */
  function Property(j: Json, key: string): (r: Option<Json>)
    requires !j.JNull?
    ensures r.Some? <==> j.JObject? && key in j.fields
  {
    if j.JObject? && key in j.fields then Some(j.fields[key]) else None
  }

  /** The empty object `{}`. */
  const EmptyObject: Json := JObject(map[])
}
