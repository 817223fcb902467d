/** Values shared by every component: optional values, decoded JSON, and Go's wall-clock units. */
module Prelude {

  datatype Option<+T> = None | Some(value: T)

  /** Nanoseconds, the unit of Go's time.Duration. */
  const SECOND: int := 1_000_000_000
  const MINUTE: int := 60 * SECOND

  /** A decoded JSON document. Numbers are the reals that float64 values denote. */
  datatype Json =
    | JNull
    | JBool(flag: bool)
    | JNumber(number: real)
    | JString(text: string)
    | JArray(items: seq<Json>)
    | JObject(fields: map<string, Json>)

  /** The map without one key. */
  function Without<K, V>(m: map<K, V>, k: K): (r: map<K, V>)
    ensures r.Keys == m.Keys - {k}
    ensures forall x :: x in r ==> r[x] == m[x]
  {
    m - {k}
  }
}
