/**
  The decoded body of a JSON-RPC request, as the proxy sees it after
  `json.Unmarshal` into a `map[string]interface{}` (main.go:42-43).
 */
module Json {

  /** A decoded JSON value. Numbers are kept abstract as reals. */
  datatype Json =
    | JNull
    | JBool(b: bool)
    | JNumber(n: real)
    | JString(s: string)
    | JArray(items: seq<Json>)
    | JObject(fields: map<string, Json>)

  /** The top-level JSON object of a request body. */
  type Payload = map<string, Json>

  /**
    Indexing a Go map: a missing key yields the zero value `nil`, which is
    also what a JSON `null` decodes to, so the two are indistinguishable.
   */
  function Member(p: Payload, key: string): (v: Json)
    ensures v != JNull <==> key in p && p[key] != JNull
    ensures v != JNull ==> v == p[key]
  {
    if key in p then p[key] else JNull
  }

  /** A member holding JSON `null` reads exactly like a missing member. */
  lemma NullIsAbsent(p: Payload, key: string, other: string)
    ensures Member(p[key := JNull], other) == Member(p - {key}, other)
  {
  }

  /** `payload["params"]`: what the fingerprint is computed over (main.go:93). */
  function Params(p: Payload): Json
  {
    Member(p, "params")
  }
}
