# Choice operator proxy: a Dafny model of the request handler

The proxy sits in front of an Ethereum JSON-RPC node. Each request body is
decoded. If the JSON-RPC `method` is one of the four send-transaction methods
(`eth_sendRawTransaction`, `eth_sendTransaction`, `eth_sendRawTransaction_reserve`
and `eth_sendTransaction_reserve`), the proxy handles it as follows:

- it fingerprints the request's `params`;
- it makes one create-only write of an audit record (`LogEntry`, auction `"open"`),
  keyed by the fingerprint's decimal numeral;
- it forwards the request to the *bidder* backend, whether or not the write succeeded.

Every other request goes to the *vanilla* node. Both routes set the header
`X-Choice-Operator-Version: 0.01`.

The model has six modules:

- `Wrappers`: `Option` and `Result`.
- `Json`: decoded values. It follows Go map indexing, so a missing member reads
  as `null`.
- `Routing`: the classification test.
- `Decimal`: the base-10 formatting of the fingerprint, with its inverse.
- `AuditLog`: `LogEntry`, the create-only write `CreateDoc` and the `AuditStore`
  class that stands for the saver closure.
- `Proxy`: the mutable `Request`, `ParseRequestBody`, the decision function
  `Decide` and the `Handler` class. `Handler.Serve` is the request closure.

Collaborators outside the model are injected:

- the fingerprint library is a deterministic total function `Json -> HashOutcome`;
- the JSON decoder is a function from bytes to an optional payload;
- the clock is a `now` parameter;
- whether the audit store accepts an attempt apart from its key (it is reachable and does not refuse the document for another reason) is the store's `online` field;
- a reverse-proxy hand-off is the `Forwarded(target, audit)` outcome.

The source stops a request with a panic when the body cannot be read, when it
does not decode into a map, or when the fingerprint fails. The model follows
main.go: each of these cases is an `Aborted` outcome, with nothing saved and
nothing forwarded.

## Model

| member | source | states |
|---|---|---|
| `Json.NullIsAbsent` | main.go:88-93 | Indexing the decoded payload cannot tell a member holding `null` from a missing one (both are Go's `nil`) |
| `Routing.Classify` | main.go:88-91 | The route is the bidder iff `method` is a string in the four-name audited set, compared exactly; a missing or non-string `method` routes to vanilla |
| `Decimal.Format` | main.go:94 | The key is a canonical numeral (digits only, no leading zero), and it is "0" only for 0 |
| `Decimal.ParseFormat` | main.go:94 | Reading the formatted key back gives the fingerprint (the formatter has a left inverse) |
| `Decimal.FormatInjective` | main.go:94 | Two fingerprints have the same key iff they are equal |
| `Decimal.FormatParse` | main.go:94 | Every canonical numeral is the key of exactly one number, so parse and format are mutually inverse on keys |
| `AuditLog.CreateDoc` | main.go:65-73 | Create-only write: succeeds iff the store accepts the attempt apart from the key (`online`) and the key is new; reports AlreadyExists iff `online` and the key is present; never changes or removes an existing document; on failure changes nothing; on success adds exactly the new key with the record |
| `AuditLog.SecondCreateRefused` | main.go:66-70 | Two records under one key, each attempt with its own `online`: the collection gains at most that key; once the first is stored or the key was present, the second is refused, changes nothing and the first document stays |
| `AuditLog.AuditStore.constructor` | main.go:64-65 | The saver is built over a given collection state and `online` flag |
| `AuditLog.AuditStore.Save` | main.go:65-73 | One create attempt: the new documents and the returned error are those of `CreateDoc` on the old documents |
| `Proxy.SetHeader` | main.go:100 | Setting the version header leaves it with exactly one value and every other header unchanged |
| `Proxy.ParseRequestBody` | main.go:32-55 | A read failure gives ReadFailed; a non-JSON body gives InvalidJson and leaves the body consumed; a decoded body gives the payload and restores the body to exactly the bytes read; nothing other than the body changes |
| `Proxy.Decide` | main.go:88-104 | Pass-through iff the payload classifies as vanilla. An audited decision carries a record of the whole payload with auction "open", the receive time and a canonical key that parses back to the fingerprint of `params` |
| `Proxy.SameKeyIffSameFingerprint` | main.go:93-94 | Two audited payloads get the same audit key iff their `params` have the same fingerprint |
| `Proxy.ReplayRecordedOnce` | main.go:93-104 | Two audited requests with identical `params`, each seeing its own `online` flag: the collection gains at most the one key, and once the first record is stored (or the key was present) the replay's save is refused and adds nothing |
| `Proxy.Handler.constructor` | main.go:78-83 | The handler is built from the vanilla URL, the bidder URL and the saver |
| `Proxy.Handler.Serve` | main.go:85-123 | Read or decode failures and fingerprint failures abort with no save and no forward. On the vanilla route: version header set, URL host, URL scheme and `Host` set from the vanilla URL, store untouched. On the bidder route: version header set, exactly one `CreateDoc` attempt with the record `Decide` builds, `Host` set to the bidder host, URL untouched, and the request forwarded to the bidder whatever the save returned. The forwarded body equals the original bytes |

## Left out

- `index.js` is not part of this model. It is Express and http-proxy wiring with fixed targets and no routing decision of its own.
- `main()` (main.go:126-171) is startup I/O: environment variables, the Firestore client, URL parsing, the default port and `ListenAndServe`.
- `debugHandler` (main.go:57-59) writes a fixed text response.
- The hashstructure algorithm is a foreign library. It is an injected deterministic function, so its order sensitivity is not modelled.
- JSON decoding is a foreign library and is an injected partial function. A body of `null` decodes to a nil map, which indexes like an empty payload. A top-level array, such as a JSON-RPC batch, fails to decode. Both cases fall inside that function.
- Only the create-if-absent contract of Firestore is modelled. Serialisation is left out, including the fact that the unexported `paramsHash` and `timestamp` fields are not persisted. Failures other than an existing key become a single `Unavailable` cause.
- `httputil.ReverseProxy` is represented only by the backend a request is handed to. This leaves out its director, which also rewrites the URL scheme and host on the bidder route, its response streaming and its 502 on upstream errors.
- Logging (main.go:79, 82, 87, 106-108) is left out. The result of a save is not logged; it is returned in the `Audit` part of the outcome instead.
- Concurrency between requests is left out. `time.Now()` becomes the `now` parameter.
- JSON numbers are reals rather than `float64`. Partial reads before a read error are not modelled: a failing body stays failing.
- A panic is modelled as an `Aborted` outcome. The connection handling by `net/http` after a panic is not modelled.
