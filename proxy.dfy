/**
  The per-request handler of the proxy (`genRequestHandler`, main.go:78-124)
  and the body reader it starts with (`parseRequestBody`, main.go:32-55).
  The hash library and the JSON decoder are injected as total functions;
  the reverse proxies are represented by the target a request is handed to.
 */
module Proxy {
  import opened Wrappers
  import opened Json
  import opened Routing
  import opened Decimal
  import opened AuditLog

  type Byte = b: int | 0 <= b < 256

  /** A parsed backend URL; only its scheme and host are used. */
  datatype Url = Url(scheme: string, host: string)

  /**
    The request body stream: the bytes not yet read, or a stream whose
    read fails.
   */
  datatype Body = Stream(unread: seq<Byte>) | Failing

  /** Header values by canonical header name, as `http.Header`. */
  type Header = map<string, seq<string>>

  const VersionHeader := "X-Choice-Operator-Version"
  const OperatorVersion := "0.01"

  /** `Header.Set`: the key now holds exactly one value; no other key changes. */
  function SetHeader(h: Header, key: string, value: string): (r: Header)
    ensures r.Keys == h.Keys + {key}
    ensures r[key] == [value]
    ensures forall k :: k in h && k != key ==> r[k] == h[k]
  {
    h[key := [value]]
  }

  /** The outcome of the fingerprint library on a `params` value. */
  datatype HashOutcome = Hashed(value: Uint64) | Unhashable

  /** Why handling a request stopped before it was forwarded (a panic in the source). */
  datatype HandlerError = ReadFailed | InvalidJson | HashFailed

  /** Whether an audit record was attempted, and how the attempt ended. */
  datatype Audit = NotAudited | Recorded | RecordFailed(error: SaveError)

  /** What became of a request. */
  datatype Outcome =
    | Aborted(error: HandlerError)
    | Forwarded(target: Url, audit: Audit)

  /** The fields of an `http.Request` the handler reads or writes. */
  class Request {
    var header: Header
    var host: string
    var urlScheme: string
    var urlHost: string
    var body: Body

    constructor (header: Header, host: string, urlScheme: string, urlHost: string, body: Body)
      ensures this.header == header && this.host == host
      ensures this.urlScheme == urlScheme && this.urlHost == urlHost
      ensures this.body == body
    {
      this.header := header;
      this.host := host;
      this.urlScheme := urlScheme;
      this.urlHost := urlHost;
      this.body := body;
    }
  }

  /**
    Read the whole body and decode it. A failing read or a body that does not
    decode into a map aborts; after a successful decode the body is put back so
    that the forwarded request carries exactly the bytes that were read.
    Nothing but the body is touched.
   */
  method ParseRequestBody(request: Request, parse: seq<Byte> -> Option<Payload>)
    returns (r: Result<Payload, HandlerError>)
    modifies request`body
    ensures old(request.body).Failing? ==> r == Err(ReadFailed) && request.body == Failing
    ensures old(request.body).Stream? ==>
              var bytes := old(request.body).unread;
              match parse(bytes)
              case None => r == Err(InvalidJson) && request.body == Stream([])
              case Some(p) => r == Ok(p) && request.body == Stream(bytes)
  {
    if request.body.Failing? {
      return Err(ReadFailed);
    }
    var bytes := request.body.unread;
    request.body := Stream([]);
    var decoded := parse(bytes);
    if decoded.None? {
      return Err(InvalidJson);
    }
    request.body := Stream(bytes);
    r := Ok(decoded.value);
  }

  /** What the handler does with a decoded payload. */
  datatype Decision =
    | PassThrough
    | Audited(entry: LogEntry)
    | Unfingerprintable

  /**
    The handler's decision for a decoded payload received at `now`. Bidder
    traffic gets a record of the whole payload, labelled open, keyed by the
    decimal numeral of the fingerprint of its `params`; everything else
    passes through.
   */
  function Decide(p: Payload, hash: Json -> HashOutcome, now: Time): (d: Decision)
    ensures d.PassThrough? <==> Classify(p) == Vanilla
    ensures d.Unfingerprintable? <==> Classify(p) == Bidder && hash(Params(p)).Unhashable?
    ensures d.Audited? ==>
              && hash(Params(p)).Hashed?
              && IsCanonical(d.entry.paramsHash)
              && Parse(d.entry.paramsHash) == hash(Params(p)).value
              && d.entry.payload == p
              && d.entry.auction == OpenAuction
              && d.entry.timestamp == now
  {
    if Classify(p) == Vanilla then PassThrough
    else match hash(Params(p))
      case Unhashable => Unfingerprintable
      case Hashed(h) =>
        ParseFormat(h);
        Audited(LogEntry(Format(h), p, OpenAuction, now))
  }

  /**
    Two audited payloads get the same audit key exactly when their
    `params` have the same fingerprint; in particular identical `params`
    always collide on the key.
   */
  lemma SameKeyIffSameFingerprint(p1: Payload, p2: Payload, hash: Json -> HashOutcome, t1: Time, t2: Time)
    requires Decide(p1, hash, t1).Audited? && Decide(p2, hash, t2).Audited?
    ensures Decide(p1, hash, t1).entry.paramsHash == Decide(p2, hash, t2).entry.paramsHash
            <==> hash(Params(p1)) == hash(Params(p2))
  {
    var h1, h2 := hash(Params(p1)).value, hash(Params(p2)).value;
    FormatInjective(h1, h2);
  }

  /**
    A transaction replayed with the same `params`: the collection gains at
    most the one key, and once the first request's record is stored (or
    the key was already present) the replay's save is refused and adds
    nothing, whatever the reachability of the store at each request.
   */
  lemma ReplayRecordedOnce(docs: map<string, LogEntry>, o1: bool, o2: bool, p1: Payload, p2: Payload,
                           hash: Json -> HashOutcome, t1: Time, t2: Time)
    requires Decide(p1, hash, t1).Audited? && Decide(p2, hash, t2).Audited?
    requires Params(p1) == Params(p2)
    ensures var e1 := Decide(p1, hash, t1).entry;
            var w1 := CreateDoc(docs, o1, e1);
            var w2 := CreateDoc(w1.docs, o2, Decide(p2, hash, t2).entry);
            && w2.docs.Keys <= docs.Keys + {e1.paramsHash}
            && (w1.error.None? || e1.paramsHash in docs ==> w2.error.Some? && w2.docs == w1.docs)
  {
    SecondCreateRefused(docs, o1, o2, Decide(p1, hash, t1).entry, Decide(p2, hash, t2).entry);
  }

  /**
    The request handler built from the two backend URLs and the saver.
    `hash` and `parse` stand for the fingerprint library and the JSON
    decoder.
   */
  class Handler {
    const vanilla: Url
    const bidder: Url
    const store: AuditStore
    const hash: Json -> HashOutcome
    const parse: seq<Byte> -> Option<Payload>

    constructor (vanilla: Url, bidder: Url, store: AuditStore,
                 hash: Json -> HashOutcome, parse: seq<Byte> -> Option<Payload>)
      ensures this.vanilla == vanilla && this.bidder == bidder && this.store == store
      ensures this.hash == hash && this.parse == parse
    {
      this.vanilla := vanilla;
      this.bidder := bidder;
      this.store := store;
      this.hash := hash;
      this.parse := parse;
    }

    /**
      Handle one request received at `now`. A body that cannot be read or
      decoded, or params that cannot be fingerprinted, end handling with no
      save and no forward. Otherwise the version header is set in both
      branches; bidder traffic gets exactly one save attempt and is then
      forwarded to the bidder whether or not the save succeeded, with only
      `Host` rewritten; other traffic is forwarded to the vanilla node with
      URL host, URL scheme and `Host` rewritten and the store untouched.
      The forwarded body is the bytes that were read.
     */
    method Serve(req: Request, now: Time) returns (out: Outcome)
      modifies req, store`docs
      ensures old(req.body).Failing? ==>
                out == Aborted(ReadFailed) && unchanged(req) && store.docs == old(store.docs)
      ensures old(req.body).Stream? && parse(old(req.body).unread).None? ==>
                && out == Aborted(InvalidJson)
                && req.body == Stream([])
                && unchanged(req`header, req`host, req`urlScheme, req`urlHost)
                && store.docs == old(store.docs)
      ensures old(req.body).Stream? && parse(old(req.body).unread).Some? ==>
                var p := parse(old(req.body).unread).value;
                && req.body == old(req.body)
                && match Decide(p, hash, now)
                   case Unfingerprintable =>
                     && out == Aborted(HashFailed)
                     && unchanged(req`header, req`host, req`urlScheme, req`urlHost)
                     && store.docs == old(store.docs)
                   case PassThrough =>
                     && out == Forwarded(vanilla, NotAudited)
                     && req.header == SetHeader(old(req.header), VersionHeader, OperatorVersion)
                     && req.urlHost == vanilla.host
                     && req.urlScheme == vanilla.scheme
                     && req.host == vanilla.host
                     && store.docs == old(store.docs)
                   case Audited(entry) =>
                     var w := CreateDoc(old(store.docs), store.online, entry);
                     && out == Forwarded(bidder, if w.error.None? then Recorded else RecordFailed(w.error.value))
                     && req.header == SetHeader(old(req.header), VersionHeader, OperatorVersion)
                     && req.host == bidder.host
                     && unchanged(req`urlScheme, req`urlHost)
                     && store.docs == w.docs
    {
      var parsed := ParseRequestBody(req, parse);
      if parsed.Err? {
        return Aborted(parsed.error);
      }
      var p := parsed.value;
      if Classify(p) == Bidder {
        var fingerprint := hash(Params(p));
        if fingerprint.Unhashable? {
          return Aborted(HashFailed);
        }
        var key := Format(fingerprint.value);
        req.header := SetHeader(req.header, VersionHeader, OperatorVersion);
        var entry := LogEntry(key, p, OpenAuction, now);
        var err := store.Save(entry);
        req.host := bidder.host;
        out := Forwarded(bidder, if err.None? then Recorded else RecordFailed(err.value));
      } else {
        req.urlHost := vanilla.host;
        req.urlScheme := vanilla.scheme;
        req.header := SetHeader(req.header, VersionHeader, OperatorVersion);
        req.host := vanilla.host;
        out := Forwarded(vanilla, NotAudited);
      }
    }
  }
}
