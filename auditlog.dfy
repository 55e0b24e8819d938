/**
  The audit record of an intercepted transaction and the create-only
  document collection it is written to (`genSaver`, main.go:61-74).
 */
module AuditLog {
  import opened Wrappers
  import opened Json

  /** An opaque instant, standing for `time.Now()`. */
  type Time = int

  /** The label every new record carries; auctions are not implemented. */
  const OpenAuction := "open"

  /** `LogEntry` (main.go:24-29): the record built for one audited request. */
  datatype LogEntry = LogEntry(paramsHash: string, payload: Payload, auction: string, timestamp: Time)

  /** Why a create did not happen. */
  datatype StoreFailure = AlreadyExists | Unavailable

  /** The wrapped error the saver returns ("Failed to add transaction: ..."). */
  datatype SaveError = FailedToAdd(cause: StoreFailure)

  /** The documents after a write attempt, and the error it reported, if any. */
  datatype Write = Write(docs: map<string, LogEntry>, error: Option<SaveError>)

  /**
    A create-if-absent write of `entry` under its `paramsHash` in the `txs`
    collection, which `docs` stands for. It succeeds
    only when the store accepts the attempt (`online`) and the key is new; it never replaces
    or removes an existing document, and a failed attempt changes nothing.
   */
  function CreateDoc(docs: map<string, LogEntry>, online: bool, entry: LogEntry): (w: Write)
    ensures w.error.None? <==> online && entry.paramsHash !in docs
    ensures w.error == Some(FailedToAdd(AlreadyExists)) <==> online && entry.paramsHash in docs
    ensures w.error.Some? ==> w.docs == docs
    ensures w.docs.Keys == docs.Keys + (if w.error.None? then {entry.paramsHash} else {})
    ensures forall k :: k in docs ==> k in w.docs && w.docs[k] == docs[k]
    ensures w.error.None? ==> w.docs[entry.paramsHash] == entry
  {
    if !online then Write(docs, Some(FailedToAdd(Unavailable)))
    else if entry.paramsHash in docs then Write(docs, Some(FailedToAdd(AlreadyExists)))
    else Write(docs[entry.paramsHash := entry], None)
  }

  /**
    Two records under the same key, each attempt seeing its own store
    acceptance (`o1`, `o2`). The collection gains at most that key. If the first
    attempt stored its record or the key was already there, the second is
    refused and changes nothing, so the document that was there first stays.
    (If the first attempt was lost to an outage, a later one may store its
    record.)
   */
  lemma SecondCreateRefused(docs: map<string, LogEntry>, o1: bool, o2: bool, e1: LogEntry, e2: LogEntry)
    requires e1.paramsHash == e2.paramsHash
    ensures var w1 := CreateDoc(docs, o1, e1);
            var w2 := CreateDoc(w1.docs, o2, e2);
            && w2.docs.Keys <= docs.Keys + {e1.paramsHash}
            && (w1.error.None? || e1.paramsHash in docs ==>
                  && w2.error.Some?
                  && w2.docs == w1.docs
                  && w2.docs[e1.paramsHash] == if e1.paramsHash in docs then docs[e1.paramsHash] else e1)
  {
  }

  /**
    The Firestore collection behind the saver. `online` stands for whether
    the store accepts a create attempt apart from its key (it is reachable
    and does not refuse the document for any other reason); `docs` holds
    the created documents.
   */
  class AuditStore {
    var docs: map<string, LogEntry>
    var online: bool

    constructor (docs: map<string, LogEntry>, online: bool)
      ensures this.docs == docs && this.online == online
    {
      this.docs := docs;
      this.online := online;
    }

    /** The saver closure: one create attempt keyed by the record's hash string. */
    method Save(entry: LogEntry) returns (err: Option<SaveError>)
      modifies this`docs
      ensures var w := CreateDoc(old(docs), online, entry); docs == w.docs && err == w.error
    {
      var w := CreateDoc(docs, online, entry);
      docs := w.docs;
      err := w.error;
    }
  }
}
