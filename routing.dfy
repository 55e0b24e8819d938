/**
  Deciding whether a request is a transaction submission that must be
  audited and sent to the bidder, or ordinary traffic for the vanilla node.
 */
module Routing {
  import opened Wrappers
  import opened Json

  datatype Route = Bidder | Vanilla

  /** The four send-transaction method names that are intercepted. */
  const SendRawTransaction := "eth_sendRawTransaction"
  const SendTransaction := "eth_sendTransaction"
  const SendRawTransactionReserve := "eth_sendRawTransaction_reserve"
  const SendTransactionReserve := "eth_sendTransaction_reserve"

  const AuditedMethods: set<string> :=
    {SendRawTransaction, SendTransaction, SendRawTransactionReserve, SendTransactionReserve}

  /**
    Go's `requestPayload["method"] == "<name>"` compares an `interface{}`
    with a string constant: it holds only when the member is present, is a
    string, and is exactly that string (case-sensitive).
   */
  predicate MethodIs(p: Payload, name: string)
  {
    Member(p, "method") == JString(name)
  }

  /**
    The method name, when the `method` member is a string: it is `name`
    exactly when the source's comparison with `name` holds.
   */
  function MethodName(p: Payload): (m: Option<string>)
    ensures forall name :: MethodIs(p, name) <==> m == Some(name)
  {
    if "method" in p && p["method"].JString? then Some(p["method"].s) else None
  }

  /**
    The four-way test of the request handler. The route is the bidder
    exactly when the method is a string in the audited set; a missing,
    null or non-string method goes to the vanilla node.
   */
  function Classify(p: Payload): (r: Route)
    ensures r == Bidder <==> MethodName(p).Some? && MethodName(p).value in AuditedMethods
    ensures "method" !in p ==> r == Vanilla
    ensures "method" in p && !p["method"].JString? ==> r == Vanilla
  {
    if MethodIs(p, SendRawTransaction) ||
       MethodIs(p, SendTransaction) ||
       MethodIs(p, SendRawTransactionReserve) ||
       MethodIs(p, SendTransactionReserve)
    then Bidder
    else Vanilla
  }
}
