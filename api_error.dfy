/**
 * The gateway's error taxonomy: every way a request can fail, the HTTP status
 * and plain-text body each failure is answered with, and the human-readable
 * message of each failure.
 */
module ApiError {

  /** The kinds of failure a request can end in. `CLNError` belongs to the
      Lightning feature and carries the Lightning daemon's error text. */
  datatype Error =
    | JsonRpcNotWorking
    | OutOfMoney
    | InvalidAddress
    | AmountTooLarge
    | Dust
    | CLNError(detail: string)

  /** An error reported by the wallet's JSON-RPC client. Its content is never
      looked at by the gateway. */
  datatype RpcError = RpcError(message: string)

  /** An HTTP response: status code and plain-text body. */
  datatype Response = Response(status: nat, body: string)

  /** Conversion of any wallet RPC error into the gateway's taxonomy: whatever
      went wrong, the client sees a bare server error. */
  function FromRpc(e: RpcError): (r: Error)
    ensures StatusCode(r) == 500 && ErrorResponse(r).body == []
  {
    JsonRpcNotWorking
  }

  /** Failures that are the service's fault rather than the client's. */
  predicate IsServerFault(e: Error)
  {
    e.JsonRpcNotWorking? || e.OutOfMoney?
  }

  /** The HTTP status of each failure: 500 when the service is at fault,
      400 when the request is. */
  function StatusCode(e: Error): (code: nat)
    ensures code == 400 || code == 500
    ensures code == 500 <==> IsServerFault(e)
  {
    match e
    case JsonRpcNotWorking => 500
    case OutOfMoney => 500
    case InvalidAddress => 400
    case AmountTooLarge => 400
    case Dust => 400
    case CLNError(_) => 400
  }

  const OutOfMoneyBody := "We don't have enough money to handle this request right now\n"
  const InvalidAddressBody := "The informed address is not a valid bitcoin address\n"
  const AmountTooLargeBody := "The requested amount is too big\n"
  const DustBody := "The requested amount is too little\n"
  const CLNErrorPrefix := "Some problem with cln "

  /** The response sent to the client for each failure. */
  function ErrorResponse(e: Error): (r: Response)
    ensures r.status == StatusCode(e)
    ensures r.body == [] <==> e.JsonRpcNotWorking?
    ensures e.CLNError? ==> r.body == CLNErrorPrefix + e.detail
  {
    match e
    case JsonRpcNotWorking => Response(500, "")
    case OutOfMoney => Response(500, OutOfMoneyBody)
    case InvalidAddress => Response(400, InvalidAddressBody)
    case AmountTooLarge => Response(400, AmountTooLargeBody)
    case Dust => Response(400, DustBody)
    case CLNError(detail) => Response(400, CLNErrorPrefix + detail)
  }

  /** A client can tell every failure apart from its response alone: two
      failures answered with the same response are the same failure. */
  lemma ErrorResponseDistinguishes(e1: Error, e2: Error)
    requires ErrorResponse(e1) == ErrorResponse(e2)
    ensures e1 == e2
  {
    if e1.CLNError? || e2.CLNError? {
      var b := ErrorResponse(e1).body;
      // the fixed bodies each differ from the Lightning prefix at some
      // position inside it
      assert CLNErrorPrefix[0] == 'S' && CLNErrorPrefix[13] == 'w' && CLNErrorPrefix[21] == ' ';
      assert b[..|CLNErrorPrefix|] == ErrorResponse(e2).body[..|CLNErrorPrefix|];
      assert OutOfMoneyBody[21] == 'm' && InvalidAddressBody[13] == 'a';
      assert AmountTooLargeBody[0] == 'T' && DustBody[0] == 'T';
      assert e1.CLNError? && e2.CLNError?;
      assert e1.detail == b[|CLNErrorPrefix|..] == e2.detail;
    }
  }

  const CLNMessagePrefix := "some cln error: "

  /** The human-readable message of each failure (its `Display` form). */
  function Message(e: Error): (s: string)
    ensures |s| > 0
    ensures e.CLNError? ==> s == CLNMessagePrefix + e.detail
  {
    match e
    case JsonRpcNotWorking => "our bitcoin core isn't working"
    case OutOfMoney => "we ran out of money, sorry :/"
    case InvalidAddress => "the provided address is invalid"
    case AmountTooLarge => "the request amount is too large"
    case Dust => "the requested amount is too little"
    case CLNError(s) => CLNMessagePrefix + s
  }

  /** Every failure has its own message. */
  lemma MessageDistinguishes(e1: Error, e2: Error)
    requires Message(e1) == Message(e2)
    ensures e1 == e2
  {
    if e1.CLNError? || e2.CLNError? {
      var m := Message(e1);
      assert |CLNMessagePrefix| == 16 && CLNMessagePrefix[5] == 'c';
      assert m[5] == 'c';
      assert e1.CLNError? && e2.CLNError?;
      assert e1.detail == m[|CLNMessagePrefix|..] == e2.detail;
    }
  }
}
