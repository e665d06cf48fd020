# Faucet send path, modelled in Dafny

A model of the on-chain send path of a Signet faucet (`src/api.rs`). A client
asks the faucet to pay an address an amount. The faucet checks the address and
the amount, asks its wallet daemon for the unspent outputs, takes outputs off
the end of that list until they cover the amount plus a fixed 1 000 sat fee,
builds a two-entry outputs map (payment and change), and then has the wallet
create, sign and broadcast the transaction. Every failure is one kind of a
small error taxonomy, answered with a fixed HTTP status and body.

Files:

- `wrappers.dfy`: `Option`, `Result` and `Outcome`.
- `api_error.dfy` (module `ApiError`): the `Error` kinds, the conversion of
  wallet RPC errors, the HTTP status and response of each kind, and its
  `Display` message.
- `send.dfy` (module `Send`): request validation, the coin-selection loop,
  the outputs map and the whole request, with a trace of the RPCs it issues.

The wallet daemon is a `Wallet` value. It holds the outcome of
`listunspent` and, for `createrawtransaction`, `signrawtransactionwithwallet`
and `sendrawtransaction`, the outcome as a function of the call's arguments.
Address parsing with the Signet check, and decoding of the signed
transaction's hex, come from a library outside this model. They are the
function parameters `parseAddress` and `decodeTransaction`.

Two behaviours are modelled exactly as the code has them:

- The minimum check rejects amounts ABOVE the configured minimum with `Dust`
  (`amount > min_sendable_amount`). So only amounts up to both the minimum and
  the maximum reach the wallet (`Send.Validate`).
- The outputs map gets the payment first and the change second. When the
  destination string equals the printed change address, the change entry
  replaces the payment. The map then has one entry, and the amount is paid
  to miners as extra fee (`Send.Outputs`).

## Model

| member | source | states |
|---|---|---|
| `ApiError.FromRpc` | src/api.rs:53-57 | any wallet RPC error becomes a failure answered with status 500 and an empty body |
| `ApiError.StatusCode` | src/api.rs:92-102 | the status is 400 or 500, and it is 500 exactly for `JsonRpcNotWorking` and `OutOfMoney` |
| `ApiError.ErrorResponse` | src/api.rs:104-122 | the response carries the kind's status; the body is empty exactly for `JsonRpcNotWorking`; a Lightning error's body is the fixed prefix followed by the daemon's text |
| `ApiError.ErrorResponseDistinguishes` | src/api.rs:104-122 | two failures with the same response are the same failure, including the Lightning error's detail |
| `ApiError.Message` | src/api.rs:77-89 | every message is non-empty; a Lightning error's message is the fixed prefix followed by the daemon's text |
| `ApiError.MessageDistinguishes` | src/api.rs:77-89 | two failures with the same message are the same failure |
| `Send.Validate` | src/api.rs:145-157 | a non-Signet or unparsable address gives `InvalidAddress` whatever the amount; then an amount above the maximum gives `AmountTooLarge`; then an amount above the minimum gives `Dust`; a request passes exactly when its address is on Signet and its amount is at most both the minimum and the maximum |
| `Send.TotalPopped` | src/api.rs:163-173 | the outputs taken off the end of the list are worth what that suffix of the list is worth |
| `Send.PoppedMonotone` | src/api.rs:163-173 | taking more outputs never lowers the running total |
| `Send.SelectionUnique` | src/api.rs:163-173 | the list and the target determine the selection: two selections meeting the greedy criterion are equal |
| `Send.SelectCoins` | src/api.rs:159-174 | fails with `OutOfMoney` exactly when the whole list is worth less than amount plus fee, and then the list is emptied; on success the inputs are a non-empty run taken off the end of the list in pop order, each spending that entry's txid and vout with no sequence; their value reaches amount plus fee, the value of all but the last does not, the returned total is their value, and the rest of the list is untouched |
| `Send.Outputs` | src/api.rs:176-184 | the map has exactly the destination and change keys; change plus amount plus fee is the selected value; distinct keys give the destination exactly the amount; equal keys leave one entry, the change |
| `Send.SingleOutputPayment` | src/api.rs:160-184 | one 500 000 sat output paying 100 000 sat is the single input, with 399 000 sat of change |
| `Send.SendToAddress` | src/api.rs:136-195 | at most four RPCs, in the order list, create, sign, send; no RPC unless validation passed, and a validation failure is the result; a failure is a 400 exactly when no RPC was issued; a failing list, create, sign, decode or send gives `JsonRpcNotWorking` and ends the request; `OutOfMoney` comes exactly when the listed outputs fall short, with no create call; create receives the greedy selection and the outputs map of its value; sign receives the created transaction; send receives the decoded signed transaction; success is the broadcast txid followed by a newline, and only after all four calls |

## Left out

- HTTP plumbing: `create_api`, routing, CORS, the bind address and `index`
  with its read of `static/index.html` (src/api.rs:197-259). They are framework
  and I/O code.
- Address parsing and the Signet check (`Address::from_str`,
  `require_network`) are library code. They are the parameter
  `parseAddress`. The address's printed form (src/api.rs:149) is computed
  and then discarded by the source, so it is not modelled.
- Decoding the signed transaction (`.transaction()`) is library code. It is
  the parameter `decodeTransaction`. The wallet's `complete` flag is carried
  in `SignResult` but, as in the source, never consulted.
- The JSON-RPC transport is not modelled. Each wallet call is only its
  success or failure outcome. The optional arguments the source passes
  (`None` filters for `listunspent`, `Some(true)` for replaceability on
  create) are fixed and not modelled.
- Amounts are `nat`. The source's `u64` arithmetic (`amount + 1_000`,
  `available +=`) could overflow in principle, and that is not modelled.
- Concurrent requests racing for the same unspent outputs are not modelled.
  Each request starts from the listed outputs alone.
- The Lightning feature (`open_channel` in src/api.rs and
  src/open_channel.rs) is a lock around one library call, and it is not
  modelled. The funding request it sends fixes the lease value, the push
  amount, `announce = true` and `minconf = 0`. Only its `CLNError` kind is
  part of the error taxonomy here. The model treats the kind as always
  present, not behind a compile-time feature.
- src/main.rs is not part of this model. It reads the environment, picks
  default values, parses amounts and builds the clients at startup.
