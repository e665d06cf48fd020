/**
 * The on-chain send path of the faucet: validate the request, select coins
 * from the wallet's unspent outputs newest-last-first until the amount plus a
 * fixed fee is covered, build the outputs map, then have the wallet create,
 * sign and broadcast the transaction.
 *
 * Address parsing and the network check live in a library outside this
 * model, so they arrive as a function parameter; so does decoding the signed
 * transaction. The wallet daemon arrives as the outcome of each of its four
 * RPCs, as a function of the arguments the call is made with.
 */
module Send {
  import opened Wrappers
  import opened ApiError

  /** The fee reserved on top of the payment, in satoshis. */
  const FixedFee: nat := 1000

  /** The body of a request to send `amount` satoshis to `address`. */
  datatype SendMoney = SendMoney(address: string, amount: nat)

  /** The process-wide configuration of the faucet, read-only per request.
      `changeAddress` is the change address in its printed form. */
  datatype Config = Config(changeAddress: string, maxSendable: nat, minSendable: nat)

  /** What the address library makes of a string: not an address at all, or
      an address that is or is not usable on Signet. */
  datatype AddressParse = Unparsable | Parsed(validForSignet: bool)

  /** The library operations the send path relies on. */
  datatype Library = Library(
    parseAddress: string -> AddressParse,
    decodeTransaction: seq<bv8> -> Option<Transaction>)

  /** An unspent output listed by the wallet. */
  datatype Unspent = Unspent(txid: string, vout: nat, amount: nat)

  /** An input of the transaction to create. */
  datatype TxInput = TxInput(txid: string, vout: nat, sequence: Option<nat>)

  /** The outcome of coin selection: the inputs taken and their total value. */
  datatype Selection = Selection(inputs: seq<TxInput>, available: nat)

  /** A serialized transaction, opaque to the faucet. */
  datatype Transaction = Transaction(bytes: seq<bv8>)

  /** The wallet's answer to a signing request: the signed transaction as
      hex bytes and whether the wallet considers the signature complete. */
  datatype SignResult = SignResult(hex: seq<bv8>, complete: bool)

  /** The wallet daemon, as the outcome of each RPC the send path issues. */
  datatype Wallet = Wallet(
    listUnspent: Result<seq<Unspent>, RpcError>,
    createRawTransaction: (seq<TxInput>, map<string, nat>) -> Result<Transaction, RpcError>,
    signRawTransactionWithWallet: Transaction -> Result<SignResult, RpcError>,
    sendRawTransaction: Transaction -> Result<string, RpcError>)

  /** One RPC issued to the wallet, with the arguments that matter. */
  datatype Call =
    | ListUnspent
    | CreateRawTransaction(inputs: seq<TxInput>, outputs: map<string, nat>)
    | SignRawTransactionWithWallet(tx: Transaction)
    | SendRawTransaction(tx: Transaction)

  /** The position each RPC has in the send sequence. */
  function Step(c: Call): nat
  {
    match c
    case ListUnspent => 0
    case CreateRawTransaction(_, _) => 1
    case SignRawTransactionWithWallet(_) => 2
    case SendRawTransaction(_) => 3
  }

  predicate OnSignet(p: AddressParse)
  {
    p.Parsed? && p.validForSignet
  }

  /**
   * Request validation, in the order the checks are made: the address, then
   * the maximum, then the minimum. The minimum check rejects amounts ABOVE
   * the minimum, exactly as the faucet compares them.
   */
  function Validate(address: string, amount: nat, cfg: Config, parse: string -> AddressParse): (r: Outcome<Error>)
    // a bad address wins over every amount check
    ensures !OnSignet(parse(address)) ==> r == Fail(InvalidAddress)
    // a too-large amount wins over the dust check
    ensures OnSignet(parse(address)) && amount > cfg.maxSendable ==> r == Fail(AmountTooLarge)
    ensures OnSignet(parse(address)) && amount <= cfg.maxSendable && amount > cfg.minSendable ==> r == Fail(Dust)
    // what gets through is a Signet address and an amount within both bounds
    ensures r == Pass <==> OnSignet(parse(address)) && amount <= cfg.minSendable && amount <= cfg.maxSendable
  {
    if !OnSignet(parse(address)) then Fail(InvalidAddress)
    else if amount > cfg.maxSendable then Fail(AmountTooLarge)
    else if amount > cfg.minSendable then Fail(Dust)
    else Pass
  }

  // ---------------------------------------------------------------------------
  // Coin selection

  /** The total value of a list of unspent outputs. */
  function Total(s: seq<Unspent>): nat
  {
    if s == [] then 0 else Total(s[..|s| - 1]) + s[|s| - 1].amount
  }

  /** The first `k` entries taken off the END of `us`, in the order taken. */
  function Popped(us: seq<Unspent>, k: nat): (p: seq<Unspent>)
    requires k <= |us|
    ensures |p| == k
  {
    seq(k, i requires 0 <= i < k => us[|us| - 1 - i])
  }

  /** The transaction input that spends an unspent output. */
  function AsInput(u: Unspent): TxInput
  {
    TxInput(u.txid, u.vout, None)
  }

  /** The inputs spending each of `ps`, in order. */
  function InputsOf(ps: seq<Unspent>): (r: seq<TxInput>)
    ensures |r| == |ps|
  {
    seq(|ps|, i requires 0 <= i < |ps| => AsInput(ps[i]))
  }

  /**
   * `inputs` is what greedy last-first selection takes from `us` to reach
   * `target`: a non-empty run taken off the end, whose value reaches the
   * target, while everything taken before the last one did not.
   */
  ghost predicate Selects(us: seq<Unspent>, target: nat, inputs: seq<TxInput>)
  {
    var k := |inputs|;
    && 0 < k <= |us|
    && inputs == InputsOf(Popped(us, k))
    && Total(Popped(us, k)) >= target
    && Total(Popped(us, k - 1)) < target
  }

  lemma {:induction false} TotalFront(s: seq<Unspent>)
    requires |s| > 0
    ensures Total(s) == s[0].amount + Total(s[1..])
    decreases |s|
  {
    if |s| > 1 {
      TotalFront(s[..|s| - 1]);
      assert s[..|s| - 1][1..] == s[1..][..|s| - 2];
    }
  }

  /** Taking one more entry adds exactly its value. */
  lemma PoppedStep(us: seq<Unspent>, k: nat)
    requires k < |us|
    ensures Popped(us, k + 1) == Popped(us, k) + [us[|us| - 1 - k]]
    ensures Total(Popped(us, k + 1)) == Total(Popped(us, k)) + us[|us| - 1 - k].amount
  {
  }

  /** Taking one more entry adds exactly its input. */
  lemma InputsStep(us: seq<Unspent>, k: nat)
    requires k < |us|
    ensures InputsOf(Popped(us, k + 1)) == InputsOf(Popped(us, k)) + [AsInput(us[|us| - 1 - k])]
  {
  }

  /** What has been taken off the end is worth what that suffix is worth. */
  lemma {:induction false} TotalPopped(us: seq<Unspent>, k: nat)
    requires k <= |us|
    ensures Total(Popped(us, k)) == Total(us[|us| - k..])
  {
    if k > 0 {
      TotalPopped(us, k - 1);
      PoppedStep(us, k - 1);
      TotalFront(us[|us| - k..]);
      assert us[|us| - k..][1..] == us[|us| - (k - 1)..];
    }
  }

  /** Taking more never lowers the total taken. */
  lemma {:induction false} PoppedMonotone(us: seq<Unspent>, j: nat, k: nat)
    requires j <= k <= |us|
    ensures Total(Popped(us, j)) <= Total(Popped(us, k))
    decreases k - j
  {
    if j < k {
      PoppedStep(us, j);
      PoppedMonotone(us, j + 1, k);
    }
  }

  /** The greedy selection is determined by the list and the target. */
  lemma SelectionUnique(us: seq<Unspent>, target: nat, a: seq<TxInput>, b: seq<TxInput>)
    requires Selects(us, target, a) && Selects(us, target, b)
    ensures a == b
  {
    if |a| < |b| {
      PoppedMonotone(us, |a|, |b| - 1);
    } else if |b| < |a| {
      PoppedMonotone(us, |b|, |a| - 1);
    }
  }

  /**
   * Coin selection: take unspent outputs off the end of the list until their
   * value reaches `amount` plus the fixed fee. Fails with `OutOfMoney` when
   * the list runs out first. `remaining` is what is left of the list.
   */
  method SelectCoins(unspents: seq<Unspent>, amount: nat) returns (r: Result<Selection, Error>, remaining: seq<Unspent>)
    ensures r.Err? <==> Total(unspents) < amount + FixedFee
    ensures r.Err? ==> r.error == OutOfMoney && remaining == []
    ensures r.Ok? ==> && Selects(unspents, amount + FixedFee, r.value.inputs)
                      && r.value.available == Total(unspents[|unspents| - |r.value.inputs|..])
                      && r.value.available == Total(Popped(unspents, |r.value.inputs|))
                      && remaining == unspents[..|unspents| - |r.value.inputs|]
  {
    var pending := unspents;
    var available := 0;
    var inputs := [];
    while available < amount + FixedFee
      invariant |inputs| <= |unspents|
      invariant pending == unspents[..|unspents| - |inputs|]
      invariant inputs == InputsOf(Popped(unspents, |inputs|))
      invariant available == Total(Popped(unspents, |inputs|))
      invariant |inputs| > 0 ==> Total(Popped(unspents, |inputs| - 1)) < amount + FixedFee
      decreases |pending|
    {
      if pending == [] {
        TotalPopped(unspents, |unspents|);
        assert unspents[0..] == unspents;
        return Err(OutOfMoney), pending;
      }
      var unspent := pending[|pending| - 1];
      pending := pending[..|pending| - 1];
      PoppedStep(unspents, |inputs|);
      InputsStep(unspents, |inputs|);
      var utxo := TxInput(unspent.txid, unspent.vout, None);
      inputs := inputs + [utxo];
      available := available + unspent.amount;
    }
    TotalPopped(unspents, |inputs|);
    PoppedMonotone(unspents, |inputs|, |unspents|);
    TotalPopped(unspents, |unspents|);
    assert unspents[0..] == unspents;
    r := Ok(Selection(inputs, available));
    remaining := pending;
  }

  // ---------------------------------------------------------------------------
  // Outputs

  /**
   * The outputs map: the destination, keyed by the address exactly as the
   * client wrote it, gets the amount; the change address gets the surplus.
   * The change entry is inserted second, so when both keys are the same
   * string it replaces the payment.
   */
  function Outputs(destination: string, amount: nat, changeAddress: string, available: nat): (outs: map<string, nat>)
    requires available >= amount + FixedFee
    ensures outs.Keys == {destination, changeAddress}
    ensures outs[changeAddress] + amount + FixedFee == available
    ensures destination != changeAddress ==> outs[destination] == amount
    // on a collision the destination's payment is gone and the fee paid to
    // miners grows by the amount
    ensures destination == changeAddress ==> |outs| == 1 && outs[destination] + amount + FixedFee == available
  {
    map[destination := amount][changeAddress := available - (amount + FixedFee)]
  }

  /** A single 500 000 sat output pays 100 000 sat: it is the one input, and
      399 000 sat go back as change. */
  lemma SingleOutputPayment(txid: string, vout: nat, destination: string, changeAddress: string)
    requires destination != changeAddress
    ensures Selects([Unspent(txid, vout, 500_000)], 100_000 + FixedFee, [TxInput(txid, vout, None)])
    ensures Outputs(destination, 100_000, changeAddress, 500_000) == map[destination := 100_000, changeAddress := 399_000]
  {
  }

  // ---------------------------------------------------------------------------
  // Orchestration

  /**
   * Handle one send request: validate, list unspent outputs, select coins,
   * build the outputs, then create, sign and broadcast the transaction.
   * `trace` is every RPC issued to the wallet, in order; a failing call is
   * recorded and ends the request.
   */
  method SendToAddress(req: SendMoney, cfg: Config, lib: Library, wallet: Wallet)
    returns (result: Result<string, Error>, trace: seq<Call>)
    // the RPCs go out in the fixed order list, create, sign, send
    ensures |trace| <= 4
    ensures forall i :: 0 <= i < |trace| ==> Step(trace[i]) == i
    // validation comes first and no RPC is issued unless it passed
    ensures trace == [] <==> Validate(req.address, req.amount, cfg, lib.parseAddress).Fail?
    ensures trace == [] ==> result == Err(Validate(req.address, req.amount, cfg, lib.parseAddress).error)
    // client errors are exactly the failures that reach no RPC
    ensures result.Err? ==> (StatusCode(result.error) == 400 <==> trace == [])
    // listing unspent outputs: an RPC failure, or too little money
    ensures |trace| == 1 ==> result.Err?
    ensures |trace| >= 1 && wallet.listUnspent.Err? ==> |trace| == 1 && result == Err(JsonRpcNotWorking)
    ensures |trace| >= 1 && wallet.listUnspent.Ok? ==>
              (|trace| == 1 <==> result == Err(OutOfMoney)) &&
              (result == Err(OutOfMoney) <==> Total(wallet.listUnspent.value) < req.amount + FixedFee)
    // the transaction asked for spends the greedy selection and pays out its surplus
    ensures |trace| >= 2 ==>
              && wallet.listUnspent.Ok?
              && trace[1].CreateRawTransaction?
              && Selects(wallet.listUnspent.value, req.amount + FixedFee, trace[1].inputs)
              && trace[1].outputs == Outputs(req.address, req.amount, cfg.changeAddress,
                                             Total(Popped(wallet.listUnspent.value, |trace[1].inputs|)))
    ensures |trace| == 2 ==>
              && wallet.createRawTransaction(trace[1].inputs, trace[1].outputs).Err?
              && result == Err(JsonRpcNotWorking)
    // the created transaction is signed; a signing failure or a signed
    // transaction that does not decode ends the request
    ensures |trace| >= 3 ==>
              && wallet.createRawTransaction(trace[1].inputs, trace[1].outputs).Ok?
              && trace[2] == SignRawTransactionWithWallet(wallet.createRawTransaction(trace[1].inputs, trace[1].outputs).value)
    ensures |trace| == 3 ==>
              && (wallet.signRawTransactionWithWallet(trace[2].tx).Err? ||
                  lib.decodeTransaction(wallet.signRawTransactionWithWallet(trace[2].tx).value.hex).None?)
              && result == Err(JsonRpcNotWorking)
    // the decoded signed transaction is broadcast; its txid and a newline is the answer
    ensures |trace| == 4 ==>
              && wallet.signRawTransactionWithWallet(trace[2].tx).Ok?
              && trace[3].SendRawTransaction?
              && lib.decodeTransaction(wallet.signRawTransactionWithWallet(trace[2].tx).value.hex) == Some(trace[3].tx)
              && (wallet.sendRawTransaction(trace[3].tx).Ok? ==>
                    result == Ok(wallet.sendRawTransaction(trace[3].tx).value + "\n"))
              && (wallet.sendRawTransaction(trace[3].tx).Err? ==> result == Err(JsonRpcNotWorking))
    ensures result.Ok? ==> |trace| == 4
  {
    trace := [];
    var checked := Validate(req.address, req.amount, cfg, lib.parseAddress);
    if checked.Fail? {
      return Err(checked.error), trace;
    }

    trace := trace + [ListUnspent];
    var listed := wallet.listUnspent;
    if listed.Err? {
      return Err(FromRpc(listed.error)), trace;
    }

    var selected, _ := SelectCoins(listed.value, req.amount);
    if selected.Err? {
      return Err(selected.error), trace;
    }
    var inputs, available := selected.value.inputs, selected.value.available;

    var outs: map<string, nat> := map[];
    outs := outs[req.address := req.amount];
    outs := outs[cfg.changeAddress := available - (req.amount + FixedFee)];
    assert outs == Outputs(req.address, req.amount, cfg.changeAddress, available);

    trace := trace + [CreateRawTransaction(inputs, outs)];
    var created := wallet.createRawTransaction(inputs, outs);
    if created.Err? {
      return Err(FromRpc(created.error)), trace;
    }

    trace := trace + [SignRawTransactionWithWallet(created.value)];
    var signed := wallet.signRawTransactionWithWallet(created.value);
    if signed.Err? {
      return Err(FromRpc(signed.error)), trace;
    }
    var decoded := lib.decodeTransaction(signed.value.hex);
    if decoded.None? {
      return Err(JsonRpcNotWorking), trace;
    }

    trace := trace + [SendRawTransaction(decoded.value)];
    var sent := wallet.sendRawTransaction(decoded.value);
    if sent.Err? {
      return Err(FromRpc(sent.error)), trace;
    }
    result := Ok(sent.value + "\n");
  }
}
