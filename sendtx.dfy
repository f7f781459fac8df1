/** core/eth/sendtx.go: the fee policy of the self-transfer and of the blob
    transaction, and the loop that re-signs the blob transaction with a higher
    fee cap after each "replacement transaction underpriced" rejection.
    Everything the code asks of a node (nonce, fee suggestions, chain id),
    of cryptography (key, blobs, signing, hashing) or of the network is a
    field of the node record passed in. */
module SendTx {
  import opened Results
  import opened EthTypes
  import opened Text
  import Hex
  import Http
  import Eip4844
  import Bundle

  const PriorityFeeIncrement: nat := 20_000_000_000  // 20 gwei
  const MaxPriorityFee: nat := 1_000_000_000_000     // 50 * 20 gwei
  const RetryAttempts: nat := 5
  const BlobTxGasLimit: nat := 500_000
  const UnderpricedMessage: string := "replacement transaction underpriced"
  const TitanEndpoint: string := "http://holesky-rpc.titanbuilder.xyz/"

  /** What a signer gives back: the signature and the hash of the signed
      transaction (both produced by cryptography outside the model). */
  datatype Signature = Signature(bytes: seq<Byte>, txHash: Hash)

  // ---------------------------------------------------------------------
  // SelfETHTransfer

  datatype DynamicFeeTx = DynamicFeeTx(
    nonce: nat, to: Address, value: nat, gas: nat, gasFeeCap: nat, gasTipCap: nat, data: seq<Byte>)

  datatype SignedDynamicFeeTx = SignedDynamicFeeTx(tx: DynamicFeeTx, sig: Signature)

  datatype Fees = Fees(tipCap: nat, feeCap: nat)

  /** The self-transfer's fees: a tip of ten times the base fee, and a fee
      cap of ten times the tip. */
  function SelfTransferFees(baseFee: nat): (f: Fees)
    ensures f.tipCap == 10 * baseFee && f.feeCap == 100 * baseFee
    ensures f.feeCap >= f.tipCap
    ensures f.feeCap > f.tipCap <==> baseFee > 0
  {
    var tip := baseFee * 10;
    Fees(tip, tip * 10)
  }

  /** The calls SelfETHTransfer makes, with what each returns. */
  datatype TransferNode = TransferNode(
    pendingNonce: Result<nat, string>,
    latestBaseFee: Result<nat, string>,
    networkId: Result<nat, string>,
    sign: (DynamicFeeTx, nat) -> Result<Signature, string>,
    encodeRlp: SignedDynamicFeeTx -> Option<string>,
    send: SignedDynamicFeeTx -> Option<string>)

  function SelfTransferTx(nonce: nat, account: Address, value: nat, gasLimit: nat, baseFee: nat, data: seq<Byte>): DynamicFeeTx {
    var fees := SelfTransferFees(baseFee);
    DynamicFeeTx(nonce, account, value, gasLimit, fees.feeCap, fees.tipCap, data)
  }

  /** SelfETHTransfer: each failing call ends the transfer with that call's
      error, in the order the calls are made; on success the transaction
      that was sent is the one built from the nonce and the base fee, and
      the result is its hash in hex. */
  function SelfETHTransfer(node: TransferNode, account: Address, value: nat, gasLimit: nat, data: seq<Byte>): (r: Result<string, string>)
    ensures node.pendingNonce.Err? ==> r == Err(node.pendingNonce.error)
    ensures node.pendingNonce.Ok? && node.latestBaseFee.Err? ==> r == Err(node.latestBaseFee.error)
    ensures node.pendingNonce.Ok? && node.latestBaseFee.Ok? && node.networkId.Err? ==> r == Err(node.networkId.error)
    ensures node.pendingNonce.Ok? && node.latestBaseFee.Ok? && node.networkId.Ok? ==>
      var tx := SelfTransferTx(node.pendingNonce.value, account, value, gasLimit, node.latestBaseFee.value, data);
      var sig := node.sign(tx, node.networkId.value);
      && (sig.Err? ==> r == Err(sig.error))
      && (sig.Ok? ==>
            var signed := SignedDynamicFeeTx(tx, sig.value);
            && (node.encodeRlp(signed).Some? ==> r == Err(node.encodeRlp(signed).value))
            && (node.encodeRlp(signed).None? && node.send(signed).Some? ==> r == Err(node.send(signed).value))
            && (node.encodeRlp(signed).None? && node.send(signed).None? ==> r == Ok(Hex.EncodeData(sig.value.txHash))))
    ensures r.Ok? ==>
      && node.pendingNonce.Ok? && node.latestBaseFee.Ok? && node.networkId.Ok?
      && var tx := SelfTransferTx(node.pendingNonce.value, account, value, gasLimit, node.latestBaseFee.value, data);
      && node.sign(tx, node.networkId.value).Ok?
      && var signed := SignedDynamicFeeTx(tx, node.sign(tx, node.networkId.value).value);
      && node.encodeRlp(signed).None? && node.send(signed).None?
      && r.value == Hex.EncodeData(signed.sig.txHash)
  {
    match node.pendingNonce
    case Err(e) => Err(e)
    case Ok(nonce) =>
      match node.latestBaseFee
      case Err(e) => Err(e)
      case Ok(baseFee) =>
        match node.networkId
        case Err(e) => Err(e)
        case Ok(chainId) =>
          var tx := SelfTransferTx(nonce, account, value, gasLimit, baseFee, data);
          match node.sign(tx, chainId)
          case Err(e) => Err(e)
          case Ok(sig) =>
            var signed := SignedDynamicFeeTx(tx, sig);
            if node.encodeRlp(signed).Some? then Err(node.encodeRlp(signed).value)
            else if node.send(signed).Some? then Err(node.send(signed).value)
            else Ok(Hex.EncodeData(sig.txHash))
  }

  // ---------------------------------------------------------------------
  // suggestGasTipAndFeeCap

  /** Both suggestions are fetched; a failed tip suggestion is reported
      before a failed gas-price suggestion. */
  function SuggestGasTipAndFeeCap(tip: Result<nat, string>, gasPrice: Result<nat, string>): (r: Result<Fees, string>)
    ensures tip.Err? ==> r == Err(tip.error)
    ensures tip.Ok? && gasPrice.Err? ==> r == Err(gasPrice.error)
    ensures r.Ok? <==> tip.Ok? && gasPrice.Ok?
    ensures r.Ok? ==> r.value == Fees(tip.value, gasPrice.value)
  {
    if tip.Err? then Err(tip.error)
    else if gasPrice.Err? then Err(gasPrice.error)
    else Ok(Fees(tip.value, gasPrice.value))
  }

  // ---------------------------------------------------------------------
  // ExecuteBlobTransaction: fee derivation

  /** The blob fee cap: one unit above the chain's blob fee, then 10% more
      (rounded down). It is always strictly above the chain's blob fee. */
  function BlobFeeCap(chainBlobFee: nat): (r: nat)
    ensures r >= chainBlobFee + 1
    ensures r > chainBlobFee
    ensures r <= 2 * (chainBlobFee + 1)
  {
    (chainBlobFee + 1) * 110 / 100
  }

  /** The tip: the suggestion plus 20 gwei, but never above 50 * 20 gwei
      (1000 gwei; the source's comment says 0.5 gwei). */
  function AdjustedTip(suggested: nat): (r: nat)
    ensures PriorityFeeIncrement <= r <= MaxPriorityFee
    ensures r <= suggested + PriorityFeeIncrement
    ensures r == suggested + PriorityFeeIncrement || r == MaxPriorityFee
  {
    var t := suggested + PriorityFeeIncrement;
    var limit := PriorityFeeIncrement * 50;
    if t > limit then limit else t
  }

  /** The first fee cap: twice the tip, plus one when the suggested gas price
      does not exceed twice the tip. It is above any positive tip. */
  function InitialFeeCap(tip: nat, suggestedGasPrice: nat): (r: nat)
    ensures r == 2 * tip || r == 2 * tip + 1
    ensures r == 2 * tip + 1 <==> suggestedGasPrice <= 2 * tip
    ensures tip > 0 ==> r > tip
  {
    var cap := tip * 2;
    if suggestedGasPrice <= cap then cap + 1 else cap
  }

  /** One replacement step: the fee cap times 105, divided by 100. */
  function Bump(feeCap: nat): (r: nat)
    ensures feeCap <= r <= 2 * feeCap
    ensures feeCap >= 20 ==> r > feeCap
  {
    feeCap * 105 / 100
  }

  /** The fee cap after `k` replacement steps. */
  function BumpN(feeCap: nat, k: nat): nat {
    if k == 0 then feeCap else Bump(BumpN(feeCap, k - 1))
  }

  lemma {:induction false} BumpNBounds(feeCap: nat, k: nat)
    ensures feeCap <= BumpN(feeCap, k) <= feeCap * Pow2(k)
  {
    if k > 0 {
      BumpNBounds(feeCap, k - 1);
      var prev := BumpN(feeCap, k - 1);
      assert BumpN(feeCap, k) == Bump(prev);
      assert Pow2(k) == 2 * Pow2(k - 1);
      DoubleFactor(feeCap, Pow2(k - 1));
    }
  }

  lemma DoubleFactor(a: nat, b: nat)
    ensures a * (2 * b) == 2 * (a * b)
  {
  }

  /** Once the fee cap is at least 20 wei, every replacement raises it: the
      fee caps of successive attempts are strictly increasing. */
  lemma {:induction false} BumpNIncreasing(feeCap: nat, j: nat, k: nat)
    requires feeCap >= 20 && j < k
    ensures BumpN(feeCap, j) < BumpN(feeCap, k)
  {
    BumpNBounds(feeCap, k - 1);
    if j < k - 1 {
      BumpNIncreasing(feeCap, j, k - 1);
    }
  }

  // ---------------------------------------------------------------------
  // ExecuteBlobTransaction: the transaction, the node and the outcome

  datatype BlobTx = BlobTx(
    chainId: nat, nonce: nat, gasTipCap: nat, gasFeeCap: nat, gas: nat,
    to: Address, blobFeeCap: nat, blobHashes: seq<Hash>)

  datatype SignedBlobTx = SignedBlobTx(tx: BlobTx, sig: Signature)

  /** The parent header fields the fee policy reads (the source dereferences
      both blob fields, so they must be present). */
  datatype ParentHeader = ParentHeader(number: nat, excessBlobGas: Option<nat>, blobGasUsed: Option<nat>)

  /** The outside world of ExecuteBlobTransaction: the key's form and
      address, what the node answers, the versioned hashes of the random
      blobs, the signer, and the pieces sendBundle uses. */
  datatype BlobNode = BlobNode(
    publicKeyIsEcdsa: bool,
    fromAddress: Address,
    chainId: Result<nat, string>,
    pendingNonce: Result<nat, string>,
    suggestedTip: Result<nat, string>,
    suggestedGasPrice: Result<nat, string>,
    blobHashes: seq<Hash>,
    transactorError: Option<string>,
    sign: BlobTx -> Result<Signature, string>,
    marshalBinary: SignedBlobTx -> Result<seq<Byte>, string>,
    marshalJson: Bundle.FlashbotsPayload -> Result<string, string>,
    post: (string, string) -> Http.Reply)

  datatype TxError =
    | PublicKeyNotEcdsa
    | Upstream(message: string)
    | ReplaceFailed(attempts: nat, cause: string)

  datatype BlobOutcome =
    | Submitted(txHash: string, targetBlock: nat)
    | Failed(err: TxError)
    | Crashed(reason: string)

  datatype Prepared = Stop(outcome: BlobOutcome) | Ready(signed: SignedBlobTx)

  predicate HasBlobFields(parent: ParentHeader) {
    parent.excessBlobGas.Some? && parent.blobGasUsed.Some?
  }

  /** The chain's blob fee for the block after `parent`. */
  function ParentBlobFee(parent: ParentHeader): nat
    requires HasBlobFields(parent)
  {
    Eip4844.CalcBlobFee(Eip4844.CalcExcessBlobGas(parent.excessBlobGas.value, parent.blobGasUsed.value))
  }

  /** The transaction ExecuteBlobTransaction builds before the first send. */
  function InitialBlobTx(node: BlobNode, parent: ParentHeader, chainId: nat, nonce: nat, suggested: Fees): BlobTx
    requires HasBlobFields(parent)
  {
    var tip := AdjustedTip(suggested.tipCap);
    BlobTx(chainId, nonce, tip, InitialFeeCap(tip, suggested.feeCap), BlobTxGasLimit,
           node.fromAddress, BlobFeeCap(ParentBlobFee(parent)), node.blobHashes)
  }

  /** Every query ExecuteBlobTransaction makes before building the
      transaction has answered. */
  predicate QueriesAnswered(node: BlobNode) {
    node.publicKeyIsEcdsa && node.chainId.Ok? && node.pendingNonce.Ok?
    && node.suggestedTip.Ok? && node.suggestedGasPrice.Ok?
  }

  /** The transaction built from those answers. */
  function FirstBlobTx(node: BlobNode, parent: ParentHeader): BlobTx
    requires HasBlobFields(parent) && QueriesAnswered(node)
  {
    InitialBlobTx(node, parent, node.chainId.value, node.pendingNonce.value,
                  Fees(node.suggestedTip.value, node.suggestedGasPrice.value))
  }

  /** The panic of uint256.MustFromBig on a value of 2^256 or more. */
  const U256Overflow: string := "uint256 overflow"

  /** Lines 136-244 of ExecuteBlobTransaction: everything before the first
      send, ending either with an outcome or with the signed transaction. */
  function PrepareBlobTx(node: BlobNode, parent: ParentHeader): (p: Prepared)
    requires HasBlobFields(parent)
    ensures !node.publicKeyIsEcdsa ==> p == Stop(Failed(PublicKeyNotEcdsa))
    ensures node.publicKeyIsEcdsa && node.chainId.Err? ==> p == Stop(Failed(Upstream(node.chainId.error)))
    ensures node.publicKeyIsEcdsa && node.chainId.Ok? && node.pendingNonce.Err?
      ==> p == Stop(Failed(Upstream(node.pendingNonce.error)))
    ensures node.publicKeyIsEcdsa && node.chainId.Ok? && node.pendingNonce.Ok? && node.suggestedTip.Err?
      ==> p == Stop(Failed(Upstream(node.suggestedTip.error)))
    ensures node.publicKeyIsEcdsa && node.chainId.Ok? && node.pendingNonce.Ok? && node.suggestedTip.Ok? && node.suggestedGasPrice.Err?
      ==> p == Stop(Failed(Upstream(node.suggestedGasPrice.error)))
    ensures QueriesAnswered(node) ==>
      var tx := FirstBlobTx(node, parent);
      && (!IsU256(tx.chainId) || !IsU256(tx.blobFeeCap) ==> p == Stop(Crashed(U256Overflow)))
      && (IsU256(tx.chainId) && IsU256(tx.blobFeeCap) ==>
            && (node.transactorError.Some? ==> p == Stop(Failed(Upstream(node.transactorError.value))))
            && (node.transactorError.None? && node.sign(tx).Err? ==> p == Stop(Failed(Upstream(node.sign(tx).error))))
            && (node.transactorError.None? && node.sign(tx).Ok? ==> p == Ready(SignedBlobTx(tx, node.sign(tx).value))))
    ensures p.Ready? ==>
      && node.chainId.Ok? && node.pendingNonce.Ok? && node.suggestedTip.Ok? && node.suggestedGasPrice.Ok?
      && p.signed.tx == InitialBlobTx(node, parent, node.chainId.value, node.pendingNonce.value,
                                       Fees(node.suggestedTip.value, node.suggestedGasPrice.value))
      && node.sign(p.signed.tx) == Ok(p.signed.sig)
  {
    if !node.publicKeyIsEcdsa then Stop(Failed(PublicKeyNotEcdsa))
    else match node.chainId
    case Err(e) => Stop(Failed(Upstream(e)))
    case Ok(chainId) =>
      match node.pendingNonce
      case Err(e) => Stop(Failed(Upstream(e)))
      case Ok(nonce) =>
        match SuggestGasTipAndFeeCap(node.suggestedTip, node.suggestedGasPrice)
        case Err(e) => Stop(Failed(Upstream(e)))
        case Ok(suggested) =>
          var tx := InitialBlobTx(node, parent, chainId, nonce, suggested);
          if !IsU256(tx.chainId) || !IsU256(tx.blobFeeCap) then Stop(Crashed(U256Overflow))
          else if node.transactorError.Some? then Stop(Failed(Upstream(node.transactorError.value)))
          else match node.sign(tx)
            case Err(e) => Stop(Failed(Upstream(e)))
            case Ok(sig) => Ready(SignedBlobTx(tx, sig))
  }

  /** The fee facts of the transaction that is first sent: the tip lies
      between 20 and 1000 gwei, the fee cap is above the tip, the blob fee
      cap is above the chain's blob fee, and the other fields are the
      node's answers. */
  lemma PreparedTxFees(node: BlobNode, parent: ParentHeader)
    requires HasBlobFields(parent) && PrepareBlobTx(node, parent).Ready?
    ensures var tx := PrepareBlobTx(node, parent).signed.tx;
      && PriorityFeeIncrement <= tx.gasTipCap <= MaxPriorityFee
      && tx.gasFeeCap > tx.gasTipCap
      && tx.gasFeeCap <= 2 * MaxPriorityFee + 1
      && tx.blobFeeCap > ParentBlobFee(parent)
      && tx.chainId == node.chainId.value && tx.nonce == node.pendingNonce.value
      && tx.gas == BlobTxGasLimit && tx.to == node.fromAddress && tx.blobHashes == node.blobHashes
  {
  }

  /** No replacement can push the fee cap past 256 bits, so the source's
      uint256 conversions of the fee cap never fail. */
  lemma FeeCapsFitU256(feeCap: nat, k: nat)
    requires feeCap <= 2 * MaxPriorityFee + 1 && k <= RetryAttempts
    ensures IsU256(BumpN(feeCap, k))
  {
    BumpNBounds(feeCap, k);
    var p := Pow2(k);
    assert p <= 32 by {
      assert Pow2(5) == 32;
      if k < 5 { Pow2Mono(k, 5); }
    }
    Eip4844.MulMono(feeCap, p, 32);
    assert BumpN(feeCap, k) <= feeCap * 32;
    assert feeCap * 32 <= (2 * MaxPriorityFee + 1) * 32;
  }

  lemma {:induction false} Pow2Mono(j: nat, k: nat)
    requires j <= k
    ensures Pow2(j) <= Pow2(k)
  {
    if j < k {
      Pow2Mono(j, k - 1);
    }
  }

  // ---------------------------------------------------------------------
  // ExecuteBlobTransaction: the replacement loop (lines 246-286)

  /** One send: sendBundle to `url` for block `block`. */
  function SendAttempt(signed: SignedBlobTx, url: string, block: nat, node: BlobNode): Bundle.SendOutcome
    requires IsU64(block)
  {
    Bundle.SendBundle(url, signed, block, node.marshalBinary, node.marshalJson, node.post)
  }

  /** The sends of one ExecuteBlobTransaction call, all to the same URL and
      for the same block. */
  function Sender(url: string, block: nat, node: BlobNode): SignedBlobTx -> Bundle.SendOutcome
    requires IsU64(block)
  {
    s => SendAttempt(s, url, block, node)
  }

  predicate Underpriced(o: Bundle.SendOutcome) {
    o.Failed? && Contains(o.message, UnderpricedMessage)
  }

  /** How the loop ends: with the transaction held in `signedTx` and the
      error held in `err`, with a failed re-sign, or with the process
      exiting inside sendBundle. */
  datatype RetryStop =
    | Finished(last: SignedBlobTx, err: Option<string>)
    | SignFailed(message: string)
    | Exited(reason: string)

  /** The transactions sent, in order, and how the loop ended. */
  datatype RetryRun = RetryRun(sent: seq<SignedBlobTx>, stop: RetryStop)

  /** The transaction re-signed after an underpriced rejection: the same
      transaction with its fee cap bumped once. */
  function Rebid(signed: SignedBlobTx): BlobTx {
    signed.tx.(gasFeeCap := Bump(signed.tx.gasFeeCap))
  }

  /** The loop as written, from iteration `i` on with `signed` in hand. After
      an underpriced rejection the fee cap is bumped and the transaction
      re-signed; the re-sign's nil error replaces the send's error, so when
      the last iteration is rejected the loop ends with no error and with a
      transaction that was never sent. */
  function RetryFrom(i: nat, signed: SignedBlobTx, send: SignedBlobTx -> Bundle.SendOutcome,
                     sign: BlobTx -> Result<Signature, string>): (run: RetryRun)
    requires i < RetryAttempts
    decreases RetryAttempts - i
  {
    var outcome := send(signed);
    if Underpriced(outcome) then
      var tx := Rebid(signed);
      match sign(tx)
      case Err(e) => RetryRun([signed], SignFailed(e))
      case Ok(sig) =>
        if i + 1 < RetryAttempts then
          var rest := RetryFrom(i + 1, SignedBlobTx(tx, sig), send, sign);
          RetryRun([signed] + rest.sent, rest.stop)
        else
          RetryRun([signed], Finished(SignedBlobTx(tx, sig), None))
    else if outcome.Exited? then RetryRun([signed], Exited(outcome.reason))
    else if outcome.Failed? then RetryRun([signed], Finished(signed, Some(outcome.message)))
    else RetryRun([signed], Finished(signed, None))
  }

  /** Bumping and then bumping k more times is bumping k+1 times. */
  lemma {:induction false} BumpNShift(feeCap: nat, k: nat)
    ensures BumpN(Bump(feeCap), k) == BumpN(feeCap, k + 1)
  {
    if k > 0 {
      BumpNShift(feeCap, k - 1);
    }
  }

  /** The shape of every run: between one and five sends (fewer when
      starting later), the first send is the transaction in hand, and the
      k-th send differs from it only in a fee cap bumped k times. */
  lemma {:induction false} RetryShape(i: nat, signed: SignedBlobTx, send: SignedBlobTx -> Bundle.SendOutcome,
                                      sign: BlobTx -> Result<Signature, string>)
    requires i < RetryAttempts
    ensures var run := RetryFrom(i, signed, send, sign);
      && 1 <= |run.sent| <= RetryAttempts - i
      && run.sent[0] == signed
      && (forall k :: 0 <= k < |run.sent| ==>
            run.sent[k].tx == signed.tx.(gasFeeCap := BumpN(signed.tx.gasFeeCap, k)))
    decreases RetryAttempts - i
  {
    var run := RetryFrom(i, signed, send, sign);
    if Underpriced(send(signed)) && i + 1 < RetryAttempts && sign(Rebid(signed)).Ok? {
      var next := SignedBlobTx(Rebid(signed), sign(Rebid(signed)).value);
      var rest := RetryFrom(i + 1, next, send, sign);
      RetryShape(i + 1, next, send, sign);
      assert run.sent == [signed] + rest.sent;
      forall k | 0 <= k < |run.sent|
        ensures run.sent[k].tx == signed.tx.(gasFeeCap := BumpN(signed.tx.gasFeeCap, k))
      {
        if k > 0 {
          assert run.sent[k] == rest.sent[k - 1];
          BumpNShift(signed.tx.gasFeeCap, k - 1);
        }
      }
    } else {
      assert |run.sent| == 1;
    }
  }

  /** Only an underpriced rejection leads to another send: every send but
      the last was rejected as underpriced. */
  lemma {:induction false} RetryRejectedBeforeLast(i: nat, signed: SignedBlobTx, send: SignedBlobTx -> Bundle.SendOutcome,
                                                   sign: BlobTx -> Result<Signature, string>)
    requires i < RetryAttempts
    ensures var run := RetryFrom(i, signed, send, sign);
      forall k :: 0 <= k < |run.sent| - 1 ==> Underpriced(send(run.sent[k]))
    decreases RetryAttempts - i
  {
    var run := RetryFrom(i, signed, send, sign);
    if Underpriced(send(signed)) && i + 1 < RetryAttempts && sign(Rebid(signed)).Ok? {
      var next := SignedBlobTx(Rebid(signed), sign(Rebid(signed)).value);
      var rest := RetryFrom(i + 1, next, send, sign);
      RetryRejectedBeforeLast(i + 1, next, send, sign);
      assert run.sent == [signed] + rest.sent;
      forall k | 0 <= k < |run.sent| - 1 ensures Underpriced(send(run.sent[k])) {
        if k == 0 {
          assert run.sent[0] == signed;
        } else {
          assert run.sent[k] == rest.sent[k - 1] && k - 1 < |rest.sent| - 1;
        }
      }
    } else {
      assert |run.sent| == 1;
    }
  }

  /** How a run ends, read off its last send: a send that was not rejected
      as underpriced ends the run with that send's result (the wrapped error,
      success, or the process exiting); an underpriced last send means either
      the re-sign failed or all attempts were used up, and then the run
      reports NO error together with the re-bid of the last transaction
      sent. */
  lemma {:induction false} RetryStopCases(i: nat, signed: SignedBlobTx, send: SignedBlobTx -> Bundle.SendOutcome,
                                          sign: BlobTx -> Result<Signature, string>)
    requires i < RetryAttempts
    ensures var run := RetryFrom(i, signed, send, sign);
      |run.sent| >= 1 &&
      var last := run.sent[|run.sent| - 1];
      var outcome := send(last);
      && (outcome.Delivered? ==> run.stop == Finished(last, None))
      && (outcome.Exited? ==> run.stop == Exited(outcome.reason))
      && (outcome.Failed? && !Underpriced(outcome) ==> run.stop == Finished(last, Some(outcome.message)))
      && (Underpriced(outcome) && sign(Rebid(last)).Err? ==> run.stop == SignFailed(sign(Rebid(last)).error))
      && (Underpriced(outcome) && sign(Rebid(last)).Ok? ==>
            |run.sent| == RetryAttempts - i
            && run.stop == Finished(SignedBlobTx(Rebid(last), sign(Rebid(last)).value), None))
    decreases RetryAttempts - i
  {
    if Underpriced(send(signed)) && i + 1 < RetryAttempts && sign(Rebid(signed)).Ok? {
      var next := SignedBlobTx(Rebid(signed), sign(Rebid(signed)).value);
      RetryStopCases(i + 1, next, send, sign);
      var run := RetryFrom(i, signed, send, sign);
      var rest := RetryFrom(i + 1, next, send, sign);
      assert run.sent == [signed] + rest.sent;
      assert run.sent[|run.sent| - 1] == rest.sent[|rest.sent| - 1];
    }
  }

  lemma {:induction false} AllRejectedRunsOut(i: nat, signed: SignedBlobTx, send: SignedBlobTx -> Bundle.SendOutcome,
                                              sign: BlobTx -> Result<Signature, string>)
    requires i < RetryAttempts
    requires forall s :: Underpriced(send(s))
    requires forall t :: sign(t).Ok?
    ensures |RetryFrom(i, signed, send, sign).sent| == RetryAttempts - i
    decreases RetryAttempts - i
  {
    assert Underpriced(send(signed));
    if i + 1 < RetryAttempts {
      assert sign(Rebid(signed)).Ok?;
      AllRejectedRunsOut(i + 1, SignedBlobTx(Rebid(signed), sign(Rebid(signed)).value), send, sign);
    }
  }

  /** The finding at line 275: when every send is rejected as underpriced and
      every re-sign succeeds, the loop makes all five sends and then reports
      success for a transaction that was never sent (its fee cap is above
      that of every transaction that was). */
  lemma ExhaustedReportsSuccess(signed: SignedBlobTx, send: SignedBlobTx -> Bundle.SendOutcome,
                                sign: BlobTx -> Result<Signature, string>)
    requires signed.tx.gasFeeCap >= 20
    requires forall s :: Underpriced(send(s))
    requires forall t :: sign(t).Ok?
    ensures var run := RetryFrom(0, signed, send, sign);
      && |run.sent| == RetryAttempts
      && run.stop.Finished? && run.stop.err.None?
      && run.stop.last !in run.sent
  {
    var run := RetryFrom(0, signed, send, sign);
    AllRejectedRunsOut(0, signed, send, sign);
    RetryShape(0, signed, send, sign);
    RetryStopCases(0, signed, send, sign);
    var last := run.sent[|run.sent| - 1];
    assert Underpriced(send(last)) && sign(Rebid(last)).Ok?;
    var f := signed.tx.gasFeeCap;
    BumpNShift(f, RetryAttempts - 1);
    assert run.stop.last.tx.gasFeeCap == BumpN(f, RetryAttempts);
    forall k | 0 <= k < |run.sent| ensures run.sent[k] != run.stop.last {
      BumpNIncreasing(f, k, RetryAttempts);
    }
  }

  /** sendBundle reports an error only when JSON marshalling fails, so with
      an encoder that never fails no send is ever "underpriced": the loop
      sends exactly once and never raises the fee cap. */
  lemma SingleSendWhenJsonEncodes(signed: SignedBlobTx, url: string, block: nat, node: BlobNode)
    requires IsU64(block)
    requires forall p :: node.marshalJson(p).Ok?
    ensures var run := RetryFrom(0, signed, Sender(url, block, node), node.sign);
      && run.sent == [signed]
      && (run.stop.Finished? ==> run.stop == Finished(signed, None))
  {
    var outcome := SendAttempt(signed, url, block, node);
    assert !outcome.Failed?;
    assert Sender(url, block, node)(signed) == outcome;
  }

  /** The loop with the evident intent: the re-sign keeps its own error, so a
      last underpriced rejection is still in `err` when the loop ends. */
  function RetryFromChecked(i: nat, signed: SignedBlobTx, send: SignedBlobTx -> Bundle.SendOutcome,
                            sign: BlobTx -> Result<Signature, string>): (run: RetryRun)
    requires i < RetryAttempts
    decreases RetryAttempts - i
  {
    var outcome := send(signed);
    if Underpriced(outcome) then
      var tx := Rebid(signed);
      match sign(tx)
      case Err(e) => RetryRun([signed], SignFailed(e))
      case Ok(sig) =>
        if i + 1 < RetryAttempts then
          var rest := RetryFromChecked(i + 1, SignedBlobTx(tx, sig), send, sign);
          RetryRun([signed] + rest.sent, rest.stop)
        else
          RetryRun([signed], Finished(SignedBlobTx(tx, sig), Some(outcome.message)))
    else if outcome.Exited? then RetryRun([signed], Exited(outcome.reason))
    else if outcome.Failed? then RetryRun([signed], Finished(signed, Some(outcome.message)))
    else RetryRun([signed], Finished(signed, None))
  }

  /** In the corrected loop, success is reported exactly when the last
      transaction sent was delivered, and then for that transaction. */
  lemma {:induction false} CheckedSuccessWasDelivered(i: nat, signed: SignedBlobTx, send: SignedBlobTx -> Bundle.SendOutcome,
                                                      sign: BlobTx -> Result<Signature, string>)
    requires i < RetryAttempts
    ensures var run := RetryFromChecked(i, signed, send, sign);
      && |run.sent| >= 1
      && (run.stop.Finished? && run.stop.err.None? <==> send(run.sent[|run.sent| - 1]).Delivered?)
      && (run.stop.Finished? && run.stop.err.None? ==> run.stop.last == run.sent[|run.sent| - 1])
    decreases RetryAttempts - i
  {
    if Underpriced(send(signed)) && i + 1 < RetryAttempts && sign(Rebid(signed)).Ok? {
      var next := SignedBlobTx(Rebid(signed), sign(Rebid(signed)).value);
      CheckedSuccessWasDelivered(i + 1, next, send, sign);
      var run := RetryFromChecked(i, signed, send, sign);
      var rest := RetryFromChecked(i + 1, next, send, sign);
      assert run.sent == [signed] + rest.sent;
      assert run.sent[|run.sent| - 1] == rest.sent[|rest.sent| - 1];
    }
  }

  /** What is left of the run from iteration `i` on; past the last
      iteration nothing more is sent and the loop ends without error. */
  function Remaining(i: nat, signed: SignedBlobTx, send: SignedBlobTx -> Bundle.SendOutcome,
                     sign: BlobTx -> Result<Signature, string>): RetryRun
  {
    if i < RetryAttempts then RetryFrom(i, signed, send, sign) else RetryRun([], Finished(signed, None))
  }

  lemma RemainingAfterRebid(i: nat, signed: SignedBlobTx, send: SignedBlobTx -> Bundle.SendOutcome,
                            sign: BlobTx -> Result<Signature, string>)
    requires i < RetryAttempts && Underpriced(send(signed)) && sign(Rebid(signed)).Ok?
    ensures var rest := Remaining(i + 1, SignedBlobTx(Rebid(signed), sign(Rebid(signed)).value), send, sign);
      Remaining(i, signed, send, sign) == RetryRun([signed] + rest.sent, rest.stop)
  {
  }

  /** The loop of lines 246-282 as the source runs it: `feeCap`, `signedTx`
      and `err` are reassigned on each iteration. Its result is the run the
      function RetryFrom describes. */
  method SendWithReplacement(first: SignedBlobTx, send: SignedBlobTx -> Bundle.SendOutcome,
                             sign: BlobTx -> Result<Signature, string>)
    returns (stop: RetryStop, ghost sent: seq<SignedBlobTx>)
    ensures RetryRun(sent, stop) == RetryFrom(0, first, send, sign)
  {
    var feeCap := first.tx.gasFeeCap;
    var signedTx := first;
    var err: Option<string> := None;
    sent := [];
    var i := 0;
    while i < RetryAttempts
      invariant 0 <= i <= RetryAttempts
      invariant signedTx.tx.gasFeeCap == feeCap && err == None
      invariant var rest := Remaining(i, signedTx, send, sign);
        RetryRun(sent + rest.sent, rest.stop) == RetryFrom(0, first, send, sign)
    {
      ghost var earlier := sent;
      ghost var before := Remaining(i, signedTx, send, sign);
      var outcome := send(signedTx);
      sent := sent + [signedTx];
      if outcome.Exited? {
        stop := Exited(outcome.reason);
        assert before == RetryRun([signedTx], stop);
        return;
      }
      if !Underpriced(outcome) {
        err := if outcome.Failed? then Some(outcome.message) else None;
        assert before == RetryRun([signedTx], Finished(signedTx, err));
        break;
      }
      feeCap := Bump(feeCap);
      var tx := signedTx.tx.(gasFeeCap := feeCap);
      var signature := sign(tx);
      if signature.Err? {
        stop := SignFailed(signature.error);
        assert before == RetryRun([signedTx], stop);
        return;
      }
      RemainingAfterRebid(i, signedTx, send, sign);
      signedTx := SignedBlobTx(tx, signature.value);
      ghost var rest := Remaining(i + 1, signedTx, send, sign);
      assert earlier + before.sent == sent + rest.sent;
      i := i + 1;
    }
    if i == RetryAttempts {
      assert Remaining(i, signedTx, send, sign).sent == [];
      assert sent + [] == sent;
    }
    stop := Finished(signedTx, err);
  }

  /** How the end of the loop becomes the function's result (lines 284-307). */
  function Conclude(stop: RetryStop, targetBlock: nat): BlobOutcome {
    match stop
    case Finished(last, None) => Submitted(Hex.EncodeData(last.sig.txHash), targetBlock)
    case Finished(_, Some(e)) => Failed(ReplaceFailed(RetryAttempts, e))
    case SignFailed(e) => Failed(Upstream(e))
    case Exited(reason) => Crashed(reason)
  }

  function SendUrl(private: bool, rpcEndpoint: string): string {
    if private then TitanEndpoint else rpcEndpoint
  }

  /** The run of the replacement loop for one ExecuteBlobTransaction call. */
  function BlobRun(node: BlobNode, rpcEndpoint: string, parent: ParentHeader, private: bool, offset: nat): RetryRun
    requires HasBlobFields(parent) && IsU64(parent.number) && IsU64(offset)
    requires PrepareBlobTx(node, parent).Ready?
  {
    RetryFrom(0, PrepareBlobTx(node, parent).signed,
              Sender(SendUrl(private, rpcEndpoint), AddU64(parent.number, offset), node), node.sign)
  }

  /** ExecuteBlobTransaction. The bundle targets the parent's number plus
      `offset` (uint64 addition), which is also the block returned. */
  method ExecuteBlobTransaction(node: BlobNode, rpcEndpoint: string, parent: ParentHeader, private: bool, offset: nat)
    returns (r: BlobOutcome)
    requires HasBlobFields(parent) && IsU64(parent.number) && IsU64(offset)
    ensures r.Submitted? ==> r.targetBlock == AddU64(parent.number, offset)
    ensures PrepareBlobTx(node, parent).Stop? ==> r == PrepareBlobTx(node, parent).outcome
    ensures PrepareBlobTx(node, parent).Ready? ==>
      r == Conclude(BlobRun(node, rpcEndpoint, parent, private, offset).stop, AddU64(parent.number, offset))
  {
    var prepared := PrepareBlobTx(node, parent);
    if prepared.Stop? {
      return prepared.outcome;
    }
    var target := AddU64(parent.number, offset);
    var url := SendUrl(private, rpcEndpoint);
    var stop, sent := SendWithReplacement(prepared.signed, Sender(url, target, node), node.sign);
    if stop.Finished? && stop.err.Some? {
      return Failed(ReplaceFailed(RetryAttempts, stop.err.value));
    }
    r := Conclude(stop, target);
  }

  /** A run that finishes holds the first transaction with its fee cap
      bumped at most five times. */
  lemma FinishedHoldsRebid(first: SignedBlobTx, send: SignedBlobTx -> Bundle.SendOutcome,
                           sign: BlobTx -> Result<Signature, string>)
    ensures var run := RetryFrom(0, first, send, sign);
      run.stop.Finished? ==>
        exists k :: 0 <= k <= RetryAttempts && run.stop.last.tx == first.tx.(gasFeeCap := BumpN(first.tx.gasFeeCap, k))
  {
    var run := RetryFrom(0, first, send, sign);
    RetryShape(0, first, send, sign);
    RetryStopCases(0, first, send, sign);
    if run.stop.Finished? {
      var last := run.sent[|run.sent| - 1];
      assert run.stop.last == last || run.stop.last.tx == Rebid(last);
      LastHeldIsBumped(run, first.tx);
    }
  }

  /** The step of FinishedHoldsRebid that is about the run only: the held
      transaction is the last one sent or its re-bid. */
  lemma LastHeldIsBumped(run: RetryRun, first: BlobTx)
    requires 1 <= |run.sent| <= RetryAttempts && run.stop.Finished?
    requires forall k :: 0 <= k < |run.sent| ==> run.sent[k].tx == first.(gasFeeCap := BumpN(first.gasFeeCap, k))
    requires run.stop.last == run.sent[|run.sent| - 1] || run.stop.last.tx == Rebid(run.sent[|run.sent| - 1])
    ensures exists k :: 0 <= k <= RetryAttempts && run.stop.last.tx == first.(gasFeeCap := BumpN(first.gasFeeCap, k))
  {
    var n := |run.sent|;
    if run.stop.last == run.sent[n - 1] {
      assert run.stop.last.tx == first.(gasFeeCap := BumpN(first.gasFeeCap, n - 1));
    } else {
      BumpNShift(first.gasFeeCap, n - 1);
      assert run.stop.last.tx == first.(gasFeeCap := BumpN(first.gasFeeCap, n));
    }
  }

  /** What a successful ExecuteBlobTransaction run ends with: the prepared
      transaction with its fee cap bumped at most five times, so the fee cap
      stays above the tip and within 256 bits. */
  lemma SubmittedFees(node: BlobNode, rpcEndpoint: string, parent: ParentHeader, private: bool, offset: nat)
    requires HasBlobFields(parent) && IsU64(parent.number) && IsU64(offset)
    requires PrepareBlobTx(node, parent).Ready?
    ensures var run := BlobRun(node, rpcEndpoint, parent, private, offset);
      run.stop.Finished? ==>
        && run.stop.last.tx.gasFeeCap > run.stop.last.tx.gasTipCap
        && IsU256(run.stop.last.tx.gasFeeCap)
  {
    var first := PrepareBlobTx(node, parent).signed;
    var send := Sender(SendUrl(private, rpcEndpoint), AddU64(parent.number, offset), node);
    var run := RetryFrom(0, first, send, node.sign);
    PreparedTxFees(node, parent);
    FinishedHoldsRebid(first, send, node.sign);
    if run.stop.Finished? {
      var k :| 0 <= k <= RetryAttempts && run.stop.last.tx == first.tx.(gasFeeCap := BumpN(first.tx.gasFeeCap, k));
      BumpNBounds(first.tx.gasFeeCap, k);
      FeeCapsFitU256(first.tx.gasFeeCap, k);
    }
  }
}
