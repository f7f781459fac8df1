/** core/eth/bundle.go: the `eth_sendBundle` request that submits one signed
    transaction to a builder for inclusion at a given block. */
module Bundle {
  import opened Results
  import opened EthTypes
  import opened Hex
  import Http

  /** The one map in "params": the transactions and the target block. */
  datatype BundleParams = BundleParams(txs: seq<string>, blockNumber: string)

  datatype FlashbotsPayload = FlashbotsPayload(jsonrpc: string, rpcMethod: string, params: seq<BundleParams>, id: int)

  /** The payload for one transaction (given as its binary encoding) and a
      target block number. */
  function BuildPayload(binary: seq<Byte>, blkNum: nat): (p: FlashbotsPayload)
    requires IsU64(blkNum)
    ensures p.jsonrpc == "2.0" && p.rpcMethod == "eth_sendBundle" && p.id == 1
    ensures |p.params| == 1 && |p.params[0].txs| == 1
    ensures DecodeData(p.params[0].txs[0]) == Some(binary)
    ensures DecodeQuantity(p.params[0].blockNumber) == Some(blkNum)
  {
    DataRoundTrip(binary);
    QuantityRoundTrip(blkNum);
    FlashbotsPayload("2.0", "eth_sendBundle", [BundleParams([EncodeData(binary)], EncodeUint64(blkNum))], 1)
  }

  /** The spelling of both fields is the canonical one: the transaction is
      "0x" and two lower-case digits per byte, the block number "0x" and the
      shortest lower-case numeral. */
  lemma PayloadCanonical(binary: seq<Byte>, blkNum: nat)
    requires IsU64(blkNum)
    ensures var p := BuildPayload(binary, blkNum);
      && p.params[0].txs[0] == "0x" + EncodeBytes(binary)
      && EncodeData(DecodeData(p.params[0].txs[0]).value) == p.params[0].txs[0]
      && EncodeUint64(DecodeQuantity(p.params[0].blockNumber).value) == p.params[0].blockNumber
      && (p.params[0].blockNumber == "0x0" <==> blkNum == 0)
  {
    var p := BuildPayload(binary, blkNum);
    var q := p.params[0].blockNumber;
    if blkNum == 0 {
      assert NatToHex(0) == "0";
    } else {
      assert q[2] != '0';
    }
  }

  /** What sendBundle leads to: the reply body, an error (the payload could
      not be marshalled to JSON), or the end of the process (log.Fatal). */
  datatype SendOutcome = Delivered(body: string) | Failed(message: string) | Exited(reason: string)

  /** sendBundle(RPCURL, signedTx, blkNum). The transaction's binary
      encoding, the JSON encoder and the HTTP exchange are parameters. */
  function SendBundle<Tx>(
    url: string, signedTx: Tx, blkNum: nat,
    marshalBinary: Tx -> Result<seq<Byte>, string>,
    marshalJson: FlashbotsPayload -> Result<string, string>,
    post: (string, string) -> Http.Reply): (r: SendOutcome)
    requires IsU64(blkNum)
    ensures marshalBinary(signedTx).Err? ==> r.Exited?
    ensures r.Failed? <==> marshalBinary(signedTx).Ok? && marshalJson(BuildPayload(marshalBinary(signedTx).value, blkNum)).Err?
    ensures r.Failed? ==> r.message == marshalJson(BuildPayload(marshalBinary(signedTx).value, blkNum)).error
    ensures r.Delivered? ==>
      var json := marshalJson(BuildPayload(marshalBinary(signedTx).value, blkNum)).value;
      post(url, json).Response? && post(url, json).body == r.body
  {
    match marshalBinary(signedTx)
    case Err(e) => Exited("Error marshal transaction: " + e)
    case Ok(binary) =>
      match marshalJson(BuildPayload(binary, blkNum))
      case Err(e) => Failed(e)
      case Ok(json) =>
        match post(url, json)
        case TransportFailure(reason) => Exited(reason)
        case Response(_, body) => Delivered(body)
  }

  /** The HTTP status is never looked at: every reply, whatever its status,
      is handed back as a body with no error. */
  lemma AnyStatusDelivers<Tx>(
    url: string, signedTx: Tx, blkNum: nat,
    marshalBinary: Tx -> Result<seq<Byte>, string>,
    marshalJson: FlashbotsPayload -> Result<string, string>,
    post: (string, string) -> Http.Reply)
    requires IsU64(blkNum)
    requires marshalBinary(signedTx).Ok?
    requires marshalJson(BuildPayload(marshalBinary(signedTx).value, blkNum)).Ok?
    requires post(url, marshalJson(BuildPayload(marshalBinary(signedTx).value, blkNum)).value).Response?
    ensures SendBundle(url, signedTx, blkNum, marshalBinary, marshalJson, post)
      == Delivered(post(url, marshalJson(BuildPayload(marshalBinary(signedTx).value, blkNum)).value).body)
  {
  }
}
