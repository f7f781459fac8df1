/** core/mevcommit/bidderapi.go: the library variant of Bidder.SendBid. It
    accepts only lists (of hashes or of transactions), sets at most one of
    the two request lists, posts to a fixed local address, and decodes the
    whole reply body as one response. */
module BidderApi {
  import opened Results
  import opened EthTypes
  import Http
  import opened Bids

  /** The URL the request goes to: the address is written into the source,
      not taken from the Bidder. */
  const BidUrl: string := "http://127.0.0.1:13523/v1/bidder/bid"

  datatype Bidder = Bidder(serverAddress: string)

  /** Lines 57-76: hash lists are "0x"-trimmed, transaction lists hex-encoded;
      a single hash, a single transaction or anything else is refused. */
  function Inputs<Tx>(input: BidInput<Tx>, marshal: Tx -> Result<seq<Byte>, string>): (r: Result<TxLists, BidError>)
    ensures input.HashList? ==> r == Ok(TxLists(TrimHashes(input.hashes), []))
    ensures input.PayloadList? ==>
      (r.Ok? <==> RawTransactions(input.txs, marshal).Ok?)
      && (r.Ok? ==> r.value == TxLists([], RawTransactions(input.txs, marshal).value))
      && (r.Err? ==> r.error == RawTransactions(input.txs, marshal).error)
    ensures input.HashText? ==> r == Err(UnsupportedInput("string"))
    ensures input.Payload? ==> r == Err(UnsupportedInput("*types.Transaction"))
    ensures input.OtherInput? ==> r == Err(UnsupportedInput(input.typeName))
  {
    match input
    case HashList(hashes) => Ok(TxLists(TrimHashes(hashes), []))
    case PayloadList(txs) =>
      (match RawTransactions(txs, marshal)
       case Err(e) => Err(e)
       case Ok(raw) => Ok(TxLists([], raw)))
    case HashText(_) => Err(UnsupportedInput("string"))
    case Payload(_) => Err(UnsupportedInput("*types.Transaction"))
    case OtherInput(name) => Err(UnsupportedInput(name))
  }

  /** Lines 79-91: the hash list when it is non-empty, otherwise the raw
      list when that is non-empty; never both. */
  function NewBidRequest(lists: TxLists, amount: string, blockNumber: int, decayStart: int, decayEnd: int): (r: BidRequest)
    ensures !(r.txHashes.Some? && r.rawTransactions.Some?)
    ensures r.txHashes.Some? <==> |lists.txHashes| > 0
    ensures r.txHashes.Some? ==> r.txHashes.value == lists.txHashes
    ensures r.rawTransactions.Some? <==> |lists.txHashes| == 0 && |lists.rawTransactions| > 0
    ensures r.rawTransactions.Some? ==> r.rawTransactions.value == lists.rawTransactions
    ensures r.amount == amount && r.blockNumber == blockNumber
    ensures r.decayStartTimestamp == decayStart && r.decayEndTimestamp == decayEnd
    ensures r.revertingTxHashes == []
  {
    var base := BidRequest(None, None, amount, blockNumber, decayStart, decayEnd, []);
    if |lists.txHashes| > 0 then base.(txHashes := Some(lists.txHashes))
    else if |lists.rawTransactions| > 0 then base.(rawTransactions := Some(lists.rawTransactions))
    else base
  }

  /** The inputs this SendBid accepts never fill both lists, so its
      "else if" builds the same request as the two independent tests of
      cmd/sendblob.go. */
  lemma SameRequestAsSendBlob<Tx>(input: BidInput<Tx>, marshal: Tx -> Result<seq<Byte>, string>,
                                  amount: string, blockNumber: int, decayStart: int, decayEnd: int)
    requires Inputs(input, marshal).Ok?
    ensures var lists := Inputs(input, marshal).value;
      NewBidRequest(lists, amount, blockNumber, decayStart, decayEnd)
        == Bids.NewBidRequest(lists, amount, blockNumber, decayStart, decayEnd)
  {
  }

  /** Bidder.SendBid. The JSON encoder of the request, the HTTP exchange and
      the JSON decoder of the reply are parameters. */
  function SendBid<Tx>(
    b: Bidder, input: BidInput<Tx>, amount: string, blockNumber: int, decayStart: int, decayEnd: int,
    marshal: Tx -> Result<seq<Byte>, string>,
    toJson: BidRequest -> string,
    post: (string, string) -> Http.Reply,
    decode: string -> Result<BidResponse, string>): (r: Result<BidResponse, BidError>)
    ensures Inputs(input, marshal).Err? ==> r == Err(Inputs(input, marshal).error)
    ensures Inputs(input, marshal).Ok? ==>
      var request := NewBidRequest(Inputs(input, marshal).value, amount, blockNumber, decayStart, decayEnd);
      var reply := post(BidUrl, toJson(request));
      && (reply.TransportFailure? ==> r == Err(TransportFailed(reply.reason)))
      && (reply.Response? && reply.status != Http.StatusOK ==> r == Err(NonOkStatus(reply.status, reply.body)))
      && (reply.Response? && reply.status == Http.StatusOK ==>
            (r.Ok? <==> decode(reply.body).Ok?)
            && (r.Ok? ==> r.value == decode(reply.body).value)
            && (r.Err? ==> r.error == BadResponse(decode(reply.body).error, reply.body)))
  {
    match Inputs(input, marshal)
    case Err(e) => Err(e)
    case Ok(lists) =>
      var request := NewBidRequest(lists, amount, blockNumber, decayStart, decayEnd);
      match post(BidUrl, toJson(request))
      case TransportFailure(reason) => Err(TransportFailed(reason))
      case Response(status, body) =>
        if status != Http.StatusOK then Err(NonOkStatus(status, body))
        else match decode(body)
          case Err(e) => Err(BadResponse(e, body))
          case Ok(response) => Ok(response)
  }

  /** The Bidder's own server address plays no part: two bidders with
      different addresses send the same request to the same place and get
      the same result. */
  lemma ServerAddressIgnored<Tx>(
    b1: Bidder, b2: Bidder, input: BidInput<Tx>, amount: string, blockNumber: int, decayStart: int, decayEnd: int,
    marshal: Tx -> Result<seq<Byte>, string>,
    toJson: BidRequest -> string,
    post: (string, string) -> Http.Reply,
    decode: string -> Result<BidResponse, string>)
    ensures SendBid(b1, input, amount, blockNumber, decayStart, decayEnd, marshal, toJson, post, decode)
         == SendBid(b2, input, amount, blockNumber, decayStart, decayEnd, marshal, toJson, post, decode)
  {
  }
}
