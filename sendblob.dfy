/** cmd/sendblob.go: the blob bidder's command. It settles the bidder
    address, connects to the node with retries, and on every new head makes
    a self-transfer and bids for its preconfirmation, either with the
    transaction itself or, after sending it as a bundle, with its hash. Its
    own SendBid accepts single values as well as lists and reads one
    response per line of the reply. Dials, subscriptions, the node, the
    clock and the random bid amount are parameters. */
module SendBlob {
  import opened Results
  import opened EthTypes
  import opened Text
  import Hex
  import Http
  import Bundle
  import opened Bids

  const DefaultBidderAddress: string := "127.0.0.1:13523"
  const DefaultBidderPort: string := ":13523"

  /** Bid decay lasts 36 seconds (two slots), in milliseconds. */
  const DecayWindowMs: int := 36 * 1000

  /** Lines 42-50: an unset address becomes the default, and an address
      without a port gets the default port. */
  function BidderAddress(configured: string): (r: string)
    ensures ':' in r
    ensures configured == "" ==> r == DefaultBidderAddress
    ensures configured != "" && ':' in configured ==> r == configured
    ensures configured != "" && ':' !in configured ==> r == configured + DefaultBidderPort
  {
    var address := if configured == "" then DefaultBidderAddress else configured;
    if ':' !in address then
      assert (address + DefaultBidderPort)[|address|] == ':';
      address + DefaultBidderPort
    else address
  }

  /** Settling an already settled address changes nothing. */
  lemma BidderAddressIdempotent(configured: string)
    ensures BidderAddress(BidderAddress(configured)) == BidderAddress(configured)
  {
  }

  datatype Bidder = Bidder(serverAddress: string)

  function BidUrl(b: Bidder): string {
    "http://" + b.serverAddress + "/v1/bidder/bid"
  }

  /** Lines 274-302: a hash or a list of hashes is "0x"-trimmed, a
      transaction or a list of transactions hex-encoded; anything else is
      refused. */
  function Inputs<Tx>(input: BidInput<Tx>, marshal: Tx -> Result<seq<Byte>, string>): (r: Result<TxLists, BidError>)
    ensures input.HashText? ==> r == Ok(TxLists([TrimPrefix(input.hash, "0x")], []))
    ensures input.HashList? ==> r == Ok(TxLists(TrimHashes(input.hashes), []))
    ensures input.Payload? ==>
      (r.Ok? <==> marshal(input.tx).Ok?)
      && (r.Ok? ==> r.value == TxLists([], [Hex.EncodeBytes(marshal(input.tx).value)]))
      && (r.Err? ==> r.error == MarshalTxFailed(marshal(input.tx).error))
    ensures input.PayloadList? ==>
      (r.Ok? <==> RawTransactions(input.txs, marshal).Ok?)
      && (r.Ok? ==> r.value == TxLists([], RawTransactions(input.txs, marshal).value))
      && (r.Err? ==> r.error == RawTransactions(input.txs, marshal).error)
    ensures input.OtherInput? ==> r == Err(UnsupportedInput(input.typeName))
    ensures r.Ok? ==> r.value.txHashes == [] || r.value.rawTransactions == []
  {
    match input
    case HashText(hash) => Ok(TxLists([TrimPrefix(hash, "0x")], []))
    case HashList(hashes) => Ok(TxLists(TrimHashes(hashes), []))
    case Payload(tx) =>
      (match marshal(tx)
       case Err(e) => Err(MarshalTxFailed(e))
       case Ok(binary) => Ok(TxLists([], [Hex.EncodeBytes(binary)])))
    case PayloadList(txs) =>
      (match RawTransactions(txs, marshal)
       case Err(e) => Err(e)
       case Ok(raw) => Ok(TxLists([], raw)))
    case OtherInput(name) => Err(UnsupportedInput(name))
  }

  /** A single value is handled as the one-element list holding it. */
  lemma SingleIsOneElementList<Tx>(input: BidInput<Tx>, marshal: Tx -> Result<seq<Byte>, string>)
    requires input.HashText? || input.Payload?
    ensures input.HashText? ==> Inputs(input, marshal) == Inputs(HashList([input.hash]), marshal)
    ensures input.Payload? ==> Inputs(input, marshal) == Inputs(PayloadList([input.tx]), marshal)
  {
    if input.HashText? {
      assert TrimHashes([input.hash]) == [TrimPrefix(input.hash, "0x")];
    } else {
      var one := RawTransactions([input.tx], marshal);
      if one.Ok? {
        assert one.value == [Hex.EncodeBytes(marshal(input.tx).value)];
      } else {
        assert one.error == MarshalTxFailed(marshal(input.tx).error);
      }
    }
  }

  /** What SendBid yields (lines 269-403): the input's error, or the request
      posted and its reply handled: a transport failure or a status other
      than 200 is an error, and a 200 body is parsed line by line. */
  function SendBidResult<Tx>(
    b: Bidder, input: BidInput<Tx>, amount: string, blockNumber: int, decayStart: int, decayEnd: int,
    marshal: Tx -> Result<seq<Byte>, string>,
    toJson: BidRequest -> string,
    post: (string, string) -> Http.Reply,
    decode: string -> Result<BidResponse, string>): (r: Result<seq<BidResponse>, BidError>)
    ensures Inputs(input, marshal).Err? ==> r == Err(Inputs(input, marshal).error)
    ensures Inputs(input, marshal).Ok? ==>
      var request := NewBidRequest(Inputs(input, marshal).value, amount, blockNumber, decayStart, decayEnd);
      var reply := post(BidUrl(b), toJson(request));
      && (reply.TransportFailure? ==> r == Err(TransportFailed(reply.reason)))
      && (reply.Response? && reply.status != Http.StatusOK ==> r == Err(NonOkStatus(reply.status, reply.body)))
      && (reply.Response? && reply.status == Http.StatusOK ==> r == ParseLines(Split(reply.body, '\n'), decode))
  {
    match Inputs(input, marshal)
    case Err(e) => Err(e)
    case Ok(lists) =>
      var request := NewBidRequest(lists, amount, blockNumber, decayStart, decayEnd);
      match post(BidUrl(b), toJson(request))
      case TransportFailure(reason) => Err(TransportFailed(reason))
      case Response(status, body) =>
        if status != Http.StatusOK then Err(NonOkStatus(status, body))
        else ParseLines(Split(body, '\n'), decode)
  }

  /** Bidder.SendBid of cmd/sendblob.go. */
  method SendBid<Tx>(
    b: Bidder, input: BidInput<Tx>, amount: string, blockNumber: int, decayStart: int, decayEnd: int,
    marshal: Tx -> Result<seq<Byte>, string>,
    toJson: BidRequest -> string,
    post: (string, string) -> Http.Reply,
    decode: string -> Result<BidResponse, string>)
    returns (r: Result<seq<BidResponse>, BidError>)
    ensures r == SendBidResult(b, input, amount, blockNumber, decayStart, decayEnd, marshal, toJson, post, decode)
  {
    var lists := Inputs(input, marshal);
    if lists.Err? {
      return Err(lists.error);
    }
    var request := NewBidRequest(lists.value, amount, blockNumber, decayStart, decayEnd);
    var reply := post(BidUrl(b), toJson(request));
    if reply.TransportFailure? {
      return Err(TransportFailed(reply.reason));
    }
    if reply.status != Http.StatusOK {
      return Err(NonOkStatus(reply.status, reply.body));
    }
    var responses := Split(reply.body, '\n');
    r := ParseBidLines(responses, decode);
  }

  /** sendPreconfBid (lines 238-267): the bid decays over the 36 seconds
      from `nowMs`. The random amount comes in already formatted; the
      result, which the source only logs, is returned. */
  method SendPreconfBid<Tx>(
    b: Bidder, input: BidInput<Tx>, amount: string, blockNumber: int, nowMs: int,
    marshal: Tx -> Result<seq<Byte>, string>,
    toJson: BidRequest -> string,
    post: (string, string) -> Http.Reply,
    decode: string -> Result<BidResponse, string>)
    returns (r: Result<seq<BidResponse>, BidError>)
    ensures r == SendBidResult(b, input, amount, blockNumber, nowMs, nowMs + DecayWindowMs, marshal, toJson, post, decode)
  {
    var decayStart := nowMs;
    var decayEnd := nowMs + DecayWindowMs;
    r := SendBid(b, input, amount, blockNumber, decayStart, decayEnd, marshal, toJson, post, decode);
  }

  /** Every request sendPreconfBid posts decays over exactly 36000 ms and
      carries the block number and amount it was given. */
  lemma PreconfBidWindow<Tx>(input: BidInput<Tx>, marshal: Tx -> Result<seq<Byte>, string>,
                             amount: string, blockNumber: int, nowMs: int)
    requires Inputs(input, marshal).Ok?
    ensures var request := NewBidRequest(Inputs(input, marshal).value, amount, blockNumber, nowMs, nowMs + DecayWindowMs);
      && request.decayEndTimestamp - request.decayStartTimestamp == 36000
      && request.decayStartTimestamp == nowMs
      && request.blockNumber == blockNumber && request.amount == amount
  {
  }

  // ---------------------------------------------------------------------
  // Connecting to the node

  /** connectRPCClientWithRetries (lines 183-202): at most `maxRetries`
      dials; the first success is returned, and after each failed dial i
      the command sleeps 10 * 2^i nanoseconds. `dial(i)` is the i-th dial's
      result. */
  method ConnectRPCClientWithRetries<C>(maxRetries: int, dial: nat -> Result<C, string>)
    returns (client: Option<C>, sleeps: seq<nat>)
    ensures |sleeps| <= if maxRetries < 0 then 0 else maxRetries
    ensures forall i :: 0 <= i < |sleeps| ==> dial(i).Err? && sleeps[i] == 10 * Pow2(i)
    ensures client.Some? ==> dial(|sleeps|).Ok? && client.value == dial(|sleeps|).value && |sleeps| < maxRetries
    ensures client.None? ==> |sleeps| == (if maxRetries < 0 then 0 else maxRetries)
  {
    sleeps := [];
    var i := 0;
    while i < maxRetries
      invariant 0 <= i <= (if maxRetries < 0 then 0 else maxRetries)
      invariant |sleeps| == i
      invariant forall j :: 0 <= j < i ==> dial(j).Err? && sleeps[j] == 10 * Pow2(j)
    {
      var result := dial(i);
      if result.Ok? {
        return Some(result.value), sleeps;
      }
      sleeps := sleeps + [10 * Pow2(i)];
      i := i + 1;
    }
    client := None;
  }

  /** How a call of connectWSClient ends: connected after some dials, or
      still dialing when the given dial results run out (the source keeps
      retrying forever and has no error result). */
  datatype WsDial<C> = Connected(client: C, attempts: nat) | StillDialing

  /** connectWSClient (lines 204-213), over the results of its successive
      dials. */
  function ConnectWSClient<C>(dials: seq<Result<C, string>>): (r: WsDial<C>)
    ensures r.Connected? ==>
      1 <= r.attempts <= |dials| && dials[r.attempts - 1] == Ok(r.client)
      && forall j :: 0 <= j < r.attempts - 1 ==> dials[j].Err?
    ensures r.StillDialing? <==> forall j :: 0 <= j < |dials| ==> dials[j].Err?
  {
    if dials == [] then StillDialing
    else match dials[0]
      case Ok(c) => Connected(c, 1)
      case Err(_) =>
        match ConnectWSClient(dials[1..])
        case StillDialing => StillDialing
        case Connected(c, n) => Connected(c, n + 1)
  }

  datatype Reconnect<C, S> =
    | Reconnected(client: C, sub: S, attempts: nat)
    | Hung(attempt: nat)
    | GaveUp

  /** reconnectWSClient (lines 216-235): up to ten rounds of connect and
      subscribe. `connect(i)` is how the i-th connectWSClient call ends and
      `subscribe(i, c)` the i-th subscription's result; a call that never
      connects leaves the loop hanging, and ten failed subscriptions end
      the process (log.Crit). */
  method ReconnectWSClient<C, S>(connect: nat -> WsDial<C>, subscribe: (nat, C) -> Result<S, string>)
    returns (r: Reconnect<C, S>)
    ensures r.Reconnected? ==>
      1 <= r.attempts <= 10
      && connect(r.attempts - 1).Connected? && r.client == connect(r.attempts - 1).client
      && subscribe(r.attempts - 1, r.client) == Ok(r.sub)
    ensures r.Hung? ==> r.attempt < 10 && connect(r.attempt).StillDialing?
    ensures r.Reconnected? || r.Hung? ==>
      var n := if r.Reconnected? then r.attempts - 1 else r.attempt;
      forall j :: 0 <= j < n ==> connect(j).Connected? && subscribe(j, connect(j).client).Err?
    ensures r.GaveUp? <==> forall j :: 0 <= j < 10 ==> connect(j).Connected? && subscribe(j, connect(j).client).Err?
  {
    var i := 0;
    while i < 10
      invariant 0 <= i <= 10
      invariant forall j :: 0 <= j < i ==> connect(j).Connected? && subscribe(j, connect(j).client).Err?
    {
      var ws := connect(i);
      if ws.StillDialing? {
        return Hung(i);
      }
      var sub := subscribe(i, ws.client);
      if sub.Ok? {
        return Reconnected(ws.client, sub.value, i + 1);
      }
      i := i + 1;
    }
    r := GaveUp;
  }

  // ---------------------------------------------------------------------
  // The head loop (lines 133-174)

  /** The self-transfer of one head: the signed transaction, its hash and
      the block it targets. */
  datatype Transfer<Tx> = Transfer(signedTx: Tx, hash: string, blockNumber: nat)

  datatype Action<Tx> =
    | BundleSent(url: string, tx: Tx, blockNumber: nat, outcome: Bundle.SendOutcome)
    | BidSent(input: BidInput<Tx>, bidBlock: int)

  /** The actions of one head, and the reason the process stopped, if it did. */
  datatype Dispatch<Tx> = Dispatch(actions: seq<Action<Tx>>, exit: Option<string>)

  predicate ValidTransfer<Tx>(transfer: Result<Transfer<Tx>, string>) {
    transfer.Ok? ==> IsU64(transfer.value.blockNumber)
  }

  function CountBids<Tx>(actions: seq<Action<Tx>>): nat {
    if actions == [] then 0 else CountBids(actions[..|actions| - 1]) + (if actions[|actions| - 1].BidSent? then 1 else 0)
  }

  /** Lines 142-172: a failed transfer leaves no transaction to log, and the
      dereference ends the process; in payload mode the transaction is bid
      for directly; otherwise it is sent as a bundle (whose fatal errors end
      the process) and then its hash is bid for. The block number is passed
      to the bid through int64(). */
  function HeadDispatch<Tx>(usePayload: bool, rpcEndpoint: string, transfer: Result<Transfer<Tx>, string>,
                            sendBundle: (string, Tx, nat) -> Bundle.SendOutcome): (d: Dispatch<Tx>)
    requires ValidTransfer(transfer)
    ensures transfer.Err? ==> d.actions == [] && d.exit.Some?
    ensures transfer.Ok? && usePayload ==>
      d == Dispatch([BidSent(Payload(transfer.value.signedTx), ToInt64(transfer.value.blockNumber))], None)
    ensures transfer.Ok? && !usePayload ==>
      var t := transfer.value;
      var outcome := sendBundle(rpcEndpoint, t.signedTx, t.blockNumber);
      && |d.actions| >= 1 && d.actions[0] == BundleSent(rpcEndpoint, t.signedTx, t.blockNumber, outcome)
      && (outcome.Exited? <==> d.exit.Some?)
      && (!outcome.Exited? ==> d.actions == [d.actions[0], BidSent(HashText(t.hash), ToInt64(t.blockNumber))])
  {
    match transfer
    case Err(_) => Dispatch([], Some("nil pointer dereference"))
    case Ok(t) =>
      var block := ToInt64(t.blockNumber);
      if usePayload then Dispatch([BidSent(Payload(t.signedTx), block)], None)
      else
        var outcome := sendBundle(rpcEndpoint, t.signedTx, t.blockNumber);
        var sent := BundleSent(rpcEndpoint, t.signedTx, t.blockNumber, outcome);
        if outcome.Exited? then Dispatch([sent], Some(outcome.reason))
        else Dispatch([sent, BidSent(HashText(t.hash), block)], None)
  }

  /** Each head that does not stop the process leads to exactly one bid;
      a head that stops it leads to none. */
  lemma OneBidPerHead<Tx>(usePayload: bool, rpcEndpoint: string, transfer: Result<Transfer<Tx>, string>,
                          sendBundle: (string, Tx, nat) -> Bundle.SendOutcome)
    requires ValidTransfer(transfer)
    ensures var d := HeadDispatch(usePayload, rpcEndpoint, transfer, sendBundle);
      CountBids(d.actions) == if d.exit.None? then 1 else 0
  {
    var d := HeadDispatch(usePayload, rpcEndpoint, transfer, sendBundle);
    if transfer.Ok? && d.exit.None? {
      if usePayload {
        assert d.actions[..0] == [];
      } else {
        var a := d.actions;
        assert |a| == 2 && a[1].BidSent? && !a[0].BidSent?;
        assert a[..1][..0] == [];
        assert CountBids(a[..1]) == 0;
      }
    }
  }

  datatype BidderEvent<Tx> =
    | TimerFired
    | SubscriptionFailed(resumed: bool)
    | NewHead(transfer: Result<Transfer<Tx>, string>)

  /** Why the head loop stopped: the two-week timer, the process ending
      (a fatal error, or a reconnect that gave up or never returned), or no
      more events. */
  datatype LoopEnd = TimerStopped | ProcessEnded(reason: string) | ReconnectStopped | OutOfEvents

  datatype LoopRun<Tx> = LoopRun(actions: seq<Action<Tx>>, end: LoopEnd)

  predicate ValidEvents<Tx>(events: seq<BidderEvent<Tx>>) {
    forall i :: 0 <= i < |events| ==> events[i].NewHead? ==> ValidTransfer(events[i].transfer)
  }

  /** The head loop over a sequence of events. A subscription error is
      followed by a reconnect, after which the loop resumes. */
  function RunLoop<Tx>(events: seq<BidderEvent<Tx>>, usePayload: bool, rpcEndpoint: string,
                       sendBundle: (string, Tx, nat) -> Bundle.SendOutcome): LoopRun<Tx>
    requires ValidEvents(events)
  {
    if events == [] then LoopRun([], OutOfEvents)
    else match events[0]
      case TimerFired => LoopRun([], TimerStopped)
      case SubscriptionFailed(resumed) =>
        if resumed then RunLoop(events[1..], usePayload, rpcEndpoint, sendBundle) else LoopRun([], ReconnectStopped)
      case NewHead(transfer) =>
        var d := HeadDispatch(usePayload, rpcEndpoint, transfer, sendBundle);
        if d.exit.Some? then LoopRun(d.actions, ProcessEnded(d.exit.value))
        else
          var rest := RunLoop(events[1..], usePayload, rpcEndpoint, sendBundle);
          LoopRun(d.actions + rest.actions, rest.end)
  }

  /** The subscription error as the head loop sees it: the loop resumes
      exactly when reconnectWSClient returns, that is when it reconnected. */
  function SubscriptionFailedThen<Tx, C, S>(r: Reconnect<C, S>): BidderEvent<Tx> {
    SubscriptionFailed(r.Reconnected?)
  }

  /** After a subscription error, the head loop goes on with the next
      events when the reconnect succeeded, and stops otherwise. */
  lemma ReconnectDecidesLoop<Tx, C, S>(r: Reconnect<C, S>, events: seq<BidderEvent<Tx>>, usePayload: bool,
                                       rpcEndpoint: string, sendBundle: (string, Tx, nat) -> Bundle.SendOutcome)
    requires ValidEvents(events)
    ensures ValidEvents([SubscriptionFailedThen<Tx, C, S>(r)] + events)
    ensures var run := RunLoop([SubscriptionFailedThen<Tx, C, S>(r)] + events, usePayload, rpcEndpoint, sendBundle);
      && (r.Reconnected? ==> run == RunLoop(events, usePayload, rpcEndpoint, sendBundle))
      && (!r.Reconnected? ==> run == LoopRun([], ReconnectStopped))
  {
    var all := [SubscriptionFailedThen<Tx, C, S>(r)] + events;
    assert all[1..] == events;
    forall i | 0 <= i < |all| && all[i].NewHead? ensures ValidTransfer(all[i].transfer) {
      assert all[i] == events[i - 1];
    }
  }

  lemma {:induction false} CountBidsAppend<Tx>(a: seq<Action<Tx>>, b: seq<Action<Tx>>)
    ensures CountBids(a + b) == CountBids(a) + CountBids(b)
    decreases |b|
  {
    if b == [] {
      assert a + b == a;
    } else {
      assert (a + b)[..|a + b| - 1] == a + b[..|b| - 1];
      CountBidsAppend(a, b[..|b| - 1]);
    }
  }

  function CountHeads<Tx>(events: seq<BidderEvent<Tx>>): nat {
    if events == [] then 0 else (if events[0].NewHead? then 1 else 0) + CountHeads(events[1..])
  }

  /** While the timer does not fire, every subscription error is recovered
      and every transfer succeeds, a payload-mode bidder bids exactly once
      per head and never stops. */
  lemma {:induction false} PayloadBidPerHead<Tx>(events: seq<BidderEvent<Tx>>, rpcEndpoint: string,
                                                 sendBundle: (string, Tx, nat) -> Bundle.SendOutcome)
    requires ValidEvents(events)
    requires forall i :: 0 <= i < |events| ==> !events[i].TimerFired?
    requires forall i :: 0 <= i < |events| ==> events[i].SubscriptionFailed? ==> events[i].resumed
    requires forall i :: 0 <= i < |events| ==> events[i].NewHead? ==> events[i].transfer.Ok?
    ensures var run := RunLoop(events, true, rpcEndpoint, sendBundle);
      run.end == OutOfEvents && CountBids(run.actions) == CountHeads(events)
  {
    if events != [] {
      assert ValidEvents(events[1..]) by {
        forall i | 0 <= i < |events[1..]| ensures events[1..][i].NewHead? ==> ValidTransfer(events[1..][i].transfer) {
          assert events[1..][i] == events[i + 1];
        }
      }
      forall i | 0 <= i < |events[1..]|
        ensures !events[1..][i].TimerFired?
        ensures events[1..][i].SubscriptionFailed? ==> events[1..][i].resumed
        ensures events[1..][i].NewHead? ==> events[1..][i].transfer.Ok?
      {
        assert events[1..][i] == events[i + 1];
      }
      PayloadBidPerHead(events[1..], rpcEndpoint, sendBundle);
      assert !events[0].TimerFired?;
      if events[0].NewHead? {
        var d := HeadDispatch(true, rpcEndpoint, events[0].transfer, sendBundle);
        OneBidPerHead(true, rpcEndpoint, events[0].transfer, sendBundle);
        CountBidsAppend(d.actions, RunLoop(events[1..], true, rpcEndpoint, sendBundle).actions);
      }
    }
  }

  /** The `for { select { ... } }` loop of lines 133-174. */
  method RunBidder<Tx>(events: seq<BidderEvent<Tx>>, usePayload: bool, rpcEndpoint: string,
                       sendBundle: (string, Tx, nat) -> Bundle.SendOutcome)
    returns (actions: seq<Action<Tx>>, end: LoopEnd)
    requires ValidEvents(events)
    ensures LoopRun(actions, end) == RunLoop(events, usePayload, rpcEndpoint, sendBundle)
  {
    actions := [];
    var i := 0;
    while i < |events|
      invariant 0 <= i <= |events|
      invariant ValidEvents(events[i..])
      invariant var rest := RunLoop(events[i..], usePayload, rpcEndpoint, sendBundle);
        LoopRun(actions + rest.actions, rest.end) == RunLoop(events, usePayload, rpcEndpoint, sendBundle)
    {
      ghost var rest := RunLoop(events[i..], usePayload, rpcEndpoint, sendBundle);
      assert events[i..][1..] == events[i + 1..];
      match events[i] {
        case TimerFired =>
          assert actions + [] == actions;
          return actions, TimerStopped;
        case SubscriptionFailed(resumed) =>
          if !resumed {
            assert actions + [] == actions;
            return actions, ReconnectStopped;
          }
        case NewHead(transfer) =>
          var d := HeadDispatch(usePayload, rpcEndpoint, transfer, sendBundle);
          if d.exit.Some? {
            return actions + d.actions, ProcessEnded(d.exit.value);
          }
          ghost var after := RunLoop(events[i + 1..], usePayload, rpcEndpoint, sendBundle);
          assert actions + rest.actions == (actions + d.actions) + after.actions;
          actions := actions + d.actions;
      }
      i := i + 1;
    }
    assert events[i..] == [];
    assert actions + [] == actions;
    end := OutOfEvents;
  }
}
