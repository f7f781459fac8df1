/** The bid request and response of the mev-commit bidder HTTP API, and the
    input handling both SendBid functions share: the tagged input, the "0x"
    stripping of hashes, the hex encoding of raw transactions, the request's
    optional fields, and newline-delimited response parsing. JSON encoding
    and decoding are parameters. */
module Bids {
  import opened Results
  import opened EthTypes
  import opened Text
  import Hex

  /** BidRequest. A list field is None when Go leaves the slice nil, which
      `omitempty` drops from the JSON. */
  datatype BidRequest = BidRequest(
    txHashes: Option<seq<string>>,
    rawTransactions: Option<seq<string>>,
    amount: string,
    blockNumber: int,
    decayStartTimestamp: int,
    decayEndTimestamp: int,
    revertingTxHashes: seq<string>)

  /** The `result` object of a BidResponse. */
  datatype BidResponse = BidResponse(
    txHashes: seq<string>,
    bidAmount: string,
    blockNumber: string,
    receivedBidDigest: string,
    receivedBidSignature: string,
    commitmentDigest: string,
    commitmentSignature: string,
    providerAddress: string,
    decayStartTimestamp: string,
    decayEndTimestamp: string,
    dispatchTimestamp: string,
    revertingTxHashes: seq<string>)

  /** The dynamic type of SendBid's `input interface{}`. */
  datatype BidInput<Tx> =
    | HashText(hash: string)
    | HashList(hashes: seq<string>)
    | Payload(tx: Tx)
    | PayloadList(txs: seq<Tx>)
    | OtherInput(typeName: string)

  datatype BidError =
    | MarshalTxFailed(cause: string)
    | UnsupportedInput(typeName: string)
    | TransportFailed(reason: string)
    | NonOkStatus(status: int, body: string)
    | BadResponse(cause: string, text: string)

  /** The two lists a SendBid input is turned into. */
  datatype TxLists = TxLists(txHashes: seq<string>, rawTransactions: seq<string>)

  /** Each hash with one leading "0x" removed, same length and order. */
  function TrimHashes(hashes: seq<string>): (r: seq<string>)
    ensures |r| == |hashes|
    ensures forall i :: 0 <= i < |hashes| ==> r[i] == TrimPrefix(hashes[i], "0x")
  {
    seq(|hashes|, i requires 0 <= i < |hashes| => TrimPrefix(hashes[i], "0x"))
  }

  /** Writing hashes with "0x" and handing them to SendBid gives back the
      bare hashes, even when a bare hash itself starts with "0x". */
  lemma TrimHashesOfPrefixed(bare: seq<string>)
    ensures TrimHashes(seq(|bare|, i requires 0 <= i < |bare| => "0x" + bare[i])) == bare
  {
    var prefixed := seq(|bare|, i requires 0 <= i < |bare| => "0x" + bare[i]);
    forall i | 0 <= i < |bare| ensures TrimHashes(prefixed)[i] == bare[i] {
      TrimPrefixOnce("0x", bare[i]);
    }
  }

  /** Each transaction's binary encoding in hex, in order; the first
      encoding failure aborts the whole list. */
  function RawTransactions<Tx>(txs: seq<Tx>, marshal: Tx -> Result<seq<Byte>, string>): (r: Result<seq<string>, BidError>)
    ensures r.Ok? <==> forall i :: 0 <= i < |txs| ==> marshal(txs[i]).Ok?
    ensures r.Ok? ==> |r.value| == |txs| && forall i :: 0 <= i < |txs| ==> r.value[i] == Hex.EncodeBytes(marshal(txs[i]).value)
    ensures r.Err? ==> exists i :: 0 <= i < |txs| && marshal(txs[i]).Err? && r.error == MarshalTxFailed(marshal(txs[i]).error)
                                    && forall j :: 0 <= j < i ==> marshal(txs[j]).Ok?
  {
    if txs == [] then Ok([])
    else match marshal(txs[0])
      case Err(e) => Err(MarshalTxFailed(e))
      case Ok(binary) =>
        match RawTransactions(txs[1..], marshal)
        case Err(e) =>
          var i :| 0 <= i < |txs| - 1 && marshal(txs[1..][i]).Err? && e == MarshalTxFailed(marshal(txs[1..][i]).error)
                   && forall j :: 0 <= j < i ==> marshal(txs[1..][j]).Ok?;
          assert forall j :: 0 <= j < i + 1 ==> marshal(txs[j]).Ok? by {
            forall j | 0 <= j < i + 1 ensures marshal(txs[j]).Ok? {
              if j > 0 { assert txs[j] == txs[1..][j - 1]; }
            }
          }
          Err(e)
        case Ok(rest) => Ok([Hex.EncodeBytes(binary)] + rest)
  }

  /** The receiver reads each raw transaction back into exactly the bytes
      the transaction's binary encoding produced. */
  lemma RawTransactionsDecode<Tx>(txs: seq<Tx>, marshal: Tx -> Result<seq<Byte>, string>, i: nat)
    requires RawTransactions(txs, marshal).Ok? && i < |txs|
    ensures Hex.DecodeBytes(RawTransactions(txs, marshal).value[i]) == Some(marshal(txs[i]).value)
  {
    Hex.DecodeEncodeBytes(marshal(txs[i]).value);
  }

  /** The request both SendBid functions build (cmd/sendblob.go): each list
      is set exactly when it is non-empty, the scalars are copied and there
      are no reverting hashes. */
  function NewBidRequest(lists: TxLists, amount: string, blockNumber: int, decayStart: int, decayEnd: int): (r: BidRequest)
    ensures r.txHashes.Some? <==> |lists.txHashes| > 0
    ensures r.txHashes.Some? ==> r.txHashes.value == lists.txHashes
    ensures r.rawTransactions.Some? <==> |lists.rawTransactions| > 0
    ensures r.rawTransactions.Some? ==> r.rawTransactions.value == lists.rawTransactions
    ensures r.amount == amount && r.blockNumber == blockNumber
    ensures r.decayStartTimestamp == decayStart && r.decayEndTimestamp == decayEnd
    ensures r.revertingTxHashes == []
  {
    var base := BidRequest(None, None, amount, blockNumber, decayStart, decayEnd, []);
    var withHashes := if |lists.txHashes| > 0 then base.(txHashes := Some(lists.txHashes)) else base;
    if |lists.rawTransactions| > 0 then withHashes.(rawTransactions := Some(lists.rawTransactions)) else withHashes
  }

  /** The lines of a response body that are not blank, trimmed. */
  function NonBlankLines(lines: seq<string>): (r: seq<string>)
    ensures forall i :: 0 <= i < |r| ==> r[i] != ""
    ensures |r| <= |lines|
  {
    if lines == [] then []
    else
      var init := NonBlankLines(lines[..|lines| - 1]);
      var line := TrimSpace(lines[|lines| - 1]);
      if line == "" then init
      else
        assert forall i :: 0 <= i < |init| ==> (init + [line])[i] == init[i];
        init + [line]
  }

  /** NonBlankLines works line by line: the lines of a concatenation are
      the lines of each part, and one line contributes itself trimmed, or
      nothing when it is blank. Together these say that the result is the
      trimmed non-blank lines, in their order. */
  lemma {:induction false} NonBlankLinesAppend(a: seq<string>, b: seq<string>)
    ensures NonBlankLines(a + b) == NonBlankLines(a) + NonBlankLines(b)
    decreases |b|
  {
    if b == [] {
      assert a + b == a;
    } else {
      assert (a + b)[..|a + b| - 1] == a + b[..|b| - 1];
      assert (a + b)[|a + b| - 1] == b[|b| - 1];
      NonBlankLinesAppend(a, b[..|b| - 1]);
    }
  }

  lemma NonBlankLine(line: string)
    ensures NonBlankLines([line]) == if TrimSpace(line) == "" then [] else [TrimSpace(line)]
  {
    assert [line][..0] == [];
  }

  /** Lines 381-398 of cmd/sendblob.go: each line trimmed, blank lines
      skipped, every other line decoded in order; the first bad line aborts
      with its decoder error and no partial result. */
  function ParseLines(lines: seq<string>, decode: string -> Result<BidResponse, string>): Result<seq<BidResponse>, BidError> {
    if lines == [] then Ok([])
    else match ParseLines(lines[..|lines| - 1], decode)
      case Err(e) => Err(e)
      case Ok(parsed) =>
        var line := TrimSpace(lines[|lines| - 1]);
        if line == "" then Ok(parsed)
        else match decode(line)
          case Err(e) => Err(BadResponse(e, line))
          case Ok(response) => Ok(parsed + [response])
  }

  /** One more line for ParseLines: an earlier error stays, a blank line
      adds nothing, and a non-blank line adds its response or fails with
      its decoder error. */
  lemma ParseLinesStep(lines: seq<string>, i: nat, decode: string -> Result<BidResponse, string>)
    requires i < |lines|
    ensures var prev := ParseLines(lines[..i], decode);
      var next := ParseLines(lines[..i + 1], decode);
      var line := TrimSpace(lines[i]);
      && (prev.Err? ==> next == prev)
      && (prev.Ok? && line == "" ==> next == prev)
      && (prev.Ok? && line != "" && decode(line).Err? ==> next == Err(BadResponse(decode(line).error, line)))
      && (prev.Ok? && line != "" && decode(line).Ok? ==> next == Ok(prev.value + [decode(line).value]))
  {
    assert lines[..i + 1][..i] == lines[..i];
    assert lines[..i + 1][i] == lines[i];
  }

  /** What ParseLines yields, stated over the non-blank lines: when every
      non-blank line decodes, one response per non-blank line in order. */
  lemma {:induction false} ParseLinesSucceeds(lines: seq<string>, decode: string -> Result<BidResponse, string>)
    requires forall i :: 0 <= i < |NonBlankLines(lines)| ==> decode(NonBlankLines(lines)[i]).Ok?
    ensures var r := ParseLines(lines, decode);
      var good := NonBlankLines(lines);
      r.Ok? && |r.value| == |good| && forall i :: 0 <= i < |good| ==> decode(good[i]) == Ok(r.value[i])
  {
    if lines != [] {
      var init := lines[..|lines| - 1];
      var before := NonBlankLines(init);
      var good := NonBlankLines(lines);
      var line := TrimSpace(lines[|lines| - 1]);
      assert good == if line == "" then before else before + [line];
      assert forall i :: 0 <= i < |before| ==> good[i] == before[i];
      ParseLinesSucceeds(init, decode);
      var prev := ParseLines(init, decode);
      if line != "" {
        assert good[|before|] == line;
      }
      assert ParseLines(lines, decode) == if line == "" then prev else Ok(prev.value + [decode(line).value]);
    }
  }

  /** Otherwise ParseLines fails with the error of the first non-blank line
      that does not decode. */
  lemma {:induction false} ParseLinesFails(lines: seq<string>, decode: string -> Result<BidResponse, string>, bad: nat)
    requires bad < |NonBlankLines(lines)| && decode(NonBlankLines(lines)[bad]).Err?
    requires forall j :: 0 <= j < bad ==> decode(NonBlankLines(lines)[j]).Ok?
    ensures var good := NonBlankLines(lines);
      ParseLines(lines, decode) == Err(BadResponse(decode(good[bad]).error, good[bad]))
  {
    var init := lines[..|lines| - 1];
    var before := NonBlankLines(init);
    var line := TrimSpace(lines[|lines| - 1]);
    var good := NonBlankLines(lines);
    if line != "" {
      assert good == before + [line];
    }
    assert forall i :: 0 <= i < |before| ==> good[i] == before[i];
    if bad < |before| {
      ParseLinesFails(init, decode, bad);
    } else {
      assert bad == |before| && good[bad] == line;
      ParseLinesSucceeds(init, decode);
    }
  }

  /** Lines 386-399 of cmd/sendblob.go: the loop over the body's lines,
      which trims each line, skips the blank ones and appends one decoded
      response per other line; the first line that does not decode ends it
      with that error. */
  method ParseBidLines(responses: seq<string>, decode: string -> Result<BidResponse, string>)
    returns (r: Result<seq<BidResponse>, BidError>)
    ensures r == ParseLines(responses, decode)
  {
    var bidResponses: seq<BidResponse> := [];
    var i := 0;
    while i < |responses|
      invariant 0 <= i <= |responses|
      invariant ParseLines(responses[..i], decode) == Ok(bidResponses)
    {
      ParseLinesStep(responses, i, decode);
      var respStr := TrimSpace(responses[i]);
      if respStr != "" {
        var decoded := decode(respStr);
        if decoded.Err? {
          ParseStopsAtError(responses, i + 1, decode);
          return Err(BadResponse(decoded.error, respStr));
        }
        bidResponses := bidResponses + [decoded.value];
      }
      i := i + 1;
    }
    assert responses[..i] == responses;
    r := Ok(bidResponses);
  }

  /** Once a prefix of the lines fails to parse, so do all the lines. */
  lemma {:induction false} ParseStopsAtError(lines: seq<string>, k: nat, decode: string -> Result<BidResponse, string>)
    requires k <= |lines| && ParseLines(lines[..k], decode).Err?
    ensures ParseLines(lines, decode) == ParseLines(lines[..k], decode)
    decreases |lines| - k
  {
    if k < |lines| {
      assert lines[..k + 1][..k] == lines[..k];
      ParseStopsAtError(lines, k + 1, decode);
    } else {
      assert lines[..k] == lines;
    }
  }
}
