# Preconfirmation blob bidder: a Dafny model

This project models the core of the preconfirmation blob bidder. On every
new chain head the bidder makes a transaction and bids for its
preconfirmation on the mev-commit bidder API. The model covers five parts:

- **SendTx** (`core/eth/sendtx.go`): the fee policy of the self-transfer
  and of the EIP-4844 blob transaction. After each "replacement transaction
  underpriced" rejection, a loop re-signs the blob transaction with its fee
  cap raised by 5%, for at most five sends.
- **Bundle** (`core/eth/bundle.go`): the `eth_sendBundle` JSON-RPC request
  that carries one signed transaction to a builder for a target block.
- **BlobMonitor** (`geth/subscribe_blobs.go`): a monitor that keeps blob
  transactions seen in gossip. On each header it retires those that the
  block included or that a later nonce replaced, and counts the ones that
  are still viable at the current blob base fee.
- **BidderApi** (`core/mevcommit/bidderapi.go`): the library's `SendBid`.
- **SendBlob** (`cmd/sendblob.go`): the command.
  - It settles the bidder address.
  - It connects to the node with retries.
  - On each head it sends the transaction as a payload bid, or as a bundle
    followed by a hash bid.
  - Its own `SendBid` reads one response per line of the reply.

Shared modules:

| module | contents |
|---|---|
| `Results` | Option and Result |
| `EthTypes` | bytes, hashes, uint64/uint256 ranges, wrap-around and `int64()` |
| `Text` | the Go `strings` functions the code calls |
| `Hex` | hex DATA and QUANTITY encodings, each with its decoder |
| `Eip4844` | the blob gas rules of EIP-4844 that go-ethereum's `eip4844` package implements |
| `Http` | the result of one HTTP exchange |
| `Bids` | the bid request and response, and the input handling both `SendBid`s share |

Every call into a node, a signer, a JSON codec, the network or the clock
is a parameter of the modelled function: an oracle function, or a record
of the answers. How the code combines those answers is modelled exactly:
the order of error checks, the fee arithmetic, the loops and their bounds.

Where the code state-changes in place it is modelled imperatively:

- The monitor is a class: `BlobMonitor.Monitor`, with its fields, its
  per-event methods and its select loop.
- The replacement loop, the response-parsing loop, the dial and reconnect
  loops and the head loop are methods with loops.
  - The replacement, response-parsing and head loops are each proved equal
    to a function that describes their result (`RetryFrom`, `ParseLines`,
    `RunLoop`).
  - The dial loop (`ConnectRPCClientWithRetries`) and the reconnect loop
    (`ReconnectWSClient`) have no such function. Their postconditions state
    directly which attempts were made, which failed and what is returned.

Where the written code and the design description disagree, the model
follows the code:

- A failed bundle send does not end the round: the hash bid is still sent
  (`cmd/sendblob.go:161-165`).
- The "+5%" fee-cap raise is `feeCap * 105 / 100` in integers. It raises
  the fee cap only when the fee cap is at least 20 wei.
- Reconnecting makes at most ten subscription attempts. Only the dial
  inside each attempt (`connectWSClient`) retries without bound.
- The monitor asks a single node, not several observers.
- The tip's upper bound is 50 * 20 gwei = 1000 gwei, not the 0.5 gwei that
  a comment beside it states.
- After five underpriced rejections the loop reports success, not a
  failure (see Findings).

## Model

| member | source | states |
|---|---|---|
| `EthTypes.AddU64` | core/eth/sendtx.go:307 | the target block `blockNumber + offset` is the sum modulo 2^64, and equals the sum exactly when no overflow occurs |
| `EthTypes.ToInt64` | cmd/sendblob.go:158 | `int64(blockNumber)` keeps values below 2^63, maps the rest to negatives, and is congruent to the input modulo 2^64 |
| `Text.TrimPrefix` | cmd/sendblob.go:276 | removes a leading prefix when present (putting it back gives the input), and otherwise leaves the string unchanged |
| `Text.TrimPrefixOnce` | cmd/sendblob.go:280 | only one copy of the prefix is removed |
| `Text.ContainsInfix` | core/eth/sendtx.go:258 | a message that contains the underpriced text anywhere is recognised |
| `Text.Split` | cmd/sendblob.go:382 | splitting on newline gives at least one piece, and no piece contains a newline |
| `Text.JoinSplit` | cmd/sendblob.go:382 | joining the pieces with the separator gives back the body |
| `Text.SplitJoin` | cmd/sendblob.go:382 | splitting a join of separator-free pieces gives back the pieces |
| `Text.TrimLeft` | cmd/sendblob.go:387 | drops exactly the leading white space |
| `Text.TrimRight` | cmd/sendblob.go:387 | drops exactly the trailing white space |
| `Text.TrimSpaceSlice` | cmd/sendblob.go:387 | TrimSpace keeps the contiguous slice that starts where the leading white space ends, and only white space follows it |
| `Text.TrimSpaceTrimmed` | cmd/sendblob.go:387 | what TrimSpace keeps neither starts nor ends with a white space character |
| `Text.TrimSpaceEmpty` | cmd/sendblob.go:388 | a line is skipped exactly when it is all white space |
| `Hex.EncodeBytes` | cmd/sendblob.go:288 | two lower-case hex digits per byte |
| `Hex.DecodeEncodeBytes` | cmd/sendblob.go:288 | decoding the hex of a transaction gives back its bytes |
| `Hex.EncodeDecodeBytes` | cmd/sendblob.go:297 | a lower-case hex string that decodes is the encoding of what it decodes to |
| `Hex.EncodeData` | core/eth/bundle.go:35 | `hexutil.Encode` is "0x" followed by lower-case digits, two per byte |
| `Hex.DataRoundTrip` | core/eth/bundle.go:35 | the DATA encoding decodes back to the bytes |
| `Hex.DataCanonical` | core/eth/bundle.go:35 | the DATA encoding is the only lower-case spelling of its bytes |
| `Hex.NatToHex` | core/eth/bundle.go:27 | the numeral is non-empty lower-case hex |
| `Hex.HexToNatOfNatToHex` | core/eth/bundle.go:27 | the numeral reads back as the number |
| `Hex.NatToHexMinimal` | core/eth/bundle.go:27 | the numeral has no leading zero unless the number is zero |
| `Hex.NatToHexOfHexToNat` | core/eth/bundle.go:27 | a numeral without a leading zero is the numeral of its value |
| `Hex.EncodeUint64` | core/eth/bundle.go:27 | `hexutil.EncodeUint64` is "0x" and 1 to 16 lower-case digits, beginning with '0' only for zero |
| `Hex.QuantityRoundTrip` | core/eth/bundle.go:27 | the QUANTITY encoding decodes back to the block number |
| `Hex.QuantityCanonical` | core/eth/bundle.go:27 | the QUANTITY encoding is the only lower-case spelling of its value |
| `Eip4844.CalcExcessBlobGas` | core/eth/sendtx.go:192 | the excess is the parent's excess plus its used blob gas less the target, or zero when the sum is below the target |
| `Eip4844.SeriesFrom` | core/eth/sendtx.go:193 | the fake-exponential sum terminates and is at least its first term |
| `Eip4844.BlobFeeAtLeastMinimum` | core/eth/sendtx.go:193 | the blob base fee is never below the minimum of 1 wei, and is exactly the minimum when there is no excess |
| `Bundle.BuildPayload` | core/eth/bundle.go:27-41 | the payload is JSON-RPC "2.0" `eth_sendBundle` with id 1 and one parameter map; its single transaction decodes to the binary encoding and its block number decodes to `blkNum` |
| `Bundle.PayloadCanonical` | core/eth/bundle.go:27-41 | both fields use their canonical spelling, and the block number is "0x0" exactly for block 0 |
| `Bundle.SendBundle` | core/eth/bundle.go:21-67 | a binary-encoding failure ends the process; it returns an error exactly when JSON marshalling fails, and then with that error; otherwise it returns the reply body of the POST |
| `Bundle.AnyStatusDelivers` | core/eth/bundle.go:55-66 | every reply, whatever its HTTP status, is returned as a body with no error |
| `SendTx.SelfTransferFees` | core/eth/sendtx.go:62-68 | tip = 10 x base fee, fee cap = 100 x base fee; the cap is at least the tip, and strictly above it exactly when the base fee is positive |
| `SendTx.SelfETHTransfer` | core/eth/sendtx.go:50-108 | errors surface in call order (nonce, header, network id, sign, encode, send); on success the transaction sent is the one built from the nonce and base fee, and the result is its hash in hex |
| `SendTx.SuggestGasTipAndFeeCap` | core/eth/sendtx.go:352-381 | succeeds exactly when both suggestions succeed, and returns both; a tip error is reported before a gas-price error |
| `SendTx.BlobFeeCap` | core/eth/sendtx.go:192-203 | the blob fee cap is at least one above the chain's blob fee, and at most twice that |
| `SendTx.AdjustedTip` | core/eth/sendtx.go:206-214 | the tip is the suggestion plus 20 gwei, capped at 1000 gwei, so it lies in [20 gwei, 1000 gwei] |
| `SendTx.InitialFeeCap` | core/eth/sendtx.go:216-220 | the fee cap is twice the tip, plus one exactly when the suggested gas price is at most twice the tip; it is above any positive tip |
| `SendTx.Bump` | core/eth/sendtx.go:260-261 | one replacement raises the fee cap by at most 100%, and strictly once it is at least 20 wei |
| `SendTx.BumpNBounds` | core/eth/sendtx.go:258-282 | after k replacements the fee cap is between its start and start x 2^k |
| `SendTx.BumpNIncreasing` | core/eth/sendtx.go:258-282 | the fee caps of successive attempts strictly increase |
| `SendTx.PrepareBlobTx` | core/eth/sendtx.go:135-244 | the non-ECDSA key, chain id, nonce, tip and gas-price errors surface in that order; once all queries answer, a chain id or blob fee cap of 2^256 or more crashes, then the transactor's and the signer's errors surface, and otherwise the transaction built from the answers is ready, signed; a prepared transaction carries the node's chain id and nonce with the derived tip, fee cap and blob fee cap |
| `SendTx.PreparedTxFees` | core/eth/sendtx.go:189-233 | the first transaction sent has a tip in [20, 1000] gwei, a fee cap above the tip, a blob fee cap above the chain's blob fee, gas 500000 and the sender as recipient |
| `SendTx.FeeCapsFitU256` | core/eth/sendtx.go:264-268 | five replacements cannot push the fee cap past 256 bits, so `uint256.MustFromBig` never panics on it |
| `SendTx.Pow2Mono` | core/eth/sendtx.go:258-282 | the 2^k bound on the fee-cap growth is monotone in the number of replacements |
| `SendTx.BumpNShift` | core/eth/sendtx.go:260-261 | a bump followed by k bumps is k+1 bumps |
| `SendTx.RetryShape` | core/eth/sendtx.go:246-282 | a run makes 1 to 5 sends; the first is the prepared transaction, and the k-th differs only in a fee cap bumped k times |
| `SendTx.RetryRejectedBeforeLast` | core/eth/sendtx.go:251-280 | every send but the last was rejected as underpriced: any other outcome ends the loop |
| `SendTx.RetryStopCases` | core/eth/sendtx.go:246-286 | the end of the run, read off the last send: delivery gives no error, a process exit gives an exit, any other error ends the run with that error, and an underpriced last send gives a re-sign failure or, after all attempts, no error and an unsent re-bid |
| `SendTx.AllRejectedRunsOut` | core/eth/sendtx.go:246-282 | when every send is rejected as underpriced and every re-sign succeeds, all the remaining attempts are used |
| `SendTx.ExhaustedReportsSuccess` | core/eth/sendtx.go:258-286 | five underpriced rejections end with no error and with a transaction that was never sent |
| `SendTx.SingleSendWhenJsonEncodes` | core/eth/sendtx.go:246-282 | because sendBundle errs only on a JSON failure, with a working encoder the loop sends exactly once and never raises the fee cap |
| `SendTx.CheckedSuccessWasDelivered` | core/eth/sendtx.go:258-286 | in the corrected loop, success is reported exactly when the last transaction sent was delivered, and then for that transaction |
| `SendTx.SendWithReplacement` | core/eth/sendtx.go:246-282 | the loop that reassigns the fee cap, the signed transaction and the error yields exactly the run RetryFrom describes |
| `SendTx.ExecuteBlobTransaction` | core/eth/sendtx.go:135-308 | preparation errors are returned as they are; otherwise the result is the replacement run's end, and a submitted transaction targets parent number + offset (uint64 addition) |
| `SendTx.FinishedHoldsRebid` | core/eth/sendtx.go:246-282 | a finished run holds the prepared transaction with its fee cap bumped at most five times |
| `SendTx.SubmittedFees` | core/eth/sendtx.go:246-286 | a finished run's transaction keeps a fee cap above its tip and within 256 bits |
| `BlobMonitor.NextBaseFee` | geth/subscribe_blobs.go:123-125 | a header with excess blob gas sets the blob base fee to CalcBlobFee of it, at least 1 wei; otherwise the base fee is kept |
| `BlobMonitor.FateMeaning` | geth/subscribe_blobs.go:141-177 | iff conditions: included when the receipt names this block; replaced when not included and the account's nonce has passed the transaction's; viable when the nonces are equal and the blob fee cap covers the base fee |
| `BlobMonitor.Survivors` | geth/subscribe_blobs.go:141-177 | the pending map after a header is a sub-map of the one before |
| `BlobMonitor.SurvivorsPartition` | geth/subscribe_blobs.go:136-182 | the pending keys split disjointly into kept, included and replaced, and the counts add up |
| `BlobMonitor.ViableAreKept` | geth/subscribe_blobs.go:168-176 | viable transactions are among those kept |
| `BlobMonitor.ReportConsistent` | geth/subscribe_blobs.go:179-190 | the reported pending count never grows; inclusions are exactly the drop; viable transactions are at most the current pending count |
| `BlobMonitor.HeaderIdempotent` | geth/subscribe_blobs.go:141-177 | handling the same header again with the same answers retires nothing and reports no inclusions |
| `BlobMonitor.ReplayAddsOnlyGossip` | geth/subscribe_blobs.go:112-120 | every pending key after a run of events was pending before, or arrived as a blob transaction during the run |
| `BlobMonitor.Monitor.constructor` | geth/subscribe_blobs.go:88-90 | the monitor starts with a zero base fee and empty maps |
| `BlobMonitor.Monitor.OnPendingTx` | geth/subscribe_blobs.go:112-120 | a blob transaction is recorded under its hash with its arrival time; any other transaction changes nothing; the base fee is kept |
| `BlobMonitor.Monitor.OnHeader` | geth/subscribe_blobs.go:122-192 | the base fee is updated; the pending map becomes the survivors with the time map restricted to match; the report equals the counts of viable, included and replaced entries and their blobs |
| `BlobMonitor.Monitor.Run` | geth/subscribe_blobs.go:92-193 | the loop stops at the first subscription error; the state is the replay of the handled events, with one report per header |
| `BlobMonitor.Reconcile` | geth/subscribe_blobs.go:141-177 | visiting the entries in any order and deleting retired ones gives the survivors, with the viable count, viable blobs and included blobs of the whole map |
| `Bids.TrimHashes` | cmd/sendblob.go:277-281 | one leading "0x" is removed from each hash, preserving length and order |
| `Bids.TrimHashesOfPrefixed` | cmd/sendblob.go:277-281 | hashes written with "0x" come back bare |
| `Bids.RawTransactions` | cmd/sendblob.go:289-298 | succeeds exactly when every transaction encodes, giving the hex of each in order; otherwise it fails with the first encoding error |
| `Bids.RawTransactionsDecode` | cmd/sendblob.go:289-298 | each raw transaction decodes back to its binary encoding |
| `Bids.NewBidRequest` | cmd/sendblob.go:304-318 | each list is set exactly when non-empty; the scalars are copied; there are no reverting hashes |
| `Bids.NonBlankLines` | cmd/sendblob.go:386-390 | the trimmed non-blank lines, none of them empty |
| `Bids.NonBlankLinesAppend` | cmd/sendblob.go:386-390 | the lines are taken one by one: those of a concatenation are those of each part, in order |
| `Bids.NonBlankLine` | cmd/sendblob.go:387-390 | one line contributes itself trimmed, or nothing when it is blank |
| `Bids.ParseLinesStep` | cmd/sendblob.go:386-396 | one more line keeps an earlier error, adds nothing when blank, and otherwise adds its response or fails with its decoder error |
| `Bids.ParseLinesSucceeds` | cmd/sendblob.go:381-402 | when every non-blank line decodes, there is one response per non-blank line, in order |
| `Bids.ParseLinesFails` | cmd/sendblob.go:386-396 | otherwise the error is that of the first non-blank line that does not decode |
| `BidderApi.Inputs` | core/mevcommit/bidderapi.go:57-76 | accepts only a list of hashes or a list of transactions; a single hash, a single transaction or anything else is refused, naming its type |
| `BidderApi.NewBidRequest` | core/mevcommit/bidderapi.go:78-91 | the hash list when non-empty, else the raw list when non-empty; never both |
| `BidderApi.SameRequestAsSendBlob` | core/mevcommit/bidderapi.go:87-91 | for the inputs it accepts, the request is the same as the one cmd/sendblob.go builds |
| `BidderApi.SendBid` | core/mevcommit/bidderapi.go:52-161 | input errors, transport failures and non-200 statuses become errors; a 200 body is decoded whole, as a single response |
| `BidderApi.ServerAddressIgnored` | core/mevcommit/bidderapi.go:121 | the result does not depend on the Bidder's server address |
| `SendBlob.BidderAddress` | cmd/sendblob.go:42-50 | the address always has a port: empty gives 127.0.0.1:13523, an address with ':' is kept, and any other gets ":13523" |
| `SendBlob.BidderAddressIdempotent` | cmd/sendblob.go:42-50 | settling the address twice changes nothing |
| `SendBlob.Inputs` | cmd/sendblob.go:274-302 | one hash or a hash list is trimmed; one transaction or a list is hex-encoded, with the first encoding error; anything else is refused; never both lists |
| `SendBlob.SingleIsOneElementList` | cmd/sendblob.go:274-298 | a single hash or transaction is handled as the one-element list holding it |
| `SendBlob.SendBidResult` | cmd/sendblob.go:269-403 | input errors, transport failures and non-200 statuses become errors; a 200 body is parsed line by line |
| `Bids.ParseBidLines` | cmd/sendblob.go:386-399 | the trim-skip-decode loop over the body's lines yields exactly ParseLines of those lines |
| `Bids.ParseStopsAtError` | cmd/sendblob.go:393-396 | once a line fails to decode, later lines do not change the result |
| `SendBlob.SendBid` | cmd/sendblob.go:269-403 | the method's result is SendBidResult |
| `SendBlob.SendPreconfBid` | cmd/sendblob.go:238-267 | the bid goes out with decay from now to now + 36000 ms |
| `SendBlob.PreconfBidWindow` | cmd/sendblob.go:253-261 | every bid request decays over exactly 36000 ms from now, and carries the block and amount |
| `SendBlob.ConnectRPCClientWithRetries` | cmd/sendblob.go:183-202 | at most max(maxRetries, 0) dials; the first successful dial is returned; after failed dial i the sleep is 10 x 2^i ns |
| `SendBlob.ConnectWSClient` | cmd/sendblob.go:204-213 | returns the first successful dial after all earlier ones failed; never returns an error, and keeps dialing while dials fail |
| `SendBlob.ReconnectDecidesLoop` | cmd/sendblob.go:137-140 | after a subscription error the head loop goes on with the next events exactly when reconnectWSClient reconnected, and stops otherwise |
| `SendBlob.ReconnectWSClient` | cmd/sendblob.go:216-235 | reconnects at the first successful subscription within ten rounds; hangs in a dial that never succeeds; gives up exactly when all ten subscriptions fail |
| `SendBlob.HeadDispatch` | cmd/sendblob.go:142-172 | a failed transfer crashes at the log line; in payload mode the transaction is bid for; otherwise the bundle is sent, and unless it exits the process the hash is bid for, even after a bundle error |
| `SendBlob.OneBidPerHead` | cmd/sendblob.go:142-172 | each head that does not stop the process gives exactly one bid, and one that stops it gives none |
| `SendBlob.PayloadBidPerHead` | cmd/sendblob.go:133-174 | with no timer, recovered subscriptions and successful transfers, payload mode bids once per head and never stops |
| `SendBlob.RunBidder` | cmd/sendblob.go:133-174 | the select loop's actions and stop reason are those RunLoop describes |

## Left out

- I/O, logging and clocks are out of the model. File writes (`saveTransactionParameters`, `saveBidRequest`, `saveBidResponses`), log output and metrics recording have no effect on results. Wall-clock times and sleeps are parameters or recorded values.
- Cryptography is left out. Keys, signatures, transaction hashing, RLP/binary encoding, random blobs and KZG commitments (`randBlobs`, `makeSidecar`) are oracle parameters.
- JSON encoding and decoding are parameters. The bid request's `json.Marshal` error path is left out: that struct of strings and integers always encodes.
- Concurrency is modelled as sequential calls. The goroutines fetching the nonce and fee suggestions are joined before their errors are read, so sequential calls give the same results. Which ready channel Go's `select` picks is modelled by the order of the event sequence.
- The `sync.Once` chain-id cache in `getChainID` is not modelled: each call's chain id is a parameter.
- `sendPrivateRawTransaction` is not modelled: nothing in the core calls it.
- The random bid amount (a float between 0.00005 and 0.009 ETH) is left out: it arrives already formatted as a string.
- The command calls `SelfETHTransfer` with arguments and results that do not match its signature in `core/eth`, and calls an `ee.SendBundle` that `core/eth` does not export (its `sendBundle` takes the same arguments). The head loop therefore takes the transfer's result (transaction, hash, block number) as a parameter and the bundle send as an oracle.
- Environment-variable parsing other than the bidder address (`parseBoolEnvVar`, `parseUintEnvVar`) and the fatal checks on missing variables are left out.
- `numBlobs` is left out: it only sizes the random blobs and appears in logs.
- A nil `header.BaseFee` panics in the monitor's log line; this panic is not modelled.
- SendTx.PrepareBlobTx: requires a parent header that carries both blob fields (the source dereferences both without a check), so a nil-pointer panic there is not modelled.
- Eip4844.CalcExcessBlobGas: does not model uint64 overflow of the parent's excess plus used blob gas, which consensus rules keep far below 2^64.
- SendBlob.SendPreconfBid: does not model int64 overflow of now + 36000 ms.
- SendBlob.ConnectRPCClientWithRetries: the sleep is exact for attempts below 2^53, where the source's `math.Pow` float is exact, and does not model `time.Duration` overflow.
- SendBlob.ConnectWSClient: the source retries without bound; the model reads a finite sequence of dial results and reports StillDialing when they run out.
- SendBlob.RunBidder: a reconnect that gives up (`log.Crit`) and one that hangs in a dial are both a stopped loop.

## Findings

| source | as written | input that shows it | evidently intended | confidence | as-written member | corrected member |
|---|---|---|---|---|---|---|
| core/eth/sendtx.go:275 | after an underpriced rejection, `signedTx, err = auth.Signer(...)` overwrites the send's error with the re-sign's nil, so when the fifth send is also rejected the loop ends with `err == nil` | every send answers "replacement transaction underpriced" and every re-sign succeeds: five sends, then success is reported with the hash of a sixth transaction that was never sent. The defect is latent: the loop sends through `sendBundle` (core/eth/sendtx.go:251,255), which returns an error only when `json.Marshal` fails and hands back every HTTP reply as a body with no error (core/eth/bundle.go:43-66), so no send is reported as underpriced today (`SendTx.SingleSendWhenJsonEncodes`); the input shows it once sendBundle surfaces the node's rejection | a fifth rejection surfaces as "failed to replace transaction after 5 attempts" | not executed | `SendTx.ExhaustedReportsSuccess` | `SendTx.CheckedSuccessWasDelivered` |
