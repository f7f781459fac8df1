/** geth/subscribe_blobs.go: a monitor that keeps the blob transactions seen
    in gossip and, on each new block header, retires those that the block
    included or that a later transaction of the same account replaced, and
    counts the ones that could still be included. The node is a ChainView of
    lookups; wall-clock time is a parameter. */
module BlobMonitor {
  import opened Results
  import opened EthTypes
  import Eip4844

  /** The type byte of an EIP-4844 blob transaction. */
  const BlobTxType: nat := 3

  /** The parts of a gossiped transaction the monitor reads. */
  datatype GossipTx = GossipTx(hash: Hash, txType: nat, nonce: nat, blobGasFeeCap: nat, blobHashes: seq<Hash>)

  datatype Header = Header(hash: Hash, excessBlobGas: Option<nat>)

  datatype Receipt = Receipt(blockHash: Hash)

  /** The node's answers while one header is handled: the receipt of a
      transaction, the sender recovered from its signature, and an account's
      nonce at a block. */
  datatype ChainView = ChainView(
    receipt: Hash -> Result<Receipt, string>,
    sender: GossipTx -> Result<Address, string>,
    nonceAt: (Address, Hash) -> Result<nat, string>)

  /** What a header does to one pending transaction. */
  datatype Fate = Included | Replaced | Kept(viable: bool)

  /** The blob base fee after header `h`: recomputed when the header carries
      an excess-blob-gas field, otherwise the previous value. */
  function NextBaseFee(current: nat, h: Header): (r: nat)
    ensures h.excessBlobGas.None? ==> r == current
    ensures h.excessBlobGas.Some? ==> r == Eip4844.CalcBlobFee(h.excessBlobGas.value) && r >= 1
  {
    if h.excessBlobGas.Some? then
      Eip4844.BlobFeeAtLeastMinimum(h.excessBlobGas.value);
      Eip4844.CalcBlobFee(h.excessBlobGas.value)
    else current
  }

  /** The reconciliation of one pending transaction against header `h`
      (lines 142-176): included when its receipt names this block; when the
      sender or its nonce cannot be looked up, kept and not counted;
      replaced when the account's nonce has passed the transaction's; kept
      and counted as viable when the nonces are equal and the blob fee cap
      covers the blob base fee. */
  function FateOf(tx: GossipTx, h: Header, view: ChainView, baseFee: nat): Fate
  {
    var r := view.receipt(tx.hash);
    if r.Ok? && r.value.blockHash == h.hash then Included
    else match view.sender(tx)
      case Err(_) => Kept(false)
      case Ok(account) =>
        match view.nonceAt(account, h.hash)
        case Err(_) => Kept(false)
        case Ok(accountNonce) =>
          if tx.nonce < accountNonce then Replaced
          else if tx.nonce != accountNonce then Kept(false)
          else Kept(tx.blobGasFeeCap >= baseFee)
  }

  /** The conditions under which each fate is given, in both directions
      for the two fates that retire an entry and for viability. */
  lemma FateMeaning(tx: GossipTx, h: Header, view: ChainView, baseFee: nat)
    ensures var f := FateOf(tx, h, view, baseFee);
      var included := view.receipt(tx.hash).Ok? && view.receipt(tx.hash).value.blockHash == h.hash;
      var nonce := if view.sender(tx).Ok? then view.nonceAt(view.sender(tx).value, h.hash) else Err("");
      && (f == Included <==> included)
      && (f == Replaced <==> !included && view.sender(tx).Ok? && nonce.Ok? && tx.nonce < nonce.value)
      && (f == Kept(true) <==> !included && view.sender(tx).Ok? && nonce == Ok(tx.nonce) && tx.blobGasFeeCap >= baseFee)
  {
  }

  /** The pending map after header `h`: the entries the header does not retire. */
  function Survivors(pending: map<Hash, GossipTx>, h: Header, view: ChainView, baseFee: nat): (m: map<Hash, GossipTx>)
    ensures m.Keys <= pending.Keys
    ensures forall k :: k in m ==> m[k] == pending[k]
  {
    map k | k in pending && FateOf(pending[k], h, view, baseFee).Kept? :: pending[k]
  }

  function KeysWithFate(pending: map<Hash, GossipTx>, h: Header, view: ChainView, baseFee: nat, fate: Fate): set<Hash> {
    set k | k in pending && FateOf(pending[k], h, view, baseFee) == fate
  }

  /** The number of blobs carried by the entries of `pending` named in `keys`. */
  ghost function BlobSum(pending: map<Hash, GossipTx>, keys: set<Hash>): nat
    requires keys <= pending.Keys
  {
    if keys == {} then 0
    else
      var k :| k in keys;
      |pending[k].blobHashes| + BlobSum(pending, keys - {k})
  }

  /** BlobSum does not depend on which key it takes first: any key can be
      split off. */
  lemma {:induction false} BlobSumSplit(pending: map<Hash, GossipTx>, keys: set<Hash>, y: Hash)
    requires keys <= pending.Keys && y in keys
    ensures BlobSum(pending, keys) == |pending[y].blobHashes| + BlobSum(pending, keys - {y})
    decreases |keys|
  {
    var k :| k in keys && BlobSum(pending, keys) == |pending[k].blobHashes| + BlobSum(pending, keys - {k});
    if k != y {
      BlobSumSplit(pending, keys - {k}, y);
      BlobSumSplit(pending, keys - {y}, k);
      assert keys - {k} - {y} == keys - {y} - {k};
    }
  }

  lemma BlobSumAdd(pending: map<Hash, GossipTx>, keys: set<Hash>, y: Hash)
    requires keys <= pending.Keys && y in pending && y !in keys
    ensures BlobSum(pending, keys + {y}) == BlobSum(pending, keys) + |pending[y].blobHashes|
  {
    BlobSumSplit(pending, keys + {y}, y);
    assert keys + {y} - {y} == keys;
  }

  lemma {:induction false} SubsetCardinality(a: set<Hash>, b: set<Hash>)
    requires a <= b
    ensures |a| <= |b|
    ensures |b - a| == |b| - |a|
    decreases |a|
  {
    if a != {} {
      var x :| x in a;
      SubsetCardinality(a - {x}, b - {x});
      assert b - {x} - (a - {x}) == b - a;
    }
  }

  lemma PartitionCardinality(all: set<Hash>, kept: set<Hash>, included: set<Hash>, replaced: set<Hash>)
    requires all == kept + included + replaced
    requires kept !! included && kept !! replaced && included !! replaced
    ensures |all| == |kept| + |included| + |replaced|
  {
    SubsetCardinality(kept, all);
    assert all - kept == included + replaced;
    SubsetCardinality(included, included + replaced);
    assert included + replaced - included == replaced;
  }

  lemma PartitionKeys(pending: map<Hash, GossipTx>, h: Header, view: ChainView, baseFee: nat)
    ensures var included := KeysWithFate(pending, h, view, baseFee, Included);
      var replaced := KeysWithFate(pending, h, view, baseFee, Replaced);
      var kept := Survivors(pending, h, view, baseFee).Keys;
      && kept !! included && kept !! replaced && included !! replaced
      && pending.Keys == kept + included + replaced
  {
    var included := KeysWithFate(pending, h, view, baseFee, Included);
    var replaced := KeysWithFate(pending, h, view, baseFee, Replaced);
    var kept := Survivors(pending, h, view, baseFee).Keys;
    forall k | k in pending.Keys ensures k in kept || k in included || k in replaced {
      var f := FateOf(pending[k], h, view, baseFee);
      assert f.Kept? || f == Included || f == Replaced;
    }
  }

  /** Handling a header never adds an entry, so the pending map shrinks by
      exactly the entries the header retires: those it included and those
      a later nonce replaced. */
  lemma SurvivorsPartition(pending: map<Hash, GossipTx>, h: Header, view: ChainView, baseFee: nat)
    ensures var included := KeysWithFate(pending, h, view, baseFee, Included);
      var replaced := KeysWithFate(pending, h, view, baseFee, Replaced);
      var survivors := Survivors(pending, h, view, baseFee);
      && survivors.Keys !! included && survivors.Keys !! replaced && included !! replaced
      && pending.Keys == survivors.Keys + included + replaced
      && |pending| == |survivors| + |included| + |replaced|
  {
    PartitionKeys(pending, h, view, baseFee);
    PartitionCardinality(pending.Keys, Survivors(pending, h, view, baseFee).Keys,
                         KeysWithFate(pending, h, view, baseFee, Included), KeysWithFate(pending, h, view, baseFee, Replaced));
  }

  /** The viable transactions are among those kept. */
  lemma ViableAreKept(pending: map<Hash, GossipTx>, h: Header, view: ChainView, baseFee: nat)
    ensures var viable := KeysWithFate(pending, h, view, baseFee, Kept(true));
      viable <= Survivors(pending, h, view, baseFee).Keys
      && |viable| <= |Survivors(pending, h, view, baseFee)|
  {
    SubsetCardinality(KeysWithFate(pending, h, view, baseFee, Kept(true)), Survivors(pending, h, view, baseFee).Keys);
  }

  /** What the monitor reports for a header (lines 136-190). */
  datatype BlockReport = BlockReport(
    previousPending: nat, currentPending: nat, viableTxs: nat, viableBlobs: nat,
    inclusions: nat, blobsIncluded: nat)

  /** The report that handling `h` produces from the pending map `pending`
      with blob base fee `baseFee` (already updated for `h`): the reported
      inclusions are the included and the replaced transactions together. */
  ghost function ExpectedReport(pending: map<Hash, GossipTx>, h: Header, view: ChainView, baseFee: nat): BlockReport {
    var viable := KeysWithFate(pending, h, view, baseFee, Kept(true));
    var included := KeysWithFate(pending, h, view, baseFee, Included);
    var replaced := KeysWithFate(pending, h, view, baseFee, Replaced);
    BlockReport(|pending|, |Survivors(pending, h, view, baseFee)|, |viable|, BlobSum(pending, viable),
                |included| + |replaced|, BlobSum(pending, included))
  }

  /** The report's counts agree with each other: the inclusions are the
      drop in the number of pending transactions, and the viable ones are
      among those still pending. */
  lemma ReportConsistent(pending: map<Hash, GossipTx>, h: Header, view: ChainView, baseFee: nat)
    ensures var r := ExpectedReport(pending, h, view, baseFee);
      && r.currentPending <= r.previousPending
      && r.inclusions == r.previousPending - r.currentPending
      && r.viableTxs <= r.currentPending
  {
    SurvivorsPartition(pending, h, view, baseFee);
    ViableAreKept(pending, h, view, baseFee);
  }

  /** Handling the same header again with the same node answers retires
      nothing more and reports no inclusions. */
  lemma HeaderIdempotent(pending: map<Hash, GossipTx>, h: Header, view: ChainView, baseFee: nat)
    ensures var once := Survivors(pending, h, view, baseFee);
      && Survivors(once, h, view, baseFee) == once
      && ExpectedReport(once, h, view, baseFee).inclusions == 0
  {
    var once := Survivors(pending, h, view, baseFee);
    SurvivorsPartition(once, h, view, baseFee);
    assert KeysWithFate(once, h, view, baseFee, Included) == {};
    assert KeysWithFate(once, h, view, baseFee, Replaced) == {};
  }

  /** The pending map part way through the reconciliation loop: entries
      still to visit, and the visited ones that were kept. */
  ghost function PartlyReconciled(pending: map<Hash, GossipTx>, toVisit: set<Hash>, h: Header, view: ChainView, baseFee: nat): map<Hash, GossipTx> {
    map k | k in pending && (k in toVisit || FateOf(pending[k], h, view, baseFee).Kept?) :: pending[k]
  }

  /** The visited entries with fate `fate`. */
  ghost function Visited(pending: map<Hash, GossipTx>, toVisit: set<Hash>, h: Header, view: ChainView, baseFee: nat, fate: Fate): set<Hash> {
    set k | k in pending && k !in toVisit && FateOf(pending[k], h, view, baseFee) == fate
  }

  function Restrict(m: map<Hash, nat>, keys: set<Hash>): map<Hash, nat> {
    map k | k in m && k in keys :: m[k]
  }

  lemma RestrictRemove(m: map<Hash, nat>, keys: set<Hash>, k: Hash)
    ensures Restrict(m, keys - {k}) == Restrict(m, keys) - {k}
  {
  }

  lemma RestrictKeys(m: map<Hash, nat>, keys: set<Hash>)
    requires keys <= m.Keys
    ensures Restrict(m, keys).Keys == keys
  {
  }

  lemma RestrictAll(m: map<Hash, nat>)
    ensures Restrict(m, m.Keys) == m
  {
  }

  lemma VisitStep(pending: map<Hash, GossipTx>, toVisit: set<Hash>, hash: Hash, h: Header, view: ChainView, baseFee: nat)
    requires hash in toVisit && toVisit <= pending.Keys
    ensures var fate := FateOf(pending[hash], h, view, baseFee);
      var before := PartlyReconciled(pending, toVisit, h, view, baseFee);
      PartlyReconciled(pending, toVisit - {hash}, h, view, baseFee) == (if fate.Kept? then before else before - {hash})
  {
  }

  lemma VisitCount(pending: map<Hash, GossipTx>, toVisit: set<Hash>, hash: Hash, h: Header, view: ChainView, baseFee: nat, f: Fate)
    requires hash in toVisit && toVisit <= pending.Keys
    ensures Visited(pending, toVisit - {hash}, h, view, baseFee, f) ==
      if FateOf(pending[hash], h, view, baseFee) == f then Visited(pending, toVisit, h, view, baseFee, f) + {hash}
      else Visited(pending, toVisit, h, view, baseFee, f)
  {
  }

  lemma VisitDone(pending: map<Hash, GossipTx>, h: Header, view: ChainView, baseFee: nat)
    ensures PartlyReconciled(pending, {}, h, view, baseFee) == Survivors(pending, h, view, baseFee)
    ensures Visited(pending, {}, h, view, baseFee, Kept(true)) == KeysWithFate(pending, h, view, baseFee, Kept(true))
    ensures Visited(pending, {}, h, view, baseFee, Included) == KeysWithFate(pending, h, view, baseFee, Included)
  {
  }

  /** The monitor's state as a value. */
  datatype MonitorState = MonitorState(baseFee: nat, pending: map<Hash, GossipTx>, times: map<Hash, nat>)

  /** The events the select loop waits on (lines 92-122). Which ready
      channel Go picks is arbitrary, so the events come as one sequence. */
  datatype Event =
    | PendingSubscriptionError(message: string)
    | HeadSubscriptionError(message: string)
    | NewPendingTx(tx: GossipTx, now: nat)
    | NewHead(header: Header, view: ChainView)

  predicate EndsLoop(e: Event) {
    e.PendingSubscriptionError? || e.HeadSubscriptionError?
  }

  /** The state after one event that does not end the loop. */
  function Apply(s: MonitorState, e: Event): MonitorState
    requires !EndsLoop(e)
  {
    match e
    case NewPendingTx(tx, now) =>
      if tx.txType == BlobTxType then MonitorState(s.baseFee, s.pending[tx.hash := tx], s.times[tx.hash := now]) else s
    case NewHead(h, view) =>
      var fee := NextBaseFee(s.baseFee, h);
      var kept := Survivors(s.pending, h, view, fee);
      MonitorState(fee, kept, Restrict(s.times, kept.Keys))
  }

  /** The state after a run of events none of which ends the loop. */
  function Replay(s: MonitorState, events: seq<Event>): MonitorState
    requires forall j :: 0 <= j < |events| ==> !EndsLoop(events[j])
  {
    if events == [] then s else Apply(Replay(s, events[..|events| - 1]), events[|events| - 1])
  }

  function CountHeads(events: seq<Event>): nat {
    if events == [] then 0 else CountHeads(events[..|events| - 1]) + (if events[|events| - 1].NewHead? then 1 else 0)
  }

  /** One more handled event: the replay applies it and the head count
      grows by one exactly when it is a head. */
  lemma ReplayStep(s: MonitorState, events: seq<Event>, n: nat)
    requires n < |events|
    requires forall j :: 0 <= j <= n ==> !EndsLoop(events[j])
    ensures Replay(s, events[..n + 1]) == Apply(Replay(s, events[..n]), events[n])
    ensures CountHeads(events[..n + 1]) == CountHeads(events[..n]) + (if events[n].NewHead? then 1 else 0)
  {
    assert events[..n + 1][..n] == events[..n];
  }

  /** Pending transactions are only ever added by the gossip subscription:
      every key after a run of events was pending before it or arrived as a
      blob transaction during it. */
  lemma {:induction false} ReplayAddsOnlyGossip(s: MonitorState, events: seq<Event>)
    requires forall j :: 0 <= j < |events| ==> !EndsLoop(events[j])
    ensures forall k :: k in Replay(s, events).pending ==>
      k in s.pending || exists j :: 0 <= j < |events| && events[j].NewPendingTx? && events[j].tx.hash == k
  {
    if events != [] {
      var init := events[..|events| - 1];
      ReplayAddsOnlyGossip(s, init);
      forall k | k in Replay(s, events).pending
        ensures k in s.pending || exists j :: 0 <= j < |events| && events[j].NewPendingTx? && events[j].tx.hash == k
      {
        if k !in Replay(s, init).pending {
          assert events[|events| - 1].NewPendingTx? && events[|events| - 1].tx.hash == k;
        } else if k !in s.pending {
          var j :| 0 <= j < |init| && init[j].NewPendingTx? && init[j].tx.hash == k;
          assert events[j] == init[j];
        }
      }
    }
  }

  /** The monitor's state: the blob base fee of the latest header, and the
      pending blob transactions with the time each was first seen, both
      keyed by transaction hash. */
  class Monitor {
    var currBaseFee: nat
    var pendingTxs: map<Hash, GossipTx>
    var txTime: map<Hash, nat>

    /** Both maps have the same keys, each key is its transaction's hash,
        and only blob transactions are kept. */
    predicate Valid()
      reads this
    {
      && pendingTxs.Keys == txTime.Keys
      && forall k :: k in pendingTxs ==> pendingTxs[k].hash == k && pendingTxs[k].txType == BlobTxType
    }

    constructor()
      ensures Valid()
      ensures currBaseFee == 0 && pendingTxs == map[] && txTime == map[]
    {
      currBaseFee := 0;
      pendingTxs := map[];
      txTime := map[];
    }

    /** A transaction from the pending-transaction subscription (lines
        112-120): blob transactions are recorded with the time `now`; other
        transactions change nothing. */
    method OnPendingTx(tx: GossipTx, now: nat)
      requires Valid()
      modifies this
      ensures Valid()
      ensures currBaseFee == old(currBaseFee)
      ensures tx.txType == BlobTxType ==>
        pendingTxs == old(pendingTxs)[tx.hash := tx] && txTime == old(txTime)[tx.hash := now]
      ensures tx.txType != BlobTxType ==> pendingTxs == old(pendingTxs) && txTime == old(txTime)
    {
      if tx.txType == BlobTxType {
        txTime := txTime[tx.hash := now];
        pendingTxs := pendingTxs[tx.hash := tx];
      }
    }

    /** A new header (lines 122-192): the blob base fee is updated, every
        pending transaction is reconciled in whatever order the map yields
        them, and the counters are reported. */
    method OnHeader(h: Header, view: ChainView) returns (report: BlockReport)
      requires Valid()
      modifies this
      ensures Valid()
      ensures currBaseFee == NextBaseFee(old(currBaseFee), h)
      ensures pendingTxs == Survivors(old(pendingTxs), h, view, currBaseFee)
      ensures txTime == Restrict(old(txTime), pendingTxs.Keys)
      ensures report == ExpectedReport(old(pendingTxs), h, view, currBaseFee)
    {
      if h.excessBlobGas.Some? {
        currBaseFee := Eip4844.CalcBlobFee(h.excessBlobGas.value);
      }
      var baseFee := currBaseFee;
      assert baseFee == NextBaseFee(old(currBaseFee), h);
      var currentPendingTxs := |pendingTxs|;
      var pending, times, tally := Reconcile(pendingTxs, txTime, h, view, baseFee);
      SurvivorsPartition(old(pendingTxs), h, view, baseFee);
      pendingTxs, txTime := pending, times;
      report := BlockReport(currentPendingTxs, |pendingTxs|, tally.viableTxs, tally.viableBlobs,
                            currentPendingTxs - |pendingTxs|, tally.blobsIncluded);
    }

    function State(): MonitorState
      reads this
    {
      MonitorState(currBaseFee, pendingTxs, txTime)
    }

    /** The select loop of lines 92-193 over a sequence of events: it stops
        at the first subscription error, and until then handles every event;
        the final state is the replay of the handled events. */
    method Run(events: seq<Event>) returns (reports: seq<BlockReport>, handled: nat)
      requires Valid()
      modifies this
      ensures Valid()
      ensures handled <= |events|
      ensures forall j :: 0 <= j < handled ==> !EndsLoop(events[j])
      ensures handled < |events| ==> EndsLoop(events[handled])
      ensures State() == Replay(old(State()), events[..handled])
      ensures |reports| == CountHeads(events[..handled])
    {
      reports := [];
      handled := 0;
      while handled < |events|
        invariant Valid()
        invariant handled <= |events|
        invariant forall j :: 0 <= j < handled ==> !EndsLoop(events[j])
        invariant State() == Replay(old(State()), events[..handled])
        invariant |reports| == CountHeads(events[..handled])
      {
        var e := events[handled];
        if EndsLoop(e) {
          return;
        }
        ReplayStep(old(State()), events, handled);
        match e {
          case NewPendingTx(tx, now) =>
            OnPendingTx(tx, now);
          case NewHead(h, view) =>
            var report := OnHeader(h, view);
            reports := reports + [report];
        }
        handled := handled + 1;
      }
    }
  }

  /** The counters of one header's reconciliation. */
  datatype Tally = Tally(viableTxs: nat, viableBlobs: nat, blobsIncluded: nat)

  /** The reconciliation loop of lines 141-177, visiting the pending
      transactions in an arbitrary order (Go's map order) and deleting
      retired entries from both maps as it goes. */
  method Reconcile(pending0: map<Hash, GossipTx>, time0: map<Hash, nat>, h: Header, view: ChainView, baseFee: nat)
    returns (pending: map<Hash, GossipTx>, times: map<Hash, nat>, tally: Tally)
    requires pending0.Keys == time0.Keys
    ensures pending == Survivors(pending0, h, view, baseFee)
    ensures times == Restrict(time0, pending.Keys) && times.Keys == pending.Keys
    ensures tally.viableTxs == |KeysWithFate(pending0, h, view, baseFee, Kept(true))|
    ensures tally.viableBlobs == BlobSum(pending0, KeysWithFate(pending0, h, view, baseFee, Kept(true)))
    ensures tally.blobsIncluded == BlobSum(pending0, KeysWithFate(pending0, h, view, baseFee, Included))
  {
    pending, times := pending0, time0;
    RestrictAll(time0);
    var blobsIncluded: nat := 0;
    var viableTxs: nat := 0;
    var viableBlobs: nat := 0;
    var toVisit := pending.Keys;
    while toVisit != {}
      invariant ReconcileInv(pending0, time0, h, view, baseFee, toVisit, pending, times, Tally(viableTxs, viableBlobs, blobsIncluded))
      decreases |toVisit|
    {
      var hash :| hash in toVisit;
      ReconcileStep(pending0, time0, h, view, baseFee, toVisit, pending, times, Tally(viableTxs, viableBlobs, blobsIncluded), hash);
      var tx := pending[hash];
      var fate := FateOf(tx, h, view, baseFee);
      if fate == Kept(true) {
        viableTxs := viableTxs + 1;
        viableBlobs := viableBlobs + |tx.blobHashes|;
      } else if fate == Included {
        blobsIncluded := blobsIncluded + |tx.blobHashes|;
      }
      if !fate.Kept? {
        pending := pending - {hash};
        times := times - {hash};
      }
      toVisit := toVisit - {hash};
    }
    VisitDone(pending0, h, view, baseFee);
    RestrictKeys(time0, pending.Keys);
    tally := Tally(viableTxs, viableBlobs, blobsIncluded);
  }

  /** The invariant of Reconcile's loop: the entries still to visit, and
      the counters of the visited ones. */
  ghost predicate ReconcileInv(pending0: map<Hash, GossipTx>, time0: map<Hash, nat>, h: Header, view: ChainView, baseFee: nat,
                               toVisit: set<Hash>, pending: map<Hash, GossipTx>, times: map<Hash, nat>, tally: Tally)
  {
    && toVisit <= pending0.Keys
    && pending == PartlyReconciled(pending0, toVisit, h, view, baseFee)
    && times == Restrict(time0, pending.Keys)
    && tally.viableTxs == |Visited(pending0, toVisit, h, view, baseFee, Kept(true))|
    && tally.viableBlobs == BlobSum(pending0, Visited(pending0, toVisit, h, view, baseFee, Kept(true)))
    && tally.blobsIncluded == BlobSum(pending0, Visited(pending0, toVisit, h, view, baseFee, Included))
  }

  /** One iteration of Reconcile's loop keeps its invariant. */
  lemma ReconcileStep(pending0: map<Hash, GossipTx>, time0: map<Hash, nat>, h: Header, view: ChainView, baseFee: nat,
                      toVisit: set<Hash>, pending: map<Hash, GossipTx>, times: map<Hash, nat>, tally: Tally, hash: Hash)
    requires ReconcileInv(pending0, time0, h, view, baseFee, toVisit, pending, times, tally) && hash in toVisit
    ensures hash in pending && pending[hash] == pending0[hash]
    ensures var tx := pending[hash];
      var fate := FateOf(tx, h, view, baseFee);
      ReconcileInv(pending0, time0, h, view, baseFee, toVisit - {hash},
                   if fate.Kept? then pending else pending - {hash},
                   if fate.Kept? then times else times - {hash},
                   if fate == Kept(true) then Tally(tally.viableTxs + 1, tally.viableBlobs + |tx.blobHashes|, tally.blobsIncluded)
                   else if fate == Included then tally.(blobsIncluded := tally.blobsIncluded + |tx.blobHashes|)
                   else tally)
  {
    var tx := pending0[hash];
    var fate := FateOf(tx, h, view, baseFee);
    VisitStep(pending0, toVisit, hash, h, view, baseFee);
    VisitCount(pending0, toVisit, hash, h, view, baseFee, Kept(true));
    VisitCount(pending0, toVisit, hash, h, view, baseFee, Included);
    if fate == Kept(true) {
      BlobSumAdd(pending0, Visited(pending0, toVisit, h, view, baseFee, Kept(true)), hash);
    } else if fate == Included {
      BlobSumAdd(pending0, Visited(pending0, toVisit, h, view, baseFee, Included), hash);
    }
    if !fate.Kept? {
      RestrictRemove(time0, pending.Keys, hash);
      assert (pending - {hash}).Keys == pending.Keys - {hash};
    }
  }
}
