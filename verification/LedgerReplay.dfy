/** Re-validation of the ledger itself: the replayed commands are the ledger's, so what the layers hold
    is the ledger that a run of all recorded transactions leaves. */
module LedgerReplay {
  import opened Wrappers
  import opened Ledgers
  import opened Handlers
  import opened Upkeep
  import opened Records
  import R = Replay

  // ----- ledgers as stored records -----

  function KeysOf(l: Ledger): set<Key> {
    (set k | k in l.wallets :: WalletKey(k)) + (set k | k in l.addresses :: AddressKey(k)) +
    (set k | k in l.transfers :: TransferKey(k)) + (set k | k in l.asks :: AskKey(k)) +
    (set k | k in l.bids :: BidKey(k)) + (set k | k in l.offers :: OfferKey(k)) +
    (set k | k in l.deals :: DealKey(k)) + (set k | k in l.repayments :: RepaymentKey(k)) +
    (set k | k in l.erc20 :: Erc20Key(k)) + (set k | k in l.fees :: FeeKey(k)) +
    if l.processed > 0 then {ProcessedKey} else {}
  }

  /** What a lookup of the key finds. */
  function RecordAt(l: Ledger, k: Key): Record {
    match k
    case WalletKey(x) => if x in l.wallets then WalletRecord(l.wallets[x]) else Blank
    case AddressKey(x) => if x in l.addresses then AddressRecord(l.addresses[x]) else Blank
    case TransferKey(x) => if x in l.transfers then TransferRecord(l.transfers[x]) else Blank
    case AskKey(x) => if x in l.asks then OrderRecord(l.asks[x]) else Blank
    case BidKey(x) => if x in l.bids then OrderRecord(l.bids[x]) else Blank
    case OfferKey(x) => if x in l.offers then OfferRecord(l.offers[x]) else Blank
    case DealKey(x) => if x in l.deals then DealRecord(l.deals[x]) else Blank
    case RepaymentKey(x) => if x in l.repayments then RepaymentRecord(l.repayments[x]) else Blank
    case Erc20Key(x) => if x in l.erc20 then Erc20Record(l.erc20[x]) else Blank
    case FeeKey(x) => if x in l.fees then FeeRecord(l.fees[x]) else Blank
    case ProcessedKey => if l.processed > 0 then ProcessedRecord(l.processed) else Blank
  }

  function Encode(l: Ledger): State {
    map k | k in KeysOf(l) :: RecordAt(l, k)
  }

  lemma KeysHaveRecords(l: Ledger, k: Key)
    ensures k in KeysOf(l) <==> RecordAt(l, k) != Blank
  {
  }

  lemma Encoded(l: Ledger, k: Key)
    ensures R.Look(Encode(l), k) == RecordAt(l, k) && (k in Encode(l) <==> RecordAt(l, k) != Blank)
  {
    KeysHaveRecords(l, k);
  }

  lemma SameMap<K, V>(m: map<K, V>, n: map<K, V>)
    requires forall k {:trigger Get(m, k)} :: Get(m, k) == Get(n, k)
    ensures m == n
  {
    forall k
      ensures k in m <==> k in n
      ensures k in m ==> m[k] == n[k]
    {
      assert Get(m, k) == Get(n, k);
    }
  }

  lemma SameAccounts(a: Ledger, b: Ledger)
    requires forall k {:trigger RecordAt(a, k)} :: RecordAt(a, k) == RecordAt(b, k)
    ensures a.wallets == b.wallets && a.addresses == b.addresses && a.transfers == b.transfers
  {
    forall x
      ensures Get(a.wallets, x) == Get(b.wallets, x)
    {
      assert RecordAt(a, WalletKey(x)) == RecordAt(b, WalletKey(x));
    }
    SameMap(a.wallets, b.wallets);
    forall x
      ensures Get(a.addresses, x) == Get(b.addresses, x)
    {
      assert RecordAt(a, AddressKey(x)) == RecordAt(b, AddressKey(x));
    }
    SameMap(a.addresses, b.addresses);
    forall x
      ensures Get(a.transfers, x) == Get(b.transfers, x)
    {
      assert RecordAt(a, TransferKey(x)) == RecordAt(b, TransferKey(x));
    }
    SameMap(a.transfers, b.transfers);
  }

  lemma SameOrders(a: Ledger, b: Ledger)
    requires forall k {:trigger RecordAt(a, k)} :: RecordAt(a, k) == RecordAt(b, k)
    ensures a.asks == b.asks && a.bids == b.bids && a.offers == b.offers
  {
    forall x
      ensures Get(a.asks, x) == Get(b.asks, x)
    {
      assert RecordAt(a, AskKey(x)) == RecordAt(b, AskKey(x));
    }
    SameMap(a.asks, b.asks);
    forall x
      ensures Get(a.bids, x) == Get(b.bids, x)
    {
      assert RecordAt(a, BidKey(x)) == RecordAt(b, BidKey(x));
    }
    SameMap(a.bids, b.bids);
    forall x
      ensures Get(a.offers, x) == Get(b.offers, x)
    {
      assert RecordAt(a, OfferKey(x)) == RecordAt(b, OfferKey(x));
    }
    SameMap(a.offers, b.offers);
  }

  lemma SameLoans(a: Ledger, b: Ledger)
    requires forall k {:trigger RecordAt(a, k)} :: RecordAt(a, k) == RecordAt(b, k)
    ensures a.deals == b.deals && a.repayments == b.repayments
  {
    forall x
      ensures Get(a.deals, x) == Get(b.deals, x)
    {
      assert RecordAt(a, DealKey(x)) == RecordAt(b, DealKey(x));
    }
    SameMap(a.deals, b.deals);
    forall x
      ensures Get(a.repayments, x) == Get(b.repayments, x)
    {
      assert RecordAt(a, RepaymentKey(x)) == RecordAt(b, RepaymentKey(x));
    }
    SameMap(a.repayments, b.repayments);
  }

  lemma SameProofs(a: Ledger, b: Ledger)
    requires forall k {:trigger RecordAt(a, k)} :: RecordAt(a, k) == RecordAt(b, k)
    ensures a.erc20 == b.erc20 && a.fees == b.fees
  {
    forall x
      ensures Get(a.erc20, x) == Get(b.erc20, x)
    {
      assert RecordAt(a, Erc20Key(x)) == RecordAt(b, Erc20Key(x));
    }
    SameMap(a.erc20, b.erc20);
    forall x
      ensures Get(a.fees, x) == Get(b.fees, x)
    {
      assert RecordAt(a, FeeKey(x)) == RecordAt(b, FeeKey(x));
    }
    SameMap(a.fees, b.fees);
  }

  /** The records say which ledger they are. */
  lemma SameRecords(a: Ledger, b: Ledger)
    requires forall k {:trigger RecordAt(a, k)} :: RecordAt(a, k) == RecordAt(b, k)
    ensures a == b
  {
    SameAccounts(a, b);
    SameOrders(a, b);
    SameLoans(a, b);
    SameProofs(a, b);
    assert RecordAt(a, ProcessedKey) == RecordAt(b, ProcessedKey);
  }

  lemma EncodedOnce(a: Ledger, b: Ledger)
    requires Encode(a) == Encode(b)
    ensures a == b
  {
    forall k
      ensures RecordAt(a, k) == RecordAt(b, k)
    {
      Encoded(a, k);
      Encoded(b, k);
    }
    SameRecords(a, b);
  }

  /** The writes that turn one state into another; what is gone is blanked. */
  function Changes(a: State, b: State): State {
    map k | k in a.Keys + b.Keys && R.Look(a, k) != R.Look(b, k) :: R.Look(b, k)
  }

  lemma ChangesApply(s: State, a: State, b: State)
    requires R.NonEmpty(s) == a && Blank !in b.Values
    ensures R.NonEmpty(s + Changes(a, b)) == b
  {
    var t := s + Changes(a, b);
    forall k
      ensures k in R.NonEmpty(t) <==> k in b
      ensures k in b ==> R.Look(t, k) == b[k]
    {
      assert R.Look(a, k) == if k in s then s[k] else Blank;
    }
  }

  // ----- the ledger's commands as replayed ones -----

  /** What the process is configured with: the fix block, the reward fractions and the block signers. */
  datatype Params = Params(fixBlock: nat, fraction: nat -> nat, signerOf: nat -> Sighash)

  predicate Readable(tip: int, tx: R.Tx) {
    0 <= tip && tx.sighash != "" && tx.payload.Reads?
  }

  /** A recorded transaction as the ledger sees it in the replay of the block above `tip`. */
  function Seen(p: Params, tip: int, tx: R.Tx): Tx
    requires Readable(tip, tx)
  {
    Tx(Context(tx.sighash, tx.guid, Mode.Replay(tip, p.signerOf), p.fixBlock, p.fraction), tx.payload.cmd)
  }

  ghost predicate IsLedger(s: State) {
    exists l :: Encode(l) == s
  }

  ghost function Decode(s: State): Ledger
    requires IsLedger(s)
  {
    var l :| Encode(l) == s;
    l
  }

  ghost function Perform(p: Params, s: State, tip: int, tx: R.Tx): R.Outcome {
    if !Readable(tip, tx) || !IsLedger(s) then R.Outcome(map[], false)
    else
      var seen := Seen(p, tip, tx);
      var after := Step(Decode(s), seen.c, seen.cmd);
      if after.None? then R.Outcome(map[], false) else R.Outcome(Changes(s, Encode(after.value)), true)
  }

  ghost function Commands(p: Params): R.Exec {
    (s, tip, tx) => Perform(p, s, tip, tx)
  }

  /** The transactions of a history that are executed. */
  function Ran(p: Params, h: R.History): seq<Tx> {
    match h
    case Genesis => []
    case Then(before, tip, tx) =>
      Ran(p, before) + if R.Skipped(tx) || !Readable(tip, tx) then [] else [Seen(p, tip, tx)]
  }

  lemma NoBlanks(l: Ledger)
    ensures Blank !in Encode(l).Values
  {
    if Blank in Encode(l).Values {
      var k :| k in Encode(l) && Encode(l)[k] == Blank;
      Encoded(l, k);
    }
  }

  lemma Decoded(l: Ledger)
    ensures IsLedger(Encode(l)) && Decode(Encode(l)) == l
  {
    EncodedOnce(Decode(Encode(l)), l);
  }

  /** A command succeeds exactly when the ledger accepts it. */
  lemma PerformOk(p: Params, l: Ledger, tip: int, tx: R.Tx)
    requires Readable(tip, tx)
    ensures var seen := Seen(p, tip, tx); var after := Step(l, seen.c, seen.cmd);
            var o := Perform(p, Encode(l), tip, tx);
            o.ok == after.Some? && (after.Some? ==> o.writes == Changes(Encode(l), Encode(after.value)))
  {
    Decoded(l);
  }

  /** One more executed command. */
  lemma PerformedStep(p: Params, s: State, l: Ledger, tip: int, tx: R.Tx)
    requires Readable(tip, tx) && R.NonEmpty(s) == Encode(l) && Perform(p, Encode(l), tip, tx).ok
    ensures var seen := Seen(p, tip, tx);
            Step(l, seen.c, seen.cmd).Some? &&
            R.NonEmpty(s + Perform(p, Encode(l), tip, tx).writes) == Encode(Step(l, seen.c, seen.cmd).value)
  {
    PerformOk(p, l, tip, tx);
    var seen := Seen(p, tip, tx);
    var after := Step(l, seen.c, seen.cmd).value;
    NoBlanks(after);
    ChangesApply(s, Encode(l), Encode(after));
  }

  lemma RanOneMore(p: Params, before: R.History, tip: int, tx: R.Tx)
    requires !R.Skipped(tx) && Readable(tip, tx)
    ensures Run(EMPTY, Ran(p, R.Then(before, tip, tx))) == Next(Run(EMPTY, Ran(p, before)), Seen(p, tip, tx))
  {
    var all := Ran(p, R.Then(before, tip, tx));
    assert all[..|Ran(p, before)|] == Ran(p, before);
  }

  lemma ResultOneMore(p: Params, before: R.History, tip: int, tx: R.Tx, l: Ledger)
    requires R.Succeeds(Commands(p), R.Then(before, tip, tx)) && !R.Skipped(tx)
    requires R.NonEmpty(R.Result(Commands(p), before)) == Encode(l)
    ensures Readable(tip, tx)
    ensures R.NonEmpty(R.Result(Commands(p), R.Then(before, tip, tx))) == Encode(Next(l, Seen(p, tip, tx)))
  {
    assert Commands(p)(Encode(l), tip, tx) == Perform(p, Encode(l), tip, tx);
    PerformedStep(p, R.Result(Commands(p), before), l, tip, tx);
  }

  /** Replaying a history that does not fail leaves the ledger that running its transactions leaves. */
  lemma {:induction false} HistoryIsRun(p: Params, h: R.History)
    requires R.Succeeds(Commands(p), h)
    ensures R.NonEmpty(R.Result(Commands(p), h)) == Encode(Run(EMPTY, Ran(p, h)))
  {
    match h
    case Genesis =>
      assert Encode(EMPTY) == map[];
    case Then(before, tip, tx) =>
      HistoryIsRun(p, before);
      if R.Skipped(tx) {
        assert Ran(p, h) == Ran(p, before);
      } else {
        ResultOneMore(p, before, tip, tx, Run(EMPTY, Ran(p, before)));
        RanOneMore(p, before, tip, tx);
      }
  }

  lemma ShownLedger(p: Params, h: R.History, m: R.Machine)
    requires R.Succeeds(Commands(p), h) && m.past + m.block == R.Result(Commands(p), h)
    ensures R.NonEmpty(m.past + m.block) == Encode(Run(EMPTY, Ran(p, h)))
  {
    HistoryIsRun(p, h);
  }

  /** After any orderly run of deliveries that does not fail, the records the layers show are those of
      the ledger after every recorded transaction up to the last delivered one, each run once. */
  lemma RevalidatedLedger(p: Params, blocks: seq<seq<R.Tx>>, run: seq<R.Position>)
    requires blocks != [] && R.Orderly(blocks, run) && R.Healthy(Commands(p), blocks, run)
    requires run != []
    ensures var s, last := R.Deliveries(Commands(p), blocks, run), run[|run| - 1];
            s.ok && last.b < |blocks| && last.i < |blocks[last.b]| &&
            R.NonEmpty(s.m.past + s.m.block) == Encode(Run(EMPTY, Ran(p, R.UpTo(blocks, last.b, last.i + 1))))
  {
    var last := run[|run| - 1];
    R.RunShows(Commands(p), blocks, run);
    ShownLedger(p, R.UpTo(blocks, last.b, last.i + 1), R.Deliveries(Commands(p), blocks, run).m);
  }
}
