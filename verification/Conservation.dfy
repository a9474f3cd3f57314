/** Coins are neither created nor destroyed except where the ledger says so. */
module Conservation {
  import opened Wrappers
  import opened Ledgers
  import opened Handlers
  import opened Upkeep
  import opened MapSums

  /** The fee a deal still holds for its investor. */
  function Escrow(deal: Deal): nat {
    if deal.loan.None? then deal.fee else 0
  }

  function Holdings(deals: map<DealId, Deal>): map<DealId, nat> {
    map d | d in deals :: Escrow(deals[d])
  }

  function Fees(deals: map<DealId, Deal>): map<DealId, nat> {
    map d | d in deals :: deals[d].fee
  }

  lemma HoldingsUpdate(deals: map<DealId, Deal>, d: DealId, deal: Deal)
    ensures Total(Holdings(deals[d := deal])) + (if d in deals then Escrow(deals[d]) else 0) ==
            Total(Holdings(deals)) + Escrow(deal)
  {
    assert Holdings(deals[d := deal]) == Holdings(deals)[d := Escrow(deal)];
    TotalUpdate(Holdings(deals), d, Escrow(deal));
  }

  /** Everything that can still be spent: wallets, waiting transaction fees, fees held with
      deals whose loan has not been paid out. */
  ghost function Supply(s: Ledger): nat {
    Total(s.wallets) + TX_FEE * |s.fees| + Total(Holdings(s.deals))
  }

  /** A reused nonce overwrites the fee record that waited under it. */
  function FeeLoss(s: Ledger, c: Context): nat {
    if c.guid in s.fees then TX_FEE else 0
  }

  lemma Credit(wallets: map<Sighash, nat>, w: Sighash, v: nat)
    ensures Total(wallets[w := v]) + Balance(wallets, w) == Total(wallets) + v
  {
    TotalUpdate(wallets, w, v);
  }

  /** A charged command: its fee waits in a new record, so wallets and escrow together must have
      given up exactly that. */
  lemma ChargedSupply(s: Ledger, u: Ledger, c: Context)
    requires u.fees == s.fees[c.guid := Fee(c.signer, c.Head())]
    requires Total(u.wallets) + Total(Holdings(u.deals)) + TX_FEE == Total(s.wallets) + Total(Holdings(s.deals))
    ensures Supply(u) + FeeLoss(s, c) == Supply(s)
  {
    SizeUpdate(s.fees, c.guid, Fee(c.signer, c.Head()));
  }

  ghost function AwardTotal(awards: seq<Award>): nat {
    if awards == [] then 0 else AwardTotal(awards[..|awards| - 1]) + awards[|awards| - 1].amount
  }

  lemma {:induction false} AwardedTotal(wallets: map<Sighash, nat>, awards: seq<Award>)
    ensures Total(AllAwarded(wallets, awards)) == Total(wallets) + AwardTotal(awards)
  {
    if awards != [] {
      var n := |awards| - 1;
      AwardedTotal(wallets, awards[..n]);
      var w := AllAwarded(wallets, awards[..n]);
      TotalUpdate(w, awards[n].signer, Balance(w, awards[n].signer) + awards[n].amount);
    }
  }

  /** The awards an accepted command makes. */
  ghost function AwardsOf(s: Ledger, c: Context, cmd: Command): seq<Award> {
    if !cmd.Housekeeping? || Step(s, c, cmd).None? then []
    else if cmd.blockIdx == 0 then (if BatchDue(s, c) then Awards(c, s.processed, 0, cmd.reply).GetOr([]) else [])
    else if SweepDue(s, c, cmd.blockIdx) then Awards(c, s.processed, cmd.blockIdx, cmd.reply).GetOr([])
    else []
  }

  /** Coins an accepted command creates: a collected deposit, or mining rewards. */
  ghost function Minted(s: Ledger, c: Context, cmd: Command): nat {
    if Step(s, c, cmd).None? then 0
    else if cmd.CollectCoins? then cmd.coins
    else AwardTotal(AwardsOf(s, c, cmd))
  }

  /** Coins an accepted command drops: the fee record overwritten by a reused nonce, the fee
      records swept after a year, and the deals a replayed sweep forgets without a refund. */
  ghost function Lost(s: Ledger, c: Context, cmd: Command): nat {
    if Step(s, c, cmd).None? || cmd.CollectCoins? then 0
    else if !cmd.Housekeeping? then FeeLoss(s, c)
    else if cmd.blockIdx != 0 && SweepDue(s, c, cmd.blockIdx) then
      TX_FEE * |OldFees(s, cmd.blockIdx)| +
      (if Refunds(c) then 0 else Total(Holdings(Part(s.deals, LapsedDeals(s, cmd.blockIdx)))))
    else 0
  }

  ghost function Part<K, V>(m: map<K, V>, keys: set<K>): map<K, V> {
    map k | k in keys && k in m :: m[k]
  }

  // ----- the sweep -----

  /** Refunding the deals in `gone` hands out exactly what they hold. */
  lemma {:induction false} RefundedTotal(wallets: map<Sighash, nat>, deals: map<DealId, Deal>, gone: set<DealId>)
    requires gone <= deals.Keys
    requires forall d <- gone :: deals[d].sighash in wallets
    ensures Total(Refunded(wallets, deals, gone)) == Total(wallets) + Total(Fees(Part(deals, gone)))
    decreases |gone|
  {
    if gone == {} {
      RefundNone(wallets, deals);
      assert Fees(Part(deals, gone)) == map[];
    } else {
      var d :| d in gone;
      RefundedTotal(wallets, deals, gone - {d});
      RefundOneTotal(wallets, deals, gone, d);
      PartRemove(deals, gone, d);
    }
  }

  lemma RefundOneTotal(wallets: map<Sighash, nat>, deals: map<DealId, Deal>, gone: set<DealId>, d: DealId)
    requires d in gone && d in deals && deals[d].sighash in wallets
    ensures Total(Refunded(wallets, deals, gone)) == Total(Refunded(wallets, deals, gone - {d})) + deals[d].fee
  {
    RefundOne(wallets, deals, gone, d);
    var less := Refunded(wallets, deals, gone - {d});
    TotalUpdate(less, deals[d].sighash, less[deals[d].sighash] + deals[d].fee);
  }

  lemma PartRemove(deals: map<DealId, Deal>, gone: set<DealId>, d: DealId)
    requires d in gone && d in deals
    ensures Total(Fees(Part(deals, gone))) == deals[d].fee + Total(Fees(Part(deals, gone - {d})))
  {
    TotalDrop(Fees(Part(deals, gone)), d);
    assert Fees(Part(deals, gone)) - {d} == Fees(Part(deals, gone - {d}));
  }

  lemma RefundNone(wallets: map<Sighash, nat>, deals: map<DealId, Deal>)
    ensures Refunded(wallets, deals, {}) == wallets
  {
    assert forall w :: OwedBy(deals, {}, w) == map[];
  }

  /** One more refund is one credit to one wallet. */
  lemma RefundOne(wallets: map<Sighash, nat>, deals: map<DealId, Deal>, gone: set<DealId>, d: DealId)
    requires d in gone && d in deals && deals[d].sighash in wallets
    ensures deals[d].sighash in Refunded(wallets, deals, gone - {d})
    ensures var less := Refunded(wallets, deals, gone - {d});
            Refunded(wallets, deals, gone) == less[deals[d].sighash := less[deals[d].sighash] + deals[d].fee]
  {
    forall w | w in wallets
      ensures Owed(deals, gone, w) == Owed(deals, gone - {d}, w) + (if deals[d].sighash == w then deals[d].fee else 0)
    {
      TotalDrop(OwedBy(deals, gone, w), d);
      assert OwedBy(deals, gone, w) - {d} == OwedBy(deals, gone - {d}, w);
    }
  }

  lemma SweptDeals(deals: map<DealId, Deal>, gone: set<DealId>)
    requires gone <= deals.Keys
    ensures Total(Holdings(deals - gone)) + Total(Holdings(Part(deals, gone))) == Total(Holdings(deals))
  {
    TotalSplit(Holdings(deals), gone);
    assert Holdings(deals) - gone == Holdings(deals - gone);
    assert (map d | d in gone :: Holdings(deals)[d]) == Holdings(Part(deals, gone));
  }

  lemma SweptSupply(s: Ledger, c: Context, at: nat)
    requires Swept(s, c, at).Some?
    ensures Supply(Swept(s, c, at).value) + TX_FEE * |OldFees(s, at)| +
            (if Refunds(c) then 0 else Total(Holdings(Part(s.deals, LapsedDeals(s, at))))) == Supply(s)
  {
    var t := Swept(s, c, at).value;
    SweptHoldings(s, at);
    SweptFees(s, at);
    assert t.deals == s.deals - LapsedDeals(s, at) && t.fees == s.fees - OldFees(s, at);
    if Refunds(c) {
      RefundedTotal(s.wallets, s.deals, LapsedDeals(s, at));
    }
  }

  lemma SweptHoldings(s: Ledger, at: nat)
    ensures var gone := LapsedDeals(s, at);
            Total(Holdings(s.deals - gone)) + Total(Holdings(Part(s.deals, gone))) == Total(Holdings(s.deals)) &&
            Total(Holdings(Part(s.deals, gone))) == Total(Fees(Part(s.deals, gone)))
  {
    var gone := LapsedDeals(s, at);
    SweptDeals(s.deals, gone);
    assert Holdings(Part(s.deals, gone)) == Fees(Part(s.deals, gone));
  }

  lemma SweptFees(s: Ledger, at: nat)
    ensures TX_FEE * |s.fees - OldFees(s, at)| + TX_FEE * |OldFees(s, at)| == TX_FEE * |s.fees|
  {
    SizeDrop(s.fees, OldFees(s, at));
  }

  // ----- every command -----

  lemma RewardsConserve(t: Ledger, awards: seq<Award>, processed: nat)
    ensures Supply(t.(wallets := AllAwarded(t.wallets, awards), processed := processed)) ==
            Supply(t) + AwardTotal(awards)
  {
    AwardedTotal(t.wallets, awards);
  }

  lemma BatchConserves(s: Ledger, c: Context, cmd: Command)
    requires cmd.Housekeeping? && cmd.blockIdx == 0 && Step(s, c, cmd).Some?
    ensures Supply(Step(s, c, cmd).value) == Supply(s) + AwardTotal(AwardsOf(s, c, cmd))
  {
    if BatchDue(s, c) {
      RewardsConserve(s, AwardsOf(s, c, cmd), s.processed + BLOCK_REWARD_PROCESSING_COUNT);
    }
  }

  lemma SweepConserves(s: Ledger, c: Context, cmd: Command)
    requires cmd.Housekeeping? && cmd.blockIdx != 0 && SweepDue(s, c, cmd.blockIdx) && Step(s, c, cmd).Some?
    ensures Swept(s, c, cmd.blockIdx).Some?
    ensures Supply(Step(s, c, cmd).value) == Supply(Swept(s, c, cmd.blockIdx).value) + AwardTotal(AwardsOf(s, c, cmd))
  {
    RewardsConserve(Swept(s, c, cmd.blockIdx).value, AwardsOf(s, c, cmd), cmd.blockIdx);
  }

  lemma HousekeepingConserves(s: Ledger, c: Context, cmd: Command)
    requires cmd.Housekeeping? && Step(s, c, cmd).Some?
    ensures Supply(Step(s, c, cmd).value) + Lost(s, c, cmd) == Supply(s) + AwardTotal(AwardsOf(s, c, cmd))
  {
    if cmd.blockIdx == 0 {
      BatchConserves(s, c, cmd);
    } else if SweepDue(s, c, cmd.blockIdx) {
      SweepConserves(s, c, cmd);
      SweptSupply(s, c, cmd.blockIdx);
    } else {
      assert Step(s, c, cmd).value == s;
    }
  }

  /** `n` coins from one wallet to another, and the fee on top. */
  lemma MoveTotal(wallets: map<Sighash, nat>, from: Sighash, to: Sighash, n: nat)
    requires from != to && from in wallets && wallets[from] >= n + TX_FEE
    ensures var w := wallets[from := wallets[from] - n][to := Balance(wallets, to) + n];
            Total(w[from := w[from] - TX_FEE]) + TX_FEE == Total(wallets)
  {
    var v := wallets[from := wallets[from] - n];
    var w := v[to := Balance(v, to) + n];
    Credit(wallets, from, wallets[from] - n);
    Credit(v, to, Balance(v, to) + n);
    Credit(w, from, w[from] - TX_FEE);
  }

  lemma SendFundsConserves(s: Ledger, c: Context, coins: nat, to: Sighash)
    requires OnSendFunds(s, c, coins, to).Some?
    ensures Supply(OnSendFunds(s, c, coins, to).value) + FeeLoss(s, c) == Supply(s)
  {
    MoveTotal(s.wallets, c.signer, to, coins);
    ChargedSupply(s, OnSendFunds(s, c, coins, to).value, c);
  }

  /** Coins between a wallet and a deal's escrow, and the fee on top. */
  lemma EscrowTotal(wallets: map<Sighash, nat>, w: Sighash, v: nat, deals: map<DealId, Deal>, d: DealId, deal: Deal)
    requires v >= TX_FEE
    requires Balance(wallets, w) + (if d in deals then Escrow(deals[d]) else 0) == v + Escrow(deal)
    ensures Total(wallets[w := v][w := v - TX_FEE]) + Total(Holdings(deals[d := deal])) + TX_FEE ==
            Total(wallets) + Total(Holdings(deals))
  {
    Credit(wallets, w, v);
    Credit(wallets[w := v], w, v - TX_FEE);
    HoldingsUpdate(deals, d, deal);
  }

  /** The fee offered leaves the fundraiser's wallet and is held with the deal. */
  lemma AddDealConserves(s: Ledger, c: Context, o: OfferId, expiration: nat)
    requires OnAddDealOrder(s, c, o, expiration).Some?
    ensures Supply(OnAddDealOrder(s, c, o, expiration).value) + FeeLoss(s, c) == Supply(s)
  {
    var deal := NewDeal(s, c, o, expiration).value;
    EscrowTotal(s.wallets, c.signer, s.wallets[c.signer] - deal.fee, s.deals, DealId(o), deal);
    ChargedSupply(s, OnAddDealOrder(s, c, o, expiration).value, c);
  }

  /** Completion hands the held fee to the investor. */
  lemma CompleteDealConserves(s: Ledger, c: Context, d: DealId, t: TransferId)
    requires OnCompleteDealOrder(s, c, d, t).Some?
    ensures Supply(OnCompleteDealOrder(s, c, d, t).value) + FeeLoss(s, c) == Supply(s)
  {
    var deal := s.deals[d];
    EscrowTotal(s.wallets, c.signer, s.wallets[c.signer] + deal.fee, s.deals, d,
                deal.(loan := Some(t), block := c.Head()));
    ChargedSupply(s, OnCompleteDealOrder(s, c, d, t).value, c);
  }

  /** A charged command that touches no coins but the fee, and at most one deal, whose holding
      it leaves alone. */
  lemma RecordConserves(s: Ledger, c: Context, u: Ledger, d: DealId)
    requires CanPay(s, c)
    requires u.wallets == Paid(s, c).wallets && u.fees == Paid(s, c).fees
    requires u.deals == s.deals ||
             (d in s.deals && d in u.deals && u.deals == s.deals[d := u.deals[d]] &&
              Escrow(u.deals[d]) == Escrow(s.deals[d]))
    ensures Supply(u) + FeeLoss(s, c) == Supply(s)
  {
    Credit(s.wallets, c.signer, s.wallets[c.signer] - TX_FEE);
    if u.deals != s.deals {
      HoldingsUpdate(s.deals, d, u.deals[d]);
    }
    ChargedSupply(s, u, c);
  }

  lemma CollectConserves(s: Ledger, c: Context, coins: nat, tx: string, verified: bool)
    requires OnCollectCoins(s, c, coins, tx, verified).Some?
    ensures Supply(OnCollectCoins(s, c, coins, tx, verified).value) == Supply(s) + coins
  {
    Credit(s.wallets, c.signer, Balance(s.wallets, c.signer) + coins);
    CreditSupply(s, OnCollectCoins(s, c, coins, tx, verified).value, coins);
  }

  lemma CreditSupply(s: Ledger, u: Ledger, coins: nat)
    requires u.fees == s.fees && u.deals == s.deals && Total(u.wallets) == Total(s.wallets) + coins
    ensures Supply(u) == Supply(s) + coins
  {
  }

  /** Commands that change a deal but not what it holds. */
  lemma DealCommandsConserve(s: Ledger, c: Context, cmd: Command)
    requires cmd.LockDealOrder? || cmd.CloseDealOrder? || cmd.Exempt? || cmd.CompleteRepaymentOrder? ||
             cmd.CloseRepaymentOrder?
    requires Step(s, c, cmd).Some?
    ensures Supply(Step(s, c, cmd).value) + FeeLoss(s, c) == Supply(s)
  {
    var d := if cmd.CompleteRepaymentOrder? || cmd.CloseRepaymentOrder? then s.repayments[cmd.repayment].deal
        else cmd.deal;
    DealFrame(s, c, cmd, d);
    RecordConserves(s, c, Step(s, c, cmd).value, d);
  }

  /** One deal has changed, but neither its loan nor its owner or fee, and the signer has paid. */
  predicate OneDealChanged(s: Ledger, c: Context, u: Ledger, d: DealId) {
    CanPay(s, c) && u.wallets == Paid(s, c).wallets && u.fees == Paid(s, c).fees &&
    d in s.deals && d in u.deals && u.deals == s.deals[d := u.deals[d]] &&
    u.deals[d].loan == s.deals[d].loan && u.deals[d].fee == s.deals[d].fee && u.deals[d].sighash == s.deals[d].sighash
  }

  lemma DealFrame(s: Ledger, c: Context, cmd: Command, d: DealId)
    requires cmd.LockDealOrder? || cmd.CloseDealOrder? || cmd.Exempt? || cmd.CompleteRepaymentOrder? ||
             cmd.CloseRepaymentOrder?
    requires Step(s, c, cmd).Some?
    requires d == if cmd.CompleteRepaymentOrder? || cmd.CloseRepaymentOrder? then s.repayments[cmd.repayment].deal
             else cmd.deal
    ensures OneDealChanged(s, c, Step(s, c, cmd).value, d)
  {
    if cmd.CompleteRepaymentOrder? || cmd.CloseRepaymentOrder? {
      TakeoverFrame(s, c, cmd, d);
    } else {
      LoanFrame(s, c, cmd, d);
    }
  }

  lemma LoanFrame(s: Ledger, c: Context, cmd: Command, d: DealId)
    requires cmd.LockDealOrder? || cmd.CloseDealOrder? || cmd.Exempt?
    requires Step(s, c, cmd).Some? && d == cmd.deal
    ensures OneDealChanged(s, c, Step(s, c, cmd).value, d)
  {
  }

  lemma TakeoverFrame(s: Ledger, c: Context, cmd: Command, d: DealId)
    requires (cmd.CompleteRepaymentOrder? || cmd.CloseRepaymentOrder?) && Step(s, c, cmd).Some?
    requires d == s.repayments[cmd.repayment].deal
    ensures OneDealChanged(s, c, Step(s, c, cmd).value, d)
  {
  }

  /** Commands that only add a record. */
  lemma RecordCommandsConserve(s: Ledger, c: Context, cmd: Command)
    requires cmd.RegisterAddress? || cmd.RegisterTransfer? || cmd.AddAskOrder? || cmd.AddBidOrder? || cmd.AddOffer? ||
             cmd.AddRepaymentOrder?
    requires Step(s, c, cmd).Some?
    ensures Supply(Step(s, c, cmd).value) + FeeLoss(s, c) == Supply(s)
  {
    RecordFrame(s, c, cmd);
    RecordConserves(s, c, Step(s, c, cmd).value, DealId(OfferId(AskId(""), BidId(""))));
  }

  lemma RecordFrame(s: Ledger, c: Context, cmd: Command)
    requires cmd.RegisterAddress? || cmd.RegisterTransfer? || cmd.AddAskOrder? || cmd.AddBidOrder? || cmd.AddOffer? ||
             cmd.AddRepaymentOrder?
    requires Step(s, c, cmd).Some?
    ensures PaysOnly(s, c, Step(s, c, cmd).value)
  {
    if cmd.RegisterAddress? || cmd.RegisterTransfer? {
      RegisterFrame(s, c, cmd);
    } else {
      OrderFrame(s, c, cmd);
    }
  }

  /** Among wallets, fees and deals only the signer's fee has moved. */
  predicate PaysOnly(s: Ledger, c: Context, u: Ledger) {
    CanPay(s, c) && u.wallets == Paid(s, c).wallets && u.fees == Paid(s, c).fees && u.deals == s.deals
  }

  lemma RegisterFrame(s: Ledger, c: Context, cmd: Command)
    requires (cmd.RegisterAddress? || cmd.RegisterTransfer?) && Step(s, c, cmd).Some?
    ensures PaysOnly(s, c, Step(s, c, cmd).value)
  {
    match cmd
    case RegisterAddress(blockchain, value, network) => NewAddressFrame(s, c, blockchain, value, network);
    case RegisterTransfer(gain, order, tx, verified) => TransferFrame(s, c, gain, order, tx, verified);
  }

  /** A charged command that leaves wallets, fees and deals alone. */
  lemma ChargedFrame(s: Ledger, c: Context, ok: bool, t: Ledger)
    requires t.wallets == s.wallets && t.fees == s.fees && t.deals == s.deals && Charged(s, c, ok, t).Some?
    ensures PaysOnly(s, c, Charged(s, c, ok, t).value)
  {
    var u, v := Charged(s, c, ok, t).value, s.wallets[c.signer] - TX_FEE;
    assert u == Paid(t, c);
    assert u.wallets == s.wallets[c.signer := v] && u.fees == s.fees[c.guid := Fee(c.signer, c.Head())];
  }

  lemma NewAddressFrame(s: Ledger, c: Context, blockchain: string, value: string, network: string)
    requires OnRegisterAddress(s, c, blockchain, value, network).Some?
    ensures PaysOnly(s, c, OnRegisterAddress(s, c, blockchain, value, network).value)
  {
    var id := AddressKey(blockchain, value, network);
    ChargedFrame(s, c, id !in s.addresses,
                 s.(addresses := s.addresses[id := Address(blockchain, value, network, c.signer)]));
  }

  lemma TransferFrame(s: Ledger, c: Context, gain: int, order: OrderRef, tx: string, verified: bool)
    requires OnRegisterTransfer(s, c, gain, order, tx, verified).Some?
    ensures PaysOnly(s, c, OnRegisterTransfer(s, c, gain, order, tx, verified).value)
  {
    var (id, transfer) := NewTransfer(s, c, gain, order, tx).value;
    ChargedFrame(s, c, id !in s.transfers &&
                 (tx == "0" || Verified(c, verified)), s.(transfers := s.transfers[id := transfer]));
  }

  lemma OrderFrame(s: Ledger, c: Context, cmd: Command)
    requires (cmd.AddAskOrder? || cmd.AddBidOrder? || cmd.AddOffer? || cmd.AddRepaymentOrder?) && Step(s, c, cmd).Some?
    ensures PaysOnly(s, c, Step(s, c, cmd).value)
  {
    var u := Step(s, c, cmd).value;
    ChargedFrame(s, c, true, s.(asks := u.asks, bids := u.bids, offers := u.offers, repayments := u.repayments));
  }

  /** Commands other than housekeeping and collecting mint nothing. */
  lemma ChargedConserves(s: Ledger, c: Context, cmd: Command)
    requires !cmd.Housekeeping? && !cmd.CollectCoins? && Step(s, c, cmd).Some?
    ensures Supply(Step(s, c, cmd).value) + FeeLoss(s, c) == Supply(s)
  {
    match cmd
    case SendFunds(coins, to) => SendFundsConserves(s, c, coins, to);
    case AddDealOrder(o, expiration) => AddDealConserves(s, c, o, expiration);
    case CompleteDealOrder(d, t) => CompleteDealConserves(s, c, d, t);
    case LockDealOrder(_) | CloseDealOrder(_, _) | Exempt(_, _) | CompleteRepaymentOrder(_) |
         CloseRepaymentOrder(_, _) =>
      DealCommandsConserve(s, c, cmd);
    case _ => RecordCommandsConserve(s, c, cmd);
  }

  /** Every command: what was there plus what it minted is what is there plus what it lost. */
  lemma StepConserves(s: Ledger, c: Context, cmd: Command)
    ensures Supply(Next(s, Tx(c, cmd))) + Lost(s, c, cmd) == Supply(s) + Minted(s, c, cmd)
  {
    if Step(s, c, cmd).Some? {
      match cmd
      case Housekeeping(_, _, _) => HousekeepingConserves(s, c, cmd);
      case CollectCoins(coins, tx, verified) => CollectConserves(s, c, coins, tx, verified);
      case _ => ChargedConserves(s, c, cmd);
    }
  }

  // ----- whole runs -----

  ghost function MintedIn(s: Ledger, txs: seq<Tx>): nat {
    if txs == [] then 0
    else
      var n := |txs| - 1;
      MintedIn(s, txs[..n]) + Minted(Run(s, txs[..n]), txs[n].c, txs[n].cmd)
  }

  ghost function LostIn(s: Ledger, txs: seq<Tx>): nat {
    if txs == [] then 0
    else
      var n := |txs| - 1;
      LostIn(s, txs[..n]) + Lost(Run(s, txs[..n]), txs[n].c, txs[n].cmd)
  }

  /** In every run the supply plus what was lost is what there was plus what was minted. */
  lemma {:induction false} RunConserves(s: Ledger, txs: seq<Tx>)
    ensures Supply(Run(s, txs)) + LostIn(s, txs) == Supply(s) + MintedIn(s, txs)
  {
    if txs != [] {
      var n := |txs| - 1;
      RunConserves(s, txs[..n]);
      StepConserves(Run(s, txs[..n]), txs[n].c, txs[n].cmd);
    }
  }

  /** Solvency: a ledger that started empty never holds more than was minted, and holds exactly
      that unless some command lost coins. */
  lemma Solvent(txs: seq<Tx>)
    ensures Supply(Run(EMPTY, txs)) <= MintedIn(EMPTY, txs)
    ensures Supply(Run(EMPTY, txs)) == MintedIn(EMPTY, txs) <==> LostIn(EMPTY, txs) == 0
  {
    assert Holdings(EMPTY.deals) == map[];
    RunConserves(EMPTY, txs);
  }
}
