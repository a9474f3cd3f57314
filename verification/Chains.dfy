/** What stays true of a deal after it is made: a positive maturity, and two addresses on one chain
    through every reassignment. */
module Chains {
  import opened Wrappers
  import opened Ledgers
  import opened Handlers
  import opened Upkeep
  import opened Frames
  import opened Locks
  import opened Trades

  ghost predicate Mature(s: Ledger) {
    forall d <- s.deals :: s.deals[d].maturity > 0
  }

  lemma NextMature(s: Ledger, tx: Tx, used: set<Guid>)
    requires Sound(s) && Known(s, used) && Mature(s)
    ensures Mature(Next(s, tx))
  {
    var cmd := tx.cmd;
    if Step(s, tx.c, cmd).Some? {
      if cmd.Housekeeping? {
        HousekeepingFrame(s, tx.c, cmd);
      } else if cmd.AddDealOrder? {
        NewDealTerms(s, tx.c, cmd.offer, cmd.expiration, used);
      } else {
        MaturitiesKept(s, tx.c, cmd);
      }
    }
  }

  ghost predicate SameMaturities(s: Ledger, u: Ledger) {
    forall d <- u.deals :: d in s.deals && u.deals[d].maturity == s.deals[d].maturity
  }

  lemma MaturitiesKept(s: Ledger, c: Context, cmd: Command)
    requires !cmd.Housekeeping? && !cmd.AddDealOrder? && Step(s, c, cmd).Some?
    ensures SameMaturities(s, Step(s, c, cmd).value)
  {
    if Quiet(cmd) {
      QuietFrame(s, c, cmd);
    } else if cmd.AddRepaymentOrder? || cmd.CompleteRepaymentOrder? || cmd.CloseRepaymentOrder? {
      RepaymentsKeepMaturities(s, c, cmd);
    } else {
      OrdersKeepMaturities(s, c, cmd);
    }
  }

  lemma RepaymentsKeepMaturities(s: Ledger, c: Context, cmd: Command)
    requires cmd.AddRepaymentOrder? || cmd.CompleteRepaymentOrder? || cmd.CloseRepaymentOrder?
    requires Step(s, c, cmd).Some?
    ensures SameMaturities(s, Step(s, c, cmd).value)
  {
  }

  lemma OrdersKeepMaturities(s: Ledger, c: Context, cmd: Command)
    requires cmd.CompleteDealOrder? || cmd.LockDealOrder? || cmd.CloseDealOrder? || cmd.Exempt?
    requires Step(s, c, cmd).Some?
    ensures SameMaturities(s, Step(s, c, cmd).value)
  {
  }

  /** The divisor of CloseDealOrder is never zero. */
  lemma {:induction false} RunMature(txs: seq<Tx>)
    requires FreshNonces(txs)
    ensures Mature(Run(EMPTY, txs))
  {
    if txs != [] {
      var n := |txs| - 1;
      LastIsFresh(txs);
      RunMature(txs[..n]);
      RunSound(txs[..n]);
      NextMature(Run(EMPTY, txs[..n]), txs[n], Nonces(txs[..n]));
    }
  }

  // ----- one chain per deal -----

  predicate DealChained(s: Ledger, deal: Deal) {
    deal.src in s.addresses && deal.dst in s.addresses && SameChain(s.addresses[deal.src], s.addresses[deal.dst])
  }

  /** The address an order pays to, the deal's source when it was made, is on the deal's chain. */
  predicate OrderChained(s: Ledger, r: Repayment) {
    r.dst in s.addresses && r.deal in s.deals && s.deals[r.deal].dst in s.addresses &&
    SameChain(s.addresses[r.dst], s.addresses[s.deals[r.deal].dst])
  }

  /** A transfer for a repayment order leaves the address that order offers, which is registered and
      on the chain of the address it pays to. */
  predicate Backed(s: Ledger, t: Transfer) {
    t.order.ToRepayment? && t.order.repayment in s.repayments ==>
      var r := s.repayments[t.order.repayment];
      t.src == r.src && t.src in s.addresses && r.dst in s.addresses &&
      SameChain(s.addresses[t.src], s.addresses[r.dst])
  }

  predicate RefKnown(t: Transfer, used: set<Guid>) {
    t.order.ToRepayment? ==> t.order.repayment.guid in used
  }

  ghost predicate Chained(s: Ledger, used: set<Guid>) {
    (forall d <- s.deals :: DealChained(s, s.deals[d])) &&
    (forall r <- s.repayments :: OrderChained(s, s.repayments[r])) &&
    (forall t <- s.transfers :: Backed(s, s.transfers[t]) && RefKnown(s.transfers[t], used))
  }

  ghost predicate DealsFrom(s: Ledger, u: Ledger) {
    forall d <- u.deals :: DealChained(u, u.deals[d]) ||
      (d in s.deals && u.deals[d].src == s.deals[d].src && u.deals[d].dst == s.deals[d].dst)
  }

  ghost predicate OrdersFrom(s: Ledger, u: Ledger) {
    forall r <- u.repayments :: OrderChained(u, u.repayments[r]) ||
      (r in s.repayments && u.repayments[r].dst == s.repayments[r].dst &&
       u.repayments[r].deal == s.repayments[r].deal &&
       u.repayments[r].deal in s.deals && u.repayments[r].deal in u.deals &&
       u.deals[u.repayments[r].deal].dst == s.deals[u.repayments[r].deal].dst)
  }

  /** A repayment order is new, or offers and pays to the addresses it did. */
  ghost predicate SameEnds(s: Ledger, u: Ledger, r: RepaymentId) {
    r in u.repayments ==>
      r in s.repayments && u.repayments[r].src == s.repayments[r].src && u.repayments[r].dst == s.repayments[r].dst
  }

  ghost predicate TransfersFrom(s: Ledger, u: Ledger, used: set<Guid>) {
    forall t <- u.transfers :: (Backed(u, u.transfers[t]) && RefKnown(u.transfers[t], used)) ||
      (t in s.transfers && u.transfers[t].src == s.transfers[t].src && u.transfers[t].order == s.transfers[t].order &&
       (u.transfers[t].order.ToRepayment? ==> SameEnds(s, u, u.transfers[t].order.repayment)))
  }

  lemma ChainedFrame(s: Ledger, u: Ledger, used: set<Guid>)
    requires Chained(s, used) && AddressesKept(s, u)
    requires DealsFrom(s, u) && OrdersFrom(s, u) && TransfersFrom(s, u, used)
    ensures Chained(u, used)
  {
    assert forall d <- u.deals :: d in s.deals ==> DealChained(s, s.deals[d]);
    assert forall r <- u.repayments :: r in s.repayments ==> OrderChained(s, s.repayments[r]);
    TransfersFrame(s, u, used);
  }

  lemma TransfersFrame(s: Ledger, u: Ledger, used: set<Guid>)
    requires Chained(s, used) && AddressesKept(s, u) && TransfersFrom(s, u, used)
    ensures forall t <- u.transfers :: Backed(u, u.transfers[t]) && RefKnown(u.transfers[t], used)
  {
    assert forall t <- u.transfers :: t in s.transfers ==> Backed(s, s.transfers[t]) && RefKnown(s.transfers[t], used);
  }

  lemma MoreUsed(s: Ledger, used: set<Guid>, guid: Guid)
    requires Chained(s, used)
    ensures Chained(s, used + {guid})
  {
    assert forall t <- s.transfers :: Backed(s, s.transfers[t]) && RefKnown(s.transfers[t], used);
  }

  // ----- commands that leave deals and repayment orders alone -----

  lemma SameTransfersChained(s: Ledger, u: Ledger, used: set<Guid>)
    requires Chained(s, used) && AddressesKept(s, u)
    requires u.deals == s.deals && u.repayments == s.repayments && u.transfers == s.transfers
    ensures Chained(u, used)
  {
    assert forall r <- s.repayments :: OrderChained(s, s.repayments[r]);
    ChainedFrame(s, u, used);
  }

  /** A registered transfer runs along the route of its order. */
  lemma NewTransferBacked(s: Ledger, c: Context, gain: int, order: OrderRef, tx: string, used: set<Guid>)
    requires Chained(s, used) && NewTransfer(s, c, gain, order, tx).Some?
    requires forall r <- s.repayments :: r.guid in used
    ensures var t := NewTransfer(s, c, gain, order, tx).value.1; Backed(s, t) && RefKnown(t, used)
  {
  }

  lemma TransferChained(s: Ledger, c: Context, gain: int, order: OrderRef, tx: string, verified: bool, used: set<Guid>)
    requires Chained(s, used) && OnRegisterTransfer(s, c, gain, order, tx, verified).Some?
    requires forall r <- s.repayments :: r.guid in used
    ensures Chained(OnRegisterTransfer(s, c, gain, order, tx, verified).value, used)
  {
    var u := OnRegisterTransfer(s, c, gain, order, tx, verified).value;
    var (id, t) := NewTransfer(s, c, gain, order, tx).value;
    NewTransferBacked(s, c, gain, order, tx, used);
    assert u.transfers == s.transfers[id := t] && u.repayments == s.repayments && u.deals == s.deals &&
           u.addresses == s.addresses;
    OneNewTransfer(s, u, id, t, used);
  }

  lemma OneNewTransfer(s: Ledger, u: Ledger, id: TransferId, t: Transfer, used: set<Guid>)
    requires Chained(s, used) && Backed(s, t) && RefKnown(t, used)
    requires u.transfers == s.transfers[id := t] && u.repayments == s.repayments && u.deals == s.deals &&
             u.addresses == s.addresses
    ensures Chained(u, used)
  {
    assert forall r <- s.repayments :: OrderChained(s, s.repayments[r]);
    ChainedFrame(s, u, used);
  }

  lemma QuietTransfers(s: Ledger, c: Context, cmd: Command)
    requires Quiet(cmd) && !cmd.RegisterTransfer? && Step(s, c, cmd).Some?
    ensures Step(s, c, cmd).value.transfers == s.transfers
  {
  }

  lemma QuietChained(s: Ledger, c: Context, cmd: Command, used: set<Guid>)
    requires Chained(s, used) && Quiet(cmd) && Step(s, c, cmd).Some?
    requires forall r <- s.repayments :: r.guid in used
    ensures Chained(Step(s, c, cmd).value, used)
  {
    if cmd.RegisterTransfer? {
      TransferChained(s, c, cmd.gain, cmd.order, cmd.tx, cmd.verified, used);
    } else {
      QuietFrame(s, c, cmd);
      QuietTransfers(s, c, cmd);
      SameTransfersChained(s, Step(s, c, cmd).value, used);
    }
  }

  // ----- housekeeping -----

  lemma ForgettingChained(s: Ledger, u: Ledger, used: set<Guid>)
    requires Chained(s, used) && Disciplined(s) && Forgets(s, u)
    ensures Chained(u, used)
  {
    assert forall r <- s.repayments :: OrderChained(s, s.repayments[r]) && OnActiveLoan(s, s.repayments[r]);
    ChainedFrame(s, u, used);
  }

  // ----- deals -----

  /** Deals and repayment orders keep their parties, and transfers their orders. */
  ghost predicate PartiesKept(s: Ledger, u: Ledger) {
    u.addresses == s.addresses && u.deals.Keys == s.deals.Keys && u.repayments.Keys == s.repayments.Keys &&
    (forall d <- u.deals :: u.deals[d].src == s.deals[d].src && u.deals[d].dst == s.deals[d].dst) &&
    (forall r <- u.repayments :: SameOrder(s.repayments[r], u.repayments[r])) && OrdersOfTransfersKept(s, u)
  }

  predicate SameOrder(q: Repayment, r: Repayment) {
    r.src == q.src && r.dst == q.dst && r.deal == q.deal
  }

  ghost predicate OrdersOfTransfersKept(s: Ledger, u: Ledger) {
    forall t <- u.transfers ::
      t in s.transfers && u.transfers[t].src == s.transfers[t].src && u.transfers[t].order == s.transfers[t].order
  }

  lemma OrdersKeepParties(s: Ledger, c: Context, cmd: Command)
    requires cmd.CompleteDealOrder? || cmd.LockDealOrder? || cmd.CloseDealOrder? || cmd.Exempt?
    requires Step(s, c, cmd).Some?
    ensures PartiesKept(s, Step(s, c, cmd).value)
  {
    match cmd
    case CompleteDealOrder(d, t) => OnePartyKept(s, OnCompleteDealOrder(s, c, d, t).value, d, Some(t));
    case LockDealOrder(d) => OnePartyKept(s, OnLockDealOrder(s, c, d).value, d, None);
    case CloseDealOrder(d, t) => OnePartyKept(s, OnCloseDealOrder(s, c, d, t).value, d, Some(t));
    case Exempt(d, t) => OnePartyKept(s, OnExempt(s, c, d, t).value, d, Some(t));
  }

  lemma OnePartyKept(s: Ledger, u: Ledger, d: DealId, t: Option<TransferId>)
    requires d in s.deals && u.deals.Keys == s.deals.Keys && u.deals == s.deals[d := u.deals[d]]
    requires u.deals[d].src == s.deals[d].src && u.deals[d].dst == s.deals[d].dst
    requires u.addresses == s.addresses && u.repayments == s.repayments
    requires t.Some? ==> t.value in s.transfers
    requires u.transfers == if t.Some? then Processed(s, t.value).transfers else s.transfers
    ensures PartiesKept(s, u)
  {
  }

  lemma AnswerKeepsParties(s: Ledger, c: Context, r: RepaymentId)
    requires OnCompleteRepaymentOrder(s, c, r).Some?
    ensures PartiesKept(s, OnCompleteRepaymentOrder(s, c, r).value)
  {
  }

  lemma PartiesKeptChained(s: Ledger, u: Ledger, used: set<Guid>)
    requires Chained(s, used) && PartiesKept(s, u)
    ensures Chained(u, used)
  {
    assert forall r <- s.repayments :: OrderChained(s, s.repayments[r]);
    ChainedFrame(s, u, used);
  }

  lemma NewDealFrame(s: Ledger, c: Context, o: OfferId, expiration: nat)
    requires OnAddDealOrder(s, c, o, expiration).Some?
    ensures var u, d := OnAddDealOrder(s, c, o, expiration).value, DealId(o);
            d !in s.deals && d in u.deals && u.deals == s.deals[d := u.deals[d]] &&
            u.addresses == s.addresses && u.repayments == s.repayments && u.transfers == s.transfers
  {
  }

  lemma OneNewDeal(s: Ledger, u: Ledger, d: DealId, used: set<Guid>)
    requires Chained(s, used) && d !in s.deals && d in u.deals && u.deals == s.deals[d := u.deals[d]]
    requires u.addresses == s.addresses && u.repayments == s.repayments && u.transfers == s.transfers &&
             DealChained(u, u.deals[d])
    ensures Chained(u, used)
  {
    assert DealsFrom(s, u) && TransfersFrom(s, u, used);
    assert OrdersFrom(s, u) by {
      assert forall r <- s.repayments :: OrderChained(s, s.repayments[r]);
    }
    ChainedFrame(s, u, used);
  }

  lemma NewDealChained(s: Ledger, c: Context, o: OfferId, expiration: nat, used: set<Guid>)
    requires Chained(s, used) && Sound(s) && Known(s, used) && OnAddDealOrder(s, c, o, expiration).Some?
    ensures Chained(OnAddDealOrder(s, c, o, expiration).value, used)
  {
    NewDealTerms(s, c, o, expiration, used);
    NewDealFrame(s, c, o, expiration);
    OneNewDeal(s, OnAddDealOrder(s, c, o, expiration).value, DealId(o), used);
  }

  // ----- repayment orders -----

  /** No transfer refers to an order made under a fresh nonce. */
  lemma OneNewOrder(s: Ledger, u: Ledger, r: RepaymentId, used: set<Guid>)
    requires Chained(s, used) && r.guid !in used
    requires u.addresses == s.addresses && u.deals == s.deals && u.transfers == s.transfers
    requires r in u.repayments && u.repayments == s.repayments[r := u.repayments[r]] && OrderChained(u, u.repayments[r])
    ensures Chained(u, used)
  {
    assert forall q <- s.repayments :: OrderChained(s, s.repayments[q]);
    assert forall t <- s.transfers :: RefKnown(s.transfers[t], used);
    ChainedFrame(s, u, used);
  }

  /** The offered address need not even be registered yet. */
  lemma NewOrderChained(s: Ledger, c: Context, d: DealId, address: AddressId, amount: string, expiration: nat,
                        used: set<Guid>)
    requires Chained(s, used) && c.guid !in used && OnAddRepaymentOrder(s, c, d, address, amount, expiration).Some?
    ensures Chained(OnAddRepaymentOrder(s, c, d, address, amount, expiration).value, used)
  {
    assert DealChained(s, s.deals[d]);
    OneNewOrder(s, OnAddRepaymentOrder(s, c, d, address, amount, expiration).value, RepaymentId(c.guid), used);
  }

  /** One deal and one repayment order for it change: the deal its source, the order neither its ends
      nor its deal. */
  ghost predicate Rehomes(s: Ledger, u: Ledger, d: DealId, r: RepaymentId) {
    u.addresses == s.addresses &&
    d in s.deals && d in u.deals && u.deals == s.deals[d := u.deals[d]] && u.deals[d].dst == s.deals[d].dst &&
    r in s.repayments && r in u.repayments && u.repayments == s.repayments[r := u.repayments[r]] &&
    SameOrder(s.repayments[r], u.repayments[r])
  }

  lemma RehomedOrders(s: Ledger, u: Ledger, d: DealId, r: RepaymentId, used: set<Guid>)
    requires Chained(s, used) && Rehomes(s, u, d, r)
    ensures OrdersFrom(s, u)
  {
    assert forall q <- s.repayments :: OrderChained(s, s.repayments[q]);
  }

  lemma RehomedTransfers(s: Ledger, u: Ledger, d: DealId, r: RepaymentId, used: set<Guid>)
    requires Rehomes(s, u, d, r) && OrdersOfTransfersKept(s, u)
    ensures TransfersFrom(s, u, used)
  {
  }

  lemma RehomedChained(s: Ledger, u: Ledger, d: DealId, r: RepaymentId, used: set<Guid>)
    requires Chained(s, used) && Rehomes(s, u, d, r) && OrdersOfTransfersKept(s, u) && DealChained(u, u.deals[d])
    ensures Chained(u, used)
  {
    RehomedOrders(s, u, d, r, used);
    RehomedTransfers(s, u, d, r, used);
    assert DealsFrom(s, u);
    ChainedFrame(s, u, used);
  }

  lemma TakeoverRehomes(s: Ledger, c: Context, r: RepaymentId, t: TransferId)
    requires OnCloseRepaymentOrder(s, c, r, t).Some?
    ensures var u := OnCloseRepaymentOrder(s, c, r, t).value;
            Rehomes(s, u, s.repayments[r].deal, r) && OrdersOfTransfersKept(s, u) &&
            u.deals[s.repayments[r].deal].src == s.repayments[r].src
  {
  }

  /** The collector's address replaces the investor's: the transfer shows that it is on one chain
      with the old source. */
  lemma TakeoverChained(s: Ledger, c: Context, r: RepaymentId, t: TransferId, used: set<Guid>)
    requires Chained(s, used) && OnCloseRepaymentOrder(s, c, r, t).Some?
    ensures Chained(OnCloseRepaymentOrder(s, c, r, t).value, used)
  {
    assert OrderChained(s, s.repayments[r]) && Backed(s, s.transfers[t]);
    TakeoverRehomes(s, c, r, t);
    RehomedChained(s, OnCloseRepaymentOrder(s, c, r, t).value, s.repayments[r].deal, r, used);
  }

  // ----- whole runs -----

  lemma DealsChained(s: Ledger, c: Context, cmd: Command, used: set<Guid>)
    requires Chained(s, used) && Sound(s) && Known(s, used) && Step(s, c, cmd).Some?
    requires cmd.AddDealOrder? || cmd.CompleteDealOrder? || cmd.LockDealOrder? || cmd.CloseDealOrder? || cmd.Exempt?
    ensures Chained(Step(s, c, cmd).value, used)
  {
    if cmd.AddDealOrder? {
      NewDealChained(s, c, cmd.offer, cmd.expiration, used);
    } else {
      OrdersKeepParties(s, c, cmd);
      PartiesKeptChained(s, Step(s, c, cmd).value, used);
    }
  }

  lemma RepaymentsChained(s: Ledger, c: Context, cmd: Command, used: set<Guid>)
    requires Chained(s, used) && c.guid !in used && Step(s, c, cmd).Some?
    requires cmd.AddRepaymentOrder? || cmd.CompleteRepaymentOrder? || cmd.CloseRepaymentOrder?
    ensures Chained(Step(s, c, cmd).value, used)
  {
    match cmd
    case AddRepaymentOrder(d, address, amount, expiration) =>
      NewOrderChained(s, c, d, address, amount, expiration, used);
    case CloseRepaymentOrder(r, t) => TakeoverChained(s, c, r, t, used);
    case CompleteRepaymentOrder(r) =>
      AnswerKeepsParties(s, c, r);
      PartiesKeptChained(s, OnCompleteRepaymentOrder(s, c, r).value, used);
  }

  ghost predicate OrdersKnown(s: Ledger, used: set<Guid>) {
    forall r <- s.repayments :: r.guid in used
  }

  lemma NextOrdersKnown(s: Ledger, tx: Tx, used: set<Guid>)
    requires OrdersKnown(s, used)
    ensures OrdersKnown(Next(s, tx), used + {tx.c.guid})
  {
    if Step(s, tx.c, tx.cmd).Some? {
      if Quiet(tx.cmd) {
        QuietFrame(s, tx.c, tx.cmd);
      } else if tx.cmd.Housekeeping? {
        HousekeepingFrame(s, tx.c, tx.cmd);
      } else {
        OrderIds(s, tx.c, tx.cmd);
      }
    }
  }

  lemma OrderIds(s: Ledger, c: Context, cmd: Command)
    requires !Quiet(cmd) && !cmd.Housekeeping? && Step(s, c, cmd).Some?
    ensures Step(s, c, cmd).value.repayments.Keys <= s.repayments.Keys + {RepaymentId(c.guid)}
  {
  }

  lemma NextChained(s: Ledger, tx: Tx, used: set<Guid>)
    requires Chained(s, used) && OrdersKnown(s, used) && Sound(s) && Known(s, used) && Disciplined(s) &&
             tx.c.guid !in used
    ensures Chained(Next(s, tx), used + {tx.c.guid})
  {
    var c, cmd := tx.c, tx.cmd;
    if Step(s, c, cmd).Some? {
      if Quiet(cmd) {
        QuietChained(s, c, cmd, used);
      } else if cmd.Housekeeping? {
        HousekeepingFrame(s, c, cmd);
        ForgettingChained(s, Step(s, c, cmd).value, used);
      } else if cmd.AddRepaymentOrder? || cmd.CompleteRepaymentOrder? || cmd.CloseRepaymentOrder? {
        RepaymentsChained(s, c, cmd, used);
      } else {
        DealsChained(s, c, cmd, used);
      }
    }
    MoreUsed(Next(s, tx), used, c.guid);
  }

  /** With fresh nonces the two addresses of every deal share a chain and a network in every reachable
      ledger, however often the investor has been replaced. */
  lemma {:induction false} RunChained(txs: seq<Tx>)
    requires FreshNonces(txs)
    ensures Chained(Run(EMPTY, txs), Nonces(txs)) && OrdersKnown(Run(EMPTY, txs), Nonces(txs))
    ensures forall d <- Run(EMPTY, txs).deals :: DealChained(Run(EMPTY, txs), Run(EMPTY, txs).deals[d])
  {
    if txs != [] {
      var n := |txs| - 1;
      LastIsFresh(txs);
      RunChained(txs[..n]);
      RunSound(txs[..n]);
      RunDisciplined(txs[..n]);
      NextChained(Run(EMPTY, txs[..n]), txs[n], Nonces(txs[..n]));
      NextOrdersKnown(Run(EMPTY, txs[..n]), txs[n], Nonces(txs[..n]));
    }
  }
}
