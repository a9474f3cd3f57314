/** Asks, bids and the deals made from them, when no nonce is used twice. */
module Trades {
  import opened Wrappers
  import opened Ledgers
  import opened Handlers
  import opened Upkeep
  import opened Frames

  /** No two transactions share a nonce. */
  ghost predicate FreshNonces(txs: seq<Tx>) {
    forall i, j | 0 <= i < j < |txs| :: txs[i].c.guid != txs[j].c.guid
  }

  ghost function Nonces(txs: seq<Tx>): set<Guid> {
    set i | 0 <= i < |txs| :: txs[i].c.guid
  }

  // ----- what every ledger reached with fresh nonces looks like -----

  predicate OfferKnown(o: OfferId, used: set<Guid>) {
    o.ask.guid in used && o.bid.guid in used
  }

  /** Every record keyed by a nonce belongs to a nonce already spent. */
  ghost predicate Known(s: Ledger, used: set<Guid>) {
    (forall a <- s.asks :: a.guid in used) && (forall b <- s.bids :: b.guid in used) &&
    (forall o <- s.offers :: OfferKnown(o, used)) && s.fees.Keys <= used
  }

  /** An order is placed by the owner of its address. */
  predicate Placed(s: Ledger, order: Order) {
    order.address in s.addresses && s.addresses[order.address].sighash == order.sighash
  }

  /** Two orders that may become a deal. */
  predicate Agreed(s: Ledger, ask: Order, bid: Order) {
    Placed(s, ask) && Placed(s, bid) && ask.sighash != bid.sighash &&
    SameChain(s.addresses[ask.address], s.addresses[bid.address]) && Match(ask, bid)
  }

  predicate OfferSound(s: Ledger, o: OfferId) {
    o in s.offers && s.offers[o].ask == o.ask && s.offers[o].bid == o.bid &&
    (o.ask in s.asks && o.bid in s.bids ==> Agreed(s, s.asks[o.ask], s.bids[o.bid]))
  }

  predicate DealSound(s: Ledger, deal: Deal) {
    deal.src in s.addresses && deal.dst in s.addresses && deal.maturity > 0
  }

  ghost predicate Sound(s: Ledger) {
    (forall a <- s.asks :: Placed(s, s.asks[a])) && (forall b <- s.bids :: Placed(s, s.bids[b])) &&
    (forall o <- s.offers :: OfferSound(s, o))
  }

  /** The orders behind a deal are gone. */
  predicate Consumed(s: Ledger, used: set<Guid>, d: DealId) {
    d.offer.ask !in s.asks && d.offer.bid !in s.bids && OfferKnown(d.offer, used)
  }

  // ----- one step -----

  /** Addresses stay as they are. */
  ghost predicate AddressesKept(s: Ledger, u: Ledger) {
    forall a <- s.addresses :: a in u.addresses && u.addresses[a] == s.addresses[a]
  }

  lemma NextAddressesKept(s: Ledger, tx: Tx)
    ensures AddressesKept(s, Next(s, tx))
  {
    if Step(s, tx.c, tx.cmd).Some? {
      AddressFrame(s, tx.c, tx.cmd);
      if Quiet(tx.cmd) {
        QuietFrame(s, tx.c, tx.cmd);
      }
    }
  }

  /** Orders and offers only disappear, and old addresses stay. */
  ghost predicate OrdersShrink(s: Ledger, u: Ledger) {
    AddressesKept(s, u) && Within(u.asks, s.asks) && Within(u.bids, s.bids) && Within(u.offers, s.offers)
  }

  lemma ShrinkSound(s: Ledger, u: Ledger)
    requires Sound(s) && OrdersShrink(s, u)
    ensures Sound(u)
  {
    forall o | o in u.offers
      ensures OfferSound(u, o)
    {
      assert OfferSound(s, o);
    }
  }

  /** Every command but the three that add orders and offers. */
  lemma OthersShrink(s: Ledger, c: Context, cmd: Command)
    requires !cmd.AddAskOrder? && !cmd.AddBidOrder? && !cmd.AddOffer? && Step(s, c, cmd).Some?
    ensures OrdersShrink(s, Step(s, c, cmd).value)
    ensures Step(s, c, cmd).value.fees.Keys <= s.fees.Keys + {c.guid}
  {
    NextAddressesKept(s, Tx(c, cmd));
    if cmd.Housekeeping? {
      HousekeepingFrame(s, c, cmd);
    } else {
      OrdersKept(s, c, cmd);
    }
  }

  lemma OrdersKept(s: Ledger, c: Context, cmd: Command)
    requires !cmd.AddAskOrder? && !cmd.AddBidOrder? && !cmd.AddOffer? && !cmd.Housekeeping? && Step(s, c, cmd).Some?
    ensures var u := Step(s, c, cmd).value;
            Within(u.asks, s.asks) && Within(u.bids, s.bids) && Within(u.offers, s.offers) &&
            u.fees.Keys <= s.fees.Keys + {c.guid}
  {
    if cmd.SendFunds? || cmd.RegisterAddress? || cmd.RegisterTransfer? || cmd.CollectCoins? {
      PlainKeepsOrders(s, c, cmd);
    } else if cmd.AddRepaymentOrder? || cmd.CompleteRepaymentOrder? || cmd.CloseRepaymentOrder? {
      RepaymentKeepsOrders(s, c, cmd);
    } else {
      DealKeepsOrders(s, c, cmd);
    }
  }

  ghost predicate SameOrders(s: Ledger, u: Ledger, guid: Guid) {
    u.asks == s.asks && u.bids == s.bids && u.offers == s.offers && u.fees.Keys <= s.fees.Keys + {guid}
  }

  lemma PlainKeepsOrders(s: Ledger, c: Context, cmd: Command)
    requires cmd.SendFunds? || cmd.RegisterAddress? || cmd.RegisterTransfer? || cmd.CollectCoins?
    requires Step(s, c, cmd).Some?
    ensures SameOrders(s, Step(s, c, cmd).value, c.guid)
  {
  }

  lemma RepaymentKeepsOrders(s: Ledger, c: Context, cmd: Command)
    requires cmd.AddRepaymentOrder? || cmd.CompleteRepaymentOrder? || cmd.CloseRepaymentOrder?
    requires Step(s, c, cmd).Some?
    ensures SameOrders(s, Step(s, c, cmd).value, c.guid)
  {
  }

  lemma DealKeepsOrders(s: Ledger, c: Context, cmd: Command)
    requires cmd.AddDealOrder? || cmd.CompleteDealOrder? || cmd.LockDealOrder? || cmd.CloseDealOrder? || cmd.Exempt?
    requires Step(s, c, cmd).Some?
    ensures var u := Step(s, c, cmd).value;
            Within(u.asks, s.asks) && Within(u.bids, s.bids) && Within(u.offers, s.offers) &&
            u.fees.Keys <= s.fees.Keys + {c.guid}
  {
  }

  lemma AskAdded(s: Ledger, u: Ledger, id: AskId, order: Order, used: set<Guid>)
    requires Sound(s) && Known(s, used) && id.guid !in used && Placed(s, order)
    requires u.asks == s.asks[id := order] && u.bids == s.bids && u.offers == s.offers && u.addresses == s.addresses
    requires u.fees.Keys <= s.fees.Keys + {id.guid}
    ensures Sound(u) && Known(u, used + {id.guid})
  {
    assert forall o <- s.offers :: OfferSound(s, o) && OfferKnown(o, used);
  }

  lemma AskSound(s: Ledger, c: Context, cmd: Command, used: set<Guid>)
    requires cmd.AddAskOrder? && Step(s, c, cmd).Some?
    requires Sound(s) && Known(s, used) && c.guid !in used
    ensures Sound(Step(s, c, cmd).value) && Known(Step(s, c, cmd).value, used + {c.guid})
  {
    var u := Step(s, c, cmd).value;
    var order := NewOrder(s, c, cmd.address, cmd.amount, cmd.interest, cmd.maturity, cmd.fee, cmd.expiration).value;
    assert u.fees == s.fees[c.guid := Fee(c.signer, c.Head())];
    AskAdded(s, u, AskId(c.guid), order, used);
  }

  lemma BidAdded(s: Ledger, u: Ledger, id: BidId, order: Order, used: set<Guid>)
    requires Sound(s) && Known(s, used) && id.guid !in used && Placed(s, order)
    requires u.bids == s.bids[id := order] && u.asks == s.asks && u.offers == s.offers && u.addresses == s.addresses
    requires u.fees.Keys <= s.fees.Keys + {id.guid}
    ensures Sound(u) && Known(u, used + {id.guid})
  {
    assert forall o <- s.offers :: OfferSound(s, o) && OfferKnown(o, used);
  }

  lemma BidSound(s: Ledger, c: Context, cmd: Command, used: set<Guid>)
    requires cmd.AddBidOrder? && Step(s, c, cmd).Some?
    requires Sound(s) && Known(s, used) && c.guid !in used
    ensures Sound(Step(s, c, cmd).value) && Known(Step(s, c, cmd).value, used + {c.guid})
  {
    var u := Step(s, c, cmd).value;
    var order := NewOrder(s, c, cmd.address, cmd.amount, cmd.interest, cmd.maturity, cmd.fee, cmd.expiration).value;
    assert u.fees == s.fees[c.guid := Fee(c.signer, c.Head())];
    BidAdded(s, u, BidId(c.guid), order, used);
  }

  lemma OneOfferMore(s: Ledger, u: Ledger, id: OfferId, offer: Offer, used: set<Guid>, guid: Guid)
    requires Sound(s) && Known(s, used) && offer.ask == id.ask && offer.bid == id.bid
    requires id.ask in s.asks && id.bid in s.bids && Agreed(s, s.asks[id.ask], s.bids[id.bid])
    requires u.offers == s.offers[id := offer] && u.asks == s.asks && u.bids == s.bids && u.addresses == s.addresses
    requires u.fees.Keys <= s.fees.Keys + {guid}
    ensures Sound(u) && Known(u, used + {guid})
  {
    assert forall o <- s.offers :: OfferSound(s, o) && OfferKnown(o, used);
    assert OfferSound(u, id);
  }

  lemma OfferAdded(s: Ledger, c: Context, cmd: Command, used: set<Guid>)
    requires cmd.AddOffer? && Step(s, c, cmd).Some?
    requires Sound(s) && Known(s, used)
    ensures Sound(Step(s, c, cmd).value) && Known(Step(s, c, cmd).value, used + {c.guid})
  {
    var u, id := Step(s, c, cmd).value, OfferId(cmd.ask, cmd.bid);
    assert u.fees == s.fees[c.guid := Fee(c.signer, c.Head())];
    OneOfferMore(s, u, id, u.offers[id], used, c.guid);
  }

  lemma NextSound(s: Ledger, tx: Tx, used: set<Guid>)
    requires Sound(s) && Known(s, used) && tx.c.guid !in used
    ensures Sound(Next(s, tx)) && Known(Next(s, tx), used + {tx.c.guid})
  {
    var cmd := tx.cmd;
    if Step(s, tx.c, cmd).Some? {
      if cmd.AddAskOrder? {
        AskSound(s, tx.c, cmd, used);
      } else if cmd.AddBidOrder? {
        BidSound(s, tx.c, cmd, used);
      } else if cmd.AddOffer? {
        OfferAdded(s, tx.c, cmd, used);
      } else {
        OthersShrink(s, tx.c, cmd);
        ShrinkSound(s, Step(s, tx.c, cmd).value);
      }
    }
  }

  /** The only new key an order can get is the nonce of its own transaction. */
  lemma OrderKeys(s: Ledger, c: Context, cmd: Command)
    requires cmd.AddAskOrder? || cmd.AddBidOrder? || cmd.AddOffer?
    requires Step(s, c, cmd).Some?
    ensures var u := Step(s, c, cmd).value;
            u.asks.Keys <= s.asks.Keys + {AskId(c.guid)} && u.bids.Keys <= s.bids.Keys + {BidId(c.guid)}
  {
  }

  /** Consumed orders never come back. */
  lemma NextConsumed(s: Ledger, tx: Tx, used: set<Guid>, d: DealId)
    requires tx.c.guid !in used && Consumed(s, used, d)
    ensures Consumed(Next(s, tx), used + {tx.c.guid}, d)
  {
    var cmd := tx.cmd;
    if Step(s, tx.c, cmd).Some? {
      if cmd.AddAskOrder? || cmd.AddBidOrder? || cmd.AddOffer? {
        OrderKeys(s, tx.c, cmd);
      } else {
        OthersShrink(s, tx.c, cmd);
      }
    }
  }

  // ----- new deals -----

  /** The terms of a new deal: it takes both orders off the book, its amount is both their
      amounts, and its two addresses share a chain but not an owner. */
  lemma NewDealTerms(s: Ledger, c: Context, o: OfferId, expiration: nat, used: set<Guid>)
    requires Sound(s) && Known(s, used)
    requires OnAddDealOrder(s, c, o, expiration).Some?
    ensures var u := OnAddDealOrder(s, c, o, expiration).value;
            o.ask in s.asks && o.bid in s.bids && Consumed(u, used, DealId(o)) && DealId(o) in u.deals &&
            var deal := u.deals[DealId(o)];
            deal.amount == s.asks[o.ask].amount == s.bids[o.bid].amount && DealSound(u, deal) &&
            deal.src == s.asks[o.ask].address && deal.dst == s.bids[o.bid].address &&
            u.addresses[deal.src].sighash != u.addresses[deal.dst].sighash &&
            SameChain(u.addresses[deal.src], u.addresses[deal.dst])
  {
    assert OfferSound(s, o) && OfferKnown(o, used);
  }

  // ----- runs with fresh nonces -----

  ghost function DealMade(s: Ledger, tx: Tx): seq<DealId> {
    if Step(s, tx.c, tx.cmd).Some? && tx.cmd.AddDealOrder? then [DealId(tx.cmd.offer)] else []
  }

  /** Every deal made along a run, including those swept away since. */
  ghost function DealsIn(s: Ledger, txs: seq<Tx>): seq<DealId> {
    if txs == [] then []
    else DealsIn(s, txs[..|txs| - 1]) + DealMade(Run(s, txs[..|txs| - 1]), txs[|txs| - 1])
  }

  lemma LastIsFresh(txs: seq<Tx>)
    requires txs != [] && FreshNonces(txs)
    ensures var n := |txs| - 1;
            FreshNonces(txs[..n]) && txs[n].c.guid !in Nonces(txs[..n]) &&
            Nonces(txs) == Nonces(txs[..n]) + {txs[n].c.guid}
  {
    var n := |txs| - 1;
    forall g | g in Nonces(txs)
      ensures g in Nonces(txs[..n]) + {txs[n].c.guid}
    {
      var i :| 0 <= i < |txs| && txs[i].c.guid == g;
      assert i < n ==> txs[..n][i].c.guid == g;
    }
    forall g | g in Nonces(txs[..n])
      ensures g in Nonces(txs)
    {
      var i :| 0 <= i < n && txs[..n][i].c.guid == g;
      assert txs[i].c.guid == g;
    }
  }

  lemma {:induction false} RunSound(txs: seq<Tx>)
    requires FreshNonces(txs)
    ensures Sound(Run(EMPTY, txs)) && Known(Run(EMPTY, txs), Nonces(txs))
  {
    if txs != [] {
      LastIsFresh(txs);
      RunSound(txs[..|txs| - 1]);
      NextSound(Run(EMPTY, txs[..|txs| - 1]), txs[|txs| - 1], Nonces(txs[..|txs| - 1]));
    }
  }

  ghost predicate AllConsumed(s: Ledger, used: set<Guid>, made: seq<DealId>) {
    forall i | 0 <= i < |made| :: Consumed(s, used, made[i])
  }

  ghost predicate OrdersDistinct(made: seq<DealId>) {
    forall i, j | 0 <= i < j < |made| ::
      made[i].offer.ask != made[j].offer.ask && made[i].offer.bid != made[j].offer.bid
  }

  /** Each ask and each bid goes into at most one deal. */
  lemma {:induction false} OrdersUsedOnce(txs: seq<Tx>)
    requires FreshNonces(txs)
    ensures AllConsumed(Run(EMPTY, txs), Nonces(txs), DealsIn(EMPTY, txs))
    ensures OrdersDistinct(DealsIn(EMPTY, txs))
  {
    if txs != [] {
      var n := |txs| - 1;
      LastIsFresh(txs);
      OrdersUsedOnce(txs[..n]);
      RunSound(txs[..n]);
      MadeOnce(Run(EMPTY, txs[..n]), txs[n], Nonces(txs[..n]), DealsIn(EMPTY, txs[..n]));
    }
  }

  lemma MadeOnce(s: Ledger, tx: Tx, used: set<Guid>, made: seq<DealId>)
    requires Sound(s) && Known(s, used) && tx.c.guid !in used
    requires AllConsumed(s, used, made) && OrdersDistinct(made)
    ensures AllConsumed(Next(s, tx), used + {tx.c.guid}, made + DealMade(s, tx))
    ensures OrdersDistinct(made + DealMade(s, tx))
  {
    forall i | 0 <= i < |made|
      ensures Consumed(Next(s, tx), used + {tx.c.guid}, made[i])
    {
      NextConsumed(s, tx, used, made[i]);
    }
    if Step(s, tx.c, tx.cmd).Some? && tx.cmd.AddDealOrder? {
      NewDealTerms(s, tx.c, tx.cmd.offer, tx.cmd.expiration, used);
    }
  }

  /** What a new deal in a run with fresh nonces promises. */
  lemma RunDealTerms(txs: seq<Tx>, c: Context, o: OfferId, expiration: nat)
    requires FreshNonces(txs) && OnAddDealOrder(Run(EMPTY, txs), c, o, expiration).Some?
    ensures var s, u := Run(EMPTY, txs), OnAddDealOrder(Run(EMPTY, txs), c, o, expiration).value;
            o.ask in s.asks && o.bid in s.bids && DealId(o) in u.deals &&
            var deal := u.deals[DealId(o)];
            deal.amount == s.asks[o.ask].amount == s.bids[o.bid].amount && DealSound(u, deal) &&
            u.addresses[deal.src].sighash != u.addresses[deal.dst].sighash &&
            SameChain(u.addresses[deal.src], u.addresses[deal.dst])
  {
    RunSound(txs);
    NewDealTerms(Run(EMPTY, txs), c, o, expiration, Nonces(txs));
  }
}
