/** The transaction processor's applicator: reads the state, checks, and writes a batch of
    records. Every command is proved to do what Handlers and Upkeep say. */
module Application {
  import opened Wrappers
  import opened Ledgers
  import opened Handlers
  import opened Upkeep
  import opened Numerals
  import Conservation
  import Terms
  import Interest

  /** One key and the record to store under it. */
  datatype Entry =
    | WalletIs(who: Sighash, coins: nat)
    | AddressIs(address: AddressId, a: Address)
    | TransferIs(transfer: TransferId, t: Transfer)
    | AskIs(ask: AskId, order: Order)
    | BidIs(bid: BidId, order: Order)
    | OfferIs(offer: OfferId, o: Offer)
    | DealIs(deal: DealId, d: Deal)
    | RepaymentIs(repayment: RepaymentId, r: Repayment)
    | Erc20Is(tx: string, coins: nat)
    | FeeIs(guid: Guid, f: Fee)

  function Put(s: Ledger, e: Entry): Ledger {
    match e
    case WalletIs(who, coins) => s.(wallets := s.wallets[who := coins])
    case AddressIs(id, a) => s.(addresses := s.addresses[id := a])
    case TransferIs(id, t) => s.(transfers := s.transfers[id := t])
    case AskIs(id, order) => s.(asks := s.asks[id := order])
    case BidIs(id, order) => s.(bids := s.bids[id := order])
    case OfferIs(id, o) => s.(offers := s.offers[id := o])
    case DealIs(id, d) => s.(deals := s.deals[id := d])
    case RepaymentIs(id, r) => s.(repayments := s.repayments[id := r])
    case Erc20Is(tx, coins) => s.(erc20 := s.erc20[tx := coins])
    case FeeIs(guid, f) => s.(fees := s.fees[guid := f])
  }

  function PutAll(s: Ledger, es: seq<Entry>): Ledger
    decreases |es|
  {
    if es == [] then s else PutAll(Put(s, es[0]), es[1..])
  }

  lemma {:induction false} PutOneMore(s: Ledger, es: seq<Entry>, e: Entry)
    ensures PutAll(s, es + [e]) == Put(PutAll(s, es), e)
    decreases |es|
  {
    if es == [] {
      assert [] + [e] == [e] && PutAll(Put(s, e), []) == Put(s, e);
    } else {
      assert (es + [e])[1..] == es[1..] + [e];
      PutOneMore(Put(s, es[0]), es[1..], e);
    }
  }

  lemma PutSome(s: Ledger, a: Entry, b: Entry, c: Entry, d: Entry, e: Entry)
    ensures PutAll(s, [a, b]) == Put(Put(s, a), b)
    ensures PutAll(s, [a, b, c]) == Put(Put(Put(s, a), b), c)
    ensures PutAll(s, [a, b, c, d]) == Put(Put(Put(Put(s, a), b), c), d)
    ensures PutAll(s, [a, b, c, d, e]) == Put(Put(Put(Put(Put(s, a), b), c), d), e)
  {
    PutOneMore(s, [], a);
    PutOneMore(s, [a], b);
    PutOneMore(s, [a, b], c);
    PutOneMore(s, [a, b, c], d);
    PutOneMore(s, [a, b, c, d], e);
    assert [] + [a] == [a] && [a] + [b] == [a, b] && [a, b] + [c] == [a, b, c] && [a, b, c] + [d] == [a, b, c, d];
    assert [a, b, c, d] + [e] == [a, b, c, d, e];
  }

  /** A record of the ledger proper: neither a wallet nor a fee. */
  predicate Plain(e: Entry) {
    !e.WalletIs? && !e.FeeIs?
  }

  /** Fee record and wallet written last are the fee charged on top. */
  lemma PaidLast(s: Ledger, c: Context, e: Entry)
    requires CanPay(s, c) && Plain(e)
    ensures CanPay(Put(s, e), c)
    ensures Put(Put(Put(s, e), FeeIs(c.guid, Fee(c.signer, c.Head()))),
                WalletIs(c.signer, s.wallets[c.signer] - TX_FEE)) == Paid(Put(s, e), c)
  {
    assert Put(s, e).wallets == s.wallets && Put(s, e).fees == s.fees;
  }

  /** The state after a command that answered `ok`, by what the command should do. */
  predicate Done(ok: bool, before: Ledger, after: Ledger, expected: Option<Ledger>) {
    ok == expected.Some? && after == expected.GetOr(before)
  }

  /** The wallets after the first `n` awards. */
  function AwardedTo(wallets: map<Sighash, nat>, awards: seq<Award>, n: nat): map<Sighash, nat>
    requires n <= |awards|
  {
    if n == 0 then wallets else Awarded(AwardedTo(wallets, awards, n - 1), awards[n - 1])
  }

  lemma {:induction false} AwardedInSteps(wallets: map<Sighash, nat>, awards: seq<Award>, n: nat)
    requires n <= |awards|
    ensures AwardedTo(wallets, awards, n) == AllAwarded(wallets, awards[..n])
  {
    if n > 0 {
      assert awards[..n][..n - 1] == awards[..n - 1];
      AwardedInSteps(wallets, awards, n - 1);
    }
  }

  lemma AwardedAll(wallets: map<Sighash, nat>, awards: seq<Award>)
    ensures AwardedTo(wallets, awards, |awards|) == AllAwarded(wallets, awards)
  {
    AwardedInSteps(wallets, awards, |awards|);
    assert awards[..|awards|] == awards;
  }

  /** A map once the entries to drop are gone, except those still listed. */
  function Sifted<K, V>(all: map<K, V>, listed: set<K>, drop: V -> bool): map<K, V> {
    map k | k in all && (k in listed || !drop(all[k])) :: all[k]
  }

  lemma SiftOne<K, V>(all: map<K, V>, listed: set<K>, k: K, drop: V -> bool)
    requires k in listed && k in all
    ensures var now := Sifted(all, listed, drop);
            k in now && now[k] == all[k] && Sifted(all, listed - {k}, drop) == if drop(all[k]) then now - {k} else now
  {
  }

  lemma SiftAll<K, V>(all: map<K, V>, drop: V -> bool)
    ensures Sifted(all, all.Keys, drop) == all
  {
  }

  /** The last write to a key wins. */
  lemma Overwrite(m: map<Sighash, nat>, k: Sighash, v: nat, w: nat)
    ensures m[k := v][k := w] == m[k := w]
  {
  }

  /** The wallets once the deals `gone` have been swept. */
  ghost function PaidBack(s: Ledger, c: Context, gone: set<DealId>): map<Sighash, nat> {
    if Refunds(c) then Refunded(s.wallets, s.deals, gone) else s.wallets
  }

  lemma OneLess<K>(all: set<K>, left: set<K>, d: K)
    requires d in left
    ensures all - (left - {d}) == (all - left) + if d in all then {d} else {}
  {
  }

  ghost function Partway(s: Ledger, c: Context, gone: set<DealId>): Ledger {
    s.(deals := s.deals - gone, wallets := PaidBack(s, c, gone))
  }

  /** The wallets after one deal's fundraiser got its fee back, if refunds are due. */
  function PayBack(c: Context, wallets: map<Sighash, nat>, deal: Deal): map<Sighash, nat> {
    if Refunds(c) && deal.sighash in wallets then wallets[deal.sighash := wallets[deal.sighash] + deal.fee] else wallets
  }

  predicate Payable(s: Ledger, c: Context, gone: set<DealId>) {
    Refunds(c) ==> forall d <- gone :: d in s.deals ==> s.deals[d].sighash in s.wallets
  }

  lemma PayableOne(s: Ledger, c: Context, gone: set<DealId>, d: DealId)
    requires d in s.deals && Payable(s, c, gone)
    ensures Payable(s, c, gone + {d}) <==> (Refunds(c) ==> s.deals[d].sighash in s.wallets)
  {
  }

  lemma RefundOneMore(s: Ledger, c: Context, gone: set<DealId>, d: DealId)
    requires d in s.deals && d !in gone && Refunds(c) && s.deals[d].sighash in s.wallets
    ensures PaidBack(s, c, gone + {d}) == PayBack(c, PaidBack(s, c, gone), s.deals[d])
  {
    assert gone + {d} - {d} == gone;
    Conservation.RefundOne(s.wallets, s.deals, gone + {d}, d);
  }

  lemma PaidBackOne(s: Ledger, c: Context, gone: set<DealId>, d: DealId)
    requires d in s.deals && d !in gone && Payable(s, c, gone)
    ensures Payable(s, c, gone + {d}) <==> (Refunds(c) ==> s.deals[d].sighash in PaidBack(s, c, gone))
    ensures Payable(s, c, gone + {d}) ==> PaidBack(s, c, gone + {d}) == PayBack(c, PaidBack(s, c, gone), s.deals[d])
  {
    PayableOne(s, c, gone, d);
    if Refunds(c) {
      assert PaidBack(s, c, gone).Keys == s.wallets.Keys;
      if s.deals[d].sighash in s.wallets {
        RefundOneMore(s, c, gone, d);
      }
    }
  }

  lemma SameSweeps(s: Ledger, t: Ledger, at: nat)
    ensures s.deals == t.deals ==> LapsedDeals(s, at) == LapsedDeals(t, at)
    ensures s.fees == t.fees ==> OldFees(s, at) == OldFees(t, at)
  {
  }

  lemma ForgetOneMore(s: Ledger, gone: set<DealId>, d: DealId)
    ensures s.deals - (gone + {d}) == (s.deals - gone) - {d}
  {
  }

  class Applicator {
    var state: Ledger
    const ctx: Context

    constructor (state: Ledger, ctx: Context)
      ensures this.state == state && this.ctx == ctx
    {
      this.state := state;
      this.ctx := ctx;
    }

    // ----- state access -----

    method SetState(es: seq<Entry>)
      modifies this
      ensures state == PutAll(old(state), es)
    {
      var i := 0;
      while i < |es|
        invariant 0 <= i <= |es| && PutAll(state, es[i..]) == PutAll(old(state), es)
      {
        assert es[i..][1..] == es[i + 1..];
        state := Put(state, es[i]);
        i := i + 1;
      }
    }

    /** The signer's wallet after the fee; None when there is too little in it. */
    method Charge() returns (wallet: Option<nat>)
      ensures wallet == if CanPay(state, ctx) then Some(state.wallets[ctx.signer] - TX_FEE) else None
    {
      if ctx.signer !in state.wallets {
        return None;
      }
      var balance := state.wallets[ctx.signer];
      if balance < TX_FEE {
        return None;
      }
      return Some(balance - TX_FEE);
    }

    function FeeEntry(): Entry
      reads this
    {
      FeeIs(ctx.guid, Fee(ctx.signer, ctx.Head()))
    }

    /** Stores one record together with the fee. */
    method SetCharged(e: Entry, wallet: nat)
      modifies this
      ensures CanPay(old(state), ctx) && Plain(e) && wallet == old(state).wallets[ctx.signer] - TX_FEE ==>
              CanPay(Put(old(state), e), ctx) && state == Paid(Put(old(state), e), ctx)
      ensures state == Put(Put(Put(old(state), e), FeeIs(ctx.guid, Fee(ctx.signer, ctx.Head()))),
                           WalletIs(ctx.signer, wallet))
    {
      PutSome(state, e, FeeEntry(), WalletIs(ctx.signer, wallet), e, e);
      if CanPay(state, ctx) && Plain(e) {
        PaidLast(state, ctx, e);
      }
      SetState([e, FeeEntry(), WalletIs(ctx.signer, wallet)]);
    }

    /** Stores two records together with the fee. */
    method SetBothCharged(e: Entry, g: Entry, wallet: nat)
      modifies this
      ensures CanPay(old(state), ctx) && Plain(e) && Plain(g) && wallet == old(state).wallets[ctx.signer] - TX_FEE ==>
              CanPay(Put(Put(old(state), e), g), ctx) && state == Paid(Put(Put(old(state), e), g), ctx)
      ensures state == Put(Put(Put(Put(old(state), e), g), FeeIs(ctx.guid, Fee(ctx.signer, ctx.Head()))),
                           WalletIs(ctx.signer, wallet))
    {
      PutSome(state, e, g, FeeEntry(), WalletIs(ctx.signer, wallet), e);
      if CanPay(state, ctx) && Plain(e) && Plain(g) {
        PaidLast(state, ctx, e);
        PaidLast(Put(state, e), ctx, g);
      }
      SetState([e, g, FeeEntry(), WalletIs(ctx.signer, wallet)]);
    }

    /** Stores three records together with the fee. */
    method SetThreeCharged(e: Entry, g: Entry, h: Entry, wallet: nat)
      requires CanPay(state, ctx) && Plain(e) && Plain(g) && Plain(h) && wallet == state.wallets[ctx.signer] - TX_FEE
      modifies this
      ensures CanPay(Put(Put(Put(old(state), e), g), h), ctx)
      ensures state == Paid(Put(Put(Put(old(state), e), g), h), ctx)
    {
      PutSome(state, e, g, h, FeeEntry(), WalletIs(ctx.signer, wallet));
      PaidLast(state, ctx, e);
      PaidLast(Put(state, e), ctx, g);
      PaidLast(Put(Put(state, e), g), ctx, h);
      SetState([e, g, h, FeeEntry(), WalletIs(ctx.signer, wallet)]);
    }

    method SetBoth(e: Entry, g: Entry)
      modifies this
      ensures state == Put(Put(old(state), e), g)
    {
      PutSome(state, e, g, e, e, e);
      SetState([e, g]);
    }

    /** deleteState for the orders and the offer behind a deal. */
    method Delete(ask: AskId, bid: BidId, offer: OfferId)
      modifies this
      ensures state == old(state).(asks := old(state).asks - {ask}, bids := old(state).bids - {bid},
                                   offers := old(state).offers - {offer})
    {
      state := state.(asks := state.asks - {ask});
      state := state.(bids := state.bids - {bid});
      state := state.(offers := state.offers - {offer});
    }

    // ----- commands -----

    method SendFunds(coins: nat, to: Sighash) returns (ok: bool)
      modifies this
      ensures Done(ok, old(state), state, OnSendFunds(old(state), ctx, coins, to))
    {
      if to == ctx.signer || ctx.signer !in state.wallets {
        return false;
      }
      var amountPlusTxFee := coins + TX_FEE;
      var srcBalance := state.wallets[ctx.signer];
      if srcBalance < amountPlusTxFee {
        return false;
      }
      srcBalance := srcBalance - amountPlusTxFee;
      var dstBalance := coins;
      if to in state.wallets {
        dstBalance := state.wallets[to] + coins;
      }
      SetCharged(WalletIs(to, dstBalance), srcBalance);
      ghost var expected := OnSendFunds(old(state), ctx, coins, to).value;
      assert state.wallets == expected.wallets;
      return true;
    }

    method RegisterAddress(blockchain: string, value: string, network: string) returns (ok: bool)
      modifies this
      ensures Done(ok, old(state), state, OnRegisterAddress(old(state), ctx, blockchain, value, network))
    {
      var wallet := Charge();
      var id := AddressKey(blockchain, value, network);
      if wallet.None? || id in state.addresses {
        return false;
      }
      SetCharged(AddressIs(id, Address(blockchain, value, network, ctx.signer)), wallet.value);
      return true;
    }

    method RegisterTransfer(gain: int, order: OrderRef, tx: string, verified: bool) returns (ok: bool)
      modifies this
      ensures Done(ok, old(state), state, OnRegisterTransfer(old(state), ctx, gain, order, tx, verified))
    {
      var wallet := Charge();
      var read := ReadTransfer(gain, order, tx);
      if wallet.None? || read.None? {
        return false;
      }
      var (transferId, transfer) := read.value;
      if transferId in state.transfers || (tx != "0" && !Verified(ctx, verified)) {
        return false;
      }
      SetCharged(TransferIs(transferId, transfer), wallet.value);
      return true;
    }

    /** The transfer to record, if the order's addresses and amounts allow one. */
    method ReadTransfer(gain: int, order: OrderRef, tx: string) returns (r: Option<(TransferId, Transfer)>)
      ensures r == NewTransfer(state, ctx, gain, order, tx)
    {
      var route := Ends(gain, order);
      if route.None? {
        return None;
      }
      var (srcId, dstId, amount) := route.value;
      if srcId !in state.addresses || dstId !in state.addresses {
        return None;
      }
      var src, dst := state.addresses[srcId], state.addresses[dstId];
      if src.sighash != ctx.signer || dst.blockchain != src.blockchain || dst.network != src.network {
        return None;
      }
      var recorded := TransferAmount(amount, gain, tx);
      if recorded.None? {
        return None;
      }
      var transfer := Transfer(src.blockchain, srcId, dstId, order, recorded.value, tx, ctx.Head(), false, ctx.signer);
      return Some((TransferKey(src.blockchain, tx, src.network), transfer));
    }

    /** Source, destination and amount by the order's own record. */
    method Ends(gain: int, order: OrderRef) returns (r: Option<(AddressId, AddressId, string)>)
      ensures r == Route(state, order, gain)
    {
      match order {
        case ToDeal(d) =>
          if d !in state.deals {
            return None;
          }
          if gain == 0 {
            return Some((state.deals[d].src, state.deals[d].dst, state.deals[d].amount));
          }
          return Some((state.deals[d].dst, state.deals[d].src, state.deals[d].amount));
        case ToRepayment(r) =>
          if r !in state.repayments || gain != 0 {
            return None;
          }
          return Some((state.repayments[r].src, state.repayments[r].dst, state.repayments[r].amount));
      }
    }

    /** The order to record, if the address is the signer's and the amounts can be read. */
    method ReadOrder(address: AddressId, amount: string, interest: nat, maturity: nat, fee: string, expiration: nat)
        returns (r: Option<Order>)
      ensures r == NewOrder(state, ctx, address, amount, interest, maturity, fee, expiration)
    {
      if Amount(amount).None? || Amount(fee).None? || address !in state.addresses ||
          state.addresses[address].sighash != ctx.signer {
        return None;
      }
      return Some(Order(state.addresses[address].blockchain, address, amount, interest, maturity, fee, expiration,
                        ctx.Head(), ctx.signer));
    }

    method AddAskOrder(address: AddressId, amount: string, interest: nat, maturity: nat, fee: string, expiration: nat)
        returns (ok: bool)
      modifies this
      ensures Done(ok, old(state), state,
                   OnAddAskOrder(old(state), ctx, address, amount, interest, maturity, fee, expiration))
    {
      var wallet := Charge();
      var order := ReadOrder(address, amount, interest, maturity, fee, expiration);
      var id := AskId(ctx.guid);
      if wallet.None? || order.None? || id in state.asks {
        return false;
      }
      SetCharged(AskIs(id, order.value), wallet.value);
      return true;
    }

    method AddBidOrder(address: AddressId, amount: string, interest: nat, maturity: nat, fee: string, expiration: nat)
        returns (ok: bool)
      modifies this
      ensures Done(ok, old(state), state,
                   OnAddBidOrder(old(state), ctx, address, amount, interest, maturity, fee, expiration))
    {
      var wallet := Charge();
      var order := ReadOrder(address, amount, interest, maturity, fee, expiration);
      var id := BidId(ctx.guid);
      if wallet.None? || order.None? || id in state.bids {
        return false;
      }
      SetCharged(BidIs(id, order.value), wallet.value);
      return true;
    }

    method AddOffer(askId: AskId, bidId: BidId, expiration: nat) returns (ok: bool)
      modifies this
      ensures Done(ok, old(state), state, OnAddOffer(old(state), ctx, askId, bidId, expiration))
    {
      var wallet := Charge();
      var id := OfferId(askId, bidId);
      if wallet.None? || id in state.offers || askId !in state.asks || state.asks[askId].sighash != ctx.signer {
        return false;
      }
      var ask := state.asks[askId];
      if ask.expiration < ctx.Head() - ask.block || ask.address !in state.addresses {
        return false;
      }
      var src := state.addresses[ask.address];
      if bidId !in state.bids || state.bids[bidId].sighash == ctx.signer {
        return false;
      }
      var bid := state.bids[bidId];
      if bid.expiration < ctx.Head() - bid.block || bid.address !in state.addresses {
        return false;
      }
      var dst := state.addresses[bid.address];
      if src.blockchain != dst.blockchain || src.network != dst.network {
        return false;
      }
      if ask.amount != bid.amount || TextLess(bid.fee, ask.fee) || ask.maturity == 0 || bid.maturity == 0 {
        return false;
      }
      if ask.interest / ask.maturity > bid.interest / bid.maturity {
        return false;
      }
      SetCharged(OfferIs(id, Offer(src.blockchain, askId, bidId, expiration, ctx.Head(), ctx.signer)), wallet.value);
      return true;
    }

    /** The deal the offer and its two orders describe. */
    method ReadDeal(offerId: OfferId, expiration: nat) returns (deal: Option<Deal>)
      ensures deal == NewDeal(state, ctx, offerId, expiration)
    {
      if offerId !in state.offers {
        return None;
      }
      var offer := state.offers[offerId];
      if offer.expiration < ctx.Head() - offer.block || offer.bid !in state.bids || offer.ask !in state.asks {
        return None;
      }
      var bid, ask := state.bids[offer.bid], state.asks[offer.ask];
      var fee := Amount(bid.fee);
      if bid.sighash != ctx.signer || fee.None? {
        return None;
      }
      return Some(Deal(offer.blockchain, ask.address, bid.address, bid.amount, bid.interest, bid.maturity, fee.value,
                       expiration, ctx.Head(), ctx.signer, None, None, ""));
    }

    method AddDealOrder(offerId: OfferId, expiration: nat) returns (ok: bool)
      modifies this
      ensures Done(ok, old(state), state, OnAddDealOrder(old(state), ctx, offerId, expiration))
    {
      var id := DealId(offerId);
      var deal := ReadDeal(offerId, expiration);
      if id in state.deals || deal.None? || ctx.signer !in state.wallets {
        return false;
      }
      var fee := deal.value.fee + TX_FEE;
      if state.wallets[ctx.signer] < fee {
        return false;
      }
      StoreDeal(offerId, deal.value, state.wallets[ctx.signer] - fee);
      Overwrite(old(state).wallets, ctx.signer, old(state).wallets[ctx.signer] - deal.value.fee,
                old(state).wallets[ctx.signer] - fee);
      return true;
    }

    /** The deal takes the place of the orders and the offer it was made from. */
    method StoreDeal(offerId: OfferId, deal: Deal, balance: nat)
      requires offerId in state.offers
      modifies this
      ensures var s, offer := old(state), old(state).offers[offerId];
              state == s.(deals := s.deals[DealId(offerId) := deal],
                          fees := s.fees[ctx.guid := Fee(ctx.signer, ctx.Head())],
                          wallets := s.wallets[ctx.signer := balance],
                          asks := s.asks - {offer.ask}, bids := s.bids - {offer.bid}, offers := s.offers - {offerId})
    {
      var offer := state.offers[offerId];
      SetCharged(DealIs(DealId(offerId), deal), balance);
      Delete(offer.ask, offer.bid, offerId);
    }

    method CompleteDealOrder(dealId: DealId, transferId: TransferId) returns (ok: bool)
      modifies this
      ensures Done(ok, old(state), state, OnCompleteDealOrder(old(state), ctx, dealId, transferId))
    {
      if dealId !in state.deals || state.deals[dealId].loan.Some? {
        return false;
      }
      var deal := state.deals[dealId];
      if deal.src !in state.addresses || state.addresses[deal.src].sighash != ctx.signer {
        return false;
      }
      if deal.expiration < ctx.Head() - deal.block || transferId !in state.transfers {
        return false;
      }
      var transfer := state.transfers[transferId];
      if transfer.order != ToDeal(dealId) || transfer.amount != deal.amount || transfer.sighash != ctx.signer ||
          transfer.processed {
        return false;
      }
      transfer := transfer.(processed := true);
      if ctx.signer !in state.wallets {
        return false;
      }
      var fee := deal.fee - TX_FEE;
      var balance := state.wallets[ctx.signer] + fee;
      if balance < 0 {
        return false;
      }
      deal := deal.(loan := Some(transferId), block := ctx.Head());
      SetBothCharged(DealIs(dealId, deal), TransferIs(transferId, transfer), balance);
      Overwrite(old(state).wallets, ctx.signer, old(state).wallets[ctx.signer] + deal.fee, balance);
      return true;
    }

    method LockDealOrder(dealId: DealId) returns (ok: bool)
      modifies this
      ensures Done(ok, old(state), state, OnLockDealOrder(old(state), ctx, dealId))
    {
      var wallet := Charge();
      if wallet.None? || dealId !in state.deals {
        return false;
      }
      var deal := state.deals[dealId];
      if deal.lock != "" || deal.loan.None? || ctx.signer != deal.sighash {
        return false;
      }
      SetCharged(DealIs(dealId, deal.(lock := ctx.signer)), wallet.value);
      return true;
    }

    method CloseDealOrder(dealId: DealId, transferId: TransferId) returns (ok: bool)
      modifies this
      ensures Done(ok, old(state), state, OnCloseDealOrder(old(state), ctx, dealId, transferId))
      ensures ok <==> Terms.Closes(old(state), ctx, dealId, transferId)
    {
      Terms.CloseExactly(state, ctx, dealId, transferId);
      var wallet := Charge();
      var fine := RepaymentFits(dealId, transferId);
      if wallet.None? || !fine {
        return false;
      }
      SetBothCharged(DealIs(dealId, state.deals[dealId].(repayment := Some(transferId))),
                     TransferIs(transferId, state.transfers[transferId].(processed := true)), wallet.value);
      return true;
    }

    /** The fundraiser holds the lock and the transfer covers what is due. */
    method RepaymentFits(dealId: DealId, transferId: TransferId) returns (ok: bool)
      ensures ok == MayClose(state, ctx, dealId, transferId)
    {
      if dealId !in state.deals {
        return false;
      }
      var deal := state.deals[dealId];
      if deal.repayment.Some? || ctx.signer != deal.sighash || deal.lock != ctx.signer ||
          transferId !in state.transfers {
        return false;
      }
      var repayment := state.transfers[transferId];
      if repayment.order != ToDeal(dealId) || repayment.sighash != ctx.signer || repayment.processed {
        return false;
      }
      var amount := AmountDue(deal);
      var paid := Amount(repayment.amount);
      return amount.Some? && paid.Some? && paid.value >= amount.value;
    }

    /** The loan with interest up to the head. */
    method AmountDue(deal: Deal) returns (r: Option<nat>)
      ensures r == Debt(state, ctx, deal)
    {
      if deal.loan.None? || deal.loan.value !in state.transfers || deal.maturity == 0 {
        return None;
      }
      var principal := Amount(deal.amount);
      if principal.None? {
        return None;
      }
      var start := state.transfers[deal.loan.value].block;
      var ticks := Interest.TruncDiv(ctx.Head() - start + deal.maturity, deal.maturity);
      var amount := Interest.CalcInterest(principal.value, ticks, deal.interest);
      return Some(amount);
    }

    method Exempt(dealId: DealId, transferId: TransferId) returns (ok: bool)
      modifies this
      ensures Done(ok, old(state), state, OnExempt(old(state), ctx, dealId, transferId))
    {
      var wallet := Charge();
      if wallet.None? || dealId !in state.deals || state.deals[dealId].repayment.Some? ||
          transferId !in state.transfers {
        return false;
      }
      var deal, transfer := state.deals[dealId], state.transfers[transferId];
      if transfer.order != ToDeal(dealId) || transfer.processed {
        return false;
      }
      if deal.src !in state.addresses || ctx.signer != state.addresses[deal.src].sighash {
        return false;
      }
      SetBothCharged(DealIs(dealId, deal.(repayment := Some(transferId))),
                     TransferIs(transferId, transfer.(processed := true)), wallet.value);
      return true;
    }

    method AddRepaymentOrder(dealId: DealId, addressId: AddressId, amount: string, expiration: nat) returns (ok: bool)
      modifies this
      ensures Done(ok, old(state), state, OnAddRepaymentOrder(old(state), ctx, dealId, addressId, amount, expiration))
    {
      var wallet := Charge();
      var repayment := ReadRepayment(dealId, addressId, amount, expiration);
      if wallet.None? || repayment.None? || RepaymentId(ctx.guid) in state.repayments {
        return false;
      }
      SetCharged(RepaymentIs(RepaymentId(ctx.guid), repayment.value), wallet.value);
      return true;
    }

    /** The order to record, if the deal's loan is running and the two addresses fit. */
    method ReadRepayment(dealId: DealId, addressId: AddressId, amount: string, expiration: nat)
        returns (r: Option<Repayment>)
      ensures r == NewRepayment(state, ctx, dealId, addressId, amount, expiration)
    {
      if Amount(amount).None? || dealId !in state.deals {
        return None; // a blank deal has no loan
      }
      var deal := state.deals[dealId];
      if deal.sighash == ctx.signer || deal.loan.None? || deal.repayment.Some? {
        return None;
      }
      var src, dst := AddressOrBlank(state, deal.src), AddressOrBlank(state, addressId);
      if src.sighash == ctx.signer || src.blockchain != dst.blockchain || src.network != dst.network ||
          src.value == dst.value {
        return None;
      }
      return Some(Repayment(src.blockchain, addressId, deal.src, amount, expiration, ctx.Head(), dealId, ctx.signer, "",
                            None));
    }

    method CompleteRepaymentOrder(repaymentId: RepaymentId) returns (ok: bool)
      modifies this
      ensures Done(ok, old(state), state, OnCompleteRepaymentOrder(old(state), ctx, repaymentId))
    {
      var wallet := Charge();
      if wallet.None? || repaymentId !in state.repayments {
        return false;
      }
      var repayment := state.repayments[repaymentId];
      if repayment.dst !in state.addresses || state.addresses[repayment.dst].sighash != ctx.signer ||
          repayment.deal !in state.deals {
        return false;
      }
      var deal := state.deals[repayment.deal];
      if deal.lock != "" {
        return false;
      }
      SetBothCharged(RepaymentIs(repaymentId, repayment.(previousOwner := ctx.signer)),
                     DealIs(repayment.deal, deal.(lock := ctx.signer)), wallet.value);
      return true;
    }

    method CloseRepaymentOrder(repaymentId: RepaymentId, transferId: TransferId) returns (ok: bool)
      modifies this
      ensures Done(ok, old(state), state, OnCloseRepaymentOrder(old(state), ctx, repaymentId, transferId))
    {
      var wallet := Charge();
      if wallet.None? || repaymentId !in state.repayments || transferId !in state.transfers {
        return false;
      }
      var repayment, transfer := state.repayments[repaymentId], state.transfers[transferId];
      if repayment.sighash != ctx.signer || transfer.order != ToRepayment(repaymentId) ||
          transfer.amount != repayment.amount {
        return false;
      }
      if transfer.sighash != ctx.signer || transfer.processed || repayment.deal !in state.deals {
        return false;
      }
      var deal := state.deals[repayment.deal];
      if deal.src !in state.addresses || deal.lock != state.addresses[deal.src].sighash {
        return false;
      }
      SetThreeCharged(RepaymentIs(repaymentId, repayment.(transfer := Some(transferId))),
                      DealIs(repayment.deal, deal.(src := repayment.src, lock := "")),
                      TransferIs(transferId, transfer.(processed := true)), wallet.value);
      return true;
    }

    method CollectCoins(coins: nat, tx: string, verified: bool) returns (ok: bool)
      modifies this
      ensures Done(ok, old(state), state, OnCollectCoins(old(state), ctx, coins, tx, verified))
    {
      if tx in state.erc20 || !Verified(ctx, verified) {
        return false;
      }
      var balance := Balance(state.wallets, ctx.signer) + coins;
      SetBoth(WalletIs(ctx.signer, balance), Erc20Is(tx, coins));
      return true;
    }

    // ----- housekeeping -----

    /** Each sweep lists the records of one prefix and visits them in some order. */
    method SweepAsks(at: nat)
      modifies this
      ensures state == old(state).(asks := map a | a in old(state).asks &&
                                   !Expired(old(state).asks[a].expiration, old(state).asks[a].block, at) ::
                                         old(state).asks[a])
    {
      ghost var s, drop := state, (o: Order) => Expired(o.expiration, o.block, at);
      var listed := state.asks.Keys;
      SiftAll(s.asks, drop);
      while listed != {}
        invariant listed <= s.asks.Keys && state == s.(asks := Sifted(s.asks, listed, drop))
        decreases |listed|
      {
        var a :| a in listed;
        SiftOne(s.asks, listed, a, drop);
        listed := listed - {a};
        if Expired(state.asks[a].expiration, state.asks[a].block, at) {
          state := state.(asks := state.asks - {a});
        }
      }
    }

    method SweepBids(at: nat)
      modifies this
      ensures state == old(state).(bids := map b | b in old(state).bids &&
                                   !Expired(old(state).bids[b].expiration, old(state).bids[b].block, at) ::
                                         old(state).bids[b])
    {
      ghost var s, drop := state, (o: Order) => Expired(o.expiration, o.block, at);
      var listed := state.bids.Keys;
      SiftAll(s.bids, drop);
      while listed != {}
        invariant listed <= s.bids.Keys && state == s.(bids := Sifted(s.bids, listed, drop))
        decreases |listed|
      {
        var b :| b in listed;
        SiftOne(s.bids, listed, b, drop);
        listed := listed - {b};
        if Expired(state.bids[b].expiration, state.bids[b].block, at) {
          state := state.(bids := state.bids - {b});
        }
      }
    }

    method SweepOffers(at: nat)
      modifies this
      ensures state == old(state).(offers := map o | o in old(state).offers &&
                                   !Expired(old(state).offers[o].expiration, old(state).offers[o].block, at) ::
                                         old(state).offers[o])
    {
      ghost var s, drop := state, (o: Offer) => Expired(o.expiration, o.block, at);
      var listed := state.offers.Keys;
      SiftAll(s.offers, drop);
      while listed != {}
        invariant listed <= s.offers.Keys && state == s.(offers := Sifted(s.offers, listed, drop))
        decreases |listed|
      {
        var o :| o in listed;
        SiftOne(s.offers, listed, o, drop);
        listed := listed - {o};
        if Expired(state.offers[o].expiration, state.offers[o].block, at) {
          state := state.(offers := state.offers - {o});
        }
      }
    }

    method SweepRepayments(at: nat)
      modifies this
      ensures state == old(state).(repayments := map r | r in old(state).repayments &&
                                   !Stale(old(state).repayments[r], at) :: old(state).repayments[r])
    {
      ghost var s, drop := state, (o: Repayment) => Stale(o, at);
      var listed := state.repayments.Keys;
      SiftAll(s.repayments, drop);
      while listed != {}
        invariant listed <= s.repayments.Keys && state == s.(repayments := Sifted(s.repayments, listed, drop))
        decreases |listed|
      {
        var r :| r in listed;
        SiftOne(s.repayments, listed, r, drop);
        listed := listed - {r};
        if Stale(state.repayments[r], at) {
          state := state.(repayments := state.repayments - {r});
        }
      }
    }

    /** A lapsed deal is forgotten and its fundraiser gets the fee back if refunds are due. */
    method ForgetDeal(d: DealId) returns (ok: bool)
      modifies this
      requires d in state.deals
      ensures ok == (Refunds(ctx) ==> old(state).deals[d].sighash in old(state).wallets)
      ensures ok ==>
                state == old(state).(deals := old(state).deals - {d},
                                     wallets := PayBack(ctx, old(state).wallets, old(state).deals[d]))
    {
      var deal := state.deals[d];
      if Refunds(ctx) {
        if deal.sighash !in state.wallets {
          return false;
        }
        SetOne(WalletIs(deal.sighash, state.wallets[deal.sighash] + deal.fee));
      }
      state := state.(deals := state.deals - {d});
      return true;
    }

    /** One listed deal is visited after the deals `gone` have been swept. */
    method SweepDeal(d: DealId, at: nat, ghost s: Ledger, ghost gone: set<DealId>) returns (ok: bool)
      modifies this
      requires d in s.deals && d !in gone && Payable(s, ctx, gone) && state == Partway(s, ctx, gone)
      ensures var all := gone + if d in LapsedDeals(s, at) then {d} else {};
              ok == Payable(s, ctx, all) && (ok ==> state == Partway(s, ctx, all))
    {
      if Lapsed(state.deals[d], at) {
        PaidBackOne(s, ctx, gone, d);
        ForgetOneMore(s, gone, d);
        ok := ForgetDeal(d);
      } else {
        assert gone + {} == gone;
        ok := true;
      }
    }

    /** Lapsed deals are forgotten; their fundraisers get the fee back if refunds are due. */
    method SweepDeals(at: nat) returns (ok: bool)
      modifies this
      ensures ok == Payable(old(state), ctx, LapsedDeals(old(state), at))
      ensures ok ==> state == old(state).(deals := old(state).deals - LapsedDeals(old(state), at),
                                          wallets := PaidBack(old(state), ctx, LapsedDeals(old(state), at)))
    {
      ghost var s, lapsed := state, LapsedDeals(state, at);
      Conservation.RefundNone(s.wallets, s.deals);
      var listed := state.deals.Keys;
      ghost var gone: set<DealId> := {};
      while listed != {}
        invariant listed <= s.deals.Keys && gone == lapsed - listed
        invariant Payable(s, ctx, gone) && state == Partway(s, ctx, gone)
        decreases |listed|
      {
        var d :| d in listed;
        OneLess(lapsed, listed, d);
        listed := listed - {d};
        ok := SweepDeal(d, at, s, gone);
        if !ok {
          return;
        }
        gone := lapsed - listed;
      }
      assert gone == lapsed;
      return true;
    }

    /** Old fee records are forgotten. The payer's credited wallet is stored under the wallet's own
        text instead of its key, a place nothing ever reads, so it does not appear here. */
    method SweepFees(at: nat) returns (ok: bool)
      modifies this
      ensures ok == forall g <- OldFees(old(state), at) :: old(state).fees[g].sighash in old(state).wallets
      ensures ok ==> state == old(state).(fees := old(state).fees - OldFees(old(state), at))
    {
      ghost var all, worn := state.fees, OldFees(state, at);
      var listed := state.fees.Keys;
      while listed != {}
        invariant listed <= state.fees.Keys && state == old(state).(fees := state.fees)
        invariant state.fees == map g | g in all && (g in listed || g !in worn) :: all[g]
        invariant forall g <- worn - listed :: all[g].sighash in state.wallets
        decreases |listed|
      {
        var g :| g in listed;
        listed := listed - {g};
        if Expired(YEAR_OF_BLOCKS, state.fees[g].block, at) {
          if state.fees[g].sighash !in state.wallets {
            return false;
          }
          state := state.(fees := state.fees - {g});
        }
      }
      assert worn - listed == worn;
      assert state.fees == all - worn;
      return true;
    }

    /** The reward of the block at `height` goes to its signer. */
    method AwardSigner(newFormula: bool, height: nat, signer: Sighash)
      modifies this
      ensures var amount := if newFormula then 28 * ctx.fraction(height / BLOCKS_IN_PERIOD) else REWARD_AMOUNT;
              state == old(state).(wallets := Awarded(old(state).wallets, Award(height, signer, amount)))
    {
      var amount := REWARD_AMOUNT;
      if newFormula {
        amount := 28 * ctx.fraction(height / BLOCKS_IN_PERIOD);
      }
      if amount > 0 {
        SetOne(WalletIs(signer, Balance(state.wallets, signer) + amount));
      }
    }

    method SetOne(e: Entry)
      modifies this
      ensures state == Put(old(state), e)
    {
      state := Put(state, e);
    }

    /** Award number `n` of the given ones. */
    method AwardNext(newFormula: bool, height: nat, signer: Sighash, ghost wallets: map<Sighash, nat>,
                     ghost awards: seq<Award>, ghost n: nat)
      requires n < |awards| && state.wallets == AwardedTo(wallets, awards, n)
      requires awards[n] ==
               Award(height, signer, if newFormula then 28 * ctx.fraction(height / BLOCKS_IN_PERIOD) else REWARD_AMOUNT)
      modifies this
      ensures state == old(state).(wallets := state.wallets) && state.wallets == AwardedTo(wallets, awards, n + 1)
    {
      AwardSigner(newFormula, height, signer);
    }

    method RewardBlocks(upto: nat, reply: Option<seq<Sighash>>) returns (ok: bool)
      modifies this
      requires upto == 0 || state.processed < upto
      ensures ok == Awards(ctx, old(state).processed, upto, reply).Some?
      ensures ok ==>
                var awards := Awards(ctx, old(state).processed, upto, reply).value;
                state == old(state).(wallets := AllAwarded(old(state).wallets, awards))
    {
      ghost var awards := Awards(ctx, state.processed, upto, reply);
      if ctx.mode.Replay? {
        RewardReplayed(upto, awards.value);
        return true;
      }
      if reply.None? {
        return false;
      }
      RewardSigners(reply.value, awards.value);
      return true;
    }

    /** Replayed: from the named block downward. */
    method RewardReplayed(upto: nat, ghost awards: seq<Award>)
      requires ctx.mode.Replay?
      requires |awards| == if upto > state.processed then upto - state.processed else 0
      requires forall k | 0 <= k < |awards| ::
                 awards[k] == Award(upto - k, ctx.mode.signerOf(upto - k), Reward(ctx, state.processed, upto - k))
      modifies this
      ensures state == old(state).(wallets := AllAwarded(old(state).wallets, awards))
    {
      var processed, tip := state.processed, ctx.mode.tip;
      var newFormula := (if 278890 <= tip <= 278904 then 277800 else 278910) + 500 < processed;
      AwardDownward(newFormula, processed, upto, awards);
      AwardedAll(old(state).wallets, awards);
    }

    method AwardDownward(newFormula: bool, processed: nat, upto: nat, ghost awards: seq<Award>)
      requires ctx.mode.Replay?
      requires |awards| == if upto > processed then upto - processed else 0
      requires forall k | 0 <= k < |awards| ::
        awards[k] == Award(upto - k, ctx.mode.signerOf(upto - k),
                           if newFormula then 28 * ctx.fraction((upto - k) / BLOCKS_IN_PERIOD) else REWARD_AMOUNT)
      modifies this
      ensures state == old(state).(wallets := state.wallets) &&
              state.wallets == AwardedTo(old(state).wallets, awards, |awards|)
    {
      ghost var s, wallets := state, state.wallets;
      var i := upto;
      while i > processed
        invariant upto - i <= |awards| && (i > processed ==> upto - i < |awards|) && i <= upto
        invariant state == s.(wallets := state.wallets) && state.wallets == AwardedTo(wallets, awards, upto - i)
      {
        AwardNext(newFormula, i, ctx.mode.signerOf(i), wallets, awards, upto - i);
        i := i - 1;
      }
    }

    /** Live: the returned signers, lowest block first. */
    method RewardSigners(signers: seq<Sighash>, ghost awards: seq<Award>)
      requires ctx.mode.Live? && |awards| == |signers|
      requires forall k | 0 <= k < |awards| ::
                 awards[k] == Award(state.processed + 1 + k, signers[k],
                                    Reward(ctx, state.processed, state.processed + 1 + k))
      modifies this
      ensures state == old(state).(wallets := AllAwarded(old(state).wallets, awards))
    {
      var processed := state.processed;
      var newFormula := ctx.mode.update1.Some? && ctx.mode.update1.value + 500 < processed;
      AwardInTurn(newFormula, processed, signers, awards);
      AwardedAll(old(state).wallets, awards);
    }

    method AwardInTurn(newFormula: bool, processed: nat, signers: seq<Sighash>, ghost awards: seq<Award>)
      requires |awards| == |signers|
      requires forall k | 0 <= k < |awards| ::
        awards[k] == Award(processed + 1 + k, signers[k],
                           if newFormula then 28 * ctx.fraction((processed + 1 + k) / BLOCKS_IN_PERIOD)
                               else REWARD_AMOUNT)
      modifies this
      ensures state == old(state).(wallets := state.wallets) &&
              state.wallets == AwardedTo(old(state).wallets, awards, |awards|)
    {
      ghost var s, wallets := state, state.wallets;
      var i := 0;
      while i < |signers|
        invariant 0 <= i <= |signers|
        invariant state == s.(wallets := state.wallets) && state.wallets == AwardedTo(wallets, awards, i)
      {
        AwardNext(newFormula, processed + 1 + i, signers[i], wallets, awards, i);
        i := i + 1;
      }
    }

    method Sweep(at: nat) returns (ok: bool)
      modifies this
      ensures ok == Swept(old(state), ctx, at).Some?
      ensures ok ==> state == Swept(old(state), ctx, at).value
    {
      ghost var s := state;
      SweepOrders(at);
      SameSweeps(s, state, at);
      ok := SweepDeals(at);
      if ok {
        SweepRepayments(at);
        SameSweeps(s, state, at);
        ok := SweepFees(at);
      }
    }

    method SweepOrders(at: nat)
      modifies this
      ensures var t := WithoutStale(old(state), at);
              state == old(state).(asks := t.asks, bids := t.bids, offers := t.offers)
    {
      SweepAsks(at);
      SweepBids(at);
      SweepOffers(at);
    }

    method SweepAndReward(blockIdx: nat, reply: Option<seq<Sighash>>) returns (ok: bool)
      requires SweepDue(state, ctx, blockIdx) && blockIdx != 0
      modifies this
      ensures ok == (Swept(old(state), ctx, blockIdx).Some? && Awards(ctx, old(state).processed, blockIdx, reply).Some?)
      ensures ok ==> var t := Swept(old(state), ctx, blockIdx).value;
                     state == t.(wallets := AllAwarded(t.wallets,
                                                       Awards(ctx, old(state).processed, blockIdx, reply).value),
                                                       processed := blockIdx)
    {
      ok := Sweep(blockIdx);
      if ok {
        assert state.processed == old(state).processed;
        ok := RewardBlocks(blockIdx, reply);
      }
      if ok {
        state := state.(processed := blockIdx);
      }
    }

    /** Block 0 asks for the next batch of rewards. */
    method RewardBatch(reply: Option<seq<Sighash>>) returns (ok: bool)
      modifies this
      ensures var expected := OnHousekeeping(old(state), ctx, 0, false, reply);
              ok == expected.Some? && (ok ==> state == expected.value)
    {
      var last := state.processed;
      ok := true;
      if last + CONFIRMATION_COUNT * 2 + BLOCK_REWARD_PROCESSING_COUNT < ctx.Head() {
        ok := RewardBlocks(0, reply);
        if ok {
          state := state.(processed := last + BLOCK_REWARD_PROCESSING_COUNT);
        }
      }
    }

    /** A failed transaction is rolled back by the validator. */
    method Housekeeping(blockIdx: nat, byGateway: bool, reply: Option<seq<Sighash>>) returns (ok: bool)
      modifies this
      ensures Done(ok, old(state), state, OnHousekeeping(old(state), ctx, blockIdx, byGateway, reply))
    {
      var before, last := state, state.processed;
      ok := true;
      if blockIdx == 0 {
        ok := RewardBatch(reply);
      } else if !Verified(ctx, byGateway) {
        ok := false;
      } else if CONFIRMATION_COUNT * 2 <= blockIdx && last < blockIdx && blockIdx < ctx.Head() - CONFIRMATION_COUNT {
        ok := SweepAndReward(blockIdx, reply);
      }
      if !ok {
        state := before;
      }
    }

    // ----- dispatch -----

    /** Every command takes exactly the step of the ledger it names. */
    method Apply(cmd: Command) returns (ok: bool)
      modifies this
      ensures ok == Step(old(state), ctx, cmd).Some? && state == Next(old(state), Tx(ctx, cmd))
    {
      match cmd {
        case SendFunds(coins, to) => ok := SendFunds(coins, to);
        case RegisterAddress(blockchain, value, network) => ok := RegisterAddress(blockchain, value, network);
        case RegisterTransfer(gain, order, tx, verified) => ok := RegisterTransfer(gain, order, tx, verified);
        case AddAskOrder(address, amount, interest, maturity, fee, expiration) =>
          ok := AddAskOrder(address, amount, interest, maturity, fee, expiration);
        case AddBidOrder(address, amount, interest, maturity, fee, expiration) =>
          ok := AddBidOrder(address, amount, interest, maturity, fee, expiration);
        case AddOffer(ask, bid, expiration) => ok := AddOffer(ask, bid, expiration);
        case CollectCoins(coins, tx, verified) => ok := CollectCoins(coins, tx, verified);
        case Housekeeping(blockIdx, byGateway, reply) => ok := Housekeeping(blockIdx, byGateway, reply);
        case AddRepaymentOrder(_, _, _, _) | CompleteRepaymentOrder(_) | CloseRepaymentOrder(_, _) =>
          ok := ApplyTakeover(cmd);
        case _ => ok := ApplyLoan(cmd);
      }
    }

    /** The commands of deals. */
    method ApplyLoan(cmd: Command) returns (ok: bool)
      requires cmd.AddDealOrder? || cmd.CompleteDealOrder? || cmd.LockDealOrder? || cmd.CloseDealOrder? || cmd.Exempt?
      modifies this
      ensures ok == Step(old(state), ctx, cmd).Some? && state == Next(old(state), Tx(ctx, cmd))
    {
      match cmd {
        case AddDealOrder(offer, expiration) => ok := AddDealOrder(offer, expiration);
        case CompleteDealOrder(deal, transfer) => ok := CompleteDealOrder(deal, transfer);
        case LockDealOrder(deal) => ok := LockDealOrder(deal);
        case CloseDealOrder(deal, transfer) => ok := CloseDealOrder(deal, transfer);
        case Exempt(deal, transfer) => ok := Exempt(deal, transfer);
      }
    }

    /** The commands of repayment orders. */
    method ApplyTakeover(cmd: Command) returns (ok: bool)
      requires cmd.AddRepaymentOrder? || cmd.CompleteRepaymentOrder? || cmd.CloseRepaymentOrder?
      modifies this
      ensures ok == Step(old(state), ctx, cmd).Some? && state == Next(old(state), Tx(ctx, cmd))
    {
      match cmd {
        case AddRepaymentOrder(deal, address, amount, expiration) =>
          ok := AddRepaymentOrder(deal, address, amount, expiration);
        case CompleteRepaymentOrder(repayment) => ok := CompleteRepaymentOrder(repayment);
        case CloseRepaymentOrder(repayment, transfer) => ok := CloseRepaymentOrder(repayment, transfer);
      }
    }
  }
}
