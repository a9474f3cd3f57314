/** What each ledger command does: the condition under which it is accepted, and the ledger it
    leaves. None stands for a rejected transaction, which changes nothing. */
module Handlers {
  import opened Wrappers
  import opened Ledgers
  import opened Numerals
  import Interest

  /** The signer can pay the transaction fee. */
  predicate CanPay(s: Ledger, c: Context) {
    c.signer in s.wallets && s.wallets[c.signer] >= TX_FEE
  }

  /** The fee leaves the signer's wallet and waits in a record keyed by the nonce. */
  function Paid(s: Ledger, c: Context): Ledger
    requires CanPay(s, c)
  {
    s.(wallets := s.wallets[c.signer := s.wallets[c.signer] - TX_FEE],
       fees := s.fees[c.guid := Fee(c.signer, c.Head())])
  }

  /** Accepted when `ok`; the fee is charged on top of the new records in `t`. */
  function Charged(s: Ledger, c: Context, ok: bool, t: Ledger): Option<Ledger>
    requires CanPay(s, c) && ok ==> CanPay(t, c)
  {
    if CanPay(s, c) && ok then Some(Paid(t, c)) else None
  }

  function Elapsed(c: Context, block: nat): int {
    c.Head() - block
  }

  predicate Verified(c: Context, answer: bool) {
    c.mode.Replay? || answer
  }

  function OnSendFunds(s: Ledger, c: Context, amount: nat, to: Sighash): Option<Ledger> {
    if to != c.signer && c.signer in s.wallets && s.wallets[c.signer] >= amount + TX_FEE then
      var moved := s.wallets[c.signer := s.wallets[c.signer] - amount][to := Balance(s.wallets, to) + amount];
      Some(Paid(s.(wallets := moved), c))
    else None
  }

  function AddressKey(blockchain: string, value: string, network: string): AddressId {
    AddressId(blockchain + Lower(value) + network)
  }

  function OnRegisterAddress(s: Ledger, c: Context, blockchain: string, value: string,
                             network: string): Option<Ledger> {
    var id := AddressKey(blockchain, value, network);
    Charged(s, c, id !in s.addresses,
            s.(addresses := s.addresses[id := Address(blockchain, value, network, c.signer)]))
  }

  /** Source, destination and amount of the transfer an order asks for. Money flowing back
      from a deal carries a gain and runs the other way. */
  function Route(s: Ledger, order: OrderRef, gain: int): Option<(AddressId, AddressId, string)> {
    match order
    case ToDeal(d) =>
      var deal :- Get(s.deals, d);
      Some(if gain == 0 then (deal.src, deal.dst, deal.amount) else (deal.dst, deal.src, deal.amount))
    case ToRepayment(r) =>
      var repayment :- Get(s.repayments, r);
      if gain != 0 then None else Some((repayment.src, repayment.dst, repayment.amount))
  }

  function TransferKey(blockchain: string, tx: string, network: string): TransferId {
    TransferId(blockchain + tx + network)
  }

  /** The amount recorded: a transfer with the transaction id "0" moves nothing. */
  function TransferAmount(amount: string, gain: int, tx: string): Option<string> {
    if tx == "0" then Some("0")
    else
      var n :- Amount(amount);
      Some(Show(n + gain))
  }

  /** The transfer a signer may register for an order. */
  function NewTransfer(s: Ledger, c: Context, gain: int, order: OrderRef, tx: string): Option<(TransferId, Transfer)> {
    var (from, to, amount) :- Route(s, order, gain);
    var src :- Get(s.addresses, from);
    var dst :- Get(s.addresses, to);
    var recorded :- TransferAmount(amount, gain, tx);
    if src.sighash == c.signer && src.blockchain == dst.blockchain && src.network == dst.network then
      Some((TransferKey(src.blockchain, tx, src.network),
            Transfer(src.blockchain, from, to, order, recorded, tx, c.Head(), false, c.signer)))
    else None
  }

  function OnRegisterTransfer(s: Ledger, c: Context, gain: int, order: OrderRef, tx: string,
                              verified: bool): Option<Ledger> {
    var (id, transfer) :- NewTransfer(s, c, gain, order, tx);
    Charged(s, c, id !in s.transfers && (tx == "0" || Verified(c, verified)),
            s.(transfers := s.transfers[id := transfer]))
  }

  /** The order a signer may place on an address of their own. */
  function NewOrder(s: Ledger, c: Context, address: AddressId, amount: string, interest: nat, maturity: nat,
                    fee: string, expiration: nat): Option<Order>
  {
    var a :- Get(s.addresses, address);
    if a.sighash == c.signer && Amount(amount).Some? && Amount(fee).Some? then
      Some(Order(a.blockchain, address, amount, interest, maturity, fee, expiration, c.Head(), c.signer))
    else None
  }

  function OnAddAskOrder(s: Ledger, c: Context, address: AddressId, amount: string, interest: nat, maturity: nat,
                       fee: string, expiration: nat): Option<Ledger>
  {
    var order :- NewOrder(s, c, address, amount, interest, maturity, fee, expiration);
    Charged(s, c, AskId(c.guid) !in s.asks, s.(asks := s.asks[AskId(c.guid) := order]))
  }

  function OnAddBidOrder(s: Ledger, c: Context, address: AddressId, amount: string, interest: nat, maturity: nat,
                       fee: string, expiration: nat): Option<Ledger>
  {
    var order :- NewOrder(s, c, address, amount, interest, maturity, fee, expiration);
    Charged(s, c, BidId(c.guid) !in s.bids, s.(bids := s.bids[BidId(c.guid) := order]))
  }

  /** The two orders agree: texts for amount and fee, whole quotients for the rates. A zero
      maturity is a failed division. */
  predicate Match(ask: Order, bid: Order) {
    ask.amount == bid.amount && !TextLess(bid.fee, ask.fee) && ask.maturity > 0 && bid.maturity > 0 &&
    ask.interest / ask.maturity <= bid.interest / bid.maturity
  }

  predicate SameChain(a: Address, b: Address) {
    a.blockchain == b.blockchain && a.network == b.network
  }

  /** An investor may offer this ask against this bid. */
  predicate MayOffer(s: Ledger, c: Context, ask: AskId, bid: BidId) {
    ask in s.asks && bid in s.bids &&
    s.asks[ask].address in s.addresses && s.bids[bid].address in s.addresses &&
    s.asks[ask].sighash == c.signer && s.bids[bid].sighash != c.signer &&
    s.asks[ask].expiration >= Elapsed(c, s.asks[ask].block) &&
    s.bids[bid].expiration >= Elapsed(c, s.bids[bid].block) &&
    SameChain(s.addresses[s.asks[ask].address], s.addresses[s.bids[bid].address]) &&
    Match(s.asks[ask], s.bids[bid])
  }

  function OnAddOffer(s: Ledger, c: Context, ask: AskId, bid: BidId, expiration: nat): Option<Ledger> {
    if MayOffer(s, c, ask, bid) then
      var offer := Offer(s.addresses[s.asks[ask].address].blockchain, ask, bid, expiration, c.Head(), c.signer);
      Charged(s, c, OfferId(ask, bid) !in s.offers, s.(offers := s.offers[OfferId(ask, bid) := offer]))
    else None
  }

  /** The deal an offer turns into; it replaces the offer and both orders. */
  function NewDeal(s: Ledger, c: Context, offer: OfferId, expiration: nat): Option<Deal> {
    var o :- Get(s.offers, offer);
    var bid :- Get(s.bids, o.bid);
    var ask :- Get(s.asks, o.ask);
    var fee :- Amount(bid.fee);
    if o.expiration >= Elapsed(c, o.block) && bid.sighash == c.signer then
      Some(Deal(o.blockchain, ask.address, bid.address, bid.amount, bid.interest, bid.maturity, fee, expiration,
                c.Head(), c.signer, None, None, ""))
    else None
  }

  function OnAddDealOrder(s: Ledger, c: Context, offer: OfferId, expiration: nat): Option<Ledger> {
    var deal :- NewDeal(s, c, offer, expiration);
    if DealId(offer) !in s.deals && c.signer in s.wallets && s.wallets[c.signer] >= deal.fee + TX_FEE then
      Some(Paid(s.(wallets := s.wallets[c.signer := s.wallets[c.signer] - deal.fee],
                   deals := s.deals[DealId(offer) := deal],
                   asks := s.asks - {s.offers[offer].ask},
                   bids := s.bids - {s.offers[offer].bid},
                   offers := s.offers - {offer}), c))
    else None
  }

  /** An unprocessed transfer that was registered for `order`. */
  predicate Waiting(s: Ledger, t: TransferId, order: OrderRef) {
    t in s.transfers && s.transfers[t].order == order && !s.transfers[t].processed
  }

  function Processed(s: Ledger, t: TransferId): Ledger
    requires t in s.transfers
  {
    s.(transfers := s.transfers[t := s.transfers[t].(processed := true)])
  }

  predicate Owns(s: Ledger, address: AddressId, who: Sighash) {
    address in s.addresses && s.addresses[address].sighash == who
  }

  predicate MayComplete(s: Ledger, c: Context, d: DealId, t: TransferId) {
    d in s.deals && s.deals[d].loan.None? && Owns(s, s.deals[d].src, c.signer) &&
    s.deals[d].expiration >= Elapsed(c, s.deals[d].block) &&
    Waiting(s, t, ToDeal(d)) && s.transfers[t].amount == s.deals[d].amount && s.transfers[t].sighash == c.signer &&
    c.signer in s.wallets && s.wallets[c.signer] + s.deals[d].fee >= TX_FEE
  }

  /** The loan is paid out: the investor earns the fee held with the deal. */
  function OnCompleteDealOrder(s: Ledger, c: Context, d: DealId, t: TransferId): Option<Ledger> {
    if MayComplete(s, c, d, t) then
      var deal := s.deals[d];
      Some(Paid(Processed(s, t).(wallets := s.wallets[c.signer := s.wallets[c.signer] + deal.fee],
                                 deals := s.deals[d := deal.(loan := Some(t), block := c.Head())]), c))
    else None
  }

  function OnLockDealOrder(s: Ledger, c: Context, d: DealId): Option<Ledger> {
    var deal :- Get(s.deals, d);
    Charged(s, c, deal.lock == "" && deal.loan.Some? && deal.sighash == c.signer,
            s.(deals := s.deals[d := deal.(lock := c.signer)]))
  }

  /** What the fundraiser must have paid back by now; None when the deal holds no usable loan. */
  function Debt(s: Ledger, c: Context, deal: Deal): Option<nat> {
    var t :- deal.loan;
    var loan :- Get(s.transfers, t);
    var amount :- Amount(deal.amount);
    if deal.maturity == 0 then None
    else Some(Interest.Threshold(amount, c.Head(), loan.block, deal.maturity, deal.interest))
  }

  predicate MayClose(s: Ledger, c: Context, d: DealId, t: TransferId) {
    d in s.deals && s.deals[d].repayment.None? && s.deals[d].sighash == c.signer && s.deals[d].lock == c.signer &&
    Waiting(s, t, ToDeal(d)) && s.transfers[t].sighash == c.signer &&
    Debt(s, c, s.deals[d]).Some? && Amount(s.transfers[t].amount).Some? &&
    Amount(s.transfers[t].amount).value >= Debt(s, c, s.deals[d]).value
  }

  function OnCloseDealOrder(s: Ledger, c: Context, d: DealId, t: TransferId): Option<Ledger> {
    if MayClose(s, c, d, t) then
      Charged(s, c, true, Processed(s, t).(deals := s.deals[d := s.deals[d].(repayment := Some(t))]))
    else None
  }

  /** The investor forgives the rest. Neither a completed loan nor the transfer's signer is asked for. */
  function OnExempt(s: Ledger, c: Context, d: DealId, t: TransferId): Option<Ledger> {
    if d in s.deals && s.deals[d].repayment.None? && Waiting(s, t, ToDeal(d)) && Owns(s, s.deals[d].src, c.signer) then
      Charged(s, c, true, Processed(s, t).(deals := s.deals[d := s.deals[d].(repayment := Some(t))]))
    else None
  }

  /** A missing record parses as one whose fields are all empty. */
  function AddressOrBlank(s: Ledger, id: AddressId): Address {
    Get(s.addresses, id).GetOr(Address("", "", "", ""))
  }

  /** The order of a collector who offers to take over a running loan. */
  function NewRepayment(s: Ledger, c: Context, d: DealId, address: AddressId, amount: string,
                        expiration: nat): Option<Repayment> {
    var deal :- Get(s.deals, d);
    var src, new_ := AddressOrBlank(s, deal.src), AddressOrBlank(s, address);
    if Amount(amount).Some? && deal.sighash != c.signer && deal.loan.Some? && deal.repayment.None? &&
       src.sighash != c.signer && SameChain(src, new_) && src.value != new_.value
    then Some(Repayment(src.blockchain, address, deal.src, amount, expiration, c.Head(), d, c.signer, "", None))
    else None
  }

  function OnAddRepaymentOrder(s: Ledger, c: Context, d: DealId, address: AddressId, amount: string,
                               expiration: nat): Option<Ledger> {
    var repayment :- NewRepayment(s, c, d, address, amount, expiration);
    Charged(s, c, RepaymentId(c.guid) !in s.repayments,
            s.(repayments := s.repayments[RepaymentId(c.guid) := repayment]))
  }

  function OnCompleteRepaymentOrder(s: Ledger, c: Context, r: RepaymentId): Option<Ledger> {
    var repayment :- Get(s.repayments, r);
    var deal :- Get(s.deals, repayment.deal);
    Charged(s, c, Owns(s, repayment.dst, c.signer) && deal.lock == "",
            s.(repayments := s.repayments[r := repayment.(previousOwner := c.signer)],
               deals := s.deals[repayment.deal := deal.(lock := c.signer)]))
  }

  predicate MayTakeOver(s: Ledger, c: Context, r: RepaymentId, t: TransferId) {
    r in s.repayments && s.repayments[r].sighash == c.signer && Waiting(s, t, ToRepayment(r)) &&
    s.transfers[t].amount == s.repayments[r].amount && s.transfers[t].sighash == c.signer &&
    s.repayments[r].deal in s.deals && Owns(s, s.deals[s.repayments[r].deal].src, s.deals[s.repayments[r].deal].lock)
  }

  /** The collector takes the investor's place and the deal is unlocked. */
  function OnCloseRepaymentOrder(s: Ledger, c: Context, r: RepaymentId, t: TransferId): Option<Ledger> {
    if MayTakeOver(s, c, r, t) then
      var repayment := s.repayments[r];
      Charged(s, c, true,
              Processed(s, t).(repayments := s.repayments[r := repayment.(transfer := Some(t))],
                               deals := s.deals[repayment.deal := s.deals[repayment.deal].(src := repayment.src,
                                   lock := "")]))
    else None
  }

  function OnCollectCoins(s: Ledger, c: Context, amount: nat, tx: string, verified: bool): Option<Ledger> {
    if tx !in s.erc20 && Verified(c, verified) then
      Some(s.(wallets := s.wallets[c.signer := Balance(s.wallets, c.signer) + amount], erc20 := s.erc20[tx := amount]))
    else None
  }
}
