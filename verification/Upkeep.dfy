/** Housekeeping: the sweeps over expired records, the mining rewards, and every command put
    together as one step of the ledger. */
module Upkeep {
  import opened Wrappers
  import opened Ledgers
  import opened Handlers
  import opened MapSums

  // ----- sweeps -----

  predicate Expired(expiration: nat, block: nat, at: nat) {
    expiration < at - block
  }

  predicate Lapsed(deal: Deal, at: nat) {
    Expired(deal.expiration, deal.block, at) && deal.loan.None?
  }

  predicate Stale(r: Repayment, at: nat) {
    Expired(r.expiration, r.block, at) && r.previousOwner == ""
  }

  function LapsedDeals(s: Ledger, at: nat): set<DealId> {
    set d | d in s.deals && Lapsed(s.deals[d], at)
  }

  function OldFees(s: Ledger, at: nat): set<Guid> {
    set g | g in s.fees && Expired(YEAR_OF_BLOCKS, s.fees[g].block, at)
  }

  /** Expired orders, offers and unanswered repayment orders are forgotten. */
  function WithoutStale(s: Ledger, at: nat): Ledger {
    s.(asks := map a | a in s.asks && !Expired(s.asks[a].expiration, s.asks[a].block, at) :: s.asks[a],
       bids := map b | b in s.bids && !Expired(s.bids[b].expiration, s.bids[b].block, at) :: s.bids[b],
       offers := map o | o in s.offers && !Expired(s.offers[o].expiration, s.offers[o].block, at) :: s.offers[o],
       repayments := map r | r in s.repayments && !Stale(s.repayments[r], at) :: s.repayments[r])
  }

  /** A replayed sweep refunds lapsed deals only above `fixBlock`. */
  predicate Refunds(c: Context) {
    c.mode.Live? || c.mode.tip == 0 || c.mode.tip > c.fixBlock
  }

  function OwedBy(deals: map<DealId, Deal>, gone: set<DealId>, w: Sighash): map<DealId, nat> {
    map d | d in gone && d in deals && deals[d].sighash == w :: deals[d].fee
  }

  /** What the given deals owe to one fundraiser. */
  ghost function Owed(deals: map<DealId, Deal>, gone: set<DealId>, w: Sighash): nat {
    Total(OwedBy(deals, gone, w))
  }

  ghost function Refunded(wallets: map<Sighash, nat>, deals: map<DealId, Deal>, gone: set<DealId>): map<Sighash, nat> {
    map w | w in wallets :: wallets[w] + Owed(deals, gone, w)
  }

  /** The ledger after all sweeps. Every fundraiser refunded and every payer of an old fee must
      have a wallet. The payer's wallet is read but its new balance is stored under another key,
      so an old fee is simply forgotten. */
  ghost function Swept(s: Ledger, c: Context, at: nat): Option<Ledger> {
    if (Refunds(c) ==> forall d <- LapsedDeals(s, at) :: s.deals[d].sighash in s.wallets) &&
       (forall g <- OldFees(s, at) :: s.fees[g].sighash in s.wallets)
    then
      Some(WithoutStale(s, at).(wallets := if Refunds(c) then Refunded(s.wallets, s.deals, LapsedDeals(s, at))
                                else s.wallets,
                                deals := s.deals - LapsedDeals(s, at),
                                fees := s.fees - OldFees(s, at)))
    else None
  }

  // ----- rewards -----

  datatype Award = Award(height: int, signer: Sighash, amount: nat)

  /** Whether the declining reward applies, judged by the last processed block. */
  predicate NewFormula(mode: Mode, processed: nat) {
    match mode
    case Live(_, update1) => update1.Some? && update1.value + 500 < processed
    case Replay(tip, _) => (if 278890 <= tip <= 278904 then 277800 else 278910) + 500 < processed
  }

  function Reward(c: Context, processed: nat, height: nat): nat {
    if NewFormula(c.mode, processed) then 28 * c.fraction(height / BLOCKS_IN_PERIOD) else REWARD_AMOUNT
  }

  /** The last height a live reward request asks for. */
  function LastHeight(processed: nat, upto: nat): nat {
    if upto == 0 then processed + BLOCK_REWARD_PROCESSING_COUNT else upto
  }

  /** Awards in the order they are made. Live, the signers come in a reply, lowest block first;
      in replay they are known and run from `upto` downward, so `upto == 0` awards nobody. */
  function Awards(c: Context, processed: nat, upto: nat, reply: Option<seq<Sighash>>): Option<seq<Award>> {
    match c.mode
    case Live(_, _) =>
      var signers :- reply;
      Some(seq(|signers|, k requires 0 <= k < |signers| =>
        Award(processed + 1 + k, signers[k], Reward(c, processed, processed + 1 + k))))
    case Replay(_, signerOf) =>
      Some(seq(if upto > processed then upto - processed else 0, k requires 0 <= k < upto - processed =>
        Award(upto - k, signerOf(upto - k), Reward(c, processed, upto - k))))
  }

  function Awarded(wallets: map<Sighash, nat>, a: Award): map<Sighash, nat> {
    if a.amount > 0 then wallets[a.signer := Balance(wallets, a.signer) + a.amount] else wallets
  }

  function AllAwarded(wallets: map<Sighash, nat>, awards: seq<Award>): map<Sighash, nat> {
    if awards == [] then wallets
    else Awarded(AllAwarded(wallets, awards[..|awards| - 1]), awards[|awards| - 1])
  }

  // ----- the command -----

  /** Block 0 asks for the next batch of rewards once the chain is far enough ahead. */
  predicate BatchDue(s: Ledger, c: Context) {
    s.processed + CONFIRMATION_COUNT * 2 + BLOCK_REWARD_PROCESSING_COUNT < c.Head()
  }

  predicate SweepDue(s: Ledger, c: Context, blockIdx: nat) {
    CONFIRMATION_COUNT * 2 <= blockIdx && s.processed < blockIdx < c.Head() - CONFIRMATION_COUNT
  }

  ghost function OnHousekeeping(s: Ledger, c: Context, blockIdx: nat, byGateway: bool,
                                reply: Option<seq<Sighash>>): Option<Ledger> {
    if blockIdx == 0 then
      if BatchDue(s, c) then
        var awards :- Awards(c, s.processed, 0, reply);
        Some(s.(wallets := AllAwarded(s.wallets, awards), processed := s.processed + BLOCK_REWARD_PROCESSING_COUNT))
      else Some(s)
    else if !Verified(c, byGateway) then None
    else if !SweepDue(s, c, blockIdx) then Some(s)
    else
      var t :- Swept(s, c, blockIdx);
      var awards :- Awards(c, s.processed, blockIdx, reply);
      Some(t.(wallets := AllAwarded(t.wallets, awards), processed := blockIdx))
  }

  // ----- one step, and whole runs -----

  ghost function Step(s: Ledger, c: Context, cmd: Command): Option<Ledger> {
    match cmd
    case SendFunds(coins, to) => OnSendFunds(s, c, coins, to)
    case RegisterAddress(blockchain, value, network) => OnRegisterAddress(s, c, blockchain, value, network)
    case RegisterTransfer(gain, order, tx, verified) => OnRegisterTransfer(s, c, gain, order, tx, verified)
    case AddAskOrder(address, amount, interest, maturity, fee, expiration) =>
      OnAddAskOrder(s, c, address, amount, interest, maturity, fee, expiration)
    case AddBidOrder(address, amount, interest, maturity, fee, expiration) =>
      OnAddBidOrder(s, c, address, amount, interest, maturity, fee, expiration)
    case AddOffer(ask, bid, expiration) => OnAddOffer(s, c, ask, bid, expiration)
    case AddDealOrder(offer, expiration) => OnAddDealOrder(s, c, offer, expiration)
    case CompleteDealOrder(deal, transfer) => OnCompleteDealOrder(s, c, deal, transfer)
    case LockDealOrder(deal) => OnLockDealOrder(s, c, deal)
    case CloseDealOrder(deal, transfer) => OnCloseDealOrder(s, c, deal, transfer)
    case Exempt(deal, transfer) => OnExempt(s, c, deal, transfer)
    case AddRepaymentOrder(deal, address, amount, expiration) =>
      OnAddRepaymentOrder(s, c, deal, address, amount, expiration)
    case CompleteRepaymentOrder(repayment) => OnCompleteRepaymentOrder(s, c, repayment)
    case CloseRepaymentOrder(repayment, transfer) => OnCloseRepaymentOrder(s, c, repayment, transfer)
    case CollectCoins(coins, tx, verified) => OnCollectCoins(s, c, coins, tx, verified)
    case Housekeeping(blockIdx, byGateway, reply) => OnHousekeeping(s, c, blockIdx, byGateway, reply)
  }

  datatype Tx = Tx(c: Context, cmd: Command)

  /** A rejected command leaves the ledger as it was. */
  ghost function Next(s: Ledger, tx: Tx): Ledger {
    Step(s, tx.c, tx.cmd).GetOr(s)
  }

  ghost function Run(s: Ledger, txs: seq<Tx>): Ledger {
    if txs == [] then s else Next(Run(s, txs[..|txs| - 1]), txs[|txs| - 1])
  }
}
