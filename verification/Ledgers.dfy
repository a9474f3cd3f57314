/** The records of the Creditcoin ledger, one map per address prefix of the global state. */
module Ledgers {
  import opened Wrappers

  const TX_FEE: nat := 10_000_000_000_000_000
  const REWARD_AMOUNT: nat := 222_000_000_000_000_000_000
  const CONFIRMATION_COUNT: nat := 30
  const YEAR_OF_BLOCKS: nat := 60 * 24 * 365
  const BLOCKS_IN_PERIOD: nat := 2_500_000
  const BLOCK_REWARD_PROCESSING_COUNT: nat := 10

  /** The signer's hashed key; the empty text stands for nobody. */
  type Sighash = string
  type Signer = s: string | s != "" witness "signer"
  /** A transaction nonce. */
  type Guid = string

  // Addresses in the global state are hashes of these keys, one prefix per type.
  datatype AddressId = AddressId(key: string)
  datatype TransferId = TransferId(key: string)
  datatype AskId = AskId(guid: Guid)
  datatype BidId = BidId(guid: Guid)
  datatype OfferId = OfferId(ask: AskId, bid: BidId)
  datatype DealId = DealId(offer: OfferId)
  datatype RepaymentId = RepaymentId(guid: Guid)
  datatype OrderRef = ToDeal(deal: DealId) | ToRepayment(repayment: RepaymentId)

  datatype Address = Address(blockchain: string, value: string, network: string, sighash: Sighash)

  /** An ask or a bid. Amount and fee are compared as texts. */
  datatype Order = Order(blockchain: string, address: AddressId, amount: string, interest: nat, maturity: nat,
                         fee: string, expiration: nat, block: nat, sighash: Sighash)

  datatype Offer = Offer(blockchain: string, ask: AskId, bid: BidId, expiration: nat, block: nat, sighash: Sighash)

  datatype Deal = Deal(blockchain: string, src: AddressId, dst: AddressId, amount: string, interest: nat,
                       maturity: nat, fee: nat, expiration: nat, block: nat, sighash: Sighash,
                       loan: Option<TransferId>, repayment: Option<TransferId>, lock: Sighash)

  datatype Repayment = Repayment(blockchain: string, src: AddressId, dst: AddressId, amount: string,
                                 expiration: nat, block: nat, deal: DealId, sighash: Sighash,
                                 previousOwner: Sighash, transfer: Option<TransferId>)

  datatype Transfer = Transfer(blockchain: string, src: AddressId, dst: AddressId, order: OrderRef, amount: string,
                               tx: string, block: nat, processed: bool, sighash: Sighash)

  datatype Fee = Fee(sighash: Sighash, block: nat)

  datatype Ledger = Ledger(wallets: map<Sighash, nat>, addresses: map<AddressId, Address>,
                           transfers: map<TransferId, Transfer>, asks: map<AskId, Order>, bids: map<BidId, Order>,
                           offers: map<OfferId, Offer>, deals: map<DealId, Deal>,
                           repayments: map<RepaymentId, Repayment>, erc20: map<string, nat>,
                           fees: map<Guid, Fee>, processed: nat)

  const EMPTY := Ledger(map[], map[], map[], map[], map[], map[], map[], map[], map[], map[], 0)

  /** Where a command runs: against the live chain, or while old blocks are being replayed. */
  datatype Mode =
    | Live(head: nat, update1: Option<nat>)
    | Replay(tip: nat, signerOf: nat -> Sighash)

  /** One transaction: who signed it, its nonce, and its surroundings. `fraction` gives the
      reward of a period in wei per coin, `fixBlock` the block from which a replayed sweep
      refunds lapsed deals. */
  datatype Context = Context(signer: Signer, guid: Guid, mode: Mode, fixBlock: nat, fraction: nat -> nat) {

    /** The block below the tip. */
    function Head(): nat {
      match mode
      case Live(head, _) => head
      case Replay(tip, _) => tip
    }
  }

  datatype Command =
    | SendFunds(coins: nat, to: Sighash)
    | RegisterAddress(blockchain: string, value: string, network: string)
    | RegisterTransfer(gain: int, order: OrderRef, tx: string, verified: bool)
    | AddAskOrder(address: AddressId, amount: string, interest: nat, maturity: nat, fee: string, expiration: nat)
    | AddBidOrder(address: AddressId, amount: string, interest: nat, maturity: nat, fee: string, expiration: nat)
    | AddOffer(ask: AskId, bid: BidId, expiration: nat)
    | AddDealOrder(offer: OfferId, expiration: nat)
    | CompleteDealOrder(deal: DealId, transfer: TransferId)
    | LockDealOrder(deal: DealId)
    | CloseDealOrder(deal: DealId, transfer: TransferId)
    | Exempt(deal: DealId, transfer: TransferId)
    | AddRepaymentOrder(deal: DealId, address: AddressId, amount: string, expiration: nat)
    | CompleteRepaymentOrder(repayment: RepaymentId)
    | CloseRepaymentOrder(repayment: RepaymentId, transfer: TransferId)
    | CollectCoins(coins: nat, tx: string, verified: bool)
    | Housekeeping(blockIdx: nat, byGateway: bool, reply: Option<seq<Sighash>>)

  function Lower(s: string): string {
    seq(|s|, i requires 0 <= i < |s| => if 'A' <= s[i] <= 'Z' then (s[i] as int + 32) as char else s[i])
  }

  function Get<K, V>(m: map<K, V>, k: K): Option<V> {
    if k in m then Some(m[k]) else None
  }

  function Balance(wallets: map<Sighash, nat>, w: Sighash): nat {
    Get(wallets, w).GetOr(0)
  }
}
