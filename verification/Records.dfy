/** The global state as the processor stores it: one record under each key, the key's prefix telling
    the kind of record. */
module Records {
  import opened Wrappers
  import opened Ledgers

  datatype Key =
    | WalletKey(who: Sighash)
    | AddressKey(address: AddressId)
    | TransferKey(transfer: TransferId)
    | AskKey(ask: AskId)
    | BidKey(bid: BidId)
    | OfferKey(offer: OfferId)
    | DealKey(deal: DealId)
    | RepaymentKey(repayment: RepaymentId)
    | Erc20Key(tx: string)
    | FeeKey(guid: Guid)
    | ProcessedKey

  /** A serialized record; `Blank` is the empty text that marks a deleted one. */
  datatype Record =
    | Blank
    | WalletRecord(coins: nat)
    | AddressRecord(a: Address)
    | TransferRecord(t: Transfer)
    | OrderRecord(o: Order)
    | OfferRecord(f: Offer)
    | DealRecord(d: Deal)
    | RepaymentRecord(r: Repayment)
    | Erc20Record(collected: nat)
    | FeeRecord(fee: Fee)
    | ProcessedRecord(height: nat)

  type State = map<Key, Record>
}
