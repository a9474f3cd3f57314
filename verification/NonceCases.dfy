/** One run from the empty ledger that uses the nonce of a bid again, and one that sweeps a deal
    without refunding its fee. */
module NonceCases {
  import opened Wrappers
  import opened Ledgers
  import opened Handlers
  import opened Upkeep
  import opened Numerals
  import opened MapSums
  import opened Conservation
  import opened Losses
  import opened Trades
  import opened Chains
  import opened LossCases

  const INVESTOR: Signer := "i"
  const FUNDRAISER: Signer := "f"

  /** A transaction in the replay of the block above `tip`; sweeps refund deals above block 1000. */
  function From(signer: Signer, guid: Guid, tip: nat, cmd: Command): Tx {
    Tx(Context(signer, guid, Replay(tip, MINER), 1000, NO_FRACTION), cmd)
  }

  function Nonce(k: nat): Guid
    requires k < 26
  {
    [('a' as int + k) as char]
  }

  const HOME: AddressId := AddressKey("c", "a", "n")
  const NEAR: AddressId := AddressKey("c", "b", "n")
  const FAR: AddressId := AddressKey("d", "b", "n")

  const ASK: AskId := AskId(Nonce(5))
  const OTHER: AskId := AskId(Nonce(6))
  const BID: BidId := BidId(Nonce(7))
  const FIRST: OfferId := OfferId(ASK, BID)
  const SECOND: OfferId := OfferId(OTHER, BID)

  /** Two asks are offered against one bid, and the first offer becomes a deal, which uses up the bid.
      Then a bid is added under the same nonce, for another amount, without a maturity and on another
      chain, and the second offer becomes a deal too. */
  function TxAt(k: nat): Tx
    requires k < 13
  {
    From(if k in {1, 3, 4, 7, 10, 11, 12} then FUNDRAISER
         else INVESTOR, Nonce(if k == 11 then 7 else k), 1, CommandAt(k))
  }

  function CommandAt(k: nat): Command {
    match k
    case 0 => CollectCoins(20 * TX_FEE, "d", true)
    case 1 => CollectCoins(20 * TX_FEE, "g", true)
    case 2 => RegisterAddress("c", "a", "n")
    case 3 => RegisterAddress("c", "b", "n")
    case 4 => RegisterAddress("d", "b", "n")
    case 5 => AddAskOrder(HOME, "1", 0, 1, "1", 10)
    case 6 => AddAskOrder(HOME, "1", 0, 1, "1", 10)
    case 7 => AddBidOrder(NEAR, "1", 0, 1, "1", 10)
    case 8 => AddOffer(ASK, BID, 10)
    case 9 => AddOffer(OTHER, BID, 10)
    case 10 => AddDealOrder(FIRST, 10)
    case 11 => AddBidOrder(FAR, "", 0, 0, "1", 10)
    case _ => AddDealOrder(SECOND, 10)
  }

  function First(n: nat): (txs: seq<Tx>)
    requires n <= 13
    ensures |txs| == n
  {
    seq(n, k requires 0 <= k < 13 => TxAt(k))
  }

  ghost function After(n: nat): Ledger
    requires n <= 13
  {
    Run(EMPTY, First(n))
  }

  lemma OneMoreStep(n: nat)
    requires n < 13
    ensures First(n + 1) == First(n) + [TxAt(n)]
    ensures After(n + 1) == Next(After(n), TxAt(n))
    ensures DealsIn(EMPTY, First(n + 1)) == DealsIn(EMPTY, First(n)) + DealMade(After(n), TxAt(n))
  {
    assert First(n + 1)[..n] == First(n);
  }

  // ----- what the ledger shows -----

  datatype Books = Books(addresses: map<AddressId, Address>, asks: map<AskId, Order>, bids: map<BidId, Order>,
                         offers: map<OfferId, Offer>, deals: map<DealId, Deal>)

  predicate Has(wallets: map<Sighash, nat>, who: Sighash, coins: nat) {
    who in wallets && wallets[who] >= coins
  }

  predicate Affords(wallets: map<Sighash, nat>, coins: nat) {
    Has(wallets, INVESTOR, coins) && Has(wallets, FUNDRAISER, coins)
  }

  predicate Young(fees: map<Guid, Fee>) {
    forall g <- fees :: fees[g].block == 1
  }

  /** Both parties have that many coins, and the books are as given. */
  predicate Shows(l: Ledger, coins: nat, b: Books) {
    Books(l.addresses, l.asks, l.bids, l.offers, l.deals) == b && Affords(l.wallets, coins) && Young(l.fees) &&
    l.processed == 0
  }

  predicate Party(c: Context) {
    (c.signer == INVESTOR || c.signer == FUNDRAISER) && c.mode.Replay? && c.mode.tip == 1
  }

  lemma HasAfter(l: Ledger, c: Context, who: Sighash, coins: nat)
    requires Has(l.wallets, c.signer, coins + TX_FEE) && Has(l.wallets, who, coins + TX_FEE)
    ensures CanPay(l, c) && Has(Paid(l, c).wallets, who, coins)
  {
  }

  lemma YoungAfter(l: Ledger, c: Context)
    requires Party(c) && CanPay(l, c) && Young(l.fees)
    ensures Young(Paid(l, c).fees)
  {
  }

  lemma PaidShows(l: Ledger, c: Context, coins: nat)
    requires Party(c) && Affords(l.wallets, coins + TX_FEE) && Young(l.fees)
    ensures CanPay(l, c) && Affords(Paid(l, c).wallets, coins) && Young(Paid(l, c).fees)
  {
    HasAfter(l, c, INVESTOR, coins);
    HasAfter(l, c, FUNDRAISER, coins);
    YoungAfter(l, c);
  }

  lemma RegisterShows(l: Ledger, c: Context, chain: string, value: string, network: string, coins: nat, b: Books)
    requires Party(c) && Shows(l, coins + TX_FEE, b) && AddressKey(chain, value, network) !in b.addresses
    ensures var u := OnRegisterAddress(l, c, chain, value, network);
            var a := Address(chain, value, network, c.signer);
            u.Some? && Shows(u.value, coins, b.(addresses := b.addresses[AddressKey(chain, value, network) := a]))
  {
    var a := Address(chain, value, network, c.signer);
    PaidShows(l.(addresses := l.addresses[AddressKey(chain, value, network) := a]), c, coins);
  }

  function Terms(address: AddressId, chain: string, amount: string, maturity: nat, signer: Sighash): Order {
    Order(chain, address, amount, 0, maturity, "1", 10, 1, signer)
  }

  lemma AskShows(l: Ledger, c: Context, coins: nat, b: Books)
    requires Party(c) && Shows(l, coins + TX_FEE, b) && AskId(c.guid) !in b.asks
    requires HOME in b.addresses && b.addresses[HOME] == Address("c", "a", "n", c.signer)
    ensures var u := OnAddAskOrder(l, c, HOME, "1", 0, 1, "1", 10);
            u.Some? && Shows(u.value, coins, b.(asks := b.asks[AskId(c.guid) := Terms(HOME, "c", "1", 1, c.signer)]))
  {
    OneIsOne();
    PaidShows(l.(asks := l.asks[AskId(c.guid) := Terms(HOME, "c", "1", 1, c.signer)]), c, coins);
  }

  lemma BidShows(l: Ledger, c: Context, address: AddressId, chain: string, amount: string, maturity: nat, coins: nat,
                 b: Books)
    requires Party(c) && Shows(l, coins + TX_FEE, b) && BidId(c.guid) !in b.bids && Amount(amount).Some?
    requires address in b.addresses && b.addresses[address] == Address(chain, "b", "n", c.signer)
    ensures var u := OnAddBidOrder(l, c, address, amount, 0, maturity, "1", 10);
            u.Some? && Shows(u.value, coins,
                             b.(bids := b.bids[BidId(c.guid) := Terms(address, chain, amount, maturity, c.signer)]))
  {
    OneIsOne();
    PaidShows(l.(bids := l.bids[BidId(c.guid) := Terms(address, chain, amount, maturity, c.signer)]), c, coins);
  }

  lemma OneIsOne()
    ensures Amount("1") == Some(1) && Amount("") == Some(0) && !TextLess("1", "1")
  {
    assert "1"[..0] == "" && ParseDigits("", 10) == Some(0);
    assert ParseDigits("1", 10) == Some(1);
  }

  lemma OfferShows(l: Ledger, c: Context, ask: AskId, coins: nat, b: Books)
    requires Party(c) && c.signer == INVESTOR && Shows(l, coins + TX_FEE, b) && OfferId(ask, BID) !in b.offers
    requires ask in b.asks && b.asks[ask] == Terms(HOME, "c", "1", 1, INVESTOR)
    requires BID in b.bids && b.bids[BID] == Terms(NEAR, "c", "1", 1, FUNDRAISER)
    requires HOME in b.addresses && b.addresses[HOME] == Address("c", "a", "n", INVESTOR)
    requires NEAR in b.addresses && b.addresses[NEAR] == Address("c", "b", "n", FUNDRAISER)
    ensures var u := OnAddOffer(l, c, ask, BID, 10);
            u.Some? && Shows(u.value, coins,
                             b.(offers := b.offers[OfferId(ask, BID) := Offer("c", ask, BID, 10, 1, INVESTOR)]))
  {
    OneIsOne();
    PaidShows(l.(offers := l.offers[OfferId(ask, BID) := Offer("c", ask, BID, 10, 1, INVESTOR)]), c, coins);
  }

  function DealFrom(bid: Order): Deal {
    Deal("c", HOME, bid.address, bid.amount, 0, bid.maturity, 1, 10, 1, FUNDRAISER, None, None, "")
  }

  function Dealt(b: Books, ask: AskId, bid: Order): Books {
    var o := OfferId(ask, BID);
    Books(b.addresses, b.asks - {ask}, b.bids - {BID}, b.offers - {o}, b.deals[DealId(o) := DealFrom(bid)])
  }

  lemma DealShows(l: Ledger, c: Context, ask: AskId, bid: Order, coins: nat, b: Books)
    requires Party(c) && c.signer == FUNDRAISER && Shows(l, coins + TX_FEE + 1, b) &&
             DealId(OfferId(ask, BID)) !in b.deals
    requires OfferId(ask, BID) in b.offers && b.offers[OfferId(ask, BID)] == Offer("c", ask, BID, 10, 1, INVESTOR)
    requires ask in b.asks && b.asks[ask] == Terms(HOME, "c", "1", 1, INVESTOR)
    requires BID in b.bids && b.bids[BID] == bid && bid.fee == "1" && bid.interest == 0 && bid.sighash == FUNDRAISER
    ensures var u := OnAddDealOrder(l, c, OfferId(ask, BID), 10); u.Some? && Shows(u.value, coins, Dealt(b, ask, bid))
  {
    OneIsOne();
    var o := OfferId(ask, BID);
    assert NewDeal(l, c, o, 10) == Some(DealFrom(bid));
    PaidShows(l.(wallets := l.wallets[FUNDRAISER := l.wallets[FUNDRAISER] - 1]), c, coins);
  }

  lemma RegisterNext(l: Ledger, tx: Tx, coins: nat, b: Books)
    requires Party(tx.c) && Shows(l, coins + TX_FEE, b) && tx.cmd.RegisterAddress?
    requires AddressKey(tx.cmd.blockchain, tx.cmd.value, tx.cmd.network) !in b.addresses
    ensures var id, a := AddressKey(tx.cmd.blockchain, tx.cmd.value, tx.cmd.network),
                         Address(tx.cmd.blockchain, tx.cmd.value, tx.cmd.network, tx.c.signer);
            Shows(Next(l, tx), coins, b.(addresses := b.addresses[id := a]))
  {
    RegisterShows(l, tx.c, tx.cmd.blockchain, tx.cmd.value, tx.cmd.network, coins, b);
  }

  lemma AskNext(l: Ledger, tx: Tx, coins: nat, b: Books)
    requires Party(tx.c) && Shows(l, coins + TX_FEE, b) && tx.cmd == AddAskOrder(HOME, "1", 0, 1, "1", 10)
    requires AskId(tx.c.guid) !in b.asks && HOME in b.addresses &&
             b.addresses[HOME] == Address("c", "a", "n", tx.c.signer)
    ensures Shows(Next(l, tx), coins, b.(asks := b.asks[AskId(tx.c.guid) := Terms(HOME, "c", "1", 1, tx.c.signer)]))
  {
    AskShows(l, tx.c, coins, b);
  }

  lemma BidNext(l: Ledger, tx: Tx, chain: string, coins: nat, b: Books)
    requires Party(tx.c) && Shows(l, coins + TX_FEE, b)
    requires tx.cmd.AddBidOrder? && tx.cmd == AddBidOrder(tx.cmd.address, tx.cmd.amount, 0, tx.cmd.maturity, "1", 10)
    requires BidId(tx.c.guid) !in b.bids && Amount(tx.cmd.amount).Some?
    requires tx.cmd.address in b.addresses && b.addresses[tx.cmd.address] == Address(chain, "b", "n", tx.c.signer)
    ensures Shows(Next(l, tx), coins,
                  b.(bids := b.bids[BidId(tx.c.guid) := Terms(tx.cmd.address, chain, tx.cmd.amount, tx.cmd.maturity,
                                                              tx.c.signer)]))
  {
    BidShows(l, tx.c, tx.cmd.address, chain, tx.cmd.amount, tx.cmd.maturity, coins, b);
  }

  lemma OfferNext(l: Ledger, tx: Tx, ask: AskId, coins: nat, b: Books)
    requires Party(tx.c) && tx.c.signer == INVESTOR && Shows(l, coins + TX_FEE, b) && tx.cmd == AddOffer(ask, BID, 10)
    requires OfferId(ask, BID) !in b.offers && ask in b.asks && b.asks[ask] == Terms(HOME, "c", "1", 1, INVESTOR)
    requires BID in b.bids && b.bids[BID] == Terms(NEAR, "c", "1", 1, FUNDRAISER)
    requires HOME in b.addresses && b.addresses[HOME] == Address("c", "a", "n", INVESTOR)
    requires NEAR in b.addresses && b.addresses[NEAR] == Address("c", "b", "n", FUNDRAISER)
    ensures Shows(Next(l, tx), coins,
                  b.(offers := b.offers[OfferId(ask, BID) := Offer("c", ask, BID, 10, 1, INVESTOR)]))
  {
    OfferShows(l, tx.c, ask, coins, b);
  }

  lemma DealNext(l: Ledger, tx: Tx, ask: AskId, bid: Order, coins: nat, b: Books)
    requires Party(tx.c) && tx.c.signer == FUNDRAISER && Shows(l, coins + TX_FEE + 1, b)
    requires tx.cmd == AddDealOrder(OfferId(ask, BID), 10) && DealId(OfferId(ask, BID)) !in b.deals
    requires OfferId(ask, BID) in b.offers && b.offers[OfferId(ask, BID)] == Offer("c", ask, BID, 10, 1, INVESTOR)
    requires ask in b.asks && b.asks[ask] == Terms(HOME, "c", "1", 1, INVESTOR)
    requires BID in b.bids && b.bids[BID] == bid && bid.fee == "1" && bid.interest == 0 && bid.sighash == FUNDRAISER
    ensures Shows(Next(l, tx), coins, Dealt(b, ask, bid)) && DealMade(l, tx) == [DealId(OfferId(ask, BID))]
  {
    DealShows(l, tx.c, ask, bid, coins, b);
  }

  // ----- the run -----

  lemma KeysDiffer()
    ensures HOME != NEAR && HOME != FAR && NEAR != FAR
  {
    assert HOME.key[1] == 'a' && NEAR.key[1] == 'b' && FAR.key[1] == 'b';
    assert HOME.key[0] == 'c' && NEAR.key[0] == 'c' && FAR.key[0] == 'd';
  }

  const GOOD: Order := Terms(NEAR, "c", "1", 1, FUNDRAISER)
  const BAD: Order := Terms(FAR, "d", "", 0, FUNDRAISER)

  const NONE: Books := Books(map[], map[], map[], map[], map[])
  const ONE_ADDRESS: Books := NONE.(addresses := NONE.addresses[HOME := Address("c", "a", "n", INVESTOR)])
  const TWO_ADDRESSES: Books := ONE_ADDRESS.(addresses := ONE_ADDRESS.addresses[NEAR := Address("c", "b", "n",
      FUNDRAISER)])
  const REGISTERED: Books := TWO_ADDRESSES.(addresses := TWO_ADDRESSES.addresses[FAR := Address("d", "b", "n",
      FUNDRAISER)])
  const ONE_ASK: Books := REGISTERED.(asks := REGISTERED.asks[ASK := Terms(HOME, "c", "1", 1, INVESTOR)])
  const TWO_ASKS: Books := ONE_ASK.(asks := ONE_ASK.asks[OTHER := Terms(HOME, "c", "1", 1, INVESTOR)])
  const ORDERED: Books := TWO_ASKS.(bids := TWO_ASKS.bids[BID := GOOD])
  const ONE_OFFER: Books := ORDERED.(offers := ORDERED.offers[FIRST := Offer("c", ASK, BID, 10, 1, INVESTOR)])
  const OFFERED: Books := ONE_OFFER.(offers := ONE_OFFER.offers[SECOND := Offer("c", OTHER, BID, 10, 1, INVESTOR)])
  const DEALT: Books := Dealt(OFFERED, ASK, GOOD)
  const AGAIN: Books := DEALT.(bids := DEALT.bids[BID := BAD])
  const DEALT_AGAIN: Books := Dealt(AGAIN, OTHER, BAD)

  lemma Collected()
    ensures Shows(After(2), 20 * TX_FEE, NONE)
  {
    assert First(0) == [];
    OneMoreStep(0);
    OneMoreStep(1);
    assert After(1).wallets == map[INVESTOR := 20 * TX_FEE] && After(1).erc20 == map["d" := 20 * TX_FEE];
  }

  lemma Step2(l: Ledger)
    requires Shows(l, 20 * TX_FEE, NONE)
    ensures Shows(Next(l, TxAt(2)), 19 * TX_FEE, ONE_ADDRESS)
  {
    KeysDiffer();
    RegisterNext(l, TxAt(2), 19 * TX_FEE, NONE);
  }

  lemma Step3(l: Ledger)
    requires Shows(l, 19 * TX_FEE, ONE_ADDRESS)
    ensures Shows(Next(l, TxAt(3)), 18 * TX_FEE, TWO_ADDRESSES)
  {
    KeysDiffer();
    RegisterNext(l, TxAt(3), 18 * TX_FEE, ONE_ADDRESS);
  }

  lemma Step4(l: Ledger)
    requires Shows(l, 18 * TX_FEE, TWO_ADDRESSES)
    ensures Shows(Next(l, TxAt(4)), 17 * TX_FEE, REGISTERED)
  {
    KeysDiffer();
    RegisterNext(l, TxAt(4), 17 * TX_FEE, TWO_ADDRESSES);
  }

  lemma Step5(l: Ledger)
    requires Shows(l, 17 * TX_FEE, REGISTERED)
    ensures Shows(Next(l, TxAt(5)), 16 * TX_FEE, ONE_ASK)
  {
    KeysDiffer();
    AskNext(l, TxAt(5), 16 * TX_FEE, REGISTERED);
  }

  lemma Step6(l: Ledger)
    requires Shows(l, 16 * TX_FEE, ONE_ASK)
    ensures Shows(Next(l, TxAt(6)), 15 * TX_FEE, TWO_ASKS)
  {
    KeysDiffer();
    AskNext(l, TxAt(6), 15 * TX_FEE, ONE_ASK);
  }

  lemma Step7(l: Ledger)
    requires Shows(l, 15 * TX_FEE, TWO_ASKS)
    ensures Shows(Next(l, TxAt(7)), 14 * TX_FEE, ORDERED)
  {
    KeysDiffer();
    OneIsOne();
    BidNext(l, TxAt(7), "c", 14 * TX_FEE, TWO_ASKS);
  }

  lemma Step8(l: Ledger)
    requires Shows(l, 14 * TX_FEE, ORDERED)
    ensures Shows(Next(l, TxAt(8)), 13 * TX_FEE, ONE_OFFER)
  {
    KeysDiffer();
    OfferNext(l, TxAt(8), ASK, 13 * TX_FEE, ORDERED);
  }

  lemma Step9(l: Ledger)
    requires Shows(l, 13 * TX_FEE, ONE_OFFER)
    ensures Shows(Next(l, TxAt(9)), 12 * TX_FEE, OFFERED)
  {
    KeysDiffer();
    OfferNext(l, TxAt(9), OTHER, 12 * TX_FEE, ONE_OFFER);
  }

  lemma Step10(l: Ledger)
    requires Shows(l, 12 * TX_FEE, OFFERED)
    ensures Shows(Next(l, TxAt(10)), 10 * TX_FEE, DEALT)
    ensures DealMade(l, TxAt(10)) == [DealId(FIRST)]
  {
    KeysDiffer();
    DealNext(l, TxAt(10), ASK, GOOD, 10 * TX_FEE, OFFERED);
  }

  lemma Step11(l: Ledger)
    requires Shows(l, 10 * TX_FEE, DEALT)
    ensures Shows(Next(l, TxAt(11)), 9 * TX_FEE, AGAIN)
  {
    KeysDiffer();
    OneIsOne();
    BidNext(l, TxAt(11), "d", 9 * TX_FEE, DEALT);
  }

  lemma AgainBooks()
    ensures AGAIN.offers == map[SECOND := Offer("c", OTHER, BID, 10, 1, INVESTOR)] && AGAIN.bids == map[BID := BAD]
    ensures AGAIN.asks == map[OTHER := Terms(HOME, "c", "1", 1, INVESTOR)] &&
            AGAIN.deals == map[DealId(FIRST) := DealFrom(GOOD)]
  {
    assert ASK != OTHER;
  }

  lemma Step12(l: Ledger)
    requires Shows(l, 9 * TX_FEE, AGAIN)
    ensures Shows(Next(l, TxAt(12)), 7 * TX_FEE, DEALT_AGAIN)
    ensures DealMade(l, TxAt(12)) == [DealId(SECOND)]
  {
    AgainBooks();
    SecondDealNext(l, TxAt(12), AGAIN);
  }

  lemma SecondDealNext(l: Ledger, tx: Tx, b: Books)
    requires Shows(l, 9 * TX_FEE, b) && Party(tx.c) && tx.c.signer == FUNDRAISER && tx.cmd == AddDealOrder(SECOND, 10)
    requires b.offers == map[SECOND := Offer("c", OTHER, BID, 10, 1, INVESTOR)] && b.bids == map[BID := BAD]
    requires b.asks == map[OTHER := Terms(HOME, "c", "1", 1, INVESTOR)] &&
             b.deals == map[DealId(FIRST) := DealFrom(GOOD)]
    ensures Shows(Next(l, tx), 7 * TX_FEE, Dealt(b, OTHER, BAD)) && DealMade(l, tx) == [DealId(SECOND)]
  {
    assert ASK != OTHER;
    DealNext(l, tx, OTHER, BAD, 7 * TX_FEE, b);
  }

  lemma ToAddresses()
    ensures Shows(After(5), 17 * TX_FEE, REGISTERED)
  {
    Collected();
    OneMoreStep(2);
    Step2(After(2));
    OneMoreStep(3);
    Step3(After(3));
    OneMoreStep(4);
    Step4(After(4));
  }

  lemma ToOrders()
    ensures Shows(After(8), 14 * TX_FEE, ORDERED)
  {
    ToAddresses();
    OneMoreStep(5);
    Step5(After(5));
    OneMoreStep(6);
    Step6(After(6));
    OneMoreStep(7);
    Step7(After(7));
  }

  lemma ToOffers()
    ensures Shows(After(10), 12 * TX_FEE, OFFERED)
  {
    ToOrders();
    OneMoreStep(8);
    Step8(After(8));
    OneMoreStep(9);
    Step9(After(9));
  }

  lemma ToDeal()
    ensures Shows(After(11), 10 * TX_FEE, DEALT) && DealMade(After(10), TxAt(10)) == [DealId(FIRST)]
  {
    ToOffers();
    OneMoreStep(10);
    Step10(After(10));
  }

  lemma ToBid()
    ensures Shows(After(12), 9 * TX_FEE, AGAIN)
  {
    ToDeal();
    OneMoreStep(11);
    Step11(After(11));
  }

  lemma ToSecondDeal()
    ensures Shows(After(13), 7 * TX_FEE, DEALT_AGAIN) && DealMade(After(12), TxAt(12)) == [DealId(SECOND)]
  {
    ToBid();
    OneMoreStep(12);
    Step12(After(12));
  }

  lemma {:induction false} NoDealsYet(n: nat)
    requires n <= 10
    ensures DealsIn(EMPTY, First(n)) == []
  {
    if n > 0 {
      OneMoreStep(n - 1);
      NoDealsYet(n - 1);
    }
  }

  lemma OneMoreDeal(n: nat, before: seq<DealId>, made: seq<DealId>)
    requires n < 13 && DealsIn(EMPTY, First(n)) == before && DealMade(After(n), TxAt(n)) == made
    ensures DealsIn(EMPTY, First(n + 1)) == before + made
  {
    OneMoreStep(n);
  }

  lemma NoDealByBid()
    ensures DealMade(After(11), TxAt(11)) == []
  {
    assert TxAt(11).cmd.AddBidOrder?;
  }

  lemma FirstDealOnly()
    ensures DealsIn(EMPTY, First(12)) == [DealId(FIRST)]
  {
    NoDealsYet(10);
    ToDeal();
    OneMoreDeal(10, [], [DealId(FIRST)]);
    NoDealByBid();
    OneMoreDeal(11, [DealId(FIRST)], []);
  }

  lemma SecondDealMade()
    ensures DealMade(After(12), TxAt(12)) == [DealId(SECOND)]
  {
    ToSecondDeal();
  }

  lemma BothDeals()
    ensures DealsIn(EMPTY, First(13)) == [DealId(FIRST), DealId(SECOND)]
  {
    FirstDealOnly();
    SecondDealMade();
    OneMoreDeal(12, [DealId(FIRST)], [DealId(SECOND)]);
  }

  lemma SecondDealBroken(s: Ledger, u: Ledger, b: Books)
    requires Shows(s, 9 * TX_FEE, b) && Shows(u, 7 * TX_FEE, Dealt(b, OTHER, BAD))
    requires b.offers == map[SECOND := Offer("c", OTHER, BID, 10, 1, INVESTOR)] && b.bids == map[BID := BAD]
    requires b.asks == map[OTHER := Terms(HOME, "c", "1", 1, INVESTOR)]
    requires HOME in b.addresses && FAR in b.addresses
    requires b.addresses[HOME].blockchain != b.addresses[FAR].blockchain
    ensures !Sound(s) && OTHER in s.asks && DealId(SECOND) in u.deals
    ensures var deal := u.deals[DealId(SECOND)];
            deal.amount != s.asks[OTHER].amount && !Mature(u) && !DealChained(u, deal)
  {
    assert u.deals[DealId(SECOND)] == DealFrom(BAD);
    assert SECOND in s.offers && !OfferSound(s, SECOND);
  }

  lemma TwoChains()
    ensures var a := AGAIN.addresses; HOME in a && FAR in a && a[HOME].blockchain == "c" && a[FAR].blockchain == "d"
  {
    KeysDiffer();
  }

  /** Only one nonce is used again, and one bid goes into two deals; the second deal has not its ask's
      amount, no maturity, and addresses on two chains, and its offer did not refer to its orders. */
  lemma ReusedNonceBreaks()
    ensures FreshNonces(First(11)) && TxAt(11).c.guid == TxAt(7).c.guid
    ensures !OrdersDistinct(DealsIn(EMPTY, First(13))) && !Sound(After(12))
    ensures var s, u, d := After(12), After(13), DealId(SECOND);
            OTHER in s.asks && d in u.deals && u.deals[d].amount != s.asks[OTHER].amount && !Mature(u) &&
            !DealChained(u, u.deals[d])
  {
    BothDeals();
    PrefixFresh(11);
    ToBid();
    ToSecondDeal();
    AgainBooks();
    TwoChains();
    SecondDealBroken(After(12), After(13), AGAIN);
    var made := DealsIn(EMPTY, First(13));
    assert made[0].offer.bid == made[1].offer.bid;
  }

  // ----- a deal is swept -----

  const AT: nat := 100
  const SWEEP_DEAL: Tx := From(INVESTOR, Nonce(13), 200, Housekeeping(AT, true, None))

  lemma PrefixFresh(n: nat)
    requires n <= 11
    ensures FreshNonces(First(n))
  {
    forall i, j | 0 <= i < j < n
      ensures First(n)[i].c.guid != First(n)[j].c.guid
    {
      assert Nonce(i)[0] != Nonce(j)[0];
    }
  }

  lemma PrefixSpotless(n: nat)
    requires n <= 11
    ensures AllSpotless(First(n))
  {
    forall i | 0 <= i < n
      ensures SpotlessAt(First(n), i)
    {
      OneMoreStep(i);
      PrefixFresh(i + 1);
      assert First(n)[..i] == First(i);
      FreshNoncesSpotless(First(i), TxAt(i));
    }
  }

  /** Below the fix block a replayed sweep forgets a lapsed deal and does not refund its fee. */
  lemma DealSweepLoses()
    ensures var txs := First(11) + [SWEEP_DEAL];
            Supply(Run(EMPTY, txs)) + 1 == MintedIn(EMPTY, txs) && !AllSpotless(txs)
  {
    PrefixSpotless(11);
    RunLosesNothing(First(11));
    ToDeal();
    DealtBooks();
    SweepForgetsDeal(After(11));
    RunMore(First(11), SWEEP_DEAL);
    RunConserves(EMPTY, First(11) + [SWEEP_DEAL]);
    EmptySupply();
    SolventExactly(First(11) + [SWEEP_DEAL]);
  }

  lemma DealtBooks()
    ensures DEALT.deals == map[DealId(FIRST) := DealFrom(GOOD)]
  {
  }

  lemma SweepForgetsDeal(l: Ledger)
    requires l.deals == map[DealId(FIRST) := DealFrom(GOOD)] && Young(l.fees) && l.processed == 0
    ensures Lost(l, SWEEP_DEAL.c, SWEEP_DEAL.cmd) == 1
  {
    var c, d := SWEEP_DEAL.c, DealId(FIRST);
    assert LapsedDeals(l, AT) == {d} && OldFees(l, AT) == {};
    SweepLoss(l, c, AT);
    HeldByOne(l.deals, d);
  }

  lemma HeldByOne(deals: map<DealId, Deal>, d: DealId)
    requires deals == map[d := DealFrom(GOOD)]
    ensures Total(Holdings(Part(deals, {d}))) == 1
  {
    var none: map<DealId, nat> := map[];
    assert Holdings(Part(deals, {d})) == none[d := 1];
    TotalUpdate(none, d, 1);
  }
}
