/** On what terms a command is accepted and what it leaves, said of the records themselves: in numbers,
    positions and dates instead of the handlers' own tests. */
module Terms {
  import opened Wrappers
  import opened Ledgers
  import opened Handlers
  import opened Upkeep
  import opened Numerals
  import opened Interest
  import opened Conservation
  import opened Frames

  /** The signer has the transaction fee of a hundredth of a coin. */
  ghost predicate Funds(s: Ledger, c: Context) {
    c.signer in s.wallets && s.wallets[c.signer] >= 10_000_000_000_000_000
  }

  /** Apart from coins and fees, `u` is `t`. */
  ghost predicate Leaves(u: Option<Ledger>, t: Ledger) {
    u.Some? ==> u.value == t.(wallets := u.value.wallets, fees := u.value.fees)
  }

  // ----- coins -----

  /** What a command moves into an account, besides the transaction fee. */
  function Moved(s: Ledger, c: Context, cmd: Command, w: Sighash): int {
    match cmd
    case SendFunds(coins, to) => (if w == to then coins else 0) - (if w == c.signer then coins else 0)
    case CollectCoins(coins, _, _) => if w == c.signer then coins else 0
    case AddDealOrder(o, _) =>
      var fee: int := if o in s.offers && s.offers[o].bid in s.bids then Amount(s.bids[s.offers[o].bid].fee).GetOr(0)
          else 0;
      if w == c.signer then -fee else 0
    case CompleteDealOrder(d, _) => if w == c.signer && d in s.deals then s.deals[d].fee else 0
    case _ => 0
  }

  /** Every account after an accepted command: nobody else's changes. */
  lemma BalanceExactly(s: Ledger, c: Context, cmd: Command, w: Sighash)
    requires !cmd.Housekeeping? && Step(s, c, cmd).Some?
    ensures Balance(Step(s, c, cmd).value.wallets, w) ==
            Balance(s.wallets, w) + Moved(s, c, cmd, w) -
            if w == c.signer && !cmd.CollectCoins? then 10_000_000_000_000_000 else 0
  {
    match cmd
    case SendFunds(coins, to) => SendBalance(s, c, coins, to, w);
    case CollectCoins(coins, tx, verified) => CollectBalance(s, c, coins, tx, verified, w);
    case AddDealOrder(o, expiration) => DealBalance(s, c, o, expiration, w);
    case CompleteDealOrder(d, t) => CompleteBalance(s, c, d, t, w);
    case _ => FeeBalance(s, c, cmd, w);
  }

  lemma SendBalance(s: Ledger, c: Context, coins: nat, to: Sighash, w: Sighash)
    requires OnSendFunds(s, c, coins, to).Some?
    ensures Balance(OnSendFunds(s, c, coins, to).value.wallets, w) ==
            Balance(s.wallets, w) + Moved(s, c, SendFunds(coins, to), w) - if w == c.signer then TX_FEE else 0
  {
  }

  lemma CollectBalance(s: Ledger, c: Context, coins: nat, tx: string, verified: bool, w: Sighash)
    requires OnCollectCoins(s, c, coins, tx, verified).Some?
    ensures Balance(OnCollectCoins(s, c, coins, tx, verified).value.wallets, w) ==
            Balance(s.wallets, w) + Moved(s, c, CollectCoins(coins, tx, verified), w)
  {
  }

  lemma DealBalance(s: Ledger, c: Context, o: OfferId, expiration: nat, w: Sighash)
    requires OnAddDealOrder(s, c, o, expiration).Some?
    ensures Balance(OnAddDealOrder(s, c, o, expiration).value.wallets, w) ==
            Balance(s.wallets, w) + Moved(s, c, AddDealOrder(o, expiration), w) - if w == c.signer then TX_FEE else 0
  {
  }

  lemma CompleteBalance(s: Ledger, c: Context, d: DealId, t: TransferId, w: Sighash)
    requires OnCompleteDealOrder(s, c, d, t).Some?
    ensures Balance(OnCompleteDealOrder(s, c, d, t).value.wallets, w) ==
            Balance(s.wallets, w) + Moved(s, c, CompleteDealOrder(d, t), w) - if w == c.signer then TX_FEE else 0
  {
  }

  /** All other commands cost the fee and nothing else. */
  lemma FeeBalance(s: Ledger, c: Context, cmd: Command, w: Sighash)
    requires !cmd.Housekeeping? && !cmd.SendFunds? && !cmd.CollectCoins? && !cmd.AddDealOrder? &&
             !cmd.CompleteDealOrder?
    requires Step(s, c, cmd).Some?
    ensures Balance(Step(s, c, cmd).value.wallets, w) == Balance(s.wallets, w) - if w == c.signer then TX_FEE else 0
  {
    if cmd.RegisterAddress? || cmd.RegisterTransfer? || cmd.AddAskOrder? || cmd.AddBidOrder? || cmd.AddOffer? ||
       cmd.AddRepaymentOrder?
    {
      RecordFrame(s, c, cmd);
    } else {
      UpdateBalance(s, c, cmd, w);
    }
  }

  lemma UpdateBalance(s: Ledger, c: Context, cmd: Command, w: Sighash)
    requires cmd.LockDealOrder? || cmd.CloseDealOrder? || cmd.Exempt? || cmd.CompleteRepaymentOrder? ||
             cmd.CloseRepaymentOrder?
    requires Step(s, c, cmd).Some?
    ensures Balance(Step(s, c, cmd).value.wallets, w) == Balance(s.wallets, w) - if w == c.signer then TX_FEE else 0
  {
    var d := if cmd.CompleteRepaymentOrder? || cmd.CloseRepaymentOrder? then s.repayments[cmd.repayment].deal
             else cmd.deal;
    DealFrame(s, c, cmd, d);
  }

  lemma SendExactly(s: Ledger, c: Context, amount: nat, to: Sighash)
    ensures var u := OnSendFunds(s, c, amount, to);
            Leaves(u, s) &&
            (u.Some? <==>
             to != c.signer && c.signer in s.wallets && s.wallets[c.signer] >= amount + 10_000_000_000_000_000)
  {
  }

  lemma CollectExactly(s: Ledger, c: Context, coins: nat, tx: string, verified: bool)
    ensures var u := OnCollectCoins(s, c, coins, tx, verified);
            Leaves(u, s.(erc20 := s.erc20[tx := coins])) &&
            (u.Some? <==> tx !in s.erc20 && (c.mode.Replay? || verified))
  {
  }

  // ----- addresses and orders -----

  lemma RegisterExactly(s: Ledger, c: Context, chain: string, value: string, network: string)
    ensures var u, id := OnRegisterAddress(s, c, chain, value, network), AddressId(chain + Lower(value) + network);
            Leaves(u, s.(addresses := s.addresses[id := Address(chain, value, network, c.signer)])) &&
            (u.Some? <==> Funds(s, c) && id !in s.addresses)
  {
  }

  /** The terms of an order, on an address of the signer. */
  ghost predicate OrderTerms(s: Ledger, c: Context, address: AddressId, amount: string, fee: string) {
    Funds(s, c) && address in s.addresses && s.addresses[address].sighash == c.signer &&
    Amount(amount).Some? && Amount(fee).Some?
  }

  lemma AskExactly(s: Ledger, c: Context, address: AddressId, amount: string, interest: nat, maturity: nat,
                   fee: string, expiration: nat)
    ensures var u, id := OnAddAskOrder(s, c, address, amount, interest, maturity, fee, expiration), AskId(c.guid);
            (u.Some? <==> OrderTerms(s, c, address, amount, fee) && id !in s.asks) &&
            (u.Some? ==>
               Leaves(u, s.(asks := s.asks[id := Order(s.addresses[address].blockchain, address, amount, interest,
                                                       maturity, fee, expiration, c.Head(), c.signer)])))
  {
  }

  lemma BidExactly(s: Ledger, c: Context, address: AddressId, amount: string, interest: nat, maturity: nat,
                   fee: string, expiration: nat)
    ensures var u, id := OnAddBidOrder(s, c, address, amount, interest, maturity, fee, expiration), BidId(c.guid);
            (u.Some? <==> OrderTerms(s, c, address, amount, fee) && id !in s.bids) &&
            (u.Some? ==>
               Leaves(u, s.(bids := s.bids[id := Order(s.addresses[address].blockchain, address, amount, interest,
                                                       maturity, fee, expiration, c.Head(), c.signer)])))
  {
  }

  // ----- offers and deals -----

  /** Two texts in dictionary order: they agree up to where the first ends or has the lower character. */
  ghost predicate Precedes(a: string, b: string) {
    exists k :: 0 <= k <= |a| && k < |b| && AgreeTo(a, b, k) && (k == |a| || a[k] < b[k])
  }

  ghost predicate AgreeTo(a: string, b: string, k: int) {
    0 <= k <= |a| && k <= |b| && forall i | 0 <= i < k :: a[i] == b[i]
  }

  lemma {:induction false} TextLessExactly(a: string, b: string)
    ensures TextLess(a, b) <==> Precedes(a, b)
    decreases |a|
  {
    if a == "" || b == "" || a[0] != b[0] {
      assert AgreeTo(a, b, 0);
    } else {
      TextLessExactly(a[1..], b[1..]);
      if Precedes(a[1..], b[1..]) {
        var k :| 0 <= k <= |a[1..]| && k < |b[1..]| && AgreeTo(a[1..], b[1..], k) &&
            (k == |a[1..]| || a[1..][k] < b[1..][k]);
        assert AgreeTo(a, b, k + 1) by {
          forall i | 0 <= i < k + 1
            ensures a[i] == b[i]
          {
            assert i > 0 ==> a[i] == a[1..][i - 1] && b[i] == b[1..][i - 1];
          }
        }
      }
      if Precedes(a, b) {
        var k :| 0 <= k <= |a| && k < |b| && AgreeTo(a, b, k) && (k == |a| || a[k] < b[k]);
        assert AgreeTo(a[1..], b[1..], k - 1);
      }
    }
  }

  /** The ask's rate, in whole units a block, is within the bid's. */
  ghost predicate RateWithin(ask: Order, bid: Order) {
    ask.maturity > 0 && bid.maturity > 0 &&
    forall k: nat :: k * ask.maturity <= ask.interest ==> k * bid.maturity <= bid.interest
  }

  lemma QuotientMeaning(a: nat, m: nat, k: nat)
    requires m > 0
    ensures k <= a / m <==> k * m <= a
  {
    assert a == m * (a / m) + a % m;
    if k <= a / m {
      MulMono(m, k, a / m);
    } else {
      MulMono(m, a / m + 1, k);
    }
  }

  lemma RateExactly(ask: Order, bid: Order)
    requires ask.maturity > 0 && bid.maturity > 0
    ensures ask.interest / ask.maturity <= bid.interest / bid.maturity <==> RateWithin(ask, bid)
  {
    var p, q := ask.interest / ask.maturity, bid.interest / bid.maturity;
    QuotientMeaning(ask.interest, ask.maturity, p);
    QuotientMeaning(bid.interest, bid.maturity, p);
    forall k: nat | p <= q && k * ask.maturity <= ask.interest
      ensures k * bid.maturity <= bid.interest
    {
      QuotientMeaning(ask.interest, ask.maturity, k);
      QuotientMeaning(bid.interest, bid.maturity, k);
    }
  }

  /** Live orders of two owners on one chain for one amount; the bid's fee does not precede the ask's. */
  ghost predicate OfferTerms(s: Ledger, c: Context, ask: AskId, bid: BidId) {
    ask in s.asks && bid in s.bids &&
    var a, b := s.asks[ask], s.bids[bid];
    a.sighash == c.signer && b.sighash != c.signer &&
    c.Head() <= a.block + a.expiration && c.Head() <= b.block + b.expiration &&
    a.address in s.addresses && b.address in s.addresses &&
    s.addresses[a.address].blockchain == s.addresses[b.address].blockchain &&
    s.addresses[a.address].network == s.addresses[b.address].network &&
    a.amount == b.amount && !Precedes(b.fee, a.fee) && RateWithin(a, b)
  }

  lemma OfferExactly(s: Ledger, c: Context, ask: AskId, bid: BidId, expiration: nat)
    ensures var u, id := OnAddOffer(s, c, ask, bid, expiration), OfferId(ask, bid);
            (u.Some? <==> Funds(s, c) && OfferTerms(s, c, ask, bid) && id !in s.offers) &&
            (u.Some? ==>
               Leaves(u, s.(offers := s.offers[id := Offer(s.addresses[s.asks[ask].address].blockchain, ask, bid,
                                                           expiration, c.Head(), c.signer)])))
  {
    if ask in s.asks && bid in s.bids {
      TextLessExactly(s.bids[bid].fee, s.asks[ask].fee);
      if s.asks[ask].maturity > 0 && s.bids[bid].maturity > 0 {
        RateExactly(s.asks[ask], s.bids[bid]);
      }
    }
  }

  /** The signer of the bid takes the offer while it lives and can pay the bid's fee. */
  ghost predicate DealTerms(s: Ledger, c: Context, o: OfferId) {
    o in s.offers && s.offers[o].ask in s.asks && s.offers[o].bid in s.bids && DealId(o) !in s.deals &&
    var bid := s.bids[s.offers[o].bid];
    bid.sighash == c.signer && c.Head() <= s.offers[o].block + s.offers[o].expiration && Amount(bid.fee).Some? &&
    c.signer in s.wallets && s.wallets[c.signer] >= Amount(bid.fee).value + 10_000_000_000_000_000
  }

  /** The deal runs from the ask's address to the bid's, for the bid's amount, interest and maturity. */
  lemma DealExactly(s: Ledger, c: Context, o: OfferId, expiration: nat)
    ensures var u := OnAddDealOrder(s, c, o, expiration);
            (u.Some? <==> DealTerms(s, c, o)) &&
            (u.Some? ==>
               var ask, bid := s.asks[s.offers[o].ask], s.bids[s.offers[o].bid];
               Leaves(u, s.(deals := s.deals[DealId(o) := Deal(s.offers[o].blockchain, ask.address, bid.address,
                                                               bid.amount,
                                                                bid.interest, bid.maturity, Amount(bid.fee).value,
                                                                expiration, c.Head(), bid.sighash, None, None, "")],
                            asks := s.asks - {s.offers[o].ask}, bids := s.bids - {s.offers[o].bid},
                            offers := s.offers - {o})))
  {
  }

  // ----- transfers -----

  /** From where, to where and how much an order moves; a gain is paid back by the fundraiser. */
  ghost predicate Runs(s: Ledger, order: OrderRef, gain: int, from: AddressId, to: AddressId, amount: string) {
    match order
    case ToDeal(d) =>
      d in s.deals && amount == s.deals[d].amount &&
      (gain == 0 ==> from == s.deals[d].src && to == s.deals[d].dst) &&
      (gain != 0 ==> from == s.deals[d].dst && to == s.deals[d].src)
    case ToRepayment(r) =>
      r in s.repayments && gain == 0 &&
      from == s.repayments[r].src && to == s.repayments[r].dst && amount == s.repayments[r].amount
  }

  ghost predicate TransferTerms(s: Ledger, c: Context, gain: int, order: OrderRef, tx: string, verified: bool,
                          from: AddressId, to: AddressId, amount: string)
  {
    Funds(s, c) && Runs(s, order, gain, from, to, amount) && from in s.addresses && to in s.addresses &&
    s.addresses[from].sighash == c.signer && s.addresses[from].blockchain == s.addresses[to].blockchain &&
    s.addresses[from].network == s.addresses[to].network &&
    (tx == "0" || (Amount(amount).Some? && (c.mode.Replay? || verified))) &&
    TransferId(s.addresses[from].blockchain + tx + s.addresses[from].network) !in s.transfers
  }

  lemma RunsOneWay(s: Ledger, order: OrderRef, gain: int, from: AddressId, to: AddressId, amount: string)
    ensures Runs(s, order, gain, from, to, amount) <==> Route(s, order, gain) == Some((from, to, amount))
  {
  }

  /** What is recorded reads as the order's amount and the gain together, or as nothing. */
  lemma AmountExactly(amount: string, gain: int, tx: string)
    ensures TransferAmount(amount, gain, tx).Some? <==> tx == "0" || Amount(amount).Some?
    ensures TransferAmount(amount, gain, tx).Some? ==>
              Parse(TransferAmount(amount, gain, tx).value) ==
              Some(if tx == "0" then 0 else Amount(amount).value + gain)
  {
    if tx == "0" {
      ZeroIsNothing();
    } else if Amount(amount).Some? {
      ParseShow(Amount(amount).value + gain);
    }
  }

  lemma TransferAccepted(s: Ledger, c: Context, gain: int, order: OrderRef, tx: string, verified: bool,
                         from: AddressId, to: AddressId, amount: string)
    requires Route(s, order, gain) == Some((from, to, amount))
    ensures OnRegisterTransfer(s, c, gain, order, tx, verified).Some? <==>
            TransferTerms(s, c, gain, order, tx, verified, from, to, amount)
  {
    RunsOneWay(s, order, gain, from, to, amount);
    AmountExactly(amount, gain, tx);
  }

  lemma TransferExactly(s: Ledger, c: Context, gain: int, order: OrderRef, tx: string, verified: bool)
    ensures OnRegisterTransfer(s, c, gain, order, tx, verified).Some? <==>
            exists from, to, amount :: TransferTerms(s, c, gain, order, tx, verified, from, to, amount)
  {
    if exists from, to, amount :: TransferTerms(s, c, gain, order, tx, verified, from, to, amount) {
      var from, to, amount :| TransferTerms(s, c, gain, order, tx, verified, from, to, amount);
      RunsOneWay(s, order, gain, from, to, amount);
      TransferAccepted(s, c, gain, order, tx, verified, from, to, amount);
    }
    if OnRegisterTransfer(s, c, gain, order, tx, verified).Some? {
      var (from, to, amount) := Route(s, order, gain).value;
      TransferAccepted(s, c, gain, order, tx, verified, from, to, amount);
    }
  }

  lemma TransferRecorded(s: Ledger, c: Context, gain: int, order: OrderRef, tx: string, verified: bool,
                         from: AddressId, to: AddressId, amount: string)
    requires TransferTerms(s, c, gain, order, tx, verified, from, to, amount)
    ensures var u, a := OnRegisterTransfer(s, c, gain, order, tx, verified), s.addresses[from];
            var id := TransferId(a.blockchain + tx + a.network);
            u.Some? && id in u.value.transfers &&
            var t := u.value.transfers[id];
            Parse(t.amount) == Some(if tx == "0" then 0 else Amount(amount).value + gain) &&
            t == Transfer(a.blockchain, from, to, order, t.amount, tx, c.Head(), false, c.signer) &&
            Leaves(u, s.(transfers := s.transfers[id := t]))
  {
    RunsOneWay(s, order, gain, from, to, amount);
    TransferAccepted(s, c, gain, order, tx, verified, from, to, amount);
    AmountExactly(amount, gain, tx);
  }

  lemma ZeroIsNothing()
    ensures Parse("0") == Some(0)
  {
    assert "0"[1..] == "";
  }

  // ----- loans -----

  /** An unprocessed transfer of the signer for this deal. */
  ghost predicate OwnTransfer(s: Ledger, c: Context, t: TransferId, d: DealId) {
    t in s.transfers && s.transfers[t].order == ToDeal(d) && !s.transfers[t].processed &&
    s.transfers[t].sighash == c.signer
  }

  lemma CompleteExactly(s: Ledger, c: Context, d: DealId, t: TransferId)
    ensures var u := OnCompleteDealOrder(s, c, d, t);
            (u.Some? <==>
             d in s.deals && s.deals[d].loan.None? && c.Head() <= s.deals[d].block + s.deals[d].expiration &&
             s.deals[d].src in s.addresses && s.addresses[s.deals[d].src].sighash == c.signer &&
             OwnTransfer(s, c, t, d) && s.transfers[t].amount == s.deals[d].amount &&
             c.signer in s.wallets && s.wallets[c.signer] + s.deals[d].fee >= 10_000_000_000_000_000) &&
            (u.Some? ==>
               Leaves(u, s.(transfers := s.transfers[t := s.transfers[t].(processed := true)],
                            deals := s.deals[d := s.deals[d].(loan := Some(t), block := c.Head())])))
  {
  }

  lemma LockExactly(s: Ledger, c: Context, d: DealId)
    ensures var u := OnLockDealOrder(s, c, d);
            (u.Some? <==>
             Funds(s, c) && d in s.deals && s.deals[d].lock == "" && s.deals[d].loan.Some? &&
             s.deals[d].sighash == c.signer) &&
            (u.Some? ==> Leaves(u, s.(deals := s.deals[d := s.deals[d].(lock := c.signer)])))
  {
  }

  /** `n` periods have begun since the loan was paid out; the one it was paid out in counts. */
  ghost predicate Begun(head: int, start: int, maturity: nat, n: int) {
    (n - 1) * maturity <= head - start < n * maturity
  }

  lemma SignOfProduct(n: int, m: nat)
    ensures n >= 0 ==> n * m >= 0
    ensures n < 0 ==> n * m + m <= 0
  {
    if n < 0 {
      MulMono(m, n + 1, 0);
      assert m * (n + 1) == n * m + m;
    }
  }

  lemma FloorOnce(x: nat, m: nat, n: nat)
    requires m > 0 && n * m <= x < n * m + m
    ensures x / m == n
  {
    QuotientMeaning(x, m, n);
    QuotientMeaning(x, m, n + 1);
    assert (n + 1) * m == n * m + m;
  }

  /** The periods begun are the ticks charged. */
  lemma BegunOnce(head: int, start: int, maturity: nat, n: int)
    requires maturity > 0 && Begun(head, start, maturity, n)
    ensures (if Ticks(head, start, maturity) < 0 then 0 else Ticks(head, start, maturity)) == if n < 0 then 0 else n
  {
    var x := head - start + maturity;
    assert (n - 1) * maturity == n * maturity - maturity;
    SignOfProduct(n, maturity);
    if x >= 0 {
      FloorOnce(x, maturity, n);
    }
  }

  lemma SomePeriod(head: int, start: int, maturity: nat) returns (n: int)
    requires maturity > 0
    ensures Begun(head, start, maturity, n)
  {
    n := (head - start) / maturity + 1;
    assert head - start == maturity * ((head - start) / maturity) + (head - start) % maturity;
    assert (n - 1) * maturity == maturity * ((head - start) / maturity);
    assert n * maturity == (n - 1) * maturity + maturity;
  }

  /** The amount with interest for `n` periods, the fraction of a unit dropped in each. */
  function Owed(amount: nat, rate: nat, n: int): nat {
    if n <= 0 then amount else Owed(amount, rate, n - 1) + Owed(amount, rate, n - 1) * rate / 1_000_000
  }

  lemma {:induction false} OwedIsCompound(amount: nat, rate: nat, n: nat)
    ensures Owed(amount, rate, n) == Compound(amount, n, rate)
  {
    if n > 0 {
      OwedIsCompound(amount, rate, n - 1);
    }
  }

  /** The transfer pays back the loan with interest for every period begun. */
  ghost predicate Covers(s: Ledger, c: Context, d: DealId, t: TransferId, n: int)
    requires d in s.deals && t in s.transfers
  {
    var deal := s.deals[d];
    deal.loan.Some? && deal.loan.value in s.transfers && deal.maturity > 0 &&
    Begun(c.Head(), s.transfers[deal.loan.value].block, deal.maturity, n) &&
    Amount(deal.amount).Some? && Amount(s.transfers[t].amount).Some? &&
    Amount(s.transfers[t].amount).value >= Owed(Amount(deal.amount).value, deal.interest, n)
  }

  lemma ThresholdExactly(amount: nat, head: int, start: int, maturity: nat, rate: nat, n: int)
    requires maturity > 0 && Begun(head, start, maturity, n)
    ensures Threshold(amount, head, start, maturity, rate) == Owed(amount, rate, n)
  {
    BegunOnce(head, start, maturity, n);
    OwedIsCompound(amount, rate, if n < 0 then 0 else n);
  }

  lemma CoversExactly(s: Ledger, c: Context, d: DealId, t: TransferId, n: int)
    requires d in s.deals && t in s.transfers
    requires s.deals[d].loan.Some? && s.deals[d].loan.value in s.transfers && s.deals[d].maturity > 0
    requires Begun(c.Head(), s.transfers[s.deals[d].loan.value].block, s.deals[d].maturity, n)
    ensures Covers(s, c, d, t, n) <==>
            Debt(s, c, s.deals[d]).Some? && Amount(s.transfers[t].amount).Some? &&
            Amount(s.transfers[t].amount).value >= Debt(s, c, s.deals[d]).value
  {
    var deal := s.deals[d];
    if Amount(deal.amount).Some? {
      ThresholdExactly(Amount(deal.amount).value, c.Head(), s.transfers[deal.loan.value].block, deal.maturity,
                       deal.interest, n);
    }
  }

  lemma DebtExactly(s: Ledger, c: Context, d: DealId, t: TransferId)
    requires d in s.deals && t in s.transfers
    ensures (exists n :: Covers(s, c, d, t, n)) <==>
            Debt(s, c, s.deals[d]).Some? && Amount(s.transfers[t].amount).Some? &&
            Amount(s.transfers[t].amount).value >= Debt(s, c, s.deals[d]).value
  {
    var deal := s.deals[d];
    if deal.loan.Some? && deal.loan.value in s.transfers && deal.maturity > 0 {
      var start := s.transfers[deal.loan.value].block;
      var k := SomePeriod(c.Head(), start, deal.maturity);
      CoversExactly(s, c, d, t, k);
      forall n | Covers(s, c, d, t, n)
        ensures Covers(s, c, d, t, k)
      {
        CoversExactly(s, c, d, t, n);
      }
    }
  }

  /** The fundraiser who holds the lock closes an open deal with a transfer that covers the debt. */
  ghost predicate Closes(s: Ledger, c: Context, d: DealId, t: TransferId) {
    Funds(s, c) && d in s.deals && s.deals[d].repayment.None? && s.deals[d].sighash == c.signer &&
    s.deals[d].lock == c.signer && OwnTransfer(s, c, t, d) && exists n :: Covers(s, c, d, t, n)
  }

  lemma CloseExactly(s: Ledger, c: Context, d: DealId, t: TransferId)
    ensures var u := OnCloseDealOrder(s, c, d, t);
            (u.Some? <==> Closes(s, c, d, t)) &&
            (u.Some? ==>
               Leaves(u, s.(transfers := s.transfers[t := s.transfers[t].(processed := true)],
                            deals := s.deals[d := s.deals[d].(repayment := Some(t))])))
  {
    if d in s.deals && t in s.transfers {
      DebtExactly(s, c, d, t);
    }
  }

  lemma ExemptExactly(s: Ledger, c: Context, d: DealId, t: TransferId)
    ensures var u := OnExempt(s, c, d, t);
            (u.Some? <==>
             Funds(s, c) && d in s.deals && s.deals[d].repayment.None? &&
             t in s.transfers && s.transfers[t].order == ToDeal(d) && !s.transfers[t].processed &&
             s.deals[d].src in s.addresses && s.addresses[s.deals[d].src].sighash == c.signer) &&
            (u.Some? ==>
               Leaves(u, s.(transfers := s.transfers[t := s.transfers[t].(processed := true)],
                            deals := s.deals[d := s.deals[d].(repayment := Some(t))])))
  {
  }

  // ----- repayment orders -----

  /** A registered address, or one whose fields are all empty. */
  function FieldsAt(s: Ledger, id: AddressId): Address {
    if id in s.addresses then s.addresses[id] else Address("", "", "", "")
  }

  lemma TakeoverOffered(s: Ledger, c: Context, d: DealId, address: AddressId, amount: string, expiration: nat)
    ensures var u, r := OnAddRepaymentOrder(s, c, d, address, amount, expiration), RepaymentId(c.guid);
            (u.Some? <==>
             Funds(s, c) && Amount(amount).Some? && r !in s.repayments && d in s.deals &&
             s.deals[d].sighash != c.signer && s.deals[d].loan.Some? && s.deals[d].repayment.None? &&
             var here, there := FieldsAt(s, s.deals[d].src), FieldsAt(s, address);
             here.sighash != c.signer && here.blockchain == there.blockchain && here.network == there.network &&
             here.value != there.value) &&
            (u.Some? ==>
               var from := s.deals[d].src;
               Leaves(u, s.(repayments := s.repayments[r := Repayment(FieldsAt(s, from).blockchain, address, from,
                                                                      amount,
                                                                      expiration, c.Head(), d, c.signer, "", None)])))
  {
  }

  lemma TakeoverAnswered(s: Ledger, c: Context, r: RepaymentId)
    ensures var u := OnCompleteRepaymentOrder(s, c, r);
            (u.Some? <==>
             Funds(s, c) && r in s.repayments && s.repayments[r].deal in s.deals &&
             s.repayments[r].dst in s.addresses && s.addresses[s.repayments[r].dst].sighash == c.signer &&
             s.deals[s.repayments[r].deal].lock == "") &&
            (u.Some? ==>
               var d := s.repayments[r].deal;
               Leaves(u, s.(repayments := s.repayments[r := s.repayments[r].(previousOwner := c.signer)],
                            deals := s.deals[d := s.deals[d].(lock := c.signer)])))
  {
  }

  lemma TakeoverClosed(s: Ledger, c: Context, r: RepaymentId, t: TransferId)
    ensures var u := OnCloseRepaymentOrder(s, c, r, t);
            (u.Some? <==>
             Funds(s, c) && r in s.repayments && s.repayments[r].sighash == c.signer &&
             t in s.transfers && s.transfers[t].order == ToRepayment(r) && !s.transfers[t].processed &&
             s.transfers[t].sighash == c.signer && s.transfers[t].amount == s.repayments[r].amount &&
             s.repayments[r].deal in s.deals && s.deals[s.repayments[r].deal].src in s.addresses &&
             s.addresses[s.deals[s.repayments[r].deal].src].sighash == s.deals[s.repayments[r].deal].lock) &&
            (u.Some? ==>
               var d := s.repayments[r].deal;
               Leaves(u, s.(transfers := s.transfers[t := s.transfers[t].(processed := true)],
                            repayments := s.repayments[r := s.repayments[r].(transfer := Some(t))],
                            deals := s.deals[d := s.deals[d].(src := s.repayments[r].src, lock := "")])))
  {
  }

  // ----- housekeeping -----

  /** What survives a sweep at block `at`: orders and offers that have not expired. */
  lemma SweepExactly(s: Ledger, c: Context, at: nat)
    requires Swept(s, c, at).Some?
    ensures var u := Swept(s, c, at).value;
            u.asks == (map a | a in s.asks && at <= s.asks[a].block + s.asks[a].expiration :: s.asks[a]) &&
            u.bids == (map b | b in s.bids && at <= s.bids[b].block + s.bids[b].expiration :: s.bids[b]) &&
            u.offers == (map o | o in s.offers && at <= s.offers[o].block + s.offers[o].expiration :: s.offers[o])
  {
  }

  /** Of deals, repayment orders and fees: loans that were paid out, orders that were answered, what has
      not expired, and fees for a year. */
  lemma SweepLeavesLoans(s: Ledger, c: Context, at: nat)
    requires Swept(s, c, at).Some?
    ensures var u := Swept(s, c, at).value;
            u.deals == (map d | d in s.deals &&
                          (s.deals[d].loan.Some? || at <= s.deals[d].block + s.deals[d].expiration) :: s.deals[d]) &&
            u.repayments == (map r | r in s.repayments &&
                               (s.repayments[r].previousOwner != "" ||
                                at <= s.repayments[r].block + s.repayments[r].expiration) :: s.repayments[r]) &&
            u.fees == (map g | g in s.fees && at <= s.fees[g].block + 525_600 :: s.fees[g])
    ensures c.mode.Replay? && 0 < c.mode.tip <= c.fixBlock ==> Swept(s, c, at).value.wallets == s.wallets
  {
  }

  /** A sweep fails exactly for a refund due to a fundraiser, or an old fee of a payer, without a wallet. */
  lemma SweepFails(s: Ledger, c: Context, at: nat)
    ensures Swept(s, c, at).None? <==>
            ((c.mode.Live? || c.mode.tip == 0 || c.mode.tip > c.fixBlock) &&
             exists d <- s.deals :: s.deals[d].loan.None? && s.deals[d].block + s.deals[d].expiration < at &&
                                    s.deals[d].sighash !in s.wallets) ||
            exists g <- s.fees :: s.fees[g].block + 525_600 < at && s.fees[g].sighash !in s.wallets
  {
    assert forall d <- s.deals :: d in LapsedDeals(s, at) <==> Lapsed(s.deals[d], at);
    assert forall g <- s.fees :: g in OldFees(s, at) <==> Expired(YEAR_OF_BLOCKS, s.fees[g].block, at);
  }

  /** A refund goes to the fundraiser of the deal. */
  lemma RefundExactly(s: Ledger, c: Context, at: nat, w: Sighash)
    requires Swept(s, c, at).Some? && w in s.wallets
    requires c.mode.Live? || c.mode.tip == 0 || c.mode.tip > c.fixBlock
    ensures (forall d <- s.deals :: s.deals[d].sighash == w ==>
               s.deals[d].loan.Some? || at <= s.deals[d].block + s.deals[d].expiration) ==>
              Balance(Swept(s, c, at).value.wallets, w) == s.wallets[w]
  {
    if forall d <- s.deals :: s.deals[d].sighash == w ==>
         s.deals[d].loan.Some? || at <= s.deals[d].block + s.deals[d].expiration {
      assert OwedBy(s.deals, LapsedDeals(s, at), w) == map[];
    }
  }

  /** Without a block named, the next batch of ten is due once the head is seventy blocks ahead. */
  lemma BatchExactly(s: Ledger, c: Context, byGateway: bool, reply: Option<seq<Sighash>>)
    ensures var u := OnHousekeeping(s, c, 0, byGateway, reply);
            if s.processed + 70 < c.Head()
            then (u.Some? <==> c.mode.Replay? || reply.Some?) && (u.Some? ==> u.value.processed == s.processed + 10)
            else u == Some(s)
  {
  }

  /** With a block named, only the gateway is heard, and the block must be ahead and confirmed. */
  lemma HousekeepingExactly(s: Ledger, c: Context, n: nat, byGateway: bool, reply: Option<seq<Sighash>>)
    requires n != 0
    ensures var u := OnHousekeeping(s, c, n, byGateway, reply);
            if c.mode.Live? && !byGateway then u == None
            else if 60 <= n && s.processed < n && n + 30 < c.Head()
            then
              (u.Some? <==> (c.mode.Replay? || reply.Some?) && Swept(s, c, n).Some?) &&
              (u.Some? ==> u.value.processed == n)
            else u == Some(s)
  {
    var swept, awards := Swept(s, c, n), Awards(c, s.processed, n, reply);
    assert awards.Some? <==> c.mode.Replay? || reply.Some?;
    assert SweepDue(s, c, n) <==> 60 <= n && s.processed < n && n + 30 < c.Head();
  }

  /** What a block's signer is awarded: 222 coins, or once the update is 500 blocks behind, 28 times the
      fraction of the period of two and a half million blocks. */
  lemma RewardExactly(c: Context, processed: nat, height: nat)
    ensures var updated := match c.mode
              case Live(_, update) => update.Some? && processed > update.value + 500
              case Replay(tip, _) => processed > (if 278890 <= tip <= 278904 then 277800 else 278910) + 500;
            Reward(c, processed, height) ==
            if updated then 28 * c.fraction(height / 2_500_000) else 222_000_000_000_000_000_000
  {
  }

  lemma AwardAmounts(c: Context, processed: nat, upto: nat, reply: Option<seq<Sighash>>)
    ensures var awards := Awards(c, processed, upto, reply);
            awards.Some? ==> forall a <- awards.value :: a.height >= 0 ==> a.amount == Reward(c, processed, a.height)
  {
  }

  /** What some awards come to for one signer. */
  function AwardedIn(awards: seq<Award>, w: Sighash): nat {
    if awards == [] then 0
    else
      var n := |awards| - 1;
      AwardedIn(awards[..n], w) + if awards[n].signer == w then awards[n].amount else 0
  }

  lemma {:induction false} AwardsExactly(wallets: map<Sighash, nat>, awards: seq<Award>, w: Sighash)
    ensures Balance(AllAwarded(wallets, awards), w) == Balance(wallets, w) + AwardedIn(awards, w)
  {
    if awards != [] {
      AwardsExactly(wallets, awards[..|awards| - 1], w);
    }
  }

  // ----- repaid deals -----

  /** The step closes the deal with a transfer that covers the debt, or its investor exempts it. */
  ghost predicate Repays(s: Ledger, tx: Tx, d: DealId) {
    d in s.deals && s.deals[d].repayment.None? &&
    ((tx.cmd.CloseDealOrder? && tx.cmd.deal == d && tx.cmd.transfer in s.transfers &&
      tx.c.signer == s.deals[d].sighash &&
      exists n :: Covers(s, tx.c, d, tx.cmd.transfer, n)) ||
     (tx.cmd.Exempt? && tx.cmd.deal == d && s.deals[d].src in s.addresses &&
      s.addresses[s.deals[d].src].sighash == tx.c.signer))
  }

  ghost predicate Open(s: Ledger, d: DealId) {
    d in s.deals ==> s.deals[d].repayment.None?
  }

  lemma NextRepaid(s: Ledger, tx: Tx, d: DealId)
    requires Open(s, d) && !Open(Next(s, tx), d)
    ensures Repays(s, tx, d)
  {
    if tx.cmd.CloseDealOrder? {
      CloseExactly(s, tx.c, tx.cmd.deal, tx.cmd.transfer);
    } else if tx.cmd.Exempt? {
      ExemptExactly(s, tx.c, tx.cmd.deal, tx.cmd.transfer);
    } else {
      OthersStayOpen(s, tx, d);
    }
  }

  lemma OthersStayOpen(s: Ledger, tx: Tx, d: DealId)
    requires Open(s, d) && !tx.cmd.CloseDealOrder? && !tx.cmd.Exempt?
    ensures Open(Next(s, tx), d)
  {
    if Step(s, tx.c, tx.cmd).Some? {
      if Quiet(tx.cmd) {
        QuietFrame(s, tx.c, tx.cmd);
      } else if tx.cmd.Housekeeping? {
        HousekeepingFrame(s, tx.c, tx.cmd);
      } else {
        LoansStayOpen(s, tx.c, tx.cmd, d);
      }
    }
  }

  lemma LoansStayOpen(s: Ledger, c: Context, cmd: Command, d: DealId)
    requires Open(s, d) && Step(s, c, cmd).Some?
    requires cmd.AddDealOrder? || cmd.CompleteDealOrder? || cmd.LockDealOrder? || cmd.AddRepaymentOrder? ||
             cmd.CompleteRepaymentOrder? || cmd.CloseRepaymentOrder?
    ensures Open(Step(s, c, cmd).value, d)
  {
    if cmd.AddDealOrder? {
      DealExactly(s, c, cmd.offer, cmd.expiration);
    } else if cmd.CompleteDealOrder? {
      CompleteExactly(s, c, cmd.deal, cmd.transfer);
    } else if cmd.LockDealOrder? {
      LockExactly(s, c, cmd.deal);
    } else {
      TakeoversStayOpen(s, c, cmd, d);
    }
  }

  lemma TakeoversStayOpen(s: Ledger, c: Context, cmd: Command, d: DealId)
    requires Open(s, d) && Step(s, c, cmd).Some?
    requires cmd.AddRepaymentOrder? || cmd.CompleteRepaymentOrder? || cmd.CloseRepaymentOrder?
    ensures Open(Step(s, c, cmd).value, d)
  {
    match cmd
    case AddRepaymentOrder(e, address, amount, expiration) => TakeoverOffered(s, c, e, address, amount, expiration);
    case CompleteRepaymentOrder(r) => AnswerStaysOpen(s, c, r, d);
    case CloseRepaymentOrder(r, t) => ClosingStaysOpen(s, c, r, t, d);
  }

  lemma AnswerStaysOpen(s: Ledger, c: Context, r: RepaymentId, d: DealId)
    requires Open(s, d) && OnCompleteRepaymentOrder(s, c, r).Some?
    ensures Open(OnCompleteRepaymentOrder(s, c, r).value, d)
  {
    TakeoverAnswered(s, c, r);
  }

  lemma ClosingStaysOpen(s: Ledger, c: Context, r: RepaymentId, t: TransferId, d: DealId)
    requires Open(s, d) && OnCloseRepaymentOrder(s, c, r, t).Some?
    ensures Open(OnCloseRepaymentOrder(s, c, r, t).value, d)
  {
    TakeoverClosed(s, c, r, t);
  }

  /** Along every run a deal that counts as repaid was closed for all that was owed, or exempted. */
  lemma {:induction false} RunRepaid(txs: seq<Tx>, d: DealId)
    requires !Open(Run(EMPTY, txs), d)
    ensures exists i | 0 <= i < |txs| :: Repays(Run(EMPTY, txs[..i]), txs[i], d)
  {
    if txs != [] {
      var n := |txs| - 1;
      if Open(Run(EMPTY, txs[..n]), d) {
        NextRepaid(Run(EMPTY, txs[..n]), txs[n], d);
      } else {
        RunRepaid(txs[..n], d);
        var i :| 0 <= i < n && Repays(Run(EMPTY, txs[..n][..i]), txs[..n][i], d);
        assert txs[..n][..i] == txs[..i];
      }
    }
  }
}
