/** Which records a command may touch. */
module Frames {
  import opened Wrappers
  import opened Ledgers
  import opened Handlers
  import opened Upkeep

  /** Everything in `u` is also in `s`. */
  ghost predicate Within<K, V>(u: map<K, V>, s: map<K, V>) {
    forall k <- u :: k in s && u[k] == s[k]
  }

  /** `u` is `s` with orders, offers, repayment orders, fees and deals forgotten, but never a deal
      whose loan has been paid out. */
  ghost predicate Forgets(s: Ledger, u: Ledger) {
    u.addresses == s.addresses && u.transfers == s.transfers && Within(u.asks, s.asks) && Within(u.bids, s.bids) &&
    Within(u.offers, s.offers) && Within(u.deals, s.deals) && Within(u.repayments, s.repayments) &&
    Within(u.fees, s.fees) &&
    forall d <- s.deals :: s.deals[d].loan.Some? ==> d in u.deals
  }

  lemma HousekeepingForgets(s: Ledger, c: Context, blockIdx: nat, byGateway: bool, reply: Option<seq<Sighash>>)
    requires OnHousekeeping(s, c, blockIdx, byGateway, reply).Some?
    ensures Forgets(s, OnHousekeeping(s, c, blockIdx, byGateway, reply).value)
  {
    var u := OnHousekeeping(s, c, blockIdx, byGateway, reply).value;
    if blockIdx != 0 && SweepDue(s, c, blockIdx) {
      SweptForgets(s, c, blockIdx);
      ForgetsBeyondWallets(s, Swept(s, c, blockIdx).value, u);
    } else {
      assert Forgets(s, s);
      ForgetsBeyondWallets(s, s, u);
    }
  }

  /** Wallets and the processed height do not matter. */
  lemma ForgetsBeyondWallets(s: Ledger, t: Ledger, u: Ledger)
    requires Forgets(s, t) && u == t.(wallets := u.wallets, processed := u.processed)
    ensures Forgets(s, u)
  {
  }

  lemma SweptForgets(s: Ledger, c: Context, at: nat)
    requires Swept(s, c, at).Some?
    ensures Forgets(s, Swept(s, c, at).value)
  {
  }

  lemma HousekeepingFrame(s: Ledger, c: Context, cmd: Command)
    requires cmd.Housekeeping? && Step(s, c, cmd).Some?
    ensures Forgets(s, Step(s, c, cmd).value)
  {
    HousekeepingForgets(s, c, cmd.blockIdx, cmd.byGateway, cmd.reply);
  }

  /** Commands that leave deals and repayment orders alone. */
  predicate Quiet(cmd: Command) {
    cmd.SendFunds? || cmd.RegisterAddress? || cmd.RegisterTransfer? || cmd.AddAskOrder? || cmd.AddBidOrder? ||
    cmd.AddOffer? || cmd.CollectCoins?
  }

  /** Deals and repayment orders are as before; addresses and transfers are at most added. */
  ghost predicate LoansAlone(s: Ledger, u: Ledger) {
    u.deals == s.deals && u.repayments == s.repayments && Within(s.addresses, u.addresses) &&
    Within(s.transfers, u.transfers)
  }

  lemma QuietFrame(s: Ledger, c: Context, cmd: Command)
    requires Quiet(cmd) && Step(s, c, cmd).Some?
    ensures var u := Step(s, c, cmd).value;
            u.deals == s.deals && u.repayments == s.repayments &&
            (forall a <- s.addresses :: a in u.addresses && u.addresses[a] == s.addresses[a]) &&
            (forall t <- s.transfers :: t in u.transfers && u.transfers[t] == s.transfers[t])
  {
    if cmd.SendFunds? || cmd.CollectCoins? {
      CoinsFrame(s, c, cmd);
    } else if cmd.RegisterAddress? || cmd.RegisterTransfer? {
      RegisterFrame(s, c, cmd);
    } else {
      OrderFrame(s, c, cmd);
    }
    assert LoansAlone(s, Step(s, c, cmd).value);
  }

  lemma CoinsFrame(s: Ledger, c: Context, cmd: Command)
    requires (cmd.SendFunds? || cmd.CollectCoins?) && Step(s, c, cmd).Some?
    ensures LoansAlone(s, Step(s, c, cmd).value)
  {
    if cmd.SendFunds? {
      SendFrame(s, c, cmd.coins, cmd.to);
    } else {
      CollectFrame(s, c, cmd.coins, cmd.tx, cmd.verified);
    }
  }

  lemma SendFrame(s: Ledger, c: Context, amount: nat, to: Sighash)
    requires OnSendFunds(s, c, amount, to).Some?
    ensures LoansAlone(s, OnSendFunds(s, c, amount, to).value)
  {
  }

  lemma CollectFrame(s: Ledger, c: Context, coins: nat, tx: string, verified: bool)
    requires OnCollectCoins(s, c, coins, tx, verified).Some?
    ensures LoansAlone(s, OnCollectCoins(s, c, coins, tx, verified).value)
  {
  }

  lemma RegisterFrame(s: Ledger, c: Context, cmd: Command)
    requires (cmd.RegisterAddress? || cmd.RegisterTransfer?) && Step(s, c, cmd).Some?
    ensures LoansAlone(s, Step(s, c, cmd).value)
  {
    if cmd.RegisterAddress? {
      var id := AddressKey(cmd.blockchain, cmd.value, cmd.network);
      OneMore(s.addresses, id, Step(s, c, cmd).value.addresses);
    } else {
      var id := NewTransfer(s, c, cmd.gain, cmd.order, cmd.tx).value.0;
      OneMore(s.transfers, id, Step(s, c, cmd).value.transfers);
    }
  }

  lemma OneMore<K, V>(m: map<K, V>, k: K, n: map<K, V>)
    requires k !in m && k in n && n == m[k := n[k]]
    ensures Within(m, n)
  {
  }

  lemma OrderFrame(s: Ledger, c: Context, cmd: Command)
    requires (cmd.AddAskOrder? || cmd.AddBidOrder? || cmd.AddOffer?) && Step(s, c, cmd).Some?
    ensures LoansAlone(s, Step(s, c, cmd).value)
  {
    var u := Step(s, c, cmd).value;
    assert u.addresses == s.addresses && u.transfers == s.transfers;
  }

  /** Addresses only change when one is registered. */
  lemma AddressFrame(s: Ledger, c: Context, cmd: Command)
    requires Step(s, c, cmd).Some?
    ensures !cmd.RegisterAddress? ==> Step(s, c, cmd).value.addresses == s.addresses
  {
    if cmd.Housekeeping? {
      HousekeepingFrame(s, c, cmd);
    } else if Quiet(cmd) && !cmd.RegisterAddress? {
      QuietAddresses(s, c, cmd);
    } else if cmd.AddRepaymentOrder? || cmd.CompleteRepaymentOrder? || cmd.CloseRepaymentOrder? {
      RepaymentAddresses(s, c, cmd);
    } else if !Quiet(cmd) {
      DealAddresses(s, c, cmd);
    }
  }

  lemma QuietAddresses(s: Ledger, c: Context, cmd: Command)
    requires Quiet(cmd) && !cmd.RegisterAddress? && Step(s, c, cmd).Some?
    ensures Step(s, c, cmd).value.addresses == s.addresses
  {
  }

  lemma RepaymentAddresses(s: Ledger, c: Context, cmd: Command)
    requires (cmd.AddRepaymentOrder? || cmd.CompleteRepaymentOrder? || cmd.CloseRepaymentOrder?) &&
             Step(s, c, cmd).Some?
    ensures Step(s, c, cmd).value.addresses == s.addresses
  {
  }

  lemma DealAddresses(s: Ledger, c: Context, cmd: Command)
    requires cmd.AddDealOrder? || cmd.CompleteDealOrder? || cmd.LockDealOrder? || cmd.CloseDealOrder? || cmd.Exempt?
    requires Step(s, c, cmd).Some?
    ensures Step(s, c, cmd).value.addresses == s.addresses
  {
  }
}
