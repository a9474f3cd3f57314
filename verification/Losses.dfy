/** When a run loses coins, and why a sweep never fails for want of a wallet. */
module Losses {
  import opened Wrappers
  import opened Ledgers
  import opened Handlers
  import opened Upkeep
  import opened MapSums
  import opened Frames
  import opened Conservation
  import opened Trades

  // ----- wallets are never closed -----

  /** Everyone a sweep may look up has a wallet. */
  ghost predicate Funded(s: Ledger) {
    (forall d <- s.deals :: s.deals[d].sighash in s.wallets) && (forall g <- s.fees :: s.fees[g].sighash in s.wallets)
  }

  lemma {:induction false} AwardedKeeps(wallets: map<Sighash, nat>, awards: seq<Award>)
    ensures wallets.Keys <= AllAwarded(wallets, awards).Keys
  {
    if awards != [] {
      AwardedKeeps(wallets, awards[..|awards| - 1]);
    }
  }

  lemma HousekeepingKeepsWallets(s: Ledger, c: Context, blockIdx: nat, byGateway: bool, reply: Option<seq<Sighash>>)
    requires OnHousekeeping(s, c, blockIdx, byGateway, reply).Some?
    ensures s.wallets.Keys <= OnHousekeeping(s, c, blockIdx, byGateway, reply).value.wallets.Keys
  {
    var awards := Awards(c, s.processed, blockIdx, reply);
    if blockIdx == 0 && BatchDue(s, c) {
      AwardedKeeps(s.wallets, awards.value);
    } else if blockIdx != 0 && SweepDue(s, c, blockIdx) {
      SweptKeepsWallets(s, c, blockIdx);
      AwardedKeeps(Swept(s, c, blockIdx).value.wallets, awards.value);
      var u := OnHousekeeping(s, c, blockIdx, byGateway, reply).value;
      assert u.wallets == AllAwarded(Swept(s, c, blockIdx).value.wallets, awards.value);
    }
  }

  lemma SweptKeepsWallets(s: Ledger, c: Context, at: nat)
    requires Swept(s, c, at).Some?
    ensures Swept(s, c, at).value.wallets.Keys == s.wallets.Keys
  {
  }

  lemma ForgettingFunded(s: Ledger, u: Ledger)
    requires Funded(s) && Forgets(s, u) && s.wallets.Keys <= u.wallets.Keys
    ensures Funded(u)
  {
  }

  /** What commands other than housekeeping add is owed to their own signer, who has a wallet. */
  lemma OthersFunded(s: Ledger, c: Context, cmd: Command)
    requires !cmd.Housekeeping? && Step(s, c, cmd).Some?
    ensures var u := Step(s, c, cmd).value;
            s.wallets.Keys + {c.signer} <= u.wallets.Keys &&
            (forall d <- u.deals ::
             u.deals[d].sighash == c.signer || (d in s.deals && u.deals[d].sighash == s.deals[d].sighash)) &&
            (forall g <- u.fees ::
             u.fees[g].sighash == c.signer || (g in s.fees && u.fees[g].sighash == s.fees[g].sighash))
  {
    if Quiet(cmd) {
      QuietFunded(s, c, cmd);
    } else {
      DealsFunded(s, c, cmd);
    }
  }

  lemma QuietFunded(s: Ledger, c: Context, cmd: Command)
    requires Quiet(cmd) && Step(s, c, cmd).Some?
    ensures var u := Step(s, c, cmd).value;
            s.wallets.Keys + {c.signer} <= u.wallets.Keys && u.deals == s.deals &&
            (u.fees == s.fees || u.fees == s.fees[c.guid := Fee(c.signer, c.Head())])
  {
  }

  /** Wallets stay, the fee is the signer's, and deals belong to whom they did or to the signer. */
  ghost predicate OwnFunds(s: Ledger, c: Context, u: Ledger) {
    s.wallets.Keys + {c.signer} <= u.wallets.Keys && u.fees == s.fees[c.guid := Fee(c.signer, c.Head())] &&
    forall d <- u.deals :: u.deals[d].sighash == c.signer || (d in s.deals && u.deals[d].sighash == s.deals[d].sighash)
  }

  lemma DealsFunded(s: Ledger, c: Context, cmd: Command)
    requires !Quiet(cmd) && !cmd.Housekeeping? && Step(s, c, cmd).Some?
    ensures OwnFunds(s, c, Step(s, c, cmd).value)
  {
    match cmd
    case AddDealOrder(o, expiration) => NewDealFunded(s, c, o, expiration);
    case CompleteDealOrder(d, t) => LoanFunded(s, c, d, t);
    case AddRepaymentOrder(d, a, amount, expiration) => OfferFunded(s, c, d, a, amount, expiration);
    case _ => UpdateFunded(s, c, cmd);
  }

  lemma UpdateFunded(s: Ledger, c: Context, cmd: Command)
    requires cmd.LockDealOrder? || cmd.CloseDealOrder? || cmd.Exempt? || cmd.CompleteRepaymentOrder? ||
             cmd.CloseRepaymentOrder?
    requires Step(s, c, cmd).Some?
    ensures OwnFunds(s, c, Step(s, c, cmd).value)
  {
    var d := if cmd.CompleteRepaymentOrder? || cmd.CloseRepaymentOrder? then s.repayments[cmd.repayment].deal
        else cmd.deal;
    DealFrame(s, c, cmd, d);
    OneDealFunded(s, c, Step(s, c, cmd).value, d);
  }

  lemma OneDealFunded(s: Ledger, c: Context, u: Ledger, d: DealId)
    requires CanPay(s, c) && u.wallets == Paid(s, c).wallets && u.fees == Paid(s, c).fees
    requires d in s.deals && d in u.deals && u.deals == s.deals[d := u.deals[d]] &&
             u.deals[d].sighash == s.deals[d].sighash
    ensures OwnFunds(s, c, u)
  {
  }

  lemma NewDealFunded(s: Ledger, c: Context, o: OfferId, expiration: nat)
    requires OnAddDealOrder(s, c, o, expiration).Some?
    ensures OwnFunds(s, c, OnAddDealOrder(s, c, o, expiration).value)
  {
  }

  lemma LoanFunded(s: Ledger, c: Context, d: DealId, t: TransferId)
    requires OnCompleteDealOrder(s, c, d, t).Some?
    ensures OwnFunds(s, c, OnCompleteDealOrder(s, c, d, t).value)
  {
  }

  lemma OfferFunded(s: Ledger, c: Context, d: DealId, a: AddressId, amount: string, expiration: nat)
    requires OnAddRepaymentOrder(s, c, d, a, amount, expiration).Some?
    ensures OwnFunds(s, c, OnAddRepaymentOrder(s, c, d, a, amount, expiration).value)
  {
  }

  lemma NextFunded(s: Ledger, tx: Tx)
    requires Funded(s)
    ensures Funded(Next(s, tx))
  {
    if Step(s, tx.c, tx.cmd).Some? {
      if tx.cmd.Housekeeping? {
        HousekeepingFrame(s, tx.c, tx.cmd);
        HousekeepingKeepsWallets(s, tx.c, tx.cmd.blockIdx, tx.cmd.byGateway, tx.cmd.reply);
        ForgettingFunded(s, Next(s, tx));
      } else {
        OthersFunded(s, tx.c, tx.cmd);
      }
    }
  }

  lemma {:induction false} RunFunded(txs: seq<Tx>)
    ensures Funded(Run(EMPTY, txs))
  {
    if txs != [] {
      RunFunded(txs[..|txs| - 1]);
      NextFunded(Run(EMPTY, txs[..|txs| - 1]), txs[|txs| - 1]);
    }
  }

  /** In a reachable ledger housekeeping is rejected only for a wrong signer or an unanswered reward
      request. The stray store of the fee sweep goes to a key outside the transaction's outputs; this
      assumes that the validator does not refuse it. */
  lemma SweepsSucceed(txs: seq<Tx>, c: Context, blockIdx: nat, byGateway: bool, reply: Option<seq<Sighash>>)
    requires Verified(c, byGateway) && (c.mode.Replay? || reply.Some?)
    ensures OnHousekeeping(Run(EMPTY, txs), c, blockIdx, byGateway, reply).Some?
  {
    RunFunded(txs);
  }

  // ----- losses -----

  /** A sweep that forgets neither a fee record nor an unpaid deal fee. */
  ghost predicate SpotlessSweep(s: Ledger, c: Context, at: nat) {
    OldFees(s, at) == {} && (Refunds(c) || forall d <- LapsedDeals(s, at) :: s.deals[d].fee == 0)
  }

  /** The transaction loses nothing if it is accepted: no fee record waits under its nonce, and
      a sweep, if it makes one, is spotless. */
  ghost predicate Spotless(s: Ledger, tx: Tx) {
    match tx.cmd
    case Housekeeping(blockIdx, _, _) => blockIdx != 0 && SweepDue(s, tx.c, blockIdx) ==>
      SpotlessSweep(s, tx.c, blockIdx)
    case CollectCoins(_, _, _) => true
    case _ => tx.c.guid !in s.fees
  }

  lemma {:induction false} TotalZero<K>(m: map<K, nat>, keys: set<K>)
    requires keys <= m.Keys
    ensures TotalOver(m, keys) == 0 <==> forall k <- keys :: m[k] == 0
    decreases |keys|
  {
    if keys != {} {
      var k :| k in keys;
      OverRemove(m, keys, k);
      TotalZero(m, keys - {k});
      assert keys == (keys - {k}) + {k};
    }
  }

  lemma HeldZero(s: Ledger, at: nat)
    ensures Total(Holdings(Part(s.deals, LapsedDeals(s, at)))) == 0 <==> forall d <- LapsedDeals(s, at) ::
              s.deals[d].fee == 0
  {
    var held := Holdings(Part(s.deals, LapsedDeals(s, at)));
    TotalZero(held, held.Keys);
    assert held.Keys == LapsedDeals(s, at);
    assert forall d <- held :: held[d] == s.deals[d].fee;
  }

  /** A step loses nothing exactly when it is spotless or rejected. */
  lemma LosesNothing(s: Ledger, tx: Tx)
    ensures Lost(s, tx.c, tx.cmd) == 0 <==> (Step(s, tx.c, tx.cmd).Some? ==> Spotless(s, tx))
  {
    if tx.cmd.Housekeeping? && tx.cmd.blockIdx != 0 && SweepDue(s, tx.c, tx.cmd.blockIdx) {
      HeldZero(s, tx.cmd.blockIdx);
    }
  }

  /** Transaction `i` of the run is rejected or spotless. */
  ghost predicate SpotlessAt(txs: seq<Tx>, i: nat)
    requires i < |txs|
  {
    var s := Run(EMPTY, txs[..i]);
    Step(s, txs[i].c, txs[i].cmd).Some? ==> Spotless(s, txs[i])
  }

  ghost predicate AllSpotless(txs: seq<Tx>) {
    forall i | 0 <= i < |txs| :: SpotlessAt(txs, i)
  }

  lemma SpotlessPrefix(txs: seq<Tx>, n: nat, i: nat)
    requires i < n <= |txs|
    ensures SpotlessAt(txs[..n], i) <==> SpotlessAt(txs, i)
  {
    assert txs[..n][..i] == txs[..i];
  }

  lemma LastSpotless(txs: seq<Tx>)
    requires txs != []
    ensures AllSpotless(txs) <==> AllSpotless(txs[..|txs| - 1]) && SpotlessAt(txs, |txs| - 1)
  {
    var n := |txs| - 1;
    assert forall i | 0 <= i < n :: SpotlessAt(txs[..n], i) <==> SpotlessAt(txs, i) by {
      forall i | 0 <= i < n
        ensures SpotlessAt(txs[..n], i) <==> SpotlessAt(txs, i)
      {
        SpotlessPrefix(txs, n, i);
      }
    }
  }

  lemma {:induction false} RunLosesNothing(txs: seq<Tx>)
    ensures LostIn(EMPTY, txs) == 0 <==> AllSpotless(txs)
  {
    if txs != [] {
      var n := |txs| - 1;
      RunLosesNothing(txs[..n]);
      LosesNothing(Run(EMPTY, txs[..n]), txs[n]);
      LastSpotless(txs);
    }
  }

  /** Equality holds exactly in the runs whose every accepted step is spotless. */
  lemma SolventExactly(txs: seq<Tx>)
    ensures Supply(Run(EMPTY, txs)) == MintedIn(EMPTY, txs) <==> AllSpotless(txs)
  {
    Solvent(txs);
    RunLosesNothing(txs);
  }

  /** With fresh nonces only sweeps can lose coins. */
  lemma FreshNoncesSpotless(txs: seq<Tx>, tx: Tx)
    requires FreshNonces(txs + [tx]) && !tx.cmd.Housekeeping?
    ensures Spotless(Run(EMPTY, txs), tx)
  {
    assert (txs + [tx])[..|txs|] == txs;
    LastIsFresh(txs + [tx]);
    RunSound(txs);
  }
}
