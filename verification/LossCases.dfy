/** Two runs from the empty ledger that lose coins. */
module LossCases {
  import opened Wrappers
  import opened Ledgers
  import opened Handlers
  import opened Upkeep
  import opened Conservation
  import opened Losses
  import opened MapSums

  const NO_FRACTION: nat -> nat := (period: nat) => 0
  const MINER: nat -> Sighash := (height: nat) => "miner"

  /** A transaction of "lender" in the replay of the block above `tip`. */
  function By(guid: Guid, tip: nat, cmd: Command): Tx {
    Tx(Context("lender", guid, Replay(tip, MINER), 0, NO_FRACTION), cmd)
  }

  const COLLECT: Tx := By("n0", 1, CollectCoins(5 * TX_FEE, "deposit", true))
  const SEND: Tx := By("n1", 1, SendFunds(1, "receiver"))
  const SWEEP: Tx := By("n2", 2 * YEAR_OF_BLOCKS, Housekeeping(YEAR_OF_BLOCKS + 2, true, None))

  const FUNDED: Ledger := EMPTY.(wallets := map["lender" := 5 * TX_FEE], erc20 := map["deposit" := 5 * TX_FEE])
  const SENT: Ledger := FUNDED.(wallets := map["lender" := 4 * TX_FEE - 1, "receiver" := 1],
                                fees := map["n1" := Fee("lender", 1)])

  lemma {:induction false} RunMore(txs: seq<Tx>, tx: Tx)
    ensures Run(EMPTY, txs + [tx]) == Next(Run(EMPTY, txs), tx)
    ensures LostIn(EMPTY, txs + [tx]) == LostIn(EMPTY, txs) + Lost(Run(EMPTY, txs), tx.c, tx.cmd)
  {
    assert (txs + [tx])[..|txs|] == txs;
  }

  lemma FirstSteps()
    ensures Run(EMPTY, [COLLECT]) == FUNDED && LostIn(EMPTY, [COLLECT]) == 0
    ensures Run(EMPTY, [COLLECT, SEND]) == SENT && LostIn(EMPTY, [COLLECT, SEND]) == 0
  {
    RunMore([], COLLECT);
    assert [] + [COLLECT] == [COLLECT] && [COLLECT] + [SEND] == [COLLECT, SEND];
    assert Next(EMPTY, COLLECT) == FUNDED;
    RunMore([COLLECT], SEND);
    assert Next(FUNDED, SEND).wallets == SENT.wallets && Next(FUNDED, SEND).fees == SENT.fees;
  }

  lemma AgainLoses()
    ensures Lost(SENT, SEND.c, SEND.cmd) == TX_FEE
  {
    assert Step(SENT, SEND.c, SEND.cmd) == OnSendFunds(SENT, SEND.c, 1, "receiver");
    assert SEND.c.guid == "n1" && "n1" in SENT.fees;
  }

  /** The same nonce twice: the first fee record is overwritten. */
  lemma NonceReuseLoses()
    ensures var txs := [COLLECT, SEND, SEND];
            Supply(Run(EMPTY, txs)) + TX_FEE == MintedIn(EMPTY, txs) && !AllSpotless(txs)
  {
    FirstSteps();
    assert [COLLECT, SEND] + [SEND] == [COLLECT, SEND, SEND];
    RunMore([COLLECT, SEND], SEND);
    AgainLoses();
    RunConserves(EMPTY, [COLLECT, SEND, SEND]);
    EmptySupply();
    SolventExactly([COLLECT, SEND, SEND]);
  }

  lemma EmptySupply()
    ensures Supply(EMPTY) == 0
  {
    assert Holdings(EMPTY.deals) == map[];
  }

  lemma SweepRuns()
    ensures Swept(SENT, SWEEP.c, YEAR_OF_BLOCKS + 2).Some? && SweepDue(SENT, SWEEP.c, YEAR_OF_BLOCKS + 2)
    ensures OldFees(SENT, YEAR_OF_BLOCKS + 2) == {"n1"} && Swept(SENT, SWEEP.c, YEAR_OF_BLOCKS + 2).value.fees == map[]
  {
    assert OldFees(SENT, YEAR_OF_BLOCKS + 2) == {"n1"};
    assert LapsedDeals(SENT, YEAR_OF_BLOCKS + 2) == {};
  }

  /** A replayed sweep that is due succeeds if the wallets it looks up exist. */
  lemma SweepAccepted(s: Ledger, c: Context, at: nat)
    requires c.mode.Replay? && at != 0 && SweepDue(s, c, at) && Swept(s, c, at).Some?
    ensures OnHousekeeping(s, c, at, true, None).Some?
    ensures OnHousekeeping(s, c, at, true, None).value.fees == Swept(s, c, at).value.fees
  {
    var t, awards := Swept(s, c, at).value, Awards(c, s.processed, at, None);
    assert awards.Some?;
    assert OnHousekeeping(s, c, at, true, None) ==
           Some(t.(wallets := AllAwarded(t.wallets, awards.value), processed := at));
  }

  lemma SweepLoss(s: Ledger, c: Context, at: nat)
    requires c.mode.Replay? && at != 0 && SweepDue(s, c, at) && Swept(s, c, at).Some?
    ensures var cmd := Housekeeping(at, true, None);
            Next(s, Tx(c, cmd)).fees == Swept(s, c, at).value.fees &&
            Lost(s, c, cmd) ==
              TX_FEE * |OldFees(s, at)| +
              (if Refunds(c) then 0 else Total(Holdings(Part(s.deals, LapsedDeals(s, at)))))
  {
    var cmd := Housekeeping(at, true, None);
    SweepAccepted(s, c, at);
    assert Step(s, c, cmd) == OnHousekeeping(s, c, at, true, None);
  }

  lemma SweepLoses()
    ensures Lost(SENT, SWEEP.c, SWEEP.cmd) == TX_FEE && Next(SENT, SWEEP).fees == map[]
  {
    SweepRuns();
    SweepLoss(SENT, SWEEP.c, YEAR_OF_BLOCKS + 2);
    assert Refunds(SWEEP.c);
  }

  /** A year later the fee record is swept, and its coins are in no wallet. */
  lemma FeeSweepLoses()
    ensures var txs := [COLLECT, SEND, SWEEP];
            Supply(Run(EMPTY, txs)) + TX_FEE == MintedIn(EMPTY, txs) && Run(EMPTY, txs).fees == map[] &&
            !AllSpotless(txs)
  {
    FirstSteps();
    assert [COLLECT, SEND] + [SWEEP] == [COLLECT, SEND, SWEEP];
    RunMore([COLLECT, SEND], SWEEP);
    SweepLoses();
    RunConserves(EMPTY, [COLLECT, SEND, SWEEP]);
    EmptySupply();
    SolventExactly([COLLECT, SEND, SWEEP]);
  }
}
