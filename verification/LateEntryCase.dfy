/** A short recorded chain on which entering a block past its first transaction goes wrong: the block
    left behind and the new one each open with housekeeping and then pay somebody. */
module LateEntryCase {
  import opened Wrappers
  import opened Ledgers
  import opened Handlers
  import opened Upkeep
  import opened LedgerReplay
  import opened LateEntries
  import R = Replay

  function Recorded(guid: string, cmd: Command): R.Tx {
    R.Tx(guid, "lender", R.Reads(cmd))
  }

  const OPENING: Command := Housekeeping(0, false, None)
  const PAYMENT: Command := SendFunds(1, "receiver")

  const FIRST: seq<R.Tx> := [Recorded("n0", OPENING), Recorded("n1", CollectCoins(5 * TX_FEE, "deposit", true))]
  const SECOND: seq<R.Tx> := [Recorded("n2", OPENING), Recorded("n3", PAYMENT)]
  const THIRD: seq<R.Tx> := [Recorded("n4", OPENING), Recorded("n5", PAYMENT), Recorded("n6", PAYMENT)]
  const BLOCKS: seq<seq<R.Tx>> := [[], FIRST, SECOND, THIRD]

  /** A command the ledger accepts prolongs a history that does not fail. */
  lemma Accepted(p: Params, h: R.History, tip: nat, tx: R.Tx, l: Ledger, u: Ledger)
    requires R.Succeeds(Commands(p), h) && After(p, h) == l && !R.Skipped(tx) && Readable(tip, tx)
    requires Step(l, Seen(p, tip, tx).c, tx.payload.cmd) == Some(u)
    ensures R.Succeeds(Commands(p), R.Then(h, tip, tx)) && After(p, R.Then(h, tip, tx)) == u
  {
    HistoryIsRun(p, h);
    assert Commands(p)(Encode(l), tip, tx) == Perform(p, Encode(l), tip, tx);
    PerformOk(p, l, tip, tx);
    AfterThen(p, h, tip, tx);
  }

  const RICH: Ledger := EMPTY.(wallets := map["lender" := 5 * TX_FEE], erc20 := map["deposit" := 5 * TX_FEE])

  function Paid(l: Ledger, coins: nat, received: nat, guid: Guid, tip: nat): Ledger {
    l.(wallets := map["lender" := coins, "receiver" := received], fees := l.fees[guid := Fee("lender", tip)])
  }

  /** Early openings do nothing. */
  lemma OpeningIdle(p: Params, l: Ledger, tip: nat, guid: string)
    requires tip < 70
    ensures var tx := Recorded(guid, OPENING); Step(l, Seen(p, tip, tx).c, tx.payload.cmd) == Some(l)
  {
  }

  lemma CollectStep(p: Params)
    ensures var tx := FIRST[1]; Step(EMPTY, Seen(p, 0, tx).c, tx.payload.cmd) == Some(RICH)
  {
    var tx := FIRST[1];
    var u := Step(EMPTY, Seen(p, 0, tx).c, tx.payload.cmd).value;
    assert u.wallets == RICH.wallets && u.erc20 == RICH.erc20;
  }

  lemma PayWallets(wallets: map<Sighash, nat>, coins: nat, received: nat)
    requires wallets == if received == 0 then map["lender" := coins] else map["lender" := coins, "receiver" := received]
    requires coins > TX_FEE
    ensures "lender" in wallets && wallets["lender"] == coins && Balance(wallets, "receiver") == received
    ensures wallets["lender" := coins - 1]["receiver" := received + 1]["lender" := coins - TX_FEE - 1] ==
            map["lender" := coins - TX_FEE - 1, "receiver" := received + 1]
  {
  }

  lemma PayStep(p: Params, l: Ledger, coins: nat, received: nat, guid: Guid, tip: nat)
    requires l.wallets ==
             (if received == 0 then map["lender" := coins] else map["lender" := coins, "receiver" := received])
    requires coins > TX_FEE
    ensures var tx := Recorded(guid, PAYMENT);
            Step(l, Seen(p, tip, tx).c, tx.payload.cmd) == Some(Paid(l, coins - TX_FEE - 1, received + 1, guid, tip))
  {
    PayWallets(l.wallets, coins, received);
    PayAccepted(l, Seen(p, tip, Recorded(guid, PAYMENT)).c, coins, received);
  }

  lemma PayAccepted(l: Ledger, c: Context, coins: nat, received: nat)
    requires c.signer == "lender" && "lender" in l.wallets && l.wallets["lender"] == coins > TX_FEE &&
             Balance(l.wallets, "receiver") == received
    requires l.wallets["lender" := coins - 1]["receiver" := received + 1]["lender" := coins - TX_FEE - 1] ==
             map["lender" := coins - TX_FEE - 1, "receiver" := received + 1]
    ensures OnSendFunds(l, c, 1, "receiver") == Some(Paid(l, coins - TX_FEE - 1, received + 1, c.guid, c.Head()))
  {
  }

  lemma TwoMore(h: R.History, tip: int, a: R.Tx, b: R.Tx)
    ensures R.Append(h, tip, [a]) == R.Then(h, tip, a)
    ensures R.Append(h, tip, [a, b]) == R.Then(R.Append(h, tip, [a]), tip, b)
  {
    assert [a, b][..1] == [a] && [a][..0] == [];
  }

  /** Two accepted commands of one block. */
  lemma BothAccepted(p: Params, h: R.History, tip: nat, a: R.Tx, b: R.Tx, l: Ledger, u: Ledger, v: Ledger)
    requires R.Succeeds(Commands(p), h) && After(p, h) == l
    requires !R.Skipped(a) && Readable(tip, a) && Step(l, Seen(p, tip, a).c, a.payload.cmd) == Some(u)
    requires !R.Skipped(b) && Readable(tip, b) && Step(u, Seen(p, tip, b).c, b.payload.cmd) == Some(v)
    ensures R.Succeeds(Commands(p), R.Append(h, tip, [a])) && R.Succeeds(Commands(p), R.Append(h, tip, [a, b]))
    ensures After(p, R.Append(h, tip, [a, b])) == v
  {
    TwoMore(h, tip, a, b);
    Accepted(p, h, tip, a, l, u);
    Accepted(p, R.Then(h, tip, a), tip, b, u, v);
  }

  const SPENT: Ledger := Paid(RICH, 4 * TX_FEE - 1, 1, "n3", 1)

  lemma FirstBlock(p: Params)
    ensures R.Before(BLOCKS, 2) == R.Append(R.Genesis, 0, [FIRST[0], FIRST[1]])
    ensures R.Succeeds(Commands(p), R.Before(BLOCKS, 2)) && After(p, R.Before(BLOCKS, 2)) == RICH
  {
    assert FIRST == [FIRST[0], FIRST[1]];
    OpeningIdle(p, EMPTY, 0, "n0");
    CollectStep(p);
    BothAccepted(p, R.Genesis, 0, FIRST[0], FIRST[1], EMPTY, EMPTY, RICH);
  }

  lemma SecondSteps(p: Params)
    ensures Step(RICH, Seen(p, 1, SECOND[0]).c, SECOND[0].payload.cmd) == Some(RICH)
    ensures Step(RICH, Seen(p, 1, SECOND[1]).c, SECOND[1].payload.cmd) == Some(SPENT)
  {
    OpeningIdle(p, RICH, 1, "n2");
    PayStep(p, RICH, 5 * TX_FEE, 0, "n3", 1);
  }

  lemma SecondBlock(p: Params)
    ensures R.Before(BLOCKS, 3) == R.Append(R.Before(BLOCKS, 2), 1, [SECOND[0], SECOND[1]])
    ensures R.Succeeds(Commands(p), R.Append(R.Before(BLOCKS, 2), 1, [SECOND[0]]))
    ensures R.Succeeds(Commands(p), R.Before(BLOCKS, 3)) && After(p, R.Before(BLOCKS, 3)) == SPENT
  {
    FirstBlock(p);
    SecondSteps(p);
    assert SECOND == [SECOND[0], SECOND[1]];
    BothAccepted(p, R.Before(BLOCKS, 2), 1, SECOND[0], SECOND[1], RICH, RICH, SPENT);
  }

  lemma ThirdSteps(p: Params)
    ensures Step(SPENT, Seen(p, 2, THIRD[0]).c, THIRD[0].payload.cmd) == Some(SPENT)
    ensures Step(SPENT, Seen(p, 2, THIRD[1]).c, THIRD[1].payload.cmd) == Some(Paid(SPENT, 3 * TX_FEE - 2, 2, "n5", 2))
  {
    OpeningIdle(p, SPENT, 2, "n4");
    PayStep(p, SPENT, 4 * TX_FEE - 1, 1, "n5", 2);
  }

  lemma ThirdBlock(p: Params)
    ensures R.Succeeds(Commands(p), R.Append(R.Before(BLOCKS, 3), 2, [THIRD[0], THIRD[1]]))
  {
    SecondBlock(p);
    ThirdSteps(p);
    BothAccepted(p, R.Before(BLOCKS, 3), 2, THIRD[0], THIRD[1], SPENT, SPENT, Paid(SPENT, 3 * TX_FEE - 2, 2, "n5", 2));
  }

  /** The recorded transactions all succeed, one after the other. */
  lemma AllSucceed(p: Params)
    ensures R.Succeeds(Commands(p), R.UpTo(BLOCKS, 2, 1)) && R.Succeeds(Commands(p), R.UpTo(BLOCKS, 3, 2))
  {
    SecondBlock(p);
    ThirdBlock(p);
    assert BLOCKS[2][..1] == [SECOND[0]] && BLOCKS[3][..2] == [THIRD[0], THIRD[1]];
  }

  /** The last payment of the third block is delivered right after the opening of the second one: the
      second block's payment runs twice, and the third block's first payment not at all. */
  lemma PaymentsMisplaced(p: Params)
    ensures var run := [R.Position(2, 0)];
            R.Orderly(BLOCKS, run) &&
            var s := R.Deliveries(Commands(p), BLOCKS, run);
            s.ok && R.Placed(BLOCKS, s.m) && s.m.atBlock == 2 && !SeesFullReplay(Commands(p), BLOCKS, s.m, 3, 2)
  {
    var run := [R.Position(2, 0)];
    assert run[..0] == [];
    AllSucceed(p);
    assert R.Recorded(BLOCKS, run[0]) && R.Orderly(BLOCKS, []) && R.Reached(BLOCKS, []).0 == 0;
    assert R.Orderly(BLOCKS, run);
    assert R.Healthy(Commands(p), BLOCKS, run);
    R.RunExact(Commands(p), BLOCKS, run);
    SecondPaymentShows(p, R.Deliveries(Commands(p), BLOCKS, run).m);
  }

  lemma AsPublished()
    ensures Published(BLOCKS[2]) && Published(BLOCKS[3]) && Apart(BLOCKS[2], BLOCKS[3]) && !R.Idle(BLOCKS[3][1..2])
  {
    assert BLOCKS[3][1..2] == [THIRD[1]] && !R.Skipped(THIRD[1]);
    assert THIRD[1] in BLOCKS[3][1..2];
  }

  lemma SecondPaymentShows(p: Params, m: R.Machine)
    requires R.Exact(Commands(p), BLOCKS, m) && m.atBlock == 2
    ensures !SeesFullReplay(Commands(p), BLOCKS, m, 3, 2)
  {
    AllSucceed(p);
    AsPublished();
    LateEntryExactly(p, BLOCKS, m, 3, 2);
  }
}
