/** When re-validation of the ledger may enter a block past its first transaction. Every block opens
    with a housekeeping command that reads neither its signer nor its nonce, so two blocks open alike;
    anything else they execute there leaves a fee record or a collected deposit behind, and the
    difference shows. */
module LateEntries {
  import opened Wrappers
  import opened Ledgers
  import opened Handlers
  import opened Upkeep
  import opened Frames
  import opened Conservation
  import opened LedgerReplay
  import R = Replay

  /** The command every block is published with. */
  predicate Opens(tx: R.Tx) {
    !R.Skipped(tx) && tx.payload.Reads? && tx.payload.cmd.Housekeeping? && tx.payload.cmd.blockIdx == 0
  }

  predicate Keeps(tx: R.Tx) {
    !R.Skipped(tx) && tx.payload.Reads? && tx.payload.cmd.Housekeeping?
  }

  /** Housekeeping only to open. */
  predicate Published(txs: seq<R.Tx>) {
    txs != [] && Opens(txs[0]) && forall k | 1 <= k < |txs| :: !Keeps(txs[k])
  }

  predicate Apart(a: seq<R.Tx>, b: seq<R.Tx>) {
    forall x <- a, y <- b :: x.guid != y.guid
  }

  // ----- housekeeping commands for the same block are alike -----

  lemma KeepsAlike(p: Params, tip: nat, x: R.Tx, y: R.Tx)
    requires Keeps(x) && Keeps(y) && x.payload.cmd.blockIdx == y.payload.cmd.blockIdx
    ensures R.Alike(Commands(p), tip, x, y)
  {
    forall s
      ensures Commands(p)(s, tip, x) == Commands(p)(s, tip, y)
    {
      if IsLedger(s) {
        KeepingStep(p, Decode(s), tip, x, y);
      }
    }
  }

  lemma KeepingStep(p: Params, l: Ledger, tip: nat, x: R.Tx, y: R.Tx)
    requires Keeps(x) && Keeps(y) && x.payload.cmd.blockIdx == y.payload.cmd.blockIdx
    ensures Step(l, Seen(p, tip, x).c, x.payload.cmd) == Step(l, Seen(p, tip, y).c, y.payload.cmd)
  {
    var c, d, n := Seen(p, tip, x).c, Seen(p, tip, y).c, x.payload.cmd.blockIdx;
    KeepingSwept(l, c, d, n);
    KeepingAwards(c, d, l.processed, n, x.payload.cmd.reply, y.payload.cmd.reply);
    assert Step(l, c, x.payload.cmd) == OnHousekeeping(l, c, n, x.payload.cmd.byGateway, x.payload.cmd.reply);
    assert Step(l, d, y.payload.cmd) == OnHousekeeping(l, d, n, y.payload.cmd.byGateway, y.payload.cmd.reply);
  }

  /** Two replayed transactions at one height. */
  ghost predicate SameSurroundings(c: Context, d: Context) {
    c.mode == d.mode && c.mode.Replay? && c.fixBlock == d.fixBlock && c.fraction == d.fraction
  }

  lemma KeepingSwept(l: Ledger, c: Context, d: Context, n: nat)
    requires SameSurroundings(c, d)
    ensures Swept(l, c, n) == Swept(l, d, n)
  {
    assert Refunds(c) == Refunds(d);
  }

  lemma KeepingAwards(c: Context, d: Context, processed: nat, n: nat, r: Option<seq<Sighash>>, q: Option<seq<Sighash>>)
    requires SameSurroundings(c, d)
    ensures Awards(c, processed, n, r) == Awards(d, processed, n, q)
  {
    assert forall h: nat :: Reward(c, processed, h) == Reward(d, processed, h);
    assert Awards(c, processed, n, r).value == Awards(d, processed, n, q).value;
  }

  // ----- what single commands leave -----

  lemma ChargedFee(l: Ledger, c: Context, cmd: Command)
    requires !cmd.Housekeeping? && !cmd.CollectCoins? && Step(l, c, cmd).Some?
    ensures Step(l, c, cmd).value.fees == l.fees[c.guid := Fee(c.signer, c.Head())]
  {
    match cmd
    case SendFunds(_, _) | AddDealOrder(_, _) | CompleteDealOrder(_, _) => MovingFee(l, c, cmd);
    case LockDealOrder(d) => DealFrame(l, c, cmd, d);
    case CloseDealOrder(d, _) => DealFrame(l, c, cmd, d);
    case Exempt(d, _) => DealFrame(l, c, cmd, d);
    case CompleteRepaymentOrder(r) => DealFrame(l, c, cmd, l.repayments[r].deal);
    case CloseRepaymentOrder(r, _) => DealFrame(l, c, cmd, l.repayments[r].deal);
    case _ => RecordFrame(l, c, cmd);
  }

  lemma MovingFee(l: Ledger, c: Context, cmd: Command)
    requires (cmd.SendFunds? || cmd.AddDealOrder? || cmd.CompleteDealOrder?) && Step(l, c, cmd).Some?
    ensures Step(l, c, cmd).value.fees == l.fees[c.guid := Fee(c.signer, c.Head())]
  {
  }

  lemma DepositsStay(l: Ledger, c: Context, cmd: Command)
    requires !cmd.CollectCoins? && Step(l, c, cmd).Some?
    ensures Step(l, c, cmd).value.erc20 == l.erc20
  {
    if cmd.Housekeeping? {
      SweepsOnly(l, c, cmd);
    } else if Quiet(cmd) {
      QuietDeposits(l, c, cmd);
    } else {
      LoanDeposits(l, c, cmd);
    }
  }

  /** Housekeeping touches deposits never, and fees only in a sweep. */
  lemma SweepsOnly(l: Ledger, c: Context, cmd: Command)
    requires cmd.Housekeeping? && Step(l, c, cmd).Some?
    ensures var u := Step(l, c, cmd).value;
            u.erc20 == l.erc20 &&
            u.fees == if cmd.blockIdx != 0 && SweepDue(l, c, cmd.blockIdx) then l.fees - OldFees(l, cmd.blockIdx)
            else l.fees
  {
    var at := cmd.blockIdx;
    if at != 0 && SweepDue(l, c, at) {
      SweepAlone(l, c, at);
      SweepThenReward(l, c, cmd);
    } else if at == 0 {
      BatchAlone(l, c, cmd);
    } else {
      assert Step(l, c, cmd).value == l;
    }
  }

  lemma BatchAlone(l: Ledger, c: Context, cmd: Command)
    requires cmd.Housekeeping? && cmd.blockIdx == 0 && Step(l, c, cmd).Some?
    ensures Step(l, c, cmd).value.erc20 == l.erc20 && Step(l, c, cmd).value.fees == l.fees
  {
  }

  lemma SweepThenReward(l: Ledger, c: Context, cmd: Command)
    requires cmd.Housekeeping? && cmd.blockIdx != 0 && SweepDue(l, c, cmd.blockIdx) && Step(l, c, cmd).Some?
    ensures var t, u := Swept(l, c, cmd.blockIdx), Step(l, c, cmd).value;
            t.Some? && u.erc20 == t.value.erc20 && u.fees == t.value.fees
  {
  }

  lemma SweepAlone(l: Ledger, c: Context, at: nat)
    requires Swept(l, c, at).Some?
    ensures Swept(l, c, at).value.erc20 == l.erc20 && Swept(l, c, at).value.fees == l.fees - OldFees(l, at)
  {
  }

  lemma QuietDeposits(l: Ledger, c: Context, cmd: Command)
    requires Quiet(cmd) && !cmd.CollectCoins? && Step(l, c, cmd).Some?
    ensures Step(l, c, cmd).value.erc20 == l.erc20
  {
  }

  lemma LoanDeposits(l: Ledger, c: Context, cmd: Command)
    requires !Quiet(cmd) && !cmd.Housekeeping? && Step(l, c, cmd).Some?
    ensures Step(l, c, cmd).value.erc20 == l.erc20
  {
  }

  /** Sweeps do not reach the fee records of the current block. */
  lemma NewFeeStays(l: Ledger, c: Context, cmd: Command, g: Guid)
    requires cmd.Housekeeping? && Step(l, c, cmd).Some? && g in l.fees && l.fees[g].block == c.Head()
    ensures var u := Step(l, c, cmd).value; g in u.fees && u.fees[g] == l.fees[g]
  {
    SweepsOnly(l, c, cmd);
    if cmd.blockIdx != 0 && SweepDue(l, c, cmd.blockIdx) {
      assert g !in OldFees(l, cmd.blockIdx);
    }
  }

  // ----- the ledger along a history -----

  ghost function After(p: Params, h: R.History): Ledger {
    Run(EMPTY, Ran(p, h))
  }

  predicate Collects(tx: R.Tx, deposit: string) {
    !R.Skipped(tx) && tx.payload.Reads? && tx.payload.cmd.CollectCoins? && tx.payload.cmd.tx == deposit
  }

  predicate Pays(tx: R.Tx) {
    !R.Skipped(tx) && !Keeps(tx) && !(tx.payload.Reads? && tx.payload.cmd.CollectCoins?)
  }

  /** One more transaction of a history that does not fail. */
  lemma AfterThen(p: Params, before: R.History, tip: int, tx: R.Tx)
    requires R.Succeeds(Commands(p), R.Then(before, tip, tx))
    ensures R.Skipped(tx) ==> After(p, R.Then(before, tip, tx)) == After(p, before)
    ensures !R.Skipped(tx) ==>
              Readable(tip, tx) &&
              Step(After(p, before), Seen(p, tip, tx).c, tx.payload.cmd) == Some(After(p, R.Then(before, tip, tx)))
  {
    var h := R.Then(before, tip, tx);
    if R.Skipped(tx) {
      assert Ran(p, h) == Ran(p, before);
    } else {
      HistoryIsRun(p, before);
      var l := After(p, before);
      assert Commands(p)(Encode(l), tip, tx) == Perform(p, Encode(l), tip, tx);
      PerformOk(p, l, tip, tx);
      assert Ran(p, h)[..|Ran(p, before)|] == Ran(p, before);
    }
  }

  /** A history that executes `guid` with the given height in view. */
  predicate Executes(h: R.History, guid: Guid, tip: int) {
    match h
    case Genesis => false
    case Then(before, t, tx) => (!R.Skipped(tx) && tx.guid == guid && t == tip) || Executes(before, guid, tip)
  }

  /** Where a fee record comes from. */
  lemma FeeSource(p: Params, before: R.History, tip: int, tx: R.Tx, g: Guid)
    requires R.Succeeds(Commands(p), R.Then(before, tip, tx)) && g in After(p, R.Then(before, tip, tx)).fees
    ensures var f := After(p, R.Then(before, tip, tx)).fees[g];
            (!R.Skipped(tx) && tx.guid == g && f.block == tip) ||
            (g in After(p, before).fees && After(p, before).fees[g] == f)
  {
    AfterThen(p, before, tip, tx);
    if !R.Skipped(tx) {
      var c, cmd := Seen(p, tip, tx).c, tx.payload.cmd;
      if cmd.Housekeeping? {
        HousekeepingFrame(After(p, before), c, cmd);
      } else if !cmd.CollectCoins? {
        ChargedFee(After(p, before), c, cmd);
      } else {
        CollectedFees(After(p, before), c, cmd);
      }
    }
  }

  lemma CollectedFees(l: Ledger, c: Context, cmd: Command)
    requires cmd.CollectCoins? && Step(l, c, cmd).Some?
    ensures Step(l, c, cmd).value.fees == l.fees
  {
  }

  /** Every fee record was left by a transaction of its nonce that saw the height it records. */
  lemma {:induction false} FeesHaveOrigin(p: Params, h: R.History, g: Guid)
    requires R.Succeeds(Commands(p), h) && g in After(p, h).fees
    ensures Executes(h, g, After(p, h).fees[g].block)
  {
    match h
    case Genesis =>
    case Then(before, tip, tx) =>
      FeeSource(p, before, tip, tx, g);
      if !(!R.Skipped(tx) && tx.guid == g && After(p, h).fees[g].block == tip) {
        FeesHaveOrigin(p, before, g);
      }
  }

  lemma FeeStep(p: Params, before: R.History, tip: nat, tx: R.Tx, g: Guid)
    requires R.Succeeds(Commands(p), R.Then(before, tip, tx))
    requires (Pays(tx) && tx.guid == g) || (g in After(p, before).fees && After(p, before).fees[g].block == tip)
    ensures var fees := After(p, R.Then(before, tip, tx)).fees; g in fees && fees[g].block == tip
  {
    AfterThen(p, before, tip, tx);
    if !R.Skipped(tx) {
      var c, cmd := Seen(p, tip, tx).c, tx.payload.cmd;
      if cmd.Housekeeping? {
        NewFeeStays(After(p, before), c, cmd, g);
      } else if !cmd.CollectCoins? {
        ChargedFee(After(p, before), c, cmd);
      } else {
        CollectedFees(After(p, before), c, cmd);
      }
    }
  }

  lemma DepositAdded(l: Ledger, c: Context, cmd: Command)
    requires cmd.CollectCoins? && Step(l, c, cmd).Some?
    ensures cmd.tx !in l.erc20 && Step(l, c, cmd).value.erc20 == l.erc20[cmd.tx := cmd.coins]
  {
  }

  lemma DepositStep(p: Params, before: R.History, tip: int, tx: R.Tx, deposit: string)
    requires R.Succeeds(Commands(p), R.Then(before, tip, tx))
    ensures deposit in After(p, R.Then(before, tip, tx)).erc20 <==>
            deposit in After(p, before).erc20 || Collects(tx, deposit)
    ensures Collects(tx, deposit) ==> deposit !in After(p, before).erc20
  {
    AfterThen(p, before, tip, tx);
    if !R.Skipped(tx) {
      if tx.payload.cmd.CollectCoins? {
        DepositAdded(After(p, before), Seen(p, tip, tx).c, tx.payload.cmd);
      } else {
        DepositsStay(After(p, before), Seen(p, tip, tx).c, tx.payload.cmd);
      }
    }
  }

  /** A fee paid in a stretch of one block is still there at its end. */
  lemma {:induction false} NewFeesStay(p: Params, h: R.History, tip: nat, txs: seq<R.Tx>, k: nat)
    requires R.Succeeds(Commands(p), R.Append(h, tip, txs)) && k < |txs| && Pays(txs[k])
    ensures var fees := After(p, R.Append(h, tip, txs)).fees; txs[k].guid in fees && fees[txs[k].guid].block == tip
    decreases |txs|
  {
    var n := |txs| - 1;
    if k < n {
      NewFeesStay(p, h, tip, txs[..n], k);
    }
    FeeStep(p, R.Append(h, tip, txs[..n]), tip, txs[n], txs[k].guid);
  }

  /** The deposits after a stretch are those before it and those it collects, none of them before. */
  lemma {:induction false} DepositsAfter(p: Params, h: R.History, tip: int, txs: seq<R.Tx>, deposit: string)
    requires R.Succeeds(Commands(p), R.Append(h, tip, txs))
    ensures deposit in After(p, R.Append(h, tip, txs)).erc20 <==> deposit in After(p, h).erc20 || exists tx <- txs ::
              Collects(tx, deposit)
    ensures (exists tx <- txs :: Collects(tx, deposit)) ==> deposit !in After(p, h).erc20
    decreases |txs|
  {
    if txs != [] {
      var n := |txs| - 1;
      DepositsAfter(p, h, tip, txs[..n], deposit);
      DepositStep(p, R.Append(h, tip, txs[..n]), tip, txs[n], deposit);
      assert forall tx :: tx in txs <==> tx in txs[..n] || tx == txs[n];
    }
  }

  // ----- entering late -----

  lemma {:induction false} AppendExecutes(h: R.History, at: int, txs: seq<R.Tx>, g: Guid, tip: int)
    requires Executes(R.Append(h, at, txs), g, tip)
    ensures Executes(h, g, tip) || (tip == at && exists tx <- txs :: !R.Skipped(tx) && tx.guid == g)
    decreases |txs|
  {
    if txs != [] {
      var n := |txs| - 1;
      if !(!R.Skipped(txs[n]) && txs[n].guid == g && at == tip) {
        AppendExecutes(h, at, txs[..n], g, tip);
      } else {
        assert txs[n] in txs;
      }
    }
  }

  /** Blocks before `b` are replayed at lower heights. */
  lemma {:induction false} EarlierTips(blocks: seq<seq<R.Tx>>, b: nat, g: Guid, tip: int)
    requires b <= |blocks| && Executes(R.Before(blocks, b), g, tip)
    ensures tip <= b - 2
    decreases b
  {
    if b > 1 {
      AppendExecutes(R.Before(blocks, b - 1), b - 2, blocks[b - 1], g, tip);
      if Executes(R.Before(blocks, b - 1), g, tip) {
        EarlierTips(blocks, b - 1, g, tip);
      }
    }
  }

  lemma {:induction false} CollectedBefore(p: Params, blocks: seq<seq<R.Tx>>, u: nat, b: nat, tx: R.Tx, deposit: string)
    requires 0 < u < b <= |blocks| && tx in blocks[u] && Collects(tx, deposit)
    requires R.Succeeds(Commands(p), R.Before(blocks, b))
    ensures deposit in After(p, R.Before(blocks, b)).erc20
    decreases b
  {
    var before := R.Before(blocks, b - 1);
    R.AppendSucceeds(Commands(p), before, b - 2, blocks[b - 1]);
    DepositsAfter(p, before, b - 2, blocks[b - 1], deposit);
    if u < b - 1 {
      CollectedBefore(p, blocks, u, b - 1, tx, deposit);
    }
  }

  /** A fee paid in one of the two stretches is missing or of another block after the other. */
  lemma PaidDiffers(p: Params, blocks: seq<seq<R.Tx>>, b: nat, here: seq<R.Tx>, there: seq<R.Tx>, k: nat)
    requires 0 < b <= |blocks| && k < |here| && Pays(here[k]) && Apart(here, there)
    requires R.Succeeds(Commands(p), R.Append(R.Before(blocks, b), b - 1, here))
    requires R.Succeeds(Commands(p), R.Append(R.Before(blocks, b), b - 1, there))
    ensures After(p, R.Append(R.Before(blocks, b), b - 1, here)) !=
            After(p, R.Append(R.Before(blocks, b), b - 1, there))
  {
    var g, other := here[k].guid, R.Append(R.Before(blocks, b), b - 1, there);
    assert here[k] in here;
    NewFeesStay(p, R.Before(blocks, b), b - 1, here, k);
    if g in After(p, other).fees && After(p, other).fees[g].block == b - 1 {
      FeesHaveOrigin(p, other, g);
      AppendExecutes(R.Before(blocks, b), b - 1, there, g, b - 1);
      if Executes(R.Before(blocks, b), g, b - 1) {
        EarlierTips(blocks, b, g, b - 1);
      }
    }
  }

  /** A deposit collected at the start of the new block has not been collected by the block left behind. */
  lemma CollectedDiffers(p: Params, blocks: seq<seq<R.Tx>>, b: nat, here: seq<R.Tx>, there: seq<R.Tx>, tx: R.Tx,
                         deposit: string)
    requires 0 < b <= |blocks| && tx in here && Collects(tx, deposit) && forall y <- there :: !Collects(y, deposit)
    requires R.Succeeds(Commands(p), R.Append(R.Before(blocks, b), b - 1, here))
    requires R.Succeeds(Commands(p), R.Append(R.Before(blocks, b), b - 1, there))
    ensures After(p, R.Append(R.Before(blocks, b), b - 1, here)) !=
            After(p, R.Append(R.Before(blocks, b), b - 1, there))
  {
    DepositsAfter(p, R.Before(blocks, b), b - 1, here, deposit);
    DepositsAfter(p, R.Before(blocks, b), b - 1, there, deposit);
  }

  /** The start of the block left behind, run again, cannot collect anything. */
  lemma NothingAgain(p: Params, blocks: seq<seq<R.Tx>>, u: nat, b: nat, there: seq<R.Tx>, tx: R.Tx, deposit: string)
    requires 0 < u < b <= |blocks| && there <= blocks[u] && tx in there && Collects(tx, deposit)
    requires R.Succeeds(Commands(p), R.Before(blocks, b))
    ensures !R.Succeeds(Commands(p), R.Append(R.Before(blocks, b), b - 1, there))
  {
    if R.Succeeds(Commands(p), R.Append(R.Before(blocks, b), b - 1, there)) {
      var k :| 0 <= k < |there| && there[k] == tx;
      assert blocks[u][k] == tx;
      CollectedBefore(p, blocks, u, b, tx, deposit);
      DepositsAfter(p, R.Before(blocks, b), b - 1, there, deposit);
    }
  }

  /** Executed, and not housekeeping. */
  predicate Busy(tx: R.Tx) {
    !R.Skipped(tx) && !Keeps(tx)
  }

  /** If either start does more than housekeeping, the records differ, or the replay fails. */
  lemma BusyDiffers(p: Params, blocks: seq<seq<R.Tx>>, u: nat, b: nat, here: seq<R.Tx>, there: seq<R.Tx>, tx: R.Tx)
    requires 0 < u < b < |blocks| && here <= blocks[b] && there <= blocks[u] && Apart(here, there)
    requires tx in here + there && Busy(tx)
    requires R.Succeeds(Commands(p), R.Append(R.Before(blocks, b), b - 1, here))
    requires R.Succeeds(Commands(p), R.Append(R.Before(blocks, b), b - 1, there))
    ensures After(p, R.Append(R.Before(blocks, b), b - 1, here)) !=
            After(p, R.Append(R.Before(blocks, b), b - 1, there))
  {
    R.AppendSucceeds(Commands(p), R.Before(blocks, b), b - 1, here);
    if tx in here {
      var k :| 0 <= k < |here| && here[k] == tx;
      if Pays(tx) {
        PaidDiffers(p, blocks, b, here, there, k);
      } else {
        var deposit := tx.payload.cmd.tx;
        forall y | y in there
          ensures !Collects(y, deposit)
        {
          if Collects(y, deposit) {
            NothingAgain(p, blocks, u, b, there, y, deposit);
          }
        }
        CollectedDiffers(p, blocks, b, here, there, tx, deposit);
      }
    } else {
      var k :| 0 <= k < |there| && there[k] == tx;
      if Pays(tx) {
        PaidDiffers(p, blocks, b, there, here, k);
      } else {
        NothingAgain(p, blocks, u, b, there, tx, tx.payload.cmd.tx);
      }
    }
  }

  lemma {:induction false} OpeningOnly(txs: seq<R.Tx>)
    requires txs != [] && !R.Skipped(txs[0]) && R.Idle(txs[1..])
    ensures R.Executed(txs) == [txs[0]]
    decreases |txs|
  {
    var n := |txs| - 1;
    if n > 0 {
      assert txs[..n][1..] == txs[1..][..n - 1] && txs[n] == txs[1..][n - 1];
      assert forall tx <- txs[..n][1..] :: tx in txs[1..];
      OpeningOnly(txs[..n]);
    } else {
      assert R.Executed(txs[..n]) == [];
    }
  }

  /** What the delivered transaction would see. */
  ghost predicate SeesFullReplay(exec: R.Exec, blocks: seq<seq<R.Tx>>, m: R.Machine, b: nat, i: nat)
    requires R.Placed(blocks, m) && m.atBlock < b < |blocks| && i < |blocks[b]| && i <= |blocks[m.atBlock]|
  {
    var s := R.Prepare(exec, blocks, m, b, i);
    s.ok && R.Visible(s.m) == R.NonEmpty(R.Result(exec, R.UpTo(blocks, b, i)))
  }

  /** Both execute housekeeping commands only, for the same blocks in the same order. */
  predicate SameHousekeeping(a: seq<R.Tx>, b: seq<R.Tx>) {
    var x, y := R.Executed(a), R.Executed(b);
    |x| == |y| && forall k | 0 <= k < |x| ::
          Keeps(x[k]) && Keeps(y[k]) && x[k].payload.cmd.blockIdx == y[k].payload.cmd.blockIdx
  }

  /** Blocks as they are published: entering one past its first transaction is harmless exactly when
      neither it nor the block left behind executes anything there but its opening command. */
  lemma LateEntryExactly(p: Params, blocks: seq<seq<R.Tx>>, m: R.Machine, b: nat, i: nat)
    requires R.Exact(Commands(p), blocks, m) && 0 < m.atBlock < b < |blocks| && 0 < i < |blocks[b]| &&
             i <= |blocks[m.atBlock]|
    requires Published(blocks[m.atBlock]) && Published(blocks[b]) && Apart(blocks[m.atBlock], blocks[b])
    requires R.Succeeds(Commands(p), R.UpTo(blocks, b, i))
    ensures SeesFullReplay(Commands(p), blocks, m, b, i) <==> R.Idle(blocks[m.atBlock][1..i]) && R.Idle(blocks[b][1..i])
  {
    var here, there := blocks[b][..i], blocks[m.atBlock][..i];
    assert here[1..] == blocks[b][1..i] && there[1..] == blocks[m.atBlock][1..i];
    if R.Idle(here[1..]) && R.Idle(there[1..]) {
      OpeningOnly(here);
      OpeningOnly(there);
      QuietEntry(p, blocks, m, b, i);
    } else {
      var tx :| tx in here[1..] + there[1..] && !R.Skipped(tx);
      NotKeeping(blocks[b], i, tx);
      NotKeeping(blocks[m.atBlock], i, tx);
      assert tx in here || tx in there;
      BusyEntry(p, blocks, m, b, i, tx);
    }
  }

  lemma SameEntry(exec: R.Exec, blocks: seq<seq<R.Tx>>, m: R.Machine, b: nat, i: nat)
    requires R.Exact(exec, blocks, m) && m.atBlock < b < |blocks| && i < |blocks[b]| && i <= |blocks[m.atBlock]|
    requires R.Succeeds(exec, R.UpTo(blocks, b, i))
    requires R.SameEffect(exec, R.Append(R.Before(blocks, b), b - 1, blocks[m.atBlock][..i]), R.UpTo(blocks, b, i))
    ensures SeesFullReplay(exec, blocks, m, b, i)
  {
    var code := R.Append(R.Before(blocks, b), b - 1, blocks[m.atBlock][..i]);
    R.AppendSucceeds(exec, R.Before(blocks, b), b - 1, blocks[b][..i]);
    R.LateEntry(exec, blocks, m, b, i);
    R.HoldsOverlay(exec, R.Prepare(exec, blocks, m, b, i).m, code);
  }

  lemma SameKeepingEffect(p: Params, h: R.History, tip: nat, there: seq<R.Tx>, here: seq<R.Tx>)
    requires SameHousekeeping(there, here)
    ensures R.SameEffect(Commands(p), R.Append(h, tip, there), R.Append(h, tip, here))
  {
    var x, y := R.Executed(there), R.Executed(here);
    forall k | 0 <= k < |x|
      ensures R.Alike(Commands(p), tip, x[k], y[k])
    {
      KeepsAlike(p, tip, x[k], y[k]);
    }
    R.AlikeStretches(Commands(p), h, tip, there, here);
  }

  /** Starts with the same housekeeping, and any blocks otherwise: a late entry is harmless. */
  lemma QuietEntry(p: Params, blocks: seq<seq<R.Tx>>, m: R.Machine, b: nat, i: nat)
    requires R.Exact(Commands(p), blocks, m) && m.atBlock < b < |blocks| && i < |blocks[b]| && i <= |blocks[m.atBlock]|
    requires SameHousekeeping(blocks[m.atBlock][..i], blocks[b][..i]) && R.Succeeds(Commands(p), R.UpTo(blocks, b, i))
    ensures SeesFullReplay(Commands(p), blocks, m, b, i)
  {
    var here, there := blocks[b][..i], blocks[m.atBlock][..i];
    SameKeepingEffect(p, R.Before(blocks, b), b - 1, there, here);
    assert R.UpTo(blocks, b, i) == R.Append(R.Before(blocks, b), b - 1, here);
    SameEntry(Commands(p), blocks, m, b, i);
  }

  /** Any blocks without a common nonce: as soon as one of the two starts executes anything but
      housekeeping, a late entry goes wrong. */
  lemma BusyEntry(p: Params, blocks: seq<seq<R.Tx>>, m: R.Machine, b: nat, i: nat, tx: R.Tx)
    requires R.Exact(Commands(p), blocks, m) && 0 < m.atBlock < b < |blocks| && i < |blocks[b]| &&
             i <= |blocks[m.atBlock]|
    requires Apart(blocks[m.atBlock], blocks[b]) && R.Succeeds(Commands(p), R.UpTo(blocks, b, i))
    requires (tx in blocks[b][..i] || tx in blocks[m.atBlock][..i]) && Busy(tx)
    ensures !SeesFullReplay(Commands(p), blocks, m, b, i)
  {
    var here, there := blocks[b][..i], blocks[m.atBlock][..i];
    var code := R.Append(R.Before(blocks, b), b - 1, there);
    R.AppendSucceeds(Commands(p), R.Before(blocks, b), b - 1, here);
    R.LateEntry(Commands(p), blocks, m, b, i);
    if R.Succeeds(Commands(p), code) {
      StretchesApart(blocks[m.atBlock], blocks[b], i);
      BusyDiffers(p, blocks, m.atBlock, b, here, there, tx);
      HistoryIsRun(p, code);
      HistoryIsRun(p, R.UpTo(blocks, b, i));
      R.HoldsOverlay(Commands(p), R.Prepare(Commands(p), blocks, m, b, i).m, code);
      if Encode(After(p, code)) == Encode(After(p, R.UpTo(blocks, b, i))) {
        EncodedOnce(After(p, code), After(p, R.UpTo(blocks, b, i)));
      }
    }
  }

  lemma NotKeeping(txs: seq<R.Tx>, i: nat, tx: R.Tx)
    requires Published(txs) && 0 < i <= |txs|
    ensures tx in txs[..i][1..] ==> !Keeps(tx)
  {
    if tx in txs[..i][1..] {
      var k :| 0 <= k < i - 1 && txs[..i][1..][k] == tx;
      assert txs[k + 1] == tx;
    }
  }

  lemma StretchesApart(a: seq<R.Tx>, b: seq<R.Tx>, i: nat)
    requires Apart(a, b) && i <= |a| && i <= |b|
    ensures Apart(b[..i], a[..i])
  {
    assert forall x <- b[..i] :: x in b;
    assert forall x <- a[..i] :: x in a;
  }
}
