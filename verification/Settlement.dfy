/** Every transfer settles at most one debt. */
module Settlement {
  import opened Wrappers
  import opened Ledgers
  import opened Handlers
  import opened Upkeep
  import opened Frames

  /** A processed transfer that was registered for this very order. */
  predicate Settles(s: Ledger, t: TransferId, order: OrderRef) {
    t in s.transfers && s.transfers[t].processed && s.transfers[t].order == order
  }

  predicate DealSettled(s: Ledger, d: DealId, deal: Deal) {
    (deal.loan.Some? ==>
     Settles(s, deal.loan.value, ToDeal(d)) && s.transfers[deal.loan.value].amount == deal.amount) &&
    (deal.repayment.Some? ==> Settles(s, deal.repayment.value, ToDeal(d))) &&
    (deal.loan.Some? ==> deal.loan != deal.repayment)
  }

  predicate RepaymentSettled(s: Ledger, r: RepaymentId, repayment: Repayment) {
    repayment.transfer.Some? ==> Settles(s, repayment.transfer.value, ToRepayment(r))
  }

  ghost predicate Settled(s: Ledger) {
    (forall d <- s.deals :: DealSettled(s, d, s.deals[d])) &&
    (forall r <- s.repayments :: RepaymentSettled(s, r, s.repayments[r]))
  }

  /** Transfers are never forgotten, never change hands, and stay processed. */
  ghost predicate TransfersKept(s: Ledger, u: Ledger) {
    forall t <- s.transfers :: t in u.transfers &&
      u.transfers[t].order == s.transfers[t].order && u.transfers[t].amount == s.transfers[t].amount &&
      (s.transfers[t].processed ==> u.transfers[t].processed)
  }

  /** The transfer a command uses up, if any. */
  function Used(cmd: Command): Option<TransferId> {
    match cmd
    case CompleteDealOrder(_, t) => Some(t)
    case CloseDealOrder(_, t) => Some(t)
    case Exempt(_, t) => Some(t)
    case CloseRepaymentOrder(_, t) => Some(t)
    case _ => None
  }

  // ----- one step -----

  lemma KeptKeepsTransfers(s: Ledger, c: Context, cmd: Command)
    requires Used(cmd).None? && Step(s, c, cmd).Some?
    ensures TransfersKept(s, Step(s, c, cmd).value)
  {
    if Quiet(cmd) {
      QuietFrame(s, c, cmd);
    } else if cmd.Housekeeping? {
      HousekeepingFrame(s, c, cmd);
    } else {
      DealsKeepTransfers(s, c, cmd);
    }
  }

  lemma DealsKeepTransfers(s: Ledger, c: Context, cmd: Command)
    requires cmd.AddDealOrder? || cmd.LockDealOrder? || cmd.AddRepaymentOrder? || cmd.CompleteRepaymentOrder?
    requires Step(s, c, cmd).Some?
    ensures Step(s, c, cmd).value.transfers == s.transfers
  {
  }

  /** A transfer is used once: it must be unprocessed before and is processed after. */
  lemma UsedKeepsTransfers(s: Ledger, c: Context, cmd: Command)
    requires Used(cmd).Some? && Step(s, c, cmd).Some?
    ensures TransfersKept(s, Step(s, c, cmd).value)
    ensures var t := Used(cmd).value;
            t in s.transfers && !s.transfers[t].processed && t in Step(s, c, cmd).value.transfers &&
            Step(s, c, cmd).value.transfers == Processed(s, t).transfers
  {
  }

  /** Slots stay settled when no deal or repayment order gains one. */
  lemma SettledFrame(s: Ledger, u: Ledger)
    requires Settled(s) && TransfersKept(s, u)
    requires forall d <- u.deals :: DealSettled(u, d, u.deals[d]) ||
               (d in s.deals && u.deals[d].loan == s.deals[d].loan && u.deals[d].repayment == s.deals[d].repayment &&
                u.deals[d].amount == s.deals[d].amount)
    requires forall r <- u.repayments :: RepaymentSettled(u, r, u.repayments[r]) ||
               (r in s.repayments && u.repayments[r].transfer == s.repayments[r].transfer)
    ensures Settled(u)
  {
    assert forall d <- u.deals :: d in s.deals ==> DealSettled(s, d, s.deals[d]);
    assert forall r <- u.repayments :: r in s.repayments ==> RepaymentSettled(s, r, s.repayments[r]);
  }

  lemma OneDealSettled(s: Ledger, u: Ledger, d: DealId)
    requires Settled(s) && TransfersKept(s, u) && d in u.deals && u.deals == s.deals[d := u.deals[d]]
    requires u.repayments == s.repayments && DealSettled(u, d, u.deals[d])
    ensures Settled(u)
  {
    SettledFrame(s, u);
  }

  lemma CompletingSettles(s: Ledger, c: Context, d: DealId, t: TransferId)
    requires Settled(s) && OnCompleteDealOrder(s, c, d, t).Some?
    ensures Settled(OnCompleteDealOrder(s, c, d, t).value)
  {
    UsedKeepsTransfers(s, c, CompleteDealOrder(d, t));
    assert DealSettled(s, d, s.deals[d]);
    OneDealSettled(s, OnCompleteDealOrder(s, c, d, t).value, d);
  }

  /** The repayment slot is filled with a transfer that was not processed yet. */
  lemma RepayingSettles(s: Ledger, u: Ledger, d: DealId, t: TransferId)
    requires Settled(s) && d in s.deals && Waiting(s, t, ToDeal(d)) && u.transfers == Processed(s, t).transfers
    requires u.deals == s.deals[d := s.deals[d].(repayment := Some(t))] && u.repayments == s.repayments
    ensures Settled(u)
  {
    assert DealSettled(s, d, s.deals[d]);
    OneDealSettled(s, u, d);
  }

  lemma TakingOverSettles(s: Ledger, c: Context, r: RepaymentId, t: TransferId)
    requires Settled(s) && OnCloseRepaymentOrder(s, c, r, t).Some?
    ensures Settled(OnCloseRepaymentOrder(s, c, r, t).value)
  {
    var u := OnCloseRepaymentOrder(s, c, r, t).value;
    UsedKeepsTransfers(s, c, CloseRepaymentOrder(r, t));
    assert RepaymentSettled(u, r, u.repayments[r]);
    SettledFrame(s, u);
  }

  lemma UsingSettles(s: Ledger, c: Context, cmd: Command)
    requires Settled(s) && Used(cmd).Some? && Step(s, c, cmd).Some?
    ensures Settled(Step(s, c, cmd).value)
  {
    match cmd
    case CompleteDealOrder(d, t) => CompletingSettles(s, c, d, t);
    case CloseDealOrder(d, t) => RepayingSettles(s, OnCloseDealOrder(s, c, d, t).value, d, t);
    case Exempt(d, t) => RepayingSettles(s, OnExempt(s, c, d, t).value, d, t);
    case CloseRepaymentOrder(r, t) => TakingOverSettles(s, c, r, t);
  }

  lemma OthersStaySettled(s: Ledger, c: Context, cmd: Command)
    requires Settled(s) && Used(cmd).None? && Step(s, c, cmd).Some?
    ensures Settled(Step(s, c, cmd).value)
  {
    KeptKeepsTransfers(s, c, cmd);
    NoSlotGained(s, c, cmd);
    SettledFrame(s, Step(s, c, cmd).value);
  }

  /** Deals and repayment orders are new and empty, or keep what their slots hold. */
  ghost predicate SlotsKept(s: Ledger, u: Ledger) {
    (forall d <- u.deals :: (u.deals[d].loan.None? && u.deals[d].repayment.None?) ||
       (d in s.deals && u.deals[d].loan == s.deals[d].loan && u.deals[d].repayment == s.deals[d].repayment &&
        u.deals[d].amount == s.deals[d].amount)) &&
    (forall r <- u.repayments :: u.repayments[r].transfer.None? ||
       (r in s.repayments && u.repayments[r].transfer == s.repayments[r].transfer))
  }

  lemma NoSlotGained(s: Ledger, c: Context, cmd: Command)
    requires Used(cmd).None? && Step(s, c, cmd).Some?
    ensures SlotsKept(s, Step(s, c, cmd).value)
  {
    if Quiet(cmd) {
      QuietFrame(s, c, cmd);
    } else if cmd.Housekeeping? {
      HousekeepingFrame(s, c, cmd);
    } else {
      DealsGainNoSlot(s, c, cmd);
    }
  }

  lemma OneDealGainsNoSlot(s: Ledger, u: Ledger, d: DealId)
    requires d in u.deals && u.deals == s.deals[d := u.deals[d]] && u.repayments == s.repayments
    requires var deal := u.deals[d];
             (deal.loan.None? && deal.repayment.None?) ||
             (d in s.deals && deal.loan == s.deals[d].loan && deal.repayment == s.deals[d].repayment &&
              deal.amount == s.deals[d].amount)
    ensures SlotsKept(s, u)
  {
  }

  lemma AnswerGainsNoSlot(s: Ledger, c: Context, r: RepaymentId)
    requires OnCompleteRepaymentOrder(s, c, r).Some?
    ensures SlotsKept(s, OnCompleteRepaymentOrder(s, c, r).value)
  {
  }

  lemma DealsGainNoSlot(s: Ledger, c: Context, cmd: Command)
    requires cmd.AddDealOrder? || cmd.LockDealOrder? || cmd.AddRepaymentOrder? || cmd.CompleteRepaymentOrder?
    requires Step(s, c, cmd).Some?
    ensures SlotsKept(s, Step(s, c, cmd).value)
  {
    match cmd
    case AddDealOrder(o, expiration) => OneDealGainsNoSlot(s, OnAddDealOrder(s, c, o, expiration).value, DealId(o));
    case LockDealOrder(d) => OneDealGainsNoSlot(s, OnLockDealOrder(s, c, d).value, d);
    case AddRepaymentOrder(_, _, _, _) => NewOrderGainsNoSlot(s, c, cmd);
    case CompleteRepaymentOrder(r) => AnswerGainsNoSlot(s, c, r);
  }

  lemma NewOrderGainsNoSlot(s: Ledger, c: Context, cmd: Command)
    requires cmd.AddRepaymentOrder? && Step(s, c, cmd).Some?
    ensures SlotsKept(s, Step(s, c, cmd).value)
  {
  }

  lemma NextSettled(s: Ledger, tx: Tx)
    requires Settled(s)
    ensures Settled(Next(s, tx)) && TransfersKept(s, Next(s, tx))
  {
    if Step(s, tx.c, tx.cmd).Some? {
      if Used(tx.cmd).Some? {
        UsingSettles(s, tx.c, tx.cmd);
        UsedKeepsTransfers(s, tx.c, tx.cmd);
      } else {
        OthersStaySettled(s, tx.c, tx.cmd);
        KeptKeepsTransfers(s, tx.c, tx.cmd);
      }
    }
  }

  // ----- whole runs -----

  /** In every reachable ledger each filled slot names a processed transfer of its own order,
      and every loan transfer moved exactly the deal's amount. */
  lemma {:induction false} RunSettled(txs: seq<Tx>)
    ensures Settled(Run(EMPTY, txs))
  {
    if txs != [] {
      RunSettled(txs[..|txs| - 1]);
      NextSettled(Run(EMPTY, txs[..|txs| - 1]), txs[|txs| - 1]);
    }
  }

  datatype Slot = LoanOf(deal: DealId) | RepaymentOf(deal: DealId) | TakeoverOf(repayment: RepaymentId)

  /** The transfer in a slot. */
  function Filler(s: Ledger, slot: Slot): Option<TransferId> {
    match slot
    case LoanOf(d) => var deal :- Get(s.deals, d); deal.loan
    case RepaymentOf(d) => var deal :- Get(s.deals, d); deal.repayment
    case TakeoverOf(r) => var repayment :- Get(s.repayments, r); repayment.transfer
  }

  /** No transfer fills two slots. */
  lemma SlotsDistinct(txs: seq<Tx>, a: Slot, b: Slot)
    requires a != b && Filler(Run(EMPTY, txs), a).Some?
    ensures Filler(Run(EMPTY, txs), a) != Filler(Run(EMPTY, txs), b)
  {
    RunSettled(txs);
    var s := Run(EMPTY, txs);
    if a.TakeoverOf? {
      assert RepaymentSettled(s, a.repayment, s.repayments[a.repayment]);
    } else {
      assert DealSettled(s, a.deal, s.deals[a.deal]);
    }
    if Filler(s, b).Some? {
      if b.TakeoverOf? {
        assert RepaymentSettled(s, b.repayment, s.repayments[b.repayment]);
      } else {
        assert DealSettled(s, b.deal, s.deals[b.deal]);
      }
    }
  }

  /** The transfers used up along a run, in order. */
  ghost function UsedIn(s: Ledger, txs: seq<Tx>): seq<TransferId> {
    if txs == [] then []
    else
      var n := |txs| - 1;
      var before := Run(s, txs[..n]);
      UsedIn(s, txs[..n]) +
      (if Step(before, txs[n].c, txs[n].cmd).Some? && Used(txs[n].cmd).Some? then [Used(txs[n].cmd).value] else [])
  }

  /** Once used, a transfer stays processed, so it is never used again: not even to refill a slot
      that was overwritten or a deal that was swept away. */
  lemma {:induction false} UsedOnce(txs: seq<Tx>)
    ensures forall t <- UsedIn(EMPTY, txs) :: t in Run(EMPTY, txs).transfers && Run(EMPTY, txs).transfers[t].processed
    ensures forall i, j | 0 <= i < j < |UsedIn(EMPTY, txs)| :: UsedIn(EMPTY, txs)[i] != UsedIn(EMPTY, txs)[j]
  {
    if txs != [] {
      var n := |txs| - 1;
      UsedOnce(txs[..n]);
      var before := Run(EMPTY, txs[..n]);
      RunSettled(txs[..n]);
      NextSettled(before, txs[n]);
      if Step(before, txs[n].c, txs[n].cmd).Some? && Used(txs[n].cmd).Some? {
        UsedKeepsTransfers(before, txs[n].c, txs[n].cmd);
      }
    }
  }
}
