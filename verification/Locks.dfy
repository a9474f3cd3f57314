/** Who may still change a deal. */
module Locks {
  import opened Wrappers
  import opened Ledgers
  import opened Handlers
  import opened Upkeep
  import opened Frames

  predicate DealDisciplined(deal: Deal) {
    deal.sighash != "" && (deal.lock != "" ==> deal.loan.Some?)
  }

  predicate OnActiveLoan(s: Ledger, repayment: Repayment) {
    repayment.deal in s.deals && s.deals[repayment.deal].loan.Some?
  }

  /** A lock needs a loan, and a repayment order refers to a deal whose loan was paid out. */
  ghost predicate Disciplined(s: Ledger) {
    (forall d <- s.deals :: DealDisciplined(s.deals[d])) &&
    (forall r <- s.repayments :: OnActiveLoan(s, s.repayments[r]))
  }

  lemma NewDealDisciplined(s: Ledger, c: Context, offer: OfferId, expiration: nat)
    requires Disciplined(s) && OnAddDealOrder(s, c, offer, expiration).Some?
    ensures Disciplined(OnAddDealOrder(s, c, offer, expiration).value)
  {
    assert forall r <- s.repayments :: OnActiveLoan(s, s.repayments[r]);
  }

  lemma OneDealDisciplined(s: Ledger, u: Ledger, d: DealId)
    requires Disciplined(s) && d in s.deals && d in u.deals && u.deals == s.deals[d := u.deals[d]] &&
             u.repayments == s.repayments
    requires DealDisciplined(u.deals[d]) && (s.deals[d].loan.Some? ==> u.deals[d].loan.Some?)
    ensures Disciplined(u)
  {
    assert forall r <- s.repayments :: OnActiveLoan(s, s.repayments[r]);
  }

  lemma OrdersDisciplined(s: Ledger, c: Context, cmd: Command)
    requires cmd.CompleteDealOrder? || cmd.LockDealOrder? || cmd.CloseDealOrder? || cmd.Exempt?
    requires Disciplined(s) && Step(s, c, cmd).Some?
    ensures Disciplined(Step(s, c, cmd).value)
  {
    assert DealDisciplined(s.deals[cmd.deal]);
    match cmd
    case CompleteDealOrder(d, t) => OneDealDisciplined(s, OnCompleteDealOrder(s, c, d, t).value, d);
    case LockDealOrder(d) => OneDealDisciplined(s, OnLockDealOrder(s, c, d).value, d);
    case CloseDealOrder(d, t) => OneDealDisciplined(s, OnCloseDealOrder(s, c, d, t).value, d);
    case Exempt(d, t) => OneDealDisciplined(s, OnExempt(s, c, d, t).value, d);
  }

  lemma AddingDisciplined(s: Ledger, c: Context, d: DealId, address: AddressId, amount: string, expiration: nat)
    requires Disciplined(s) && OnAddRepaymentOrder(s, c, d, address, amount, expiration).Some?
    ensures Disciplined(OnAddRepaymentOrder(s, c, d, address, amount, expiration).value)
  {
    assert forall r <- s.repayments :: OnActiveLoan(s, s.repayments[r]);
  }

  /** One repayment order and its deal change, but neither which deal it is nor whether that has a loan. */
  lemma OneRepaymentDisciplined(s: Ledger, u: Ledger, r: RepaymentId)
    requires Disciplined(s) && r in s.repayments && r in u.repayments &&
             u.repayments == s.repayments[r := u.repayments[r]]
    requires var d := s.repayments[r].deal;
             u.repayments[r].deal == d && d in s.deals && d in u.deals && u.deals == s.deals[d := u.deals[d]] &&
             u.deals[d].sighash == s.deals[d].sighash && u.deals[d].loan == s.deals[d].loan
    ensures Disciplined(u)
  {
    assert forall q <- s.repayments :: OnActiveLoan(s, s.repayments[q]);
    assert OnActiveLoan(s, s.repayments[r]);
  }

  lemma RepaymentsDisciplined(s: Ledger, c: Context, cmd: Command)
    requires cmd.AddRepaymentOrder? || cmd.CompleteRepaymentOrder? || cmd.CloseRepaymentOrder?
    requires Disciplined(s) && Step(s, c, cmd).Some?
    ensures Disciplined(Step(s, c, cmd).value)
  {
    match cmd
    case AddRepaymentOrder(d, address, amount, expiration) => AddingDisciplined(s, c, d, address, amount, expiration);
    case CompleteRepaymentOrder(r) => OneRepaymentDisciplined(s, OnCompleteRepaymentOrder(s, c, r).value, r);
    case CloseRepaymentOrder(r, t) => OneRepaymentDisciplined(s, OnCloseRepaymentOrder(s, c, r, t).value, r);
  }

  lemma NextDisciplined(s: Ledger, tx: Tx)
    requires Disciplined(s)
    ensures Disciplined(Next(s, tx))
  {
    var cmd := tx.cmd;
    if Step(s, tx.c, cmd).Some? {
      if Quiet(cmd) {
        QuietFrame(s, tx.c, cmd);
      } else if cmd.Housekeeping? {
        HousekeepingFrame(s, tx.c, cmd);
      } else if cmd.AddRepaymentOrder? || cmd.CompleteRepaymentOrder? || cmd.CloseRepaymentOrder? {
        RepaymentsDisciplined(s, tx.c, cmd);
      } else if cmd.AddDealOrder? {
        NewDealDisciplined(s, tx.c, cmd.offer, cmd.expiration);
      } else {
        OrdersDisciplined(s, tx.c, cmd);
      }
    }
  }

  /** In every reachable ledger a locked deal has its loan paid out. */
  lemma {:induction false} RunDisciplined(txs: seq<Tx>)
    ensures Disciplined(Run(EMPTY, txs))
  {
    if txs != [] {
      RunDisciplined(txs[..|txs| - 1]);
      NextDisciplined(Run(EMPTY, txs[..|txs| - 1]), txs[|txs| - 1]);
    }
  }

  // ----- the fundraiser's lock -----

  /** The fundraiser holds the lock while the money came from somebody else's address. */
  predicate Frozen(s: Ledger, d: DealId) {
    d in s.deals && s.deals[d].lock == s.deals[d].sighash && s.deals[d].src in s.addresses &&
    s.addresses[s.deals[d].src].sighash != s.deals[d].sighash
  }

  predicate SamePlace(s: Ledger, u: Ledger, d: DealId) {
    d in s.deals && d in u.deals && u.deals[d].lock == s.deals[d].lock && u.deals[d].src == s.deals[d].src &&
    u.deals[d].sighash == s.deals[d].sighash
  }

  predicate Unmoved(s: Ledger, u: Ledger, d: DealId) {
    SamePlace(s, u, d) && s.deals[d].src in s.addresses && s.deals[d].src in u.addresses &&
    u.addresses[s.deals[d].src] == s.addresses[s.deals[d].src]
  }

  lemma DealsUnmoved(s: Ledger, c: Context, cmd: Command, d: DealId)
    requires !Quiet(cmd) && !cmd.Housekeeping?
    requires Disciplined(s) && Frozen(s, d) && Step(s, c, cmd).Some?
    ensures Unmoved(s, Step(s, c, cmd).value, d)
  {
    AddressFrame(s, c, cmd);
    if cmd.AddRepaymentOrder? || cmd.CompleteRepaymentOrder? || cmd.CloseRepaymentOrder? {
      RepaymentsUnmoved(s, c, cmd, d);
    } else {
      OrdersUnmoved(s, c, cmd, d);
    }
  }

  /** At most one deal changes, and not where this one stands. */
  lemma OneDealUnmoved(s: Ledger, u: Ledger, e: DealId, d: DealId)
    requires d in s.deals && e in u.deals && u.deals == s.deals[e := u.deals[e]]
    requires e == d ==>
               u.deals[d].lock == s.deals[d].lock && u.deals[d].src == s.deals[d].src &&
               u.deals[d].sighash == s.deals[d].sighash
    ensures SamePlace(s, u, d)
  {
  }

  lemma RepaymentsUnmoved(s: Ledger, c: Context, cmd: Command, d: DealId)
    requires cmd.AddRepaymentOrder? || cmd.CompleteRepaymentOrder? || cmd.CloseRepaymentOrder?
    requires Disciplined(s) && Frozen(s, d) && Step(s, c, cmd).Some?
    ensures SamePlace(s, Step(s, c, cmd).value, d)
  {
    assert DealDisciplined(s.deals[d]);
    match cmd
    case AddRepaymentOrder(_, _, _, _) => NewOrderUnmoved(s, c, cmd);
    case CompleteRepaymentOrder(r) => AnswerUnmoved(s, c, r, d);
    case CloseRepaymentOrder(r, t) => TakeoverUnmoved(s, c, r, t, d);
  }

  lemma NewOrderUnmoved(s: Ledger, c: Context, cmd: Command)
    requires cmd.AddRepaymentOrder? && Step(s, c, cmd).Some?
    ensures Step(s, c, cmd).value.deals == s.deals
  {
  }

  /** The deal is locked already. */
  lemma AnswerUnmoved(s: Ledger, c: Context, r: RepaymentId, d: DealId)
    requires d in s.deals && s.deals[d].lock != "" && OnCompleteRepaymentOrder(s, c, r).Some?
    ensures SamePlace(s, OnCompleteRepaymentOrder(s, c, r).value, d)
  {
    OneDealUnmoved(s, OnCompleteRepaymentOrder(s, c, r).value, s.repayments[r].deal, d);
  }

  /** The lock is not the source's. */
  lemma TakeoverUnmoved(s: Ledger, c: Context, r: RepaymentId, t: TransferId, d: DealId)
    requires Frozen(s, d) && OnCloseRepaymentOrder(s, c, r, t).Some?
    ensures SamePlace(s, OnCloseRepaymentOrder(s, c, r, t).value, d)
  {
    OneDealUnmoved(s, OnCloseRepaymentOrder(s, c, r, t).value, s.repayments[r].deal, d);
  }

  lemma OrdersUnmoved(s: Ledger, c: Context, cmd: Command, d: DealId)
    requires cmd.AddDealOrder? || cmd.CompleteDealOrder? || cmd.LockDealOrder? || cmd.CloseDealOrder? || cmd.Exempt?
    requires Disciplined(s) && Frozen(s, d) && Step(s, c, cmd).Some?
    ensures SamePlace(s, Step(s, c, cmd).value, d)
  {
    assert DealDisciplined(s.deals[d]);
    if cmd.CloseDealOrder? || cmd.Exempt? {
      RepaidUnmoved(s, c, cmd, d);
    } else {
      LoanUnmoved(s, c, cmd, d);
    }
  }

  lemma RepaidUnmoved(s: Ledger, c: Context, cmd: Command, d: DealId)
    requires (cmd.CloseDealOrder? || cmd.Exempt?) && d in s.deals && Step(s, c, cmd).Some?
    ensures SamePlace(s, Step(s, c, cmd).value, d)
  {
    OneDealUnmoved(s, Step(s, c, cmd).value, cmd.deal, d);
  }

  lemma LoanUnmoved(s: Ledger, c: Context, cmd: Command, d: DealId)
    requires cmd.AddDealOrder? || cmd.CompleteDealOrder? || cmd.LockDealOrder?
    requires d in s.deals && s.deals[d].lock != "" && Step(s, c, cmd).Some?
    ensures SamePlace(s, Step(s, c, cmd).value, d)
  {
    match cmd
    case AddDealOrder(o, expiration) => OneDealUnmoved(s, OnAddDealOrder(s, c, o, expiration).value, DealId(o), d);
    case CompleteDealOrder(e, t) => OneDealUnmoved(s, OnCompleteDealOrder(s, c, e, t).value, e, d);
    case LockDealOrder(e) => OneDealUnmoved(s, OnLockDealOrder(s, c, e).value, e, d);
  }

  lemma NextUnmoved(s: Ledger, tx: Tx, d: DealId)
    requires Disciplined(s) && Frozen(s, d)
    ensures Unmoved(s, Next(s, tx), d) && Frozen(Next(s, tx), d)
  {
    if Step(s, tx.c, tx.cmd).Some? {
      if Quiet(tx.cmd) {
        QuietFrame(s, tx.c, tx.cmd);
      } else if tx.cmd.Housekeeping? {
        HousekeepingFrame(s, tx.c, tx.cmd);
      } else {
        DealsUnmoved(s, tx.c, tx.cmd, d);
      }
    }
  }

  /** Once frozen, whatever happens next, neither the lock nor the source of the deal changes. */
  lemma {:induction false} FrozenForever(txs: seq<Tx>, more: seq<Tx>, d: DealId)
    requires Frozen(Run(EMPTY, txs), d)
    ensures Unmoved(Run(EMPTY, txs), Run(Run(EMPTY, txs), more), d)
    ensures Disciplined(Run(Run(EMPTY, txs), more)) && Frozen(Run(Run(EMPTY, txs), more), d)
    decreases |more|
  {
    RunDisciplined(txs);
    if more != [] {
      var n := |more| - 1;
      FrozenForever(txs, more[..n], d);
      NextUnmoved(Run(Run(EMPTY, txs), more[..n]), more[n], d);
      NextDisciplined(Run(Run(EMPTY, txs), more[..n]), more[n]);
    }
  }
}
