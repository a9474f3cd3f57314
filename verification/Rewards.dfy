/** Mining rewards along whole runs. */
module Rewards {
  import opened Wrappers
  import opened Ledgers
  import opened Handlers
  import opened Upkeep
  import opened Conservation

  /** Every award of a run, in order. */
  ghost function AwardsIn(s: Ledger, txs: seq<Tx>): seq<Award> {
    if txs == [] then []
    else
      var n := |txs| - 1;
      AwardsIn(s, txs[..n]) + AwardsOf(Run(s, txs[..n]), txs[n].c, txs[n].cmd)
  }

  /** The signers of the blocks at heights `first` to `last`. */
  function Signers(signerOf: nat -> Sighash, first: nat, last: nat): seq<Sighash>
    requires first <= last
  {
    seq(last + 1 - first, k requires 0 <= k => signerOf(first + k))
  }

  /** One award for each height above `from` and up to `to`, ascending, to the signer of its block. */
  ghost predicate Covers(awards: seq<Award>, from: nat, to: nat, signerOf: nat -> Sighash) {
    from <= to && |awards| == to - from &&
    forall k | 0 <= k < |awards| :: awards[k].height == from + 1 + k && awards[k].signer == signerOf(from + 1 + k)
  }

  lemma CoversJoin(a: seq<Award>, b: seq<Award>, p: nat, q: nat, signerOf: nat -> Sighash)
    requires Covers(a, 0, p, signerOf) && Covers(b, p, q, signerOf)
    ensures Covers(a + b, 0, q, signerOf)
  {
  }

  lemma LiveAwards(c: Context, processed: nat, upto: nat, reply: Option<seq<Sighash>>, signerOf: nat -> Sighash)
    requires c.mode.Live? && (upto == 0 || processed < upto)
    requires reply == Some(Signers(signerOf, processed + 1, LastHeight(processed, upto)))
    ensures Covers(Awards(c, processed, upto, reply).value, processed, LastHeight(processed, upto), signerOf)
  {
  }

  /** A live transaction whose reward request, if it makes one, is answered with the signers of
      the blocks asked for, lowest first. */
  ghost predicate Honest(s: Ledger, tx: Tx, signerOf: nat -> Sighash) {
    tx.c.mode.Live? &&
    (tx.cmd.Housekeeping? && tx.cmd.reply.Some? ==>
       var first, last := s.processed + 1, LastHeight(s.processed, tx.cmd.blockIdx);
       (first <= last ==> tx.cmd.reply.value == Signers(signerOf, first, last)))
  }

  ghost predicate AllHonest(s: Ledger, txs: seq<Tx>, signerOf: nat -> Sighash) {
    forall i | 0 <= i < |txs| :: Honest(Run(s, txs[..i]), txs[i], signerOf)
  }

  /** Only housekeeping moves the processed height. */
  lemma OthersKeepProcessed(s: Ledger, c: Context, cmd: Command)
    requires !cmd.Housekeeping? && Step(s, c, cmd).Some?
    ensures Step(s, c, cmd).value.processed == s.processed
  {
  }

  /** Housekeeping asks for rewards when it is accepted and due. */
  ghost predicate Rewarding(s: Ledger, c: Context, cmd: Command) {
    cmd.Housekeeping? && Step(s, c, cmd).Some? &&
    if cmd.blockIdx == 0 then BatchDue(s, c) else SweepDue(s, c, cmd.blockIdx)
  }

  /** In every mode the processed height moves exactly when housekeeping asks for rewards, to the
      last height asked for: forward, and to a confirmed height. */
  lemma ProcessedRises(s: Ledger, tx: Tx)
    ensures Next(s, tx).processed ==
            if Rewarding(s, tx.c, tx.cmd) then LastHeight(s.processed, tx.cmd.blockIdx) else s.processed
    ensures s.processed <= Next(s, tx).processed
    ensures Rewarding(s, tx.c, tx.cmd) <==> s.processed < Next(s, tx).processed
    ensures s.processed < Next(s, tx).processed ==> Next(s, tx).processed < tx.c.Head() - CONFIRMATION_COUNT
  {
    if Step(s, tx.c, tx.cmd).Some? && !tx.cmd.Housekeeping? {
      OthersKeepProcessed(s, tx.c, tx.cmd);
    }
  }

  /** A live step with an honest reply awards exactly the heights it moves over, ascending. */
  lemma NextRewards(s: Ledger, tx: Tx, signerOf: nat -> Sighash)
    requires Honest(s, tx, signerOf)
    ensures Covers(AwardsOf(s, tx.c, tx.cmd), s.processed, Next(s, tx).processed, signerOf)
  {
    ProcessedRises(s, tx);
    if Rewarding(s, tx.c, tx.cmd) {
      LiveAwards(tx.c, s.processed, tx.cmd.blockIdx, tx.cmd.reply, signerOf);
    }
  }

  /** Live, every height up to the processed one has been rewarded exactly once, to the signer
      of its own block, lowest height first. */
  lemma {:induction false} RewardedOnce(txs: seq<Tx>, signerOf: nat -> Sighash)
    requires AllHonest(EMPTY, txs, signerOf)
    ensures Covers(AwardsIn(EMPTY, txs), 0, Run(EMPTY, txs).processed, signerOf)
  {
    if txs != [] {
      var n := |txs| - 1;
      assert txs[..n] == txs[..n][..n];
      forall i | 0 <= i < n
        ensures Honest(Run(EMPTY, txs[..n][..i]), txs[..n][i], signerOf)
      {
        assert txs[..n][..i] == txs[..i];
      }
      RewardedOnce(txs[..n], signerOf);
      assert Honest(Run(EMPTY, txs[..n]), txs[n], signerOf);
      NextRewards(Run(EMPTY, txs[..n]), txs[n], signerOf);
      CoversJoin(AwardsIn(EMPTY, txs[..n]), AwardsOf(Run(EMPTY, txs[..n]), txs[n].c, txs[n].cmd),
                 Run(EMPTY, txs[..n]).processed, Run(EMPTY, txs).processed, signerOf);
    }
  }

  /** The chain's head only moves forward. */
  ghost predicate HeadsRise(txs: seq<Tx>) {
    forall i, j | 0 <= i < j < |txs| :: txs[i].c.Head() <= txs[j].c.Head()
  }

  /** In every run, live or replayed, no block is rewarded before it is confirmed. */
  lemma {:induction false} ProcessedConfirmed(txs: seq<Tx>)
    requires HeadsRise(txs) && txs != []
    ensures var p := Run(EMPTY, txs).processed; p == 0 || p < txs[|txs| - 1].c.Head() - CONFIRMATION_COUNT
  {
    var n := |txs| - 1;
    ProcessedRises(Run(EMPTY, txs[..n]), txs[n]);
    if n > 0 {
      assert txs[n - 1].c.Head() <= txs[n].c.Head();
      ProcessedConfirmed(txs[..n]);
    }
  }

  /** Replayed, a request for a named block awards its heights downward; a batch request moves
      the processed height by a whole batch and rewards nobody. */
  lemma ReplayRewards(s: Ledger, c: Context, cmd: Command)
    requires cmd.Housekeeping? && c.mode.Replay? && Step(s, c, cmd).Some?
    ensures var u, awards := Step(s, c, cmd).value, AwardsOf(s, c, cmd);
            (cmd.blockIdx == 0 ==> awards == []) &&
            (cmd.blockIdx == 0 && BatchDue(s, c) ==> u.processed == s.processed + BLOCK_REWARD_PROCESSING_COUNT) &&
            (cmd.blockIdx != 0 ==>
               && |awards| == u.processed - s.processed
               && forall k | 0 <= k < |awards| ::
                     awards[k].height == u.processed - k && awards[k].signer == c.mode.signerOf(u.processed - k))
  {
  }
}
