/** Re-validation of a recorded chain. Writes live in three layers: those of the running command,
    those of the block being replayed and those of all blocks before it. Delivering a transaction
    first replays whatever the delivery order skipped. */
module Replay {
  import opened Ledgers
  import opened Records

  /** A recorded payload: none, one that cannot be read, or a command. */
  datatype Payload = Nothing | Garbled | Reads(cmd: Command)

  datatype Tx = Tx(guid: string, sighash: string, payload: Payload)

  /** What a command writes, and whether it ended without an exception. A deleted record is
      written as the empty value. */
  datatype Outcome = Outcome(writes: State, ok: bool)

  /** A command sees only the records that exist, and the height of the last block. */
  type Exec = (State, int, Tx) -> Outcome

  datatype Machine = Machine(past: State, block: State, command: State, atBlock: nat, atTx: int, tip: int,
                             replaying: bool)

  datatype Step = Step(m: Machine, ok: bool)

  // ----- the overlay -----

  function Look(s: State, k: Key): Record {
    if k in s then s[k] else Blank
  }

  function NonEmpty(s: State): State {
    map k | k in s && s[k] != Blank :: s[k]
  }

  function Overlay(m: Machine): State {
    m.past + m.block + m.command
  }

  function Visible(m: Machine): State {
    NonEmpty(Overlay(m))
  }

  function Flush(m: Machine): Machine {
    m.(past := m.past + m.block, block := map[])
  }

  /** Flushing a block never changes a lookup. */
  lemma FlushKeepsLookups(m: Machine)
    ensures Overlay(Flush(m)) == Overlay(m) && Visible(Flush(m)) == Visible(m)
  {
    MergeTwice(m.past + m.block, map[], map[]);
  }

  // ----- replaying -----

  /** Every delivered transaction gets an applicator of its own: nothing is left of another command. */
  function Fresh(m: Machine): Machine {
    m.(command := map[], tip := 0, replaying := false)
  }

  /** Runs one command and, if it succeeds, moves its writes to the layer of the block. */
  function DoApply(exec: Exec, m: Machine, tx: Tx): Step {
    var o := exec(Visible(m), m.tip, tx);
    if o.ok then Step(m.(block := m.block + (m.command + o.writes), command := map[]), true)
    else Step(m.(command := m.command + o.writes), false)
  }

  /** Recorded transactions without signer, payload or id are passed over. */
  predicate Skipped(tx: Tx) {
    tx.sighash == "" || tx.payload.Nothing? || tx.guid == ""
  }

  function Execute(exec: Exec, m: Machine, tx: Tx): Step {
    if Skipped(tx) then Step(m, true)
    else
      var s := DoApply(exec, m.(replaying := true), tx);
      if s.ok then Step(s.m.(replaying := false), true) else s
  }

  function ExecuteAll(exec: Exec, m: Machine, txs: seq<Tx>): Step {
    if txs == [] then Step(m, true)
    else
      var s := ExecuteAll(exec, m, txs[..|txs| - 1]);
      if s.ok then Execute(exec, s.m, txs[|txs| - 1]) else s
  }

  /** Replays the blocks from `lo` up to, not including, `hi`, flushing after each. */
  function WholeBlocks(exec: Exec, blocks: seq<seq<Tx>>, m: Machine, lo: nat, hi: nat): Step
    requires hi <= |blocks|
    decreases hi
  {
    if hi <= lo then Step(m, true)
    else
      var s := WholeBlocks(exec, blocks, m, lo, hi - 1);
      if !s.ok then s
      else
        var t := ExecuteAll(exec, s.m.(tip := hi - 2), blocks[hi - 1]);
        if t.ok then Step(Flush(t.m), true) else t
  }

  predicate Placed(blocks: seq<seq<Tx>>, m: Machine) {
    m.atBlock < |blocks| && -1 <= m.atTx < |blocks[m.atBlock]|
  }

  /** Replays the rest of the block left behind. */
  function Leave(exec: Exec, blocks: seq<seq<Tx>>, m: Machine): Step
    requires Placed(blocks, m)
  {
    var s := ExecuteAll(exec, m.(tip := m.atBlock - 1), blocks[m.atBlock][m.atTx + 1..]);
    if s.ok then Step(Flush(s.m), true) else s
  }

  /** Replays everything before block `b`. */
  function Enter(exec: Exec, blocks: seq<seq<Tx>>, m: Machine, b: nat): Step
    requires Placed(blocks, m) && m.atBlock < b < |blocks|
  {
    var s := Leave(exec, blocks, m);
    if !s.ok then s
    else
      var t := WholeBlocks(exec, blocks, s.m, m.atBlock + 1, b);
      if t.ok then Step(t.m.(tip := b - 1), true) else t
  }

  /** The machine just before the delivered transaction `i` of block `b` runs. A later block is
      entered by replaying the first `i` transactions of the block left behind, not of `b`; the
      block left behind must have that many. */
  function Prepare(exec: Exec, blocks: seq<seq<Tx>>, before: Machine, b: nat, i: nat): Step
    requires Placed(blocks, before) && b < |blocks| && i < |blocks[b]|
    requires b > before.atBlock ==> i <= |blocks[before.atBlock]|
  {
    var m := Fresh(before);
    if b > m.atBlock then
      var s := Enter(exec, blocks, m, b);
      if s.ok then ExecuteAll(exec, s.m, blocks[m.atBlock][..i]) else s
    else if b == m.atBlock then
      if i <= m.atTx then ExecuteAll(exec, m.(tip := b - 1, block := map[]), blocks[b][..i])
      else ExecuteAll(exec, m.(tip := b - 1), blocks[b][m.atTx + 1..i])
    else Step(m, true)
  }

  /** Runs the delivered transaction itself. */
  function Finish(exec: Exec, p: Step, b: nat, i: nat, tx: Tx): Step {
    if !p.ok then p
    else
      var s := DoApply(exec, p.m, tx);
      if s.ok then Step(s.m.(atBlock := b, atTx := i), true) else s
  }

  /** The writes that reach the validator: only those of a command that is not a replay. */
  function Forwarded(exec: Exec, p: Step, tx: Tx): State {
    if p.ok && !p.m.replaying then exec(Visible(p.m), p.m.tip, tx).writes else map[]
  }

  function Deliver(exec: Exec, blocks: seq<seq<Tx>>, m: Machine, b: nat, i: nat, tx: Tx): Step
    requires Placed(blocks, m) && b < |blocks| && i < |blocks[b]|
    requires b > m.atBlock ==> i <= |blocks[m.atBlock]|
  {
    Finish(exec, Prepare(exec, blocks, m, b, i), b, i, tx)
  }

  // ----- the reference: everything once, in order -----

  /** Transactions in the order of the chain, each with the height it sees. */
  datatype History = Genesis | Then(before: History, tip: int, tx: Tx)

  function Append(h: History, tip: int, txs: seq<Tx>): History {
    if txs == [] then h else Then(Append(h, tip, txs[..|txs| - 1]), tip, txs[|txs| - 1])
  }

  /** Every recorded transaction before block `b`. Block 0 is never replayed. */
  function Before(blocks: seq<seq<Tx>>, b: nat): History
    requires b <= |blocks|
  {
    if b <= 1 then Genesis else Append(Before(blocks, b - 1), b - 2, blocks[b - 1])
  }

  /** Every recorded transaction before number `i` of block `b`. */
  function UpTo(blocks: seq<seq<Tx>>, b: nat, i: nat): History
    requires b < |blocks| && i <= |blocks[b]|
  {
    if b == 0 then Genesis else Append(Before(blocks, b), b - 1, blocks[b][..i])
  }

  /** The records left by a history. */
  function Result(exec: Exec, h: History): State {
    match h
    case Genesis => map[]
    case Then(before, tip, tx) =>
      var s := Result(exec, before);
      if Skipped(tx) then s else s + exec(NonEmpty(s), tip, tx).writes
  }

  /** No command of the history fails. */
  predicate Succeeds(exec: Exec, h: History) {
    match h
    case Genesis => true
    case Then(before, tip, tx) =>
      Succeeds(exec, before) && (Skipped(tx) || exec(NonEmpty(Result(exec, before)), tip, tx).ok)
  }

  lemma {:induction false} AppendSucceeds(exec: Exec, h: History, tip: int, txs: seq<Tx>)
    requires Succeeds(exec, Append(h, tip, txs))
    ensures Succeeds(exec, h)
    decreases |txs|
  {
    if txs != [] {
      AppendSucceeds(exec, h, tip, txs[..|txs| - 1]);
    }
  }

  lemma {:induction false} AppendTwice(h: History, tip: int, a: seq<Tx>, b: seq<Tx>)
    ensures Append(h, tip, a + b) == Append(Append(h, tip, a), tip, b)
    decreases |b|
  {
    if b == [] {
      assert a + b == a;
    } else {
      assert (a + b)[..|a + b| - 1] == a + b[..|b| - 1];
      AppendTwice(h, tip, a, b[..|b| - 1]);
    }
  }

  /** Part of one block as history. */
  lemma PartOf(blocks: seq<seq<Tx>>, b: nat, i: nat, j: nat)
    requires 0 < b < |blocks| && i <= j <= |blocks[b]|
    ensures UpTo(blocks, b, j) == Append(UpTo(blocks, b, i), b - 1, blocks[b][i..j])
  {
    assert blocks[b][..j] == blocks[b][..i] + blocks[b][i..j];
    AppendTwice(Before(blocks, b), b - 1, blocks[b][..i], blocks[b][i..j]);
  }

  lemma OneMore(blocks: seq<seq<Tx>>, b: nat, i: nat)
    requires 0 < b < |blocks| && i < |blocks[b]|
    ensures UpTo(blocks, b, i + 1) == Then(UpTo(blocks, b, i), b - 1, blocks[b][i])
  {
    assert blocks[b][..i + 1][..i] == blocks[b][..i];
  }

  lemma WholeBlock(blocks: seq<seq<Tx>>, b: nat)
    requires b < |blocks|
    ensures UpTo(blocks, b, 0) == Before(blocks, b) && UpTo(blocks, b, |blocks[b]|) == Before(blocks, b + 1)
  {
    assert blocks[b][..|blocks[b]|] == blocks[b];
  }

  /** Success of a longer replay includes success of a shorter one. */
  lemma {:induction false} EarlierSucceeds(exec: Exec, blocks: seq<seq<Tx>>, b: nat, c: nat)
    requires b <= c <= |blocks| && Succeeds(exec, Before(blocks, c))
    ensures Succeeds(exec, Before(blocks, b))
  {
    if b < c && c > 1 {
      AppendSucceeds(exec, Before(blocks, c - 1), c - 2, blocks[c - 1]);
      EarlierSucceeds(exec, blocks, b, c - 1);
    }
  }

  // ----- incremental replay is full replay -----

  /** Nothing of an unfinished command is left over and the layers hold the records of `h`. */
  predicate Holds(exec: Exec, m: Machine, h: History) {
    m.command == map[] && !m.replaying && m.past + m.block == Result(exec, h)
  }

  /** The layers are those of a full replay up to the last delivered transaction, split where its
      block begins. */
  predicate Exact(exec: Exec, blocks: seq<seq<Tx>>, m: Machine) {
    Placed(blocks, m) && m.past + m.block == Result(exec, UpTo(blocks, m.atBlock, m.atTx + 1)) &&
    m.past == Result(exec, Before(blocks, m.atBlock)) && (m.atBlock == 0 ==> m.atTx == |blocks[0]| - 1)
  }

  predicate Clean(m: Machine) {
    m.command == map[] && !m.replaying
  }

  lemma MergeTwice(a: State, b: State, w: State)
    ensures map[] + w == w && a + map[] == a && a + (b + w) == a + b + w
  {
  }

  lemma DoApplyHolds(exec: Exec, m: Machine, h: History, tx: Tx)
    requires m.command == map[] && m.past + m.block == Result(exec, h)
    requires !Skipped(tx) && Succeeds(exec, Then(h, m.tip, tx))
    ensures var s := DoApply(exec, m, tx);
            s.ok && s.m.past + s.m.block == Result(exec, Then(h, m.tip, tx)) && s.m == m.(block := s.m.block)
    ensures Visible(m) == NonEmpty(Result(exec, h))
  {
    MergeTwice(m.past + m.block, map[], map[]);
    MergeTwice(m.past, m.block, exec(Visible(m), m.tip, tx).writes);
  }

  lemma ExecuteHolds(exec: Exec, m: Machine, h: History, tx: Tx)
    requires Holds(exec, m, h) && Succeeds(exec, Then(h, m.tip, tx))
    ensures var s := Execute(exec, m, tx);
            s.ok && Holds(exec, s.m, Then(h, m.tip, tx)) && s.m == m.(block := s.m.block)
  {
    if !Skipped(tx) {
      DoApplyHolds(exec, m.(replaying := true), h, tx);
    }
  }

  lemma {:induction false} ExecuteAllHolds(exec: Exec, m: Machine, h: History, txs: seq<Tx>)
    requires Holds(exec, m, h) && Succeeds(exec, Append(h, m.tip, txs))
    ensures var s := ExecuteAll(exec, m, txs);
            s.ok && Holds(exec, s.m, Append(h, m.tip, txs)) && s.m == m.(block := s.m.block)
    decreases |txs|
  {
    if txs != [] {
      var less := txs[..|txs| - 1];
      ExecuteAllHolds(exec, m, h, less);
      ExecuteHolds(exec, ExecuteAll(exec, m, less).m, Append(h, m.tip, less), txs[|txs| - 1]);
    }
  }

  lemma HoldsOverlay(exec: Exec, m: Machine, h: History)
    requires Holds(exec, m, h)
    ensures Overlay(m) == Result(exec, h) && Visible(m) == NonEmpty(Result(exec, h))
  {
    MergeTwice(m.past + m.block, map[], map[]);
  }

  lemma FlushHolds(exec: Exec, m: Machine, h: History)
    requires Holds(exec, m, h)
    ensures Holds(exec, Flush(m), h) && Flush(m).past == Result(exec, h)
  {
    MergeTwice(m.past + m.block, map[], map[]);
  }

  lemma {:induction false} WholeBlocksHold(exec: Exec, blocks: seq<seq<Tx>>, m: Machine, lo: nat, hi: nat)
    requires 0 < lo <= hi <= |blocks|
    requires Holds(exec, m, Before(blocks, lo)) && Succeeds(exec, Before(blocks, hi))
    requires m.block == map[]
    ensures var s := WholeBlocks(exec, blocks, m, lo, hi);
            s.ok && Holds(exec, s.m, Before(blocks, hi)) && s.m.block == map[]
    decreases hi
  {
    if lo < hi {
      AppendSucceeds(exec, Before(blocks, hi - 1), hi - 2, blocks[hi - 1]);
      WholeBlocksHold(exec, blocks, m, lo, hi - 1);
      var n := WholeBlocks(exec, blocks, m, lo, hi - 1).m.(tip := hi - 2);
      ExecuteAllHolds(exec, n, Before(blocks, hi - 1), blocks[hi - 1]);
      FlushHolds(exec, ExecuteAll(exec, n, blocks[hi - 1]).m, Before(blocks, hi));
    }
  }

  /** A delivery that stays in its block, or enters a later one at its first transaction. */
  predicate InOrder(m: Machine, b: nat, i: nat) {
    b == m.atBlock || (b > m.atBlock && i == 0)
  }

  /** The rest of the block left behind. */
  lemma LeaveExact(exec: Exec, blocks: seq<seq<Tx>>, m: Machine)
    requires Exact(exec, blocks, m) && Clean(m) && Succeeds(exec, Before(blocks, m.atBlock + 1))
    ensures var s := Leave(exec, blocks, m);
            s.ok && Holds(exec, s.m, Before(blocks, m.atBlock + 1)) && s.m.block == map[]
  {
    var rest, at, h := blocks[m.atBlock][m.atTx + 1..], m.(tip := m.atBlock - 1), UpTo(blocks, m.atBlock, m.atTx + 1);
    RestOf(blocks, m.atBlock, m.atTx + 1, rest);
    ExecuteAllHolds(exec, at, h, rest);
    FlushHolds(exec, ExecuteAll(exec, at, rest).m, Append(h, at.tip, rest));
  }

  lemma RestOf(blocks: seq<seq<Tx>>, b: nat, i: nat, rest: seq<Tx>)
    requires b < |blocks| && i <= |blocks[b]| && rest == blocks[b][i..] && (b == 0 ==> i == |blocks[b]|)
    ensures Append(UpTo(blocks, b, i), b - 1, rest) == Before(blocks, b + 1)
  {
    WholeBlock(blocks, b);
    if b > 0 {
      PartOf(blocks, b, i, |blocks[b]|);
      assert rest == blocks[b][i..|blocks[b]|];
    }
  }

  lemma EnterExact(exec: Exec, blocks: seq<seq<Tx>>, m: Machine, b: nat)
    requires Exact(exec, blocks, m) && Clean(m) && m.atBlock < b < |blocks|
    requires Succeeds(exec, Before(blocks, b))
    ensures var s := Enter(exec, blocks, m, b);
            s.ok && Holds(exec, s.m, Before(blocks, b)) && s.m.tip == b - 1 &&
            s.m.past == Result(exec, Before(blocks, b))
  {
    EarlierSucceeds(exec, blocks, m.atBlock + 1, b);
    LeaveExact(exec, blocks, m);
    var s := Leave(exec, blocks, m);
    WholeBlocksHold(exec, blocks, s.m, m.atBlock + 1, b);
    MergeTwice(WholeBlocks(exec, blocks, s.m, m.atBlock + 1, b).m.past, map[], map[]);
  }

  /** What the delivered transaction sees is a full replay of everything before it. */
  lemma PrepareExact(exec: Exec, blocks: seq<seq<Tx>>, before: Machine, b: nat, i: nat)
    requires Exact(exec, blocks, before) && 0 < b < |blocks| && i < |blocks[b]| && InOrder(before, b, i)
    requires Succeeds(exec, UpTo(blocks, b, i))
    ensures var p := Prepare(exec, blocks, before, b, i);
            p.ok && Holds(exec, p.m, UpTo(blocks, b, i)) && p.m.tip == b - 1 &&
            p.m.past == Result(exec, Before(blocks, b))
  {
    var m := Fresh(before);
    if b > m.atBlock {
      StartExact(exec, blocks, before, b);
    } else if i <= m.atTx {
      MergeTwice(m.past, map[], map[]);
      AnewExact(exec, blocks, m.(tip := b - 1, block := map[]), b, i);
    } else {
      OnwardExact(exec, blocks, m.(tip := b - 1), b, m.atTx + 1, i);
    }
  }

  /** A new block entered at its first transaction. */
  lemma StartExact(exec: Exec, blocks: seq<seq<Tx>>, before: Machine, b: nat)
    requires Exact(exec, blocks, before) && before.atBlock < b < |blocks| && blocks[b] != []
    requires Succeeds(exec, UpTo(blocks, b, 0))
    ensures var p := Prepare(exec, blocks, before, b, 0);
            p.ok && Holds(exec, p.m, UpTo(blocks, b, 0)) && p.m.tip == b - 1 &&
            p.m.past == Result(exec, Before(blocks, b))
  {
    WholeBlock(blocks, b);
    EnterExact(exec, blocks, Fresh(before), b);
    assert blocks[before.atBlock][..0] == [];
  }

  /** Going back inside a block replays it from its start. */
  lemma AnewExact(exec: Exec, blocks: seq<seq<Tx>>, m: Machine, b: nat, i: nat)
    requires 0 < b < |blocks| && i <= |blocks[b]| && m.tip == b - 1
    requires Holds(exec, m, Before(blocks, b)) && Succeeds(exec, UpTo(blocks, b, i))
    ensures var s := ExecuteAll(exec, m, blocks[b][..i]);
            s.ok && Holds(exec, s.m, UpTo(blocks, b, i)) && s.m == m.(block := s.m.block)
  {
    ExecuteAllHolds(exec, m, Before(blocks, b), blocks[b][..i]);
  }

  lemma OnwardExact(exec: Exec, blocks: seq<seq<Tx>>, m: Machine, b: nat, i: nat, j: nat)
    requires 0 < b < |blocks| && i <= j <= |blocks[b]| && m.tip == b - 1
    requires Holds(exec, m, UpTo(blocks, b, i)) && Succeeds(exec, UpTo(blocks, b, j))
    ensures var s := ExecuteAll(exec, m, blocks[b][i..j]);
            s.ok && Holds(exec, s.m, UpTo(blocks, b, j)) && s.m == m.(block := s.m.block)
  {
    PartOf(blocks, b, i, j);
    ExecuteAllHolds(exec, m, UpTo(blocks, b, i), blocks[b][i..j]);
  }

  lemma FinishExact(exec: Exec, blocks: seq<seq<Tx>>, p: Step, b: nat, i: nat)
    requires 0 < b < |blocks| && i < |blocks[b]| && !Skipped(blocks[b][i])
    requires Succeeds(exec, UpTo(blocks, b, i + 1))
    requires p.ok && Holds(exec, p.m, UpTo(blocks, b, i)) && p.m.tip == b - 1
    requires p.m.past == Result(exec, Before(blocks, b))
    ensures var s := Finish(exec, p, b, i, blocks[b][i]);
            s.ok && Exact(exec, blocks, s.m) && s.m.atBlock == b && s.m.atTx == i
    ensures Forwarded(exec, p, blocks[b][i]) ==
            exec(NonEmpty(Result(exec, UpTo(blocks, b, i))), b - 1, blocks[b][i]).writes
  {
    OneMore(blocks, b, i);
    DoApplyHolds(exec, p.m, UpTo(blocks, b, i), blocks[b][i]);
  }

  /** A delivered transaction that the file also records leaves an exact machine behind, and the
      writes it sends on are those it makes in the full replay. */
  lemma DeliverExact(exec: Exec, blocks: seq<seq<Tx>>, m: Machine, b: nat, i: nat)
    requires Exact(exec, blocks, m) && 0 < b < |blocks| && i < |blocks[b]| && InOrder(m, b, i)
    requires !Skipped(blocks[b][i]) && Succeeds(exec, UpTo(blocks, b, i + 1))
    ensures var s := Deliver(exec, blocks, m, b, i, blocks[b][i]);
            s.ok && Exact(exec, blocks, s.m) && s.m.atBlock == b && s.m.atTx == i
    ensures Forwarded(exec, Prepare(exec, blocks, m, b, i), blocks[b][i]) ==
            exec(NonEmpty(Result(exec, UpTo(blocks, b, i))), b - 1, blocks[b][i]).writes
  {
    OneMore(blocks, b, i);
    PrepareExact(exec, blocks, m, b, i);
    FinishExact(exec, blocks, Prepare(exec, blocks, m, b, i), b, i);
  }

  // ----- entering a later block past its start -----

  predicate Idle(txs: seq<Tx>) {
    forall tx <- txs :: Skipped(tx)
  }

  /** Replaying succeeds exactly when no command of the replayed history fails. */
  lemma {:induction false} ExecuteAllSucceeds(exec: Exec, m: Machine, h: History, txs: seq<Tx>)
    requires Holds(exec, m, h) && Succeeds(exec, h)
    ensures ExecuteAll(exec, m, txs).ok <==> Succeeds(exec, Append(h, m.tip, txs))
    decreases |txs|
  {
    if txs != [] {
      var less, last := txs[..|txs| - 1], txs[|txs| - 1];
      ExecuteAllSucceeds(exec, m, h, less);
      if Succeeds(exec, Append(h, m.tip, less)) {
        ExecuteAllHolds(exec, m, h, less);
        OneSucceeds(exec, ExecuteAll(exec, m, less).m, Append(h, m.tip, less), last);
      }
    }
  }

  lemma OneSucceeds(exec: Exec, m: Machine, h: History, tx: Tx)
    requires Holds(exec, m, h) && Succeeds(exec, h)
    ensures Execute(exec, m, tx).ok <==> Succeeds(exec, Then(h, m.tip, tx))
  {
    MergeTwice(m.past + m.block, map[], map[]);
  }

  /** What is replayed when a later block is entered at transaction `i`: the start of the block
      left behind, on top of everything before the new block. */
  lemma LateEntry(exec: Exec, blocks: seq<seq<Tx>>, before: Machine, b: nat, i: nat)
    requires Exact(exec, blocks, before) && before.atBlock < b < |blocks| && i < |blocks[b]| &&
             i <= |blocks[before.atBlock]|
    requires Succeeds(exec, Before(blocks, b))
    ensures var p, h := Prepare(exec, blocks, before, b, i),
            Append(Before(blocks, b), b - 1, blocks[before.atBlock][..i]);
            (p.ok <==> Succeeds(exec, h)) && (p.ok ==> Holds(exec, p.m, h))
  {
    var m := Fresh(before);
    EnterExact(exec, blocks, m, b);
    var s := Enter(exec, blocks, m, b).m;
    ExecuteAllSucceeds(exec, s, Before(blocks, b), blocks[m.atBlock][..i]);
    if ExecuteAll(exec, s, blocks[m.atBlock][..i]).ok {
      ExecuteAllHolds(exec, s, Before(blocks, b), blocks[m.atBlock][..i]);
    }
  }

  /** The transactions that are executed. */
  function Executed(txs: seq<Tx>): seq<Tx> {
    if txs == [] then []
    else
      var n := |txs| - 1;
      Executed(txs[..n]) + if Skipped(txs[n]) then [] else [txs[n]]
  }

  /** Two transactions do the same, whatever state they find. */
  ghost predicate Alike(exec: Exec, tip: int, x: Tx, y: Tx) {
    forall s :: exec(s, tip, x) == exec(s, tip, y)
  }

  ghost predicate AllAlike(exec: Exec, tip: int, a: seq<Tx>, b: seq<Tx>) {
    |a| == |b| && forall k | 0 <= k < |a| :: Alike(exec, tip, a[k], b[k])
  }

  lemma AppendOne(h: History, tip: int, txs: seq<Tx>, tx: Tx)
    ensures Append(h, tip, txs + [tx]) == Then(Append(h, tip, txs), tip, tx)
  {
    assert (txs + [tx])[..|txs|] == txs;
  }

  /** Passing over a transaction changes nothing. */
  lemma SkipsNothing(exec: Exec, h: History, tip: int, tx: Tx)
    requires Skipped(tx)
    ensures Result(exec, Then(h, tip, tx)) == Result(exec, h) && Succeeds(exec, Then(h, tip, tx)) == Succeeds(exec, h)
  {
  }

  /** Two histories leave the same records and fail or succeed together. */
  ghost predicate SameEffect(exec: Exec, g: History, h: History) {
    Result(exec, g) == Result(exec, h) && Succeeds(exec, g) == Succeeds(exec, h)
  }

  lemma SameThen(exec: Exec, g: History, h: History, tip: int, x: Tx, y: Tx)
    requires SameEffect(exec, g, h) && Alike(exec, tip, x, y) && Skipped(x) == Skipped(y)
    ensures SameEffect(exec, Then(g, tip, x), Then(h, tip, y))
  {
    assert exec(NonEmpty(Result(exec, g)), tip, x) == exec(NonEmpty(Result(exec, g)), tip, y);
  }

  lemma {:induction false} OnlyExecuted(exec: Exec, h: History, tip: int, txs: seq<Tx>)
    ensures SameEffect(exec, Append(h, tip, txs), Append(h, tip, Executed(txs)))
    decreases |txs|
  {
    if txs != [] {
      var less, last := txs[..|txs| - 1], txs[|txs| - 1];
      OnlyExecuted(exec, h, tip, less);
      if Skipped(last) {
        assert Executed(txs) == Executed(less);
        SkipsNothing(exec, Append(h, tip, less), tip, last);
      } else {
        AppendOne(h, tip, Executed(less), last);
        assert Alike(exec, tip, last, last);
        SameThen(exec, Append(h, tip, less), Append(h, tip, Executed(less)), tip, last, last);
      }
    }
  }

  lemma {:induction false} ExecutedRuns(txs: seq<Tx>)
    ensures forall tx <- Executed(txs) :: !Skipped(tx)
    ensures Executed(txs) == [] <==> Idle(txs)
    decreases |txs|
  {
    if txs != [] {
      var n := |txs| - 1;
      ExecutedRuns(txs[..n]);
      assert txs == txs[..n] + [txs[n]];
    }
  }

  lemma {:induction false} AlikeResults(exec: Exec, h: History, tip: int, a: seq<Tx>, b: seq<Tx>)
    requires AllAlike(exec, tip, a, b) && (forall tx <- a :: !Skipped(tx)) && (forall tx <- b :: !Skipped(tx))
    ensures SameEffect(exec, Append(h, tip, a), Append(h, tip, b))
    decreases |a|
  {
    if a != [] {
      var n := |a| - 1;
      assert Alike(exec, tip, a[n], b[n]) && a[n] in a && b[n] in b;
      assert (forall tx <- a[..n] :: tx in a) && (forall tx <- b[..n] :: tx in b);
      AlikeResults(exec, h, tip, a[..n], b[..n]);
      SameThen(exec, Append(h, tip, a[..n]), Append(h, tip, b[..n]), tip, a[n], b[n]);
    }
  }

  /** Two stretches that execute alike commands have the same effect. */
  lemma AlikeStretches(exec: Exec, h: History, tip: int, a: seq<Tx>, b: seq<Tx>)
    requires AllAlike(exec, tip, Executed(a), Executed(b))
    ensures SameEffect(exec, Append(h, tip, a), Append(h, tip, b))
  {
    OnlyExecuted(exec, h, tip, a);
    OnlyExecuted(exec, h, tip, b);
    ExecutedRuns(a);
    ExecutedRuns(b);
    AlikeResults(exec, h, tip, Executed(a), Executed(b));
  }

  /** Entering past the start is harmless when what the two blocks execute there is alike. */
  lemma AlikeEntryExact(exec: Exec, blocks: seq<seq<Tx>>, m: Machine, b: nat, i: nat)
    requires Exact(exec, blocks, m) && m.atBlock < b < |blocks| && i < |blocks[b]| && i <= |blocks[m.atBlock]|
    requires AllAlike(exec, b - 1, Executed(blocks[m.atBlock][..i]), Executed(blocks[b][..i]))
    requires Succeeds(exec, UpTo(blocks, b, i))
    ensures var p := Prepare(exec, blocks, m, b, i);
            p.ok && Holds(exec, p.m, UpTo(blocks, b, i))
  {
    AppendSucceeds(exec, Before(blocks, b), b - 1, blocks[b][..i]);
    AlikeStretches(exec, Before(blocks, b), b - 1, blocks[m.atBlock][..i], blocks[b][..i]);
    LateEntry(exec, blocks, m, b, i);
  }

  // ----- runs of deliveries -----

  datatype Position = Position(b: nat, i: nat)

  function Start(blocks: seq<seq<Tx>>): Machine
    requires blocks != []
  {
    Machine(map[], map[], map[], 0, |blocks[0]| - 1, 0, false)
  }

  /** Where the last of the given deliveries left the machine. */
  function Reached(blocks: seq<seq<Tx>>, run: seq<Position>): (int, int)
    requires blocks != []
  {
    if run == [] then (0, |blocks[0]| - 1) else (run[|run| - 1].b, run[|run| - 1].i)
  }

  predicate Recorded(blocks: seq<seq<Tx>>, p: Position) {
    0 < p.b < |blocks| && p.i < |blocks[p.b]| && !Skipped(blocks[p.b][p.i])
  }

  /** Recorded transactions, blocks never going back, each new block entered at its start. */
  predicate Orderly(blocks: seq<seq<Tx>>, run: seq<Position>)
    requires blocks != []
  {
    run == [] ||
    var n := |run| - 1;
    var p := run[n];
    Orderly(blocks, run[..n]) && Recorded(blocks, p) &&
    (p.b == Reached(blocks, run[..n]).0 || (p.b > Reached(blocks, run[..n]).0 && p.i == 0))
  }

  function Deliveries(exec: Exec, blocks: seq<seq<Tx>>, run: seq<Position>): (s: Step)
    requires blocks != [] && Orderly(blocks, run)
    ensures s.ok ==> Placed(blocks, s.m) && (s.m.atBlock, s.m.atTx) == Reached(blocks, run)
  {
    if run == [] then Step(Start(blocks), true)
    else
      var n := |run| - 1;
      var p, s := run[n], Deliveries(exec, blocks, run[..n]);
      if s.ok then Deliver(exec, blocks, s.m, p.b, p.i, blocks[p.b][p.i]) else s
  }

  /** Nothing recorded up to any of the deliveries fails. */
  predicate Healthy(exec: Exec, blocks: seq<seq<Tx>>, run: seq<Position>)
    requires blocks != [] && Orderly(blocks, run)
  {
    run == [] ||
    var n := |run| - 1;
    Healthy(exec, blocks, run[..n]) && Succeeds(exec, UpTo(blocks, run[n].b, run[n].i + 1))
  }

  /** Incremental replay equals full replay, whatever was delivered and redelivered on the way. */
  lemma {:induction false} RunExact(exec: Exec, blocks: seq<seq<Tx>>, run: seq<Position>)
    requires blocks != [] && Orderly(blocks, run)
    requires Healthy(exec, blocks, run)
    ensures Deliveries(exec, blocks, run).ok && Exact(exec, blocks, Deliveries(exec, blocks, run).m)
  {
    if run == [] {
      MergeTwice(map[], map[], map[]);
    } else {
      var n := |run| - 1;
      RunExact(exec, blocks, run[..n]);
      DeliverExact(exec, blocks, Deliveries(exec, blocks, run[..n]).m, run[n].b, run[n].i);
    }
  }

  /** What the layers show after a run is the history up to the last delivered transaction. */
  lemma RunShows(exec: Exec, blocks: seq<seq<Tx>>, run: seq<Position>)
    requires blocks != [] && Orderly(blocks, run) && Healthy(exec, blocks, run) && run != []
    ensures var s, last := Deliveries(exec, blocks, run), run[|run| - 1];
            s.ok && last.b < |blocks| && last.i < |blocks[last.b]| &&
            Succeeds(exec, UpTo(blocks, last.b, last.i + 1)) &&
            s.m.past + s.m.block == Result(exec, UpTo(blocks, last.b, last.i + 1))
  {
    RunExact(exec, blocks, run);
  }
}
