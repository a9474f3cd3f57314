/** The replaying applicator: three map layers, the position of the last delivery, and the loops
    that catch up with a new one. */
module Revalidation {
  import opened Records
  import opened Replay

  class Revalidator {
    const exec: Exec
    const blocks: seq<seq<Tx>>
    /** Where the transition file records a transaction. */
    const positions: map<string, Position>
    var past: State
    var block: State
    var command: State
    var atBlock: nat
    var atTx: int
    var tip: int
    var replaying: bool

    function Now(): Machine
      reads this
    {
      Machine(past, block, command, atBlock, atTx, tip, replaying)
    }

    ghost predicate Valid()
      reads this
    {
      Placed(blocks, Now()) &&
      forall g <- positions :: positions[g].b < |blocks| && positions[g].i < |blocks[positions[g].b]|
    }

    constructor (exec: Exec, blocks: seq<seq<Tx>>, positions: map<string, Position>)
      requires blocks != []
      requires forall g <- positions :: positions[g].b < |blocks| && positions[g].i < |blocks[positions[g].b]|
      ensures Valid() && Now() == Start(blocks)
      ensures this.exec == exec && this.blocks == blocks && this.positions == positions
    {
      this.exec, this.blocks, this.positions := exec, blocks, positions;
      past, block, command := map[], map[], map[];
      atBlock, atTx, tip, replaying := 0, |blocks[0]| - 1, 0, false;
    }

    // ----- state access -----

    /** The running command's own writes come first, then the block's, then all earlier ones. */
    method GetState(k: Key) returns (v: Record)
      ensures v == Look(Visible(Now()), k)
    {
      if k in command {
        v := command[k];
      } else if k in block {
        v := block[k];
      } else if k in past {
        v := past[k];
      } else {
        v := Blank;
      }
    }

    /** Lists every record of one kind, which its key tells. */
    method Filter(kind: Key -> bool) returns (listed: seq<(Key, Record)>)
      ensures Lists(listed, Visible(Now()), kind)
    {
      var current := block + command;
      var older, newer := past.Keys - current.Keys, current.Keys;
      listed := ListPart(past, older, kind);
      var more := ListPart(current, newer, kind);
      TwoParts(Now());
      ListBoth(listed, Part(past, older), more, Part(current, newer), kind);
      listed := listed + more;
    }

    /** One of the two listing loops, over the given keys of a layer. */
    method ListPart(layer: State, keys: set<Key>, kind: Key -> bool) returns (listed: seq<(Key, Record)>)
      requires keys <= layer.Keys
      ensures Lists(listed, Part(layer, keys), kind)
    {
      var left := keys;
      ghost var done: set<Key> := {};
      listed := [];
      while left != {}
        invariant left !! done && left + done == keys && Lists(listed, Part(layer, done), kind)
        decreases |left|
      {
        var k :| k in left;
        ListOne(listed, layer, done, k, kind);
        left, done := left - {k}, done + {k};
        if kind(k) && layer[k] != Blank {
          listed := listed + [(k, layer[k])];
        }
      }
      assert done == keys;
    }

    // ----- replay -----

    /** Runs one command; a failed one leaves its writes in the command's own layer. */
    method Run(tx: Tx) returns (ok: bool, writes: State)
      modifies this
      ensures Step(Now(), ok) == DoApply(exec, old(Now()), tx)
      ensures writes == exec(Visible(old(Now())), old(tip), tx).writes
    {
      var o := exec(Visible(Now()), tip, tx);
      command := command + o.writes;
      if o.ok {
        block, command := block + command, map[];
      }
      return o.ok, o.writes;
    }

    method Replay(tx: Tx) returns (ok: bool)
      modifies this
      ensures Step(Now(), ok) == Execute(exec, old(Now()), tx)
    {
      ok := true;
      if tx.sighash != "" && !tx.payload.Nothing? && tx.guid != "" {
        replaying := true;
        var writes;
        ok, writes := Run(tx);
        if ok {
          replaying := false;
        }
      }
    }

    /** Replays a stretch of one block. */
    method ReplayAll(txs: seq<Tx>) returns (ok: bool)
      modifies this
      ensures Step(Now(), ok) == ExecuteAll(exec, old(Now()), txs)
    {
      var i := 0;
      ok := true;
      while i < |txs| && ok
        invariant 0 <= i <= |txs| && Step(Now(), ok) == ExecuteAll(exec, old(Now()), txs[..i])
      {
        ok := Replay(txs[i]);
        i := i + 1;
        assert txs[..i][..i - 1] == txs[..i - 1];
      }
      if ok {
        assert txs[..i] == txs;
      } else {
        StaysFailed(exec, old(Now()), txs, i);
      }
    }

    method FlushBlock()
      modifies this
      ensures Now() == Flush(old(Now()))
    {
      past, block := past + block, map[];
    }

    /** Replays a block in between and flushes it. */
    method OneBlock(i: nat, ghost m: Machine) returns (ok: bool)
      requires atBlock < i < |blocks| && Step(Now(), true) == WholeBlocks(exec, blocks, m, atBlock + 1, i)
      modifies this
      ensures Step(Now(), ok) == WholeBlocks(exec, blocks, m, old(atBlock) + 1, i + 1)
      ensures atBlock == old(atBlock) && atTx == old(atTx)
    {
      tip := i - 1;
      KeepsPlace(exec, Now(), blocks[i]);
      ok := ReplayAll(blocks[i]);
      if ok {
        FlushBlock();
      }
    }

    /** Replays everything between the last delivery and block `b`. */
    method CatchUp(b: nat) returns (ok: bool)
      requires Valid() && atBlock < b < |blocks|
      modifies this
      ensures Step(Now(), ok) == Enter(exec, blocks, old(Now()), b)
      ensures atBlock == old(atBlock) && atTx == old(atTx)
    {
      tip := atBlock - 1;
      ok := ReplayAll(blocks[atBlock][atTx + 1..]);
      KeepsPlace(exec, old(Now()).(tip := old(atBlock) - 1), blocks[old(atBlock)][old(atTx) + 1..]);
      if !ok {
        return;
      }
      FlushBlock();
      var i := atBlock + 1;
      ghost var m := Now();
      while i < b
        invariant atBlock + 1 <= i <= b && ok && atBlock == old(atBlock) && atTx == old(atTx)
        invariant Step(Now(), true) == WholeBlocks(exec, blocks, m, atBlock + 1, i)
      {
        ok := OneBlock(i, m);
        i := i + 1;
        if !ok {
          StillFailed(exec, blocks, m, atBlock + 1, i, b);
          return;
        }
      }
      tip := b - 1;
    }

    /** Brings the layers to where the delivered transaction `i` of block `b` starts. */
    method Approach(b: nat, i: nat) returns (ok: bool)
      requires Valid() && b < |blocks| && i < |blocks[b]| && Now() == Fresh(Now())
      requires b > atBlock ==> i <= |blocks[atBlock]|
      modifies this
      ensures Step(Now(), ok) == Prepare(exec, blocks, old(Now()), b, i)
    {
      ok := true;
      if b > atBlock {
        ok := CatchUp(b);
        if ok {
          ok := ReplayAll(blocks[atBlock][..i]);
        }
      } else if b == atBlock {
        tip := b - 1;
        if i <= atTx {
          block := map[];
          ok := ReplayAll(blocks[b][..i]);
        } else {
          ok := ReplayAll(blocks[b][atTx + 1..i]);
        }
      }
    }

    /** One delivery. `sent` is what reaches the validator. A transaction that the file does not
        record ends the process, so nothing happens to it here. */
    method Receive(tx: Tx) returns (ok: bool, sent: State)
      requires Valid()
      requires tx.guid in positions && positions[tx.guid].b > atBlock ==> positions[tx.guid].i <= |blocks[atBlock]|
      modifies this
      ensures tx.guid !in positions ==> !ok && sent == map[] && Now() == old(Now())
      ensures tx.guid in positions ==>
        var p := positions[tx.guid];
        Step(Now(), ok) == Deliver(exec, blocks, old(Now()), p.b, p.i, tx) &&
        sent == Forwarded(exec, Prepare(exec, blocks, old(Now()), p.b, p.i), tx)
      ensures ok ==> Valid()
    {
      ok, sent := false, map[];
      if tx.guid in positions {
        var p := positions[tx.guid];
        command, tip, replaying := map[], 0, false;
        ok := Approach(p.b, p.i);
        if ok {
          var forward := !replaying;
          var writes;
          ok, writes := Run(tx);
          if forward {
            sent := writes;
          }
          if ok {
            atBlock, atTx := p.b, p.i;
          }
        }
      }
    }
  }

  // ----- listings -----

  /** The records of a layer under the given keys. */
  function Part(layer: State, keys: set<Key>): State {
    map k | k in layer && k in keys && layer[k] != Blank :: layer[k]
  }

  /** `listed` has every record of `s` of the kind exactly once. */
  predicate Lists(listed: seq<(Key, Record)>, s: State, kind: Key -> bool) {
    (forall i | 0 <= i < |listed| :: kind(listed[i].0) && listed[i].0 in s && s[listed[i].0] == listed[i].1) &&
    (forall i, j | 0 <= i < j < |listed| :: listed[i].0 != listed[j].0) &&
    (forall k <- s | kind(k) :: (k, s[k]) in listed)
  }

  lemma ListOne(listed: seq<(Key, Record)>, layer: State, done: set<Key>, k: Key, kind: Key -> bool)
    requires Lists(listed, Part(layer, done), kind) && k in layer && k !in done
    ensures Lists(if kind(k) && layer[k] != Blank then listed + [(k, layer[k])]
                  else listed, Part(layer, done + {k}), kind)
  {
    var before, after := Part(layer, done), Part(layer, done + {k});
    var longer := if kind(k) && layer[k] != Blank then listed + [(k, layer[k])] else listed;
    forall j | j in after && kind(j)
      ensures (j, after[j]) in longer
    {
      if j == k {
        assert longer[|listed|] == (j, after[j]);
      } else {
        assert j in before && (j, before[j]) in listed;
      }
    }
  }

  lemma TwoParts(m: Machine)
    ensures var current := m.block + m.command;
            Part(m.past, m.past.Keys - current.Keys) + Part(current, current.Keys) == Visible(m) &&
            Part(m.past, m.past.Keys - current.Keys).Keys !! Part(current, current.Keys).Keys
  {
  }

  lemma ListBoth(a: seq<(Key, Record)>, s: State, b: seq<(Key, Record)>, t: State, kind: Key -> bool)
    requires Lists(a, s, kind) && Lists(b, t, kind) && s.Keys !! t.Keys
    ensures Lists(a + b, s + t, kind)
  {
  }

  // ----- failures stay -----

  lemma {:induction false} StaysFailed(exec: Exec, m: Machine, txs: seq<Tx>, i: nat)
    requires i <= |txs| && !ExecuteAll(exec, m, txs[..i]).ok
    ensures ExecuteAll(exec, m, txs) == ExecuteAll(exec, m, txs[..i])
    decreases |txs|
  {
    if i == |txs| {
      assert txs[..i] == txs;
    } else {
      assert txs[..|txs| - 1][..i] == txs[..i];
      StaysFailed(exec, m, txs[..|txs| - 1], i);
    }
  }

  lemma {:induction false} StillFailed(exec: Exec, blocks: seq<seq<Tx>>, m: Machine, lo: nat, mid: nat, hi: nat)
    requires mid <= hi <= |blocks| && !WholeBlocks(exec, blocks, m, lo, mid).ok
    ensures WholeBlocks(exec, blocks, m, lo, hi) == WholeBlocks(exec, blocks, m, lo, mid)
    decreases hi
  {
    if mid < hi {
      StillFailed(exec, blocks, m, lo, mid, hi - 1);
    }
  }

  /** Replaying does not move the position of the last delivery. */
  lemma {:induction false} KeepsPlace(exec: Exec, m: Machine, txs: seq<Tx>)
    ensures var n := ExecuteAll(exec, m, txs).m;
            n.atBlock == m.atBlock && n.atTx == m.atTx && n.tip == m.tip && n.past == m.past
    decreases |txs|
  {
    if txs != [] {
      KeepsPlace(exec, m, txs[..|txs| - 1]);
    }
  }
}
