/** The completer: blocks are held back until their predecessor and all their batches are there. */
module Completion {
  import opened Wrappers

  type Id = nat

  datatype Batch = Batch(id: Id, body: string)

  datatype Block = Block(id: Id, prev: Id, batchIds: seq<Id>, batches: seq<Batch>)

  /** What an incomplete block waits for. */
  datatype Key = BlockKey(id: Id) | BatchKey(id: Id)

  type Batches = map<Id, Batch>

  type Filed = map<Key, seq<Block>>

  function IdsOf(batches: seq<Batch>): (r: seq<Id>)
    ensures |r| == |batches| && forall k | 0 <= k < |batches| :: r[k] == batches[k].id
  {
    seq(|batches|, k requires 0 <= k < |batches| => batches[k].id)
  }

  /** The batches are those of the header, in its order. */
  predicate Complete(b: Block) {
    IdsOf(b.batches) == b.batchIds
  }

  /** A block as it is delivered: only its batches were filled in or put in order. */
  predicate Delivers(block: Block, done: Block, cached: Batches) {
    done == block.(batches := done.batches) && Complete(done) &&
    (IdsOf(block.batches) == block.batchIds ==> done == block) &&
    forall x <- done.batches :: x in block.batches || (x.id in cached && cached[x.id] == x)
  }

  predicate Has(batches: seq<Batch>, id: Id) {
    exists x <- batches :: x.id == id
  }

  /** Whether the batches of the header can all be found. */
  predicate Completable(b: Block, cached: Batches) {
    if |b.batches| < |b.batchIds| then forall id <- b.batchIds :: id in cached || Has(b.batches, id)
    else multiset(IdsOf(b.batches)) == multiset(b.batchIds)
  }

  predicate Known(blocks: set<Id>, chain: set<Id>, id: Id) {
    id in blocks || id in chain
  }

  /** Still missing, going by the two caches. */
  predicate Missing(blocks: set<Id>, cached: Batches, k: Key) {
    match k
    case BlockKey(id) => id !in blocks
    case BatchKey(id) => id !in cached
  }

  /** The batches given are the header's in some order, or fewer than it names. */
  predicate WellFormed(b: Block) {
    |b.batches| < |b.batchIds| || multiset(IdsOf(b.batches)) == multiset(b.batchIds)
  }

  /** The block can be delivered now. */
  predicate Ready(b: Block, blocks: set<Id>, chain: set<Id>, cached: Batches) {
    Known(blocks, chain, b.prev) && Completable(b, cached)
  }

  /** The block cannot be delivered without what the key stands for. */
  predicate Needs(b: Block, k: Key, chain: set<Id>) {
    match k
    case BlockKey(id) => id == b.prev && id !in chain
    case BatchKey(id) => id in b.batchIds && !Has(b.batches, id) && |b.batches| < |b.batchIds|
  }

  predicate NamesItself(cached: Batches) {
    forall id <- cached :: cached[id].id == id
  }

  // ----- filing -----

  /** `block` has been filed under some missing keys and nothing else has changed. */
  ghost predicate FiledMore(before: Filed, after: Filed, block: Block, blocks: set<Id>, cached: Batches) {
    before.Keys <= after.Keys &&
    forall k <- after ::
      (k in before && after[k] == before[k]) ||
      (Missing(blocks, cached, k) && after[k] == (if k in before then before[k] else []) + [block])
  }

  /** Filed under a key it needs. */
  predicate Files(f: Filed, b: Block, chain: set<Id>) {
    exists k <- f :: b in f[k] && Needs(b, k, chain)
  }

  /** A received block is cached, dropped for good, or filed under something it needs. */
  predicate Accounted(f: Filed, blocks: set<Id>, chain: set<Id>, b: Block) {
    b.id in blocks || (Known(blocks, chain, b.prev) && !WellFormed(b)) || Files(f, b, chain)
  }

  /** Where nothing is filed under what has arrived, no block that waits could be delivered. */
  lemma NothingLeftReady(f: Filed, blocks: set<Id>, chain: set<Id>, cached: Batches, b: Block)
    requires NothingReady(f, blocks, cached, []) && Accounted(f, blocks, chain, b)
    ensures b.id in blocks || !Ready(b, blocks, chain, cached)
  {
    if b.id !in blocks && Files(f, b, chain) {
      var k :| k in f && b in f[k] && Needs(b, k, chain);
      assert Missing(blocks, cached, k);
    }
  }

  lemma StillAccounted(before: Filed, after: Filed, block: Block, blocks: set<Id>, cached: Batches, chain: set<Id>,
                       b: Block)
    requires FiledMore(before, after, block, blocks, cached) && Accounted(before, blocks, chain, b)
    ensures Accounted(after, blocks, chain, b)
  {
    if Files(before, b, chain) {
      var k :| k in before && b in before[k] && Needs(b, k, chain);
      assert k in after && b in after[k];
    }
  }

  /** Everything filed under the keys the caches satisfy belongs to `queue`. */
  ghost predicate NothingReady(f: Filed, blocks: set<Id>, cached: Batches, queue: seq<Key>) {
    forall k <- f :: Missing(blocks, cached, k) || k in queue
  }

  /** Every filed block is cached or one of `open`. */
  ghost predicate Within(f: Filed, blocks: set<Id>, open: set<Id>) {
    forall k <- f :: forall b <- f[k] :: b.id in blocks || b.id in open
  }

  // ----- deliveries -----

  function DeliveredIds(delivered: seq<Block>): set<Id> {
    set b | b in delivered :: b.id
  }

  /** Every delivered block is complete, delivered once, and follows a block that was cached at the
      start, was delivered before it, or is known to the chain. */
  ghost predicate InOrder(delivered: seq<Block>, start: set<Id>, chain: set<Id>) {
    forall i | 0 <= i < |delivered| ::
      Complete(delivered[i]) && delivered[i].id !in start && delivered[i].id !in DeliveredIds(delivered[..i]) &&
      (delivered[i].prev in start || delivered[i].prev in DeliveredIds(delivered[..i]) || delivered[i].prev in chain)
  }

  lemma DeliverOne(delivered: seq<Block>, start: set<Id>, chain: set<Id>, b: Block)
    requires InOrder(delivered, start, chain) && Complete(b) && b.id !in start + DeliveredIds(delivered)
    requires b.prev in start + DeliveredIds(delivered) || b.prev in chain
    ensures InOrder(delivered + [b], start, chain) && DeliveredIds(delivered + [b]) == DeliveredIds(delivered) + {b.id}
  {
    var all := delivered + [b];
    forall i | 0 <= i < |all|
      ensures Complete(all[i]) && all[i].id !in start && all[i].id !in DeliveredIds(all[..i]) &&
              (all[i].prev in start || all[i].prev in DeliveredIds(all[..i]) || all[i].prev in chain)
    {
      assert all[..i] == delivered[..i];
      assert i == |delivered| ==> delivered[..i] == delivered;
      assert i < |delivered| ==> all[i] == delivered[i];
    }
  }

  lemma OnceOnly(delivered: seq<Block>, start: set<Id>, chain: set<Id>, i: nat, j: nat)
    requires InOrder(delivered, start, chain) && i < |delivered| && j < |delivered|
    ensures delivered[i].id == delivered[j].id ==> i == j
  {
    if i < j {
      assert delivered[i] == delivered[..j][i];
      assert delivered[i].id in DeliveredIds(delivered[..j]);
    } else if j < i {
      assert delivered[j] == delivered[..i][j];
      assert delivered[j].id in DeliveredIds(delivered[..i]);
    }
  }

  /** Predecessors are delivered before the blocks that follow them, unless the chain knew them. */
  lemma ParentsFirst(delivered: seq<Block>, start: set<Id>, chain: set<Id>, i: nat, j: nat)
    requires InOrder(delivered, start, chain) && i < |delivered| && j < |delivered|
    requires delivered[i].prev == delivered[j].id && delivered[i].prev !in chain
    ensures j < i
  {
    assert delivered[i].prev in DeliveredIds(delivered[..i]) by {
      assert delivered[j].id !in start;
    }
    var k :| 0 <= k < i && delivered[..i][k].id == delivered[i].prev;
    assert delivered[k].id == delivered[j].id;
    OnceOnly(delivered, start, chain, k, j);
  }

  /** A predecessor that only the chain knew may come after its successor. */
  lemma KnownParentMayFollow()
    ensures var child, parent := Block(2, 1, [], []), Block(1, 0, [], []);
            InOrder([child, parent], {0}, {1}) && child.prev == parent.id
  {
    var child, parent := Block(2, 1, [], []), Block(1, 0, [], []);
    assert [child, parent][..0] == [] && [child, parent][..1] == [child];
    assert IdsOf([]) == [];
  }

  /** Equal ids in any order: every id of the header belongs to one of the batches. */
  lemma SameIdsHas(block: Block, id: Id)
    requires multiset(IdsOf(block.batches)) == multiset(block.batchIds) && id in block.batchIds
    ensures Has(block.batches, id)
  {
    assert id in multiset(block.batchIds);
    assert id in IdsOf(block.batches);
    var k :| 0 <= k < |block.batches| && IdsOf(block.batches)[k] == id;
    assert block.batches[k] in block.batches;
  }

  /** Wherever a lacking batch is, there is one no later than where the requests ended. */
  lemma FirstLacking(block: Block, cached: Batches, own: Batches, stop: nat, id: Id)
    requires id in block.batchIds && Lacking(cached, own, id) && stop <= |block.batchIds|
    requires stop < |block.batchIds| ==> Lacking(cached, own, block.batchIds[stop])
    ensures exists k :: 0 <= k < |block.batchIds| && k <= stop && Lacking(cached, own, block.batchIds[k])
  {
    var k :| 0 <= k < |block.batchIds| && block.batchIds[k] == id;
    if k > stop {
      assert Lacking(cached, own, block.batchIds[stop]);
    }
  }

  predicate Lacking(cached: Batches, own: Batches, id: Id) {
    id !in cached && id !in own
  }

  function RequestsFor(ids: seq<Id>, cached: Batches, own: Batches): set<Key> {
    set id | id in ids && Lacking(cached, own, id) :: BatchKey(id)
  }

  /** Filed under every missing batch among the first `n`, none of which had been requested. */
  ghost predicate FiledUpTo(before: set<Key>, f: Filed, block: Block, cached: Batches, own: Batches, n: nat) {
    n <= |block.batchIds| &&
    forall k | 0 <= k < n && Lacking(cached, own, block.batchIds[k]) ::
      BatchKey(block.batchIds[k]) in f && block in f[BatchKey(block.batchIds[k])] &&
      BatchKey(block.batchIds[k]) !in before
  }

  lemma RequestsStart(ids: seq<Id>, cached: Batches, own: Batches)
    ensures RequestsFor(ids[..0], cached, own) == {}
  {
  }

  lemma RequestsNext(ids: seq<Id>, cached: Batches, own: Batches, n: nat)
    requires n < |ids|
    ensures ids[..n + 1] == ids[..n] + [ids[n]] && ids[n] in ids
    ensures RequestsFor(ids[..n + 1], cached, own) ==
            RequestsFor(ids[..n], cached, own) + if Lacking(cached, own, ids[n]) then {BatchKey(ids[n])} else {}
    ensures BatchKey(ids[n]) in RequestsFor(ids[..n], cached, own) ==> ids[n] in ids[..n]
  {
  }

  lemma NothingLacks(ids: seq<Id>, cached: Batches, own: Batches)
    ensures RequestsFor(ids, cached, own) == {} <==> forall id <- ids :: id in cached || id in own
  {
    forall id | id in ids && Lacking(cached, own, id)
      ensures BatchKey(id) in RequestsFor(ids, cached, own)
    {
    }
  }

  lemma FiledAgain(before: Filed, was: Filed, now: Filed, block: Block, blocks: set<Id>, cached: Batches, k: Key)
    requires FiledMore(before, was, block, blocks, cached) && Missing(blocks, cached, k)
    requires k in now && now == was[k := now[k]]
    requires now[k] == if k !in was then [block] else if block in was[k] then was[k] else was[k] + [block]
    ensures FiledMore(before, now, block, blocks, cached)
  {
  }

  class Completer {
    var blockCache: set<Id>
    var batchCache: Batches
    var incomplete: Filed
    var requested: set<Key>
    var delivered: seq<Block>
    /** Every block that was ever added. */
    ghost var received: set<Block>
    /** What was cached before this completer's first delivery, and what only the chain controller knows. */
    const start: set<Id>
    const chain: set<Id>

    constructor (start: set<Id>, chain: set<Id>)
      ensures Valid() && Settled() && this.start == start && this.chain == chain && blockCache == start &&
              delivered == [] && received == {}
    {
      this.start, this.chain := start, chain;
      blockCache, batchCache, incomplete, requested, delivered := start, map[], map[], {}, [];
      received := {};
    }

    ghost predicate Valid()
      reads this
    {
      NamesItself(batchCache) && InOrder(delivered, start, chain) && blockCache == start + DeliveredIds(delivered)
    }

    /** No received block is lost. */
    ghost predicate AllAccounted()
      reads this
    {
      forall b <- received :: Accounted(incomplete, blockCache, chain, b)
    }

    /** No received block could be delivered and has not been. */
    ghost predicate NothingOverdue()
      reads this
    {
      forall b <- received :: b.id in blockCache || !Ready(b, blockCache, chain, batchCache)
    }

    /** No block is filed under something that is already there. */
    ghost predicate Settled()
      reads this
    {
      NothingReady(incomplete, blockCache, batchCache, [])
    }

    method FileUnder(k: Key, block: Block)
      modifies this`incomplete
      ensures k in incomplete && block in incomplete[k]
      ensures incomplete == old(incomplete)[k := incomplete[k]]
      ensures incomplete[k] ==
              if k !in old(incomplete) then [block] else if block in old(incomplete)[k] then old(incomplete)[k]
                  else old(incomplete)[k] + [block]
    {
      if k !in incomplete {
        incomplete := incomplete[k := [block]];
      } else if block !in incomplete[k] {
        incomplete := incomplete[k := incomplete[k] + [block]];
      }
    }

    /** The block's own batches by id. */
    method OwnBatches(block: Block) returns (own: Batches)
      ensures NamesItself(own) && (forall id :: id in own <==> Has(block.batches, id)) &&
              forall id <- own :: own[id] in block.batches
    {
      own := map[];
      var i := 0;
      while i < |block.batches|
        invariant 0 <= i <= |block.batches| && NamesItself(own)
        invariant forall id :: id in own <==> Has(block.batches[..i], id)
        invariant forall id <- own :: own[id] in block.batches
      {
        assert block.batches[..i + 1] == block.batches[..i] + [block.batches[i]];
        own := own[block.batches[i].id := block.batches[i]];
        i := i + 1;
      }
      assert block.batches[..i] == block.batches;
    }

    /** The batches of the header in its order; None if one cannot be found. */
    method FinalizeBatchList(block: Block, own: Batches) returns (r: Option<seq<Batch>>)
      requires NamesItself(batchCache) && NamesItself(own)
      ensures r.Some? <==> forall id <- block.batchIds :: id in batchCache || id in own
      ensures r.Some? ==> IdsOf(r.value) == block.batchIds
      ensures r.Some? ==>
              forall x <- r.value :: (x.id in batchCache && batchCache[x.id] == x) || (x.id in own && own[x.id] == x)
    {
      var batches: seq<Batch>, i := [], 0;
      while i < |block.batchIds|
        invariant 0 <= i <= |block.batchIds| && |batches| == i
        invariant forall k | 0 <= k < i :: batches[k].id == block.batchIds[k]
        invariant forall x <- batches ::
                    (x.id in batchCache && batchCache[x.id] == x) || (x.id in own && own[x.id] == x)
      {
        var id := block.batchIds[i];
        if id in batchCache {
          batches := batches + [batchCache[id]];
        } else if id in own {
          batches := batches + [own[id]];
        } else {
          return None;
        }
        i := i + 1;
      }
      return Some(batches);
    }

    /** Files a block under one missing batch and requests that, unless it has been requested. */
    method RequestOne(id: Id, block: Block, ghost before: Filed, ghost asked: set<Key>, ghost own: Batches,
                      ghost n: nat) returns (again: bool)
      requires n < |block.batchIds| && block.batchIds[n] == id && Lacking(batchCache, own, id)
      requires FiledMore(before, incomplete, block, blockCache, batchCache) &&
               FiledUpTo(asked, incomplete, block, batchCache, own, n)
      modifies this`incomplete, this`requested
      ensures again == (BatchKey(id) in old(requested)) && requested == old(requested) + {BatchKey(id)}
      ensures BatchKey(id) in incomplete && block in incomplete[BatchKey(id)]
      ensures FiledMore(before, incomplete, block, blockCache, batchCache) &&
              FiledUpTo(asked, incomplete, block, batchCache, own, n)
      ensures BatchKey(id) !in asked ==> FiledUpTo(asked, incomplete, block, batchCache, own, n + 1)
    {
      ghost var was := incomplete;
      FileUnder(BatchKey(id), block);
      FiledAgain(before, was, incomplete, block, blockCache, batchCache, BatchKey(id));
      again := BatchKey(id) in requested;
      requested := requested + {BatchKey(id)};
    }

    /** One round over the header: `again` tells that the batch is missing and was requested before. */
    method RequestNext(block: Block, own: Batches, ghost before: Filed, ghost asked: set<Key>, n: nat)
        returns (missing: bool, again: bool)
      requires n < |block.batchIds| && FiledMore(before, incomplete, block, blockCache, batchCache)
      requires FiledUpTo(asked, incomplete, block, batchCache, own, n)
      requires requested == asked + RequestsFor(block.batchIds[..n], batchCache, own)
      modifies this`incomplete, this`requested
      ensures missing == Lacking(batchCache, own, block.batchIds[n]) && (again ==> missing)
      ensures !missing ==> incomplete == old(incomplete) && requested == old(requested)
      ensures FiledMore(before, incomplete, block, blockCache, batchCache)
      ensures FiledUpTo(asked, incomplete, block, batchCache, own, if again then n else n + 1)
      ensures requested == asked + RequestsFor(block.batchIds[..if again then n else n + 1], batchCache, own)
      ensures again ==>
                var id := block.batchIds[n];
                BatchKey(id) in incomplete && block in incomplete[BatchKey(id)] &&
                BatchKey(id) in requested && (BatchKey(id) in asked || id in block.batchIds[..n])
    {
      var id := block.batchIds[n];
      RequestsNext(block.batchIds, batchCache, own, n);
      missing, again := id !in batchCache && id !in own, false;
      if missing {
        again := RequestOne(id, block, before, asked, own, n);
      }
    }

    /** Files a block under its missing batches, and requests them, in the order of the header. The
        first one that was requested before, or that the header repeats, ends it. */
    method RequestMissing(block: Block, own: Batches) returns (building: bool, ghost stop: nat)
      modifies this`incomplete, this`requested
      ensures building <==> RequestsFor(block.batchIds, batchCache, own) == {}
      ensures building ==> incomplete == old(incomplete) && requested == old(requested)
      ensures FiledMore(old(incomplete), incomplete, block, blockCache, batchCache)
      ensures FiledUpTo(old(requested), incomplete, block, batchCache, own, stop)
      ensures requested == old(requested) + RequestsFor(block.batchIds[..stop], batchCache, own)
      ensures stop < |block.batchIds| ==>
                var id := block.batchIds[stop];
                Lacking(batchCache, own, id) && BatchKey(id) in incomplete && block in incomplete[BatchKey(id)] &&
                BatchKey(id) in requested && (BatchKey(id) in old(requested) || id in block.batchIds[..stop])
    {
      building, stop := true, 0;
      var i := 0;
      RequestsStart(block.batchIds, batchCache, own);
      while i < |block.batchIds|
        invariant 0 <= i <= |block.batchIds| && stop == i
        invariant building <==> RequestsFor(block.batchIds[..i], batchCache, own) == {}
        invariant building ==> incomplete == old(incomplete) && requested == old(requested)
        invariant FiledMore(old(incomplete), incomplete, block, blockCache, batchCache)
        invariant requested == old(requested) + RequestsFor(block.batchIds[..i], batchCache, own)
        invariant FiledUpTo(old(requested), incomplete, block, batchCache, own, i)
      {
        RequestsNext(block.batchIds, batchCache, own, i);
        var missing, again := RequestNext(block, own, old(incomplete), old(requested), i);
        if missing {
          building := false;
          assert BatchKey(block.batchIds[i]) in RequestsFor(block.batchIds, batchCache, own);
        }
        if again {
          return;
        }
        i, stop := i + 1, stop + 1;
      }
      assert block.batchIds[..i] == block.batchIds;
    }

    /** Whether all batches are there; if not, the block is filed under one it needs. */
    method CheckMissing(block: Block, own: Batches) returns (building: bool)
      requires |block.batches| < |block.batchIds| && forall id :: id in own <==> Has(block.batches, id)
      modifies this`incomplete, this`requested
      ensures building <==> forall id <- block.batchIds :: id in batchCache || Has(block.batches, id)
      ensures building ==> incomplete == old(incomplete) && requested == old(requested)
      ensures FiledMore(old(incomplete), incomplete, block, blockCache, batchCache)
      ensures !building ==>
                exists id <- block.batchIds ::
                  id !in batchCache && !Has(block.batches, id) && BatchKey(id) in requested &&
                  BatchKey(id) in incomplete && block in incomplete[BatchKey(id)]
    {
      ghost var stop;
      building, stop := RequestMissing(block, own);
      NothingLacks(block.batchIds, batchCache, own);
      if !building {
        ghost var id :| id in block.batchIds && Lacking(batchCache, own, id);
        FirstLacking(block, batchCache, own, stop, id);
      }
    }

    /** Fills in a block that can be completed; any other is filed under what it waits for, or
        dropped. */
    method CompleteBlock(block: Block) returns (r: Option<Block>)
      requires NamesItself(batchCache)
      modifies this`incomplete, this`requested
      ensures r.Some? <==>
              block.id !in blockCache && Known(blockCache, chain, block.prev) && Completable(block, batchCache)
      ensures r.Some? ==>
                Delivers(block, r.value, batchCache) && incomplete == old(incomplete) &&
                requested == old(requested) - {BlockKey(block.id)}
      ensures FiledMore(old(incomplete), incomplete, block, blockCache, batchCache)
      ensures Accounted(incomplete, blockCache, chain, block) || r.Some?
      ensures r.None? ==> block.id in blockCache || (Known(blockCache, chain, block.prev) && !WellFormed(block)) ||
                          exists k <- incomplete ::
                            block in incomplete[k] && Needs(block, k, chain) && Missing(blockCache, batchCache, k)
      ensures block.id !in blockCache && !Known(blockCache, chain, block.prev) ==>
                BlockKey(block.prev) in incomplete && block in incomplete[BlockKey(block.prev)] &&
                requested == old(requested) + {BlockKey(block.prev)}
      ensures block.id !in blockCache && Known(blockCache, chain, block.prev) && WellFormed(block) && r.None? ==>
                exists id <- block.batchIds :: id !in batchCache && !Has(block.batches, id) && BatchKey(id) in requested
    {
      if block.id in blockCache {
        return None;
      }
      if block.prev !in blockCache && block.prev !in chain {
        FileUnder(BlockKey(block.prev), block);
        requested := requested + {BlockKey(block.prev)};
        return None;
      }
      if |block.batches| > |block.batchIds| {
        assert |multiset(IdsOf(block.batches))| > |multiset(block.batchIds)|;
        return None;
      }
      var own := OwnBatches(block);
      if |block.batches| != |block.batchIds| {
        var building := CheckMissing(block, own);
        if !building {
          return None;
        }
      } else {
        var ids := IdsOf(block.batches);
        if ids == block.batchIds {
          requested := requested - {BlockKey(block.id)};
          return Some(block);
        }
        if multiset(ids) != multiset(block.batchIds) {
          return None;
        }
        forall id | id in block.batchIds
          ensures id in own
        {
          SameIdsHas(block, id);
        }
      }
      var batches := FinalizeBatchList(block, own);
      requested := requested - {BlockKey(block.id)};
      return Some(block.(batches := batches.value));
    }

    /** A complete block goes to the chain controller and into the cache. */
    method DeliverBlock(block: Block)
      requires Valid() && Complete(block) && block.id !in blockCache && Known(blockCache, chain, block.prev)
      modifies this`blockCache, this`delivered
      ensures Valid() && delivered == old(delivered) + [block] && blockCache == old(blockCache) + {block.id}
    {
      DeliverOne(delivered, start, chain, block);
      blockCache := blockCache + {block.id};
      delivered := delivered + [block];
    }

    /** The block is delivered at once if it can be, and then whatever it was that waited for it. */
    method AddBlock(block: Block)
      requires Valid() && Settled() && AllAccounted()
      modifies this
      ensures Valid() && Settled() && AllAccounted() && NothingOverdue()
      ensures old(delivered) <= delivered && batchCache == old(batchCache) && received == old(received) + {block}
      ensures var ready := block.id !in old(blockCache) && (block.prev in old(blockCache) || block.prev in chain) &&
                           if |block.batches| < |block.batchIds|
                           then forall id <- block.batchIds :: id in batchCache || Has(block.batches, id)
                           else multiset(IdsOf(block.batches)) == multiset(block.batchIds);
              (ready ==> |old(delivered)| < |delivered| && Delivers(block, delivered[|old(delivered)|], batchCache)) &&
              (!ready ==> delivered == old(delivered))
    {
      ghost var was, before := incomplete, blockCache;
      var done := CompleteBlock(block);
      StillNothingReady(was, incomplete, block, blockCache, batchCache, []);
      StillAllAccounted(was, incomplete, block, blockCache, batchCache, chain, received);
      received := received + {block};
      if done.Some? {
        NextReady(incomplete, blockCache, batchCache, [], block.id);
        assert [] + [BlockKey(block.id)] == [BlockKey(block.id)];
        DeliverBlock(done.value);
        ProcessIncompleteBlocks(BlockKey(done.value.id));
      }
      NothingIsOverdue();
    }

    lemma NothingIsOverdue()
      requires Settled() && AllAccounted()
      ensures NothingOverdue()
    {
      forall b | b in received
        ensures b.id in blockCache || !Ready(b, blockCache, chain, batchCache)
      {
        NothingLeftReady(incomplete, blockCache, chain, batchCache, b);
      }
    }

    /** A batch whose own dependencies are met. Whatever it completes is delivered. */
    method AddBatch(batch: Batch)
      requires Valid() && Settled() && AllAccounted()
      modifies this
      ensures Valid() && Settled() && AllAccounted() && NothingOverdue()
      ensures old(delivered) <= delivered && received == old(received)
      ensures batchCache == if batch.id in old(batchCache) then old(batchCache) else old(batchCache)[batch.id := batch]
    {
      if batch.id !in batchCache {
        batchCache := batchCache[batch.id := batch];
        ProcessIncompleteBlocks(BatchKey(batch.id));
        requested := requested - {BatchKey(batch.id)};
      }
      NothingIsOverdue();
    }

    /** Works off everything filed under a key that has arrived, and under whatever is delivered on
        the way. It ends because every delivery takes one block from the filed ones not cached yet. */
    method ProcessIncompleteBlocks(key: Key)
      requires Valid() && NothingReady(incomplete, blockCache, batchCache, [key]) &&
               !Missing(blockCache, batchCache, key)
      requires AllAccounted()
      modifies this
      ensures Valid() && Settled() && AllAccounted()
      ensures old(delivered) <= delivered && batchCache == old(batchCache) && received == old(received)
    {
      var queue := [key];
      ghost var open := FiledIds(incomplete);
      while queue != []
        invariant Valid() && NothingReady(incomplete, blockCache, batchCache, queue) && batchCache == old(batchCache)
        invariant forall k <- queue :: !Missing(blockCache, batchCache, k)
        invariant old(delivered) <= delivered && Within(incomplete, blockCache, open)
        invariant AllAccounted() && received == old(received)
        decreases |open|, |queue|
      {
        var k := queue[0];
        queue := queue[1..];
        if k in incomplete {
          var found;
          found, open := CompleteFiled(k, queue, open);
          queue := queue + found;
        }
      }
    }

    /** Tries every block filed under one key and forgets the key. */
    method CompleteFiled(key: Key, ghost queue: seq<Key>, ghost open: set<Id>)
        returns (found: seq<Key>, ghost left: set<Id>)
      requires Valid() && key in incomplete && !Missing(blockCache, batchCache, key)
      requires NothingReady(incomplete, blockCache, batchCache, [key] + queue) && Within(incomplete, blockCache, open)
      requires AllAccounted() && forall k <- queue :: !Missing(blockCache, batchCache, k)
      modifies this
      ensures Valid() && NothingReady(incomplete, blockCache, batchCache, queue + found) &&
              batchCache == old(batchCache)
      ensures forall k <- queue + found :: !Missing(blockCache, batchCache, k)
      ensures old(delivered) <= delivered && Within(incomplete, blockCache, left)
      ensures if found == [] then left == open else |left| < |open|
      ensures AllAccounted() && received == old(received)
    {
      var filed, i := incomplete[key], 0;
      found, left := [], open;
      assert [key] + queue + found == [key] + queue;
      while i < |filed|
        invariant 0 <= i <= |filed| && Valid() && batchCache == old(batchCache)
        invariant key in incomplete && incomplete[key] == filed && !Missing(blockCache, batchCache, key)
        invariant NothingReady(incomplete, blockCache, batchCache, [key] + queue + found)
        invariant forall k <- queue + found :: !Missing(blockCache, batchCache, k)
        invariant old(delivered) <= delivered && Within(incomplete, blockCache, left)
        invariant if found == [] then left == open else |left| < |open|
        invariant AllAccounted() && received == old(received)
        invariant forall j | 0 <= j < i :: Accounted(incomplete - {key}, blockCache, chain, filed[j])
      {
        var more;
        more, left := CompleteOne(key, i, [key] + queue + found, left);
        assert [key] + queue + found + more == [key] + queue + (found + more);
        assert queue + found + more == queue + (found + more);
        found := found + more;
        i := i + 1;
      }
      ForgetKey(incomplete, blockCache, chain, key, received);
      incomplete := incomplete - {key};
    }

    method CompleteOne(key: Key, i: nat, ghost queue: seq<Key>, ghost open: set<Id>)
        returns (found: seq<Key>, ghost left: set<Id>)
      requires Valid() && key in incomplete && i < |incomplete[key]| && !Missing(blockCache, batchCache, key)
      requires NothingReady(incomplete, blockCache, batchCache, queue) && Within(incomplete, blockCache, open)
      requires AllAccounted()
      modifies this
      ensures Valid() && NothingReady(incomplete, blockCache, batchCache, queue + found) &&
              batchCache == old(batchCache)
      ensures key in incomplete && incomplete[key] == old(incomplete)[key] && old(blockCache) <= blockCache
      ensures forall k <- found :: !Missing(blockCache, batchCache, k)
      ensures old(delivered) <= delivered && Within(incomplete, blockCache, left)
      ensures if found == [] then left == open else |left| < |open|
      ensures AllAccounted() && received == old(received)
      ensures Accounted(incomplete - {key}, blockCache, chain, old(incomplete)[key][i])
      ensures forall b :: Accounted(old(incomplete) - {key}, old(blockCache), chain, b) ==>
                Accounted(incomplete - {key}, blockCache, chain, b)
    {
      var block := incomplete[key][i];
      ghost var was := incomplete;
      assert block in was[key];
      found, left := [], open;
      var done := CompleteBlock(block);
      StillNothingReady(was, incomplete, block, blockCache, batchCache, queue);
      StillWithin(was, incomplete, block, blockCache, batchCache, open);
      StillAllAccounted(was, incomplete, block, blockCache, batchCache, chain, received);
      StillAccountedWithout(was, incomplete, block, blockCache, batchCache, chain, key);
      assert queue + [] == queue;
      if done.Some? {
        ghost var before := blockCache;
        DeliverBlock(done.value);
        found, left := [BlockKey(block.id)], open - {block.id};
        NextReady(incomplete, before, batchCache, queue, block.id);
      } else {
        FiledElsewhere(incomplete, blockCache, batchCache, chain, key, block);
      }
    }
  }

  lemma StillAllAccounted(before: Filed, after: Filed, block: Block, blocks: set<Id>, cached: Batches, chain: set<Id>,
                          received: set<Block>)
    requires FiledMore(before, after, block, blocks, cached) &&
             forall b <- received :: Accounted(before, blocks, chain, b)
    ensures forall b <- received :: Accounted(after, blocks, chain, b)
  {
    forall b | b in received
      ensures Accounted(after, blocks, chain, b)
    {
      StillAccounted(before, after, block, blocks, cached, chain, b);
    }
  }

  lemma StillAccountedWithout(before: Filed, after: Filed, block: Block, blocks: set<Id>, cached: Batches,
                              chain: set<Id>, key: Key)
    requires FiledMore(before, after, block, blocks, cached)
    ensures forall b :: Accounted(before - {key}, blocks, chain, b) ==> Accounted(after - {key}, blocks, chain, b)
  {
    forall b | Accounted(before - {key}, blocks, chain, b)
      ensures Accounted(after - {key}, blocks, chain, b)
    {
      StillAccounted(before - {key}, after - {key}, block, blocks, cached, chain, b);
    }
  }

  /** A block that waits for something missing does not wait under a key that has arrived. */
  lemma FiledElsewhere(f: Filed, blocks: set<Id>, cached: Batches, chain: set<Id>, key: Key, b: Block)
    requires !Missing(blocks, cached, key)
    requires b.id in blocks || (Known(blocks, chain, b.prev) && !WellFormed(b)) ||
             exists k <- f :: b in f[k] && Needs(b, k, chain) && Missing(blocks, cached, k)
    ensures Accounted(f - {key}, blocks, chain, b)
  {
    if !(b.id in blocks || (Known(blocks, chain, b.prev) && !WellFormed(b))) {
      var k :| k in f && b in f[k] && Needs(b, k, chain) && Missing(blocks, cached, k);
      assert k in f - {key} && b in (f - {key})[k];
    }
  }

  /** A key may be forgotten once every block filed under it is accounted for without it. */
  lemma ForgetKey(f: Filed, blocks: set<Id>, chain: set<Id>, key: Key, received: set<Block>)
    requires key in f && forall b <- received :: Accounted(f, blocks, chain, b)
    requires forall j | 0 <= j < |f[key]| :: Accounted(f - {key}, blocks, chain, f[key][j])
    ensures forall b <- received :: Accounted(f - {key}, blocks, chain, b)
  {
    forall b | b in received
      ensures Accounted(f - {key}, blocks, chain, b)
    {
      if b in f[key] {
        var j :| 0 <= j < |f[key]| && f[key][j] == b;
      } else if Files(f, b, chain) {
        var k :| k in f && b in f[k] && Needs(b, k, chain);
        assert k in f - {key} && b in (f - {key})[k];
      }
    }
  }

  /** Filing a block under what is missing makes nothing ready. */
  lemma StillNothingReady(before: Filed, after: Filed, block: Block, blocks: set<Id>, cached: Batches, queue: seq<Key>)
    requires FiledMore(before, after, block, blocks, cached) && NothingReady(before, blocks, cached, queue)
    ensures NothingReady(after, blocks, cached, queue)
  {
  }

  lemma StillWithin(before: Filed, after: Filed, block: Block, blocks: set<Id>, cached: Batches, open: set<Id>)
    requires FiledMore(before, after, block, blocks, cached) && Within(before, blocks, open)
    requires block.id in blocks || block.id in open
    ensures Within(after, blocks, open)
  {
    forall k, b | k in after && b in after[k]
      ensures b.id in blocks || b.id in open
    {
      assert (k in before && b in before[k]) || b == block;
    }
  }

  /** A delivered block makes ready at most what waits for it. */
  lemma NextReady(f: Filed, blocks: set<Id>, cached: Batches, queue: seq<Key>, id: Id)
    requires NothingReady(f, blocks, cached, queue)
    ensures NothingReady(f, blocks + {id}, cached, queue + [BlockKey(id)])
  {
    forall k | k in f
      ensures Missing(blocks + {id}, cached, k) || k in queue + [BlockKey(id)]
    {
      assert Missing(blocks, cached, k) || k in queue;
      assert (queue + [BlockKey(id)])[|queue|] == BlockKey(id);
    }
  }

  ghost function FiledIds(f: Filed): set<Id> {
    set k, b | k in f && b in f[k] :: b.id
  }
}
