/** The reward request: which ancestors of a head are returned for a range of heights, looked up
    in the block cache and, where the cache ends, in the block store. */
module RewardList {
  import opened Wrappers
  import opened BlockTree

  const INTERVAL_LIMIT: int := 20
  const DEPTH_LIMIT: int := 10000

  datatype Response = Blocks(ids: seq<Id>) | NoRoot | InternalError | NoResource

  /** The ancestors of `head` at the heights `last` up to `first`, lowest first. */
  ghost predicate IsAnswer(t: Tree, head: Id, first: int, last: int, ids: seq<Id>)
    requires Linked(t)
  {
    |ids| == first - last + 1 &&
        forall k | 0 <= k < |ids| :: ids[k] in Chain(t, head) && ids[k] in t && t[ids[k]].num == last + k
  }

  /** There is only one answer. */
  lemma OneAnswer(t: Tree, head: Id, first: int, last: int, a: seq<Id>, b: seq<Id>)
    requires Linked(t) && IsAnswer(t, head, first, last, a) && IsAnswer(t, head, first, last, b)
    ensures a == b
  {
    forall k | 0 <= k < |a|
      ensures a[k] == b[k]
    {
      OneAtHeight(t, head, a[k], b[k]);
    }
  }

  lemma {:induction false} OneAtHeight(t: Tree, head: Id, x: Id, y: Id)
    requires Linked(t) && x in Chain(t, head) && y in Chain(t, head) && x in t && y in t && t[x].num == t[y].num
    ensures x == y
    decreases Rank(t, head)
  {
    ChainBelow(t, head, x);
    ChainBelow(t, head, y);
    if x != head && y != head {
      RankFalls(t, head);
      OneAtHeight(t, t[head].prev, x, y);
    }
  }

  function Reverse(ids: seq<Id>): (r: seq<Id>)
    ensures |r| == |ids| && forall k | 0 <= k < |ids| :: r[k] == ids[|ids| - 1 - k]
  {
    if ids == [] then [] else Reverse(ids[1..]) + [ids[0]]
  }

  /** Whether the path of `head` leaves the cache above or at height `first`. */
  ghost predicate LeavesCache(t: Tree, cache: Tree, head: Id, first: int)
    requires Linked(t)
  {
    exists x <- Chain(t, head) :: x in t && x !in cache && x != head && first <= t[x].num
  }

  /** Genesis blocks have height 0. */
  ghost predicate RootsAtZero(t: Tree) {
    forall x <- t :: t[x].prev == NULL ==> t[x].num == 0
  }

  class RewardListRequest {
    var cache: Tree
    const store: Tree
    /** The block store's index by height. */
    const byNumber: map<int, Id>

    constructor (cache: Tree, store: Tree, byNumber: map<int, Id>)
      ensures this.cache == cache && this.store == store && this.byNumber == byNumber
    {
      this.cache, this.store, this.byNumber := cache, store, byNumber;
    }

    function All(): Tree
      reads this
    {
      store + cache
    }

    /** A block is the same wherever it is found, and the index leads to stored blocks. */
    ghost predicate Valid()
      reads this
    {
      Linked(All()) && (forall id <- cache | id in store :: store[id] == cache[id]) &&
      forall h <- byNumber :: byNumber[h] in store && store[byNumber[h]].num == h
    }

    /** Looks in the cache, then in the store; a stored block is cached on the way. */
    method Get(id: Id) returns (r: Option<Block>, stored: bool)
      requires Valid()
      modifies this`cache
      ensures Valid() && All() == old(All())
      ensures r == if id in All() then Some(All()[id]) else None
      ensures stored <==> id !in old(cache) && id in store
      ensures cache == if stored then old(cache)[id := store[id]] else old(cache)
    {
      stored := false;
      if id in cache {
        return Some(cache[id]), false;
      }
      if id in store {
        cache := cache[id := store[id]];
        assert All() == old(All());
        return Some(store[id]), true;
      }
      return None, false;
    }

    /** Walks from the head down to height `first`; as soon as a predecessor comes from the store, the
        store's own block of that height is taken instead. */
    method FindFirst(head: Id, first: int) returns (r: Option<Id>, jumped: bool)
      requires Valid() && head in All() && 0 < first < All()[head].num
      modifies this`cache
      ensures Valid() && All() == old(All())
      ensures r.Some? ==> r.value in All() && All()[r.value].num == first
      ensures r.Some? && !jumped ==> r.value in Chain(All(), head)
      ensures jumped ==> first in byNumber && r == Some(byNumber[first])
      ensures r.Some? ==> (jumped <==> LeavesCache(old(All()), old(cache), head, first))
      ensures first in byNumber && Closed(All()) && RootsAtZero(All()) ==> r.Some?
    {
      ghost var t, c := All(), cache;
      var id := head;
      BelowHead(t, head);
      while All()[id].num != first
        invariant Valid() && All() == t && cache == c && id in t && id in Chain(t, head) && first <= t[id].num
        invariant forall x :: x in Chain(t, head) && x in t && x !in c && x != head ==> t[x].num < t[id].num
        decreases Rank(All(), id)
      {
        RankFalls(t, id);
        assert Follows(t, id) && (Closed(t) ==> Rooted(t, id));
        NextOnPath(t, head, id);
        var prev := All()[id].prev;
        var block, stored := Get(prev);
        if block.None? {
          return None, false;
        }
        if stored {
          assert prev in Chain(t, head) && prev !in c && prev != head;
          if first in byNumber {
            return Some(byNumber[first]), true;
          }
          return None, false;
        }
        NothingBetween(t, head, id);
        id := prev;
      }
      return Some(id), false;
    }

    /** Collects the path from height `first` down to `last`, newest first. */
    method Collect(start: Id, first: int, last: int) returns (r: Option<seq<Id>>)
      requires Valid() && start in All() && All()[start].num == first && 0 < last < first
      modifies this`cache
      ensures Valid() && All() == old(All())
      ensures r.Some? ==> |r.value| == first - last + 1 && r.value[0] == start
      ensures r.Some? ==>
        forall k | 0 <= k < |r.value| ::
          r.value[k] in Chain(All(), start) && r.value[k] in All() && All()[r.value[k]].num == first - k
      ensures Closed(All()) && RootsAtZero(All()) ==> r.Some?
    {
      ghost var t := All();
      var id, ids := start, [];
      assert start in Chain(t, start);
      while All()[id].num != last - 1
        invariant Valid() && All() == t && id in t && id in Chain(t, start) && last - 1 <= t[id].num == first - |ids|
        invariant forall k | 0 <= k < |ids| :: ids[k] in Chain(t, start) && ids[k] in t && t[ids[k]].num == first - k
        invariant ids == [] ==> id == start
        invariant ids != [] ==> ids[0] == start
        decreases Rank(All(), id)
      {
        RankFalls(t, id);
        assert Follows(t, id) && (Closed(t) ==> Rooted(t, id));
        ids := ids + [id];
        NextOnPath(t, start, id);
        var block, stored := Get(All()[id].prev);
        if block.None? {
          return None;
        }
        id := All()[id].prev;
      }
      return Some(ids);
    }

    /** The answer is right exactly when the store agrees with the head at height `first` or the
        store was not asked: the head is near and its path down to there is cached. */
    method Respond(request: Option<Id>, first: int, last: int) returns (r: Response)
      requires Valid()
      modifies this`cache
      ensures Valid() && All() == old(All())
      ensures r.NoRoot? <==> request.None? || request.value !in All()
      ensures request.Some? && request.value in All() ==>
        var head := request.value;
        (r.Blocks? ==>
          0 < last < first < All()[head].num && first - last < INTERVAL_LIMIT &&
          (IsAnswer(All(), head, first, last, r.ids) <==>
            (first in byNumber && byNumber[first] in Chain(All(), head)) ||
            (All()[head].num - first <= DEPTH_LIMIT && !LeavesCache(All(), old(cache), head, first)))) &&
        (r.InternalError? <==>
          !(0 < last < first < All()[head].num && first - last < INTERVAL_LIMIT) ||
          (DEPTH_LIMIT < All()[head].num - first && first !in byNumber)) &&
        (r.NoResource? ==>
          !Closed(All()) || first !in byNumber || !RootsAtZero(All()))
    {
      if request.None? {
        return NoRoot;
      }
      var head := request.value;
      var block, stored := Get(head);
      if block.None? {
        return NoRoot;
      }
      var padding, delta := block.value.num - first, first - last;
      if !(0 < last && 0 < delta && 0 < padding && delta < INTERVAL_LIMIT) {
        return InternalError;
      }
      var start, jumped := None, true;
      if DEPTH_LIMIT < padding {
        if first !in byNumber {
          return InternalError;
        }
        start := Some(byNumber[first]);
      } else {
        start, jumped := FindFirst(head, first);
      }
      if start.None? {
        return NoResource;
      }
      var ids := Collect(start.value, first, last);
      if ids.None? {
        return NoResource;
      }
      AnswerFrom(All(), head, start.value, first, last, ids.value);
      r := Blocks(Reverse(ids.value));
    }
  }

  lemma BelowHead(t: Tree, head: Id)
    requires Linked(t) && head in t
    ensures head in Chain(t, head) && forall x :: x in Chain(t, head) && x != head ==> x in t && t[x].num < t[head].num
  {
    forall x | x in Chain(t, head) && x != head
      ensures x in t && t[x].num < t[head].num
    {
      ChainBelow(t, head, x);
    }
  }

  /** No height is skipped on a path. */
  lemma NothingBetween(t: Tree, top: Id, x: Id)
    requires Linked(t) && x in Chain(t, top) && x in t && t[x].prev in t
    ensures forall y :: y in Chain(t, top) && y in t && t[y].num < t[x].num ==>
              y == t[x].prev || t[y].num < t[t[x].prev].num
  {
    NextOnPath(t, top, x);
    assert Follows(t, x);
    forall y | y in Chain(t, top) && y in t && t[y].num == t[t[x].prev].num
      ensures y == t[x].prev
    {
      OneAtHeight(t, top, y, t[x].prev);
    }
  }

  lemma AnswerFrom(t: Tree, head: Id, start: Id, first: int, last: int, ids: seq<Id>)
    requires Linked(t) && start in t && 0 < last < first && |ids| == first - last + 1 && ids[0] == start
    requires forall k | 0 <= k < |ids| :: ids[k] in Chain(t, start) && ids[k] in t && t[ids[k]].num == first - k
    ensures IsAnswer(t, head, first, last, Reverse(ids)) <==> start in Chain(t, head)
  {
    var r := Reverse(ids);
    assert r[|r| - 1] == start;
    if start in Chain(t, head) {
      forall k | 0 <= k < |r|
        ensures r[k] in Chain(t, head)
      {
        AboveIsApart(t, head, start, ids[|ids| - 1 - k]);
      }
    }
  }

  // ----- when an answer can be wrong -----

  /** The store is the path of its own head, indexed by height. */
  ghost predicate IsPath(store: Tree, byNumber: map<int, Id>, top: Id)
    requires Linked(store)
  {
    top in store && store.Keys == Members(Chain(store, top)) &&
    (forall id <- store :: store[id].num in byNumber && byNumber[store[id].num] == id) &&
    forall h <- byNumber :: byNumber[h] in store && store[byNumber[h]].num == h
  }

  /** Of two blocks on a path the lower one is on the path of the higher one. */
  lemma {:induction false} LowerOnPath(t: Tree, top: Id, x: Id, y: Id)
    requires Linked(t) && x in Chain(t, top) && y in Chain(t, top) && x in t && y in t && t[y].num <= t[x].num
    ensures y in Chain(t, x)
    decreases Rank(t, top)
  {
    ChainBelow(t, top, x);
    ChainBelow(t, top, y);
    if x != top {
      RankFalls(t, top);
      LowerOnPath(t, t[top].prev, x, y);
    }
  }

  /** What is around the store does not change the paths inside it. */
  lemma {:induction false} StorePath(store: Tree, t: Tree, id: Id, x: Id)
    requires Linked(store) && Linked(t) && store.Keys <= t.Keys && (forall y <- store :: t[y] == store[y])
    requires x in Chain(store, id)
    ensures x in Chain(t, id)
    decreases Rank(store, id)
  {
    if x != id {
      RankFalls(store, id);
      RankFalls(t, id);
      StorePath(store, t, store[id].prev, x);
    }
  }

  /** A path that leaves the cache enters the store, whose block at any lower height is on it too. So
      an answer can be wrong only for a head that is more than `DEPTH_LIMIT` blocks ahead. */
  lemma WrongOnlyWhenDeep(t: Tree, cache: Tree, store: Tree, byNumber: map<int, Id>, top: Id, head: Id, first: int)
    requires Linked(t) && Linked(store) && IsPath(store, byNumber, top) && first in byNumber
    requires t.Keys == store.Keys + cache.Keys && (forall y <- store :: t[y] == store[y])
    requires LeavesCache(t, cache, head, first)
    ensures byNumber[first] in Chain(t, head)
  {
    var x :| x in Chain(t, head) && x in t && x !in cache && x != head && first <= t[x].num;
    var y := byNumber[first];
    LowerOnPath(store, top, x, y);
    StorePath(store, t, x, y);
    AboveIsApart(t, head, x, y);
  }
}
