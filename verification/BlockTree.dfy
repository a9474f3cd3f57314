/** Blocks, their ancestor paths, and where two paths meet. */
module BlockTree {
  import opened Wrappers

  /** Block signatures, by number; `NULL` is the identifier that precedes a genesis block. */
  type Id = nat
  const NULL: Id := 0

  datatype Consensus = PoW(difficulty: nat, time: real) | Other

  datatype Block = Block(prev: Id, num: nat, consensus: Consensus)

  type Tree = map<Id, Block>

  predicate Follows(t: Tree, id: Id) {
    id in t ==> id != NULL && (t[id].prev in t ==> t[t[id].prev].num + 1 == t[id].num)
  }

  /** Every block is numbered one above its predecessor. A predecessor may be missing. */
  ghost predicate Linked(t: Tree) {
    forall id {:trigger Follows(t, id)} :: Follows(t, id)
  }

  /** Blocks that are not genesis blocks have their predecessor in the tree. */
  predicate Rooted(t: Tree, id: Id) {
    id in t ==> t[id].prev == NULL || t[id].prev in t
  }

  ghost predicate Closed(t: Tree) {
    forall id {:trigger Rooted(t, id)} :: Rooted(t, id)
  }

  function Rank(t: Tree, id: Id): nat {
    if id in t then t[id].num + 1 else 0
  }

  lemma RankFalls(t: Tree, id: Id)
    requires Linked(t) && id in t
    ensures Rank(t, t[id].prev) < Rank(t, id)
  {
    assert Follows(t, id);
  }

  /** The ancestor path, newest first, starting with the block itself. */
  ghost function Chain(t: Tree, id: Id): seq<Id>
    requires Linked(t)
    decreases Rank(t, id)
  {
    if id !in t then []
    else
      RankFalls(t, id);
      [id] + Chain(t, t[id].prev)
  }

  function Members(ids: seq<Id>): set<Id> {
    set x | x in ids
  }

  /** The part of the ancestor path above `stop`. */
  ghost function Above(t: Tree, id: Id, stop: Id): seq<Id>
    requires Linked(t)
    decreases Rank(t, id)
  {
    if id !in t || id == stop then []
    else
      RankFalls(t, id);
      [id] + Above(t, t[id].prev, stop)
  }

  /** The first block the two ancestor paths share. */
  ghost function Meet(t: Tree, a: Id, b: Id): Option<Id>
    requires Linked(t)
    decreases Rank(t, a) + Rank(t, b)
  {
    if a !in t || b !in t then None
    else if a == b then Some(a)
    else
      RankFalls(t, a);
      RankFalls(t, b);
      if t[a].num > t[b].num then Meet(t, t[a].prev, b)
      else if t[a].num < t[b].num then Meet(t, a, t[b].prev)
      else Meet(t, t[a].prev, t[b].prev)
  }

  /** Nothing on an ancestor path is numbered above its start. */
  lemma {:induction false} ChainBelow(t: Tree, id: Id, x: Id)
    requires Linked(t) && x in Chain(t, id)
    ensures id in t && x in t && t[x].num <= t[id].num && (x == id <==> t[x].num == t[id].num)
    decreases Rank(t, id)
  {
    if x != id {
      RankFalls(t, id);
      ChainBelow(t, t[id].prev, x);
      assert Follows(t, id);
    }
  }

  /** A path goes through every block on it: what is above it, then its own path. */
  lemma {:induction false} ChainThrough(t: Tree, id: Id, x: Id)
    requires Linked(t) && x in Chain(t, id)
    ensures Chain(t, id) == Above(t, id, x) + Chain(t, x) && x in t
    decreases Rank(t, id)
  {
    if x != id {
      RankFalls(t, id);
      ChainThrough(t, t[id].prev, x);
      assert [id] + (Above(t, t[id].prev, x) + Chain(t, x)) == ([id] + Above(t, t[id].prev, x)) + Chain(t, x);
    } else {
      assert Above(t, id, x) + Chain(t, x) == Chain(t, x);
    }
  }

  /** Every block is on its path at one place only. */
  lemma {:induction false} AboveIsApart(t: Tree, id: Id, x: Id, y: Id)
    requires Linked(t) && x in Chain(t, id) && y in Chain(t, x)
    ensures y !in Above(t, id, x) && y in Chain(t, id)
    decreases Rank(t, id)
  {
    if x != id {
      RankFalls(t, id);
      AboveIsApart(t, t[id].prev, x, y);
      ChainBelow(t, t[id].prev, x);
      ChainBelow(t, x, y);
      assert Follows(t, id);
    }
  }

  lemma {:induction false} AboveOnChain(t: Tree, id: Id, stop: Id, x: Id)
    requires Linked(t) && x in Above(t, id, stop)
    ensures x in Chain(t, id) && x != stop
    decreases Rank(t, id)
  {
    if x != id {
      RankFalls(t, id);
      AboveOnChain(t, t[id].prev, stop, x);
    }
  }

  /** A path goes on with the predecessor of each of its blocks. */
  lemma {:induction false} NextOnPath(t: Tree, top: Id, x: Id)
    requires Linked(t) && x in Chain(t, top) && x in t
    ensures t[x].prev in t ==> t[x].prev in Chain(t, top) && t[x].prev != top
    decreases Rank(t, top)
  {
    RankFalls(t, top);
    RankFalls(t, x);
    if t[x].prev in t {
      assert t[x].prev in Chain(t, t[x].prev);
      if x != top {
        NextOnPath(t, t[top].prev, x);
        ChainBelow(t, t[top].prev, t[x].prev);
        assert Follows(t, top);
      }
    }
  }

  lemma {:induction false} AboveFurther(t: Tree, top: Id, x: Id)
    requires Linked(t) && x in Chain(t, top) && x in t && t[x].prev in t
    ensures t[x].prev in Chain(t, top) && Above(t, top, t[x].prev) == Above(t, top, x) + [x]
    decreases Rank(t, top)
  {
    var p := t[x].prev;
    RankFalls(t, top);
    RankFalls(t, x);
    assert p in Chain(t, p);
    if top == x {
      assert Above(t, p, p) == [];
    } else {
      AboveFurther(t, t[top].prev, x);
      ChainBelow(t, t[top].prev, x);
      assert Follows(t, x) && Follows(t, top);
      assert [top] + (Above(t, t[top].prev, x) + [x]) == ([top] + Above(t, t[top].prev, x)) + [x];
    }
  }

  // ----- where paths meet -----

  lemma ChainStep(t: Tree, id: Id, x: Id)
    requires Linked(t) && id in t
    ensures x in Chain(t, id) <==> x == id || x in Chain(t, t[id].prev)
  {
    RankFalls(t, id);
  }

  /** Where two blocks differ, the higher one is not on the other's path. */
  lemma NotBelow(t: Tree, a: Id, b: Id)
    requires Linked(t) && a in t && b in t && a != b && t[a].num >= t[b].num
    ensures a !in Chain(t, b)
  {
    if a in Chain(t, b) {
      ChainBelow(t, b, a);
    }
  }

  /** The meeting point is the highest common ancestor: it is on both paths, and whatever else is
      on both paths is on its own. There is none exactly when the paths share nothing. */
  lemma {:induction false} MeetIsHighest(t: Tree, a: Id, b: Id, x: Id)
    requires Linked(t)
    ensures Meet(t, a, b).Some? ==>
      Meet(t, a, b).value in Chain(t, a) && Meet(t, a, b).value in Chain(t, b)
    ensures x in Chain(t, a) && x in Chain(t, b) ==> Meet(t, a, b).Some? && x in Chain(t, Meet(t, a, b).value)
    decreases Rank(t, a) + Rank(t, b)
  {
    if a in t && b in t && a != b {
      RankFalls(t, a);
      RankFalls(t, b);
      var m := Meet(t, a, b);
      ChainStep(t, a, x);
      ChainStep(t, b, x);
      if m.Some? {
        ChainStep(t, a, m.value);
        ChainStep(t, b, m.value);
      }
      if t[a].num > t[b].num {
        NotBelow(t, a, b);
        MeetIsHighest(t, t[a].prev, b, x);
      } else if t[a].num < t[b].num {
        NotBelow(t, b, a);
        MeetIsHighest(t, a, t[b].prev, x);
      } else {
        NotBelow(t, a, b);
        NotBelow(t, b, a);
        MeetIsHighest(t, t[a].prev, t[b].prev, x);
      }
    }
  }

  lemma {:induction false} MeetSymmetric(t: Tree, a: Id, b: Id)
    requires Linked(t)
    ensures Meet(t, a, b) == Meet(t, b, a)
    decreases Rank(t, a) + Rank(t, b)
  {
    if a in t && b in t && a != b {
      RankFalls(t, a);
      RankFalls(t, b);
      if t[a].num > t[b].num {
        MeetSymmetric(t, t[a].prev, b);
      } else if t[a].num < t[b].num {
        MeetSymmetric(t, a, t[b].prev);
      } else {
        MeetSymmetric(t, t[a].prev, t[b].prev);
      }
    }
  }

  /** The fork at the meeting point: both paths split there and share nothing above it. */
  lemma ForkAtMeet(t: Tree, a: Id, b: Id)
    requires Linked(t) && Meet(t, a, b).Some?
    ensures var c := Meet(t, a, b).value;
            c in t &&
            Chain(t, a) == Above(t, a, c) + Chain(t, c) &&
            Chain(t, b) == Above(t, b, c) + Chain(t, c) &&
            (forall x <- Above(t, a, c) :: x !in Chain(t, b)) &&
            (forall x <- Above(t, b, c) :: x !in Chain(t, a))
  {
    var c := Meet(t, a, b).value;
    MeetIsHighest(t, a, b, c);
    ChainThrough(t, a, c);
    ChainThrough(t, b, c);
    forall x | x in Above(t, a, c)
      ensures x !in Chain(t, b)
    {
      ApartAtMeet(t, a, b, c, x);
    }
    MeetSymmetric(t, a, b);
    forall x | x in Above(t, b, c)
      ensures x !in Chain(t, a)
    {
      ApartAtMeet(t, b, a, c, x);
    }
  }

  lemma ApartAtMeet(t: Tree, a: Id, b: Id, c: Id, x: Id)
    requires Linked(t) && Meet(t, a, b) == Some(c) && x in Above(t, a, c)
    ensures x !in Chain(t, b)
  {
    AboveOnChain(t, a, c, x);
    MeetIsHighest(t, a, b, x);
    if x in Chain(t, b) {
      AboveIsApart(t, a, c, x);
    }
  }

  lemma MeetStep(t: Tree, a: Id, b: Id)
    requires Linked(t) && a in t && b in t && a != b && t[a].num >= t[b].num
    ensures Meet(t, a, b) == Meet(t, t[a].prev, if t[a].num == t[b].num then t[b].prev else b)
  {
    RankFalls(t, a);
    RankFalls(t, b);
  }

  lemma MeetInside(t: Tree, a: Id, b: Id)
    requires Linked(t)
    ensures Meet(t, a, b).Some? ==> a in t && b in t
  {
  }
}
