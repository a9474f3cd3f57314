/** Fork diffs: how the block validator splits the paths of a new block and of the chain head at
    their highest common ancestor. */
module ForkDiffs {
  import opened Wrappers
  import opened BlockTree

  datatype Status = Unknown | Valid | Invalid

  type Statuses = map<Id, Status>

  /** A block nobody has judged yet is Unknown. */
  function StatusOf(s: Statuses, id: Id): Status {
    if id in s then s[id] else Unknown
  }

  function MarkInvalid(s: Statuses, ids: seq<Id>): Statuses {
    s + map id | id in ids :: Invalid
  }

  datatype ForkDiff =
    | Found(newChain: seq<Id>, curChain: seq<Id>)
    | Aborted
    | Broken

  /** Rolling back one part of a fork and applying the other. */
  function Switch(path: seq<Id>, newChain: seq<Id>, curChain: seq<Id>): seq<Id>
    requires |curChain| <= |path|
  {
    newChain + path[|curChain|..]
  }

  /** A fork diff turns one ancestor path into the other, whether paths are kept in order or as a
      set of committed blocks. */
  lemma SwitchTurns(t: Tree, a: Id, b: Id)
    requires Linked(t) && Meet(t, a, b).Some?
    ensures var c := Meet(t, a, b).value;
            |Above(t, b, c)| <= |Chain(t, b)| &&
            Switch(Chain(t, b), Above(t, a, c), Above(t, b, c)) == Chain(t, a) &&
            Members(Chain(t, b)) - Members(Above(t, b, c)) + Members(Above(t, a, c)) == Members(Chain(t, a))
  {
    ForkAtMeet(t, a, b);
    var c := Meet(t, a, b).value;
    var up, down := Above(t, a, c), Above(t, b, c);
    assert Chain(t, b)[|down|..] == Chain(t, c);
    forall x | x in Chain(t, c)
      ensures x !in down
    {
      MeetIsHighest(t, a, b, c);
      AboveIsApart(t, b, c, x);
    }
  }

  class BlockValidator {
    var cache: Tree
    var status: Statuses

    constructor (cache: Tree, status: Statuses)
      ensures this.cache == cache && this.status == status
    {
      this.cache, this.status := cache, status;
    }

    /** Walks down the longer path to the height of the shorter one. Without a predecessor to go
        on, the walked blocks are marked invalid: their path never meets the other. */
    method BuildToCommonHeight(long: Id, short: Id) returns (r: Option<(Id, seq<Id>)>, ghost marked: seq<Id>)
      requires Linked(cache) && long in cache && short in cache && cache[long].num >= cache[short].num
      modifies this`status
      ensures r.Some? ==>
        var (blk, diff) := r.value;
        marked == [] && status == old(status) && blk in cache && Level(cache, blk, short) &&
        Reaches(cache, long, blk, short, diff)
      ensures r.None? ==>
        status == MarkInvalid(old(status), marked) && marked == Chain(cache, long) &&
        Meet(cache, long, short).None? && !Whole(cache, long)
    {
      var diff, blk, last := [], long, cache[short].num;
      StartOfPath(cache, long, short);
      while cache[blk].num > last
        invariant status == old(status)
        invariant blk in cache && cache[blk].num >= last && Reaches(cache, long, blk, short, diff)
        decreases Rank(cache, blk)
      {
        if cache[blk].prev == NULL {
          break;
        }
        ghost var was := blk;
        RankFalls(cache, blk);
        StepDown(cache, long, blk, short, diff);
        diff := diff + [blk];
        if cache[blk].prev !in cache {
          NoEnd(cache, long, was);
          ChainThrough(cache, long, was);
          status := MarkInvalid(status, diff);
          return None, diff;
        }
        blk := cache[blk].prev;
        assert Follows(cache, was);
      }
      r, marked := Some((blk, diff)), [];
    }

    /** Walks down both paths until they meet. */
    method ExtendToCommonAncestor(newTop: Id, curTop: Id, newBase: Id, curBase: Id, newPart: seq<Id>, curPart: seq<Id>)
      returns (r: ForkDiff, ghost marked: seq<Id>)
      requires Linked(cache) && newBase in cache && curBase in cache && Level(cache, newBase, curBase)
      requires newTop in cache && curTop in cache
      requires Split(cache, newTop, curTop, newBase, curBase, newPart, curPart)
      modifies this`status
      ensures r.Found? <==> Meet(cache, newTop, curTop).Some?
      ensures r.Found? ==> IsForkDiff(cache, newTop, curTop, r) && status == old(status) && marked == []
      ensures !r.Found? ==>
                status == MarkInvalid(old(status), marked) && forall x <- marked :: x in Chain(cache, newTop)
      ensures r.Aborted? ==>
                marked == Chain(cache, newTop) ||
                exists x <- Chain(cache, newTop) :: AtGenesis(cache, newTop, curTop, x, marked)
      ensures r.Broken? ==> !Whole(cache, curTop) && marked == []
    {
      var newBlk, curBlk, newChain, curChain := newBase, curBase, newPart, curPart;
      while curBlk != newBlk
        invariant status == old(status)
        invariant newBlk in cache && curBlk in cache && Level(cache, newBlk, curBlk)
        invariant Split(cache, newTop, curTop, newBlk, curBlk, newChain, curChain)
        decreases Rank(cache, newBlk)
      {
        RankFalls(cache, newBlk);
        RankFalls(cache, curBlk);
        if cache[curBlk].prev == NULL || cache[newBlk].prev == NULL {
          GenesisMeetsNothing(cache, newBlk, curBlk);
          assert AtGenesis(cache, newTop, curTop, newBlk, newChain);
          status := MarkInvalid(status, newChain);
          return Aborted, newChain;
        }
        StepBoth(cache, newTop, curTop, newBlk, curBlk, newChain, curChain);
        newChain := newChain + [newBlk];
        if cache[newBlk].prev !in cache {
          ChainThrough(cache, newTop, newBlk);
          status := MarkInvalid(status, newChain);
          return Aborted, newChain;
        }
        assert Follows(cache, newBlk) && Follows(cache, curBlk);
        newBlk := cache[newBlk].prev;
        curChain := curChain + [curBlk];
        if cache[curBlk].prev !in cache {
          NoEnd(cache, curTop, curBlk);
          assert MarkInvalid(status, []) == status;
          return Broken, [];
        }
        curBlk := cache[curBlk].prev;
      }
      r, marked := Found(newChain, curChain), [];
      assert newChain + [] == newChain && curChain + [] == curChain;
    }

    /** The fork diff of a new block against the chain head, found exactly when the two paths meet.
        Without one, only blocks that never meet the other path are marked invalid. */
    method Diff(block: Id, head: Id) returns (r: ForkDiff, ghost marked: seq<Id>)
      requires Linked(cache) && block in cache && head in cache
      modifies this`status
      ensures r.Found? <==> Meet(cache, block, head).Some?
      ensures r.Found? ==> IsForkDiff(cache, block, head, r) && status == old(status)
      ensures !r.Found? ==> status == MarkInvalid(old(status), marked)
      ensures !r.Found? ==>
                forall x <- marked :: x in Chain(cache, block) || (x in Chain(cache, head) && !Whole(cache, head))
      ensures r.Aborted? ==> marked == Chain(cache, block) || (marked == Chain(cache, head) && !Whole(cache, head)) ||
                             exists x <- Chain(cache, block) :: AtGenesis(cache, block, head, x, marked)
    {
      var part;
      MeetSymmetric(cache, block, head);
      StartOfPath(cache, block, head);
      StartOfPath(cache, head, block);
      if cache[head].num >= cache[block].num {
        part, marked := BuildToCommonHeight(head, block);
        if part.Some? {
          MeetSymmetric(cache, block, part.value.0);
          r, marked := ExtendToCommonAncestor(block, head, block, part.value.0, [], part.value.1);
        } else {
          r := Aborted;
        }
      } else {
        part, marked := BuildToCommonHeight(block, head);
        if part.Some? {
          r, marked := ExtendToCommonAncestor(block, head, part.value.0, head, part.value.1, []);
        } else {
          r := Aborted;
        }
      }
    }
  }

  /** At one height, or the higher one is a genesis block. */
  predicate Level(t: Tree, a: Id, b: Id)
    requires a in t && b in t
  {
    t[a].num == t[b].num || (t[a].num > t[b].num && t[a].prev == NULL) || (t[b].num > t[a].num && t[b].prev == NULL)
  }

  /** The path never runs into a missing block. */
  ghost predicate Whole(t: Tree, id: Id)
    requires Linked(t)
  {
    forall x <- Chain(t, id) :: Rooted(t, x)
  }

  lemma NoEnd(t: Tree, top: Id, x: Id)
    requires Linked(t) && x in Chain(t, top) && x in t && t[x].prev != NULL && t[x].prev !in t
    ensures !Whole(t, top)
  {
    assert !Rooted(t, x);
  }

  /** The marked blocks are those above `x`, where one of the two paths ends in its genesis block. */
  ghost predicate AtGenesis(t: Tree, newTop: Id, curTop: Id, x: Id, marked: seq<Id>)
    requires Linked(t)
  {
    x in t && marked == Above(t, newTop, x) &&
    (t[x].prev == NULL || exists y <- Chain(t, curTop) :: y in t && t[y].prev == NULL && Level(t, x, y))
  }

  /** `part` leads from `top` down to `x`, which meets `other` where `top` does. */
  ghost predicate Reaches(t: Tree, top: Id, x: Id, other: Id, part: seq<Id>)
    requires Linked(t)
  {
    x in Chain(t, top) && part == Above(t, top, x) && (forall y <- part :: y in Chain(t, top)) &&
    Meet(t, x, other) == Meet(t, top, other) &&
    (Meet(t, top, other).Some? ==>
      var c := Meet(t, top, other).value;
      Above(t, top, c) == part + Above(t, x, c))
  }

  ghost predicate Split(t: Tree, newTop: Id, curTop: Id, a: Id, b: Id, newPart: seq<Id>, curPart: seq<Id>)
    requires Linked(t)
  {
    a in Chain(t, newTop) && b in Chain(t, curTop) && newPart == Above(t, newTop, a) &&
    (forall y <- newPart :: y in Chain(t, newTop)) &&
    Meet(t, a, b) == Meet(t, newTop, curTop) &&
    (Meet(t, newTop, curTop).Some? ==>
      var c := Meet(t, newTop, curTop).value;
      Above(t, newTop, c) == newPart + Above(t, a, c) && Above(t, curTop, c) == curPart + Above(t, b, c))
  }

  ghost predicate IsForkDiff(t: Tree, block: Id, head: Id, d: ForkDiff)
    requires Linked(t) && Meet(t, block, head).Some?
  {
    var c := Meet(t, block, head).value;
    d == Found(Above(t, block, c), Above(t, head, c))
  }

  lemma StartOfPath(t: Tree, id: Id, other: Id)
    requires Linked(t) && id in t
    ensures Reaches(t, id, id, other, []) && id in Chain(t, id)
  {
  }

  lemma GenesisMeetsNothing(t: Tree, a: Id, b: Id)
    requires Linked(t) && a in t && b in t && a != b && Level(t, a, b) && (t[a].prev == NULL || t[b].prev == NULL)
    ensures Meet(t, a, b).None?
  {
    assert Follows(t, NULL);
    RankFalls(t, a);
    RankFalls(t, b);
  }

  lemma AboveStep(t: Tree, x: Id, c: Id)
    requires Linked(t) && x in t && x != c
    ensures Above(t, x, c) == [x] + Above(t, t[x].prev, c)
  {
    RankFalls(t, x);
  }

  lemma Longer(part: seq<Id>, x: Id, rest: seq<Id>)
    ensures (part + [x]) + rest == part + ([x] + rest)
  {
  }

  /** One block further down the higher path. */
  lemma StepDown(t: Tree, top: Id, x: Id, other: Id, part: seq<Id>)
    requires Linked(t) && x in t && other in t && t[x].num > t[other].num && Reaches(t, top, x, other, part)
    ensures forall y <- part + [x] :: y in Chain(t, top)
    ensures t[x].prev in t ==> Reaches(t, top, t[x].prev, other, part + [x])
    ensures t[x].prev !in t ==> Meet(t, top, other).None?
  {
    MeetStep(t, x, other);
    MeetInside(t, t[x].prev, other);
    if t[x].prev in t {
      NextOnPath(t, top, x);
      AboveFurther(t, top, x);
    }
    if Meet(t, top, other).Some? {
      var c := Meet(t, top, other).value;
      MeetIsHighest(t, x, other, c);
      ChainBelow(t, other, c);
      AboveStep(t, x, c);
      Longer(part, x, Above(t, t[x].prev, c));
    }
  }

  /** One block further down both paths. */
  lemma StepBoth(t: Tree, newTop: Id, curTop: Id, a: Id, b: Id, newPart: seq<Id>, curPart: seq<Id>)
    requires Linked(t) && a in t && b in t && a != b && t[a].num == t[b].num
    requires Split(t, newTop, curTop, a, b, newPart, curPart)
    ensures forall y <- newPart + [a] :: y in Chain(t, newTop)
    ensures t[a].prev in t && t[b].prev in t ==>
              Split(t, newTop, curTop, t[a].prev, t[b].prev, newPart + [a], curPart + [b])
    ensures t[a].prev !in t || t[b].prev !in t ==> Meet(t, newTop, curTop).None?
  {
    MeetStep(t, a, b);
    MeetInside(t, t[a].prev, t[b].prev);
    if t[a].prev in t && t[b].prev in t {
      NextOnPath(t, newTop, a);
      NextOnPath(t, curTop, b);
      AboveFurther(t, newTop, a);
    }
    if Meet(t, a, b).Some? {
      var c := Meet(t, a, b).value;
      MeetIsHighest(t, a, b, c);
      NotBelow(t, a, b);
      NotBelow(t, b, a);
      AboveStep(t, a, c);
      AboveStep(t, b, c);
      Longer(newPart, a, Above(t, t[a].prev, c));
      Longer(curPart, b, Above(t, t[b].prev, c));
    }
  }
}
