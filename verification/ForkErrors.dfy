/** When comparing two heads raises an exception, in terms of their ancestor paths. */
module ForkErrors {
  import opened Wrappers
  import opened BlockTree
  import opened Difficulty
  import opened ForkChoice

  function Lower(t: Tree, a: Id, b: Id): nat
    requires a in t && b in t
  {
    if t[a].num < t[b].num then t[a].num else t[b].num
  }

  /** A block that was not mined, at the height of the lower head or above it. */
  ghost predicate Gap(t: Tree, a: Id, b: Id)
    requires Linked(t) && a in t && b in t
  {
    exists y :: (y in Chain(t, a) || y in Chain(t, b)) && y in t && t[y].num >= Lower(t, a, b) && !IsPoW(t, y)
  }

  ghost predicate MinedDownTo(t: Tree, id: Id, height: nat)
    requires Linked(t)
  {
    forall y <- Chain(t, id) :: y in t && t[y].num >= height ==> IsPoW(t, y)
  }

  /** The current path ends with `z`, no higher than both heads, the new path goes on, and down to there
      all of both paths was mined. */
  ghost predicate EndsFirst(t: Tree, a: Id, b: Id, z: Id)
    requires Linked(t) && a in t && b in t
  {
    z in Chain(t, b) && z in t && t[z].prev !in t && t[z].num <= Lower(t, a, b) &&
    MinedDownTo(t, a, t[z].num) && MinedDownTo(t, b, t[z].num) &&
    exists w <- Chain(t, a) :: w in t && t[w].num + 1 == t[z].num
  }

  /** Nothing on a path is below its end. */
  lemma {:induction false} EndIsLowest(t: Tree, id: Id, z: Id, w: Id)
    requires Linked(t) && z in Chain(t, id) && z in t && t[z].prev !in t && w in Chain(t, id)
    ensures w in t && t[w].num >= t[z].num
    decreases Rank(t, id)
  {
    ChainBelow(t, id, w);
    ChainBelow(t, id, z);
    RankFalls(t, id);
    if id != z && id != w {
      EndIsLowest(t, t[id].prev, z, w);
    } else if id == z {
      assert t[id].prev !in t;
    }
  }

  lemma ChainHead(t: Tree, id: Id)
    requires Linked(t) && id in t
    ensures forall x :: x in Chain(t, id) <==> x == id || x in Chain(t, t[id].prev)
    ensures forall x :: x in Chain(t, t[id].prev) ==> x in t && t[x].num < t[id].num
  {
    RankFalls(t, id);
    assert Follows(t, id);
    forall x | x in Chain(t, t[id].prev)
      ensures x in t && t[x].num < t[id].num
    {
      ChainBelow(t, t[id].prev, x);
    }
  }

  lemma MinedHead(t: Tree, id: Id, height: nat)
    requires Linked(t) && IsPoW(t, id)
    ensures MinedDownTo(t, id, height) <==> MinedDownTo(t, t[id].prev, height)
  {
    ChainHead(t, id);
  }

  // ----- the new head is higher -----

  lemma NewDown(t: Tree, a: Id, b: Id)
    requires Linked(t) && IsPoW(t, a) && IsPoW(t, b) && t[a].num > t[b].num && IsPoW(t, t[a].prev)
    ensures Gap(t, a, b) <==> Gap(t, t[a].prev, b)
    ensures forall z :: EndsFirst(t, a, b, z) <==> EndsFirst(t, t[a].prev, b, z)
  {
    ChainHead(t, a);
    assert Follows(t, a);
    forall z
      ensures EndsFirst(t, a, b, z) <==> EndsFirst(t, t[a].prev, b, z)
    {
      if z in t {
        MinedHead(t, a, t[z].num);
      }
    }
  }

  lemma NewStops(t: Tree, a: Id, b: Id)
    requires Linked(t) && IsPoW(t, a) && IsPoW(t, b) && t[a].num >= t[b].num && t[a].prev !in t && a != b
    ensures !Gap(t, a, b) && forall z :: !EndsFirst(t, a, b, z)
  {
    ChainHead(t, a);
    ChainHead(t, b);
  }

  lemma NewGap(t: Tree, a: Id, b: Id)
    requires Linked(t) && IsPoW(t, a) && IsPoW(t, b) && t[a].num > t[b].num && t[a].prev in t && !IsPoW(t, t[a].prev)
    ensures Gap(t, a, b)
  {
    ChainHead(t, a);
    assert Follows(t, a) && t[a].prev in Chain(t, a);
  }

  // ----- the current head is higher -----

  lemma CurDown(t: Tree, a: Id, b: Id)
    requires Linked(t) && IsPoW(t, a) && IsPoW(t, b) && t[a].num < t[b].num && IsPoW(t, t[b].prev)
    ensures Gap(t, a, b) <==> Gap(t, a, t[b].prev)
    ensures forall z :: EndsFirst(t, a, b, z) <==> EndsFirst(t, a, t[b].prev, z)
  {
    ChainHead(t, b);
    assert Follows(t, b);
    forall z
      ensures EndsFirst(t, a, b, z) <==> EndsFirst(t, a, t[b].prev, z)
    {
      if z in t {
        MinedHead(t, b, t[z].num);
      }
    }
  }

  lemma CurStops(t: Tree, a: Id, b: Id)
    requires Linked(t) && IsPoW(t, a) && IsPoW(t, b) && t[a].num < t[b].num && t[b].prev !in t
    ensures !Gap(t, a, b) && forall z :: !EndsFirst(t, a, b, z)
  {
    ChainHead(t, a);
    ChainHead(t, b);
  }

  lemma CurGap(t: Tree, a: Id, b: Id)
    requires Linked(t) && IsPoW(t, a) && IsPoW(t, b) && t[a].num < t[b].num && t[b].prev in t && !IsPoW(t, t[b].prev)
    ensures Gap(t, a, b)
  {
    ChainHead(t, b);
    assert Follows(t, b) && t[b].prev in Chain(t, b);
  }

  // ----- level -----

  lemma NoGapWhenLevel(t: Tree, a: Id, b: Id)
    requires Linked(t) && IsPoW(t, a) && IsPoW(t, b) && t[a].num == t[b].num
    ensures !Gap(t, a, b)
  {
    ChainHead(t, a);
    ChainHead(t, b);
  }

  lemma SameNeverEnds(t: Tree, a: Id, z: Id)
    requires Linked(t) && a in t
    ensures !EndsFirst(t, a, a, z)
  {
    if EndsFirst(t, a, a, z) {
      var w :| w in Chain(t, a) && w in t && t[w].num + 1 == t[z].num;
      EndIsLowest(t, a, z, w);
    }
  }

  /** The current head has no predecessor and the new one has. */
  lemma EndsHere(t: Tree, a: Id, b: Id)
    requires Linked(t) && IsPoW(t, a) && IsPoW(t, b) && t[a].num == t[b].num && t[a].prev in t && t[b].prev !in t
    ensures EndsFirst(t, a, b, b)
  {
    ChainHead(t, a);
    ChainHead(t, b);
    assert Follows(t, a) && t[a].prev in Chain(t, a);
  }

  lemma BothGapped(t: Tree, a: Id, b: Id, z: Id)
    requires Linked(t) && IsPoW(t, a) && IsPoW(t, b) && t[a].num == t[b].num && t[a].prev in t && t[b].prev in t
    requires !IsPoW(t, t[a].prev) || !IsPoW(t, t[b].prev)
    ensures !EndsFirst(t, a, b, z)
  {
    ChainHead(t, a);
    ChainHead(t, b);
    assert Follows(t, a) && Follows(t, b);
    assert t[a].prev in Chain(t, a) && t[b].prev in Chain(t, b);
  }

  lemma BothDownEnds(t: Tree, a: Id, b: Id, z: Id)
    requires Linked(t) && IsPoW(t, a) && IsPoW(t, b) && t[a].num == t[b].num && IsPoW(t, t[a].prev) &&
             IsPoW(t, t[b].prev)
    ensures EndsFirst(t, a, b, z) <==> EndsFirst(t, t[a].prev, t[b].prev, z)
  {
    ChainHead(t, a);
    ChainHead(t, b);
    assert Follows(t, a) && Follows(t, b);
    if z in t {
      MinedHead(t, a, t[z].num);
      MinedHead(t, b, t[z].num);
      if z in Chain(t, t[b].prev) {
        ChainBelow(t, t[b].prev, z);
      }
    }
  }

  /** When walking down from two mined heads raises. */
  ghost predicate BreaksOnPaths(t: Tree, a: Id, b: Id)
    requires Linked(t) && a in t && b in t
  {
    Gap(t, a, b) || exists z :: EndsFirst(t, a, b, z)
  }

  lemma LevelBreaks(t: Tree, a: Id, b: Id)
    requires Linked(t) && IsPoW(t, a) && IsPoW(t, b) && t[a].num == t[b].num
    ensures a == b ==> !BreaksOnPaths(t, a, b)
    ensures a != b && t[a].prev !in t ==> !BreaksOnPaths(t, a, b)
    ensures t[a].prev in t && t[b].prev !in t ==> BreaksOnPaths(t, a, b)
    ensures t[a].prev in t && t[b].prev in t ==>
              if IsPoW(t, t[a].prev) && IsPoW(t, t[b].prev)
              then BreaksOnPaths(t, a, b) == BreaksOnPaths(t, t[a].prev, t[b].prev)
              else !BreaksOnPaths(t, a, b)
  {
    NoGapWhenLevel(t, a, b);
    if t[a].prev !in t && a != b {
      NewStops(t, a, b);
    } else if t[a].prev in t && t[b].prev !in t {
      EndsHere(t, a, b);
    } else if t[a].prev in t && t[b].prev in t {
      assert Follows(t, a) && Follows(t, b);
      if IsPoW(t, t[a].prev) && IsPoW(t, t[b].prev) {
        NoGapWhenLevel(t, t[a].prev, t[b].prev);
      }
      forall z
        ensures if IsPoW(t, t[a].prev) && IsPoW(t, t[b].prev)
                then EndsFirst(t, a, b, z) <==> EndsFirst(t, t[a].prev, t[b].prev, z)
                else !EndsFirst(t, a, b, z)
      {
        if IsPoW(t, t[a].prev) && IsPoW(t, t[b].prev) {
          BothDownEnds(t, a, b, z);
        } else {
          BothGapped(t, a, b, z);
        }
      }
    }
    if a == b {
      forall z
        ensures !EndsFirst(t, a, b, z)
      {
        SameNeverEnds(t, a, z);
      }
    }
  }

  /** Walking down from both heads raises exactly when there is a gap above the lower one, or when the
      current path ends before the new one. */
  lemma {:induction false} BreaksByPaths(t: Tree, a: Id, b: Id)
    requires Linked(t) && IsPoW(t, a) && IsPoW(t, b)
    ensures Descend(t, a, b).Breaks? <==> BreaksOnPaths(t, a, b)
    decreases Rank(t, a) + Rank(t, b)
  {
    RankFalls(t, a);
    RankFalls(t, b);
    if t[a].num > t[b].num {
      if t[a].prev !in t {
        NewStops(t, a, b);
      } else if !IsPoW(t, t[a].prev) {
        NewGap(t, a, b);
      } else {
        NewDown(t, a, b);
        BreaksByPaths(t, t[a].prev, b);
      }
    } else if t[a].num < t[b].num {
      if t[b].prev !in t {
        CurStops(t, a, b);
      } else if !IsPoW(t, t[b].prev) {
        CurGap(t, a, b);
      } else {
        CurDown(t, a, b);
        BreaksByPaths(t, a, t[b].prev);
      }
    } else {
      LevelBreaks(t, a, b);
      if a != b && IsPoW(t, t[a].prev) && IsPoW(t, t[b].prev) {
        BreaksByPaths(t, t[a].prev, t[b].prev);
      }
    }
  }

  /** The newest `k` difficulties are acceptable, and the next one cannot be judged. */
  ghost predicate StuckAt(s: Settings, t: Tree, ids: seq<Id>, now: real, k: nat)
    requires Linked(t) && s.adjust > 0 && s.tuning > 0
  {
    k < |ids| && forall j: nat | j <= k :: JudgedAs(s, t, ids[j], now, if j < k then Some(true) else None)
  }

  ghost predicate JudgedAs(s: Settings, t: Tree, id: Id, now: real, fine: Option<bool>)
    requires Linked(t) && s.adjust > 0 && s.tuning > 0
  {
    MinedOnMined(t, id) && Acceptable(s, t, t[id].prev, t[id].consensus, now) == fine
  }

  lemma {:induction false} StuckExactly(s: Settings, t: Tree, ids: seq<Id>, now: real)
    requires Linked(t) && s.adjust > 0 && s.tuning > 0 && forall x <- ids :: MinedOnMined(t, x)
    ensures AllAcceptable(s, t, ids, now) == None <==> exists k: nat :: StuckAt(s, t, ids, now, k)
    decreases |ids|
  {
    if ids != [] {
      assert MinedOnMined(t, ids[0]);
      StuckExactly(s, t, ids[1..], now);
      if AllAcceptable(s, t, ids, now) == None {
        if JudgedAs(s, t, ids[0], now, None) {
          assert StuckAt(s, t, ids, now, 0);
        } else {
          var k: nat :| StuckAt(s, t, ids[1..], now, k);
          StuckLater(s, t, ids, now, k);
        }
      }
      if exists k: nat :: StuckAt(s, t, ids, now, k) {
        var k: nat :| StuckAt(s, t, ids, now, k);
        StuckSooner(s, t, ids, now, k);
      }
    }
  }

  lemma StuckLater(s: Settings, t: Tree, ids: seq<Id>, now: real, k: nat)
    requires Linked(t) && s.adjust > 0 && s.tuning > 0 && ids != []
    requires JudgedAs(s, t, ids[0], now, Some(true)) && StuckAt(s, t, ids[1..], now, k)
    ensures StuckAt(s, t, ids, now, k + 1)
  {
    forall j: nat | j <= k + 1
      ensures JudgedAs(s, t, ids[j], now, if j < k + 1 then Some(true) else None)
    {
      if j > 0 {
        assert ids[1..][j - 1] == ids[j];
      }
    }
  }

  lemma StuckSooner(s: Settings, t: Tree, ids: seq<Id>, now: real, k: nat)
    requires Linked(t) && s.adjust > 0 && s.tuning > 0 && StuckAt(s, t, ids, now, k)
    ensures JudgedAs(s, t, ids[0], now, if k > 0 then Some(true) else None)
    ensures k > 0 ==> StuckAt(s, t, ids[1..], now, k - 1)
  {
    if k > 0 {
      forall j: nat | j <= k - 1
        ensures JudgedAs(s, t, ids[1..][j], now, if j < k - 1 then Some(true) else None)
      {
        assert ids[1..][j] == ids[j + 1];
      }
    }
  }

  /** Some block of the new fork cannot be judged before one is refused. */
  ghost predicate Stuck(s: Settings, t: Tree, next: Id, cur: Id, now: real)
    requires Linked(t) && s.adjust > 0 && s.tuning > 0 && MinedFork(t, next, cur)
  {
    exists k: nat :: StuckAt(s, t, Above(t, next, Meet(t, next, cur).value), now, k)
  }

  lemma UndecidableExactly(s: Settings, t: Tree, next: Id, cur: Id, now: real)
    requires Linked(t) && s.adjust > 0 && s.tuning > 0 && MinedFork(t, next, cur)
    ensures Undecidable(s, t, next, cur, now) <==> Stuck(s, t, next, cur, now)
  {
    var c := Meet(t, next, cur).value;
    MeetIsHighest(t, next, cur, c);
    ForkIsLinked(t, next, c);
    StuckExactly(s, t, Above(t, next, c), now);
  }

  /** Comparing a mined head with itself always raises, unless it is ahead of time. */
  lemma SelfRaises(s: Settings, t: Tree, x: Id, now: real)
    requires Linked(t) && s.adjust > 0 && s.tuning > 0 && IsPoW(t, x) && TimeOf(t, x) <= now + 30.0
    ensures Raises(s, t, x, x, now)
  {
    assert Meet(t, x, x) == Some(x) && Above(t, x, x) == [];
    assert MinedFork(t, x, x);
  }

  /** Comparing raises for a new head that was not mined; for a current head that was not, unless mining
      begins on it; when the walk down breaks; when a block of the new fork cannot be judged; and for
      a head compared with itself. */
  lemma RaisesExactly(s: Settings, t: Tree, next: Id, cur: Id, now: real)
    requires Linked(t) && s.adjust > 0 && s.tuning > 0 && next in t && cur in t
    ensures Raises(s, t, next, cur, now) <==>
            !t[next].consensus.PoW? ||
            (t[next].consensus.time <= now + 30.0 &&
             if !t[cur].consensus.PoW? then t[next].prev != cur
             else
               BreaksOnPaths(t, next, cur) || next == cur ||
               (MinedFork(t, next, cur) && Stuck(s, t, next, cur, now)))
  {
    if IsPoW(t, next) && IsPoW(t, cur) {
      BreaksByPaths(t, next, cur);
      if MinedFork(t, next, cur) {
        UndecidableExactly(s, t, next, cur, now);
      }
      if next == cur && TimeOf(t, next) <= now + 30.0 {
        SelfRaises(s, t, next, now);
      }
    }
  }
}
