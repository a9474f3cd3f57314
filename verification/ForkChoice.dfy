/** Fork choice: the heavier fork wins; of two equally heavy ones the one mined faster. */
module ForkChoice {
  import opened Wrappers
  import opened BlockTree
  import opened Difficulty
  import Digest

  /** What comparing two heads comes to. `Raised` is an exception other than an aborted validation. */
  datatype Choice = Adopt | Keep | Raised

  // ----- work -----

  function WorkOf(t: Tree, id: Id): nat {
    if IsPoW(t, id) then Digest.Pow2(DifficultyOf(t, id)) else 0
  }

  /** The work of some blocks; blocks that were not mined have none. */
  function Work(t: Tree, ids: seq<Id>): nat {
    if ids == [] then 0 else WorkOf(t, ids[0]) + Work(t, ids[1..])
  }

  ghost function TotalWork(t: Tree, id: Id): nat
    requires Linked(t)
  {
    Work(t, Chain(t, id))
  }

  lemma {:induction false} WorkAdds(t: Tree, a: seq<Id>, b: seq<Id>)
    ensures Work(t, a + b) == Work(t, a) + Work(t, b)
    decreases |a|
  {
    if a == [] {
      assert a + b == b;
    } else {
      assert (a + b)[1..] == a[1..] + b;
      WorkAdds(t, a[1..], b);
    }
  }

  /** The work above any common ancestor differs by what the total work differs. */
  lemma ForkSumsOrderHeads(t: Tree, a: Id, b: Id, x: Id)
    requires Linked(t) && x in Chain(t, a) && x in Chain(t, b)
    ensures Work(t, Above(t, a, x)) - Work(t, Above(t, b, x)) == TotalWork(t, a) - TotalWork(t, b)
  {
    ChainThrough(t, a, x);
    ChainThrough(t, b, x);
    WorkAdds(t, Above(t, a, x), Chain(t, x));
    WorkAdds(t, Above(t, b, x), Chain(t, x));
  }

  lemma {:induction false} MinedWork(t: Tree, ids: seq<Id>)
    requires forall x <- ids :: IsPoW(t, x)
    ensures ids != [] ==> Work(t, ids) > 0
  {
  }

  // ----- the choice -----

  predicate AllPoW(t: Tree, ids: seq<Id>) {
    forall x <- ids :: IsPoW(t, x)
  }

  /** The fork between the two heads, down to the highest common ancestor, was all mined. */
  ghost predicate MinedFork(t: Tree, next: Id, cur: Id)
    requires Linked(t)
  {
    var m := Meet(t, next, cur);
    m.Some? && IsPoW(t, m.value) && AllPoW(t, Above(t, next, m.value)) && AllPoW(t, Above(t, cur, m.value))
  }

  predicate MinedOnMined(t: Tree, id: Id) {
    IsPoW(t, id) && IsPoW(t, t[id].prev)
  }

  /** Whether every block of a fork, newest first, has an acceptable difficulty; None when that
      cannot be told. */
  ghost function AllAcceptable(s: Settings, t: Tree, ids: seq<Id>, now: real): Option<bool>
    requires Linked(t) && s.adjust > 0 && s.tuning > 0
    requires forall x <- ids :: MinedOnMined(t, x)
  {
    if ids == [] then Some(true)
    else
      assert MinedOnMined(t, ids[0]);
      var first :- Acceptable(s, t, t[ids[0]].prev, t[ids[0]].consensus, now);
      if first then AllAcceptable(s, t, ids[1..], now) else Some(false)
  }

  /** Average seconds a fork took for a block. */
  ghost function Pace(t: Tree, head: Id, c: Id): real
    requires IsPoW(t, head) && IsPoW(t, c) && t[head].num > t[c].num
  {
    (TimeOf(t, head) - TimeOf(t, c)) / (t[head].num - t[c].num) as real
  }

  /** The first mined block after one that was not. */
  predicate StartsMining(t: Tree, next: Id, cur: Id) {
    IsPoW(t, next) && cur in t && !IsPoW(t, cur) && t[next].prev == cur
  }

  ghost predicate Acceptably(s: Settings, t: Tree, next: Id, cur: Id, now: real)
    requires Linked(t) && s.adjust > 0 && s.tuning > 0 && MinedFork(t, next, cur)
  {
    var c := Meet(t, next, cur).value;
    MeetIsHighest(t, next, cur, c);
    ForkIsLinked(t, next, c);
    AllAcceptable(s, t, Above(t, next, c), now) == Some(true)
  }

  /** Heavier in total, or equally heavy and mined at a faster pace since the paths met. */
  ghost predicate Better(t: Tree, next: Id, cur: Id)
    requires Linked(t) && MinedFork(t, next, cur)
  {
    TotalWork(t, next) > TotalWork(t, cur) ||
    (TotalWork(t, next) == TotalWork(t, cur) && next != cur &&
     (BothAbove(t, next, cur);
      Pace(t, next, Meet(t, next, cur).value) < Pace(t, cur, Meet(t, next, cur).value)))
  }

  /** When the new head is adopted. */
  ghost predicate Adopts(s: Settings, t: Tree, next: Id, cur: Id, now: real)
    requires Linked(t) && s.adjust > 0 && s.tuning > 0
  {
    IsPoW(t, next) && TimeOf(t, next) <= now + 30.0 &&
    (StartsMining(t, next, cur) ||
     (IsPoW(t, cur) && MinedFork(t, next, cur) && Acceptably(s, t, next, cur, now) && Better(t, next, cur)))
  }

  lemma {:induction false} ForkIsLinked(t: Tree, id: Id, c: Id)
    requires Linked(t) && c in Chain(t, id) && IsPoW(t, c) && AllPoW(t, Above(t, id, c))
    ensures forall x <- Above(t, id, c) :: MinedOnMined(t, x)
    decreases Rank(t, id)
  {
    if id != c {
      RankFalls(t, id);
      AboveHead(t, id, c);
      ForkIsLinked(t, t[id].prev, c);
    }
  }

  lemma AboveHead(t: Tree, id: Id, c: Id)
    requires Linked(t) && c in Chain(t, id) && id != c
    ensures Above(t, id, c) == [id] + Above(t, t[id].prev, c) && c in Chain(t, t[id].prev) && t[id].prev in t
    ensures t[id].prev != c ==> Above(t, t[id].prev, c) != [] && Above(t, t[id].prev, c)[0] == t[id].prev
  {
    RankFalls(t, id);
    assert t[id].prev in t;
  }

  /** Two equally heavy heads of a mined fork are both strictly above the point where they meet,
      unless they are the same. */
  lemma BothAbove(t: Tree, next: Id, cur: Id)
    requires Linked(t) && MinedFork(t, next, cur) && TotalWork(t, next) == TotalWork(t, cur) && next != cur
    ensures IsPoW(t, next) && IsPoW(t, cur)
    ensures t[next].num > t[Meet(t, next, cur).value].num && t[cur].num > t[Meet(t, next, cur).value].num
  {
    var c := Meet(t, next, cur).value;
    MeetIsHighest(t, next, cur, c);
    ChainBelow(t, next, c);
    ChainBelow(t, cur, c);
    ForkSumsOrderHeads(t, next, cur, c);
    MinedWork(t, Above(t, next, c));
    MinedWork(t, Above(t, cur, c));
    if next == c {
      AboveHead(t, cur, c);
    }
    if cur == c {
      AboveHead(t, next, c);
    }
    if next != c {
      AboveHead(t, next, c);
      assert next in Above(t, next, c);
    }
    if cur != c {
      AboveHead(t, cur, c);
      assert cur in Above(t, cur, c);
    }
  }

  // ----- properties of the choice -----

  /** Of two different heads at most one is preferred over the other, whatever the clock says. */
  lemma ChoiceIsAntisymmetric(s: Settings, t: Tree, a: Id, b: Id, now: real, later: real)
    requires Linked(t) && s.adjust > 0 && s.tuning > 0
    ensures !(Adopts(s, t, a, b, now) && Adopts(s, t, b, a, later))
  {
    if Adopts(s, t, a, b, now) && Adopts(s, t, b, a, later) {
      MeetSymmetric(t, a, b);
    }
  }

  /** Adopting a head never lowers the total work. */
  lemma AdoptingKeepsWork(s: Settings, t: Tree, next: Id, cur: Id, now: real)
    requires Linked(t) && s.adjust > 0 && s.tuning > 0 && Adopts(s, t, next, cur, now)
    ensures next in t && cur in t && Meet(t, next, cur).Some? && next != cur
    ensures TotalWork(t, next) >= TotalWork(t, cur)
  {
    if StartsMining(t, next, cur) {
      RankFalls(t, next);
      assert Follows(t, next);
      assert Chain(t, next) == [next] + Chain(t, cur);
      assert cur in Chain(t, cur) && cur in Chain(t, next);
      MeetIsHighest(t, next, cur, cur);
      assert Chain(t, next)[1..] == Chain(t, cur);
    }
  }

  // ----- the choice in terms of blocks, digests and times -----

  /** Digests expected to be tried for some mined blocks: two to the difficulty each declares. */
  ghost function Tries(t: Tree, ids: seq<Id>): nat
    requires AllPoW(t, ids)
  {
    if ids == [] then 0
    else
      assert IsPoW(t, ids[0]);
      Digest.Pow2(t[ids[0]].consensus.difficulty) + Tries(t, ids[1..])
  }

  /** `m` blocks in `a` seconds are on average quicker than `n` blocks in `b` seconds. */
  predicate Quicker(a: real, m: nat, b: real, n: nat) {
    a * n as real < b * m as real
  }

  /** Seconds from one mined block to another. */
  function Since(t: Tree, id: Id, c: Id): real
    requires IsPoW(t, id) && IsPoW(t, c)
  {
    t[id].consensus.time - t[c].consensus.time
  }

  /** The fork of the new head is acceptable block by block, and took more tries than the other one, or
      as many and less time for a block on average. */
  ghost predicate Outweighs(s: Settings, t: Tree, next: Id, cur: Id, now: real)
    requires Linked(t) && s.adjust > 0 && s.tuning > 0 && MinedFork(t, next, cur) && IsPoW(t, next) && IsPoW(t, cur)
  {
    var c := Meet(t, next, cur).value;
    var up, down := Above(t, next, c), Above(t, cur, c);
    (forall x <- up :: IsPoW(t, t[x].prev) && Acceptable(s, t, t[x].prev, t[x].consensus, now) == Some(true)) &&
    (Tries(t, up) > Tries(t, down) ||
     (Tries(t, up) == Tries(t, down) && Quicker(Since(t, next, c), |up|, Since(t, cur, c), |down|)))
  }

  /** The new head wins: not ahead of time, and either the first mined block on the current head, or the
      head of the better fork. */
  ghost predicate Wins(s: Settings, t: Tree, next: Id, cur: Id, now: real)
    requires Linked(t) && s.adjust > 0 && s.tuning > 0 && next in t && cur in t
  {
    t[next].consensus.PoW? && t[next].consensus.time <= now + 30.0 &&
    if t[cur].consensus.PoW? then MinedFork(t, next, cur) && Outweighs(s, t, next, cur, now) else t[next].prev == cur
  }

  lemma {:induction false} WorkIsTries(t: Tree, ids: seq<Id>)
    requires AllPoW(t, ids)
    ensures Work(t, ids) == Tries(t, ids)
  {
    if ids != [] {
      assert IsPoW(t, ids[0]);
      WorkIsTries(t, ids[1..]);
    }
  }

  lemma {:induction false} EachAcceptable(s: Settings, t: Tree, ids: seq<Id>, now: real)
    requires Linked(t) && s.adjust > 0 && s.tuning > 0 && forall x <- ids :: MinedOnMined(t, x)
    ensures AllAcceptable(s, t, ids, now) == Some(true) <==>
            forall x <- ids :: MinedOnMined(t, x) && Acceptable(s, t, t[x].prev, t[x].consensus, now) == Some(true)
  {
    if ids != [] {
      assert MinedOnMined(t, ids[0]);
      assert forall x :: x in ids <==> x == ids[0] || x in ids[1..];
      EachAcceptable(s, t, ids[1..], now);
    }
  }

  /** A fork has as many blocks as its head is higher. */
  lemma {:induction false} AboveLength(t: Tree, id: Id, c: Id)
    requires Linked(t) && c in Chain(t, id)
    ensures id in t && c in t && |Above(t, id, c)| == t[id].num - t[c].num
    decreases Rank(t, id)
  {
    RankFalls(t, id);
    if id != c {
      AboveHead(t, id, c);
      AboveLength(t, t[id].prev, c);
      assert Follows(t, id);
    }
  }

  lemma PaceOrder(a: real, m: nat, b: real, n: nat)
    requires m > 0 && n > 0
    ensures a / m as real < b / n as real <==> Quicker(a, m, b, n)
  {
    var x, y := a / m as real, b / n as real;
    var k, l := m as real, n as real;
    assert a == x * k && b == y * l;
    RealOrder(x, y, k * l);
    assert a * l == x * (k * l) && b * k == y * (k * l);
  }

  lemma RealOrder(x: real, y: real, m: real)
    requires m > 0.0
    ensures x < y <==> x * m < y * m
  {
    assert (y - x) * m == y * m - x * m;
  }

  lemma PacePair(t: Tree, next: Id, cur: Id, c: Id)
    requires IsPoW(t, next) && IsPoW(t, cur) && IsPoW(t, c) && t[next].num > t[c].num && t[cur].num > t[c].num
    ensures Pace(t, next, c) < Pace(t, cur, c) <==>
            Quicker(Since(t, next, c), t[next].num - t[c].num, Since(t, cur, c), t[cur].num - t[c].num)
  {
    PaceOrder(Since(t, next, c), t[next].num - t[c].num, Since(t, cur, c), t[cur].num - t[c].num);
  }

  /** The tie-break between two heads whose forks took as many tries. */
  lemma PaceExactly(t: Tree, next: Id, cur: Id)
    requires Linked(t) && MinedFork(t, next, cur) && IsPoW(t, next) && IsPoW(t, cur)
    requires TotalWork(t, next) == TotalWork(t, cur) && next != cur
    ensures var c := Meet(t, next, cur).value;
            t[next].num > t[c].num && t[cur].num > t[c].num &&
            (Pace(t, next, c) < Pace(t, cur, c) <==>
             Quicker(Since(t, next, c), |Above(t, next, c)|, Since(t, cur, c), |Above(t, cur, c)|))
  {
    var c := Meet(t, next, cur).value;
    MeetIsHighest(t, next, cur, c);
    AboveLength(t, next, c);
    AboveLength(t, cur, c);
    BothAbove(t, next, cur);
    PacePair(t, next, cur, c);
  }

  lemma TriesExactly(t: Tree, next: Id, cur: Id)
    requires Linked(t) && MinedFork(t, next, cur)
    ensures var c := Meet(t, next, cur).value;
            Tries(t, Above(t, next, c)) - Tries(t, Above(t, cur, c)) == TotalWork(t, next) - TotalWork(t, cur)
  {
    var c := Meet(t, next, cur).value;
    MeetIsHighest(t, next, cur, c);
    ForkSumsOrderHeads(t, next, cur, c);
    WorkIsTries(t, Above(t, next, c));
    WorkIsTries(t, Above(t, cur, c));
  }

  lemma NoFork(t: Tree, id: Id)
    requires Linked(t) && IsPoW(t, id)
    ensures Meet(t, id, id) == Some(id) && Above(t, id, id) == [] && !Quicker(Since(t, id, id), 0, Since(t, id, id), 0)
  {
  }

  lemma BetterExactly(t: Tree, next: Id, cur: Id)
    requires Linked(t) && MinedFork(t, next, cur) && IsPoW(t, next) && IsPoW(t, cur)
    ensures var c := Meet(t, next, cur).value;
            var up, down := Above(t, next, c), Above(t, cur, c);
            Better(t, next, cur) <==>
            Tries(t, up) > Tries(t, down) ||
            (Tries(t, up) == Tries(t, down) && Quicker(Since(t, next, c), |up|, Since(t, cur, c), |down|))
  {
    TriesExactly(t, next, cur);
    if next == cur {
      NoFork(t, next);
    } else if TotalWork(t, next) == TotalWork(t, cur) {
      PaceExactly(t, next, cur);
    }
  }

  lemma OutweighsExactly(s: Settings, t: Tree, next: Id, cur: Id, now: real)
    requires Linked(t) && s.adjust > 0 && s.tuning > 0 && MinedFork(t, next, cur) && IsPoW(t, next) && IsPoW(t, cur)
    ensures Acceptably(s, t, next, cur, now) && Better(t, next, cur) <==> Outweighs(s, t, next, cur, now)
  {
    var c := Meet(t, next, cur).value;
    MeetIsHighest(t, next, cur, c);
    ForkIsLinked(t, next, c);
    EachAcceptable(s, t, Above(t, next, c), now);
    BetterExactly(t, next, cur);
  }

  lemma AdoptsExactly(s: Settings, t: Tree, next: Id, cur: Id, now: real)
    requires Linked(t) && s.adjust > 0 && s.tuning > 0 && next in t && cur in t
    ensures Adopts(s, t, next, cur, now) <==> Wins(s, t, next, cur, now)
  {
    if IsPoW(t, next) && IsPoW(t, cur) && MinedFork(t, next, cur) {
      OutweighsExactly(s, t, next, cur, now);
    }
  }

  // ----- the resolver -----

  datatype Walk = At(id: Id) | Missing | NotMined

  /** What a walk from the higher block says about how walking from both ends. */
  ghost predicate Leads(t: Tree, top: Id, other: Id, w: Walk)
    requires Linked(t) && IsPoW(t, top) && IsPoW(t, other)
  {
    match w
    case At(x) =>
      IsPoW(t, x) && Descend(t, top, other) == Descend(t, x, other) && Descend(t, other, top) == Descend(t, other, x)
    case Missing => Descend(t, top, other).Aborts? && Descend(t, other, top).Aborts?
    case NotMined => Descend(t, top, other).Breaks? && Descend(t, other, top).Breaks?
  }

  /** `x` is on the path of `top`, everything above it was mined, and it meets `other` where `top` does. */
  ghost predicate Approaches(t: Tree, top: Id, x: Id, other: Id)
    requires Linked(t)
  {
    IsPoW(t, x) && x in Chain(t, top) && AllPoW(t, Above(t, top, x)) && Meet(t, x, other) == Meet(t, top, other)
  }

  /** A block between the top and the meeting point is part of the fork. */
  lemma {:induction false} PartOfFork(t: Tree, top: Id, x: Id, c: Id)
    requires Linked(t) && x in Chain(t, top) && c in Chain(t, x) && x != c
    ensures x in Above(t, top, c)
    decreases Rank(t, top)
  {
    if top != x {
      RankFalls(t, top);
      PartOfFork(t, t[top].prev, x, c);
      ChainBelow(t, t[top].prev, x);
      ChainBelow(t, x, c);
      assert Follows(t, top);
    }
  }

  lemma Further(t: Tree, top: Id, x: Id)
    requires Linked(t) && IsPoW(t, x) && x in Chain(t, top) && AllPoW(t, Above(t, top, x)) && t[x].prev in t
    ensures t[x].prev in Chain(t, top) && AllPoW(t, Above(t, top, t[x].prev))
  {
    AboveFurther(t, top, x);
  }

  lemma OneDown(t: Tree, top: Id, x: Id, other: Id)
    requires Linked(t) && other in t && Approaches(t, top, x, other) && t[x].num > t[other].num
    ensures IsPoW(t, t[x].prev) ==> Approaches(t, top, t[x].prev, other)
    ensures !IsPoW(t, t[x].prev) ==> !MinedFork(t, top, other)
  {
    MeetStep(t, x, other);
    MeetInside(t, t[x].prev, other);
    if t[x].prev in t {
      Further(t, top, x);
      if MinedFork(t, top, other) {
        NotMinedOut(t, top, other, t[x].prev, t[x].prev, other);
      }
    }
  }

  /** Where a fork passes a block that was not mined, it is not a mined fork. */
  lemma NotMinedOut(t: Tree, top: Id, other: Id, x: Id, a: Id, b: Id)
    requires Linked(t) && x in Chain(t, top) && Meet(t, a, b) == Meet(t, top, other) && MinedFork(t, top, other) &&
             (x == a || x == b)
    ensures IsPoW(t, x)
  {
    var c := Meet(t, top, other).value;
    MeetIsHighest(t, a, b, c);
    if x != c {
      PartOfFork(t, top, x, c);
    }
  }

  /** Both walks, level and mined so far. */
  ghost predicate Together(t: Tree, next: Id, cur: Id, a: Id, b: Id)
    requires Linked(t)
  {
    IsPoW(t, a) && IsPoW(t, b) && t[a].num == t[b].num && a in Chain(t, next) && b in Chain(t, cur) &&
    AllPoW(t, Above(t, next, a)) && AllPoW(t, Above(t, cur, b)) && Meet(t, a, b) == Meet(t, next, cur)
  }

  lemma BothDown(t: Tree, next: Id, cur: Id, a: Id, b: Id)
    requires Linked(t) && Together(t, next, cur, a, b) && a != b
    ensures IsPoW(t, t[a].prev) && IsPoW(t, t[b].prev) ==> Together(t, next, cur, t[a].prev, t[b].prev)
    ensures !IsPoW(t, t[a].prev) || !IsPoW(t, t[b].prev) ==> !MinedFork(t, next, cur)
  {
    var p, q := t[a].prev, t[b].prev;
    MeetStep(t, a, b);
    MeetInside(t, p, q);
    assert Follows(t, a) && Follows(t, b);
    if p in t && q in t {
      Further(t, next, a);
      Further(t, cur, b);
      if MinedFork(t, next, cur) {
        NotMinedOut(t, next, cur, p, p, q);
        MeetSymmetric(t, next, cur);
        MeetSymmetric(t, p, q);
        NotMinedOut(t, cur, next, q, q, p);
      }
    }
  }

  lemma WorkStep(t: Tree, id: Id, rest: seq<Id>)
    ensures Work(t, [id] + rest) == WorkOf(t, id) + Work(t, rest)
  {
    assert ([id] + rest)[1..] == rest;
  }

  /** How walking down from two mined heads ends: where they meet, with an aborted validation, or
      with another exception. The higher one walks first; then both, the first one a step ahead. */
  datatype End = Met(id: Id) | Aborts | Breaks

  ghost function Descend(t: Tree, a: Id, b: Id): End
    requires Linked(t) && IsPoW(t, a) && IsPoW(t, b)
    decreases Rank(t, a) + Rank(t, b)
  {
    RankFalls(t, a);
    RankFalls(t, b);
    var p, q := t[a].prev, t[b].prev;
    if a == b then Met(a)
    else if t[a].num > t[b].num then
      if p !in t then Aborts else if !IsPoW(t, p) then Breaks else Descend(t, p, b)
    else if t[a].num < t[b].num then
      if q !in t then Aborts else if !IsPoW(t, q) then Breaks else Descend(t, a, q)
    else if p !in t then Aborts
    else if q !in t then Breaks
    else if !IsPoW(t, p) || !IsPoW(t, q) then Aborts
    else Descend(t, p, q)
  }

  /** Some block of the new fork misses an ancestor that its difficulty depends on. */
  ghost predicate Undecidable(s: Settings, t: Tree, next: Id, cur: Id, now: real)
    requires Linked(t) && s.adjust > 0 && s.tuning > 0 && MinedFork(t, next, cur)
  {
    var c := Meet(t, next, cur).value;
    MeetIsHighest(t, next, cur, c);
    ForkIsLinked(t, next, c);
    AllAcceptable(s, t, Above(t, next, c), now) == None
  }

  /** When comparing two heads raises an exception. */
  ghost predicate Raises(s: Settings, t: Tree, next: Id, cur: Id, now: real)
    requires Linked(t) && s.adjust > 0 && s.tuning > 0
  {
    !IsPoW(t, next) ||
    (TimeOf(t, next) <= now + 30.0 &&
     if !IsPoW(t, cur) then !StartsMining(t, next, cur)
     else
       Descend(t, next, cur).Breaks? ||
       (MinedFork(t, next, cur) &&
        (Undecidable(s, t, next, cur, now) || (next == cur && Acceptably(s, t, next, cur, now)))))
  }

  class ForkResolver {
    const cache: Tree
    const settings: Settings

    constructor (cache: Tree, settings: Settings)
      ensures this.cache == cache && this.settings == settings
    {
      this.cache, this.settings := cache, settings;
    }

    /** Walks `steps` blocks down from a mined block. */
    method GetBlockAtCurTip(steps: int, top: Id, ghost other: Id) returns (r: Walk)
      requires Linked(cache) && IsPoW(cache, top) && IsPoW(cache, other) && steps <= cache[top].num - cache[other].num
      ensures r.At? ==> Approaches(cache, top, r.id, other) && (steps > 0 ==> cache[r.id].num == cache[top].num - steps)
      ensures !r.At? ==> steps > 0 && !MinedFork(cache, top, other)
      ensures steps <= 0 ==> r == At(top)
      ensures Leads(cache, top, other, r)
    {
      var id, left := top, steps;
      while left > 0
        invariant Approaches(cache, top, id, other) && left <= steps && (steps > 0 ==> 0 <= left)
        invariant steps > 0 ==> cache[id].num == cache[top].num - (steps - left)
        invariant steps <= 0 ==> id == top
        invariant Leads(cache, top, other, At(id))
      {
        RankFalls(cache, id);
        RankFalls(cache, other);
        OneDown(cache, top, id, other);
        assert Follows(cache, id);
        if cache[id].prev !in cache {
          return Missing;
        }
        if !IsPoW(cache, cache[id].prev) {
          return NotMined;
        }
        id := cache[id].prev;
        left := left - 1;
      }
      return At(id);
    }

    /** Whether every block of the fork has an acceptable difficulty, asked block by block. */
    method VerifyDifficulties(top: Id, c: Id, now: real) returns (r: Option<bool>)
      requires Linked(cache) && settings.adjust > 0 && settings.tuning > 0
      requires c in Chain(cache, top) && IsPoW(cache, c) && forall x <- Above(cache, top, c) :: MinedOnMined(cache, x)
      ensures r == AllAcceptable(settings, cache, Above(cache, top, c), now)
    {
      var id := top;
      var validator := new DifficultyValidator(cache, settings);
      while id != c
        invariant c in Chain(cache, id) && forall x <- Above(cache, id, c) :: MinedOnMined(cache, x)
        invariant AllAcceptable(settings, cache, Above(cache, id, c), now) ==
                  AllAcceptable(settings, cache, Above(cache, top, c), now)
        decreases Rank(cache, id)
      {
        AboveHead(cache, id, c);
        RankFalls(cache, id);
        assert MinedOnMined(cache, id);
        assert Above(cache, id, c)[1..] == Above(cache, cache[id].prev, c);
        var fine := validator.ValidateDifficulty(cache[id].prev, cache[id].consensus, now);
        if fine != Some(true) {
          return fine;
        }
        id := cache[id].prev;
      }
      return Some(true);
    }

    /** The work of the fork. */
    method ProcessFork(top: Id, c: Id) returns (work: nat)
      requires Linked(cache) && c in Chain(cache, top) && AllPoW(cache, Above(cache, top, c))
      ensures work == Work(cache, Above(cache, top, c))
    {
      var id := top;
      work := 0;
      while id != c
        invariant c in Chain(cache, id) && AllPoW(cache, Above(cache, id, c))
        invariant work + Work(cache, Above(cache, id, c)) == Work(cache, Above(cache, top, c))
        decreases Rank(cache, id)
      {
        AboveHead(cache, id, c);
        RankFalls(cache, id);
        WorkStep(cache, id, Above(cache, cache[id].prev, c));
        assert IsPoW(cache, id);
        work := work + Digest.Pow2(DifficultyOf(cache, id));
        id := cache[id].prev;
      }
    }

    /** Walks both forks down to where they meet. `known` is the block whose consensus was read
        last on the new fork: the head itself if no step was needed after levelling. `broken` tells
        an exception from an aborted validation. */
    method FindAncestor(cur: Id, next: Id) returns (r: Walk, known: Id, broken: bool)
      requires Linked(cache) && IsPoW(cache, cur) && IsPoW(cache, next)
      ensures r.At? <==> MinedFork(cache, next, cur)
      ensures r.At? ==> Meet(cache, next, cur) == Some(r.id)
      ensures IsPoW(cache, known)
      ensures r.At? && r.id != cur && r.id != next ==> known == r.id
      ensures (broken <==> Descend(cache, next, cur).Breaks?) && (r.At? ==> !broken)
    {
      known, broken := next, false;
      var a := GetBlockAtCurTip(cache[next].num - cache[cur].num, next, cur);
      if !a.At? {
        return a, known, a.NotMined?;
      }
      var b := GetBlockAtCurTip(cache[cur].num - cache[next].num, cur, a.id);
      MeetSymmetric(cache, cur, next);
      MeetSymmetric(cache, cur, a.id);
      if !b.At? {
        return b, known, b.NotMined?;
      }
      MeetSymmetric(cache, b.id, a.id);
      var x, y := a.id, b.id;
      while x != y
        invariant Together(cache, next, cur, x, y)
        invariant known == x || (known == next && (x == next || y == cur))
        invariant Descend(cache, next, cur) == Descend(cache, x, y)
        decreases Rank(cache, x)
      {
        BothDown(cache, next, cur, x, y);
        RankFalls(cache, x);
        RankFalls(cache, y);
        if cache[x].prev !in cache {
          return Missing, known, false;
        }
        if cache[y].prev !in cache {
          return Missing, known, true;
        }
        x, y := cache[x].prev, cache[y].prev;
        if !IsPoW(cache, x) || !IsPoW(cache, y) {
          return NotMined, known, false;
        }
        known := x;
      }
      r := At(x);
    }

    /** Adopts the new head exactly when it is the better one. Comparing a mined head with itself
        raises an error: the pace of its empty fork is never set. */
    method CompareForks(cur: Id, next: Id, now: real) returns (r: Choice)
      requires Linked(cache) && cur in cache && next in cache && settings.adjust > 0 && settings.tuning > 0
      ensures r == Adopt <==> Adopts(settings, cache, next, cur, now)
      ensures r == Adopt <==> Wins(settings, cache, next, cur, now)
      ensures r == Raised <==> Raises(settings, cache, next, cur, now)
    {
      AdoptsExactly(settings, cache, next, cur, now);
      if !IsPoW(cache, next) {
        return Raised;
      }
      if TimeOf(cache, next) > now + 30.0 {
        return Keep;
      }
      if !IsPoW(cache, cur) {
        return if cache[next].prev == cur then Adopt else Raised;
      }
      var walk, known, broken := FindAncestor(cur, next);
      if !walk.At? {
        return if broken then Raised else Keep;
      }
      r := Weigh(cur, next, walk.id, known, now);
    }

    /** Compares the two forks above their common ancestor. `known` is the block whose time is taken
        for the ancestor's. */
    method Weigh(cur: Id, next: Id, c: Id, known: Id, now: real) returns (r: Choice)
      requires Linked(cache) && IsPoW(cache, cur) && IsPoW(cache, next) && settings.adjust > 0 && settings.tuning > 0
      requires MinedFork(cache, next, cur) && Meet(cache, next, cur) == Some(c) && IsPoW(cache, known)
      requires c != cur && c != next ==> known == c
      ensures r == Adopt <==> Acceptably(settings, cache, next, cur, now) && Better(cache, next, cur)
      ensures r == Raised <==>
              Undecidable(settings, cache, next, cur, now) ||
              (next == cur && Acceptably(settings, cache, next, cur, now))
    {
      MeetIsHighest(cache, next, cur, c);
      ForkIsLinked(cache, next, c);
      var ancestorTime, newLen := TimeOf(cache, known), cache[next].num - cache[c].num;
      var fine := VerifyDifficulties(next, c, now);
      if fine != Some(true) {
        return if fine.None? then Raised else Keep;
      }
      var curLen := cache[cur].num - cache[c].num;
      var newWork := ProcessFork(next, c);
      var curWork := ProcessFork(cur, c);
      ForkSumsOrderHeads(cache, next, cur, c);
      var curPace := if curLen > 0 then (TimeOf(cache, cur) - ancestorTime) / curLen as real else 0.0;
      var newPace := if newLen > 0 then Some((TimeOf(cache, next) - ancestorTime) / newLen as real) else None;
      if newWork > curWork {
        return Adopt;
      } else if newWork < curWork {
        return Keep;
      }
      if next != cur {
        BothAbove(cache, next, cur);
        assert newLen > 0 && curLen > 0 && ancestorTime == TimeOf(cache, c);
      }
      if newPace.None? {
        return Raised;
      }
      return if newPace.value < curPace then Adopt else Keep;
    }
  }
}
