/** The difficulty a block must declare, from how long its recent predecessors took. */
module Difficulty {
  import opened Wrappers
  import opened BlockTree

  const ENFORCING_INTERVAL: real := 1800.0

  /** Seconds between blocks, and every how many blocks the difficulty is adjusted and tuned. */
  datatype Settings = Settings(interval: nat, adjust: nat, tuning: nat)

  predicate IsPoW(t: Tree, id: Id) {
    id in t && t[id].consensus.PoW?
  }

  function TimeOf(t: Tree, id: Id): real
    requires IsPoW(t, id)
  {
    t[id].consensus.time
  }

  function DifficultyOf(t: Tree, id: Id): nat
    requires IsPoW(t, id)
  {
    t[id].consensus.difficulty
  }

  // ----- the elapsed time -----

  /** The oldest block to look at, counted from `id` with `count` blocks seen already; None when a
      predecessor is missing. */
  ghost function Oldest(t: Tree, id: Id, count: nat, total: nat): Option<(nat, real)>
    requires Linked(t) && IsPoW(t, id)
    decreases Rank(t, id)
  {
    RankFalls(t, id);
    var p := t[id].prev;
    if p !in t then None
    else if !IsPoW(t, p) then Some((count, TimeOf(t, id)))
    else if count + 1 >= total then Some((count + 1, TimeOf(t, p)))
    else Oldest(t, p, count + 1, total)
  }

  /** The window is the newest part of the ancestor path: as many blocks as asked for, but at
      least two, or fewer when the chain was not mined before. */
  lemma {:induction false} OldestWindow(t: Tree, id: Id, count: nat, total: nat)
    requires Linked(t) && IsPoW(t, id) && count > 0 && Oldest(t, id, count, total).Some?
    ensures var (n, time) := Oldest(t, id, count, total).value; var path := Chain(t, id);
            count <= n && n - count < |path| &&
            (forall k | 0 <= k <= n - count :: IsPoW(t, path[k])) &&
            time == TimeOf(t, path[n - count]) &&
            (if n > count && n >= total then n == count + 1 || n == total
             else n - count + 1 < |path| && !IsPoW(t, path[n - count + 1]))
    decreases Rank(t, id)
  {
    RankFalls(t, id);
    var p := t[id].prev;
    assert Chain(t, id) == [id] + Chain(t, p);
    assert Chain(t, p)[0] == p;
    if IsPoW(t, p) && count + 1 < total {
      OldestWindow(t, p, count + 1, total);
      var n := Oldest(t, id, count, total).value.0;
      forall k | 0 <= k <= n - count
        ensures IsPoW(t, Chain(t, id)[k])
      {
        assert k > 0 ==> Chain(t, id)[k] == Chain(t, p)[k - 1];
      }
    }
  }

  /** The newest `n` blocks of the path of `prev` are looked at: all mined, and as many as asked for but
      at least two, or down to a block that was not mined. */
  ghost predicate Window(t: Tree, prev: Id, total: nat, n: nat)
    requires Linked(t)
  {
    var path := Chain(t, prev);
    1 <= n <= |path| && (forall k | 0 <= k < n :: IsPoW(t, path[k])) &&
    if n > 1 && n >= total then n == 2 || n == total else n < |path| && !IsPoW(t, path[n])
  }

  /** Where the search ends without result, all of the path was mined and it is too short. */
  lemma {:induction false} NothingFound(t: Tree, id: Id, count: nat, total: nat)
    requires Linked(t) && IsPoW(t, id) && count > 0 && Oldest(t, id, count, total).None?
    ensures var path := Chain(t, id);
            (forall k | 0 <= k < |path| :: IsPoW(t, path[k])) && (|path| > 1 ==> |path| + count - 1 < total)
    decreases Rank(t, id)
  {
    RankFalls(t, id);
    var p := t[id].prev;
    assert Chain(t, id) == [id] + Chain(t, p);
    if p in t {
      NothingFound(t, p, count + 1, total);
    }
  }

  /** The search finds the window if there is one, and there is never more than one. */
  lemma OldestIsWindow(t: Tree, prev: Id, total: nat, n: nat)
    requires Linked(t) && IsPoW(t, prev)
    ensures Window(t, prev, total, n) <==>
            Oldest(t, prev, 1, total).Some? && Oldest(t, prev, 1, total).value.0 == n
    ensures Window(t, prev, total, n) ==> Oldest(t, prev, 1, total).value.1 == TimeOf(t, Chain(t, prev)[n - 1])
  {
    var o := Oldest(t, prev, 1, total);
    if o.Some? {
      OldestWindow(t, prev, 1, total);
      if Window(t, prev, total, n) {
        OneWindow(t, prev, total, n, o.value.0);
      }
    } else {
      NothingFound(t, prev, 1, total);
    }
  }

  lemma OneWindow(t: Tree, prev: Id, total: nat, m: nat, n: nat)
    requires Linked(t) && Window(t, prev, total, m) && Window(t, prev, total, n)
    ensures m == n
  {
  }

  // ----- the adjusted difficulty -----

  function Raise(d: nat): nat {
    if d < 255 then d + 1 else d
  }

  function Lower(d: nat): nat {
    if d > 0 then d - 1 else d
  }

  /** The difficulty due after `prev`, claimed at `now`. */
  ghost function Adjusted(s: Settings, t: Tree, prev: Id, now: real): Option<nat>
    requires Linked(t) && IsPoW(t, prev) && s.adjust > 0 && s.tuning > 0
  {
    var d := DifficultyOf(t, prev);
    if t[prev].num % s.tuning == 0 then
      var (n, oldest) :- Oldest(t, prev, 1, s.tuning);
      var taken, expected := now - oldest, (n * s.interval) as real;
      Some(if taken < expected then Raise(d) else if taken > expected then Lower(d) else d)
    else if t[prev].num % s.adjust == 0 then
      var (n, oldest) :- Oldest(t, prev, 1, s.adjust);
      var taken, expected := now - oldest, (n * s.interval) as real;
      Some(if taken < expected / 2.0 then Raise(d) else if taken > expected * 2.0 then Lower(d) else d)
    else Some(d)
  }

  /** Difficulty moves by one at most, never out of range, and later claims never raise it. */
  lemma AdjustedMeaning(s: Settings, t: Tree, prev: Id, now: real, later: real)
    requires Linked(t) && IsPoW(t, prev) && s.adjust > 0 && s.tuning > 0 && now <= later
    requires Adjusted(s, t, prev, now).Some?
    ensures var d, e := DifficultyOf(t, prev), Adjusted(s, t, prev, now).value;
            d - 1 <= e <= d + 1 && (d <= 255 ==> e <= 255)
    ensures Adjusted(s, t, prev, later).Some? && Adjusted(s, t, prev, later).value <= Adjusted(s, t, prev, now).value
    ensures t[prev].num % s.tuning != 0 && t[prev].num % s.adjust != 0 ==>
              Adjusted(s, t, prev, now).value == DifficultyOf(t, prev)
  {
  }

  /** How the difficulty moves when blocks came too fast or too slow. */
  predicate Moves(d: nat, e: nat, fast: bool, slow: bool) {
    (e == d + 1 <==> fast && d < 255) && (e == d || e == d + 1 || e + 1 == d) && (e + 1 == d <==> slow && d > 0)
  }

  /** The first of the newest `n` blocks of the path took this long until `now`. */
  ghost function Taken(t: Tree, prev: Id, total: nat, n: nat, now: real): real
    requires Linked(t) && Window(t, prev, total, n)
  {
    now - t[Chain(t, prev)[n - 1]].consensus.time
  }

  /** The due difficulty by the window of blocks: at tuning heights one more when they took less than
      expected and one less when they took more, at adjustment heights by factors of two, and
      otherwise that of the previous block. It is missing exactly when the window is. */
  ghost predicate IsDue(s: Settings, t: Tree, prev: Id, now: real, e: Option<nat>)
    requires Linked(t) && IsPoW(t, prev) && s.adjust > 0 && s.tuning > 0
  {
    var height, d := t[prev].num, t[prev].consensus.difficulty;
    if height % s.tuning == 0 then
      (e.Some? <==> exists n: nat :: Window(t, prev, s.tuning, n)) &&
      forall n: nat | e.Some? && Window(t, prev, s.tuning, n) ::
        var taken := Taken(t, prev, s.tuning, n, now);
        Moves(d, e.value, taken < (n * s.interval) as real, taken > (n * s.interval) as real)
    else if height % s.adjust == 0 then
      (e.Some? <==> exists n: nat :: Window(t, prev, s.adjust, n)) &&
      forall n: nat | e.Some? && Window(t, prev, s.adjust, n) ::
        var taken := Taken(t, prev, s.adjust, n, now);
        Moves(d, e.value, 2.0 * taken < (n * s.interval) as real, taken > 2.0 * (n * s.interval) as real)
    else
      e == Some(d)
  }

  lemma AdjustedExactly(s: Settings, t: Tree, prev: Id, now: real)
    requires Linked(t) && IsPoW(t, prev) && s.adjust > 0 && s.tuning > 0
    ensures IsDue(s, t, prev, now, Adjusted(s, t, prev, now))
  {
    var total := if t[prev].num % s.tuning == 0 then s.tuning else s.adjust;
    forall n
      ensures Window(t, prev, total, n) <==>
              Oldest(t, prev, 1, total).Some? && Oldest(t, prev, 1, total).value.0 == n
      ensures Window(t, prev, total, n) ==> Taken(t, prev, total, n, now) == now - Oldest(t, prev, 1, total).value.1
    {
      OldestIsWindow(t, prev, total, n);
    }
    if Oldest(t, prev, 1, total).Some? {
      assert Window(t, prev, total, Oldest(t, prev, 1, total).value.0);
    }
  }

  /** Whether block `id`, following `prev`, may declare its difficulty: the due one, or less once
      the previous block is half an hour old. None when an ancestor is missing. */
  ghost function Acceptable(s: Settings, t: Tree, prev: Id, c: Consensus, now: real): Option<bool>
    requires Linked(t) && IsPoW(t, prev) && c.PoW? && s.adjust > 0 && s.tuning > 0
  {
    var due :- Adjusted(s, t, prev, c.time);
    Some(c.difficulty >= due ||
         (TimeOf(t, prev) < c.time < now && c.time - TimeOf(t, prev) >= ENFORCING_INTERVAL))
  }

  class DifficultyValidator {
    const cache: Tree
    const settings: Settings

    constructor (cache: Tree, settings: Settings)
      ensures this.cache == cache && this.settings == settings
    {
      this.cache, this.settings := cache, settings;
    }

    /** Time taken and time expected for the last blocks. */
    method GetElapsedTime(prev: Id, now: real, total: nat) returns (r: Option<(real, real)>)
      requires Linked(cache) && IsPoW(cache, prev)
      ensures var o := Oldest(cache, prev, 1, total);
              r == if o.Some? then Some((now - o.value.1, (o.value.0 * settings.interval) as real)) else None
    {
      var id, count, last := prev, 1, TimeOf(cache, prev);
      while true
        invariant IsPoW(cache, id) && last == TimeOf(cache, id) &&
                  Oldest(cache, id, count, total) == Oldest(cache, prev, 1, total)
        decreases Rank(cache, id)
      {
        RankFalls(cache, id);
        if cache[id].prev !in cache {
          return None;
        }
        id := cache[id].prev;
        if !IsPoW(cache, id) {
          break;
        }
        count, last := count + 1, TimeOf(cache, id);
        if count >= total {
          break;
        }
      }
      r := Some((now - last, (count * settings.interval) as real));
    }

    method GetAdjustedDifficulty(prev: Id, now: real) returns (r: Option<nat>)
      requires Linked(cache) && IsPoW(cache, prev) && settings.adjust > 0 && settings.tuning > 0
      ensures r == Adjusted(settings, cache, prev, now)
      ensures IsDue(settings, cache, prev, now, r)
    {
      AdjustedExactly(settings, cache, prev, now);
      var d := DifficultyOf(cache, prev);
      if cache[prev].num % settings.tuning == 0 {
        var elapsed := GetElapsedTime(prev, now, settings.tuning);
        if elapsed.None? {
          return None;
        }
        var (taken, expected) := elapsed.value;
        if taken < expected {
          d := Raise(d);
        } else if taken > expected {
          d := Lower(d);
        }
      } else if cache[prev].num % settings.adjust == 0 {
        var elapsed := GetElapsedTime(prev, now, settings.adjust);
        if elapsed.None? {
          return None;
        }
        var (taken, expected) := elapsed.value;
        if taken < expected / 2.0 {
          d := Raise(d);
        } else if taken > expected * 2.0 {
          d := Lower(d);
        }
      }
      return Some(d);
    }

    method ValidateDifficulty(prev: Id, c: Consensus, now: real) returns (r: Option<bool>)
      requires Linked(cache) && IsPoW(cache, prev) && c.PoW? && settings.adjust > 0 && settings.tuning > 0
      ensures r == Acceptable(settings, cache, prev, c, now)
      ensures var due, before := Adjusted(settings, cache, prev, c.time), cache[prev].consensus.time;
              (r.None? <==> due.None?) &&
              (due.Some? ==>
                (r == Some(true) <==>
                 c.difficulty >= due.value || (before < c.time < now && c.time - before >= 1800.0)))
    {
      var due := GetAdjustedDifficulty(prev, c.time);
      if due.None? {
        return None;
      }
      if c.difficulty < due.value {
        var before := TimeOf(cache, prev);
        if c.time >= now || c.time <= before || c.time - before < ENFORCING_INTERVAL {
          return Some(false);
        }
      }
      return Some(true);
    }
  }
}
