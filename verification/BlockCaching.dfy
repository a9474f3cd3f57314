/** The block cache: entries counted by how many cached blocks follow them, so that a purge never
    takes the predecessor of a cached block that is not in the block store. */
module BlockCaching {
  import opened Wrappers
  import opened BlockTree

  datatype Entry = Entry(prev: Id, stamp: real, count: nat)

  type Entries = map<Id, Entry>

  /** The blocks of the block store, each with its predecessor. */
  type Store = map<Id, Id>

  function Children(es: Entries, id: Id): set<Id> {
    set x | x in es && es[x].prev == id
  }

  // ----- what the operations do -----

  /** One more block follows `id`. */
  function Counted(es: Entries, id: Id, now: real): Entries {
    if id in es then es[id := es[id].(stamp := now, count := es[id].count + 1)] else es
  }

  /** One block fewer follows `id`; counts stop at zero. */
  function Uncounted(es: Entries, id: Id, now: real): Entries {
    if id in es then es[id := es[id].(stamp := now, count := if es[id].count > 0 then es[id].count - 1 else 0)] else es
  }

  /** A fresh entry, replacing an old one if there is one. */
  function Inserted(es: Entries, id: Id, prev: Id, now: real): Entries {
    var t := es[id := Entry(prev, now, 0)];
    if id != NULL then Counted(t, prev, now) else t
  }

  function Removed(es: Entries, id: Id, now: real): Entries
    requires id in es
  {
    Uncounted(es, es[id].prev, now) - {id}
  }

  /** Whether a purge keeps an entry. */
  predicate Stays(store: Store, id: Id, e: Entry, horizon: real) {
    e.stamp > horizon || (e.count > 0 && id !in store)
  }

  function Purgeable(es: Entries, store: Store, horizon: real): set<Id> {
    set id | id in es && !Stays(store, id, es[id], horizon)
  }

  function Lowered(e: Entry, n: nat, now: real): Entry {
    if n == 0 then e else e.(stamp := now, count := if e.count > n then e.count - n else 0)
  }

  function GoneChildren(es: Entries, gone: set<Id>, id: Id): set<Id> {
    set x | x in gone && x in es && es[x].prev == id
  }

  /** Every purged block is uncounted from its predecessor. */
  function Purged(es: Entries, store: Store, horizon: real, now: real): Entries {
    var gone := Purgeable(es, store, horizon);
    map id | id in es && id !in gone :: Lowered(es[id], |GoneChildren(es, gone, id)|, now)
  }

  // ----- closure -----

  predicate Anchored(es: Entries, store: Store, id: Id) {
    id in es ==> es[id].prev == NULL || es[id].prev in es || es[id].prev in store
  }

  predicate WellCounted(es: Entries, store: Store, id: Id) {
    id in es && id !in store ==> es[id].count >= |Children(es, id)|
  }

  predicate NotItself(es: Entries, id: Id) {
    id in es ==> es[id].prev != id
  }

  /** No cached block has its predecessor in neither cache nor store, and an uncommitted entry's
      count is at least the number of its cached children. */
  ghost predicate Sound(es: Entries, store: Store) {
    forall id {:trigger Anchored(es, store, id)} {:trigger WellCounted(es, store, id)} ::
      Anchored(es, store, id) && WellCounted(es, store, id) && NotItself(es, id)
  }

  /** The block store holds the predecessors of its blocks. */
  predicate StoreClosed(store: Store) {
    forall id <- store :: store[id] != id && (store[id] == NULL || store[id] in store)
  }

  /** A block may be set when its predecessor is around and no uncommitted entry is overwritten. */
  predicate MaySet(es: Entries, store: Store, id: Id, prev: Id) {
    (prev == NULL || prev in es || prev in store) && prev != id && (id in es ==> id in store)
  }

  lemma InsertKeeps(es: Entries, store: Store, id: Id, prev: Id, now: real)
    requires Sound(es, store) && MaySet(es, store, id, prev) && id != NULL
    ensures Sound(Inserted(es, id, prev, now), store)
  {
    var t := Inserted(es, id, prev, now);
    forall x
      ensures Anchored(t, store, x) && WellCounted(t, store, x) && NotItself(t, x)
    {
      assert Anchored(es, store, x) && WellCounted(es, store, x);
      if x in t && x !in store {
        if x == id {
          forall y | y in es
            ensures es[y].prev != id
          {
            assert Anchored(es, store, y);
          }
          assert Children(t, id) == {};
        } else if x == prev {
          assert Children(t, x) <= Children(es, x) + {id};
          SubsetSize(Children(t, x), Children(es, x) + {id});
        } else {
          assert Children(t, x) <= Children(es, x);
          SubsetSize(Children(t, x), Children(es, x));
        }
      }
    }
  }

  lemma SubsetSize(a: set<Id>, b: set<Id>)
    requires a <= b
    ensures |a| <= |b|
  {
    assert b == a + (b - a);
  }

  lemma RemoveKeeps(es: Entries, store: Store, id: Id, now: real)
    requires Sound(es, store) && id in es && (Children(es, id) == {} || id in store)
    ensures Sound(Removed(es, id, now), store)
  {
    var t := Removed(es, id, now);
    forall x
      ensures Anchored(t, store, x) && WellCounted(t, store, x) && NotItself(t, x)
    {
      assert Anchored(es, store, x) && WellCounted(es, store, x);
      if x in t {
        assert es[x].prev == id ==> x in Children(es, id);
        assert Children(t, x) == Children(es, x) - {id};
      }
    }
  }

  lemma TouchKeeps(es: Entries, store: Store, id: Id, now: real)
    requires Sound(es, store) && id in es
    ensures Sound(es[id := es[id].(stamp := now)], store)
  {
    var t := es[id := es[id].(stamp := now)];
    forall x
      ensures Anchored(t, store, x) && WellCounted(t, store, x) && NotItself(t, x)
    {
      assert Anchored(es, store, x) && WellCounted(es, store, x);
      assert Children(t, x) == Children(es, x);
    }
  }

  lemma PurgeKeeps(es: Entries, store: Store, horizon: real, now: real)
    requires Sound(es, store)
    ensures Sound(Purged(es, store, horizon, now), store)
  {
    var t, gone := Purged(es, store, horizon, now), Purgeable(es, store, horizon);
    forall x
      ensures Anchored(t, store, x) && WellCounted(t, store, x) && NotItself(t, x)
    {
      assert Anchored(es, store, x) && WellCounted(es, store, x);
      if x in t {
        var p := es[x].prev;
        if p in gone && p !in store {
          assert WellCounted(es, store, p) && x in Children(es, p);
        }
        assert Children(es, x) == Children(t, x) + GoneChildren(es, gone, x);
      }
    }
  }

  // ----- exact counts -----

  predicate Exact(es: Entries, store: Store, id: Id) {
    id in es && id !in store ==> es[id].count == |Children(es, id)|
  }

  /** An uncommitted entry counts its cached children, neither more nor fewer. */
  ghost predicate CountsExact(es: Entries, store: Store) {
    forall id {:trigger Exact(es, store, id)} :: Exact(es, store, id)
  }

  /** Cache and store agree on the predecessor. */
  predicate SamePrev(es: Entries, store: Store, id: Id, prev: Id) {
    (id in es ==> es[id].prev == prev) && (id in store ==> store[id] == prev)
  }

  lemma InsertExact(es: Entries, store: Store, id: Id, prev: Id, now: real)
    requires Sound(es, store) && MaySet(es, store, id, prev) && id != NULL && NULL !in es
    requires StoreClosed(store) && CountsExact(es, store) && SamePrev(es, store, id, prev)
    ensures CountsExact(Inserted(es, id, prev, now), store)
  {
    var t := Inserted(es, id, prev, now);
    forall x
      ensures Exact(t, store, x)
    {
      assert Exact(es, store, x) && Anchored(es, store, x);
      if x in t && x !in store {
        if x == id {
          forall y | y in es
            ensures es[y].prev != id
          {
            assert Anchored(es, store, y);
          }
          assert Children(t, id) == {};
        } else if x == prev {
          assert Children(t, x) == Children(es, x) + {id};
        } else {
          assert Children(t, x) == Children(es, x);
        }
      }
    }
  }

  lemma RemoveExact(es: Entries, store: Store, id: Id, now: real)
    requires Sound(es, store) && id in es && NULL !in es
    requires StoreClosed(store) && CountsExact(es, store) && SamePrev(es, store, id, es[id].prev)
    ensures CountsExact(Removed(es, id, now), store)
  {
    var t := Removed(es, id, now);
    forall x
      ensures Exact(t, store, x)
    {
      assert Exact(es, store, x) && Anchored(es, store, id);
      if x in t && x !in store {
        assert Children(t, x) == Children(es, x) - {id};
        assert x == es[id].prev ==> id in Children(es, x);
      }
    }
  }

  lemma PurgeExact(es: Entries, store: Store, horizon: real, now: real)
    requires CountsExact(es, store)
    ensures CountsExact(Purged(es, store, horizon, now), store)
  {
    var t, gone := Purged(es, store, horizon, now), Purgeable(es, store, horizon);
    forall x
      ensures Exact(t, store, x)
    {
      assert Exact(es, store, x);
      if x in t {
        assert Children(es, x) == Children(t, x) + GoneChildren(es, gone, x);
      }
    }
  }

  /** A purge keeps an uncommitted entry exactly while it is fresh or has cached children, and a
      committed one while it is fresh. */
  lemma PurgeExactly(es: Entries, store: Store, horizon: real, now: real, id: Id)
    requires CountsExact(es, store) && id in es
    ensures id in Purged(es, store, horizon, now) <==>
            es[id].stamp > horizon || (id !in store && exists x :: x in es && es[x].prev == id)
  {
    assert Exact(es, store, id);
    if exists x :: x in es && es[x].prev == id {
      var x :| x in es && es[x].prev == id;
      assert x in Children(es, id);
    } else {
      assert Children(es, id) == {};
    }
  }

  /** Committing more blocks asks less of the cache. */
  lemma CommitKeeps(es: Entries, store: Store, grown: Store)
    requires Sound(es, store) && store.Keys <= grown.Keys
    ensures Sound(es, grown)
  {
    forall x
      ensures Anchored(es, grown, x) && WellCounted(es, grown, x) && NotItself(es, x)
    {
      assert Anchored(es, store, x) && WellCounted(es, store, x);
    }
  }

  /** A committed block that may become uncommitted: if cached blocks follow it, it is cached itself
      and counts them. */
  predicate Expendable(es: Entries, id: Id) {
    (Children(es, id) != {} ==> id in es) && (id in es ==> es[id].count >= |Children(es, id)|)
  }

  /** A reorganisation takes some blocks out of the store and puts others in. The cache survives that
      exactly when each block taken out is expendable. */
  lemma ForgetExactly(es: Entries, store: Store, gone: set<Id>, grown: Store)
    requires Sound(es, store) && NULL !in store && gone <= store.Keys
    requires gone !! grown.Keys && NULL !in grown
    ensures Sound(es, store - gone + grown) <==> forall id <- gone :: Expendable(es, id)
  {
    if forall id <- gone :: Expendable(es, id) {
      ExpendableKeeps(es, store, gone);
      CommitKeeps(es, store - gone, store - gone + grown);
    }
    if Sound(es, store - gone + grown) {
      forall id | id in gone
        ensures Expendable(es, id)
      {
        SoundExpendable(es, store - gone + grown, id);
      }
    }
  }

  lemma ExpendableKeeps(es: Entries, store: Store, gone: set<Id>)
    requires Sound(es, store) && forall id <- gone :: Expendable(es, id)
    ensures Sound(es, store - gone)
  {
    var less := store - gone;
    forall x
      ensures Anchored(es, less, x) && WellCounted(es, less, x) && NotItself(es, x)
    {
      assert Anchored(es, store, x) && WellCounted(es, store, x);
      if x in es {
        assert x in Children(es, es[x].prev);
      }
    }
  }

  /** Every block outside the store is expendable already. */
  lemma SoundExpendable(es: Entries, store: Store, id: Id)
    requires Sound(es, store) && id !in store && id != NULL
    ensures Expendable(es, id)
  {
    assert WellCounted(es, store, id);
    if Children(es, id) != {} {
      var x :| x in Children(es, id);
      assert Anchored(es, store, x);
    }
  }

  const CHAIN: Store := map[1 := NULL, 2 := 1]

  /** Block 2 is read from the store, block 3 is received on top of it and read again later, and a
      purge drops block 2 in between, which it may. A reorganisation to block 4 then leaves block 3
      without its predecessor. */
  lemma ReorganisationBreaks()
    ensures var read := Inserted(map[], 2, 1, 0.0);
            var received := Inserted(read, 3, 2, 1.0);
            var touched := received[3 := received[3].(stamp := 40.0)];
            var purged := Purged(touched, CHAIN, 31.0, 61.0);
            Sound(purged, CHAIN) && purged.Keys == {3} && !Sound(purged, CHAIN - {2} + map[4 := 1])
  {
    var read := Inserted(map[], 2, 1, 0.0);
    var received := Inserted(read, 3, 2, 1.0);
    var touched := received[3 := received[3].(stamp := 40.0)];
    var purged := Purged(touched, CHAIN, 31.0, 61.0);
    assert Sound(map[], CHAIN) by {
      forall x
        ensures Anchored(map[], CHAIN, x) && WellCounted(map[], CHAIN, x) && NotItself(map[], x)
      {
      }
    }
    InsertKeeps(map[], CHAIN, 2, 1, 0.0);
    InsertKeeps(read, CHAIN, 3, 2, 1.0);
    TouchKeeps(received, CHAIN, 3, 40.0);
    PurgeKeeps(touched, CHAIN, 31.0, 61.0);
    assert touched == map[2 := Entry(1, 1.0, 1), 3 := Entry(2, 40.0, 0)];
    assert Purgeable(touched, CHAIN, 31.0) == {2};
    assert 3 in Children(purged, 2) && !Expendable(purged, 2);
    ForgetExactly(purged, CHAIN, {2}, map[4 := 1]);
  }

  // ----- chains -----

  datatype Link = Link(id: Id, prev: Id, num: nat)

  predicate Ascending(chain: seq<Link>) {
    forall i, j | 0 <= i < j < |chain| :: chain[i].num <= chain[j].num
  }

  /** Puts a block behind those of at most its height. */
  function Placed(chain: seq<Link>, b: Link): seq<Link> {
    if chain == [] || chain[|chain| - 1].num <= b.num then chain + [b]
    else Placed(chain[..|chain| - 1], b) + [chain[|chain| - 1]]
  }

  function ByHeight(chain: seq<Link>): seq<Link> {
    if chain == [] then [] else Placed(ByHeight(chain[..|chain| - 1]), chain[|chain| - 1])
  }

  lemma {:induction false} PlacedSame(chain: seq<Link>, b: Link)
    ensures multiset(Placed(chain, b)) == multiset(chain) + multiset{b}
    decreases |chain|
  {
    if chain != [] && chain[|chain| - 1].num > b.num {
      var n := |chain| - 1;
      PlacedSame(chain[..n], b);
      assert chain == chain[..n] + [chain[n]];
    }
  }

  lemma {:induction false} PlacedSorted(chain: seq<Link>, b: Link)
    requires Ascending(chain)
    ensures Ascending(Placed(chain, b))
    ensures forall x <- Placed(chain, b) :: x == b || x in chain
    decreases |chain|
  {
    if chain != [] && chain[|chain| - 1].num > b.num {
      var n := |chain| - 1;
      PlacedSorted(chain[..n], b);
      forall x | x in Placed(chain[..n], b)
        ensures x.num <= chain[n].num
      {
        if x in chain[..n] {
          var i :| 0 <= i < n && chain[..n][i] == x;
          assert chain[i] == x;
        }
      }
    }
  }

  /** The sort puts the same blocks in ascending order. */
  lemma {:induction false} ByHeightSorted(chain: seq<Link>)
    ensures Ascending(ByHeight(chain)) && multiset(ByHeight(chain)) == multiset(chain)
    decreases |chain|
  {
    if chain != [] {
      var n := |chain| - 1;
      ByHeightSorted(chain[..n]);
      PlacedSorted(ByHeight(chain[..n]), chain[n]);
      PlacedSame(ByHeight(chain[..n]), chain[n]);
      assert chain == chain[..n] + [chain[n]];
    }
  }

  /** The entries after the given blocks, in order, have been added unless cached already. */
  function WithAll(es: Entries, chain: seq<Link>, now: real): Entries {
    if chain == [] then es
    else
      var n := |chain| - 1;
      var t := WithAll(es, chain[..n], now);
      if chain[n].id in t then t else Inserted(t, chain[n].id, chain[n].prev, now)
  }

  /** A block of a chain whose predecessor is around or lower in the chain. */
  predicate Joins(es: Entries, store: Store, chain: seq<Link>, b: Link) {
    b.id != NULL && b.prev != b.id &&
    (b.prev == NULL || b.prev in es || b.prev in store ||
     exists i | 0 <= i < |chain| :: chain[i].id == b.prev && chain[i].num < b.num)
  }

  lemma {:induction false} WithAllHas(es: Entries, chain: seq<Link>, now: real)
    ensures WithAll(es, chain, now).Keys == es.Keys + set b | b in chain :: b.id
    decreases |chain|
  {
    if chain != [] {
      var n := |chain| - 1;
      WithAllHas(es, chain[..n], now);
      assert chain == chain[..n] + [chain[n]];
    }
  }

  /** In ascending order a block's predecessor comes before it. */
  lemma LowerComesFirst(es: Entries, store: Store, chain: seq<Link>, n: nat, now: real)
    requires Ascending(chain) && n < |chain| && Joins(es, store, chain, chain[n])
    ensures var prev := chain[n].prev; prev == NULL || prev in WithAll(es, chain[..n], now) || prev in store
  {
    var b := chain[n];
    WithAllHas(es, chain[..n], now);
    if b.prev != NULL && b.prev !in es && b.prev !in store {
      var i :| 0 <= i < |chain| && chain[i].id == b.prev && chain[i].num < b.num;
      assert i < n;
      assert chain[..n][i] == chain[i];
    }
  }

  /** Adding a chain in ascending order keeps the cache sound. */
  lemma {:induction false} WithAllKeeps(es: Entries, store: Store, chain: seq<Link>, n: nat, now: real)
    requires Sound(es, store) && n <= |chain| && Ascending(chain) && forall b <- chain :: Joins(es, store, chain, b)
    ensures Sound(WithAll(es, chain[..n], now), store)
  {
    if n == 0 {
      assert chain[..0] == [];
    } else {
      var b, t := chain[n - 1], WithAll(es, chain[..n - 1], now);
      assert chain[..n][..n - 1] == chain[..n - 1];
      WithAllKeeps(es, store, chain, n - 1, now);
      assert b in chain && Joins(es, store, chain, b);
      LowerComesFirst(es, store, chain, n - 1, now);
      if b.id !in t {
        InsertKeeps(t, store, b.id, b.prev, now);
      }
    }
  }

  /** Sorting does not change what joins. */
  lemma SortedJoins(es: Entries, store: Store, chain: seq<Link>, now: real)
    requires Sound(es, store) && NULL !in es && forall b <- chain :: Joins(es, store, chain, b)
    ensures Sound(WithAll(es, ByHeight(chain), now), store) && NULL !in WithAll(es, ByHeight(chain), now)
  {
    var sorted := ByHeight(chain);
    ByHeightSorted(chain);
    SameMembers(chain, sorted);
    forall b | b in sorted
      ensures Joins(es, store, sorted, b)
    {
      assert b in chain && Joins(es, store, chain, b);
      if b.prev != NULL && b.prev !in es && b.prev !in store {
        var i :| 0 <= i < |chain| && chain[i].id == b.prev && chain[i].num < b.num;
        assert chain[i] in chain && chain[i] in sorted;
        var j :| 0 <= j < |sorted| && sorted[j] == chain[i];
      }
    }
    WithAllKeeps(es, store, sorted, |sorted|, now);
    assert sorted[..|sorted|] == sorted;
    WithAllHas(es, sorted, now);
  }

  // ----- the cache -----

  class BlockCache {
    var entries: Entries
    var store: Store
    var nextPurge: real
    const keepTime: real
    const purgeFrequency: real

    ghost predicate Valid()
      reads this
    {
      Sound(entries, store) && StoreClosed(store) && NULL !in store && NULL !in entries
    }

    constructor (store: Store, keepTime: real, purgeFrequency: real, now: real)
      requires StoreClosed(store) && NULL !in store
      ensures Valid() && entries == map[] && this.store == store && nextPurge == now + purgeFrequency
      ensures this.keepTime == keepTime && this.purgeFrequency == purgeFrequency
    {
      this.entries, this.store, this.keepTime, this.purgeFrequency := map[], store, keepTime, purgeFrequency;
      nextPurge := now + purgeFrequency;
    }

    /** What is cached once a due purge has been made. */
    function AfterPurge(es: Entries, now: real): Entries
      reads this
    {
      if now > nextPurge then Purged(es, store, now - keepTime, now) else es
    }

    method Insert(id: Id, prev: Id, now: real)
      modifies this`entries
      ensures entries == Inserted(old(entries), id, prev, now)
    {
      entries := entries[id := Entry(prev, now, 0)];
      if id != NULL && prev in entries {
        entries := entries[prev := entries[prev].(stamp := now, count := entries[prev].count + 1)];
      }
    }

    /** The block's predecessor stands for the block. A stored block is cached on the way. */
    method Get(id: Id, now: real) returns (r: Option<Id>)
      requires Valid() && id != NULL
      modifies this
      ensures Valid() && store == old(store)
      ensures r == if id in old(entries) then Some(old(entries)[id].prev)
                   else if id in store then Some(store[id])
                   else None
      ensures id in old(entries) ==> entries == old(entries)[id := old(entries)[id].(stamp := now)]
      ensures id !in old(entries) && id in store ==>
                entries == old(AfterPurge(Inserted(entries, id, store[id], now), now))
      ensures id !in old(entries) && id !in store ==> entries == old(entries)
      ensures nextPurge == if id !in old(entries) && id in store && now > old(nextPurge) then now + purgeFrequency
                           else old(nextPurge)
    {
      if id in entries {
        TouchKeeps(entries, store, id, now);
        entries := entries[id := entries[id].(stamp := now)];
        return Some(entries[id].prev);
      }
      if id in store {
        Set(id, store[id], now);
        return Some(store[id]);
      }
      return None;
    }

    method Set(id: Id, prev: Id, now: real)
      modifies this
      ensures store == old(store) && entries == old(AfterPurge(Inserted(entries, id, prev, now), now))
      ensures nextPurge == if now > old(nextPurge) then now + purgeFrequency else old(nextPurge)
      ensures old(Valid()) && id != NULL && old(MaySet(entries, store, id, prev)) ==> Valid()
    {
      if Valid() && id != NULL && MaySet(entries, store, id, prev) {
        InsertKeeps(entries, store, id, prev, now);
      }
      Insert(id, prev, now);
      PurgeIfDue(now);
    }

    method Delete(id: Id, now: real)
      requires id in entries
      modifies this
      ensures store == old(store) && entries == Removed(old(entries), id, now)
      ensures old(Valid()) && (Children(old(entries), id) == {} || id in store) ==> Valid()
    {
      if Valid() && (Children(entries, id) == {} || id in store) {
        RemoveKeeps(entries, store, id, now);
      }
      Uncount(entries[id].prev, now);
      entries := entries - {id};
    }

    method Uncount(id: Id, now: real)
      modifies this`entries
      ensures entries == Uncounted(old(entries), id, now)
    {
      if id in entries {
        var e := entries[id];
        entries := entries[id := e.(stamp := now, count := if e.count > 0 then e.count - 1 else 0)];
      }
    }

    method AddChain(chain: seq<Link>, now: real)
      modifies this
      ensures store == old(store) && entries == old(AfterPurge(WithAll(entries, ByHeight(chain), now), now))
      ensures nextPurge == if now > old(nextPurge) then now + purgeFrequency else old(nextPurge)
      ensures old(Valid()) && (forall b <- chain :: Joins(old(entries), store, chain, b)) ==> Valid()
    {
      var sorted := ByHeight(chain);
      if Valid() && forall b <- chain :: Joins(entries, store, chain, b) {
        SortedJoins(entries, store, chain, now);
      }
      var i := 0;
      while i < |sorted|
        invariant 0 <= i <= |sorted| && entries == WithAll(old(entries), sorted[..i], now)
        invariant store == old(store) && nextPurge == old(nextPurge)
      {
        assert sorted[..i + 1][..i] == sorted[..i];
        if sorted[i].id !in entries {
          Insert(sorted[i].id, sorted[i].prev, now);
        }
        i := i + 1;
      }
      assert sorted[..i] == sorted;
      PurgeIfDue(now);
    }

    method PurgeIfDue(now: real)
      modifies this
      ensures store == old(store) && entries == old(AfterPurge(entries, now))
      ensures nextPurge == if now > old(nextPurge) then now + purgeFrequency else old(nextPurge)
      ensures if now > old(nextPurge)
              then forall id ::
                     id in entries <==>
                     id in old(entries) &&
                     (old(entries)[id].stamp > now - keepTime || (old(entries)[id].count > 0 && id !in store))
              else entries == old(entries)
      ensures old(Valid()) ==> Valid()
    {
      if now > nextPurge {
        PurgeExpired(now);
        nextPurge := now + purgeFrequency;
      }
    }

    /** Keeps what is fresh or followed by cached blocks, then uncounts every purged block from its
        predecessor. */
    method PurgeExpired(now: real)
      modifies this`entries
      ensures entries == Purged(old(entries), store, now - keepTime, now)
      ensures forall id ::
                id in entries <==>
                id in old(entries) &&
                (old(entries)[id].stamp > now - keepTime || (old(entries)[id].count > 0 && id !in store))
      ensures old(Valid()) ==> Valid()
    {
      var horizon := now - keepTime;
      if Valid() {
        PurgeKeeps(entries, store, horizon, now);
      }
      var kept, parents := Sift(horizon);
      PurgedInSteps(entries, store, horizon, kept, parents, now);
      entries := kept;
      UncountAll(parents, now);
    }

    method UncountAll(parents: seq<Id>, now: real)
      modifies this`entries
      ensures entries == LoweredAll(old(entries), parents, now)
    {
      var i := 0;
      while i < |parents|
        invariant 0 <= i <= |parents|
        invariant entries == LoweredAll(old(entries), parents[..i], now)
      {
        assert parents[..i + 1][..i] == parents[..i];
        Uncount(parents[i], now);
        i := i + 1;
      }
      assert parents[..i] == parents;
    }

    /** Sorts the entries into those kept and the predecessors of those purged. */
    method Sift(horizon: real) returns (kept: Entries, parents: seq<Id>)
      ensures kept == entries - Purgeable(entries, store, horizon)
      ensures ListsParents(entries, Purgeable(entries, store, horizon), parents)
    {
      var left := entries.Keys;
      ghost var seen: set<Id> := {};
      kept, parents := map[], [];
      while left != {}
        invariant left !! seen && left + seen == entries.Keys
        invariant kept == Staying(entries, store, horizon, seen)
        invariant ListsParents(entries, Leaving(entries, store, horizon, seen), parents)
        decreases |left|
      {
        var k :| k in left;
        var e := entries[k];
        SeenOne(entries, store, horizon, seen, k);
        left, seen := left - {k}, seen + {k};
        if Stays(store, k, e, horizon) {
          kept := kept[k := e];
        } else {
          parents := parents + [e.prev];
        }
      }
      SeenAll(entries, store, horizon);
    }
  }

  /** Every purged block's predecessor is listed once for it. */
  ghost predicate ListsParents(es: Entries, gone: set<Id>, parents: seq<Id>) {
    forall id :: multiset(parents)[id] == |GoneChildren(es, gone, id)|
  }

  function Staying(es: Entries, store: Store, horizon: real, seen: set<Id>): Entries {
    map id | id in es && id in seen && Stays(store, id, es[id], horizon) :: es[id]
  }

  function Leaving(es: Entries, store: Store, horizon: real, seen: set<Id>): set<Id> {
    set id | id in es && id in seen && !Stays(store, id, es[id], horizon)
  }

  lemma SeenOne(es: Entries, store: Store, horizon: real, seen: set<Id>, k: Id)
    requires k in es && k !in seen
    ensures var was, now := Leaving(es, store, horizon, seen), Leaving(es, store, horizon, seen + {k});
            if Stays(store, k, es[k], horizon)
            then now == was && Staying(es, store, horizon, seen + {k}) == Staying(es, store, horizon, seen)[k := es[k]]
            else Staying(es, store, horizon, seen + {k}) == Staying(es, store, horizon, seen) &&
                 forall id ::
                   |GoneChildren(es, now, id)| == |GoneChildren(es, was, id)| + if es[k].prev == id then 1 else 0
  {
    if !Stays(store, k, es[k], horizon) {
      assert Leaving(es, store, horizon, seen + {k}) == Leaving(es, store, horizon, seen) + {k};
      GoneOne(es, Leaving(es, store, horizon, seen), k);
    } else {
      assert Leaving(es, store, horizon, seen + {k}) == Leaving(es, store, horizon, seen);
    }
  }

  lemma SeenAll(es: Entries, store: Store, horizon: real)
    ensures Staying(es, store, horizon, es.Keys) == es - Purgeable(es, store, horizon)
    ensures Leaving(es, store, horizon, es.Keys) == Purgeable(es, store, horizon)
  {
  }

  lemma PurgedInSteps(es: Entries, store: Store, horizon: real, kept: Entries, parents: seq<Id>, now: real)
    requires kept == es - Purgeable(es, store, horizon) && ListsParents(es, Purgeable(es, store, horizon), parents)
    ensures LoweredAll(kept, parents, now) == Purged(es, store, horizon, now)
  {
    LoweredAllCounts(kept, parents, now);
  }

  lemma GoneOne(es: Entries, gone: set<Id>, k: Id)
    requires k in es && k !in gone
    ensures forall id ::
              |GoneChildren(es, gone + {k}, id)| == |GoneChildren(es, gone, id)| + if es[k].prev == id then 1 else 0
  {
    forall id
      ensures |GoneChildren(es, gone + {k}, id)| == |GoneChildren(es, gone, id)| + if es[k].prev == id then 1 else 0
    {
      if es[k].prev == id {
        assert GoneChildren(es, gone + {k}, id) == GoneChildren(es, gone, id) + {k};
      } else {
        assert GoneChildren(es, gone + {k}, id) == GoneChildren(es, gone, id);
      }
    }
  }

  lemma SameMembers(a: seq<Link>, b: seq<Link>)
    requires multiset(a) == multiset(b)
    ensures forall x :: x in a <==> x in b
  {
    assert forall x :: x in a <==> x in multiset(a);
    assert forall x :: x in b <==> x in multiset(b);
  }

  function LoweredAll(es: Entries, parents: seq<Id>, now: real): Entries {
    if parents == [] then es
    else Uncounted(LoweredAll(es, parents[..|parents| - 1], now), parents[|parents| - 1], now)
  }

  /** Lowering counts one by one lowers each by how often it is listed. */
  lemma {:induction false} LoweredAllCounts(es: Entries, parents: seq<Id>, now: real)
    ensures LoweredAll(es, parents, now) == map id | id in es :: Lowered(es[id], multiset(parents)[id], now)
    decreases |parents|
  {
    if parents != [] {
      var n := |parents| - 1;
      LoweredAllCounts(es, parents[..n], now);
      OneMoreListed(parents);
      LoweredOnce(es, multiset(parents[..n]), multiset(parents), parents[n], now);
    }
  }

  lemma OneMoreListed(parents: seq<Id>)
    requires parents != []
    ensures var n := |parents| - 1; multiset(parents) == multiset(parents[..n]) + multiset{parents[n]}
  {
    assert parents == parents[..|parents| - 1] + [parents[|parents| - 1]];
  }

  lemma LoweredOnce(es: Entries, before: multiset<Id>, after: multiset<Id>, p: Id, now: real)
    requires after == before + multiset{p}
    ensures Uncounted(map id | id in es :: Lowered(es[id], before[id], now), p, now) ==
            map id | id in es :: Lowered(es[id], after[id], now)
  {
  }
}
