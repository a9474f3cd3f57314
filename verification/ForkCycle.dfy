/** Three equally heavy heads that beat each other in a circle: the pace of a fork is measured from
    where each pair of paths meets, so being preferred is not transitive. */
module ForkCycle {
  import opened Wrappers
  import opened BlockTree
  import opened Difficulty
  import opened ForkChoice
  import Digest

  const SETTINGS: Settings := Settings(60, 1000, 1000)

  /** Blocks 4 and 5 share block 2 and the root 1; block 8 shares only the root with them. */
  const TREE: Tree := map[
    1 := Block(NULL, 1, PoW(0, 0.0)),
    2 := Block(1, 2, PoW(0, 0.0)),
    3 := Block(2, 3, PoW(0, 30.0)),
    4 := Block(3, 4, PoW(0, 60.0)),
    5 := Block(2, 3, PoW(1, 35.0)),
    6 := Block(1, 2, PoW(0, 19.0)),
    7 := Block(6, 3, PoW(0, 38.0)),
    8 := Block(7, 4, PoW(0, 57.0))]

  lemma Shape()
    ensures Linked(TREE)
    ensures Chain(TREE, 4) == [4, 3, 2, 1] && Chain(TREE, 5) == [5, 2, 1] && Chain(TREE, 8) == [8, 7, 6, 1]
    ensures Meet(TREE, 4, 5) == Some(2) && Meet(TREE, 5, 8) == Some(1) && Meet(TREE, 8, 4) == Some(1)
    ensures Above(TREE, 4, 2) == [4, 3] && Above(TREE, 5, 2) == [5]
    ensures Above(TREE, 5, 1) == [5, 2] && Above(TREE, 8, 1) == [8, 7, 6] && Above(TREE, 4, 1) == [4, 3, 2]
  {
    assert Linked(TREE) by {
      forall id
        ensures Follows(TREE, id)
      {
      }
    }
    assert Chain(TREE, NULL) == [];
    assert Chain(TREE, 1) == [1] + [];
    assert Chain(TREE, 2) == [2] + [1];
    assert Chain(TREE, 3) == [3] + [2, 1];
    assert Chain(TREE, 6) == [6] + [1];
    assert Chain(TREE, 7) == [7] + [6, 1];
    assert Above(TREE, 3, 2) == [3] + [];
    assert Above(TREE, 2, 1) == [2] + [];
    assert Above(TREE, 3, 1) == [3] + [2];
    assert Above(TREE, 6, 1) == [6] + [];
    assert Above(TREE, 7, 1) == [7] + [6];
    assert Meet(TREE, 3, 5) == Meet(TREE, 2, 2);
    assert Meet(TREE, 2, 6) == Meet(TREE, 1, 1);
    assert Meet(TREE, 5, 7) == Meet(TREE, 2, 6);
    assert Meet(TREE, 6, 2) == Meet(TREE, 1, 1);
    assert Meet(TREE, 7, 3) == Meet(TREE, 6, 2);
  }

  lemma SameWork()
    ensures Linked(TREE) && TotalWork(TREE, 4) == 4 && TotalWork(TREE, 5) == 4 && TotalWork(TREE, 8) == 4
  {
    Shape();
    assert Digest.Pow2(0) == 1 && Digest.Pow2(1) == 2;
    WorkStep(TREE, 1, []);
    WorkStep(TREE, 2, [1]);
    WorkStep(TREE, 3, [2, 1]);
    WorkStep(TREE, 4, [3, 2, 1]);
    WorkStep(TREE, 5, [2, 1]);
    WorkStep(TREE, 6, [1]);
    WorkStep(TREE, 7, [6, 1]);
    WorkStep(TREE, 8, [7, 6, 1]);
    assert [1] + [] == [1] && [2] + [1] == [2, 1] && [3] + [2, 1] == [3, 2, 1] && [4] + [3, 2, 1] == [4, 3, 2, 1];
    assert [5] + [2, 1] == [5, 2, 1] && [6] + [1] == [6, 1] && [7] + [6, 1] == [7, 6, 1] &&
           [8] + [7, 6, 1] == [8, 7, 6, 1];
  }

  /** All blocks of these forks declare what is due. */
  lemma {:induction false} AllFine(ids: seq<Id>)
    requires Linked(TREE) && forall x <- ids :: x in {2, 3, 4, 5, 6, 7, 8}
    ensures forall x <- ids :: MinedOnMined(TREE, x)
    ensures AllAcceptable(SETTINGS, TREE, ids, 100.0) == Some(true)
    decreases |ids|
  {
    if ids != [] {
      assert ids[0] in ids;
      forall x | x in ids[1..]
        ensures x in {2, 3, 4, 5, 6, 7, 8}
      {
        assert x in ids;
      }
      AllFine(ids[1..]);
    }
  }

  lemma PaceGoesRound()
    ensures Linked(TREE) && Adopts(SETTINGS, TREE, 4, 5, 100.0) && Adopts(SETTINGS, TREE, 5, 8, 100.0) &&
            Adopts(SETTINGS, TREE, 8, 4, 100.0)
  {
    Shape();
    SameWork();
    AllFine([4, 3]);
    AllFine([5, 2]);
    AllFine([8, 7, 6]);
    assert Pace(TREE, 4, 2) == 30.0 && Pace(TREE, 5, 2) == 35.0;
    assert Pace(TREE, 5, 1) == 17.5 && Pace(TREE, 8, 1) == 19.0 && Pace(TREE, 4, 1) == 20.0;
  }
}
