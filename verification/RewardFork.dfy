/** A fork so deep that a reward request is answered with blocks of the wrong branch. */
module RewardFork {
  import opened Wrappers
  import opened BlockTree
  import opened RewardList

  const LENGTH: nat := 10_003

  /** Block 1 is the genesis block; even blocks form one branch on it and odd blocks the other, two
      to a height. */
  function Fork(id: Id): Block {
    Block(if id <= 1 then NULL else if id <= 3 then 1 else id - 2, id / 2, Other)
  }

  const STORE: Tree := map id: Id | 1 <= id <= 2 * LENGTH + 1 && id % 2 == 1 :: Fork(id)
  const CACHE: Tree := map id: Id | 1 <= id <= 2 * LENGTH && id % 2 == 0 :: Fork(id)
  const INDEX: map<int, Id> := map h: int | 0 <= h <= LENGTH :: 2 * h + 1
  const TREE: Tree := STORE + CACHE
  const HEAD: Id := 2 * LENGTH

  lemma Shape()
    ensures Linked(TREE) && Closed(TREE) && Linked(STORE)
    ensures forall id :: id in TREE <==> 1 <= id <= 2 * LENGTH + 1
    ensures forall id <- TREE :: TREE[id] == Fork(id)
  {
    forall id
      ensures Follows(TREE, id) && Rooted(TREE, id) && Follows(STORE, id)
    {
    }
  }

  /** The path of an even block has no odd block but the genesis block. */
  lemma {:induction false} EvenPath(id: Id, x: Id)
    requires Linked(TREE) && id in TREE && id % 2 == 0 && x in Chain(TREE, id)
    ensures x % 2 == 0 || x == 1
    decreases id
  {
    Shape();
    RankFalls(TREE, id);
    if x != id {
      ChainStep(TREE, id, x);
      if id > 3 {
        EvenPath(id - 2, x);
      } else {
        GenesisPath(x);
      }
    }
  }

  lemma GenesisPath(x: Id)
    requires Linked(TREE) && x in Chain(TREE, 1)
    ensures x == 1
  {
    Shape();
    ChainStep(TREE, 1, x);
    assert NULL !in TREE;
  }

  /** The store is the path of its own head. */
  lemma {:induction false} OddPath(h: nat, x: Id)
    requires Linked(STORE) && h <= LENGTH
    ensures x in Chain(STORE, 2 * h + 1) <==> x % 2 == 1 && x <= 2 * h + 1
  {
    var id := 2 * h + 1;
    InStore(id);
    InStore(NULL);
    ChainStep(STORE, id, x);
    if h > 0 {
      OddPath(h - 1, x);
      assert STORE[id].prev == 2 * (h - 1) + 1;
    } else {
      assert STORE[id].prev == NULL && Chain(STORE, NULL) == [];
    }
  }

  lemma PathIsStore()
    requires Linked(STORE)
    ensures Members(Chain(STORE, 2 * LENGTH + 1)) == STORE.Keys
  {
    var path := Members(Chain(STORE, 2 * LENGTH + 1));
    forall x
      ensures x in path <==> x in STORE
    {
      OddPath(LENGTH, x);
      InStore(x);
    }
  }

  lemma Indexed(id: Id)
    requires id in STORE
    ensures STORE[id].num in INDEX && INDEX[STORE[id].num] == id
  {
    InStore(id);
  }

  lemma StoreIsPath()
    ensures Linked(STORE) && IsPath(STORE, INDEX, 2 * LENGTH + 1)
  {
    Shape();
    PathIsStore();
    InStore(2 * LENGTH + 1);
    forall id | id in STORE
      ensures STORE[id].num in INDEX && INDEX[STORE[id].num] == id
    {
      Indexed(id);
    }
    forall h | h in INDEX
      ensures INDEX[h] in STORE && STORE[INDEX[h]].num == h
    {
      InStore(2 * h + 1);
    }
  }

  lemma InStore(x: Id)
    ensures x in STORE <==> x % 2 == 1 && 1 <= x <= 2 * LENGTH + 1
    ensures x in STORE ==> STORE[x] == Fork(x)
  {
  }

  /** The store follows its own head, the requester a head of equal height that parted from it right
      after the genesis block. */
  method DeepForkMisleads() returns (r: Response)
    ensures Linked(STORE) && IsPath(STORE, INDEX, 2 * LENGTH + 1)
    ensures Linked(TREE) && r.Blocks? && !IsAnswer(TREE, HEAD, 2, 1, r.ids)
  {
    Shape();
    StoreIsPath();
    var request := new RewardListRequest(CACHE, STORE, INDEX);
    assert INDEX[2] == 5 && TREE[HEAD].num == LENGTH;
    if 5 in Chain(TREE, HEAD) {
      EvenPath(HEAD, 5);
    }
    r := request.Respond(Some(HEAD), 2, 1);
  }
}
