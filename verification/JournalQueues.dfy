/** No block is stranded: every pending block is being processed or waits in the list of its
    predecessor, which is pending too. */
module JournalQueues {
  import opened Wrappers
  import opened BlockTree
  import opened Difficulty
  import opened ForkDiffs
  import opened ForkChoice
  import opened Journal

  predicate NoRepeats(ids: seq<Id>) {
    forall i, j | 0 <= i < j < |ids| :: ids[i] != ids[j]
  }

  /** A cached block waits for its predecessor if that is pending; otherwise it is pending only
      while it is processed. */
  predicate WellQueued(s: State, x: Id) {
    x in s.cache ==>
      var p := s.cache[x].prev;
      if p in s.pending then x in s.pending && x !in s.processing && x in s.pending[p]
      else x in s.pending <==> x in s.processing
  }

  predicate WellListed(s: State, k: Id) {
    k in s.pending ==>
      k in s.cache && NoRepeats(s.pending[k]) && forall x <- s.pending[k] :: x in s.cache && s.cache[x].prev == k
  }

  ghost predicate QueuesKept(s: State) {
    (forall x {:trigger WellQueued(s, x)} :: WellQueued(s, x)) &&
    (forall k {:trigger WellListed(s, k)} :: WellListed(s, k)) &&
    s.processing.Keys <= s.cache.Keys
  }

  /** A block in some list. */
  predicate Waits(s: State, x: Id) {
    exists k <- s.pending :: x in s.pending[k]
  }

  // ----- what the invariant means -----

  /** Pending blocks are the disjoint union of those processed and those waiting, and a waiting
      block is in its predecessor's list and no other. */
  lemma PendingBlocks(s: State, x: Id)
    requires QueuesKept(s)
    ensures x in s.pending <==> x in s.processing || Waits(s, x)
    ensures !(x in s.processing && Waits(s, x))
    ensures forall k <- s.pending | x in s.pending[k] :: x in s.cache && k == s.cache[x].prev
  {
    assert WellQueued(s, x) && WellListed(s, x);
    forall k | k in s.pending && x in s.pending[k]
      ensures x in s.cache && k == s.cache[x].prev && x in s.pending && x !in s.processing
    {
      assert WellListed(s, k);
    }
  }

  /** Following predecessors from a waiting block leads to one that is being processed. */
  lemma {:induction false} WaitingEnds(s: State, x: Id)
    requires QueuesKept(s) && Linked(s.cache) && x in s.pending
    ensures exists p <- Chain(s.cache, x) :: p in s.processing
    decreases Rank(s.cache, x)
  {
    assert WellListed(s, x) && WellQueued(s, x);
    RankFalls(s.cache, x);
    if x in s.processing {
      assert x in Chain(s.cache, x);
    } else {
      var q := s.cache[x].prev;
      WaitingEnds(s, q);
      var p :| p in Chain(s.cache, q) && p in s.processing;
      assert p in Chain(s.cache, x);
    }
  }

  /** Everything cached above a pending block waits. */
  lemma {:induction false} AllAboveWait(s: State, x: Id, id: Id)
    requires QueuesKept(s) && Linked(s.cache) && id in s.pending && x in Descendants(s.cache, id)
    ensures x in s.pending && x !in s.processing
    decreases Rank(s.cache, x)
  {
    assert WellQueued(s, x);
    RankFalls(s.cache, x);
    if s.cache[x].prev != id {
      ChainStep(s.cache, x, id);
      AllAboveWait(s, s.cache[x].prev, id);
    }
  }

  // ----- every step keeps it -----

  lemma StartsQueued(s: State)
    requires s.processing == map[] && s.pending == map[]
    ensures QueuesKept(s)
  {
  }

  lemma ReceiveKeepsQueues(s: State, id: Id, b: Block)
    requires QueuesKept(s) && Linked(s.cache) && Closed(s.cache) && Arrives(s, id, b)
    ensures QueuesKept(OnReceived(s, id, b))
  {
    var t := OnReceived(s, id, b);
    if id !in s.cache && id !in s.processing && id !in s.pending {
      assert WellQueued(s, b.prev) && WellListed(s, b.prev) && Follows(s.cache, NULL);
      forall x
        ensures WellQueued(t, x)
      {
        assert WellQueued(s, x) && Rooted(s.cache, x);
      }
      forall k
        ensures WellListed(t, k)
      {
        assert WellListed(s, k) && WellListed(s, b.prev);
      }
    }
  }

  /** Blocks whose predecessor has left the queue are submitted. */
  lemma SubmitKeepsQueues(s: State, id: Id)
    requires QueuesKept(s) && Linked(s.cache) && id in s.processing
    ensures QueuesKept(Submit(s.(processing := s.processing - {id}, pending := s.pending - {id}), WaitingFor(s, id)))
  {
    var waiting := WaitingFor(s, id);
    var t := Submit(s.(processing := s.processing - {id}, pending := s.pending - {id}), waiting);
    assert WellListed(s, id) && WellQueued(s, id);
    assert Follows(s.cache, id);
    forall x
      ensures WellQueued(t, x)
    {
      assert WellQueued(s, x);
    }
    forall k
      ensures WellListed(t, k)
    {
      assert WellListed(s, k);
    }
  }

  /** The block goes back to the end of the line with whatever waits for it. */
  lemma AgainKeepsQueues(s: State, id: Id)
    requires QueuesKept(s) && id in s.processing
    ensures QueuesKept(VerifyAgain(s.(processing := s.processing - {id}, pending := s.pending - {id}), id,
                                   WaitingFor(s, id)))
  {
    var t := VerifyAgain(s.(processing := s.processing - {id}, pending := s.pending - {id}), id, WaitingFor(s, id));
    assert WellQueued(s, id);
    forall x
      ensures WellQueued(t, x)
    {
      assert WellQueued(s, x);
    }
    forall k
      ensures WellListed(t, k)
    {
      assert WellListed(s, k);
    }
  }

  /** An invalid block takes with it everything above it, all of which was waiting. */
  lemma DrainKeepsQueues(s: State, id: Id)
    requires QueuesKept(s) && Linked(s.cache) && id in s.processing
    ensures QueuesKept(Drained(s.(processing := s.processing - {id}, pending := s.pending - {id}), id))
    ensures forall x <- Descendants(s.cache, id) :: x in s.pending && Waits(s, x)
  {
    var t := Drained(s.(processing := s.processing - {id}, pending := s.pending - {id}), id);
    assert WellQueued(s, id);
    forall x | x in Descendants(s.cache, id)
      ensures x in s.pending && x !in s.processing && Waits(s, x)
    {
      AllAboveWait(s, x, id);
      PendingBlocks(s, x);
    }
    forall x
      ensures WellQueued(t, x)
    {
      assert WellQueued(s, x);
      if x in s.cache {
        ChainStep(s.cache, x, id);
      }
    }
    forall k
      ensures WellListed(t, k)
    {
      assert WellListed(s, k);
    }
  }

  lemma CallbackKeepsQueues(s: State, id: Id, locked: bool)
    requires QueuesKept(s) && Linked(s.cache) && id in s.processing && s.processing[id].Judged?
    ensures QueuesKept(OnValidated(s, id, locked))
  {
    SubmitKeepsQueues(s, id);
    AgainKeepsQueues(s, id);
    DrainKeepsQueues(s, id);
    SameQueues(Submit(s.(processing := s.processing - {id}, pending := s.pending - {id}), WaitingFor(s, id)),
               OnValidated(s, id, locked));
  }

  /** Only the cache and the keys of the two maps matter. */
  lemma SameQueues(s: State, t: State)
    ensures QueuesKept(s) && t.cache == s.cache && t.pending == s.pending && t.processing.Keys == s.processing.Keys ==>
              QueuesKept(t)
  {
    if QueuesKept(s) && t.cache == s.cache && t.pending == s.pending && t.processing.Keys == s.processing.Keys {
      forall x
        ensures WellQueued(t, x) && WellListed(t, x)
      {
        assert WellQueued(s, x) && WellListed(s, x);
      }
    }
  }

  lemma NextKeepsQueues(settings: Settings, s: State, e: Event)
    requires settings.adjust > 0 && settings.tuning > 0
    requires QueuesKept(s) && Linked(s.cache) && Closed(s.cache) && Enabled(s, e)
    ensures QueuesKept(Next(settings, s, e))
  {
    match e
    case Receive(id, b) => ReceiveKeepsQueues(s, id, b);
    case Callback(id, locked) => CallbackKeepsQueues(s, id, locked);
    case _ => SameQueues(s, Next(settings, s, e));
  }
}
