/** Safety of the journal over every interleaving: the store is the path of the head, every worker
    holds the exact fork diff it started from, and total work never falls. */
module JournalSafety {
  import opened Wrappers
  import opened BlockTree
  import opened Difficulty
  import opened ForkDiffs
  import opened ForkChoice
  import opened Journal
  import JournalQueues

  // ----- a growing cache -----

  /** `u` is `t` and one more block. */
  ghost predicate Grows(t: Tree, u: Tree) {
    Linked(t) && Closed(t) && Linked(u) && Closed(u) && t.Keys <= u.Keys && forall x <- t :: u[x] == t[x]
  }

  lemma {:induction false} PathGrows(t: Tree, u: Tree, id: Id, stop: Id)
    requires Grows(t, u) && id in t
    ensures Chain(u, id) == Chain(t, id) && Above(u, id, stop) == Above(t, id, stop)
    decreases Rank(t, id)
  {
    RankFalls(t, id);
    assert Rooted(t, id) && Follows(u, NULL) && Follows(t, NULL);
    if t[id].prev in t {
      PathGrows(t, u, t[id].prev, stop);
    }
  }

  lemma {:induction false} MeetGrows(t: Tree, u: Tree, a: Id, b: Id)
    requires Grows(t, u) && a in t && b in t
    ensures Meet(u, a, b) == Meet(t, a, b)
    decreases Rank(t, a) + Rank(t, b)
  {
    RankFalls(t, a);
    RankFalls(t, b);
    assert Rooted(t, a) && Rooted(t, b) && Follows(u, NULL) && Follows(t, NULL);
    if a != b {
      if t[a].num > t[b].num {
        if t[a].prev in t { MeetGrows(t, u, t[a].prev, b); }
      } else if t[a].num < t[b].num {
        if t[b].prev in t { MeetGrows(t, u, a, t[b].prev); }
      } else if t[a].prev in t && t[b].prev in t {
        MeetGrows(t, u, t[a].prev, t[b].prev);
      }
    }
  }

  lemma {:induction false} WorkGrows(t: Tree, u: Tree, ids: seq<Id>)
    requires Grows(t, u) && forall x <- ids :: x in t
    ensures Work(u, ids) == Work(t, ids)
    decreases |ids|
  {
    if ids != [] {
      assert ids[0] in t;
      WorkGrows(t, u, ids[1..]);
    }
  }

  lemma TotalWorkGrows(t: Tree, u: Tree, id: Id)
    requires Grows(t, u) && id in t
    ensures TotalWork(u, id) == TotalWork(t, id)
  {
    PathGrows(t, u, id, NULL);
    forall x | x in Chain(t, id)
      ensures x in t
    {
      ChainBelow(t, id, x);
    }
    WorkGrows(t, u, Chain(t, id));
  }

  // ----- structure -----

  /** A worker holds the exact fork diff against the head it started from, and commits only a head
      with at least as much work. */
  ghost predicate WorkerRight(s: State, id: Id)
    requires Linked(s.cache)
  {
    id in s.processing ==>
      id in s.cache &&
      match s.processing[id]
      case Queued => true
      case Checking(h, up, down, left, _, _) =>
        h in s.cache && left <= |up| && Meet(s.cache, id, h).Some? && IsForkDiff(s.cache, id, h, Found(up, down))
      case Judged(h, commit, up, down) =>
        commit ==>
          h in s.cache && Meet(s.cache, id, h).Some? && IsForkDiff(s.cache, id, h, Found(up, down)) && id != h &&
          TotalWork(s.cache, id) >= TotalWork(s.cache, h)
  }

  ghost predicate Sane(s: State) {
    Linked(s.cache) && Closed(s.cache) && s.head in s.cache && s.store == Members(Chain(s.cache, s.head)) &&
    forall id {:trigger WorkerRight(s, id)} :: WorkerRight(s, id)
  }

  lemma ReceiveGrows(s: State, id: Id, b: Block)
    requires Linked(s.cache) && Closed(s.cache) && Arrives(s, id, b) && id !in s.cache
    ensures Grows(s.cache, s.cache[id := b])
  {
    var u := s.cache[id := b];
    assert Follows(s.cache, NULL);
    forall x
      ensures Follows(u, x) && Rooted(u, x)
    {
      assert Follows(s.cache, x) && Rooted(s.cache, x);
    }
  }

  lemma ReceiveSane(s: State, id: Id, b: Block)
    requires Sane(s) && Arrives(s, id, b)
    ensures Sane(OnReceived(s, id, b))
    ensures Grows(s.cache, OnReceived(s, id, b).cache)
  {
    var t := OnReceived(s, id, b);
    if t != s {
      ReceiveGrows(s, id, b);
      PathGrows(s.cache, t.cache, s.head, NULL);
      forall x
        ensures WorkerRight(t, x)
      {
        assert WorkerRight(s, x);
        if x in s.processing {
          WorkerGrows(s, t, x);
        }
      }
    }
  }

  lemma WorkerGrows(s: State, t: State, x: Id)
    requires Grows(s.cache, t.cache) && WorkerRight(s, x) && x in s.processing && x in t.processing &&
             t.processing[x] == s.processing[x]
    ensures WorkerRight(t, x)
  {
    var w := s.processing[x];
    if w.Checking? || (w.Judged? && w.commit) {
      MeetGrows(s.cache, t.cache, x, w.head);
      var c := Meet(s.cache, x, w.head).value;
      PathGrows(s.cache, t.cache, x, c);
      PathGrows(s.cache, t.cache, w.head, c);
      TotalWorkGrows(s.cache, t.cache, x);
      TotalWorkGrows(s.cache, t.cache, w.head);
    }
  }

  /** Steps that only move one worker on. */
  lemma WorkerSane(s: State, t: State, id: Id)
    requires Sane(s) && id in s.processing
    requires id in t.processing && t == s.(status := t.status, processing := s.processing[id := t.processing[id]])
    requires WorkerRight(t, id)
    ensures Sane(t)
  {
    forall x
      ensures WorkerRight(t, x)
    {
      assert WorkerRight(s, x);
    }
  }

  lemma DecideSane(settings: Settings, s: State, id: Id, now: real)
    requires settings.adjust > 0 && settings.tuning > 0
    requires Sane(s) && Enabled(s, Decide(id, now))
    ensures Sane(OnDecided(settings, s, id, now))
  {
    assert WorkerRight(s, id);
    var w := s.processing[id];
    if Adopts(settings, s.cache, id, w.head, now) {
      AdoptingKeepsWork(settings, s.cache, id, w.head, now);
    }
    WorkerSane(s, OnDecided(settings, s, id, now), id);
  }

  /** Every worker is as before or not started yet. */
  predicate QueuedOrSame(s: State, t: State, x: Id) {
    x in t.processing ==>
      (t.processing[x] == Queued && x in s.cache) || (x in s.processing && t.processing[x] == s.processing[x])
  }

  lemma WorkersSane(s: State, t: State)
    requires Sane(s) && t.cache == s.cache && t.head in s.cache && t.store == Members(Chain(s.cache, t.head))
    requires forall x {:trigger QueuedOrSame(s, t, x)} :: QueuedOrSame(s, t, x)
    ensures Sane(t)
  {
    forall x
      ensures WorkerRight(t, x)
    {
      assert WorkerRight(s, x) && QueuedOrSame(s, t, x);
    }
  }

  lemma CallbackWorkers(s: State, id: Id, locked: bool, x: Id)
    requires Sane(s) && Enabled(s, Callback(id, locked)) && JournalQueues.QueuesKept(s)
    ensures QueuedOrSame(s, OnValidated(s, id, locked), x)
  {
    assert WorkerRight(s, id) && JournalQueues.WellListed(s, id);
  }

  lemma CallbackSane(s: State, id: Id, locked: bool)
    requires Sane(s) && Enabled(s, Callback(id, locked)) && JournalQueues.QueuesKept(s)
    ensures Sane(OnValidated(s, id, locked))
  {
    var t := OnValidated(s, id, locked);
    forall x
      ensures QueuedOrSame(s, t, x)
    {
      CallbackWorkers(s, id, locked, x);
    }
    CallbackStore(s, id, locked);
    WorkersSane(s, t);
  }

  lemma CallbackStore(s: State, id: Id, locked: bool)
    requires Sane(s) && Enabled(s, Callback(id, locked))
    ensures var t := OnValidated(s, id, locked);
            t.cache == s.cache && t.head in s.cache && t.store == Members(Chain(s.cache, t.head))
    ensures OnValidated(s, id, locked).head != s.head ==>
            s.processing[id].head == s.head && s.processing[id].commit && OnValidated(s, id, locked).head == id
  {
    assert WorkerRight(s, id);
    var w := s.processing[id];
    if w.head == s.head && w.commit {
      SwitchTurns(s.cache, id, s.head);
    }
  }

  lemma StartSane(s: State, id: Id, marked: seq<Id>)
    requires Sane(s) && Enabled(s, Start(id, marked))
    ensures Sane(OnStarted(s, id, marked)) && OnStarted(s, id, marked).cache == s.cache
  {
    assert WorkerRight(s, id);
    WorkerSane(s, OnStarted(s, id, marked), id);
  }

  lemma LookSane(s: State, id: Id)
    requires Sane(s) && Enabled(s, Look(id))
    ensures Sane(OnLooked(s, id)) && OnLooked(s, id).cache == s.cache
  {
    assert WorkerRight(s, id);
    WorkerSane(s, OnLooked(s, id), id);
  }

  lemma VerdictSane(s: State, id: Id, outcome: Outcome)
    requires Sane(s) && Enabled(s, Verdict(id, outcome))
    ensures Sane(OnVerdict(s, id, outcome)) && OnVerdict(s, id, outcome).cache == s.cache
  {
    assert WorkerRight(s, id);
    WorkerSane(s, OnVerdict(s, id, outcome), id);
  }

  lemma NextSane(settings: Settings, s: State, e: Event)
    requires settings.adjust > 0 && settings.tuning > 0
    requires Sane(s) && JournalQueues.QueuesKept(s) && Enabled(s, e)
    ensures Sane(Next(settings, s, e)) && Grows(s.cache, Next(settings, s, e).cache)
  {
    match e
    case Receive(id, b) => ReceiveSane(s, id, b);
    case Start(id, marked) => StartSane(s, id, marked);
    case Look(id) => LookSane(s, id);
    case Verdict(id, outcome) => VerdictSane(s, id, outcome);
    case Decide(id, now) => DecideSane(settings, s, id, now);
    case Callback(id, locked) => CallbackSane(s, id, locked);
  }

  /** The head moves only from the head a worker compared its block with to that block, which has
      at least as much total work. */
  lemma HeadMoves(settings: Settings, s: State, e: Event)
    requires settings.adjust > 0 && settings.tuning > 0
    requires Sane(s) && JournalQueues.QueuesKept(s) && Enabled(s, e)
    ensures var t := Next(settings, s, e);
            t.head != s.head ==>
              e.Callback? && s.processing[e.id].head == s.head && s.processing[e.id].commit && t.head == e.id
    ensures var t := Next(settings, s, e);
            Sane(t) && TotalWork(t.cache, t.head) >= TotalWork(s.cache, s.head)
  {
    NextSane(settings, s, e);
    var t := Next(settings, s, e);
    if t.head == s.head {
      TotalWorkGrows(s.cache, t.cache, s.head);
    } else {
      CallbackStore(s, e.id, e.locked);
      assert WorkerRight(s, e.id);
    }
  }
}
