/** When verdicts are final and committed blocks valid: in exactly the runs in which no worker writes a
    verdict over the opposite one. With a single worker thread that never happens. */
module JournalVerdicts {
  import opened Wrappers
  import opened BlockTree
  import opened Difficulty
  import opened ForkDiffs
  import opened ForkChoice
  import opened Journal
  import opened JournalSafety
  import JournalQueues

  // ----- roots -----

  /** Where the ancestor path ends. */
  ghost function Root(t: Tree, id: Id): Id
    requires Linked(t) && id in t
    decreases Rank(t, id)
  {
    RankFalls(t, id);
    if t[id].prev in t then Root(t, t[id].prev) else id
  }

  lemma {:induction false} OneRoot(t: Tree, id: Id, x: Id)
    requires Linked(t) && id in t && x in Chain(t, id)
    ensures x in t && Root(t, x) == Root(t, id)
    decreases Rank(t, id)
  {
    if x != id {
      RankFalls(t, id);
      OneRoot(t, t[id].prev, x);
    }
  }

  lemma {:induction false} RootOnPath(t: Tree, id: Id)
    requires Linked(t) && id in t
    ensures Root(t, id) in Chain(t, id)
    decreases Rank(t, id)
  {
    RankFalls(t, id);
    if t[id].prev in t {
      RootOnPath(t, t[id].prev);
    }
  }

  /** Paths meet exactly when they end in the same block. */
  lemma MeetByRoot(t: Tree, a: Id, b: Id)
    requires Linked(t) && a in t && b in t
    ensures Meet(t, a, b).Some? <==> Root(t, a) == Root(t, b)
  {
    RootOnPath(t, a);
    RootOnPath(t, b);
    MeetIsHighest(t, a, b, Root(t, a));
    if Meet(t, a, b).Some? {
      OneRoot(t, a, Meet(t, a, b).value);
      OneRoot(t, b, Meet(t, a, b).value);
    }
  }

  lemma {:induction false} RootGrows(t: Tree, u: Tree, id: Id)
    requires Grows(t, u) && id in t
    ensures Root(u, id) == Root(t, id)
    decreases Rank(t, id)
  {
    RankFalls(t, id);
    assert Rooted(t, id) && Follows(u, NULL);
    if t[id].prev in t {
      RootGrows(t, u, t[id].prev);
    }
  }

  /** Along a fork every block follows the next one, and the last follows the meeting point. */
  lemma {:induction false} AboveFollows(t: Tree, id: Id, c: Id, k: nat)
    requires Linked(t) && id in t && c in Chain(t, id) && k < |Above(t, id, c)|
    ensures var up := Above(t, id, c);
            up[k] in t && up[k] in Chain(t, id) && t[up[k]].prev == (if k + 1 < |up| then up[k + 1] else c)
    ensures Above(t, id, c)[0] == id
    decreases Rank(t, id)
  {
    AboveHead(t, id, c);
    RankFalls(t, id);
    if k > 0 {
      AboveFollows(t, t[id].prev, c, k - 1);
    }
  }

  // ----- the invariant -----

  predicate IsValid(s: State, id: Id) {
    StatusOf(s.status, id) == Valid
  }

  /** A judged block is cached; a valid one shares its root with the head and follows a valid one. */
  ghost predicate Sound(s: State, x: Id)
    requires Linked(s.cache) && s.head in s.cache
  {
    (StatusOf(s.status, x) != Unknown ==> x in s.cache) &&
    (IsValid(s, x) ==>
       Root(s.cache, x) == Root(s.cache, s.head) &&
       (s.cache[x].prev in s.cache ==> IsValid(s, s.cache[x].prev)))
  }

  /** What a worker's progress says: while all is fine, the checked part of its fork is valid. */
  predicate WorkerFair(s: State, id: Id) {
    id in s.processing ==>
      match s.processing[id]
      case Queued => true
      case Checking(h, up, _, left, fine, testing) =>
        IsValid(s, h) && left <= |up| && (testing ==> fine) &&
        (fine ==> forall i | left <= i < |up| :: IsValid(s, up[i]))
      case Judged(_, commit, _, _) => commit ==> IsValid(s, id)
  }

  ghost predicate Fair(s: State) {
    Sane(s) && IsValid(s, s.head) &&
    (forall x {:trigger Sound(s, x)} :: Sound(s, x)) && (forall id {:trigger WorkerFair(s, id)} :: WorkerFair(s, id))
  }

  /** Verdicts of `s` still stand in `t`. */
  ghost predicate Stands(s: State, t: State) {
    forall x {:trigger StatusOf(t.status, x)} :: StatusOf(s.status, x) != Unknown ==>
      StatusOf(t.status, x) == StatusOf(s.status, x)
  }

  lemma {:induction false} PathValid(s: State, id: Id, x: Id)
    requires Sane(s) && (forall y {:trigger Sound(s, y)} :: Sound(s, y)) && IsValid(s, id) && x in Chain(s.cache, id)
    ensures IsValid(s, x)
    decreases Rank(s.cache, id)
  {
    if x != id {
      assert Sound(s, id);
      RankFalls(s.cache, id);
      PathValid(s, s.cache[id].prev, x);
    }
  }

  /** Every committed block is valid. */
  lemma CommittedValid(s: State)
    requires Fair(s)
    ensures forall x <- s.store :: IsValid(s, x)
  {
    forall x | x in s.store
      ensures IsValid(s, x)
    {
      PathValid(s, s.head, x);
    }
  }

  // ----- verdicts written over -----

  /** The step writes a verdict over the opposite one. */
  ghost predicate Clash(s: State, e: Event)
    requires Linked(s.cache) && Enabled(s, e)
  {
    match e
    case Start(id, marked) => Meet(s.cache, id, s.head).None? && exists x <- marked :: IsValid(s, x)
    case Look(id) => !s.processing[id].fine && IsValid(s, NextBlock(s, id))
    case Verdict(id, outcome) =>
      (outcome.Failed? && IsValid(s, NextBlock(s, id))) ||
      (outcome.Passed? && s.processing[id].head == s.head && StatusOf(s.status, NextBlock(s, id)) == Invalid)
    case Callback(id, _) =>
      var w := s.processing[id];
      w.head == s.head && !w.commit && StatusOf(s.status, id) == Invalid &&
      exists x <- Descendants(s.cache, id) :: IsValid(s, x)
    case _ => false
  }

  /** A verdict is lost in a step exactly when the step writes over it. */
  lemma LostExactly(settings: Settings, s: State, e: Event)
    requires settings.adjust > 0 && settings.tuning > 0 && Linked(s.cache) && Enabled(s, e)
    ensures Stands(s, Next(settings, s, e)) <==> !Clash(s, e)
  {
    var t := Next(settings, s, e);
    if Clash(s, e) {
      match e
      case Start(id, marked) =>
        var x :| x in marked && IsValid(s, x);
        assert StatusOf(t.status, x) == Invalid;
      case Look(id) => assert StatusOf(t.status, NextBlock(s, id)) == Invalid;
      case Verdict(id, outcome) => assert StatusOf(t.status, NextBlock(s, id)) != StatusOf(s.status, NextBlock(s, id));
      case Callback(id, locked) =>
        var x :| x in Descendants(s.cache, id) && IsValid(s, x);
        assert StatusOf(t.status, x) == Invalid;
    } else {
      forall x | StatusOf(s.status, x) != Unknown
        ensures StatusOf(t.status, x) == StatusOf(s.status, x)
      {
      }
    }
  }

  // ----- every step that does not clash keeps it -----

  lemma WorkerStays(s: State, t: State, id: Id)
    requires WorkerFair(s, id) && Stands(s, t) && id in s.processing && id in t.processing &&
             t.processing[id] == s.processing[id]
    ensures WorkerFair(t, id)
  {
  }

  /** A step that judges nothing and leaves the head alone. */
  lemma QuietFair(s: State, t: State)
    requires Fair(s) && Sane(t) && t.status == s.status && t.head == s.head && Grows(s.cache, t.cache)
    requires forall x {:trigger WorkerFair(t, x)} :: WorkerFair(t, x)
    ensures Fair(t)
  {
    forall x
      ensures Sound(t, x)
    {
      assert Sound(s, x) && Sound(s, s.head);
      if x in s.cache {
        RootGrows(s.cache, t.cache, x);
        RootGrows(s.cache, t.cache, s.head);
        assert Rooted(s.cache, x) && Follows(t.cache, NULL);
      }
    }
  }

  lemma SameCacheGrows(s: State)
    requires Sane(s)
    ensures Grows(s.cache, s.cache)
  {
  }

  lemma ReceiveFair(s: State, id: Id, b: Block)
    requires Fair(s) && Arrives(s, id, b)
    ensures Fair(OnReceived(s, id, b)) && Stands(s, OnReceived(s, id, b))
  {
    var t := OnReceived(s, id, b);
    ReceiveSane(s, id, b);
    forall x
      ensures WorkerFair(t, x)
    {
      assert WorkerFair(s, x);
    }
    QuietFair(s, t);
  }

  /** Blocks that are not valid may be marked invalid. */
  lemma MarkFair(s: State, t: State)
    requires Fair(s) && Sane(t) && t.cache == s.cache && t.head == s.head
    requires forall x {:trigger StatusOf(t.status, x)} ::
      StatusOf(t.status, x) == StatusOf(s.status, x) ||
      (StatusOf(t.status, x) == Invalid && !IsValid(s, x) && x in s.cache)
    requires forall x {:trigger WorkerFair(t, x)} :: WorkerFair(t, x)
    ensures Fair(t) && Stands(s, t)
  {
    assert StatusOf(t.status, t.head) == StatusOf(s.status, t.head) by {
      assert IsValid(s, s.head);
    }
    forall x
      ensures Sound(t, x)
    {
      assert Sound(s, x);
      assert StatusOf(t.status, x) == StatusOf(s.status, x) ||
             (StatusOf(t.status, x) == Invalid && !IsValid(s, x) && x in s.cache);
      if IsValid(t, x) && s.cache[x].prev in s.cache {
        assert IsValid(s, s.cache[x].prev);
        assert StatusOf(t.status, s.cache[x].prev) == StatusOf(s.status, s.cache[x].prev);
      }
    }
  }

  lemma StartFair(s: State, id: Id, marked: seq<Id>)
    requires Fair(s) && Enabled(s, Start(id, marked)) && Sane(OnStarted(s, id, marked))
    ensures Fair(OnStarted(s, id, marked)) && Stands(s, OnStarted(s, id, marked))
  {
    var t := OnStarted(s, id, marked);
    assert WorkerRight(s, id);
    MeetByRoot(s.cache, id, s.head);
    forall x
      ensures StatusOf(t.status, x) == StatusOf(s.status, x) ||
              (StatusOf(t.status, x) == Invalid && !IsValid(s, x) && x in s.cache)
    {
      assert Sound(s, x);
      if x in marked && Meet(s.cache, id, s.head).None? {
        OneRoot(s.cache, id, x);
      }
    }
    forall x
      ensures WorkerFair(t, x)
    {
      assert WorkerFair(s, x);
      if x != id && x in s.processing {
        WorkerStays(s, t, x);
      }
    }
    MarkFair(s, t);
  }

  /** The block a worker checks next follows the one checked before, or the meeting point. */
  lemma CheckedNext(s: State, id: Id)
    requires Fair(s) && HasNext(s, id)
    ensures var w, b := s.processing[id], NextBlock(s, id);
            b in s.cache && s.cache[b].prev in s.cache && Root(s.cache, b) == Root(s.cache, s.head) &&
            (w.fine ==> IsValid(s, s.cache[b].prev)) &&
            (w.left < |w.newChain| ==> s.cache[b].prev == w.newChain[w.left])
  {
    assert WorkerRight(s, id) && WorkerFair(s, id);
    var w := s.processing[id];
    var c := Meet(s.cache, id, w.head).value;
    MeetIsHighest(s.cache, id, w.head, c);
    AboveFollows(s.cache, id, c, w.left - 1);
    PathValid(s, w.head, c);
    OneRoot(s.cache, id, w.newChain[w.left - 1]);
    MeetByRoot(s.cache, id, w.head);
    assert Sound(s, w.head);
    ChainBelow(s.cache, id, c);
    if w.left < |w.newChain| {
      AboveFollows(s.cache, id, c, w.left);
    }
  }

  /** A block following a valid one is found valid. */
  lemma PassFair(s: State, t: State, b: Id)
    requires Fair(s) && Sane(t) && t == s.(status := s.status[b := Valid], processing := t.processing)
    requires StatusOf(s.status, b) != Invalid && b in s.cache && s.cache[b].prev in s.cache &&
             IsValid(s, s.cache[b].prev)
    requires Root(s.cache, b) == Root(s.cache, s.head)
    requires forall x {:trigger WorkerFair(t, x)} :: WorkerFair(t, x)
    ensures Fair(t) && Stands(s, t)
  {
    forall x
      ensures Sound(t, x)
    {
      assert Sound(s, x);
    }
  }

  /** Only the worker that moves on has to be looked at. */
  lemma OneWorkerFair(s: State, t: State, id: Id)
    requires Fair(s) && Stands(s, t) && id in s.processing && id in t.processing &&
             t.processing == s.processing[id := t.processing[id]]
    requires WorkerFair(t, id)
    ensures forall x {:trigger WorkerFair(t, x)} :: WorkerFair(t, x)
  {
    forall x
      ensures WorkerFair(t, x)
    {
      assert WorkerFair(s, x);
      if x != id && x in s.processing {
        WorkerStays(s, t, x);
      }
    }
  }

  lemma LookFair(s: State, id: Id)
    requires Fair(s) && Enabled(s, Look(id)) && !Clash(s, Look(id)) && Sane(OnLooked(s, id))
    ensures Fair(OnLooked(s, id)) && Stands(s, OnLooked(s, id))
  {
    var t := OnLooked(s, id);
    CheckedNext(s, id);
    assert WorkerFair(s, id);
    assert Stands(s, t);
    OneWorkerFair(s, t, id);
    MarkFair(s, t);
  }

  lemma VerdictFair(s: State, id: Id, outcome: Outcome)
    requires Fair(s) && Enabled(s, Verdict(id, outcome)) && !Clash(s, Verdict(id, outcome)) &&
             Sane(OnVerdict(s, id, outcome))
    ensures Fair(OnVerdict(s, id, outcome)) && Stands(s, OnVerdict(s, id, outcome))
  {
    var t := OnVerdict(s, id, outcome);
    CheckedNext(s, id);
    assert WorkerFair(s, id);
    assert Stands(s, t);
    OneWorkerFair(s, t, id);
    if outcome.Passed? && s.processing[id].head == s.head {
      PassFair(s, t, NextBlock(s, id));
    } else {
      MarkFair(s, t);
    }
  }

  lemma DecideFair(settings: Settings, s: State, id: Id, now: real)
    requires settings.adjust > 0 && settings.tuning > 0
    requires Fair(s) && Enabled(s, Decide(id, now)) && Sane(OnDecided(settings, s, id, now))
    ensures Fair(OnDecided(settings, s, id, now)) && Stands(s, OnDecided(settings, s, id, now))
  {
    var t := OnDecided(settings, s, id, now);
    var w := s.processing[id];
    assert WorkerRight(s, id) && WorkerFair(s, id);
    if w.fine {
      var c := Meet(s.cache, id, w.head).value;
      MeetIsHighest(s.cache, id, w.head, c);
      if id == c {
        PathValid(s, w.head, c);
      } else {
        AboveHead(s.cache, id, c);
        assert IsValid(s, w.newChain[0]);
      }
    }
    forall x
      ensures WorkerFair(t, x)
    {
      assert WorkerFair(s, x);
    }
    SameCacheGrows(s);
    QuietFair(s, t);
  }

  /** The head moves to a valid block of the same tree. */
  lemma MoveFair(s: State, t: State, id: Id)
    requires Fair(s) && Sane(t) && t.cache == s.cache && t.status == s.status && t.head == id
    requires id in s.cache && IsValid(s, id) && Meet(s.cache, id, s.head).Some?
    requires forall x {:trigger WorkerFair(t, x)} :: WorkerFair(t, x)
    ensures Fair(t)
  {
    MeetByRoot(s.cache, id, s.head);
    forall x
      ensures Sound(t, x)
    {
      assert Sound(s, x);
    }
  }

  lemma CallbackFairWorkers(s: State, id: Id, locked: bool, x: Id)
    requires Fair(s) && Enabled(s, Callback(id, locked)) && JournalQueues.QueuesKept(s) &&
             Stands(s, OnValidated(s, id, locked))
    ensures WorkerFair(OnValidated(s, id, locked), x)
  {
    CallbackWorkers(s, id, locked, x);
    assert WorkerFair(s, x);
    var t := OnValidated(s, id, locked);
    if x in t.processing && t.processing[x] != Queued {
      WorkerStays(s, t, x);
    }
  }

  /** Nothing above an invalid block is valid. */
  lemma DrainStands(s: State, id: Id, x: Id)
    requires Fair(s) && StatusOf(s.status, id) == Invalid && x in Descendants(s.cache, id)
    ensures !IsValid(s, x) && x in s.cache
  {
    if IsValid(s, x) {
      PathValid(s, x, id);
    }
  }

  /** What a callback does to verdicts. */
  lemma CallbackMarks(s: State, id: Id, locked: bool, x: Id)
    requires Fair(s) && Enabled(s, Callback(id, locked))
    ensures var t := OnValidated(s, id, locked);
            StatusOf(t.status, x) == StatusOf(s.status, x) ||
            (StatusOf(t.status, x) == Invalid && !IsValid(s, x) && x in s.cache)
    ensures OnValidated(s, id, locked).head != s.head ==> OnValidated(s, id, locked).status == s.status
  {
    var t := OnValidated(s, id, locked);
    if StatusOf(s.status, id) == Invalid && x in Descendants(s.cache, id) {
      DrainStands(s, id, x);
    }
  }

  lemma CallbackFair(s: State, id: Id, locked: bool)
    requires Fair(s) && Enabled(s, Callback(id, locked)) && JournalQueues.QueuesKept(s)
    ensures Fair(OnValidated(s, id, locked)) && Stands(s, OnValidated(s, id, locked))
  {
    var t := OnValidated(s, id, locked);
    CallbackSane(s, id, locked);
    CallbackStore(s, id, locked);
    forall x
      ensures StatusOf(t.status, x) == StatusOf(s.status, x) ||
              (StatusOf(t.status, x) == Invalid && !IsValid(s, x) && x in s.cache)
    {
      CallbackMarks(s, id, locked, x);
    }
    CallbackMarks(s, id, locked, id);
    assert Stands(s, t) by {
      forall x | StatusOf(s.status, x) != Unknown
        ensures StatusOf(t.status, x) == StatusOf(s.status, x)
      {
        assert StatusOf(t.status, x) == StatusOf(s.status, x) ||
               (StatusOf(t.status, x) == Invalid && !IsValid(s, x) && x in s.cache);
      }
    }
    forall x
      ensures WorkerFair(t, x)
    {
      CallbackFairWorkers(s, id, locked, x);
    }
    if t.head == s.head {
      MarkFair(s, t);
    } else {
      assert WorkerRight(s, id) && WorkerFair(s, id);
      MoveFair(s, t, id);
    }
  }

  lemma NextFair(settings: Settings, s: State, e: Event)
    requires settings.adjust > 0 && settings.tuning > 0
    requires Fair(s) && JournalQueues.QueuesKept(s) && Enabled(s, e) && !Clash(s, e)
    ensures Fair(Next(settings, s, e)) && Stands(s, Next(settings, s, e))
  {
    NextSane(settings, s, e);
    match e
    case Receive(id, b) => ReceiveFair(s, id, b);
    case Start(id, marked) => StartFair(s, id, marked);
    case Look(id) => LookFair(s, id);
    case Verdict(id, outcome) => VerdictFair(s, id, outcome);
    case Decide(id, now) => DecideFair(settings, s, id, now);
    case Callback(id, locked) => CallbackFair(s, id, locked);
  }

  // ----- whole runs -----

  /** Nothing is queued; the store is the path of a valid head and nothing else is cached. */
  ghost predicate Initial(s: State) {
    Linked(s.cache) && Closed(s.cache) && s.head in s.cache && s.processing == map[] && s.pending == map[] &&
    s.store == s.cache.Keys && s.store == Members(Chain(s.cache, s.head)) &&
    (forall x {:trigger StatusOf(s.status, x)} :: StatusOf(s.status, x) == if x in s.cache then Valid else Unknown)
  }

  /** A run: every event enabled where it happens. */
  ghost predicate IsRun(settings: Settings, run: seq<State>, events: seq<Event>)
    requires settings.adjust > 0 && settings.tuning > 0
  {
    |run| == |events| + 1 && Initial(run[0]) &&
    forall i {:trigger events[i]} | 0 <= i < |events| ::
      Linked(run[i].cache) && Enabled(run[i], events[i]) && run[i + 1] == Next(settings, run[i], events[i])
  }

  lemma InitialSafe(s: State)
    requires Initial(s)
    ensures Sane(s) && Fair(s) && JournalQueues.QueuesKept(s)
  {
    JournalQueues.StartsQueued(s);
    forall x
      ensures Sound(s, x)
    {
      assert StatusOf(s.status, x) == if x in s.cache then Valid else Unknown;
      if x in s.cache {
        OneRoot(s.cache, s.head, x);
        assert StatusOf(s.status, s.cache[x].prev) == if s.cache[x].prev in s.cache then Valid else Unknown;
      }
    }
    assert IsValid(s, s.head);
  }

  /** In every run, whatever the checks come to, the store is the path of the head, the queues are
      kept, and total work has only grown. */
  lemma {:induction false} RunSane(settings: Settings, run: seq<State>, events: seq<Event>, n: nat)
    requires settings.adjust > 0 && settings.tuning > 0 && IsRun(settings, run, events) && n <= |events|
    ensures Sane(run[n]) && JournalQueues.QueuesKept(run[n])
    ensures forall m | 0 <= m <= n ::
              Sane(run[m]) && TotalWork(run[m].cache, run[m].head) <= TotalWork(run[n].cache, run[n].head)
  {
    if n == 0 {
      InitialSafe(run[0]);
    } else {
      RunSane(settings, run, events, n - 1);
      assert run[n - 1 + 1] == Next(settings, run[n - 1], events[n - 1]);
      HeadMoves(settings, run[n - 1], events[n - 1]);
      JournalQueues.NextKeepsQueues(settings, run[n - 1], events[n - 1]);
    }
  }

  /** No verdict is written over before step `n`. */
  ghost predicate NoClash(settings: Settings, run: seq<State>, events: seq<Event>, n: nat)
    requires settings.adjust > 0 && settings.tuning > 0 && IsRun(settings, run, events) && n <= |events|
  {
    forall i {:trigger events[i]} | 0 <= i < n ::
      Linked(run[i].cache) && Enabled(run[i], events[i]) && !Clash(run[i], events[i])
  }

  /** As long as no verdict is written over, every committed block is valid and every verdict stands. */
  lemma {:induction false} RunFair(settings: Settings, run: seq<State>, events: seq<Event>, n: nat)
    requires settings.adjust > 0 && settings.tuning > 0 && IsRun(settings, run, events) && n <= |events|
    requires NoClash(settings, run, events, n)
    ensures Fair(run[n]) && JournalQueues.QueuesKept(run[n])
    ensures forall x <- run[n].store :: IsValid(run[n], x)
    ensures forall m | 0 <= m <= n :: Stands(run[m], run[n])
  {
    if n == 0 {
      InitialSafe(run[0]);
    } else {
      RunFair(settings, run, events, n - 1);
      assert run[n - 1 + 1] == Next(settings, run[n - 1], events[n - 1]);
      NextFair(settings, run[n - 1], events[n - 1]);
      JournalQueues.NextKeepsQueues(settings, run[n - 1], events[n - 1]);
      forall m | 0 <= m <= n
        ensures Stands(run[m], run[n])
      {
        if m < n {
          StandsOn(run[m], run[n - 1], run[n]);
        }
      }
    }
    CommittedValid(run[n]);
  }

  /** All verdicts of a run stand exactly when none is written over. */
  lemma RunStandsExactly(settings: Settings, run: seq<State>, events: seq<Event>)
    requires settings.adjust > 0 && settings.tuning > 0 && IsRun(settings, run, events)
    ensures NoClash(settings, run, events, |events|) <==> forall m, n | 0 <= m <= n < |run| :: Stands(run[m], run[n])
  {
    if NoClash(settings, run, events, |events|) {
      forall m, n | 0 <= m <= n < |run|
        ensures Stands(run[m], run[n])
      {
        RunFair(settings, run, events, n);
      }
    } else {
      var i :| 0 <= i < |events| && !(Linked(run[i].cache) && Enabled(run[i], events[i]) && !Clash(run[i], events[i]));
      assert run[i + 1] == Next(settings, run[i], events[i]);
      LostExactly(settings, run[i], events[i]);
      assert !Stands(run[i], run[i + 1]);
    }
  }

  lemma StandsOn(s: State, t: State, u: State)
    requires Stands(s, t) && Stands(t, u)
    ensures Stands(s, u)
  {
    forall x | StatusOf(s.status, x) != Unknown
      ensures StatusOf(u.status, x) == StatusOf(s.status, x)
    {
      assert StatusOf(t.status, x) == StatusOf(s.status, x);
    }
  }
}
