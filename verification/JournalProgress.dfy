/** What becomes of a block and of the worker that checks it: no block leaves the queues, and no fork is
    refused, without a cause. */
module JournalProgress {
  import opened Wrappers
  import opened BlockTree
  import opened Difficulty
  import opened ForkDiffs
  import opened ForkChoice
  import opened Journal
  import opened JournalSafety
  import opened JournalQueues
  import opened JournalVerdicts

  // ----- blocks -----

  /** Where a callback leaves its block and those that waited for it. */
  ghost predicate Followed(s: State, id: Id, locked: bool, t: State)
    requires id in s.processing && s.processing[id].Judged?
  {
    var w, waiting := s.processing[id], WaitingFor(s, id);
    if w.head != s.head then
      t.head == s.head &&
      if waiting == [] then id in t.processing && WaitingFor(t, id) == []
      else forall x <- waiting :: x in t.processing
    else if w.commit && locked then
      t.head == id && forall x <- waiting :: x in t.processing
    else if w.commit then
      t.head == s.head && id in t.processing && WaitingFor(t, id) == waiting
    else
      t.head == s.head &&
      if StatusOf(s.status, id) == Invalid then forall x <- waiting ::
            x !in t.pending && StatusOf(t.status, x) == Invalid
      else forall x <- waiting :: x in t.processing
  }

  lemma CallbackFollows(s: State, id: Id, locked: bool)
    requires Sane(s) && QueuesKept(s) && Enabled(s, Callback(id, locked))
    ensures Followed(s, id, locked, OnValidated(s, id, locked))
  {
    assert WorkerRight(s, id) && WellQueued(s, id) && WellListed(s, id);
    var w, waiting := s.processing[id], WaitingFor(s, id);
    if w.head == s.head && !w.commit && StatusOf(s.status, id) == Invalid {
      forall x | x in waiting
        ensures x in Descendants(s.cache, id)
      {
        DirectlyAbove(s, id, x);
      }
    }
  }

  lemma DirectlyAbove(s: State, id: Id, x: Id)
    requires Linked(s.cache) && id in s.cache && x in s.cache && s.cache[x].prev == id
    ensures x in Descendants(s.cache, id)
  {
    RankFalls(s.cache, x);
    assert Chain(s.cache, x) == [x] + Chain(s.cache, id);
    assert Chain(s.cache, id)[0] == id;
  }

  /** How a block leaves the queues: it becomes the head; it has been compared with the current head and
      refused; the head has moved and the blocks waiting for it are verified instead; or a block below it
      is invalid. */
  ghost predicate Leaves(s: State, e: Event, x: Id)
    requires Linked(s.cache) && Enabled(s, e)
  {
    e.Callback? &&
    var w := s.processing[e.id];
    if x == e.id then
      if w.head == s.head then w.commit ==> e.locked else WaitingFor(s, x) != []
    else
      w.head == s.head && !w.commit && StatusOf(s.status, e.id) == Invalid && e.id in Chain(s.cache, x)
  }

  lemma LeavesForCause(settings: Settings, s: State, e: Event, x: Id)
    requires settings.adjust > 0 && settings.tuning > 0
    requires Sane(s) && QueuesKept(s) && Enabled(s, e) && x in s.pending
    ensures x in Next(settings, s, e).pending || Leaves(s, e, x)
  {
  }

  /** Step `i` is where the block left the queues. */
  ghost predicate LeftAt(run: seq<State>, events: seq<Event>, x: Id, i: nat)
    requires i < |events| < |run|
  {
    Linked(run[i].cache) && Enabled(run[i], events[i]) && Leaves(run[i], events[i], x)
  }

  lemma NewIsPending(settings: Settings, s: State, e: Event, x: Id)
    requires settings.adjust > 0 && settings.tuning > 0 && Linked(s.cache) && Enabled(s, e)
    requires x in Next(settings, s, e).cache && x !in s.cache
    ensures x in Next(settings, s, e).pending
  {
  }

  /** A block is never forgotten: once received it is queued until it leaves for one of these causes. */
  lemma {:induction false} NeverForgotten(settings: Settings, run: seq<State>, events: seq<Event>, n: nat, x: Id)
    requires settings.adjust > 0 && settings.tuning > 0 && IsRun(settings, run, events) && n <= |events|
    requires x in run[n].cache && x !in run[0].cache
    ensures x in run[n].pending || exists i: nat | i < n :: LeftAt(run, events, x, i)
  {
    RunSane(settings, run, events, n - 1);
    var s, e := run[n - 1], events[n - 1];
    assert run[n - 1 + 1] == Next(settings, s, e);
    if x !in s.cache {
      NewIsPending(settings, s, e, x);
    } else {
      NeverForgotten(settings, run, events, n - 1, x);
      if x in s.pending && x !in run[n].pending {
        LeavesForCause(settings, s, e, x);
        assert LeftAt(run, events, x, n - 1);
      }
    }
  }

  /** What a step of a worker writes: blocks after an invalid one are invalid, a block found valid is
      valid unless the head has moved, and no other status changes. */
  lemma VerdictsWritten(settings: Settings, s: State, e: Event, x: Id)
    requires settings.adjust > 0 && settings.tuning > 0 && Linked(s.cache) && Enabled(s, e)
    requires e.Look? || e.Verdict?
    ensures var t, w := Next(settings, s, e), s.processing[e.id];
            StatusOf(t.status, x) ==
            if x != NextBlock(s, e.id) then StatusOf(s.status, x)
            else if e.Look? then (if w.fine then StatusOf(s.status, x) else Invalid)
            else if e.outcome == Failed then Invalid
            else if e.outcome == Passed && w.head == s.head then Valid
            else StatusOf(s.status, x)
  {
  }

  // ----- workers -----

  /** The worker has found nothing against its fork. */
  predicate Hopeful(s: State, id: Id) {
    id in s.processing &&
    match s.processing[id]
    case Queued => true
    case Checking(_, _, _, _, fine, _) => fine
    case Judged(_, commit, _, _) => commit
  }

  /** What speaks against a fork: no common ancestor with the head, an invalid block, a check that ends
      with an exception, a head that moved during a check, or a head that is not worse. */
  ghost predicate Refuses(settings: Settings, s: State, e: Event, id: Id)
    requires Linked(s.cache) && settings.adjust > 0 && settings.tuning > 0 && Enabled(s, e)
  {
    match e
    case Start(x, _) => x == id && Meet(s.cache, id, s.head).None?
    case Look(x) => x == id && StatusOf(s.status, NextBlock(s, id)) == Invalid
    case Verdict(x, outcome) => x == id && (outcome != Passed || s.processing[id].head != s.head)
    case Decide(x, now) => x == id && !Adopts(settings, s.cache, id, s.processing[id].head, now)
    case _ => false
  }

  /** A worker loses hope in exactly the steps that speak against its fork. */
  lemma HopeExactly(settings: Settings, s: State, e: Event, id: Id)
    requires settings.adjust > 0 && settings.tuning > 0 && Linked(s.cache) && Enabled(s, e)
    requires Hopeful(s, id) && id in Next(settings, s, e).processing
    ensures Hopeful(Next(settings, s, e), id) <==> !Refuses(settings, s, e, id)
  {
    match e
    case Start(x, marked) => StartHope(s, x, marked, id);
    case Look(x) => LookHope(s, x, id);
    case Verdict(x, outcome) => VerdictHope(s, x, outcome, id);
    case Callback(x, locked) => CallbackStages(s, x, locked, id);
    case Decide(x, now) => DecideHope(settings, s, x, now, id);
    case Receive(_, _) =>
  }

  /** A callback leaves every worker as it is or queued. */
  lemma CallbackStages(s: State, x: Id, locked: bool, id: Id)
    requires Linked(s.cache) && Enabled(s, Callback(x, locked))
    ensures var t := OnValidated(s, x, locked);
            id in t.processing ==>
              t.processing[id] == Queued || (id in s.processing && t.processing[id] == s.processing[id])
  {
  }

  lemma DecideHope(settings: Settings, s: State, x: Id, now: real, id: Id)
    requires settings.adjust > 0 && settings.tuning > 0 && Linked(s.cache) && Enabled(s, Decide(x, now)) &&
             Hopeful(s, id)
    ensures Hopeful(OnDecided(settings, s, x, now), id) <==>
            !(x == id && !Adopts(settings, s.cache, id, s.processing[id].head, now))
  {
  }

  lemma StartHope(s: State, x: Id, marked: seq<Id>, id: Id)
    requires Linked(s.cache) && Enabled(s, Start(x, marked)) && Hopeful(s, id)
    ensures Hopeful(OnStarted(s, x, marked), id) <==> !(x == id && Meet(s.cache, id, s.head).None?)
  {
  }

  lemma LookHope(s: State, x: Id, id: Id)
    requires Linked(s.cache) && Enabled(s, Look(x)) && Hopeful(s, id)
    ensures Hopeful(OnLooked(s, x), id) <==> !(x == id && StatusOf(s.status, NextBlock(s, id)) == Invalid)
  {
  }

  lemma VerdictHope(s: State, x: Id, outcome: Outcome, id: Id)
    requires Linked(s.cache) && Enabled(s, Verdict(x, outcome)) && Hopeful(s, id)
    ensures Hopeful(OnVerdict(s, x, outcome), id) <==>
            !(x == id && (outcome != Passed || s.processing[id].head != s.head))
  {
  }

  /** A worker without hope was at work before. */
  lemma NewIsHopeful(settings: Settings, s: State, e: Event, id: Id)
    requires settings.adjust > 0 && settings.tuning > 0 && Linked(s.cache) && Enabled(s, e)
    ensures id in Next(settings, s, e).processing && !Hopeful(Next(settings, s, e), id) ==> id in s.processing
  {
    if e.Callback? {
      CallbackStages(s, e.id, e.locked, id);
    }
  }

  /** The step in which a worker lost hope that it does not regain before step `n`. */
  ghost predicate LosesHope(settings: Settings, run: seq<State>, events: seq<Event>, n: nat, id: Id, i: nat)
    requires settings.adjust > 0 && settings.tuning > 0 && IsRun(settings, run, events) && n <= |events|
  {
    i < n && Linked(run[i].cache) && Enabled(run[i], events[i]) && Hopeful(run[i], id) &&
    Refuses(settings, run[i], events[i], id) && forall k | i < k <= n :: id in run[k].processing && !Hopeful(run[k], id)
  }

  lemma StillNoHope(settings: Settings, run: seq<State>, events: seq<Event>, n: nat, id: Id, i: nat)
    requires settings.adjust > 0 && settings.tuning > 0 && IsRun(settings, run, events) && 0 < n <= |events|
    requires LosesHope(settings, run, events, n - 1, id, i) && id in run[n].processing && !Hopeful(run[n], id)
    ensures LosesHope(settings, run, events, n, id, i)
  {
  }

  /** In every run a worker that is not going to commit has met, since it last had nothing against its
      fork, something that speaks against it. */
  lemma {:induction false} RefusedForCause(settings: Settings, run: seq<State>, events: seq<Event>, n: nat, id: Id)
    requires settings.adjust > 0 && settings.tuning > 0 && IsRun(settings, run, events) && n <= |events|
    requires id in run[n].processing && !Hopeful(run[n], id)
    ensures exists i: nat :: LosesHope(settings, run, events, n, id, i)
  {
    if n > 0 {
      var s, e := run[n - 1], events[n - 1];
      assert run[n - 1 + 1] == Next(settings, s, e);
      NewIsHopeful(settings, s, e, id);
      if Hopeful(s, id) {
        HopeExactly(settings, s, e, id);
        assert LosesHope(settings, run, events, n, id, n - 1);
      } else {
        RefusedForCause(settings, run, events, n - 1, id);
        var i: nat :| LosesHope(settings, run, events, n - 1, id, i);
        StillNoHope(settings, run, events, n, id, i);
      }
    }
  }
}
