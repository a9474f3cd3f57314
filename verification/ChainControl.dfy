/** The chain controller and its validation workers. Each method is proved to take exactly one step
    of the journal, so what holds over all runs of the journal holds of the controller. */
module ChainControl {
  import opened Wrappers
  import opened BlockTree
  import opened Difficulty
  import opened ForkDiffs
  import opened ForkChoice
  import opened Journal
  import opened JournalQueues
  import opened JournalSafety
  import opened JournalProgress

  class ChainController {
    const settings: Settings
    var cache: Tree
    var status: Statuses
    var head: Id
    var store: set<Id>
    var processing: map<Id, Stage>
    var pending: map<Id, seq<Id>>

    ghost function Now(): State
      reads this
    {
      State(cache, status, head, store, processing, pending)
    }

    ghost predicate Valid()
      reads this
    {
      settings.adjust > 0 && settings.tuning > 0 && Sane(Now()) && QueuesKept(Now())
    }

    /** Starts from what the block store holds, with nothing queued. */
    constructor (settings: Settings, cache: Tree, status: Statuses, head: Id)
      requires settings.adjust > 0 && settings.tuning > 0
      requires Linked(cache) && Closed(cache) && head in cache && cache.Keys == Members(Chain(cache, head))
      ensures Valid() && Now() == State(cache, status, head, cache.Keys, map[], map[]) && this.settings == settings
    {
      this.settings, this.cache, this.status, this.head := settings, cache, status, head;
      store, processing, pending := cache.Keys, map[], map[];
      new;
      StartsQueued(Now());
    }

    // ----- blocks arrive -----

    method SubmitBlocksForVerification(ids: seq<Id>)
      modifies this`processing
      ensures Now() == Submit(old(Now()), ids)
    {
      var i := 0;
      while i < |ids|
        invariant 0 <= i <= |ids| && processing == QueuedToo(old(processing), ids[..i])
      {
        QueuedOneMore(old(processing), ids, i);
        processing := processing[ids[i] := Queued];
        i := i + 1;
      }
      assert ids[..i] == ids;
    }

    method OnBlockReceived(id: Id, block: Block)
      modifies this
      ensures Now() == OnReceived(old(Now()), id, block)
      ensures id in old(cache) || id in old(processing) || id in old(pending) ==> Now() == old(Now())
      ensures id !in old(cache) && id !in old(processing) && id !in old(pending) ==>
                cache == old(cache)[id := block] && id in pending &&
                if block.prev in old(processing) || block.prev in pending
                then block.prev in pending && id in pending[block.prev] && processing == old(processing)
                else processing == old(processing)[id := Queued]
      ensures old(Valid()) && Arrives(old(Now()), id, block) ==> Valid()
    {
      if Valid() && Arrives(Now(), id, block) {
        ReceiveKeepsQueues(Now(), id, block);
        ReceiveSane(Now(), id, block);
      }
      if id in cache || id in processing || id in pending {
        return;
      }
      cache := cache[id := block];
      pending := pending[id := []];
      if block.prev in processing || block.prev in pending {
        var waiting := if block.prev in pending then pending[block.prev] else [];
        if id !in waiting {
          waiting := waiting + [id];
        }
        pending := pending[block.prev := waiting];
      } else {
        SubmitBlocksForVerification([id]);
      }
    }

    // ----- a worker verifies a block -----

    method StartVerification(id: Id) returns (ghost marked: seq<Id>)
      requires Valid() && id in processing && processing[id].Queued?
      modifies this
      ensures Enabled(old(Now()), Start(id, marked)) && Now() == OnStarted(old(Now()), id, marked) && Valid()
    {
      assert WorkerRight(Now(), id);
      var validator := new BlockValidator(cache, status);
      var diff;
      diff, marked := validator.Diff(id, head);
      if diff.Found? {
        marked := [];
      }
      AllWhole(cache, head);
      SameQueues(Now(), OnStarted(Now(), id, marked));
      NextSane(settings, Now(), Start(id, marked));
      status := validator.status;
      match diff {
        case Found(newChain, curChain) =>
          processing := processing[id := Checking(head, newChain, curChain, |newChain|, true, false)];
        case _ =>
          processing := processing[id := Judged(head, false, [], [])];
      }
    }

    /** The worker looks at the status of the next block. */
    method LookAtNext(id: Id)
      requires Valid() && Enabled(Now(), Look(id))
      modifies this
      ensures Now() == OnLooked(old(Now()), id) && Valid()
    {
      SameQueues(Now(), OnLooked(Now(), id));
      NextSane(settings, Now(), Look(id));
      var w := processing[id];
      var b, left, fine, testing := w.newChain[w.left - 1], w.left - 1, w.fine, false;
      if fine {
        if StatusOf(status, b) == Invalid {
          fine := false;
        } else if StatusOf(status, b) == Unknown {
          left, testing := w.left, true;
        }
      } else {
        status := status[b := Invalid];
      }
      processing := processing[id := Checking(w.head, w.newChain, w.curChain, left, fine, testing)];
    }

    /** The worker has validated the block; `outcome` is what permissions, consensus, on-chain rules
        and batches came to. */
    method WriteVerdict(id: Id, outcome: Outcome)
      requires Valid() && Enabled(Now(), Verdict(id, outcome))
      modifies this
      ensures Now() == OnVerdict(old(Now()), id, outcome) && Valid()
    {
      SameQueues(Now(), OnVerdict(Now(), id, outcome));
      NextSane(settings, Now(), Verdict(id, outcome));
      var w := processing[id];
      var b, fine := w.newChain[w.left - 1], false;
      match outcome {
        case Passed =>
          if w.head != head {
            processing := processing[id := Judged(w.head, false, w.newChain, w.curChain)];
            return;
          }
          status := status[b := ForkDiffs.Valid];
          fine := w.fine;
        case Failed => status := status[b := Invalid];
        case Undecided =>
      }
      processing := processing[id := Checking(w.head, w.newChain, w.curChain, w.left - 1, fine, false)];
    }

    method DecideFork(id: Id, now: real)
      requires Valid() && Enabled(Now(), Decide(id, now))
      modifies this
      ensures Now() == OnDecided(settings, old(Now()), id, now) && Valid()
    {
      assert WorkerRight(Now(), id);
      SameQueues(Now(), OnDecided(settings, Now(), id, now));
      NextSane(settings, Now(), Decide(id, now));
      var w, commit := processing[id], false;
      if w.fine {
        var resolver := new ForkResolver(cache, settings);
        var choice := resolver.CompareForks(w.head, id, now);
        commit := choice == Adopt;
      }
      processing := processing[id := Judged(w.head, commit, w.newChain, w.curChain)];
    }

    // ----- the callback -----

    method VerifyBlockAgain(id: Id, waiting: seq<Id>)
      modifies this
      ensures Now() == VerifyAgain(old(Now()), id, waiting)
    {
      pending := pending[id := waiting];
      SubmitBlocksForVerification([id]);
    }

    /** Removes and marks the last block of the list; what waited for it is listed next. */
    method DrainBlock(id: Id, work: seq<Id>, ghost s: State, ghost done: set<Id>) returns (next: seq<Id>)
      requires Sane(s) && QueuesKept(s) && id in s.processing && work != [] && Draining(s, id, work, done)
      requires status == Marked(s.status, done) && pending == s.pending - {id} - done
      modifies this`status, this`pending
      ensures Draining(s, id, next, done + {work[|work| - 1]})
      ensures status == Marked(s.status, done + {work[|work| - 1]}) &&
              pending == s.pending - {id} - (done + {work[|work| - 1]})
      ensures |pending| < |old(pending)|
    {
      var b := work[|work| - 1];
      DrainStep(s, id, work, done);
      status := status[b := Invalid];
      next := work[..|work| - 1] + pending[b];
      pending := pending - {b};
    }

    /** An invalid block removes and marks exactly the blocks waiting above it. */
    method DrainDescendants(id: Id, waiting: seq<Id>, ghost s: State)
      requires Sane(s) && QueuesKept(s) && id in s.processing && waiting == WaitingFor(s, id)
      requires status == s.status && pending == s.pending - {id}
      modifies this`status, this`pending
      ensures status == Marked(s.status, Descendants(s.cache, id)) &&
              pending == s.pending - {id} - Descendants(s.cache, id)
    {
      var work := waiting;
      ghost var done: set<Id> := {};
      DrainStarts(s, id);
      while work != []
        invariant Draining(s, id, work, done)
        invariant status == Marked(s.status, done) && pending == s.pending - {id} - done
        decreases |pending|
      {
        ghost var b := work[|work| - 1];
        work := DrainBlock(id, work, s, done);
        done := done + {b};
      }
      DrainedAll(s, id, done);
    }

    method OnBlockValidated(id: Id, locked: bool)
      requires Valid() && Enabled(Now(), Callback(id, locked))
      modifies this
      ensures Now() == OnValidated(old(Now()), id, locked) && Valid()
      ensures Followed(old(Now()), id, locked, Now())
    {
      ghost var s := Now();
      CallbackKeepsQueues(s, id, locked);
      CallbackSane(s, id, locked);
      CallbackFollows(s, id, locked);
      assert WellQueued(s, id) && WorkerRight(s, id);
      var w := processing[id];
      processing := processing - {id};
      var waiting := if id in pending then pending[id] else [];
      pending := pending - {id};
      if w.head != head {
        if waiting != [] {
          SubmitBlocksForVerification(waiting);
        } else {
          VerifyBlockAgain(id, []);
        }
      } else if w.commit {
        if locked {
          head := id;
          store := store - Members(w.curChain) + Members(w.newChain);
          SubmitBlocksForVerification(waiting);
        } else {
          VerifyBlockAgain(id, waiting);
        }
      } else if StatusOf(status, id) == Invalid {
        DrainDescendants(id, waiting, s);
      } else {
        SubmitBlocksForVerification(waiting);
      }
    }
  }

  lemma AllWhole(t: Tree, id: Id)
    requires Linked(t) && Closed(t)
    ensures Whole(t, id)
  {
  }

  lemma SizeDrop<V>(after: map<Id, V>, before: map<Id, V>, b: Id)
    requires b in before && after == before - {b}
    ensures |after| < |before|
  {
    assert after.Keys == before.Keys - {b};
    assert |after.Keys| == |after| && |before.Keys| == |before|;
  }

  function QueuedToo(processing: map<Id, Stage>, ids: seq<Id>): map<Id, Stage> {
    processing + map x | x in ids :: Queued
  }

  lemma QueuedOneMore(processing: map<Id, Stage>, ids: seq<Id>, i: nat)
    requires i < |ids|
    ensures QueuedToo(processing, ids[..i + 1]) == QueuedToo(processing, ids[..i])[ids[i] := Queued]
  {
    assert ids[..i + 1] == ids[..i] + [ids[i]];
  }

  // ----- draining -----

  function Marked(status: Statuses, done: set<Id>): Statuses {
    status + map x | x in done :: Invalid
  }

  lemma MarkedNext(status: Statuses, done: set<Id>, b: Id)
    ensures Marked(status, done + {b}) == Marked(status, done)[b := Invalid]
  {
  }

  lemma RemovedNext(pending: map<Id, seq<Id>>, id: Id, done: set<Id>, b: Id)
    requires b in pending && b != id && b !in done
    ensures pending - {id} - (done + {b}) == pending - {id} - done - {b}
    ensures b in pending - {id} - done && (pending - {id} - done)[b] == pending[b]
    ensures |pending - {id} - done - {b}| < |pending - {id} - done|
  {
    assert pending - {id} - (done + {b}) == pending - {id} - done - {b};
    SizeDrop(pending - {id} - done - {b}, pending - {id} - done, b);
  }

  predicate InWork(s: State, id: Id, done: set<Id>, x: Id) {
    x in s.cache && x in s.pending && x !in done && x != id && (s.cache[x].prev == id || s.cache[x].prev in done)
  }

  /** The blocks directly above what has been drained are drained or still to be drained, each of
      the latter listed once. */
  predicate Reached(s: State, id: Id, work: seq<Id>, done: set<Id>, x: Id) {
    x in s.cache && (s.cache[x].prev == id || s.cache[x].prev in done) ==> x in done || x in work
  }

  ghost predicate Draining(s: State, id: Id, work: seq<Id>, done: set<Id>)
    requires Linked(s.cache)
  {
    NoRepeats(work) && done <= Descendants(s.cache, id) &&
    (forall x <- done :: x in s.cache && (s.cache[x].prev == id || s.cache[x].prev in done)) &&
    (forall x <- work :: InWork(s, id, done, x)) &&
    (forall x {:trigger Reached(s, id, work, done, x)} :: Reached(s, id, work, done, x))
  }

  lemma ChildWaits(s: State, id: Id, x: Id)
    requires Sane(s) && QueuesKept(s) && id in s.pending && x in s.cache && s.cache[x].prev == id
    ensures x in s.pending && x in s.pending[id] && x != id
  {
    assert WellQueued(s, x) && Follows(s.cache, x);
  }

  lemma DrainStarts(s: State, id: Id)
    requires Sane(s) && QueuesKept(s) && id in s.processing
    ensures Draining(s, id, WaitingFor(s, id), {})
    ensures Marked(s.status, {}) == s.status && s.pending - {id} - {} == s.pending - {id}
  {
    assert WellQueued(s, id) && WellListed(s, id) && WorkerRight(s, id);
    forall x
      ensures Reached(s, id, WaitingFor(s, id), {}, x)
    {
      assert WellQueued(s, x);
    }
    forall x | x in WaitingFor(s, id)
      ensures InWork(s, id, {}, x)
    {
      assert WellListed(s, id);
      ChildWaits(s, id, x);
    }
  }

  lemma DrainOne(s: State, id: Id, work: seq<Id>, done: set<Id>)
    requires Sane(s) && QueuesKept(s) && id in s.processing && work != [] && Draining(s, id, work, done)
    ensures var b := work[|work| - 1];
            b in s.pending && b != id && b !in done && Draining(s, id, work[..|work| - 1] + s.pending[b], done + {b})
  {
    var b := work[|work| - 1];
    assert b in work && InWork(s, id, done, b);
    assert WorkerRight(s, id);
    BelongsAbove(s, id, b, done);
    DrainOneWork(s, id, work, done, b);
    DrainOneReached(s, id, work, done, b);
    DrainOneApart(s, id, work, done, b);
  }

  /** What one round of the worklist comes to. */
  lemma DrainStep(s: State, id: Id, work: seq<Id>, done: set<Id>)
    requires Sane(s) && QueuesKept(s) && id in s.processing && work != [] && Draining(s, id, work, done)
    ensures var b, left := work[|work| - 1], s.pending - {id} - done;
            b in left && left[b] == s.pending[b] && Draining(s, id, work[..|work| - 1] + left[b], done + {b}) &&
            Marked(s.status, done)[b := Invalid] == Marked(s.status, done + {b}) &&
            left - {b} == s.pending - {id} - (done + {b}) && |left - {b}| < |left|
  {
    var b := work[|work| - 1];
    DrainOne(s, id, work, done);
    MarkedNext(s.status, done, b);
    RemovedNext(s.pending, id, done, b);
  }

  lemma DrainOneWork(s: State, id: Id, work: seq<Id>, done: set<Id>, b: Id)
    requires Sane(s) && QueuesKept(s) && id in s.processing && work != [] && Draining(s, id, work, done)
    requires b == work[|work| - 1] && InWork(s, id, done, b)
    ensures forall x <- work[..|work| - 1] + s.pending[b] :: InWork(s, id, done + {b}, x)
  {
    var rest := work[..|work| - 1];
    forall x | x in rest + s.pending[b]
      ensures InWork(s, id, done + {b}, x)
    {
      if x in rest {
        assert x in work && InWork(s, id, done, x);
        assert x != b;
      } else {
        ChildOf(s, id, b, done, x);
      }
    }
  }

  lemma DrainOneReached(s: State, id: Id, work: seq<Id>, done: set<Id>, b: Id)
    requires Sane(s) && QueuesKept(s) && work != [] && Draining(s, id, work, done)
    requires b == work[|work| - 1] && InWork(s, id, done, b)
    ensures forall x {:trigger Reached(s, id, work[..|work| - 1] + s.pending[b], done + {b}, x)} ::
              Reached(s, id, work[..|work| - 1] + s.pending[b], done + {b}, x)
  {
    var next, now := work[..|work| - 1] + s.pending[b], done + {b};
    assert work == work[..|work| - 1] + [b];
    forall x
      ensures Reached(s, id, next, now, x)
    {
      assert Reached(s, id, work, done, x) && WellQueued(s, x);
    }
  }

  lemma DrainOneApart(s: State, id: Id, work: seq<Id>, done: set<Id>, b: Id)
    requires Sane(s) && QueuesKept(s) && work != [] && Draining(s, id, work, done)
    requires b == work[|work| - 1] && InWork(s, id, done, b)
    ensures NoRepeats(work[..|work| - 1] + s.pending[b])
  {
    var rest, above := work[..|work| - 1], s.pending[b];
    assert WellListed(s, b);
    forall i, j | 0 <= i < |rest| && 0 <= j < |above|
      ensures rest[i] != above[j]
    {
      assert rest[i] in work && InWork(s, id, done, rest[i]);
      assert above[j] in above && s.cache[above[j]].prev == b;
    }
  }

  lemma BelongsAbove(s: State, id: Id, b: Id, done: set<Id>)
    requires Sane(s) && id in s.cache && done <= Descendants(s.cache, id) && InWork(s, id, done, b)
    ensures b in Descendants(s.cache, id)
  {
    ChainStep(s.cache, b, id);
    RankFalls(s.cache, b);
    if s.cache[b].prev == id {
      assert Rooted(s.cache, b);
      ChainHere(s, id, b);
    }
  }

  lemma ChainHere(s: State, id: Id, b: Id)
    requires Sane(s) && b in s.cache && s.cache[b].prev == id
    ensures id in s.cache ==> id in Chain(s.cache, b)
  {
    RankFalls(s.cache, b);
    if id in s.cache {
      assert id in Chain(s.cache, id);
    }
  }

  /** A block waiting for `b` has not been drained yet. */
  lemma ChildOf(s: State, id: Id, b: Id, done: set<Id>, x: Id)
    requires Sane(s) && QueuesKept(s) && id in s.processing && InWork(s, id, done, b) && x in s.pending[b]
    requires done <= Descendants(s.cache, id) &&
             forall y <- done :: y in s.cache && (s.cache[y].prev == id || s.cache[y].prev in done)
    ensures InWork(s, id, done + {b}, x)
  {
    assert WellListed(s, b) && WellQueued(s, id);
    ChildWaits(s, b, x);
  }

  lemma {:induction false} DrainReaches(s: State, id: Id, done: set<Id>, x: Id)
    requires Sane(s) && Draining(s, id, [], done) && x in Descendants(s.cache, id)
    ensures x in done
    decreases Rank(s.cache, x)
  {
    assert Reached(s, id, [], done, x);
    ChainStep(s.cache, x, id);
    RankFalls(s.cache, x);
    if s.cache[x].prev != id {
      DrainReaches(s, id, done, s.cache[x].prev);
    }
  }

  lemma DrainedAll(s: State, id: Id, done: set<Id>)
    requires Sane(s) && Draining(s, id, [], done)
    ensures done == Descendants(s.cache, id)
  {
    forall x | x in Descendants(s.cache, id)
      ensures x in done
    {
      DrainReaches(s, id, done, x);
    }
  }
}
