/** With one validation thread, which is what the validator's pool has by default, no verdict is ever
    written over, whatever the checks come to: exceptions included, committed blocks stay valid. */
module JournalSolo {
  import opened Wrappers
  import opened BlockTree
  import opened Difficulty
  import opened ForkDiffs
  import opened ForkChoice
  import opened Journal
  import opened JournalSafety
  import opened JournalVerdicts
  import JournalQueues

  /** A worker that has started and not called back yet. */
  predicate Busy(s: State, id: Id) {
    id in s.processing && !s.processing[id].Queued?
  }

  ghost predicate Solo(s: State) {
    forall a, b :: Busy(s, a) && Busy(s, b) ==> a == b
  }

  /** After a block without a verdict nothing above it is valid, and what is being tested has none. */
  predicate Alone(s: State, id: Id) {
    id in s.processing ==>
      match s.processing[id]
      case Checking(_, up, _, left, fine, testing) =>
        (!fine ==> left < |up| && !IsValid(s, up[left])) &&
        (testing ==> 0 < left <= |up| && StatusOf(s.status, up[left - 1]) == Unknown)
      case _ => true
  }

  ghost predicate SoloFair(s: State) {
    Fair(s) && forall id {:trigger Alone(s, id)} :: Alone(s, id)
  }

  /** Nobody's verdict is written over. */
  lemma SoloNoClash(s: State, e: Event)
    requires SoloFair(s) && Enabled(s, e)
    ensures !Clash(s, e)
  {
    match e
    case Start(id, marked) =>
      assert WorkerRight(s, id);
      MeetByRoot(s.cache, id, s.head);
      forall x | x in marked && Meet(s.cache, id, s.head).None?
        ensures !IsValid(s, x)
      {
        OneRoot(s.cache, id, x);
        assert Sound(s, x);
      }
    case Look(id) =>
      CheckedNext(s, id);
      assert Alone(s, id) && Sound(s, NextBlock(s, id));
    case Verdict(id, outcome) => assert Alone(s, id);
    case Callback(id, locked) =>
      forall x | StatusOf(s.status, id) == Invalid && x in Descendants(s.cache, id)
        ensures !IsValid(s, x)
      {
        DrainStands(s, id, x);
      }
    case _ =>
  }

  /** A worker that has not started is alone in the sense above. */
  lemma QueuedAlone(s: State)
    requires forall id :: !(id in s.processing && s.processing[id].Checking?)
    ensures forall id {:trigger Alone(s, id)} :: Alone(s, id)
  {
  }

  /** Only the one busy worker can have anything to keep. */
  lemma OneAlone(t: State, id: Id)
    requires Solo(t) && Busy(t, id) && Alone(t, id)
    ensures forall x {:trigger Alone(t, x)} :: Alone(t, x)
  {
    forall x
      ensures Alone(t, x)
    {
      if x in t.processing && t.processing[x].Checking? {
        assert Busy(t, x);
      }
    }
  }

  lemma LookAlone(s: State, id: Id)
    requires SoloFair(s) && Enabled(s, Look(id))
    ensures Alone(OnLooked(s, id), id)
  {
    CheckedNext(s, id);
    assert Alone(s, id) && WorkerFair(s, id) && Sound(s, NextBlock(s, id));
  }

  lemma VerdictAlone(s: State, id: Id, outcome: Outcome)
    requires SoloFair(s) && Enabled(s, Verdict(id, outcome))
    ensures Alone(OnVerdict(s, id, outcome), id)
  {
    assert Alone(s, id) && WorkerFair(s, id);
  }

  lemma CallbackAlone(s: State, id: Id, locked: bool)
    requires Solo(s) && Sane(s) && JournalQueues.QueuesKept(s) && Enabled(s, Callback(id, locked))
    ensures forall x {:trigger Alone(OnValidated(s, id, locked), x)} :: Alone(OnValidated(s, id, locked), x)
  {
    var t := OnValidated(s, id, locked);
    forall x
      ensures !(x in t.processing && t.processing[x].Checking?)
    {
      CallbackWorkers(s, id, locked, x);
      assert Busy(s, id);
      if x in t.processing && t.processing[x].Checking? {
        assert Busy(s, x);
        GoneAfter(s, id, locked);
      }
    }
    QueuedAlone(t);
  }

  lemma GoneAfter(s: State, id: Id, locked: bool)
    requires Linked(s.cache) && Enabled(s, Callback(id, locked))
    ensures var t := OnValidated(s, id, locked); id in t.processing ==> t.processing[id].Queued?
  {
  }

  lemma ReceiveAlone(s: State, id: Id, b: Block)
    requires SoloFair(s)
    ensures forall x {:trigger Alone(OnReceived(s, id, b), x)} :: Alone(OnReceived(s, id, b), x)
  {
    forall x
      ensures Alone(OnReceived(s, id, b), x)
    {
      assert Alone(s, x);
    }
  }

  lemma NextSolo(settings: Settings, s: State, e: Event)
    requires settings.adjust > 0 && settings.tuning > 0
    requires SoloFair(s) && JournalQueues.QueuesKept(s) && Enabled(s, e) && Solo(s) && Solo(Next(settings, s, e))
    ensures SoloFair(Next(settings, s, e))
  {
    SoloNoClash(s, e);
    NextFair(settings, s, e);
    var t := Next(settings, s, e);
    match e
    case Receive(id, b) => ReceiveAlone(s, id, b);
    case Start(id, marked) =>
      assert WorkerRight(s, id);
      OneAlone(t, id);
    case Look(id) =>
      LookAlone(s, id);
      OneAlone(t, id);
    case Verdict(id, outcome) =>
      VerdictAlone(s, id, outcome);
      OneAlone(t, id);
    case Decide(id, now) => OneAlone(t, id);
    case Callback(id, locked) => CallbackAlone(s, id, locked);
  }

  lemma SoloStep(settings: Settings, s: State, e: Event, t: State)
    requires settings.adjust > 0 && settings.tuning > 0
    requires SoloFair(s) && JournalQueues.QueuesKept(s) && Enabled(s, e) && Solo(s) && Solo(t) &&
             t == Next(settings, s, e)
    ensures SoloFair(t) && JournalQueues.QueuesKept(t)
  {
    NextSolo(settings, s, e);
    JournalQueues.NextKeepsQueues(settings, s, e);
  }

  lemma {:induction false} SoloUpTo(settings: Settings, run: seq<State>, events: seq<Event>, n: nat)
    requires settings.adjust > 0 && settings.tuning > 0 && IsRun(settings, run, events) && n <= |events|
    requires forall i | 0 <= i < |run| :: Solo(run[i])
    ensures SoloFair(run[n]) && JournalQueues.QueuesKept(run[n])
  {
    if n == 0 {
      InitialSafe(run[0]);
      QueuedAlone(run[0]);
    } else {
      SoloUpTo(settings, run, events, n - 1);
      assert run[n - 1 + 1] == Next(settings, run[n - 1], events[n - 1]);
      SoloStep(settings, run[n - 1], events[n - 1], run[n]);
    }
  }

  lemma SoloNeverClashes(settings: Settings, run: seq<State>, events: seq<Event>)
    requires settings.adjust > 0 && settings.tuning > 0 && IsRun(settings, run, events)
    requires forall i | 0 <= i < |run| :: Solo(run[i])
    ensures NoClash(settings, run, events, |events|)
  {
    forall i | 0 <= i < |events|
      ensures Linked(run[i].cache) && Enabled(run[i], events[i]) && !Clash(run[i], events[i])
    {
      SoloUpTo(settings, run, events, i);
      SoloNoClash(run[i], events[i]);
    }
  }

  /** In every run of a single worker thread every committed block is valid and every verdict stands. */
  lemma SoloRun(settings: Settings, run: seq<State>, events: seq<Event>)
    requires settings.adjust > 0 && settings.tuning > 0 && IsRun(settings, run, events)
    requires forall i | 0 <= i < |run| :: Solo(run[i])
    ensures NoClash(settings, run, events, |events|)
    ensures forall m, n | 0 <= m <= n < |run| :: Stands(run[m], run[n])
    ensures forall n | 0 <= n < |run| :: forall x <- run[n].store :: IsValid(run[n], x)
  {
    SoloNeverClashes(settings, run, events);
    RunStandsExactly(settings, run, events);
    forall n | 0 <= n < |run|
      ensures forall x <- run[n].store :: IsValid(run[n], x)
    {
      SoloUpTo(settings, run, events, n);
      CommittedValid(run[n]);
    }
  }
}
