/** With two validation threads a verdict can be written over although no check ever fails to come to
    one: a worker reads a block without a verdict, another one finds it valid and commits it, and the
    first one, validating it against the store that now holds it, finds it invalid. */
module JournalRace {
  import opened Wrappers
  import opened BlockTree
  import opened Difficulty
  import opened ForkDiffs
  import opened ForkChoice
  import opened Journal
  import opened JournalVerdicts
  import opened JournalSolo
  import Digest

  const SETTINGS: Settings := Settings(60, 1000, 1000)

  function Mined(prev: Id, num: nat): Block {
    Block(prev, num, PoW(0, 0.0))
  }

  /** Blocks 2 and 5 on top of block 1, and blocks 3 and 4 on top of block 2. */
  const TREE: Tree := map[1 := Mined(NULL, 1), 2 := Mined(1, 2), 3 := Mined(2, 3), 4 := Mined(2, 3), 5 := Mined(1, 2)]

  // ----- the states of the run -----

  const START: State := State(map[1 := Mined(NULL, 1)], map[1 := Valid], 1, {1}, map[], map[])

  /** Block 2 has arrived and its worker is queued; then blocks 3 and 4, which wait for it. */
  const TWO: State := START.(cache := START.cache[2 := Mined(1, 2)], processing := map[2 := Queued],
                             pending := map[2 := []])
  const THREE: State := TWO.(cache := TWO.cache[3 := Mined(2, 3)], pending := map[2 := [3], 3 := []])
  const FOUR: State := THREE.(cache := THREE.cache[4 := Mined(2, 3)], pending := map[2 := [3, 4], 3 := [], 4 := []])

  /** All blocks have arrived, 3 and 4 wait for 2, and the head is still block 1. */
  function Early(status: Statuses, two: Stage, five: Stage): State {
    State(TREE, status, 1, {1}, map[2 := two, 5 := five], map[2 := [3, 4], 3 := [], 4 := [], 5 := []])
  }

  function OnTwo(testing: bool): Stage {
    Checking(1, [2], [], 1, true, testing)
  }

  function OnFive(left: nat, testing: bool): Stage {
    Checking(1, [5], [], left, true, testing)
  }

  const FIRST: Statuses := map[1 := Valid]
  const SECOND: Statuses := map[1 := Valid, 5 := Valid]

  const ARRIVED: State := Early(FIRST, Queued, Queued)
  const TWO_STARTED: State := Early(FIRST, OnTwo(false), Queued)
  const FIVE_STARTED: State := Early(FIRST, OnTwo(false), OnFive(1, false))
  const FIVE_TESTING: State := Early(FIRST, OnTwo(false), OnFive(1, true))
  const FIVE_VALID: State := Early(SECOND, OnTwo(false), OnFive(0, false))
  const FIVE_JUDGED: State := Early(SECOND, OnTwo(false), Judged(1, true, [5], []))

  /** Block 5 has become the head while the worker of block 2 was busy. */
  function Overtaken(two: Stage): State {
    State(TREE, SECOND, 5, {1, 5}, map[2 := two], map[2 := [3, 4], 3 := [], 4 := []])
  }

  const OVERTAKEN: State := Overtaken(OnTwo(false))
  const TWO_TESTING: State := Overtaken(OnTwo(true))
  const TWO_GIVEN_UP: State := Overtaken(Judged(1, false, [2], []))

  /** Block 2 was given up because the head had moved, so it has no verdict; the blocks on top of it
      are being checked. */
  function Above2(status: Statuses, three: Stage, four: Stage): State {
    State(TREE, status, 5, {1, 5}, map[3 := three, 4 := four], map[3 := [], 4 := []])
  }

  function OnThree(testing: bool): Stage {
    Checking(5, [3, 2], [5], 2, true, testing)
  }

  function OnFour(left: nat, testing: bool): Stage {
    Checking(5, [4, 2], [5], left, true, testing)
  }

  const THIRD: Statuses := SECOND[2 := Valid]
  const LAST: Statuses := THIRD[4 := Valid]

  const ABOVE_QUEUED: State := Above2(SECOND, Queued, Queued)
  const THREE_STARTED: State := Above2(SECOND, OnThree(false), Queued)
  const FOUR_STARTED: State := Above2(SECOND, OnThree(false), OnFour(2, false))
  const THREE_TESTING: State := Above2(SECOND, OnThree(true), OnFour(2, false))
  /** Both workers are validating block 2. */
  const BOTH_TESTING: State := Above2(SECOND, OnThree(true), OnFour(2, true))
  const TWO_VALID: State := Above2(THIRD, OnThree(true), OnFour(1, false))
  const FOUR_TESTING: State := Above2(THIRD, OnThree(true), OnFour(1, true))
  const FOUR_VALID: State := Above2(LAST, OnThree(true), OnFour(0, false))
  const FOUR_JUDGED: State := Above2(LAST, OnThree(true), Judged(5, true, [4, 2], [5]))

  /** One of the two was faster: blocks 2 and 4 are valid and committed. */
  const COMMITTED: State := State(TREE, LAST, 4, {1, 2, 4}, map[3 := OnThree(true)], map[3 := []])

  /** The other one has written its verdict. */
  const OVERWRITTEN: State :=
    State(TREE, LAST[2 := Invalid], 4, {1, 2, 4}, map[3 := Checking(5, [3, 2], [5], 1, false, false)], map[3 := []])

  // ----- reachable states -----

  /** At most two workers are busy. */
  ghost predicate Duo(s: State) {
    forall a, b, c :: Busy(s, a) && Busy(s, b) && Busy(s, c) ==> a == b || b == c || a == c
  }

  /** No check ends with an exception. */
  predicate Decisive(e: Event) {
    e.Verdict? ==> !e.outcome.Undecided?
  }

  /** A run of at most two busy workers without exceptions. */
  ghost predicate IsDuoRun(run: seq<State>, events: seq<Event>) {
    IsRun(SETTINGS, run, events) && (forall s <- run :: Duo(s)) && (forall e <- events :: Decisive(e))
  }

  ghost predicate IsRunTo(run: seq<State>, events: seq<Event>, s: State) {
    IsDuoRun(run, events) && run[|events|] == s
  }

  ghost predicate Reachable(s: State) {
    exists run, events :: IsRunTo(run, events, s)
  }

  ghost predicate Goes(s: State, e: Event, t: State) {
    Linked(s.cache) && Enabled(s, e) && Next(SETTINGS, s, e) == t && Duo(t) && Decisive(e)
  }

  lemma LongerRun(run: seq<State>, events: seq<Event>, e: Event, t: State)
    requires IsRun(SETTINGS, run, events) && Goes(run[|events|], e, t)
    ensures IsRun(SETTINGS, run + [t], events + [e])
  {
    var longer, more := run + [t], events + [e];
    forall i | 0 <= i < |more|
      ensures Linked(longer[i].cache) && Enabled(longer[i], more[i]) &&
              longer[i + 1] == Next(SETTINGS, longer[i], more[i])
    {
      if i < |events| {
        assert more[i] == events[i] && longer[i] == run[i] && longer[i + 1] == run[i + 1];
      } else {
        assert more[i] == e && longer[i] == run[|events|];
      }
    }
  }

  lemma LongerTame(run: seq<State>, events: seq<Event>, e: Event, t: State)
    requires (forall s <- run :: Duo(s)) && (forall x <- events :: Decisive(x)) && Duo(t) && Decisive(e)
    ensures (forall s <- run + [t] :: Duo(s)) && (forall x <- events + [e] :: Decisive(x))
  {
  }

  lemma LongerDuo(run: seq<State>, events: seq<Event>, e: Event, t: State)
    requires IsDuoRun(run, events) && Goes(run[|events|], e, t)
    ensures IsRunTo(run + [t], events + [e], t)
  {
    LongerRun(run, events, e, t);
    LongerTame(run, events, e, t);
  }

  lemma Reach(s: State, e: Event, t: State)
    requires Reachable(s) && Goes(s, e, t)
    ensures Reachable(t)
  {
    var run, events :| IsRunTo(run, events, s);
    LongerDuo(run, events, e, t);
  }

  lemma AtMostTwo(s: State, a: Id, b: Id)
    requires s.processing.Keys <= {a, b}
    ensures Duo(s)
  {
  }

  // ----- the tree -----

  lemma TreeLinked()
    ensures Linked(TREE)
  {
    forall id
      ensures Follows(TREE, id)
    {
    }
  }

  lemma Shape()
    ensures Linked(TREE)
    ensures Chain(TREE, 1) == [1] && Chain(TREE, 2) == [2, 1] && Chain(TREE, 4) == [4, 2, 1] && Chain(TREE, 5) == [5, 1]
    ensures Meet(TREE, 2, 1) == Some(1) && Above(TREE, 2, 1) == [2] && Above(TREE, 1, 1) == []
    ensures Meet(TREE, 5, 1) == Some(1) && Above(TREE, 5, 1) == [5]
    ensures Meet(TREE, 3, 5) == Some(1) && Above(TREE, 3, 1) == [3, 2]
    ensures Meet(TREE, 4, 5) == Some(1) && Above(TREE, 4, 1) == [4, 2]
  {
    TreeLinked();
    assert Chain(TREE, NULL) == [];
    assert Chain(TREE, 1) == [1] + [];
    assert Chain(TREE, 2) == [2] + [1];
    assert Chain(TREE, 5) == [5] + [1];
    assert Above(TREE, 2, 1) == [2] + [];
    assert Above(TREE, 5, 1) == [5] + [];
    assert Meet(TREE, 2, 5) == Meet(TREE, 1, 1);
  }

  lemma Weights()
    ensures Linked(TREE) && TotalWork(TREE, 1) == 1 && TotalWork(TREE, 5) == 2 && TotalWork(TREE, 4) == 3
  {
    Shape();
    assert Digest.Pow2(0) == 1;
    WorkStep(TREE, 1, []);
    WorkStep(TREE, 2, [1]);
    WorkStep(TREE, 4, [2, 1]);
    WorkStep(TREE, 5, [1]);
    assert [1] + [] == [1] && [2] + [1] == [2, 1] && [4] + [2, 1] == [4, 2, 1] && [5] + [1] == [5, 1];
  }

  lemma {:induction false} AllFine(ids: seq<Id>)
    requires Linked(TREE) && forall x <- ids :: x in {2, 3, 4, 5}
    ensures forall x <- ids :: MinedOnMined(TREE, x)
    ensures AllAcceptable(SETTINGS, TREE, ids, 0.0) == Some(true)
    decreases |ids|
  {
    if ids != [] {
      assert ids[0] in ids;
      assert forall x <- ids[1..] :: x in ids;
      AllFine(ids[1..]);
    }
  }

  lemma Preferred()
    ensures Linked(TREE) && Adopts(SETTINGS, TREE, 5, 1, 0.0) && Adopts(SETTINGS, TREE, 4, 5, 0.0)
  {
    Shape();
    Weights();
    AllFine([5]);
    AllFine([4, 2]);
  }

  // ----- the run -----

  lemma StartLinked()
    ensures Linked(START.cache) && Closed(START.cache)
  {
    forall id
      ensures Follows(START.cache, id) && Rooted(START.cache, id)
    {
    }
  }

  lemma StartInitial()
    ensures Reachable(START)
  {
    StartLinked();
    assert Chain(START.cache, NULL) == [] && Chain(START.cache, 1) == [1] + [];
    assert Members([1]) == {1};
    var none: seq<Event> := [];
    assert IsRunTo([START], none, START);
  }

  lemma TwoArrives()
    ensures Goes(START, Receive(2, Mined(1, 2)), TWO) && Linked(TWO.cache)
  {
    StartLinked();
    AtMostTwo(TWO, 2, 5);
    var t := Next(SETTINGS, START, Receive(2, Mined(1, 2)));
    assert t.cache == TWO.cache;
    assert t.processing == TWO.processing;
    assert t.pending == TWO.pending;
    forall x
      ensures Follows(TWO.cache, x)
    {
      assert Follows(START.cache, x);
    }
  }

  lemma ThreeArrives()
    ensures Goes(TWO, Receive(3, Mined(2, 3)), THREE) && Linked(THREE.cache)
  {
    TwoArrives();
    AtMostTwo(THREE, 2, 5);
    var none: seq<Id> := [];
    assert none + [3] == [3];
    var t := Next(SETTINGS, TWO, Receive(3, Mined(2, 3)));
    assert t.cache == THREE.cache;
    assert t.processing == THREE.processing;
    assert t.pending == THREE.pending;
    forall x
      ensures Follows(THREE.cache, x)
    {
      assert Follows(TWO.cache, x);
    }
  }

  lemma FourArrives()
    ensures Goes(THREE, Receive(4, Mined(2, 3)), FOUR) && Linked(FOUR.cache)
  {
    ThreeArrives();
    AtMostTwo(FOUR, 2, 5);
    assert [3] + [4] == [3, 4];
    var t := Next(SETTINGS, THREE, Receive(4, Mined(2, 3)));
    assert t.cache == FOUR.cache;
    assert t.processing == FOUR.processing;
    assert t.pending == FOUR.pending;
    forall x
      ensures Follows(FOUR.cache, x)
    {
      assert Follows(THREE.cache, x);
    }
  }

  lemma FiveArrives()
    ensures Goes(FOUR, Receive(5, Mined(1, 2)), ARRIVED) && Linked(ARRIVED.cache)
  {
    FourArrives();
    AtMostTwo(ARRIVED, 2, 5);
    var t := Next(SETTINGS, FOUR, Receive(5, Mined(1, 2)));
    assert t.cache == ARRIVED.cache;
    assert t.processing == ARRIVED.processing;
    assert t.pending == ARRIVED.pending;
    forall x
      ensures Follows(ARRIVED.cache, x)
    {
      assert Follows(FOUR.cache, x);
    }
  }

  lemma BlocksArrive()
    ensures Reachable(ARRIVED)
  {
    StartInitial();
    TwoArrives();
    Reach(START, Receive(2, Mined(1, 2)), TWO);
    ThreeArrives();
    Reach(TWO, Receive(3, Mined(2, 3)), THREE);
    FourArrives();
    Reach(THREE, Receive(4, Mined(2, 3)), FOUR);
    FiveArrives();
    Reach(FOUR, Receive(5, Mined(1, 2)), ARRIVED);
  }

  lemma TwoStarts()
    ensures Goes(ARRIVED, Start(2, []), TWO_STARTED)
  {
    Shape();
    AtMostTwo(TWO_STARTED, 2, 5);
    var t := Next(SETTINGS, ARRIVED, Start(2, []));
    assert t.processing == TWO_STARTED.processing;
  }

  lemma FiveStarts()
    ensures Goes(TWO_STARTED, Start(5, []), FIVE_STARTED)
  {
    Shape();
    AtMostTwo(FIVE_STARTED, 2, 5);
    var t := Next(SETTINGS, TWO_STARTED, Start(5, []));
    assert t.processing == FIVE_STARTED.processing;
  }

  lemma FiveLooks()
    ensures Goes(FIVE_STARTED, Look(5), FIVE_TESTING)
  {
    TreeLinked();
    AtMostTwo(FIVE_TESTING, 2, 5);
    var t := Next(SETTINGS, FIVE_STARTED, Look(5));
    assert t.processing == FIVE_TESTING.processing;
  }

  lemma FivePasses()
    ensures Goes(FIVE_TESTING, Verdict(5, Passed), FIVE_VALID)
  {
    TreeLinked();
    AtMostTwo(FIVE_VALID, 2, 5);
    var t := Next(SETTINGS, FIVE_TESTING, Verdict(5, Passed));
    assert t.status == FIVE_VALID.status;
    assert t.processing == FIVE_VALID.processing;
  }

  lemma FiveDecides()
    ensures Goes(FIVE_VALID, Decide(5, 0.0), FIVE_JUDGED)
  {
    Preferred();
    AtMostTwo(FIVE_JUDGED, 2, 5);
    var t := Next(SETTINGS, FIVE_VALID, Decide(5, 0.0));
    assert t.processing == FIVE_JUDGED.processing;
  }

  lemma FiveCallsBack()
    ensures Goes(FIVE_JUDGED, Callback(5, true), OVERTAKEN)
  {
    TreeLinked();
    AtMostTwo(OVERTAKEN, 2, 5);
    var t := Next(SETTINGS, FIVE_JUDGED, Callback(5, true));
    assert t.processing == OVERTAKEN.processing;
    assert t.pending == OVERTAKEN.pending;
    assert t.store == OVERTAKEN.store;
  }

  lemma HeadMovesOn()
    ensures Reachable(OVERTAKEN)
  {
    BlocksArrive();
    TwoStarts();
    Reach(ARRIVED, Start(2, []), TWO_STARTED);
    FiveStarts();
    Reach(TWO_STARTED, Start(5, []), FIVE_STARTED);
    FiveLooks();
    Reach(FIVE_STARTED, Look(5), FIVE_TESTING);
    FivePasses();
    Reach(FIVE_TESTING, Verdict(5, Passed), FIVE_VALID);
    FiveDecides();
    Reach(FIVE_VALID, Decide(5, 0.0), FIVE_JUDGED);
    FiveCallsBack();
    Reach(FIVE_JUDGED, Callback(5, true), OVERTAKEN);
  }

  lemma TwoLooks()
    ensures Goes(OVERTAKEN, Look(2), TWO_TESTING)
  {
    TreeLinked();
    AtMostTwo(TWO_TESTING, 2, 5);
    var t := Next(SETTINGS, OVERTAKEN, Look(2));
    assert t.processing == TWO_TESTING.processing;
  }

  lemma TwoPasses()
    ensures Goes(TWO_TESTING, Verdict(2, Passed), TWO_GIVEN_UP)
  {
    TreeLinked();
    AtMostTwo(TWO_GIVEN_UP, 2, 5);
    var t := Next(SETTINGS, TWO_TESTING, Verdict(2, Passed));
    assert t.status == TWO_GIVEN_UP.status;
    assert t.processing == TWO_GIVEN_UP.processing;
  }

  /** A worker whose head has been replaced only hands on what waited for its block. */
  lemma GivenUp(s: State, id: Id, locked: bool)
    requires Linked(s.cache) && id in s.processing && s.processing[id].Judged? && s.processing[id].head != s.head
    requires WaitingFor(s, id) != []
    ensures OnValidated(s, id, locked) ==
            Submit(s.(processing := s.processing - {id}, pending := s.pending - {id}), WaitingFor(s, id))
  {
  }

  lemma QueuedTwo(processing: map<Id, Stage>, a: Id, b: Id)
    ensures processing + (map x | x in [a, b] :: Queued) == processing[a := Queued][b := Queued]
  {
  }

  lemma BothQueued()
    ensures var s := TWO_GIVEN_UP;
            Submit(s.(processing := s.processing - {2}, pending := s.pending - {2}), [3, 4]) == ABOVE_QUEUED
  {
    var s := TWO_GIVEN_UP;
    assert s.processing - {2} == map[] && s.pending - {2} == ABOVE_QUEUED.pending;
    QueuedTwo(map[], 3, 4);
  }

  lemma TwoCallsBack()
    ensures Goes(TWO_GIVEN_UP, Callback(2, true), ABOVE_QUEUED)
  {
    TreeLinked();
    AtMostTwo(ABOVE_QUEUED, 3, 4);
    assert WaitingFor(TWO_GIVEN_UP, 2) == [3, 4];
    GivenUp(TWO_GIVEN_UP, 2, true);
    BothQueued();
  }

  lemma ThreeStarts()
    ensures Goes(ABOVE_QUEUED, Start(3, []), THREE_STARTED)
  {
    Shape();
    AtMostTwo(THREE_STARTED, 3, 4);
    var t := Next(SETTINGS, ABOVE_QUEUED, Start(3, []));
    assert t.processing == THREE_STARTED.processing;
  }

  lemma FourStarts()
    ensures Goes(THREE_STARTED, Start(4, []), FOUR_STARTED)
  {
    Shape();
    AtMostTwo(FOUR_STARTED, 3, 4);
    var t := Next(SETTINGS, THREE_STARTED, Start(4, []));
    assert t.processing == FOUR_STARTED.processing;
  }

  lemma ThreeLooks()
    ensures Goes(FOUR_STARTED, Look(3), THREE_TESTING)
  {
    TreeLinked();
    AtMostTwo(THREE_TESTING, 3, 4);
    var t := Next(SETTINGS, FOUR_STARTED, Look(3));
    assert t.processing == THREE_TESTING.processing;
  }

  lemma FourLooks()
    ensures Goes(THREE_TESTING, Look(4), BOTH_TESTING)
  {
    TreeLinked();
    AtMostTwo(BOTH_TESTING, 3, 4);
    var t := Next(SETTINGS, THREE_TESTING, Look(4));
    assert t.processing == BOTH_TESTING.processing;
  }

  lemma BothWorkersTest()
    ensures Reachable(BOTH_TESTING)
  {
    HeadMovesOn();
    TwoLooks();
    Reach(OVERTAKEN, Look(2), TWO_TESTING);
    TwoPasses();
    Reach(TWO_TESTING, Verdict(2, Passed), TWO_GIVEN_UP);
    TwoCallsBack();
    Reach(TWO_GIVEN_UP, Callback(2, true), ABOVE_QUEUED);
    ThreeStarts();
    Reach(ABOVE_QUEUED, Start(3, []), THREE_STARTED);
    FourStarts();
    Reach(THREE_STARTED, Start(4, []), FOUR_STARTED);
    ThreeLooks();
    Reach(FOUR_STARTED, Look(3), THREE_TESTING);
    FourLooks();
    Reach(THREE_TESTING, Look(4), BOTH_TESTING);
  }

  lemma FourPassesTwo()
    ensures Goes(BOTH_TESTING, Verdict(4, Passed), TWO_VALID)
  {
    TreeLinked();
    AtMostTwo(TWO_VALID, 3, 4);
    var t := Next(SETTINGS, BOTH_TESTING, Verdict(4, Passed));
    assert t.status == TWO_VALID.status;
    assert t.processing == TWO_VALID.processing;
  }

  lemma FourLooksAgain()
    ensures Goes(TWO_VALID, Look(4), FOUR_TESTING)
  {
    TreeLinked();
    AtMostTwo(FOUR_TESTING, 3, 4);
    var t := Next(SETTINGS, TWO_VALID, Look(4));
    assert t.processing == FOUR_TESTING.processing;
  }

  lemma FourPasses()
    ensures Goes(FOUR_TESTING, Verdict(4, Passed), FOUR_VALID)
  {
    TreeLinked();
    AtMostTwo(FOUR_VALID, 3, 4);
    var t := Next(SETTINGS, FOUR_TESTING, Verdict(4, Passed));
    assert t.status == FOUR_VALID.status;
    assert t.processing == FOUR_VALID.processing;
  }

  lemma FourDecides()
    ensures Goes(FOUR_VALID, Decide(4, 0.0), FOUR_JUDGED)
  {
    Preferred();
    AtMostTwo(FOUR_JUDGED, 3, 4);
    var t := Next(SETTINGS, FOUR_VALID, Decide(4, 0.0));
    assert t.processing == FOUR_JUDGED.processing;
  }

  /** A worker that commits moves the head. */
  lemma MovesHead(s: State, id: Id)
    requires Linked(s.cache) && id in s.processing && s.processing[id].Judged?
    requires s.processing[id].head == s.head && s.processing[id].commit
    ensures var w := s.processing[id];
            OnValidated(s, id, true) ==
            Submit(s.(processing := s.processing - {id}, pending := s.pending - {id}, head := id,
                      store := s.store - Members(w.curChain) + Members(w.newChain)), WaitingFor(s, id))
  {
  }

  lemma FourCallsBack()
    ensures Goes(FOUR_JUDGED, Callback(4, true), COMMITTED)
  {
    TreeLinked();
    AtMostTwo(COMMITTED, 3, 4);
    MovesHead(FOUR_JUDGED, 4);
    var t := Next(SETTINGS, FOUR_JUDGED, Callback(4, true));
    assert t.processing == COMMITTED.processing;
    assert t.pending == COMMITTED.pending;
    assert t.store == COMMITTED.store;
  }

  lemma OneCommits()
    ensures Reachable(COMMITTED)
  {
    BothWorkersTest();
    FourPassesTwo();
    Reach(BOTH_TESTING, Verdict(4, Passed), TWO_VALID);
    FourLooksAgain();
    Reach(TWO_VALID, Look(4), FOUR_TESTING);
    FourPasses();
    Reach(FOUR_TESTING, Verdict(4, Passed), FOUR_VALID);
    FourDecides();
    Reach(FOUR_VALID, Decide(4, 0.0), FOUR_JUDGED);
    FourCallsBack();
    Reach(FOUR_JUDGED, Callback(4, true), COMMITTED);
  }

  lemma ThreeFails()
    ensures Goes(COMMITTED, Verdict(3, Failed), OVERWRITTEN)
  {
    TreeLinked();
    AtMostTwo(OVERWRITTEN, 3, 4);
    var t := Next(SETTINGS, COMMITTED, Verdict(3, Failed));
    assert t.status == OVERWRITTEN.status;
    assert t.processing == OVERWRITTEN.processing;
  }

  lemma VerdictWritten()
    ensures 2 in COMMITTED.store && IsValid(COMMITTED, 2) && 2 in OVERWRITTEN.store &&
            StatusOf(OVERWRITTEN.status, 2) == Invalid
    ensures Linked(TREE) && Enabled(COMMITTED, Verdict(3, Failed)) && Clash(COMMITTED, Verdict(3, Failed))
  {
    TreeLinked();
  }

  /** Block 2 is committed and valid, and the last worker's verdict makes it invalid. Two busy workers
      were enough and no check ended with an exception, so one worker is all that can be allowed. */
  lemma CommittedTurnsInvalid()
    ensures Goes(COMMITTED, Verdict(3, Failed), OVERWRITTEN) && Clash(COMMITTED, Verdict(3, Failed))
    ensures Reachable(COMMITTED) && 2 in COMMITTED.store && IsValid(COMMITTED, 2)
    ensures Reachable(OVERWRITTEN) && 2 in OVERWRITTEN.store && StatusOf(OVERWRITTEN.status, 2) == Invalid
  {
    OneCommits();
    ThreeFails();
    VerdictWritten();
    Reach(COMMITTED, Verdict(3, Failed), OVERWRITTEN);
  }
}
