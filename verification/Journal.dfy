/** The journal as a state machine: what the chain controller keeps, and the atomic steps of its
    methods and of the validation workers it starts. */
module Journal {
  import opened Wrappers
  import opened BlockTree
  import opened Difficulty
  import opened ForkDiffs
  import opened ForkChoice

  /** How far the worker of a submitted block is. A worker compares against the head it found when
      it started; `left` blocks of the new fork, the newest ones, are still unchecked. While it is
      `testing` it has found the next of them without a verdict and is validating it. */
  datatype Stage =
    | Queued
    | Checking(head: Id, newChain: seq<Id>, curChain: seq<Id>, left: nat, fine: bool, testing: bool)
    | Judged(head: Id, commit: bool, newChain: seq<Id>, curChain: seq<Id>)

  datatype State = State(
    cache: Tree,
    status: Statuses,
    head: Id,
    store: set<Id>,
    processing: map<Id, Stage>,
    pending: map<Id, seq<Id>>)

  /** How the check of one block ends: valid, invalid, or with an exception that leaves its status. */
  datatype Outcome = Passed | Failed | Undecided

  datatype Event =
    | Receive(id: Id, block: Block)
    | Start(id: Id, marked: seq<Id>)
    | Look(id: Id)
    | Verdict(id: Id, outcome: Outcome)
    | Decide(id: Id, now: real)
    | Callback(id: Id, locked: bool)

  function Submit(s: State, ids: seq<Id>): State {
    s.(processing := s.processing + map x | x in ids :: Queued)
  }

  function WaitingFor(s: State, id: Id): seq<Id> {
    if id in s.pending then s.pending[id] else []
  }

  /** on_block_received */
  function OnReceived(s: State, id: Id, b: Block): State {
    if id in s.cache || id in s.processing || id in s.pending then s
    else
      var t := s.(cache := s.cache[id := b], pending := s.pending[id := []]);
      if b.prev in t.processing || b.prev in t.pending then
        var waiting := WaitingFor(t, b.prev);
        t.(pending := t.pending[b.prev := if id in waiting then waiting else waiting + [id]])
      else Submit(t, [id])
  }

  /** A worker takes the current head and splits the two paths. Without a common ancestor it gives
      up after marking some blocks of the new block's path. */
  ghost function OnStarted(s: State, id: Id, marked: seq<Id>): State
    requires Linked(s.cache) && id in s.processing
  {
    var m := Meet(s.cache, id, s.head);
    match m
    case Some(c) =>
      var up := Above(s.cache, id, c);
      s.(processing := s.processing[id := Checking(s.head, up, Above(s.cache, s.head, c), |up|, true, false)])
    case None =>
      s.(status := MarkInvalid(s.status, marked), processing := s.processing[id := Judged(s.head, false, [], [])])
  }

  predicate HasNext(s: State, id: Id) {
    id in s.processing && s.processing[id].Checking? && 0 < s.processing[id].left <= |s.processing[id].newChain|
  }

  /** The oldest unchecked block of the new fork. */
  function NextBlock(s: State, id: Id): Id
    requires HasNext(s, id)
  {
    s.processing[id].newChain[s.processing[id].left - 1]
  }

  /** A worker looks at the status of the next block. Blocks after an invalid one are marked invalid;
      a block without a verdict has to be validated. */
  function OnLooked(s: State, id: Id): State
    requires HasNext(s, id) && !s.processing[id].testing
  {
    var w, b := s.processing[id], NextBlock(s, id);
    var next := w.(left := w.left - 1);
    if !w.fine then s.(status := s.status[b := Invalid], processing := s.processing[id := next])
    else match StatusOf(s.status, b)
      case Valid => s.(processing := s.processing[id := next])
      case Invalid => s.(processing := s.processing[id := next.(fine := false)])
      case Unknown => s.(processing := s.processing[id := w.(testing := true)])
  }

  /** A worker is done validating the next block and writes what it found, whatever has been written
      meanwhile. A block found valid after the head has moved ends the work. */
  function OnVerdict(s: State, id: Id, outcome: Outcome): State
    requires HasNext(s, id) && s.processing[id].testing
  {
    var w, b := s.processing[id], NextBlock(s, id);
    var next := w.(left := w.left - 1, testing := false);
    match outcome
    case Passed =>
      if w.head == s.head then s.(status := s.status[b := Valid], processing := s.processing[id := next])
      else s.(processing := s.processing[id := Judged(w.head, false, w.newChain, w.curChain)])
    case Failed => s.(status := s.status[b := Invalid], processing := s.processing[id := next.(fine := false)])
    case Undecided => s.(processing := s.processing[id := next.(fine := false)])
  }

  /** A worker whose fork is all valid compares it with the head it started from. */
  ghost function OnDecided(settings: Settings, s: State, id: Id, now: real): State
    requires Linked(s.cache) && settings.adjust > 0 && settings.tuning > 0
    requires id in s.processing && s.processing[id].Checking?
  {
    var w := s.processing[id];
    s.(processing := s.processing[id := Judged(w.head, w.fine &&
                                               Adopts(settings, s.cache, id, w.head, now), w.newChain, w.curChain)])
  }

  /** All cached blocks above the given one. */
  ghost function Descendants(t: Tree, id: Id): set<Id>
    requires Linked(t)
  {
    set x | x in t && x != id && id in Chain(t, x)
  }

  ghost function Drained(s: State, id: Id): State
    requires Linked(s.cache)
  {
    var doomed := Descendants(s.cache, id);
    s.(status := s.status + (map x | x in doomed :: Invalid), pending := s.pending - doomed)
  }

  function VerifyAgain(s: State, id: Id, waiting: seq<Id>): State {
    Submit(s.(pending := s.pending[id := waiting]), [id])
  }

  /** on_block_validated; `locked` tells whether the lock on the chain head was obtained in time. */
  ghost function OnValidated(s: State, id: Id, locked: bool): State
    requires Linked(s.cache) && id in s.processing && s.processing[id].Judged?
  {
    var w, waiting := s.processing[id], WaitingFor(s, id);
    var t := s.(processing := s.processing - {id}, pending := s.pending - {id});
    if w.head != s.head then
      if waiting != [] then Submit(t, waiting) else VerifyAgain(t, id, [])
    else if w.commit then
      if locked then
        Submit(t.(head := id, store := t.store - Members(w.curChain) + Members(w.newChain)), waiting)
      else VerifyAgain(t, id, waiting)
    else if StatusOf(s.status, id) == Invalid then Drained(t, id)
    else Submit(t, waiting)
  }

  // ----- the state machine -----

  /** Blocks arrive after their predecessors, numbered one above them. */
  predicate Arrives(s: State, id: Id, b: Block) {
    id != NULL && (b.prev == NULL || (b.prev in s.cache && s.cache[b.prev].num + 1 == b.num))
  }

  ghost predicate Enabled(s: State, e: Event)
    requires Linked(s.cache)
  {
    match e
    case Receive(id, b) => Arrives(s, id, b)
    case Start(id, marked) =>
      id in s.processing && s.processing[id].Queued? && forall x <- marked :: x in Chain(s.cache, id)
    case Look(id) => HasNext(s, id) && !s.processing[id].testing
    case Verdict(id, _) => HasNext(s, id) && s.processing[id].testing
    case Decide(id, _) => id in s.processing && s.processing[id].Checking? && s.processing[id].left == 0
    case Callback(id, _) => id in s.processing && s.processing[id].Judged?
  }

  ghost function Next(settings: Settings, s: State, e: Event): State
    requires Linked(s.cache) && settings.adjust > 0 && settings.tuning > 0 && Enabled(s, e)
  {
    match e
    case Receive(id, b) => OnReceived(s, id, b)
    case Start(id, marked) => OnStarted(s, id, marked)
    case Look(id) => OnLooked(s, id)
    case Verdict(id, outcome) => OnVerdict(s, id, outcome)
    case Decide(id, now) => OnDecided(settings, s, id, now)
    case Callback(id, locked) => OnValidated(s, id, locked)
  }
}
