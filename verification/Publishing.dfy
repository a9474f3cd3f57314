/** The consensus text of a mined block: how the publisher joins it from a hash and how the verifier
    takes it apart and checks it. */
module Publishing {
  import opened Wrappers
  import opened BlockTree
  import opened Difficulty
  import opened Digest
  import opened Mining
  import Numerals

  const POW: string := "PoW"

  // ----- texts -----

  predicate NoGlue(s: string) {
    ':' !in s
  }

  /** Parts glued with colons. */
  function Join(parts: seq<string>): string {
    if parts == [] then "" else if |parts| == 1 then parts[0] else parts[0] + ":" + Join(parts[1..])
  }

  /** The parts between colons. */
  function Split(s: string): (parts: seq<string>)
    ensures parts != []
  {
    if s == "" then [""]
    else
      var rest := Split(s[1..]);
      if s[0] == ':' then [""] + rest else [[s[0]] + rest[0]] + rest[1..]
  }

  lemma {:induction false} SplitPart(s: string, rest: string)
    requires NoGlue(s)
    ensures Split(s) == [s] && Split(s + ":" + rest) == [s] + Split(rest)
    decreases |s|
  {
    var all := s + ":" + rest;
    if s == "" {
      assert all[1..] == rest;
    } else {
      assert all[1..] == s[1..] + ":" + rest;
      SplitPart(s[1..], rest);
      assert [s[0]] + s[1..] == s;
      assert ([s[1..]] + Split(rest))[1..] == Split(rest);
    }
  }

  /** Splitting undoes joining when no part holds a colon. */
  lemma {:induction false} SplitJoin(parts: seq<string>)
    requires parts != [] && forall p <- parts :: NoGlue(p)
    ensures Split(Join(parts)) == parts
    decreases |parts|
  {
    assert parts[0] in parts;
    if |parts| == 1 {
      SplitPart(parts[0], "");
    } else {
      forall p | p in parts[1..]
        ensures NoGlue(p)
      {
        assert p in parts;
      }
      SplitJoin(parts[1..]);
      SplitPart(parts[0], Join(parts[1..]));
      assert [parts[0]] + parts[1..] == parts;
    }
  }

  /** A number in decimal digits. */
  function ReadNumber(s: string): Option<nat> {
    if s == "" then None else Numerals.ParseDigits(s, 10)
  }

  lemma {:induction false} ShownDigits(n: nat)
    ensures NoGlue(Numerals.ShowDigits(n))
  {
    if n > 0 {
      ShownDigits(n / 10);
    }
  }

  lemma ReadShown(n: nat)
    ensures ReadNumber(Numerals.Show(n)) == Some(n) && NoGlue(Numerals.Show(n))
  {
    ShownDigits(n);
    if n > 0 {
      Numerals.ParseShowDigits(n);
    } else {
      assert Numerals.ParseDigits("", 10) == Some(0);
      assert "0"[..0] == "" && "0"[0] == '0';
      assert Numerals.ParseDigits("0", 10) == Some(0);
    }
  }

  // ----- the publisher -----

  /** How times are written and read. */
  datatype Clockwork = Clockwork(show: real -> string, read: string -> Option<real>)

  /** What is written for a time is read as that time and holds no colon. */
  predicate Faithful(c: Clockwork, time: real) {
    c.read(c.show(time)) == Some(time) && NoGlue(c.show(time))
  }

  function ConsensusText(c: Clockwork, difficulty: nat, nonce: nat, time: real): string {
    Join([POW, Numerals.Show(difficulty), Numerals.Show(nonce), c.show(time)])
  }

  /** The text reads back as these four fields, the nonce as the text it is hashed as. */
  predicate Reads(c: Clockwork, text: string, difficulty: nat, nonce: nat, time: real) {
    var fields := Split(text);
    |fields| == 4 && fields[0] == POW && ReadNumber(fields[1]) == Some(difficulty) &&
    fields[2] == Numerals.Show(nonce) && c.read(fields[3]) == Some(time)
  }

  /** The text splits back into the fields it was built from. */
  lemma FieldsReturn(c: Clockwork, difficulty: nat, nonce: nat, time: real)
    requires Faithful(c, time)
    ensures Reads(c, ConsensusText(c, difficulty, nonce, time), difficulty, nonce, time)
  {
    ReadShown(difficulty);
    ReadShown(nonce);
    SplitJoin([POW, Numerals.Show(difficulty), Numerals.Show(nonce), c.show(time)]);
  }

  /** A text is published exactly for a hash of this start time, and it reads back as that hash. */
  method UpdateConsensus(c: Clockwork, startTime: real, found: Message) returns (text: Option<string>)
    requires found.Hash? || found.Stopped?
    ensures text.Some? <==> found.id == startTime
    ensures text.Some? && Faithful(c, startTime) ==> Reads(c, text.value, found.difficulty, found.nonce, found.id)
  {
    if startTime != found.id {
      return None;
    }
    if Faithful(c, startTime) {
      FieldsReturn(c, found.difficulty, found.nonce, startTime);
    }
    return Some(Join([POW, Numerals.Show(found.difficulty), Numerals.Show(found.nonce), c.show(startTime)]));
  }

  // ----- the verifier -----

  /** When a consensus text proves a block that follows `prev`. `digest` hashes the block with a
      nonce's text. */
  ghost predicate Proves(s: Settings, t: Tree, c: Clockwork, prev: Id, digest: string -> seq<Byte>, text: string,
                         now: real)
    requires Linked(t) && s.adjust > 0 && s.tuning > 0
  {
    var fields := Split(text);
    fields[0] == POW && prev in t && |fields| > 2 && ReadNumber(fields[1]).Some? &&
    ValidDigest(digest(fields[2]), ReadNumber(fields[1]).value) &&
    (IsPoW(t, prev) ==>
      |fields| > 3 && c.read(fields[3]).Some? &&
      Acceptable(s, t, prev, PoW(ReadNumber(fields[1]).value, c.read(fields[3]).value), now) == Some(true))
  }

  /** When verifying a text raises an exception: a field is missing or cannot be read, or, after a mined
      block, an ancestor that the difficulty depends on is missing. */
  ghost predicate Raises(s: Settings, t: Tree, c: Clockwork, prev: Id, text: string, now: real)
    requires Linked(t) && s.adjust > 0 && s.tuning > 0
  {
    var fields := Split(text);
    fields[0] == POW && prev in t &&
    (|fields| <= 2 || ReadNumber(fields[1]).None? ||
     (IsPoW(t, prev) &&
      (|fields| <= 3 || c.read(fields[3]).None? ||
       Acceptable(s, t, prev, PoW(ReadNumber(fields[1]).value, c.read(fields[3]).value), now) == None)))
  }

  class BlockVerifier {
    const cache: Tree
    const settings: Settings
    const clockwork: Clockwork

    constructor (cache: Tree, settings: Settings, clockwork: Clockwork)
      ensures this.cache == cache && this.settings == settings && this.clockwork == clockwork
    {
      this.cache, this.settings, this.clockwork := cache, settings, clockwork;
    }

    /** None stands for an exception: a field or an ancestor is missing or cannot be read. */
    method VerifyBlock(prev: Id, digest: string -> seq<Byte>, text: string, now: real) returns (r: Option<bool>)
      requires Linked(cache) && settings.adjust > 0 && settings.tuning > 0
      ensures r == Some(true) <==> Proves(settings, cache, clockwork, prev, digest, text, now)
      ensures r == Some(true) <==>
              var f := Split(text);
              f[0] == "PoW" && prev in cache && |f| > 2 && ReadNumber(f[1]).Some? &&
              (var d, hash := ReadNumber(f[1]).value, digest(f[2]);
               d <= 8 * |hash| && Number(hash) < Pow2(8 * |hash| - d)) &&
              (IsPoW(cache, prev) ==>
                |f| > 3 && clockwork.read(f[3]).Some? &&
                var d, time, before := ReadNumber(f[1]).value, clockwork.read(f[3]).value, TimeOf(cache, prev);
                var due := Adjusted(settings, cache, prev, time);
                due.Some? && (d >= due.value || (before < time < now && time - before >= 1800.0)))
      ensures r == None <==> Raises(settings, cache, clockwork, prev, text, now)
    {
      var fields := Split(text);
      if fields[0] != POW || prev !in cache {
        return Some(false);
      }
      if IsPoW(cache, prev) {
        if |fields| <= 3 || clockwork.read(fields[3]).None? || ReadNumber(fields[1]).None? {
          return None;
        }
        var validator := new DifficultyValidator(cache, settings);
        var fine := validator.ValidateDifficulty(prev,
                                                 PoW(ReadNumber(fields[1]).value, clockwork.read(fields[3]).value),
                                                     now);
        if fine != Some(true) {
          return fine;
        }
      }
      if |fields| <= 2 || ReadNumber(fields[1]).None? {
        return None;
      }
      ValidMeaning(digest(fields[2]), ReadNumber(fields[1]).value);
      var zeroes := CountLeadingZeroes(digest(fields[2]));
      return Some(zeroes >= ReadNumber(fields[1]).value);
    }
  }

  // ----- publisher and verifier agree -----

  /** The solver hashes a nonce as its text. */
  function OfNonce(digest: string -> seq<Byte>): nat -> seq<Byte> {
    n => digest(Numerals.Show(n))
  }

  /** Whatever a solver started with the due difficulty reports, after any nonces, is verified once it
      is published. */
  lemma HashVerifies(s: Settings, t: Tree, c: Clockwork, prev: Id, digest: string -> seq<Byte>, id: real,
                     tried: seq<nat>, least: nat,
                     m: Message, text: string, now: real)
    requires Linked(t) && s.adjust > 0 && s.tuning > 0 && prev in t
    requires IsPoW(t, prev) ==> Adjusted(s, t, prev, id) == Some(least)
    requires m in Records(OfNonce(digest), id, tried, least) && m.Hash?
    requires Reads(c, text, m.difficulty, m.nonce, m.id)
    ensures Proves(s, t, c, prev, digest, text, now)
  {
    BelowThreshold(OfNonce(digest), id, tried, least);
    assert Honest(OfNonce(digest), m) && m.id == id && m.difficulty >= least;
  }

  /** A text that reads as the best hash of a stopped solver is verified exactly when its digest spells
      a number small enough for the difficulty it claims, and this is the due difficulty, or the
      previous block was half an hour old when mining began and that was before now. */
  lemma StoppedVerifies(s: Settings, t: Tree, c: Clockwork, prev: Id, digest: string -> seq<Byte>, m: Message,
                        text: string, least: nat, now: real)
    requires Linked(t) && s.adjust > 0 && s.tuning > 0 && IsPoW(t, prev)
    requires m.Stopped? && Reads(c, text, m.difficulty, m.nonce, m.id)
    requires Adjusted(s, t, prev, m.id) == Some(least)
    ensures Proves(s, t, c, prev, digest, text, now) <==>
            var hash := digest(Numerals.Show(m.nonce));
            m.difficulty <= 8 * |hash| && Number(hash) < Pow2(8 * |hash| - m.difficulty) &&
            (m.difficulty >= least || (m.id < now && m.id - TimeOf(t, prev) >= 1800.0))
  {
    ValidMeaning(digest(Numerals.Show(m.nonce)), m.difficulty);
  }

  /** What a solver answers to a stop is a digest small enough for the difficulty it claims. */
  lemma StopIsGood(digest: nat -> seq<Byte>, tried: seq<nat>, nonce: nat, difficulty: nat)
    requires Best(digest, tried, nonce, difficulty)
    ensures var hash := digest(nonce); difficulty <= 8 * |hash| && Number(hash) < Pow2(8 * |hash| - difficulty)
  {
    ValidMeaning(digest(nonce), difficulty);
  }

  /** A miner who starts one second after a block of difficulty 22, stops after half an hour and
      publishes a hash of difficulty 21 is refused, however much later it is. */
  lemma StoppedRefused(c: Clockwork, digest: string -> seq<Byte>, nonce: nat, text: string, now: real)
    requires LeadingZeroes(digest(Numerals.Show(nonce))) == 21 && Reads(c, text, 21, nonce, 101.0)
    requires now - 101.0 >= ENFORCING_INTERVAL
    ensures var t: Tree := map[1 := Block(NULL, 1, PoW(22, 100.0))];
            Linked(t) && Adjusted(Settings(60, 10, 100), t, 1, 101.0) == Some(22) &&
            !Proves(Settings(60, 10, 100), t, c, 1, digest, text, now)
  {
    var t: Tree := map[1 := Block(NULL, 1, PoW(22, 100.0))];
    assert forall id {:trigger Follows(t, id)} :: Follows(t, id);
    StoppedVerifies(Settings(60, 10, 100), t, c, 1, digest, Stopped(101.0, 21, nonce), text, 22, now);
  }
}
