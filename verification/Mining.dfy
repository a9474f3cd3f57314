/** The proof-of-work solver: it counts nonces up, reports every hash that meets the threshold and
    then asks for more, and remembers the best hash for when it is stopped. */
module Mining {
  import opened Wrappers
  import opened Digest

  datatype Command = StartCommand | StopCommand | SwapCommand

  /** `id` is the start time of the block being mined. */
  datatype Message =
    | Working
    | Hash(id: real, difficulty: nat, nonce: nat)
    | Stopped(id: real, difficulty: nat, nonce: nat)
    | Error

  /** The nonce meets the difficulty it is reported with. */
  predicate Honest(digest: nat -> seq<Byte>, m: Message) {
    m.Hash? || m.Stopped? ==> ValidDigest(digest(m.nonce), m.difficulty)
  }

  // ----- what was tried and what is worth reporting -----

  /** The threshold after some nonces: above the best hit, or where it started. */
  function Threshold(digest: nat -> seq<Byte>, tried: seq<nat>, least: nat): nat {
    if tried == [] then least
    else
      var n := |tried| - 1;
      var t, zeroes := Threshold(digest, tried[..n], least), LeadingZeroes(digest(tried[n]));
      if zeroes >= t then zeroes + 1 else t
  }

  /** One report for every nonce that meets the threshold of its time. */
  function Records(digest: nat -> seq<Byte>, id: real, tried: seq<nat>, least: nat): seq<Message> {
    if tried == [] then []
    else
      var n := |tried| - 1;
      var t := Threshold(digest, tried[..n], least);
      Records(digest, id, tried[..n], least) + if LeadingZeroes(digest(tried[n])) >= t then [Hash(id, t, tried[n])]
      else []
  }

  function HashesOf(out: seq<Message>): seq<Message> {
    if out == [] then []
    else
      var n := |out| - 1;
      HashesOf(out[..n]) + if out[n].Hash? then [out[n]] else []
  }

  /** A hit is followed by a fresh nonce, any other nonce by the next one. */
  function Nonce(digest: nat -> seq<Byte>, random: nat -> nat, tried: seq<nat>, least: nat): nat {
    if tried == [] then random(0)
    else
      var n := |tried| - 1;
      if LeadingZeroes(digest(tried[n])) >= Threshold(digest, tried[..n], least) then random(n + 1) else tried[n] + 1
  }

  /** The nonces of the first `n` rounds. */
  function Tried(digest: nat -> seq<Byte>, random: nat -> nat, least: nat, n: nat): (tried: seq<nat>)
    ensures |tried| == n
  {
    if n == 0 then []
    else
      var before := Tried(digest, random, least, n - 1);
      before + [Nonce(digest, random, before, least)]
  }

  predicate Goes(command: Option<Command>) {
    command.Some? ==> command.value.SwapCommand?
  }

  /** How many rounds there are when the first `k` commands do not end the work: up to the first
      one that does. */
  function Rounds(commands: seq<Option<Command>>, k: nat): (n: nat)
    requires k <= |commands|
    ensures k <= n <= |commands|
    decreases |commands| - k
  {
    if k == |commands| then k else if Goes(commands[k]) then Rounds(commands, k + 1) else k + 1
  }

  /** No command before the last round ends the work; if there are more commands than rounds, the
      last round's does. */
  lemma {:induction false} RoundsMeaning(commands: seq<Option<Command>>, k: nat, i: nat)
    requires k <= |commands|
    ensures var n := Rounds(commands, k);
            (k <= i < n - 1 ==> Goes(commands[i])) && (n < |commands| ==> k < n && !Goes(commands[n - 1]))
    decreases |commands| - k
  {
    if k < |commands| && Goes(commands[k]) {
      RoundsMeaning(commands, k + 1, i);
    }
  }

  /** `nonce` did best of all that were tried. */
  predicate Best(digest: nat -> seq<Byte>, tried: seq<nat>, nonce: nat, zeroes: nat) {
    nonce in tried && LeadingZeroes(digest(nonce)) == zeroes && forall t <- tried :: LeadingZeroes(digest(t)) <= zeroes
  }

  /** How a start ends: a stop is answered with the best of all nonces tried. */
  predicate Ends(digest: nat -> seq<Byte>, id: real, commands: seq<Option<Command>>, tried: seq<nat>,
                 out: seq<Message>) {
    |tried| <= |commands| && out != [] && out[0] == Working &&
    if tried == [] || Goes(commands[|tried| - 1]) then NotEnded(out)
    else NotEnded(out[..|out| - 1]) && Answers(digest, id, commands[|tried| - 1].value, tried, out[|out| - 1])
  }

  predicate Answers(digest: nat -> seq<Byte>, id: real, command: Command, tried: seq<nat>, answer: Message) {
    match command
    case StopCommand => answer.Stopped? && answer.id == id && Best(digest, tried, answer.nonce, answer.difficulty)
    case StartCommand => answer == Error
    case SwapCommand => answer == Working
  }

  /** All that is sent by a start. */
  predicate Sends(digest: nat -> seq<Byte>, id: real, least: nat, commands: seq<Option<Command>>, tried: seq<nat>,
                  out: seq<Message>) {
    HashesOf(out) == Records(digest, id, tried, least) && Ends(digest, id, commands, tried, out)
  }

  predicate NotEnded(out: seq<Message>) {
    forall m <- out :: !m.Stopped? && !m.Error?
  }

  // ----- what the reports promise -----

  lemma {:induction false} BelowThreshold(digest: nat -> seq<Byte>, id: real, tried: seq<nat>, least: nat)
    ensures least <= Threshold(digest, tried, least)
    ensures forall m <- Records(digest, id, tried, least) ::
              m.Hash? && m.id == id && Honest(digest, m) && least <= m.difficulty &&
              LeadingZeroes(digest(m.nonce)) < Threshold(digest, tried, least)
    decreases |tried|
  {
    if tried != [] {
      BelowThreshold(digest, id, tried[..|tried| - 1], least);
    }
  }

  /** Every report has a nonce that meets its difficulty, and each is above all that was reached before. */
  lemma {:induction false} RecordsRise(digest: nat -> seq<Byte>, id: real, tried: seq<nat>, least: nat, i: nat, j: nat)
    requires i < j < |Records(digest, id, tried, least)|
    ensures var r := Records(digest, id, tried, least);
            r[i].Hash? && r[j].Hash? && r[i].difficulty <= LeadingZeroes(digest(r[i].nonce)) < r[j].difficulty
    decreases |tried|
  {
    var n := |tried| - 1;
    var before := Records(digest, id, tried[..n], least);
    BelowThreshold(digest, id, tried[..n], least);
    BelowThreshold(digest, id, tried, least);
    var r := Records(digest, id, tried, least);
    if j < |before| {
      RecordsRise(digest, id, tried[..n], least, i, j);
    } else {
      assert r[i] == before[i] && r[i] in before;
    }
  }

  /** A nonce that no threshold of its time exceeded is reported. */
  lemma {:induction false} HitsAreReported(digest: nat -> seq<Byte>, id: real, tried: seq<nat>, least: nat, k: nat)
    requires k < |tried|
    ensures LeadingZeroes(digest(tried[k])) >= Threshold(digest, tried[..k], least) <==>
            Hash(id, Threshold(digest, tried[..k], least), tried[k]) in Records(digest, id, tried, least)
    decreases |tried|
  {
    var n := |tried| - 1;
    BelowThreshold(digest, id, tried, least);
    if k < n && LeadingZeroes(digest(tried[k])) >= Threshold(digest, tried[..k], least) {
      assert tried[..n][..k] == tried[..k];
      HitsAreReported(digest, id, tried[..n], least, k);
    }
  }

  /** The digest of nonce `k` has at least the zeroes asked for and more than any tried before it. */
  predicate IsRecord(digest: nat -> seq<Byte>, tried: seq<nat>, least: nat, k: nat)
    requires k < |tried|
  {
    LeadingZeroes(digest(tried[k])) >= least &&
    forall j | 0 <= j < k :: LeadingZeroes(digest(tried[j])) < LeadingZeroes(digest(tried[k]))
  }

  /** The threshold is the least one asked for, or one above the best digest so far. */
  lemma {:induction false} ThresholdExactly(digest: nat -> seq<Byte>, tried: seq<nat>, least: nat)
    ensures var t := Threshold(digest, tried, least);
            t >= least && (forall j | 0 <= j < |tried| :: LeadingZeroes(digest(tried[j])) < t) &&
            (t == least || exists j :: 0 <= j < |tried| && LeadingZeroes(digest(tried[j])) + 1 == t)
    decreases |tried|
  {
    if tried != [] {
      var n := |tried| - 1;
      ThresholdExactly(digest, tried[..n], least);
      var t := Threshold(digest, tried[..n], least);
      if t != least && Threshold(digest, tried, least) == t {
        var j :| 0 <= j < n && LeadingZeroes(digest(tried[..n][j])) + 1 == t;
        assert tried[..n][j] == tried[j];
      }
    }
  }

  /** A nonce is reported exactly when it is a record, with the difficulty that makes it one: that asked
      for, or one above the best digest before it. */
  lemma ReportedExactly(digest: nat -> seq<Byte>, id: real, tried: seq<nat>, least: nat, k: nat)
    requires k < |tried|
    ensures var t := Threshold(digest, tried[..k], least);
            (IsRecord(digest, tried, least, k) <==> Hash(id, t, tried[k]) in Records(digest, id, tried, least)) &&
            (t == least || exists j :: 0 <= j < k && LeadingZeroes(digest(tried[j])) + 1 == t) &&
            forall j | 0 <= j < k :: LeadingZeroes(digest(tried[j])) < t
  {
    var t := Threshold(digest, tried[..k], least);
    HitsAreReported(digest, id, tried, least, k);
    ThresholdExactly(digest, tried[..k], least);
    assert forall j | 0 <= j < k :: tried[..k][j] == tried[j];
    if t != least {
      var j :| 0 <= j < k && LeadingZeroes(digest(tried[..k][j])) + 1 == t;
      assert LeadingZeroes(digest(tried[j])) + 1 == t;
    }
  }

  /** After a record a fresh nonce is drawn, otherwise the nonce is counted up. */
  lemma NoncesExactly(digest: nat -> seq<Byte>, random: nat -> nat, least: nat, n: nat)
    ensures var tried := Tried(digest, random, least, n + 1);
            tried[..n] == Tried(digest, random, least, n) &&
            tried[n] == if n == 0 then random(0)
                        else if IsRecord(digest, tried, least, n - 1) then random(n) else tried[n - 1] + 1
  {
    var tried := Tried(digest, random, least, n + 1);
    if n > 0 {
      var before := Tried(digest, random, least, n);
      assert tried[..n] == before && tried[n - 1] == before[n - 1] && before[..n - 1] == tried[..n - 1];
      ReportedExactly(digest, 0.0, tried, least, n - 1);
      HitsAreReported(digest, 0.0, tried, least, n - 1);
    }
  }

  // ----- the loop -----

  /** What has been tried so far. */
  predicate Counts(digest: nat -> seq<Byte>, random: nat -> nat, tried: seq<nat>, least: nat) {
    tried == [] ||
    var n := |tried| - 1;
    Counts(digest, random, tried[..n], least) && tried[n] == Nonce(digest, random, tried[..n], least)
  }

  lemma {:induction false} CountsTried(digest: nat -> seq<Byte>, random: nat -> nat, tried: seq<nat>, least: nat)
    requires Counts(digest, random, tried, least)
    ensures tried == Tried(digest, random, least, |tried|)
    decreases |tried|
  {
    if tried != [] {
      CountsTried(digest, random, tried[..|tried| - 1], least);
    }
  }

  lemma OneMoreTried(digest: nat -> seq<Byte>, tried: seq<nat>, nonce: nat)
    ensures (tried + [nonce])[..|tried|] == tried
  {
  }

  lemma NextNonce(digest: nat -> seq<Byte>, random: nat -> nat, tried: seq<nat>, least: nat, nonce: nat)
    ensures Nonce(digest, random, tried + [nonce], least) ==
            if LeadingZeroes(digest(nonce)) >= Threshold(digest, tried, least) then random(|tried| + 1) else nonce + 1
  {
    OneMoreTried(digest, tried, nonce);
  }

  lemma HashesAppend(out: seq<Message>, m: Message)
    ensures HashesOf(out + [m]) == HashesOf(out) + if m.Hash? then [m] else []
  {
    assert (out + [m])[..|out|] == out;
  }

  lemma CountsAppend(digest: nat -> seq<Byte>, random: nat -> nat, tried: seq<nat>, least: nat, nonce: nat)
    requires Counts(digest, random, tried, least) && nonce == Nonce(digest, random, tried, least)
    ensures Counts(digest, random, tried + [nonce], least)
  {
    OneMoreTried(digest, tried, nonce);
  }

  /** What holds between rounds of a start. */
  ghost predicate Going(digest: nat -> seq<Byte>, id: real, least: nat, tried: seq<nat>, out: seq<Message>,
                        threshold: nat,
                        best: nat, bestNonce: Option<nat>)
  {
    threshold == Threshold(digest, tried, least) && HashesOf(out) == Records(digest, id, tried, least) &&
    out != [] && out[0] == Working && NotEnded(out) &&
    if tried == [] then bestNonce.None? && best == 0 else bestNonce.Some? && Best(digest, tried, bestNonce.value, best)
  }

  /** Hashes one nonce and reports it if it meets the threshold. */
  method Try(digest: nat -> seq<Byte>, id: real, ghost least: nat, ghost tried: seq<nat>, before: seq<Message>,
             threshold: nat,
             best: nat, bestNonce: Option<nat>, nonce: nat)
    returns (hit: bool, out: seq<Message>, threshold': nat, best': nat, bestNonce': Option<nat>)
    requires Going(digest, id, least, tried, before, threshold, best, bestNonce)
    ensures Going(digest, id, least, tried + [nonce], out, threshold', best', bestNonce')
    ensures hit == (LeadingZeroes(digest(nonce)) >= threshold)
  {
    out, threshold', best', bestNonce' := before, threshold, best, bestNonce;
    var zeroes := CountLeadingZeroes(digest(nonce));
    OneMoreTried(digest, tried, nonce);
    hit := zeroes >= threshold;
    if hit {
      HashesAppend(out, Hash(id, threshold, nonce));
      out := out + [Hash(id, threshold, nonce)];
      threshold' := zeroes + 1;
    }
    if zeroes >= best {
      best', bestNonce' := zeroes, Some(nonce);
    }
  }

  /** Answers the command that has arrived. */
  method Answer(digest: nat -> seq<Byte>, id: real, ghost least: nat, ghost commands: seq<Option<Command>>,
                ghost tried: seq<nat>,
                command: Command, before: seq<Message>, threshold: nat, best: nat, bestNonce: nat)
                returns (out: seq<Message>)
    requires Going(digest, id, least, tried, before, threshold, best, Some(bestNonce))
    requires tried != [] && |tried| <= |commands| && commands[|tried| - 1] == Some(command)
    ensures Sends(digest, id, least, commands, tried, out)
    ensures command.SwapCommand? ==> Going(digest, id, least, tried, out, threshold, best, Some(bestNonce))
  {
    var answer := match command
      case SwapCommand => Working
      case StopCommand => Stopped(id, best, bestNonce)
      case StartCommand => Error;
    HashesAppend(before, answer);
    out := before + [answer];
    assert out[..|out| - 1] == before;
  }

  lemma LastRound(digest: nat -> seq<Byte>, random: nat -> nat, least: nat, id: real, commands: seq<Option<Command>>,
                  tried: seq<nat>, out: seq<Message>)
    requires Counts(digest, random, tried, least) && Sends(digest, id, least, commands, tried, out)
    requires |tried| == Rounds(commands, 0)
    ensures Sends(digest, id, least, commands, Tried(digest, random, least, Rounds(commands, 0)), out)
  {
    CountsTried(digest, random, tried, least);
  }

  /** One start: the messages sent until a command ends it or `commands` runs out. `digest` is the
      hash of the block, the key and the nonce; `random` gives fresh nonces; `commands[k]` is what
      has arrived by the end of round `k`. The hashes sent are those of the nonces tried that met
      their threshold, and a stop is answered with the best nonce of all. */
  method Work(digest: nat -> seq<Byte>, id: real, difficulty: nat, random: nat -> nat, commands: seq<Option<Command>>)
    returns (out: seq<Message>)
    ensures Sends(digest, id, difficulty, commands, Tried(digest, random, difficulty, Rounds(commands, 0)), out)
  {
    var threshold, nonce := difficulty, random(0);
    var best, bestNonce := 0, None;
    ghost var tried: seq<nat> := [];
    out := [Working];
    HashesAppend([], Working);
    var round := 0;
    while round < |commands|
      invariant 0 <= round <= |commands| && |tried| == round && (round == 0 || Goes(commands[round - 1]))
      invariant Rounds(commands, round) == Rounds(commands, 0)
      invariant Counts(digest, random, tried, difficulty) && nonce == Nonce(digest, random, tried, difficulty)
      invariant Going(digest, id, difficulty, tried, out, threshold, best, bestNonce)
    {
      var hit;
      CountsAppend(digest, random, tried, difficulty, nonce);
      NextNonce(digest, random, tried, difficulty, nonce);
      ghost var more := tried + [nonce];
      hit, out, threshold, best,
          bestNonce := Try(digest, id, difficulty, tried, out, threshold, best, bestNonce, nonce);
      tried := more;
      nonce := if hit then random(round + 1) else nonce + 1;
      if commands[round].Some? {
        var command := commands[round].value;
        out := Answer(digest, id, difficulty, commands, tried, command, out, threshold, best, bestNonce.value);
        if !command.SwapCommand? {
          LastRound(digest, random, difficulty, id, commands, tried, out);
          return;
        }
      }
      round := round + 1;
    }
    LastRound(digest, random, difficulty, id, commands, tried, out);
  }
}
