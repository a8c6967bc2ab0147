/**
 * The incremental tally of a sequence, and what it means: the counters kept from round to round
 * are compared with the plain history of round outcomes.
 */
module RoundTally {
  import opened SnowballTypes

  datatype Outcome = NoMajority | Majority(color: BinaryColor)

  /** What a node keeps about the rounds of its current sequence. */
  datatype Standing = Standing(votes: Tally, last: BinaryColor, confidence: nat, pref: BinaryColor)

  const FRESH: Standing := Standing(Tally(0, 0), OK, 0, OK)

  /** One finished round, folded into the standing. */
  function Absorb(t: Standing, o: Outcome): Standing {
    match o
    case NoMajority => t.(confidence := 0)
    case Majority(c) =>
      var votes := t.votes.Bump(IndexOf(c));
      Standing(votes, c, if c != t.last then 1 else t.confidence + 1,
               if votes.Of(c) > votes.Of(t.pref) then c else t.pref)
  }

  function Replay(rounds: seq<Outcome>): Standing {
    if rounds == [] then FRESH
    else Absorb(Replay(rounds[..|rounds| - 1]), rounds[|rounds| - 1])
  }

  // ---------- The votes behind an outcome ----------

  /** How many of these votes are for this colour: 0 votes KO, 1 votes OK. */
  function VotesFor(votes: seq<u8>, c: BinaryColor): (n: nat)
    ensures n <= |votes|
  {
    if votes == [] then 0
    else VotesFor(votes[..|votes| - 1], c) + (if votes[|votes| - 1] == (if c == OK then 1 else 0) then 1 else 0)
  }

  lemma VotesForMore(votes: seq<u8>, v: u8, c: BinaryColor)
    ensures VotesFor(votes + [v], c) == VotesFor(votes, c) + (if v == (if c == OK then 1 else 0) then 1 else 0)
  {
    assert (votes + [v])[..|votes|] == votes;
  }

  /** A colour is the outcome of k votes exactly if at least alfa of them are for it. */
  ghost predicate Ballot(o: Outcome, votes: seq<u8>, alfa: nat, k: nat) {
    && |votes| == k && (forall v :: v in votes ==> v <= 1)
    && (forall c: BinaryColor :: o == Majority(c) <==> VotesFor(votes, c) >= alfa)
    && (o == NoMajority <==> VotesFor(votes, OK) < alfa && VotesFor(votes, KO) < alfa)
  }

  /** Every round of the history has its votes. */
  ghost predicate Balloted(rounds: seq<Outcome>, ballots: seq<seq<u8>>, alfa: nat, k: nat) {
    |ballots| == |rounds| && forall i :: 0 <= i < |rounds| ==> Ballot(rounds[i], ballots[i], alfa, k)
  }

  // ---------- The history, read without the counters ----------

  function Count(rounds: seq<Outcome>, c: BinaryColor): nat {
    if rounds == [] then 0
    else Count(rounds[..|rounds| - 1], c) + (if rounds[|rounds| - 1] == Majority(c) then 1 else 0)
  }

  /** Rounds that had a majority. */
  function Majorities(rounds: seq<Outcome>): nat {
    Count(rounds, OK) + Count(rounds, KO)
  }

  /** The last n rounds, and no more, all had majority c. */
  predicate TrailingRun(rounds: seq<Outcome>, c: BinaryColor, n: nat) {
    && n <= |rounds|
    && (forall i :: |rounds| - n <= i < |rounds| ==> rounds[i] == Majority(c))
    && (n < |rounds| ==> rounds[|rounds| - n - 1] != Majority(c))
  }

  /** c is the colour of the last round that had a majority; OK when there was none. */
  ghost predicate LastColor(rounds: seq<Outcome>, c: BinaryColor) {
    || (c == OK && forall i :: 0 <= i < |rounds| ==> rounds[i] == NoMajority)
    || exists i :: LastMajorityAt(rounds, i, c)
  }

  predicate LastMajorityAt(rounds: seq<Outcome>, i: int, c: BinaryColor) {
    && 0 <= i < |rounds| && rounds[i] == Majority(c)
    && forall j :: i < j < |rounds| ==> rounds[j] == NoMajority
  }

  /** The last `beta` outcomes are the majority of one colour. */
  ghost predicate Decides(rounds: seq<Outcome>, beta: nat) {
    beta <= |rounds| && exists c: BinaryColor :: SuffixOf(rounds, beta, c)
  }

  predicate SuffixOf(rounds: seq<Outcome>, n: nat, c: BinaryColor)
    requires n <= |rounds|
  {
    forall i :: |rounds| - n <= i < |rounds| ==> rounds[i] == Majority(c)
  }

  /** No round so far completed a decision. */
  ghost predicate Open(rounds: seq<Outcome>, beta: nat) {
    forall n :: 0 <= n <= |rounds| ==> !Decides(rounds[..n], beta)
  }

  /** The last round completed a decision, and no earlier one did. */
  ghost predicate FirstDecision(rounds: seq<Outcome>, beta: nat) {
    Decides(rounds, beta) && forall n :: 0 <= n < |rounds| ==> !Decides(rounds[..n], beta)
  }

  /** The preference as a function of the two tallies and the last majority colour. */
  function Preferred(ko: nat, ok: nat, last: BinaryColor): BinaryColor {
    if ok > ko then OK else if ko > ok then KO else if ok == 0 then OK else Opposite(last)
  }

  // ---------- The counters refine the history ----------

  lemma {:induction false} ReplayCounts(rounds: seq<Outcome>)
    ensures Replay(rounds).votes == Tally(Count(rounds, KO), Count(rounds, OK))
  {
    if rounds != [] {
      ReplayCounts(rounds[..|rounds| - 1]);
    }
  }

  lemma {:induction false} ReplayPreference(rounds: seq<Outcome>)
    ensures var t := Replay(rounds); t.pref == Preferred(t.votes.ko, t.votes.ok, t.last)
  {
    if rounds != [] {
      ReplayPreference(rounds[..|rounds| - 1]);
    }
  }

  lemma {:induction false} ReplayLast(rounds: seq<Outcome>)
    ensures LastColor(rounds, Replay(rounds).last)
  {
    if rounds != [] {
      var n := |rounds| - 1;
      var prefix, last := rounds[..n], Replay(rounds).last;
      ReplayLast(prefix);
      if rounds[n] == NoMajority {
        if i :| LastMajorityAt(prefix, i, last) {
          assert LastMajorityAt(rounds, i, last);
        }
      } else {
        assert LastMajorityAt(rounds, n, last);
      }
    }
  }

  lemma {:induction false} ReplayRun(rounds: seq<Outcome>)
    ensures TrailingRun(rounds, Replay(rounds).last, Replay(rounds).confidence)
  {
    if rounds != [] {
      var n := |rounds| - 1;
      ReplayRun(rounds[..n]);
      ReplayLast(rounds[..n]);
      if rounds[n].Majority? {
        RunContinues(rounds, Replay(rounds[..n]).last, Replay(rounds[..n]).confidence, rounds[n].color);
      }
    }
  }

  /** The four counters, read off the history of rounds. */
  lemma ReplayRefines(rounds: seq<Outcome>)
    ensures var t := Replay(rounds);
            && t.votes == Tally(Count(rounds, KO), Count(rounds, OK))
            && LastColor(rounds, t.last)
            && TrailingRun(rounds, t.last, t.confidence)
            && t.pref == Preferred(Count(rounds, KO), Count(rounds, OK), t.last)
  {
    ReplayCounts(rounds);
    ReplayLast(rounds);
    ReplayRun(rounds);
    ReplayPreference(rounds);
  }

  lemma RunContinues(rounds: seq<Outcome>, last: BinaryColor, run: nat, c: BinaryColor)
    requires rounds != [] && rounds[|rounds| - 1] == Majority(c)
    requires LastColor(rounds[..|rounds| - 1], last)
    requires TrailingRun(rounds[..|rounds| - 1], last, run)
    ensures TrailingRun(rounds, c, if c != last then 1 else run + 1)
  {
    var n := |rounds| - 1;
    var prefix := rounds[..n];
    if c == last {
      if run < n {
        assert prefix[n - run - 1] != Majority(c);
      }
    } else if n > 0 {
      // A previous round with majority c would contradict `last`.
      assert rounds[n - 1] == prefix[n - 1];
    }
  }

  /** The streak counter reaches beta exactly when the history decides. */
  lemma StreakDecides(rounds: seq<Outcome>, beta: nat)
    requires beta >= 1
    ensures Replay(rounds).confidence >= beta <==> Decides(rounds, beta)
  {
    ReplayRefines(rounds);
    var t := Replay(rounds);
    if t.confidence >= beta {
      assert SuffixOf(rounds, beta, t.last);
    }
    if Decides(rounds, beta) {
      var c: BinaryColor :| SuffixOf(rounds, beta, c);
      assert rounds[|rounds| - 1] == Majority(c);
      assert t.last == c;
      assert t.confidence < |rounds| ==> rounds[|rounds| - t.confidence - 1] != Majority(c);
    }
  }

  /** Appending one round keeps an open history open, or makes its first decision. */
  lemma OpenStep(rounds: seq<Outcome>, o: Outcome, beta: nat)
    requires beta >= 1 && Open(rounds, beta)
    ensures var next := rounds + [o];
            && Replay(next) == Absorb(Replay(rounds), o)
            && (Replay(next).confidence >= beta ==> FirstDecision(next, beta) && Replay(next).confidence == beta)
            && (Replay(next).confidence < beta ==> Open(next, beta))
  {
    var next := rounds + [o];
    assert next[..|next| - 1] == rounds;
    assert Replay(rounds).confidence < beta by {
      assert rounds[..|rounds|] == rounds;
      StreakDecides(rounds, beta);
    }
    StreakDecides(next, beta);
    OpenPrefixes(rounds, next, beta);
    if Replay(next).confidence < beta {
      forall n | 0 <= n <= |next|
        ensures !Decides(next[..n], beta)
      {
        assert n > |rounds| ==> next[..n] == next;
      }
    }
  }

  lemma OpenPrefixes(rounds: seq<Outcome>, next: seq<Outcome>, beta: nat)
    requires Open(rounds, beta) && rounds <= next
    ensures forall n :: 0 <= n <= |rounds| ==> !Decides(next[..n], beta)
  {
    forall n | 0 <= n <= |rounds|
      ensures !Decides(next[..n], beta)
    {
      assert next[..n] == rounds[..n];
    }
  }

  lemma FirstDecisionIsOpenBefore(rounds: seq<Outcome>, beta: nat)
    requires beta >= 1 && FirstDecision(rounds, beta)
    ensures rounds != []
    ensures Open(rounds[..|rounds| - 1], beta)
    ensures Replay(rounds).confidence == beta
  {
    var c: BinaryColor :| SuffixOf(rounds, beta, c);
    var n := |rounds| - 1;
    forall m | 0 <= m <= n
      ensures !Decides(rounds[..n][..m], beta)
    {
      assert rounds[..n][..m] == rounds[..m];
    }
    assert rounds == rounds[..n] + [rounds[n]];
    OpenStep(rounds[..n], rounds[n], beta);
    StreakDecides(rounds, beta);
  }

  lemma {:induction false} CountCoversRun(rounds: seq<Outcome>, c: BinaryColor, n: nat)
    requires n <= |rounds| && SuffixOf(rounds, n, c)
    ensures Count(rounds, c) >= n
  {
    if n > 0 {
      CountCoversRun(rounds[..|rounds| - 1], c, n - 1);
    }
  }

  /**
   * The colour a sequence is decided with, against the colour of its final streak: they agree
   * exactly when that colour is strictly ahead, and to disagree takes two full streaks' worth
   * of rounds (so it cannot happen when beta is 1).
   */
  lemma DecidedColour(rounds: seq<Outcome>, beta: nat)
    requires beta >= 1 && FirstDecision(rounds, beta)
    ensures var t := Replay(rounds);
            && SuffixOf(rounds, beta, t.last)
            && Count(rounds, t.pref) >= Count(rounds, Opposite(t.pref))
            && (t.pref == t.last <==> Count(rounds, t.last) > Count(rounds, Opposite(t.last)))
            && (t.pref != t.last ==> beta >= 2 && Majorities(rounds) >= 2 * beta)
  {
    FirstDecisionIsOpenBefore(rounds, beta);
    ReplayRefines(rounds);
    var t := Replay(rounds);
    CountCoversRun(rounds, t.last, beta);
    if beta == 1 {
      OpenAtOneIsSilent(rounds[..|rounds| - 1]);
    }
  }

  lemma {:induction false} OpenAtOneIsSilent(rounds: seq<Outcome>)
    requires Open(rounds, 1)
    ensures Count(rounds, OK) == Count(rounds, KO) == 0
  {
    if rounds != [] {
      var n := |rounds| - 1;
      assert rounds[..n + 1] == rounds;
      assert rounds[n].Majority? ==> SuffixOf(rounds, 1, rounds[n].color);
      forall m | 0 <= m <= n
        ensures !Decides(rounds[..n][..m], 1)
      {
        assert rounds[..n][..m] == rounds[..m];
      }
      OpenAtOneIsSilent(rounds[..n]);
    }
  }

  function Repeat(c: BinaryColor, n: nat): seq<Outcome> {
    seq(n, _ => Majority(c))
  }

  lemma CountOneMore(rounds: seq<Outcome>, o: Outcome, c: BinaryColor)
    ensures Count(rounds + [o], c) == Count(rounds, c) + (if o == Majority(c) then 1 else 0)
  {
    assert (rounds + [o])[..|rounds|] == rounds;
  }

  lemma {:induction false} CountRepeat(rounds: seq<Outcome>, c: BinaryColor, n: nat)
    ensures Count(rounds + Repeat(c, n), c) == Count(rounds, c) + n
    ensures Count(rounds + Repeat(c, n), Opposite(c)) == Count(rounds, Opposite(c))
  {
    if n == 0 {
      assert rounds + Repeat(c, n) == rounds;
    } else {
      var before := rounds + Repeat(c, n - 1);
      assert rounds + Repeat(c, n) == before + [Majority(c)];
      hide Count, Repeat;
      CountRepeat(rounds, c, n - 1);
      CountOneMore(before, Majority(c), c);
      CountOneMore(before, Majority(c), Opposite(c));
    }
  }

  /** For beta at least 2 the bound of DecidedColour is reached: 2*beta majority rounds suffice. */
  lemma AgainstTheStreak(beta: nat, c: BinaryColor) returns (rounds: seq<Outcome>)
    requires beta >= 2
    ensures FirstDecision(rounds, beta)
    ensures Replay(rounds).last == c && Replay(rounds).pref == Opposite(c)
    ensures Majorities(rounds) == 2 * beta
  {
    var o := Opposite(c);
    var start := Repeat(o, beta - 1) + [NoMajority] + [Majority(o)];
    rounds := start + Repeat(c, beta);
    CountStart(beta, c);
    hide Count, Decides, FirstDecision, Replay;
    forall n | 0 <= n < |rounds|
      ensures !Decides(rounds[..n], beta)
    {
      WitnessPrefix(beta, c, rounds, n);
    }
    StreakAfterTie(start, beta, c);
  }

  lemma CountStart(beta: nat, c: BinaryColor)
    requires beta >= 1
    ensures var start := Repeat(Opposite(c), beta - 1) + [NoMajority] + [Majority(Opposite(c))];
            Count(start, Opposite(c)) == beta && Count(start, c) == 0
  {
    var o := Opposite(c);
    var mid := Repeat(o, beta - 1) + [NoMajority];
    CountRepeat([], o, beta - 1);
    assert [] + Repeat(o, beta - 1) == Repeat(o, beta - 1);
    assert mid[..|mid| - 1] == Repeat(o, beta - 1);
    assert (mid + [Majority(o)])[..|mid|] == mid;
  }

  /** A streak that draws level decides, and leaves the preference with the other colour. */
  lemma StreakAfterTie(start: seq<Outcome>, beta: nat, c: BinaryColor)
    requires beta >= 1 && Count(start, Opposite(c)) == Count(start, c) + beta
    requires forall n :: 0 <= n < |start + Repeat(c, beta)| ==> !Decides((start + Repeat(c, beta))[..n], beta)
    ensures var rounds := start + Repeat(c, beta);
            && FirstDecision(rounds, beta) && Replay(rounds).last == c && Replay(rounds).pref == Opposite(c)
            && Majorities(rounds) == 2 * Count(start, Opposite(c))
  {
    var rounds := start + Repeat(c, beta);
    assert SuffixOf(rounds, beta, c);
    CountRepeat(start, c, beta);
    DecidedColour(rounds, beta);
    assert rounds[|rounds| - 1] == Majority(c);
  }

  lemma WitnessPrefix(beta: nat, c: BinaryColor, rounds: seq<Outcome>, n: nat)
    requires beta >= 2 && n < |rounds|
    requires rounds == Repeat(Opposite(c), beta - 1) + [NoMajority] + [Majority(Opposite(c))] + Repeat(c, beta)
    ensures !Decides(rounds[..n], beta)
  {
    var prefix := rounds[..n];
    forall d: BinaryColor | beta <= n
      ensures !SuffixOf(prefix, beta, d)
    {
      if n <= beta + 1 {
        assert prefix[beta - 1] == NoMajority;
      } else {
        assert prefix[beta] == Majority(Opposite(c));
        assert prefix[n - 1] == Majority(c);
      }
    }
  }

  // ---------- When every round has a majority ----------

  predicate AllMajorities(rounds: seq<Outcome>) {
    forall o :: o in rounds ==> o.Majority?
  }

  /** The rounds before a final run of n rounds of colour c. */
  lemma SplitRun(rounds: seq<Outcome>, c: BinaryColor, n: nat)
    requires n <= |rounds| && SuffixOf(rounds, n, c)
    ensures var before := rounds[..|rounds| - n];
            && Count(rounds, c) == Count(before, c) + n
            && Count(rounds, Opposite(c)) == Count(before, Opposite(c))
  {
    var before := rounds[..|rounds| - n];
    assert rounds == before + Repeat(c, n);
    CountRepeat(before, c, n);
  }

  lemma {:induction false} CountNone(rounds: seq<Outcome>, c: BinaryColor)
    requires AllMajorities(rounds) && Count(rounds, c) == 0
    ensures forall i :: 0 <= i < |rounds| ==> rounds[i] == Majority(Opposite(c))
    ensures Count(rounds, Opposite(c)) == |rounds|
  {
    if rounds != [] {
      var n := |rounds| - 1;
      assert rounds[n] in rounds;
      CountNone(rounds[..n], c);
    }
  }

  /** With beta 2, undecided rounds alternate between the colours. */
  lemma {:induction false} Alternates(rounds: seq<Outcome>)
    requires AllMajorities(rounds) && Open(rounds, 2) && rounds != []
    ensures var c := rounds[|rounds| - 1].color; 0 <= Count(rounds, c) - Count(rounds, Opposite(c)) <= 1
  {
    var n := |rounds| - 1;
    assert rounds[n] in rounds;
    var c := rounds[n].color;
    if n > 0 {
      assert rounds[..n + 1] == rounds;
      assert rounds[n - 1] != Majority(c) by {
        if rounds[n - 1] == Majority(c) {
          assert SuffixOf(rounds, 2, c);
        }
      }
      forall m | 0 <= m <= n
        ensures !Decides(rounds[..n][..m], 2)
      {
        assert rounds[..n][..m] == rounds[..m];
      }
      assert rounds[n - 1] in rounds;
      Alternates(rounds[..n]);
    }
  }

  lemma StaysClose(rounds: seq<Outcome>)
    requires AllMajorities(rounds) && Open(rounds, 2)
    ensures -1 <= Count(rounds, OK) - Count(rounds, KO) <= 1
  {
    if rounds != [] {
      assert rounds[|rounds| - 1] in rounds;
      Alternates(rounds);
    }
  }

  /** Where every round has a majority, a decision against its streak takes a longer streak and more rounds. */
  lemma AgainstNeedsMore(rounds: seq<Outcome>, beta: nat)
    requires beta >= 1 && FirstDecision(rounds, beta) && AllMajorities(rounds)
    requires Replay(rounds).pref != Replay(rounds).last
    ensures beta >= 3 && Majorities(rounds) >= 2 * beta + 2
  {
    DecidedColour(rounds, beta);
    var c, n := Replay(rounds).last, |rounds| - beta;
    var before := rounds[..n];
    SplitRun(rounds, c, beta);
    assert AllMajorities(before) && Count(before, Opposite(c)) >= Count(before, c) + beta;
    if Count(before, c) == 0 {
      CountNone(before, c);
      assert SuffixOf(before, beta, Opposite(c));
      assert false;
    }
    assert Majorities(rounds) >= 2 * beta + 2;
    if beta == 2 {
      OpenBefore(rounds, beta, n);
      StaysClose(before);
      assert false;
    }
  }

  lemma OpenBefore(rounds: seq<Outcome>, beta: nat, n: nat)
    requires FirstDecision(rounds, beta) && n < |rounds|
    ensures Open(rounds[..n], beta)
  {
    forall m | 0 <= m <= n
      ensures !Decides(rounds[..n][..m], beta)
    {
      assert rounds[..n][..m] == rounds[..m];
    }
  }

  /** For beta at least 3 that bound is reached. */
  lemma AgainstByMajorities(beta: nat, c: BinaryColor) returns (rounds: seq<Outcome>)
    requires beta >= 3
    ensures FirstDecision(rounds, beta) && AllMajorities(rounds)
    ensures Replay(rounds).last == c && Replay(rounds).pref == Opposite(c)
    ensures Majorities(rounds) == 2 * beta + 2
  {
    var o := Opposite(c);
    var start := Repeat(o, beta - 1) + [Majority(c)] + Repeat(o, 2);
    rounds := start + Repeat(c, beta);
    CountLongStart(beta, c);
    hide Count, Decides, FirstDecision, Replay;
    forall n | 0 <= n < |rounds|
      ensures !Decides(rounds[..n], beta)
    {
      UndecidedPrefix(beta, c, rounds, n);
    }
    StreakAfterTie(start, beta, c);
  }

  lemma CountLongStart(beta: nat, c: BinaryColor)
    requires beta >= 1
    ensures var start := Repeat(Opposite(c), beta - 1) + [Majority(c)] + Repeat(Opposite(c), 2);
            Count(start, Opposite(c)) == beta + 1 && Count(start, c) == 1
  {
    var o := Opposite(c);
    var mid := Repeat(o, beta - 1) + [Majority(c)];
    CountRepeat([], o, beta - 1);
    assert [] + Repeat(o, beta - 1) == Repeat(o, beta - 1);
    assert mid[..|mid| - 1] == Repeat(o, beta - 1);
    CountRepeat(mid, o, 2);
  }

  lemma UndecidedPrefix(beta: nat, c: BinaryColor, rounds: seq<Outcome>, n: nat)
    requires beta >= 3 && n < |rounds|
    requires rounds == Repeat(Opposite(c), beta - 1) + [Majority(c)] + Repeat(Opposite(c), 2) + Repeat(c, beta)
    ensures !Decides(rounds[..n], beta)
  {
    var prefix := rounds[..n];
    forall d: BinaryColor | beta <= n
      ensures !SuffixOf(prefix, beta, d)
    {
      if n <= beta + 2 {
        var other := if n == beta then 0 else beta;
        assert prefix[beta - 1] == Majority(c) && prefix[other] == Majority(Opposite(c));
      } else {
        assert prefix[n - 1] == Majority(c) && prefix[beta + 1] == Majority(Opposite(c));
      }
    }
  }

  // ---------- How long a unanimous tail takes ----------

  /** Rounds of colour c still missing from a decision. */
  function Need(last: Color, confidence: nat, beta: nat, c: BinaryColor): int {
    beta - (if last == c then confidence else 0)
  }

  function NeedAfter(rounds: seq<Outcome>, beta: nat, c: BinaryColor): int {
    Need(Replay(rounds).last, Replay(rounds).confidence, beta, c)
  }

  /** A tail of rounds with majority c decides after exactly the needed number of them. */
  lemma UnanimousTail(rounds: seq<Outcome>, beta: nat, c: BinaryColor)
    requires beta >= 1 && Open(rounds, beta)
    ensures var need := NeedAfter(rounds, beta, c);
            1 <= need <= beta && FirstDecision(rounds + Repeat(c, need), beta)
  {
    StreakIsShort(rounds, beta);
    var need := NeedAfter(rounds, beta, c);
    var before := rounds + Repeat(c, need - 1);
    assert rounds + Repeat(c, need) == before + [Majority(c)];
    hide Open, Decides, FirstDecision, Replay;
    UnanimousOpen(rounds, beta, c, need - 1);
    OpenStep(before, Majority(c), beta);
  }

  lemma StreakIsShort(rounds: seq<Outcome>, beta: nat)
    requires beta >= 1 && Open(rounds, beta)
    ensures Replay(rounds).confidence < beta
  {
    assert rounds[..|rounds|] == rounds;
    StreakDecides(rounds, beta);
  }

  lemma {:induction false} UnanimousOpen(rounds: seq<Outcome>, beta: nat, c: BinaryColor, m: nat)
    requires beta >= 1 && Open(rounds, beta)
    requires m < NeedAfter(rounds, beta, c)
    ensures Open(rounds + Repeat(c, m), beta)
    ensures NeedAfter(rounds + Repeat(c, m), beta, c) == NeedAfter(rounds, beta, c) - m
  {
    if m == 0 {
      assert rounds + Repeat(c, m) == rounds;
    } else {
      var before := rounds + Repeat(c, m - 1);
      assert rounds + Repeat(c, m) == before + [Majority(c)];
      hide Open, Decides, FirstDecision, Replay;
      UnanimousOpen(rounds, beta, c, m - 1);
      OpenStep(before, Majority(c), beta);
    }
  }
}
