/** What the invariant says about a node, in the terms of its protocol. */
module NodeTheorems {
  import opened SnowballTypes
  import opened RoundTally
  import opened NodeSpec
  import opened NodeRuns

  // ---------- Tally, decision time, decided colour ----------

  /** The outcome of the round that vote e completes. */
  function OutcomeBy(s: Node, e: Event): Outcome
    requires e.Deliver?
  {
    OutcomeOf(CountVote(s, e.sender, e.vote).responseBuffer, s.params.alfa)
  }

  /** The counters of an opened sequence, read off its round history. */
  lemma CountersReadHistory(p: Proc)
    requires Inv(p) && (p.s.phase == Listening || p.h.decided != [])
    ensures p.s.decisionArray == Tally(Count(p.h.rounds, KO), Count(p.h.rounds, OK))
    ensures p.s.lastColor != Undecided && LastColor(p.h.rounds, p.s.lastColor)
    ensures TrailingRun(p.h.rounds, p.s.lastColor, p.s.confidence)
    ensures p.s.seqNum in p.s.decisionMap
    ensures p.s.decisionMap[p.s.seqNum] == Preferred(Count(p.h.rounds, KO), Count(p.h.rounds, OK), p.s.lastColor)
    ensures p.s.phase == Listening ==> p.s.confidence < p.s.params.beta
    ensures p.s.phase == Idle ==> p.s.confidence == p.s.params.beta
  {
    ReplayRefines(p.h.rounds);
    if p.s.phase == Listening {
      assert p.h.rounds[..|p.h.rounds|] == p.h.rounds;
      StreakDecides(p.h.rounds, p.s.params.beta);
    } else {
      FirstDecisionIsOpenBefore(p.h.rounds, p.s.params.beta);
    }
  }

  /**
   * A step decides if and only if it completes a round after which the last beta outcomes are the
   * majority of one colour. It then makes one call, pops the decided block and sends nothing;
   * a round that does not decide sends one wave and makes no call.
   */
  lemma DecidesExactly(p: Proc, e: Event)
    requires Inv(p) && Allowed(p.s, e)
    ensures var q := Advance(p, e);
            q.h.decided != p.h.decided
            <==> Closes(p.s, e) && Decides(p.h.rounds + [OutcomeBy(p.s, e)], p.s.params.beta)
    ensures var q := Advance(p, e);
            q.h.decided != p.h.decided ==>
              && q.s.phase == Idle && q.s.confidence == p.s.params.beta && q.s.sent == p.s.sent
              && p.s.queue != [] && q.s.queue == p.s.queue[1..] && p.s.queue[0].id == p.s.decisionBlock
              && Decidable(q.s)
              && q.s.calls == p.s.calls + [Verdict(q.s)] + (if p.s.order == 0 then [Initialize] else [])
    ensures var q := Advance(p, e);
            Closes(p.s, e) && q.h.decided == p.h.decided ==>
              && q.s.phase == Listening && FreshWave(p.s, e.wave)
              && q.s.sent == p.s.sent + Requests(p.s, e.wave) && q.s.calls == p.s.calls && q.s.queue == p.s.queue
  {
    if Closes(p.s, e) {
      RoundDecidesExactly(p, e);
    } else {
      DecidedUntouched(p, e);
    }
  }

  /**
   * What the last vote of a round records, read off the votes themselves: colour c's majority exactly
   * if at least alfa of the k votes are for c, no majority exactly if neither colour has as many.
   */
  lemma RoundIsRecorded(p: Proc, e: Event, c: BinaryColor)
    requires Inv(p) && Allowed(p.s, e) && e.Deliver? && e.kind == Response
    requires p.s.phase == Listening && e.sender in p.s.waiting && e.vote <= 1
    requires p.s.responseBuffer.ko + p.s.responseBuffer.ok + 1 == p.s.params.k
    ensures var votes, q := p.h.votes + [e.vote], Advance(p, e);
            && |votes| == p.s.params.k
            && VotesFor(votes, KO) == p.s.responseBuffer.ko + (if e.vote == 0 then 1 else 0)
            && VotesFor(votes, OK) == p.s.responseBuffer.ok + (if e.vote == 1 then 1 else 0)
            && |q.h.rounds| == |p.h.rounds| + 1 && p.h.rounds <= q.h.rounds
            && (q.h.rounds[|p.h.rounds|] == Majority(c) <==> VotesFor(votes, c) >= p.s.params.alfa)
            && (q.h.rounds[|p.h.rounds|] == NoMajority
                <==> VotesFor(votes, OK) < p.s.params.alfa && VotesFor(votes, KO) < p.s.params.alfa)
            && q.h.ballots == p.h.ballots + [votes]
  {
    assert p.s.params.Sound() && BallotInv(p);
    hide Inv, BallotInv, Allowed, Decides, Advance;
    ClosesDecidable(p);
    RoundDecidesExactly(p, e);
    VotesRecorded(p, e, c);
  }

  lemma VotesRecorded(p: Proc, e: Event, c: BinaryColor)
    requires BallotInv(p) && p.s.params.Sound() && Started(p.s) && Decidable(p.s) && Closes(p.s, e)
    ensures var votes := p.h.votes + [e.vote];
            && |votes| == p.s.params.k
            && VotesFor(votes, KO) == p.s.responseBuffer.ko + (if e.vote == 0 then 1 else 0)
            && VotesFor(votes, OK) == p.s.responseBuffer.ok + (if e.vote == 1 then 1 else 0)
            && (OutcomeBy(p.s, e) == Majority(c) <==> VotesFor(votes, c) >= p.s.params.alfa)
            && (OutcomeBy(p.s, e) == NoMajority
                <==> VotesFor(votes, OK) < p.s.params.alfa && VotesFor(votes, KO) < p.s.params.alfa)
            && Concluding(p, e.sender, e.vote).h.rounds == p.h.rounds + [OutcomeBy(p.s, e)]
            && Continuing(p, e.sender, e.vote, e.wave).h.rounds == p.h.rounds + [OutcomeBy(p.s, e)]
            && Concluding(p, e.sender, e.vote).h.ballots == p.h.ballots + [votes]
            && Continuing(p, e.sender, e.vote, e.wave).h.ballots == p.h.ballots + [votes]
  {
    VotesForMore(p.h.votes, e.vote, KO);
    VotesForMore(p.h.votes, e.vote, OK);
  }

  lemma DecidedUntouched(p: Proc, e: Event)
    requires Runs(p.s, e) && !Closes(p.s, e)
    ensures Advance(p, e).h.decided == p.h.decided
  {
    if Quiet(p.s, e) {
      QuietKeepsSequence(p, e);
    }
  }

  lemma RoundDecidesExactly(p: Proc, e: Event)
    requires Inv(p) && Allowed(p.s, e) && Closes(p.s, e)
    ensures var q, beta := Advance(p, e), p.s.params.beta;
            if Decides(p.h.rounds + [OutcomeBy(p.s, e)], beta)
            then q == Concluding(p, e.sender, e.vote) && q.s.confidence == beta
            else q == Continuing(p, e.sender, e.vote, e.wave)
  {
    ClosesDecidable(p);
    CompletedRound(p, e);
    ClosingReplays(p, e.sender, e.vote);
    var rounds := p.h.rounds + [OutcomeBy(p.s, e)];
    StreakDecides(rounds, p.s.params.beta);
    if Decides(rounds, p.s.params.beta) {
      FirstDecisionIsOpenBefore(rounds, p.s.params.beta);
    }
  }

  /**
   * The shortest streak with which a block can get the colour its final streak did not have, and
   * the fewest majority rounds this takes.
   */
  function LeastStreak(params: Params): nat {
    if NeverSplits(params) then 3 else 2
  }

  function FewestRounds(params: Params): nat {
    2 * params.beta + (if NeverSplits(params) then 2 else 0)
  }

  lemma AgainstTakes(params: Params, rounds: seq<Outcome>)
    requires params.Sound() && FirstDecision(rounds, params.beta) && (NeverSplits(params) ==> AllMajorities(rounds))
    requires Replay(rounds).pref != Replay(rounds).last
    ensures params.beta >= LeastStreak(params) && Majorities(rounds) >= FewestRounds(params)
  {
    DecidedColour(rounds, params.beta);
    if NeverSplits(params) {
      AgainstNeedsMore(rounds, params.beta);
    }
  }

  /** Every decision: made at the earliest possible round, with the colour the tallies prefer. */
  lemma EveryDecision(p: Proc, i: nat)
    requires Inv(p) && i < |p.h.decided|
    ensures var d, params := p.h.decided[i], p.s.params;
            var last := Replay(d.rounds).last;
            && FirstDecision(d.rounds, params.beta) && SuffixOf(d.rounds, params.beta, last)
            && d.votes == params.k * |d.rounds|
            && Count(d.rounds, d.color) >= Count(d.rounds, Opposite(d.color))
            && (d.color == last <==> Count(d.rounds, last) > Count(d.rounds, Opposite(last)))
            && (d.color != last ==>
                  params.beta >= LeastStreak(params) && Majorities(d.rounds) >= FewestRounds(params))
            && (NeverSplits(params) ==> AllMajorities(d.rounds))
            && Balloted(d.rounds, d.ballots, params.alfa, params.k)
            && forall j :: |d.rounds| - params.beta <= j < |d.rounds| ==> VotesFor(d.ballots[j], last) >= params.alfa
  {
    var d := p.h.decided[i];
    assert DecisionInv(p) && MajorityInv(p) && BallotInv(p);
    assert p.s.params.Sound();
    hide Inv;
    DecidedColour(d.rounds, p.s.params.beta);
    if d.color != Replay(d.rounds).last {
      AgainstTakes(p.s.params, d.rounds);
    }
  }

  // ---------- Slots ----------

  /** While Listening no slot of the round is lost; otherwise nobody is awaited. */
  lemma SlotConservation(p: Proc)
    requires Reachable(p)
    ensures p.s.phase != Finishing
    ensures p.s.phase == Listening ==>
              p.s.responseBuffer.Total() + |p.s.waiting| + p.h.invalid == p.s.params.k
    ensures p.s.phase == Listening ==> p.s.responseBuffer.Total() < p.s.params.k
    ensures p.s.phase == Idle ==> p.s.waiting == {}
    ensures p.s.id !in p.s.waiting
  {
    ReachableInv(p);
  }

  /** A round that absorbed an invalid vote never completes, whatever happens afterwards. */
  lemma {:induction false} InvalidVoteStalls(p: Proc, es: seq<Event>)
    requires Inv(p) && p.s.phase == Listening && p.h.invalid > 0 && ValidRun(p, es)
    ensures var q := After(p, es);
            && q.s.phase == Listening && q.s.seqNum == p.s.seqNum
            && q.h.rounds == p.h.rounds && q.h.decided == p.h.decided
    decreases |es|
  {
    if es != [] {
      InvalidVoteStep(p, es[0]);
      StepKeepsInv(p, es[0]);
      InvalidVoteStalls(Advance(p, es[0]), es[1..]);
    }
  }

  lemma InvalidVoteStep(p: Proc, e: Event)
    requires SlotInv(p) && QueueInv(p) && p.s.phase == Listening && p.h.invalid > 0 && Runs(p.s, e)
    ensures var q := Advance(p, e);
            && q.s.phase == Listening && q.s.seqNum == p.s.seqNum && q.h.invalid > 0
            && q.h.rounds == p.h.rounds && q.h.decided == p.h.decided
  {
    if Closes(p.s, e) {
      CompletesClean(p, e.sender, e.vote);
    }
  }

  // ---------- Progress ----------

  /** Rounds of colour c, and votes of the current round, still missing from a decision. */
  function RoundsMissing(s: Node, c: BinaryColor): int {
    Need(s.lastColor, s.confidence, s.params.beta, c)
  }

  function VotesMissing(s: Node): int {
    s.params.k - s.responseBuffer.Total()
  }

  /** This step counts a vote. */
  predicate Counts(s: Node, e: Event) {
    e.Deliver? && e.kind == Response && Awaited(s, e.sender) && e.vote <= 1
  }

  /**
   * A counted vote lowers the pair (rounds missing, votes missing), as long as the rounds it
   * completes have majority c; the last missing round decides.
   */
  lemma VoteProgress(p: Proc, e: Event, c: BinaryColor)
    requires Inv(p) && Allowed(p.s, e)
    requires Counts(p.s, e)
    requires Closes(p.s, e) ==> OutcomeBy(p.s, e) == Majority(c)
    ensures RoundsMissing(p.s, c) >= 1 && VotesMissing(p.s) >= 1
    ensures var q := Advance(p, e);
            if VotesMissing(p.s) > 1 then
              q.s.phase == Listening && RoundsMissing(q.s, c) == RoundsMissing(p.s, c)
              && VotesMissing(q.s) == VotesMissing(p.s) - 1
            else if RoundsMissing(p.s, c) > 1 then
              q.s.phase == Listening && RoundsMissing(q.s, c) == RoundsMissing(p.s, c) - 1
              && VotesMissing(q.s) == p.s.params.k
            else
              |q.h.decided| == |p.h.decided| + 1
  {
    CountersReadHistory(p);
    if Closes(p.s, e) {
      ClosesDecidable(p);
      RoundProgress(p, e, c);
    } else {
      CountProgress(p.s, e, c);
    }
  }

  lemma CountProgress(s: Node, e: Event, c: BinaryColor)
    requires Counts(s, e) && !Closes(s, e) && Runs(s, e)
    requires s.responseBuffer.Total() < s.params.k
    ensures var r := Step(s, e);
            && r.phase == Listening && RoundsMissing(r, c) == RoundsMissing(s, c)
            && VotesMissing(r) == VotesMissing(s) - 1 >= 1
  {
  }

  lemma RoundProgress(p: Proc, e: Event, c: BinaryColor)
    requires p.s.params.Sound() && Decidable(p.s) && Started(p.s)
    requires Closes(p.s, e) && OutcomeBy(p.s, e) == Majority(c) && p.s.confidence < p.s.params.beta
    ensures VotesMissing(p.s) == 1
    ensures var q := Advance(p, e);
            if RoundsMissing(p.s, c) > 1 then
              q.s.phase == Listening && RoundsMissing(q.s, c) == RoundsMissing(p.s, c) - 1
              && VotesMissing(q.s) == p.s.params.k
            else
              |q.h.decided| == |p.h.decided| + 1
  {
    CompletedRound(p, e);
    var t := Closing(p.s, e.sender, e.vote);
    assert t.last == c && p.s.params.beta - t.confidence == RoundsMissing(p.s, c) - 1;
  }

  /** Every other step leaves that pair alone while the sequence is open. */
  lemma OthersKeepProgress(p: Proc, e: Event, c: BinaryColor)
    requires Inv(p) && Allowed(p.s, e) && p.s.phase == Listening
    requires !Counts(p.s, e)
    ensures var q := Advance(p, e);
            && q.s.phase == Listening && q.s.seqNum == p.s.seqNum
            && RoundsMissing(q.s, c) == RoundsMissing(p.s, c) && VotesMissing(q.s) == VotesMissing(p.s)
  {
    ListeningIsNotPending(p);
    OthersTouchNothing(p.s, e);
  }

  lemma ListeningIsNotPending(p: Proc)
    requires QueueInv(p) && p.s.phase == Listening
    ensures !Pending(p.s)
  {
  }

  lemma OthersTouchNothing(s: Node, e: Event)
    requires Runs(s, e) && !Pending(s)
    requires !Counts(s, e)
    ensures var r := Step(s, e);
            && r.phase == s.phase && r.seqNum == s.seqNum && r.lastColor == s.lastColor && r.confidence == s.confidence
            && r.responseBuffer == s.responseBuffer && r.params == s.params
  {
  }

  /** Votes still to be counted before a decision, if all rounds get majority c. */
  function Missing(s: Node, c: BinaryColor): int {
    (RoundsMissing(s, c) - 1) * s.params.k + VotesMissing(s)
  }

  function VotesHeard(p: Proc, es: seq<Event>): nat
    requires ValidRun(p, es)
    decreases |es|
  {
    if es == [] then 0
    else (if Counts(p.s, es[0]) then 1 else 0) + VotesHeard(Advance(p, es[0]), es[1..])
  }

  /** Every round that this run completes has majority c. */
  ghost predicate AllRoundsHave(p: Proc, es: seq<Event>, c: BinaryColor)
    requires ValidRun(p, es)
    decreases |es|
  {
    es != [] ==>
      && (Closes(p.s, es[0]) ==> OutcomeBy(p.s, es[0]) == Majority(c))
      && AllRoundsHave(Advance(p, es[0]), es[1..], c)
  }

  lemma MissingStep(p: Proc, e: Event, c: BinaryColor)
    requires Inv(p) && p.s.phase == Listening && Allowed(p.s, e)
    requires Closes(p.s, e) ==> OutcomeBy(p.s, e) == Majority(c)
    ensures var q := Advance(p, e);
            q.h.decided == p.h.decided ==>
              q.s.phase == Listening && Missing(q.s, c) == Missing(p.s, c) - (if Counts(p.s, e) then 1 else 0)
  {
    StepKeepsIdentity(p.s, e);
    hide Inv, Allowed, MembersOk;
    if Counts(p.s, e) {
      VoteProgress(p, e, c);
    } else {
      OthersKeepProgress(p, e, c);
    }
    hide *;
    MissingDrops(p.s, Advance(p, e).s, c);
  }

  /** One vote less, or one round less and the votes of a whole new one. */
  lemma MissingDrops(s: Node, r: Node, c: BinaryColor)
    requires r.params == s.params
    ensures RoundsMissing(r, c) == RoundsMissing(s, c) ==>
              Missing(r, c) - VotesMissing(r) == Missing(s, c) - VotesMissing(s)
    ensures RoundsMissing(r, c) == RoundsMissing(s, c) - 1 && VotesMissing(r) == s.params.k && VotesMissing(s) == 1 ==>
              Missing(r, c) == Missing(s, c) - 1
  {
    hide RoundsMissing, VotesMissing;
    var n, k := RoundsMissing(s, c), s.params.k;
    assert (n - 1) * k == (n - 2) * k + k;
  }

  lemma MissingBounds(p: Proc, c: BinaryColor)
    requires Inv(p) && p.s.phase == Listening
    ensures 1 <= Missing(p.s, c) <= p.s.params.k * p.s.params.beta
  {
    assert SlotInv(p) && p.s.params.k >= 1;
    hide Inv, LastColor, TrailingRun, Count, Preferred, Missing;
    CountersReadHistory(p);
    MissingFits(p.s, c);
  }

  lemma MissingFits(s: Node, c: BinaryColor)
    requires 1 <= RoundsMissing(s, c) <= s.params.beta && 1 <= VotesMissing(s) <= s.params.k
    ensures 1 <= Missing(s, c) <= s.params.k * s.params.beta
  {
    var n, beta, k := RoundsMissing(s, c), s.params.beta, s.params.k;
    hide RoundsMissing, VotesMissing;
    assert 0 <= (n - 1) * k <= (beta - 1) * k;
    assert (beta - 1) * k == k * beta - k;
  }

  /**
   * Over any run whose completed rounds all have majority c: the open sequence is decided, or every
   * vote counted so far brought it one vote closer. So at most k * beta counted votes decide it,
   * whatever else happens in between.
   */
  lemma {:induction false} UnanimousRunDecides(p: Proc, es: seq<Event>, c: BinaryColor)
    requires Inv(p) && p.s.phase == Listening && ValidRun(p, es) && AllRoundsHave(p, es, c)
    ensures 1 <= Missing(p.s, c) <= p.s.params.k * p.s.params.beta
    ensures var q := After(p, es);
            && p.h.decided <= q.h.decided
            && (VotesHeard(p, es) >= Missing(p.s, c) ==> q.h.decided != p.h.decided)
            && (q.h.decided == p.h.decided ==>
                  q.s.phase == Listening && Missing(q.s, c) == Missing(p.s, c) - VotesHeard(p, es))
    decreases |es|
  {
    MissingBounds(p, c);
    Finality(p, es);
    if es != [] {
      var next := Advance(p, es[0]);
      MissingStep(p, es[0], c);
      StepKeepsInv(p, es[0]);
      HistoryGrows(p, es[0]);
      hide Inv;
      Finality(next, es[1..]);
      if next.h.decided == p.h.decided {
        UnanimousRunDecides(next, es[1..], c);
      }
    }
  }

  /** From an open sequence, c-majority rounds decide at the n-th of them and not before. */
  lemma UnanimousRounds(p: Proc, c: BinaryColor)
    requires Reachable(p) && p.s.phase == Listening
    ensures var n := RoundsMissing(p.s, c);
            1 <= n <= p.s.params.beta && FirstDecision(p.h.rounds + Repeat(c, n), p.s.params.beta)
  {
    ReachableInv(p);
    UnanimousTail(p.h.rounds, p.s.params.beta, c);
  }

  // ---------- The queue ----------

  /** Arrivals are neither lost, reordered nor decided twice; the numbering follows them. */
  lemma FifoConservation(p: Proc)
    requires Reachable(p)
    ensures p.h.arrivals == DecidedIds(p.h.decided) + Ids(p.s.queue)
    ensures p.s.seqNum == p.h.headNum + 1 + Opened(p)
    ensures Opened(p) <= |p.h.arrivals| && Checks(p.s.calls) == p.h.arrivals[..Opened(p)]
    ensures Commits(p.s.calls) == CommittedIds(p.h.decided)
    ensures multiset(Fails(p.s.calls)) == multiset(FailedIds(p.h.decided)) + multiset(p.h.stale)
    ensures p.s.chainHead == (var c := CommittedIds(p.h.decided); if c == [] then p.h.headId else c[|c| - 1])
  {
    ReachableInv(p);
  }

  /** The block of the n-th opened sequence is the n-th arrival. */
  lemma OpenedBlockIsArrival(p: Proc)
    requires QueueInv(p)
    ensures Opened(p) <= |p.h.arrivals|
    ensures forall i :: 0 <= i < |p.h.decided| ==> p.h.decided[i].id == p.h.arrivals[i]
    ensures Opened(p) > 0 ==> p.s.decisionBlock == p.h.arrivals[Opened(p) - 1]
  {
    assert forall i :: 0 <= i < |p.h.decided| ==> DecidedIds(p.h.decided)[i] == p.h.arrivals[i];
    if p.s.phase == Listening {
      assert p.h.arrivals[|p.h.decided|] == Ids(p.s.queue)[0];
    }
  }

  /** The queue guard lets nothing through: the front is the block already dealt with. */
  predicate Guarded(s: Node) {
    s.queue != [] && s.queue[0].id == s.decisionBlock
  }

  /** The next arrival repeats the id before it (the empty id before the first). */
  predicate RepeatsNext(p: Proc) {
    && Opened(p) < |p.h.arrivals|
    && p.h.arrivals[Opened(p)] == PreviousId(p.h.arrivals, Opened(p))
  }

  /** The id guard is a phase guard, exactly unless an Idle node's next block repeats its predecessor. */
  lemma GuardIsPhase(p: Proc)
    requires Reachable(p)
    ensures (Guarded(p.s) <==> p.s.phase == Listening) <==> !(p.s.phase == Idle && RepeatsNext(p))
  {
    ReachableInv(p);
    assert QueueInv(p) && SlotInv(p);
    hide Inv;
    GuardOfQueue(p);
  }

  lemma GuardOfQueue(p: Proc)
    requires QueueInv(p) && p.s.phase != Finishing
    ensures (Guarded(p.s) <==> p.s.phase == Listening) <==> !(p.s.phase == Idle && RepeatsNext(p))
  {
    OpenedBlockIsArrival(p);
    if p.s.phase == Idle && p.s.queue != [] {
      assert p.h.arrivals[|p.h.decided|] == p.s.queue[0].id;
    }
  }

  /** No arrival that repeats the id before it is ever opened, and none after it. */
  lemma RepeatIsNeverOpened(p: Proc, i: nat)
    requires Reachable(p) && i < |p.h.arrivals| && p.h.arrivals[i] == PreviousId(p.h.arrivals, i)
    ensures Opened(p) <= i
  {
    ReachableInv(p);
  }

  /** Once an Idle node meets such a repeat it opens and decides nothing more. */
  lemma {:induction false} RepeatStalls(p: Proc, es: seq<Event>)
    requires p.s.phase == Idle && Guarded(p.s) && ValidRun(p, es)
    ensures var q := After(p, es);
            && q.s.phase == Idle && Guarded(q.s) && q.s.seqNum == p.s.seqNum && q.h.decided == p.h.decided
    decreases |es|
  {
    if es != [] {
      RepeatStallsStep(p, es[0]);
      RepeatStalls(Advance(p, es[0]), es[1..]);
    }
  }

  lemma RepeatStallsStep(p: Proc, e: Event)
    requires p.s.phase == Idle && Guarded(p.s) && Runs(p.s, e)
    ensures var q := Advance(p, e);
            && q.s.phase == Idle && Guarded(q.s) && q.s.seqNum == p.s.seqNum && q.h.decided == p.h.decided
  {
  }

  // ---------- Finality ----------

  lemma HistoryGrows(p: Proc, e: Event)
    requires Runs(p.s, e)
    ensures var q := Advance(p, e);
            && p.h.decided <= q.h.decided && p.h.arrivals <= q.h.arrivals
            && q.h.headNum == p.h.headNum && q.h.headId == p.h.headId
  {
    var q := Advance(p, e);
    if Closes(p.s, e) {
      assert q.h.arrivals == p.h.arrivals;
    }
  }

  /** Along a run decisions are only appended, and the colour of a decided sequence never changes. */
  lemma {:induction false} Finality(p: Proc, es: seq<Event>)
    requires Inv(p) && ValidRun(p, es)
    ensures var q := After(p, es);
            && p.h.decided <= q.h.decided && p.h.arrivals <= q.h.arrivals
            && q.h.headNum == p.h.headNum && q.h.headId == p.h.headId
    ensures var q := After(p, es);
            forall i :: 0 <= i < |p.h.decided| ==>
              var n := SeqOf(p.h, i);
              n in p.s.decisionMap && n in q.s.decisionMap && q.s.decisionMap[n] == p.s.decisionMap[n]
    decreases |es|
  {
    RunKeepsInv(p, es);
    if es != [] {
      HistoryGrows(p, es[0]);
      StepKeepsInv(p, es[0]);
      Finality(Advance(p, es[0]), es[1..]);
    }
    var q := After(p, es);
    assert p.h.decided <= q.h.decided && q.h.headNum == p.h.headNum;
    ColorsAgree(p, q);
  }

  lemma ColorsAgree(p: Proc, q: Proc)
    requires ColorInv(p) && ColorInv(q) && p.h.decided <= q.h.decided && p.h.headNum == q.h.headNum
    ensures forall i :: 0 <= i < |p.h.decided| ==>
              var n := SeqOf(p.h, i);
              n in p.s.decisionMap && n in q.s.decisionMap && q.s.decisionMap[n] == p.s.decisionMap[n]
  {
    forall i | 0 <= i < |p.h.decided|
      ensures var n := SeqOf(p.h, i);
              n in p.s.decisionMap && n in q.s.decisionMap && q.s.decisionMap[n] == p.s.decisionMap[n]
    {
      assert q.h.decided[i] == p.h.decided[i];
      assert SeqOf(q.h, i) == SeqOf(p.h, i);
    }
  }

  /** The domain of the colour map, and which entries are binary. */
  lemma ColourMapIsTotal(p: Proc, n: nat)
    requires Inv(p)
    ensures n in p.s.decisionMap <==> n == 0 || p.h.headNum + 2 <= n <= p.s.seqNum
    ensures n in p.s.decisionMap ==> (p.s.decisionMap[n] == Undecided <==> n == 0)
    ensures p.h.headNum + 2 <= n < p.h.headNum + 2 + |p.h.decided| ==>
              p.s.decisionMap[n] == p.h.decided[n - p.h.headNum - 2].color
  {
    assert QueueInv(p) && SlotInv(p) && ColorInv(p) && (p.s.phase == Listening ==> Started(p.s));
    hide Inv;
    MapIsTotal(p, n);
  }

  lemma MapIsTotal(p: Proc, n: nat)
    requires QueueInv(p) && SlotInv(p) && ColorInv(p) && (p.s.phase == Listening ==> Started(p.s))
    ensures n in p.s.decisionMap <==> n == 0 || p.h.headNum + 2 <= n <= p.s.seqNum
    ensures n in p.s.decisionMap ==> (p.s.decisionMap[n] == Undecided <==> n == 0)
    ensures p.h.headNum + 2 <= n < p.h.headNum + 2 + |p.h.decided| ==>
              p.s.decisionMap[n] == p.h.decided[n - p.h.headNum - 2].color
  {
    if n in p.s.decisionMap && n != 0 && n - p.h.headNum - 2 < |p.h.decided| {
      assert SeqOf(p.h, n - p.h.headNum - 2) == n;
    }
  }

  /** Two replies about a decided sequence, at any two moments, carry the same unforced vote. */
  lemma RepliesAgree(p: Proc, es: seq<Event>, i: nat, x: PeerId, y: PeerId)
    requires Inv(p) && ValidRun(p, es) && i < |p.h.decided|
    requires !Forced(p.s) && !Forced(After(p, es).s)
    ensures var q, n := After(p, es), SeqOf(p.h, i);
            var vote := if p.h.decided[i].color == OK then 1 else 0;
            && AnswerRequest(p.s, x, n).sent == p.s.sent + [Packet(p.s.id, x, Response, vote, p.s.seqNum)]
            && AnswerRequest(q.s, y, n).sent == q.s.sent + [Packet(q.s.id, y, Response, vote, q.s.seqNum)]
  {
    Finality(p, es);
    RunKeepsInv(p, es);
    var q, n := After(p, es), SeqOf(p.h, i);
    ColourMapIsTotal(p, n);
    ColourMapIsTotal(q, n);
    assert p.s.decisionMap[n] == p.h.decided[i].color;
  }

  // ---------- Accounting ----------

  /**
   * Requests and votes of the current sequence: k per round started plus the replacements, and per
   * peer each request is awaited, was counted once, or was struck off.
   */
  lemma RequestAccounting(p: Proc, x: PeerId)
    requires Inv(p)
    ensures var requested := Requested(p.s.sent, p.s.seqNum);
            && |requested| == p.s.params.k * RoundsStarted(p) + p.h.replacements
            && p.h.counted[x] + p.h.dropped[x] + (if x in p.s.waiting then 1 else 0) == requested[x]
            && requested[p.s.id] == 0
            && |p.h.counted| == p.s.params.k * |p.h.rounds| + (if p.s.phase == Listening then p.s.responseBuffer.Total() else 0)
  {
    NeverRequested(p.s.sent, p.s.seqNum, p.s.id);
  }

  lemma {:induction false} NeverRequested(sent: seq<Packet>, n: nat, id: PeerId)
    requires forall m :: m in sent && m.kind == Request ==> m.dst != id
    ensures Requested(sent, n)[id] == 0
  {
    if sent != [] {
      assert sent[|sent| - 1] in sent;
      NeverRequested(sent[..|sent| - 1], n, id);
    }
  }

  // ---------- Members ----------

  /** Somewhere, a stands before b. */
  ghost predicate Before(ids: seq<PeerId>, a: PeerId, b: PeerId) {
    exists i, j :: 0 <= i < j < |ids| && ids[i] == a && ids[j] == b
  }

  /** Members that stay keep their relative order, and the own position stays right. */
  lemma {:induction false} OrderPreserved(p: Proc, es: seq<Event>, a: PeerId, b: PeerId)
    requires Inv(p) && ValidRun(p, es) && Before(p.s.memberIds, a, b)
    requires Disconnect(a) !in es && Disconnect(b) !in es
    ensures var q := After(p, es);
            && Before(q.s.memberIds, a, b)
            && Distinct(q.s.memberIds) && q.s.order < |q.s.memberIds| && q.s.memberIds[q.s.order] == p.s.id
    decreases |es|
  {
    if es != [] {
      assert es[0] in es;
      OrderStep(p.s, es[0], a, b);
      StepKeepsInv(p, es[0]);
      StepKeepsIdentity(p.s, es[0]);
      OrderPreserved(Advance(p, es[0]), es[1..], a, b);
    }
  }

  lemma OrderStep(s: Node, e: Event, a: PeerId, b: PeerId)
    requires Runs(s, e) && Before(s.memberIds, a, b) && e != Disconnect(a) && e != Disconnect(b)
    ensures Before(Step(s, e).memberIds, a, b)
  {
    hide Before;
    StepKeepsIdentity(s, e);
    match e {
      case Connect(peer) => BeforeAppended(s.memberIds, peer, a, b);
      case Disconnect(peer) => BeforeWithout(s.memberIds, PositionOf(s.memberIds, peer), a, b);
      case _ =>
    }
  }

  lemma BeforeAppended(ids: seq<PeerId>, peer: PeerId, a: PeerId, b: PeerId)
    requires Before(ids, a, b)
    ensures Before(ids + [peer], a, b)
  {
    var i, j :| 0 <= i < j < |ids| && ids[i] == a && ids[j] == b;
    assert (ids + [peer])[i] == a && (ids + [peer])[j] == b;
  }

  lemma BeforeWithout(ids: seq<PeerId>, at: nat, a: PeerId, b: PeerId)
    requires at < |ids| && Before(ids, a, b) && ids[at] != a && ids[at] != b
    ensures Before(Without(ids, at), a, b)
  {
    var i, j :| 0 <= i < j < |ids| && ids[i] == a && ids[j] == b;
    var rest := Without(ids, at);
    assert rest[if i < at then i else i - 1] == a;
    assert rest[if j < at then j else j - 1] == b;
  }
}
