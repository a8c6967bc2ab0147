/**
 * Which histories of rounds nodes decide on, and which of them decide against their final streak.
 */
module Histories {
  import opened SnowballTypes
  import opened RoundTally
  import opened NodeSpec
  import opened NodeRuns
  import opened NodeTheorems
  import opened Scenarios

  // ---------- The histories that nodes decide on ----------

  /** Some reachable node with these settings decided a block on this history. */
  ghost predicate DecidedOn(params: Params, rounds: seq<Outcome>) {
    exists p, d :: DecidedAt(p, d, params, rounds)
  }

  ghost predicate DecidedAt(p: Proc, d: Decision, params: Params, rounds: seq<Outcome>) {
    Reachable(p) && p.s.params == params && d in p.h.decided && d.rounds == rounds
  }

  // Members of a network large enough for a sample of k.
  function Member(i: nat): PeerId {
    seq(i, _ => 0)
  }

  function Members(n: nat): seq<PeerId> {
    seq(n, i requires 0 <= i < n => Member(i))
  }

  lemma MembersDiffer(n: nat)
    ensures Distinct(Members(n))
  {
    forall i, j | 0 <= i < j < n
      ensures Members(n)[i] != Members(n)[j]
    {
      assert |Members(n)[i]| == i && |Members(n)[j]| == j;
    }
  }

  function First(params: Params): Proc
    requires params.k >= 1
  {
    assert Members(params.k + 1)[0] == Member(0);
    Boot(params, Members(params.k + 1), Member(0), 0, [])
  }

  function Sample(params: Params): seq<PeerId> {
    Members(params.k + 1)[1..]
  }

  lemma SampleIsFresh(params: Params)
    ensures var ids, wave := Members(params.k + 1), Sample(params);
            Distinct(ids) && ids[0] == Member(0) && |wave| == params.k && OtherMembers(ids, Member(0), wave)
  {
    var ids, wave := Members(params.k + 1), Sample(params);
    MembersDiffer(params.k + 1);
    assert ids[0] == Member(0);
    assert forall i :: 0 <= i < |wave| ==> wave[i] == ids[i + 1];
  }

  lemma FirstStarts(params: Params)
    requires params.Sound()
    ensures var p := First(params);
            Reachable(p) && Dormant(p) && FreshWave(p.s, Sample(params)) && p.s.params == params
  {
    SampleIsFresh(params);
    FirstIsBooted(params);
    BootIsDormant(params, Members(params.k + 1), Member(0), 0, []);
    hide *;
    BootIsReachable(First(params), Member(0));
  }

  lemma FirstIsBooted(params: Params)
    requires params.Sound()
    ensures Booted(First(params), Member(0))
  {
    SampleIsFresh(params);
    assert |Members(params.k + 1)| == params.k + 1;
  }

  lemma BootIsDormant(params: Params, members: seq<PeerId>, id: PeerId, headNum: nat, headId: BlockId)
    requires id in members && Booted(Boot(params, members, id, headNum, headId), id)
    ensures Dormant(Boot(params, members, id, headNum, headId))
  {
    BootInv(params, members, id, headNum, headId);
    hide Inv;
  }

  lemma BootIsReachable(p: Proc, id: PeerId)
    requires Booted(p, id)
    ensures Reachable(p)
  {
    hide Booted;
    EmptyRun(p);
    assert Reaches(p, id, [], p);
  }

  /** Every history that first decides at its end is decided on, if its rounds are possible. */
  lemma EveryHistoryHappens(params: Params, rounds: seq<Outcome>)
    requires params.Sound() && FirstDecision(rounds, params.beta)
    requires NeverSplits(params) ==> AllMajorities(rounds)
    ensures DecidedOn(params, rounds)
  {
    hide Inv, FirstDecision, Decides, Reachable, Leads, Dormant, FreshWave, AllMajorities, HistoryOffered, Settles;
    hide Opening, OpenedWith, FreshRound, Possible, First, Sample, DecidedOn;
    var p, wave := First(params), Sample(params);
    var pool := iset m: Packet | m.vote <= 1;
    FirstStarts(params);
    OthersPossible(params, rounds);
    var r := OpenedWith(p, wave);
    OpensSequence(p, wave, pool);
    LeadsKeeps(p, r, pool);
    AllOffered(p, r, wave, rounds);
    var q := HistoryHappens(r, wave, rounds, pool);
    LeadsKeeps(r, q, pool);
    DecidesOn(r, q, params, rounds, LastBuffer(r.s.params, rounds));
  }

  lemma OthersPossible(params: Params, rounds: seq<Outcome>)
    requires params.Sound() && (NeverSplits(params) ==> AllMajorities(rounds))
    ensures forall o :: o in rounds ==> Possible(params, o)
  {
  }

  lemma AllOffered(p: Proc, r: Proc, wave: seq<PeerId>, rounds: seq<Outcome>)
    requires Opening(p, r, wave)
    ensures Inv(r) && FreshRound(r, wave) && r.h.rounds == [] && r.s.params == p.s.params
    ensures HistoryOffered(r, wave, rounds, iset m: Packet | m.vote <= 1)
  {
    hide Inv, FreshRound, ZeroesFor;
  }

  lemma DecidesOn(r: Proc, q: Proc, params: Params, rounds: seq<Outcome>, buffer: Tally)
    requires Settles(r, q, rounds, buffer) && Reachable(q) && q.s.params == params
    ensures DecidedOn(params, rounds)
  {
    var d := q.h.decided[|r.h.decided|];
    assert DecidedAt(q, d, params, rounds);
  }

  /**
   * Nodes decide on exactly the histories that first decide at their last round, except that where
   * k is 2 * alfa - 1 every round must have a majority.
   */
  lemma HistoriesExactly(params: Params, rounds: seq<Outcome>)
    requires params.Sound()
    ensures DecidedOn(params, rounds)
            <==> FirstDecision(rounds, params.beta) && (NeverSplits(params) ==> AllMajorities(rounds))
  {
    if DecidedOn(params, rounds) {
      var p, d :| DecidedAt(p, d, params, rounds);
      ReachableInv(p);
      assert DecisionInv(p) && MajorityInv(p);
    }
    hide FirstDecision, DecidedOn;
    if FirstDecision(rounds, params.beta) && (NeverSplits(params) ==> AllMajorities(rounds)) {
      EveryHistoryHappens(params, rounds);
    }
  }

  // ---------- Decisions against the final streak ----------

  /** The block got the colour that its final streak did not have. */
  predicate Against(rounds: seq<Outcome>) {
    Replay(rounds).pref != Replay(rounds).last
  }

  ghost predicate AgainstIn(params: Params, majorities: nat) {
    exists rounds :: DecidedOn(params, rounds) && Against(rounds) && Majorities(rounds) == majorities
  }

  lemma AgainstHappens(params: Params)
    requires params.Sound() && params.beta >= LeastStreak(params)
    ensures AgainstIn(params, FewestRounds(params))
  {
    var rounds;
    if NeverSplits(params) {
      rounds := AgainstByMajorities(params.beta, OK);
    } else {
      rounds := AgainstTheStreak(params.beta, OK);
    }
    hide FirstDecision;
    HistoriesExactly(params, rounds);
    assert DecidedOn(params, rounds) && Against(rounds);
  }

  /**
   * Decisions against the final streak: with which settings some node makes one, how many majority
   * rounds they take at least, that this many suffice, and when 2 * beta do.
   */
  lemma AgainstExactly(params: Params)
    requires params.Sound()
    ensures (exists m: nat :: AgainstIn(params, m)) <==> params.beta >= LeastStreak(params)
    ensures forall m: nat :: AgainstIn(params, m) ==> m >= FewestRounds(params)
    ensures params.beta >= LeastStreak(params) ==> AgainstIn(params, FewestRounds(params))
    ensures AgainstIn(params, 2 * params.beta) <==> params.beta >= 2 && params.k <= 2 * params.alfa - 2
  {
    forall m: nat | AgainstIn(params, m)
      ensures params.beta >= LeastStreak(params) && m >= FewestRounds(params)
    {
      var rounds :| DecidedOn(params, rounds) && Against(rounds) && Majorities(rounds) == m;
      HistoriesExactly(params, rounds);
      AgainstTakes(params, rounds);
    }
    if params.beta >= LeastStreak(params) {
      AgainstHappens(params);
    }
  }
}
