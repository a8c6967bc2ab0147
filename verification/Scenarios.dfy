/**
 * What a node can be led to: runs of one node whose messages come from a given pool, from opening
 * a sequence through the votes of a round to a whole history of rounds.
 */
module Scenarios {
  import opened SnowballTypes
  import opened RoundTally
  import opened NodeSpec
  import opened NodeRuns
  import opened NodeTheorems

  // ---------- Runs on messages from a pool ----------

  /** Members stay as they are, and what is delivered is in the pool. */
  predicate Offered(id: PeerId, e: Event, pool: iset<Packet>) {
    && !e.Connect? && !e.Disconnect?
    && (e.Deliver? ==> Packet(e.sender, id, e.kind, e.vote, e.seqNum) in pool)
  }

  ghost predicate LeadsBy(p: Proc, es: seq<Event>, q: Proc, pool: iset<Packet>)
    decreases |es|
  {
    if es == [] then p == q
    else Allowed(p.s, es[0]) && Offered(p.s.id, es[0], pool) && LeadsBy(Advance(p, es[0]), es[1..], q, pool)
  }

  ghost predicate Leads(p: Proc, q: Proc, pool: iset<Packet>) {
    exists es :: LeadsBy(p, es, q, pool)
  }

  lemma LeadsNowhere(p: Proc, pool: iset<Packet>)
    ensures Leads(p, p, pool)
  {
    assert LeadsBy(p, [], p, pool);
  }

  lemma {:induction false} Append(p: Proc, es: seq<Event>, q: Proc, fs: seq<Event>, r: Proc, pool: iset<Packet>)
    requires LeadsBy(p, es, q, pool) && LeadsBy(q, fs, r, pool)
    ensures LeadsBy(p, es + fs, r, pool)
    decreases |es|
  {
    if es == [] {
      assert es + fs == fs;
    } else {
      assert (es + fs)[1..] == es[1..] + fs;
      Append(Advance(p, es[0]), es[1..], q, fs, r, pool);
    }
  }

  lemma LeadsOn(p: Proc, q: Proc, r: Proc, pool: iset<Packet>)
    requires Leads(p, q, pool) && Leads(q, r, pool)
    ensures Leads(p, r, pool)
  {
    hide LeadsBy;
    var es :| LeadsBy(p, es, q, pool);
    var fs :| LeadsBy(q, fs, r, pool);
    Append(p, es, q, fs, r, pool);
  }

  lemma LeadsStep(p: Proc, e: Event, pool: iset<Packet>)
    requires Allowed(p.s, e) && Offered(p.s.id, e, pool)
    ensures Leads(p, Advance(p, e), pool)
  {
    assert [e][1..] == [];
    assert LeadsBy(Advance(p, e), [], Advance(p, e), pool);
    assert LeadsBy(p, [e], Advance(p, e), pool);
  }

  lemma {:induction false} LeadsByKeeps(p: Proc, es: seq<Event>, q: Proc, pool: iset<Packet>)
    requires LeadsBy(p, es, q, pool)
    ensures ValidRun(p, es) && q == After(p, es) && SameIdentity(p.s, q.s)
    decreases |es|
  {
    if es != [] {
      StepKeepsIdentity(p.s, es[0]);
      LeadsByKeeps(Advance(p, es[0]), es[1..], q, pool);
    }
  }

  lemma LeadsKeeps(p: Proc, q: Proc, pool: iset<Packet>)
    requires Leads(p, q, pool)
    ensures SameIdentity(p.s, q.s) && q.s.params == p.s.params
    ensures Inv(p) ==> Inv(q)
    ensures Reachable(p) ==> Reachable(q)
  {
    hide LeadsBy, Inv, ValidRun, After, Booted;
    var es :| LeadsBy(p, es, q, pool);
    LeadsByKeeps(p, es, q, pool);
    if Inv(p) {
      RunKeepsInv(p, es);
    }
    if Reachable(p) {
      var boot, id, before :| Reaches(boot, id, before, p);
      RunConcat(boot, before, es);
      assert Reaches(boot, id, before + es, q);
    }
  }

  // ---------- Opening a sequence ----------

  /** Nothing opened, nothing queued. */
  ghost predicate Dormant(p: Proc) {
    Inv(p) && p.s.phase == Idle && p.h.decided == [] && p.s.queue == []
  }

  /** A round has just been started with this sample. */
  ghost predicate FreshRound(p: Proc, wave: seq<PeerId>) {
    && p.s.phase == Listening && FreshWave(p.s, wave)
    && p.s.waiting == ToSet(wave) && p.s.responseBuffer == Tally(0, 0) && p.h.extras == []
  }

  /** The first sequence is open and no vote has been counted. */
  ghost predicate Opening(p: Proc, q: Proc, wave: seq<PeerId>) {
    && Inv(q) && FreshRound(q, wave) && q.h.rounds == [] && q.h.decided == [] && q.h.replacements == 0
    && q.s.seqNum == p.s.seqNum + 1 && q.s.seqNum in q.s.decisionMap && SameIdentity(p.s, q.s)
    && q.s.sent == p.s.sent + Requests(q.s, wave)
  }

  const FIRST: Block := Block([1], 0)

  /** A block arrives and its sequence is opened with this sample. */
  function OpenedWith(p: Proc, wave: seq<PeerId>): Proc {
    Advance(Advance(p, Arrive(FIRST)), Poll(0, wave))
  }

  lemma OpensFirst(p: Proc, wave: seq<PeerId>)
    requires p.s.phase == Idle && p.s.waiting == {} && p.s.queue == [] && p.s.decisionBlock == [] && p.h.decided == []
    requires FreshWave(p.s, wave)
    ensures Allowed(p.s, Arrive(FIRST)) && Allowed(Advance(p, Arrive(FIRST)).s, Poll(0, wave))
    ensures var q := OpenedWith(p, wave);
            && FreshRound(q, wave) && q.h.rounds == [] && q.h.decided == [] && q.h.replacements == 0
            && q.s.seqNum == p.s.seqNum + 1 && q.s.seqNum in q.s.decisionMap && SameIdentity(p.s, q.s)
            && q.s.sent == p.s.sent + Requests(q.s, wave)
  {
    var a, q := Advance(p, Arrive(FIRST)), OpenedWith(p, wave);
    assert a.s.queue == [FIRST];
    assert q.s.waiting == ToSet(wave);
    assert Requests(q.s, wave) == Requests(a.s.(seqNum := q.s.seqNum), wave);
  }

  /** A dormant node that a block arrives at opens a sequence with any sample. */
  lemma OpensSequence(p: Proc, wave: seq<PeerId>, pool: iset<Packet>)
    requires Dormant(p) && FreshWave(p.s, wave)
    ensures Leads(p, OpenedWith(p, wave), pool) && Opening(p, OpenedWith(p, wave), wave)
  {
    assert p.s.waiting == {} && p.s.decisionBlock == [];
    OpensFirst(p, wave);
    hide Inv, Advance, Allowed;
    var a, q := Advance(p, Arrive(FIRST)), OpenedWith(p, wave);
    LeadsStep(p, Arrive(FIRST), pool);
    LeadsStep(a, Poll(0, wave), pool);
    LeadsOn(p, a, q, pool);
    LeadsKeeps(p, q, pool);
  }

  lemma RequestIsSent(p: Proc, q: Proc, wave: seq<PeerId>, n: PeerId)
    requires Opening(p, q, wave) && n in wave
    ensures Packet(q.s.id, n, Request, 0, q.s.seqNum) in q.s.sent
  {
    hide Inv, FreshRound;
    var i :| 0 <= i < |wave| && wave[i] == n;
    assert Requests(q.s, wave)[i] == Packet(q.s.id, n, Request, 0, q.s.seqNum);
    assert q.s.sent[|p.s.sent| + i] == Packet(q.s.id, n, Request, 0, q.s.seqNum);
  }

  // ---------- The votes of a round ----------

  /** Zeroes first: the n-th of the votes of a round with z zeroes, and the buffer after n of them. */
  function VoteAt(z: nat, n: nat): u8 {
    if n < z then 0 else 1
  }

  function BufferAt(z: nat, n: nat): Tally {
    if n <= z then Tally(n, 0) else Tally(z, n - z)
  }

  function Votes(z: nat, n: nat): seq<u8> {
    seq(n, i requires 0 <= i => VoteAt(z, i))
  }

  /** The n-th vote of a round is in the pool. */
  predicate VoteOffered(p: Proc, wave: seq<PeerId>, z: nat, n: nat, pool: iset<Packet>)
    requires n < |wave|
  {
    Packet(wave[n], p.s.id, Response, VoteAt(z, n), p.s.seqNum) in pool
  }

  function Voting(p: Proc, wave: seq<PeerId>, z: nat, n: nat): Event
    requires n < |wave|
  {
    Deliver(wave[n], Response, VoteAt(z, n), p.s.seqNum, [], wave)
  }

  /** The first n of them have been counted. */
  function Heard(p: Proc, wave: seq<PeerId>, z: nat, n: nat): Proc
    requires n <= |wave|
  {
    Proc(p.s.(waiting := ToSet(wave[n..]), responseBuffer := BufferAt(z, n)),
         p.h.(counted := p.h.counted + multiset(wave[..n]), votes := p.h.votes + Votes(z, n)))
  }

  lemma TailSet(wave: seq<PeerId>, n: nat)
    requires Distinct(wave) && n < |wave|
    ensures wave[n] in ToSet(wave[n..]) && ToSet(wave[n..]) - {wave[n]} == ToSet(wave[n + 1..])
    ensures multiset(wave[..n + 1]) == multiset(wave[..n]) + multiset{wave[n]}
  {
    assert wave[n..][0] == wave[n] && wave[n..] == [wave[n]] + wave[n + 1..];
    assert wave[..n + 1] == wave[..n] + [wave[n]];
    assert forall i :: n < i < |wave| ==> wave[i] != wave[n];
  }

  lemma HearsVote(p: Proc, wave: seq<PeerId>, z: nat, n: nat)
    requires p.s.phase == Listening && |wave| == p.s.params.k && Distinct(wave) && n + 1 < |wave|
    ensures var h, e := Heard(p, wave, z, n), Voting(p, wave, z, n);
            Allowed(h.s, e) && Advance(h, e) == Heard(p, wave, z, n + 1)
  {
    TailSet(wave, n);
    assert p.h.counted + multiset(wave[..n]) + multiset{wave[n]} == p.h.counted + multiset(wave[..n + 1]);
    assert Votes(z, n) + [VoteAt(z, n)] == Votes(z, n + 1);
    assert p.h.votes + Votes(z, n) + [VoteAt(z, n)] == p.h.votes + Votes(z, n + 1);
  }

  lemma {:induction false} HearsVotes(p: Proc, wave: seq<PeerId>, z: nat, n: nat, pool: iset<Packet>)
    requires FreshRound(p, wave) && n < |wave|
    requires forall i :: 0 <= i < n ==> VoteOffered(p, wave, z, i, pool)
    ensures Leads(p, Heard(p, wave, z, n), pool)
  {
    if n == 0 {
      assert wave[0..] == wave && p.h.counted + multiset(wave[..0]) == p.h.counted;
      assert p.h.votes + Votes(z, 0) == p.h.votes;
      LeadsNowhere(p, pool);
    } else {
      HearsVotes(p, wave, z, n - 1, pool);
      HearsVote(p, wave, z, n - 1);
      var h := Heard(p, wave, z, n - 1);
      assert VoteOffered(p, wave, z, n - 1, pool);
      LeadsStep(h, Voting(p, wave, z, n - 1), pool);
      LeadsOn(p, h, Heard(p, wave, z, n), pool);
    }
  }

  // ---------- Whole rounds ----------

  /** The outcome of a round with z zeroes. */
  function OutcomeWith(params: Params, z: nat): Outcome {
    OutcomeOf(BufferAt(z, params.k), params.alfa)
  }

  /** The sequence goes on with a fresh round of the same sample. */
  ghost predicate GoesOn(p: Proc, q: Proc, wave: seq<PeerId>) {
    && FreshRound(q, wave) && q.h.decided == p.h.decided && q.s.seqNum == p.s.seqNum
    && q.h.replacements == p.h.replacements
  }

  /** The sequence is decided on these rounds, and this buffer was the last. */
  ghost predicate Settles(p: Proc, q: Proc, rounds: seq<Outcome>, buffer: Tally) {
    && q.s.phase == Idle && q.s.responseBuffer == buffer && q.s.seqNum == p.s.seqNum
    && q.h.extras == p.h.extras && q.h.replacements == p.h.replacements
    && |q.h.decided| == |p.h.decided| + 1 && q.h.decided[|p.h.decided|].rounds == rounds
  }

  /** The last vote of a round of z zeroes. */
  lemma LastVote(p: Proc, wave: seq<PeerId>, z: nat)
    requires FreshRound(p, wave) && |wave| >= 1 && Inv(Heard(p, wave, z, |wave| - 1))
    ensures var n := |wave| - 1;
            var h, e := Heard(p, wave, z, n), Voting(p, wave, z, n);
            && Allowed(h.s, e) && Closes(h.s, e) && Started(h.s) && Decidable(h.s)
            && OutcomeBy(h.s, e) == OutcomeWith(p.s.params, z)
            && CountVote(h.s, e.sender, e.vote).responseBuffer == BufferAt(z, |wave|)
            && CountVote(h.s, e.sender, e.vote).waiting == {}
  {
    hide Inv;
    OpenIsDecidable(Heard(p, wave, z, |wave| - 1));
    LastBufferOf(p, wave, z);
    hide Decidable, Started, CountVote;
  }

  lemma LastBufferOf(p: Proc, wave: seq<PeerId>, z: nat)
    requires p.s.phase == Listening && FreshWave(p.s, wave) && |wave| >= 1
    ensures var n := |wave| - 1;
            var h := Heard(p, wave, z, n);
            var c := CountVote(h.s, wave[n], VoteAt(z, n));
            c.responseBuffer == BufferAt(z, |wave|) && c.waiting == {} && Completes(h.s, wave[n], VoteAt(z, n))
  {
    TailSet(wave, |wave| - 1);
  }

  lemma AfterLastVote(h: Proc, e: Event, wave: seq<PeerId>)
    requires e.Deliver? && Started(h.s) && Decidable(h.s) && CountVote(h.s, e.sender, e.vote).waiting == {}
    requires h.s.phase == Listening && FreshWave(h.s, wave)
    ensures var q := Continuing(h, e.sender, e.vote, wave);
            GoesOn(h, q, wave) && q.h.rounds == h.h.rounds + [OutcomeBy(h.s, e)]
            && q.s.decisionMap[h.s.seqNum] == Closing(h.s, e.sender, e.vote).pref
    ensures var q := Concluding(h, e.sender, e.vote);
            && Settles(h, q, h.h.rounds + [OutcomeBy(h.s, e)], CountVote(h.s, e.sender, e.vote).responseBuffer)
            && q.h.decided[|h.h.decided|].color == q.s.decisionMap[h.s.seqNum] == Closing(h.s, e.sender, e.vote).pref
  {
    assert Continuing(h, e.sender, e.vote, wave).s.waiting == ToSet(wave);
  }

  /** A whole round of z zeroes, from its start to the decision or to the start of the next round. */
  lemma RoundHappens(p: Proc, wave: seq<PeerId>, z: nat, pool: iset<Packet>) returns (q: Proc)
    requires Inv(p) && FreshRound(p, wave)
    requires forall i :: 0 <= i < |wave| ==> VoteOffered(p, wave, z, i, pool)
    ensures Leads(p, q, pool)
    ensures var rounds := p.h.rounds + [OutcomeWith(p.s.params, z)];
            if Decides(rounds, p.s.params.beta) then Settles(p, q, rounds, BufferAt(z, p.s.params.k))
            else GoesOn(p, q, wave) && q.h.rounds == rounds
  {
    hide *;
    SampleNotEmpty(p, wave);
    var n := |wave| - 1;
    HearsVotes(p, wave, z, n, pool);
    var h, e := Heard(p, wave, z, n), Voting(p, wave, z, n);
    LeadsKeeps(p, h, pool);
    RoundSettles(p, h, e, wave, z, pool);
    q := Advance(h, e);
    LeadsStep(h, e, pool);
    LeadsOn(p, h, q, pool);
  }

  lemma SampleNotEmpty(p: Proc, wave: seq<PeerId>)
    requires Inv(p) && FreshRound(p, wave)
    ensures |wave| == p.s.params.k >= 1 && p.s.params.beta >= 1 && p.s.params.Sound()
  {
  }

  lemma RoundSettles(p: Proc, h: Proc, e: Event, wave: seq<PeerId>, z: nat, pool: iset<Packet>)
    requires FreshRound(p, wave) && |wave| >= 1 && h == Heard(p, wave, z, |wave| - 1) && Inv(h)
    requires e == Voting(p, wave, z, |wave| - 1) && VoteOffered(p, wave, z, |wave| - 1, pool)
    ensures Allowed(h.s, e) && Runs(h.s, e) && Offered(h.s.id, e, pool)
    ensures var q, rounds := Advance(h, e), p.h.rounds + [OutcomeWith(p.s.params, z)];
            if Decides(rounds, p.s.params.beta) then Settles(p, q, rounds, BufferAt(z, p.s.params.k))
            else GoesOn(p, q, wave) && q.h.rounds == rounds
  {
    LastVote(p, wave, z);
    RoundDecidesExactly(h, e);
    AfterLastVote(h, e, wave);
    hide Inv, Decides, Advance, Continuing, Concluding, CountVote, OutcomeBy, OutcomeWith, Decidable, Started, Closes, Allowed;
  }

  // ---------- Whole histories ----------

  /** A number of zeroes that gives a round this outcome. */
  function ZeroesFor(params: Params, o: Outcome): nat {
    match o
    case Majority(KO) => params.k
    case Majority(OK) => 0
    case NoMajority => if params.alfa == 0 then 0 else params.alfa - 1
  }

  /** Outcomes that rounds can have with these settings. */
  predicate Possible(params: Params, o: Outcome) {
    o.NoMajority? ==> params.k <= 2 * params.alfa - 2
  }

  lemma OutcomesHappen(params: Params, o: Outcome)
    requires params.Sound() && Possible(params, o)
    ensures OutcomeWith(params, ZeroesFor(params, o)) == o
  {
  }

  /** Every vote that this history takes from this sample is in the pool. */
  predicate HistoryOffered(p: Proc, wave: seq<PeerId>, rounds: seq<Outcome>, pool: iset<Packet>) {
    forall o, i :: o in rounds && 0 <= i < |wave| ==> VoteOffered(p, wave, ZeroesFor(p.s.params, o), i, pool)
  }

  lemma {:induction false} RoundsHappen(p: Proc, wave: seq<PeerId>, rounds: seq<Outcome>, n: nat, pool: iset<Packet>)
    returns (q: Proc)
    requires Inv(p) && FreshRound(p, wave) && p.h.rounds == []
    requires FirstDecision(rounds, p.s.params.beta) && HistoryOffered(p, wave, rounds, pool)
    requires forall o :: o in rounds ==> Possible(p.s.params, o)
    requires n < |rounds|
    ensures Leads(p, q, pool) && GoesOn(p, q, wave) && q.h.rounds == rounds[..n]
  {
    hide *;
    if n == 0 {
      q := p;
      LeadsNowhere(p, pool);
      StaysThere(p, wave);
    } else {
      var r := RoundsHappen(p, wave, rounds, n - 1, pool);
      q := NextRoundHappens(p, r, wave, rounds, n - 1, pool);
    }
  }

  lemma StaysThere(p: Proc, wave: seq<PeerId>)
    requires FreshRound(p, wave)
    ensures GoesOn(p, p, wave)
  {
  }

  /** One more round of the history, which is the decision if it is the last. */
  lemma NextRoundHappens(p: Proc, r: Proc, wave: seq<PeerId>, rounds: seq<Outcome>, n: nat, pool: iset<Packet>)
    returns (q: Proc)
    requires Inv(p) && FirstDecision(rounds, p.s.params.beta) && HistoryOffered(p, wave, rounds, pool)
    requires forall o :: o in rounds ==> Possible(p.s.params, o)
    requires n < |rounds| && Leads(p, r, pool) && GoesOn(p, r, wave) && r.h.rounds == rounds[..n]
    ensures Leads(p, q, pool)
    ensures if n + 1 < |rounds| then GoesOn(p, q, wave) && q.h.rounds == rounds[..n + 1]
            else Settles(r, q, rounds, BufferAt(ZeroesFor(p.s.params, rounds[n]), p.s.params.k))
  {
    LeadsKeeps(p, r, pool);
    NextRoundOffered(p, r, wave, rounds, n, pool);
    hide *;
    var z := ZeroesFor(p.s.params, rounds[n]);
    q := RoundHappens(r, wave, z, pool);
    LeadsOn(p, r, q, pool);
    GoesOnFurther(p, r, q, wave);
  }

  lemma GoesOnFurther(p: Proc, r: Proc, q: Proc, wave: seq<PeerId>)
    requires GoesOn(p, r, wave)
    ensures GoesOn(r, q, wave) ==> GoesOn(p, q, wave)
  {
  }

  lemma NextRoundOffered(p: Proc, r: Proc, wave: seq<PeerId>, rounds: seq<Outcome>, n: nat, pool: iset<Packet>)
    requires n < |rounds| && Possible(p.s.params, rounds[n])
    requires Inv(r) && SameIdentity(p.s, r.s) && GoesOn(p, r, wave) && r.h.rounds == rounds[..n]
    requires HistoryOffered(p, wave, rounds, pool) && FirstDecision(rounds, p.s.params.beta)
    ensures var z := ZeroesFor(p.s.params, rounds[n]);
            && (forall i :: 0 <= i < |wave| ==> VoteOffered(r, wave, z, i, pool))
            && r.h.rounds + [OutcomeWith(p.s.params, z)] == rounds[..n + 1]
    ensures Decides(rounds[..n + 1], p.s.params.beta) <==> n + 1 == |rounds|
    ensures FreshRound(r, wave) && rounds[..|rounds|] == rounds && p.s.params == r.s.params
  {
    hide Inv, FreshRound;
    SampleNotEmpty(r, wave);
    var z := ZeroesFor(p.s.params, rounds[n]);
    assert rounds[n] in rounds;
    forall i | 0 <= i < |wave|
      ensures VoteOffered(r, wave, z, i, pool)
    {
      assert VoteOffered(p, wave, z, i, pool);
    }
    OutcomesHappen(p.s.params, rounds[n]);
    assert rounds[..|rounds|] == rounds;
  }

  /** The buffer after the last round of a history. */
  function LastBuffer(params: Params, rounds: seq<Outcome>): Tally {
    BufferAt(if rounds == [] then 0 else ZeroesFor(params, rounds[|rounds| - 1]), params.k)
  }

  /** Every history that first decides at its end is one a node can be led through. */
  lemma HistoryHappens(p: Proc, wave: seq<PeerId>, rounds: seq<Outcome>, pool: iset<Packet>) returns (q: Proc)
    requires forall o :: o in rounds ==> Possible(p.s.params, o)
    requires Inv(p) && FreshRound(p, wave) && p.h.rounds == []
    requires FirstDecision(rounds, p.s.params.beta) && HistoryOffered(p, wave, rounds, pool)
    ensures Leads(p, q, pool) && Settles(p, q, rounds, LastBuffer(p.s.params, rounds))
  {
    hide *;
    SampleNotEmpty(p, wave);
    FirstDecisionIsOpenBefore(rounds, p.s.params.beta);
    var r := RoundsHappen(p, wave, rounds, |rounds| - 1, pool);
    q := NextRoundHappens(p, r, wave, rounds, |rounds| - 1, pool);
    SettlesFrom(p, r, q, wave, rounds, BufferAt(ZeroesFor(p.s.params, rounds[|rounds| - 1]), p.s.params.k));
    assert Settles(p, q, rounds, LastBuffer(p.s.params, rounds)) by {
      LastBufferIs(p.s.params, rounds);
    }
  }

  lemma LastBufferIs(params: Params, rounds: seq<Outcome>)
    requires rounds != []
    ensures LastBuffer(params, rounds) == BufferAt(ZeroesFor(params, rounds[|rounds| - 1]), params.k)
  {
  }

  lemma SettlesFrom(p: Proc, r: Proc, q: Proc, wave: seq<PeerId>, rounds: seq<Outcome>, buffer: Tally)
    requires FreshRound(p, wave) && GoesOn(p, r, wave) && Settles(r, q, rounds, buffer)
    ensures Settles(p, q, rounds, buffer)
  {
  }
}
