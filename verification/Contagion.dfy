/**
 * How far wrong votes spread in a network that starts from one list of members and one
 * configuration, and whose members do not change. Bounding the zero votes of a round by wrong voters
 * plus replacements is right only while no honest node holds a KO: this is settled exactly by how
 * many wrong voters there are.
 */
module Contagion {
  import opened SnowballTypes
  import opened RoundTally
  import opened NodeSpec
  import opened NodeRuns
  import opened NodeTheorems
  import opened Network
  import opened Sampling
  import opened Scenarios

  // ---------- Runs from one common start ----------

  datatype Setup = Setup(params: Params, ids: seq<PeerId>, headNum: nat, headId: BlockId)
  {
    predicate Sound() {
      params.Sound() && Distinct(ids) && params.k <= |ids| - 1
    }
  }

  function Starting(g: Setup, n: PeerId): Proc
    requires n in g.ids
  {
    Boot(g.params, g.ids, n, g.headNum, g.headId)
  }

  function Start(g: Setup): Net {
    map n | n in g.ids :: Starting(g, n)
  }

  /** The members that force their votes. */
  function Wrong(g: Setup): set<PeerId> {
    set n | n in g.ids && Forced(Starting(g, n).s)
  }

  predicate Steady(a: Act) {
    !a.event.Connect? && !a.event.Disconnect?
  }

  ghost predicate RunOf(g: Setup, run: seq<Net>, acts: seq<Act>) {
    IsRun(run, acts) && run[0] == Start(g) && forall i :: 0 <= i < |acts| ==> Steady(acts[i])
  }

  /** Some run ends here; so this speaks of every state of every run. */
  ghost predicate Reached(g: Setup, net: Net) {
    exists run, acts :: EndsIn(g, run, acts, net)
  }

  ghost predicate EndsIn(g: Setup, run: seq<Net>, acts: seq<Act>, net: Net) {
    RunOf(g, run, acts) && run[|acts|] == net
  }

  lemma StartIsReached(g: Setup)
    requires g.Sound()
    ensures Reached(g, Start(g))
  {
    forall n | n in g.ids
      ensures Booted(Starting(g, n), n)
    {
    }
    hide Booted, Starting;
    assert EndsIn(g, [Start(g)], [], Start(g));
  }

  lemma RunExtends(run: seq<Net>, acts: seq<Act>, a: Act, next: Net)
    requires IsRun(run, acts) && Moves(run[|acts|], a, next)
    ensures IsRun(run + [next], acts + [a])
  {
    hide Moves, Genesis;
    var r, c := run + [next], acts + [a];
    forall i | 0 <= i < |c|
      ensures Moves(r[i], c[i], r[i + 1])
    {
      if i < |acts| {
        assert Moves(run[i], acts[i], run[i + 1]);
      }
    }
  }

  lemma ReachedNext(g: Setup, net: Net, a: Act, next: Net)
    requires Reached(g, net) && Moves(net, a, next) && Steady(a)
    ensures Reached(g, next)
  {
    hide Moves, Genesis, Start;
    var run, acts :| EndsIn(g, run, acts, net);
    RunExtends(run, acts, a, next);
    assert EndsIn(g, run + [next], acts + [a], next);
  }

  /** The roles of the members are those of the start, in every state of a run. */
  ghost predicate SameRoles(g: Setup, net: Net) {
    net.Keys == Start(g).Keys && forall n :: n in net ==> SameIdentity(Starting(g, n).s, net[n].s)
  }

  lemma {:induction false} RolesStay(g: Setup, run: seq<Net>, acts: seq<Act>, i: nat)
    requires RunOf(g, run, acts) && i < |run|
    ensures SameRoles(g, run[i])
  {
    hide Moves, SameRoles, Steady, Genesis;
    if i == 0 {
      RolesStart(g);
    } else {
      RolesStay(g, run, acts, i - 1);
      assert Moves(run[i - 1], acts[i - 1], run[i]) && Steady(acts[i - 1]);
      RolesStep(g, run[i - 1], acts[i - 1], run[i]);
    }
  }

  lemma RolesStart(g: Setup)
    ensures SameRoles(g, Start(g))
  {
  }

  lemma RolesStep(g: Setup, net: Net, a: Act, next: Net)
    requires SameRoles(g, net) && Moves(net, a, next) && Steady(a)
    ensures SameRoles(g, next)
  {
    hide GoodDraws, Fits, Step, Record, Starting;
    StepKeepsIdentity(net[a.node].s, a.event);
  }

  lemma ReachedInv(g: Setup, net: Net)
    requires Reached(g, net)
    ensures NetInv(net) && SameRoles(g, net)
  {
    var run, acts :| EndsIn(g, run, acts, net);
    RunKeepsNetInv(run, acts, |acts|);
    RolesStay(g, run, acts, |acts|);
  }

  /** What a reached network says of one of its nodes. */
  lemma ReachedNode(g: Setup, net: Net, n: PeerId)
    requires Reached(g, net) && n in net
    ensures Inv(net[n]) && net[n].s.id == n && n in g.ids && MembersOk(net[n].s)
    ensures net[n].s.params == g.params && net[n].s.memberIds == g.ids && g.params.k <= |g.ids| - 1
    ensures net.Keys == ToSet(g.ids) && (Forced(net[n].s) <==> n in Wrong(g))
  {
    ReachedInv(g, net);
    assert Sane(net[n], n) && ConfigInv(net[n].s);
    hide Inv, NetInv;
  }

  lemma ForcedAreWrong(g: Setup, net: Net, n: PeerId)
    requires SameRoles(g, net) && n in net
    ensures n in g.ids && (Forced(net[n].s) <==> n in Wrong(g))
  {
  }

  /** Votes are forced in the wrong-vote mode only, by the members at the listed positions. */
  lemma WrongExactly(g: Setup)
    requires Distinct(g.ids)
    ensures !g.params.byzantine ==> Wrong(g) == {}
    ensures g.params.byzantine ==> Wrong(g) == set i | 0 <= i < |g.ids| && i in g.params.wrongIdx :: g.ids[i]
  {
    forall i | 0 <= i < |g.ids|
      ensures PositionOf(g.ids, g.ids[i]) == i
    {
      PositionIs(g.ids, i);
    }
    if g.params.byzantine {
      forall n
        ensures n in Wrong(g) <==> n in set i | 0 <= i < |g.ids| && i in g.params.wrongIdx :: g.ids[i]
      {
        if n in g.ids {
          assert g.ids[PositionOf(g.ids, n)] == n;
        }
      }
    }
  }

  lemma PositionIs(ids: seq<PeerId>, i: nat)
    requires Distinct(ids) && i < |ids|
    ensures PositionOf(ids, ids[i]) == i
  {
  }

  lemma HonestAnswer(s: Node, e: Event)
    requires e.Deliver? && e.kind == Request && e.seqNum <= s.seqNum && e.seqNum in s.decisionMap && !Forced(s)
    ensures Step(s, e).sent
         == s.sent + [Packet(s.id, e.sender, Response, if s.decisionMap[e.seqNum] == OK then 1 else 0, s.seqNum)]
  {
  }

  /** With the mode off, every node of every run answers with the colour it holds. */
  lemma ModeOffIsHonest(g: Setup, net: Net, n: PeerId, e: Event)
    requires g.Sound() && !g.params.byzantine && Reached(g, net) && n in net
    requires Allowed(net[n].s, e) && e.Deliver? && e.kind == Request && e.seqNum <= net[n].s.seqNum
    requires e.seqNum in net[n].s.decisionMap
    ensures !Forced(net[n].s)
    ensures Step(net[n].s, e).sent
         == net[n].s.sent + [Packet(n, e.sender, Response, if net[n].s.decisionMap[e.seqNum] == OK then 1 else 0, net[n].s.seqNum)]
  {
    hide Inv, Reached, Wrong, Forced, MembersOk;
    WrongExactly(g);
    ReachedNode(g, net, n);
    HonestAnswer(net[n].s, e);
  }

  // ---------- What nodes are led to, many at once ----------

  /** All that was ever sent. */
  ghost function Sent(net: Net): iset<Packet> {
    iset m: Packet | m.src in net && m in net[m.src].s.sent
  }

  lemma PassSendsMore(s: Node, i: nat, wave: seq<PeerId>)
    requires i < 2 && Decidable(s)
    ensures s.sent <= PassIfMajority(s, i, wave).sent
  {
  }

  lemma RoundSendsMore(s: Node, first: seq<PeerId>, second: seq<PeerId>)
    requires Decidable(s)
    ensures s.sent <= ValuesReady(s, first, second).sent
  {
    PassSendsMore(s, 0, first);
    PassSendsMore(PassIfMajority(s, 0, first), 1, second);
    hide PassIfMajority;
  }

  lemma SendsMore(s: Node, e: Event)
    requires Runs(s, e)
    ensures s.sent <= Step(s, e).sent
  {
    if Closes(s, e) {
      RoundSendsMore(CountVote(s, e.sender, e.vote), e.wave, e.wave);
    }
    hide ValuesReady;
  }

  lemma SentKeeps(net: Net, n: PeerId, q: Proc)
    requires n in net && net[n].s.sent <= q.s.sent
    ensures Sent(net) <= Sent(net[n := q])
  {
  }

  lemma OneStep(g: Setup, net: Net, n: PeerId, e: Event)
    requires Reached(g, net) && n in net && net[n].s.id == n
    requires Allowed(net[n].s, e) && Offered(n, e, Sent(net))
    ensures var next := net[n := Advance(net[n], e)]; Reached(g, next) && Sent(net) <= Sent(next)
  {
    var next := net[n := Advance(net[n], e)];
    assert Moves(net, Act(n, e), next);
    ReachedNext(g, net, Act(n, e), next);
    SendsMore(net[n].s, e);
    hide Advance, Allowed;
    SentKeeps(net, n, Advance(net[n], e));
  }

  lemma {:induction false} ManySteps(g: Setup, net: Net, n: PeerId, es: seq<Event>, q: Proc, pool: iset<Packet>)
    requires Reached(g, net) && n in net && net[n].s.id == n
    requires pool <= Sent(net) && LeadsBy(net[n], es, q, pool)
    ensures Reached(g, net[n := q]) && pool <= Sent(net[n := q])
    decreases |es|
  {
    hide Reached, Sent, Fits, GoodDraws, Runs, Step, Record;
    if es == [] {
      assert net[n := q] == net;
    } else {
      var p, e := net[n], es[0];
      var next := net[n := Advance(p, e)];
      OneStep(g, net, n, e);
      StepKeepsIdentity(p.s, e);
      ManySteps(g, next, n, es[1..], q, pool);
      assert next[n := q] == net[n := q];
    }
  }

  lemma NodeMoves(g: Setup, net: Net, n: PeerId, q: Proc, pool: iset<Packet>)
    requires Reached(g, net) && n in net && pool <= Sent(net) && Leads(net[n], q, pool)
    ensures Reached(g, net[n := q]) && pool <= Sent(net[n := q])
  {
    ReachedInv(g, net);
    assert Sane(net[n], n);
    hide Reached, Sent, LeadsBy, Inv, NetInv, SameRoles;
    var es :| LeadsBy(net[n], es, q, pool);
    ManySteps(g, net, n, es, q, pool);
  }

  /** The nodes of a set are at the values of `goal`, the others as they were. */
  predicate MovedTo(net: Net, goal: Net, moved: set<PeerId>, next: Net) {
    && next.Keys == net.Keys == goal.Keys
    && forall n :: n in net ==> next[n] == if n in moved then goal[n] else net[n]
  }

  lemma {:induction false} SomeMove(g: Setup, net: Net, goal: Net, moved: set<PeerId>, pool: iset<Packet>) returns (next: Net)
    requires Reached(g, net) && goal.Keys == net.Keys && moved <= net.Keys && pool <= Sent(net)
    requires forall n :: n in moved ==> Leads(net[n], goal[n], pool)
    ensures Reached(g, next) && MovedTo(net, goal, moved, next) && pool <= Sent(next)
    decreases moved
  {
    hide Reached, Sent, Leads;
    next := net;
    if moved != {} {
      var n :| n in moved;
      next := SomeMove(g, net, goal, moved - {n}, pool);
      NodeMoves(g, next, n, goal[n], pool);
      next := next[n := goal[n]];
    }
  }

  /** Every node may move on, on messages sent so far. */
  lemma AllMove(g: Setup, net: Net, goal: Net)
    requires Reached(g, net) && goal.Keys == net.Keys
    requires forall n :: n in net ==> Leads(net[n], goal[n], Sent(net))
    ensures Reached(g, goal)
  {
    hide Reached, Sent, Leads;
    var next := SomeMove(g, net, goal, net.Keys, Sent(net));
    assert next == goal;
  }

  // ---------- Samples ----------

  /** A sample that begins with given members. */
  lemma {:induction false} SampleFrom(s: Node, must: seq<PeerId>) returns (wave: seq<PeerId>)
    requires MembersOk(s) && s.params.k <= |s.memberIds| - 1
    requires OtherMembers(s.memberIds, s.id, must) && |must| <= s.params.k
    ensures FreshWave(s, wave) && must <= wave
    decreases s.params.k - |must|
  {
    wave := must;
    if |must| < s.params.k {
      DistinctCard(must);
      var i := FreeMember(s.memberIds, ToSet(must), s.order);
      var p := s.memberIds[i];
      assert forall q :: q in must + [p] ==> q in s.memberIds && q != s.id;
      wave := SampleFrom(s, must + [p]);
    }
  }

  ghost predicate StartsWith(s: Node, must: seq<PeerId>, wave: seq<PeerId>) {
    FreshWave(s, wave) && must <= wave
  }

  /** Some sample of this node. */
  ghost function AnySample(s: Node): (wave: seq<PeerId>)
    requires exists wave :: StartsWith(s, [], wave)
  {
    var wave :| StartsWith(s, [], wave); wave
  }

  // ---------- Steps of the scenario ----------

  /** Has opened the first sequence, and answers requests about it with a zero. */
  ghost predicate SaysZero(p: Proc, s: nat) {
    p.s.seqNum == s && s in p.s.decisionMap && (Forced(p.s) || p.s.decisionMap[s] == KO)
  }

  function Asking(from: PeerId, s: nat): Event {
    Deliver(from, Request, 0, s, [], [])
  }

  /** After answering a request. */
  function Answered(p: Proc, from: PeerId, s: nat): Proc {
    p.(s := AnswerRequest(p.s, from, s))
  }

  lemma AnswersRequest(p: Proc, from: PeerId, s: nat, pool: iset<Packet>)
    requires Packet(from, p.s.id, Request, 0, s) in pool
    ensures Leads(p, Answered(p, from, s), pool)
  {
    LeadsStep(p, Asking(from, s), pool);
  }

  /** What an answer adds: a zero response, or a notice that the sequence is not open yet. */
  lemma AnswerSays(p: Proc, from: PeerId, s: nat)
    ensures SaysZero(p, s) ==>
              Packet(p.s.id, from, Response, 0, s) in Answered(p, from, s).s.sent && SaysZero(Answered(p, from, s), s)
    ensures p.s.seqNum < s ==> Packet(p.s.id, from, Unavailable, 0, s) in Answered(p, from, s).s.sent
  {
    var sent := Answered(p, from, s).s.sent;
    if SaysZero(p, s) || p.s.seqNum < s {
      assert sent[|sent| - 1] in sent;
    }
  }

  lemma AnswerKeepsDormant(p: Proc, from: PeerId, s: nat)
    requires Dormant(p)
    ensures Dormant(Answered(p, from, s))
  {
    var e := Asking(from, s);
    assert Advance(p, e) == Answered(p, from, s);
    StepKeepsInv(p, e);
    hide Inv;
  }

  // ---------- A node that one wrong voter fools ----------

  predicate ZeroOffered(p: Proc, wave: seq<PeerId>, j: nat, pool: iset<Packet>)
    requires j < |wave|
  {
    Packet(wave[j], p.s.id, Response, 0, p.s.seqNum) in pool
  }

  predicate RefusalOffered(p: Proc, wave: seq<PeerId>, j: nat, pool: iset<Packet>)
    requires j < |wave|
  {
    Packet(wave[j], p.s.id, Unavailable, 0, p.s.seqNum) in pool
  }

  lemma StillOffered(p: Proc, q: Proc, wave: seq<PeerId>, pool: iset<Packet>)
    requires q.s.id == p.s.id && q.s.seqNum == p.s.seqNum
    ensures forall j :: 0 <= j < |wave| ==>
              (ZeroOffered(q, wave, j, pool) <==> ZeroOffered(p, wave, j, pool))
              && (RefusalOffered(q, wave, j, pool) <==> RefusalOffered(p, wave, j, pool))
  {
  }

  /** i zeroes counted, the rest of the sample awaited, no round finished; r slots were swapped. */
  ghost predicate Fooling(p: Proc, wave: seq<PeerId>, i: nat, r: nat) {
    && p.s.phase == Listening && FreshWave(p.s, wave) && i <= |wave|
    && p.s.waiting == ToSet(wave[i..]) && p.s.responseBuffer == Tally(i, 0)
    && p.h.rounds == [] && p.h.decided == [] && |p.h.extras| == p.h.replacements == r
  }

  /** The next awaited peer has been swapped for the first of the sample. */
  ghost predicate Swapped(p: Proc, wave: seq<PeerId>, i: nat, r: nat) {
    && p.s.phase == Listening && FreshWave(p.s, wave) && i < |wave|
    && p.s.waiting == ToSet(wave[i + 1..]) + {wave[0]} && wave[0] !in wave[i + 1..]
    && p.s.responseBuffer == Tally(i, 0)
    && p.h.rounds == [] && p.h.decided == [] && |p.h.extras| == p.h.replacements == r
  }

  lemma SwapsOne(p: Proc, wave: seq<PeerId>, i: nat, r: nat, pool: iset<Packet>) returns (q: Proc)
    requires Fooling(p, wave, i, r) && 1 <= i < |wave|
    requires RefusalOffered(p, wave, i, pool)
    ensures Leads(p, q, pool) && Swapped(q, wave, i, r + 1) && q.s.seqNum == p.s.seqNum && q.s.id == p.s.id
  {
    var e := Deliver(wave[i], Unavailable, 0, p.s.seqNum, wave[0], []);
    TailSet(wave, i);
    assert forall j :: i <= j < |wave| ==> wave[j] != wave[0];
    assert ToSet([wave[0]]) == {wave[0]};
    assert wave[0] in wave && wave[0] !in ToSet(wave[i..]);
    assert FreshExtras(p.s.(waiting := p.s.waiting - {wave[i]}), [wave[0]]);
    q := Advance(p, e);
    LeadsStep(p, e, pool);
  }

  lemma FoolsOne(p: Proc, wave: seq<PeerId>, i: nat, r: nat, pool: iset<Packet>) returns (q: Proc)
    requires Swapped(p, wave, i, r) && i + 1 < |wave|
    requires ZeroOffered(p, wave, 0, pool)
    ensures Leads(p, q, pool) && Fooling(q, wave, i + 1, r) && q.s.seqNum == p.s.seqNum && q.s.id == p.s.id
  {
    var e := Deliver(wave[0], Response, 0, p.s.seqNum, [], wave);
    q := Advance(p, e);
    LeadsStep(p, e, pool);
  }

  /** Holds a KO after r swaps; with one round to a decision, it has failed the block. */
  ghost predicate Fooled(p: Proc, s: nat, r: int) {
    && p.s.seqNum == s && s in p.s.decisionMap && p.s.decisionMap[s] == KO && p.h.replacements == r
    && (p.s.params.beta == 1 ==> FailedOnce(p, r))
  }

  /** The block was failed, in the only sequence so far. */
  predicate FailedOnce(p: Proc, extras: int) {
    |p.h.extras| == extras && |p.h.decided| == 1 && p.h.decided[0].color == KO
  }

  lemma LastZero(p: Proc, wave: seq<PeerId>, r: nat, pool: iset<Packet>) returns (q: Proc)
    requires Inv(p) && wave != [] && Swapped(p, wave, |wave| - 1, r)
    requires ZeroOffered(p, wave, 0, pool)
    ensures Leads(p, q, pool) && Fooled(q, p.s.seqNum, r)
  {
    var e := Deliver(wave[0], Response, 0, p.s.seqNum, [], wave);
    LastZeroFools(p, wave, r);
    q := Advance(p, e);
    assert Offered(p.s.id, e, pool);
    hide Inv, Fooled, Swapped, Allowed;
    LeadsStep(p, e, pool);
  }

  lemma LastZeroFools(p: Proc, wave: seq<PeerId>, r: nat)
    requires Inv(p) && wave != [] && Swapped(p, wave, |wave| - 1, r)
    ensures var e := Deliver(wave[0], Response, 0, p.s.seqNum, [], wave);
            Allowed(p.s, e) && Fooled(Advance(p, e), p.s.seqNum, r)
  {
    var e := Deliver(wave[0], Response, 0, p.s.seqNum, [], wave);
    LastZeroCloses(p, wave, r);
    OneZeroRound(p.s.params.beta);
    assert [] + [Majority(KO)] == [Majority(KO)];
    hide Inv, Closing, Continuing, Concluding, CountVote, Advance, Allowed, OutcomeBy, Swapped, Replay, Decides, Closes;
    AfterLastVote(p, e, wave);
    RoundDecidesExactly(p, e);
  }

  lemma LastZeroCloses(p: Proc, wave: seq<PeerId>, r: nat)
    requires Inv(p) && wave != [] && Swapped(p, wave, |wave| - 1, r)
    ensures var e := Deliver(wave[0], Response, 0, p.s.seqNum, [], wave);
            && Allowed(p.s, e) && Closes(p.s, e) && Started(p.s) && Decidable(p.s) && OutcomeBy(p.s, e) == Majority(KO)
            && CountVote(p.s, wave[0], 0).waiting == {} && p.s.phase == Listening && FreshWave(p.s, wave)
            && Closing(p.s, wave[0], 0) == Replay([] + [Majority(KO)])
            && p.h.rounds == [] && p.h.decided == [] && |p.h.extras| == p.h.replacements == r
  {
    assert TallyInv(p) && p.s.params.Sound();
    hide Inv;
    OpenIsDecidable(p);
    assert wave[|wave|..] == [] && p.s.waiting == {wave[0]};
    ClosingReplays(p, wave[0], 0);
    hide Replay, Decides, Open, FirstDecision;
  }

  lemma OneZeroRound(beta: nat)
    ensures Replay([Majority(KO)]).pref == KO
    ensures beta == 1 ==> Decides([Majority(KO)], beta)
  {
    assert [Majority(KO)][..0] == [];
    assert SuffixOf([Majority(KO)], 1, KO);
  }

  lemma {:induction false} FoolsAll(p: Proc, wave: seq<PeerId>, i: nat, r: nat, s: nat, pool: iset<Packet>) returns (q: Proc)
    requires Inv(p) && Fooling(p, wave, i, r) && 1 <= i < |wave| && p.s.seqNum == s && ZeroOffered(p, wave, 0, pool)
    requires forall j :: i <= j < |wave| ==> RefusalOffered(p, wave, j, pool)
    ensures Leads(p, q, pool) && Fooled(q, s, r + |wave| - i)
    decreases |wave| - i
  {
    hide *;
    var p1 := SwapsOne(p, wave, i, r, pool);
    LeadsKeeps(p, p1, pool);
    StillOffered(p, p1, wave, pool);
    if i + 1 < |wave| {
      var p2 := FoolsOne(p1, wave, i, r + 1, pool);
      LeadsOn(p, p1, p2, pool);
      LeadsKeeps(p, p2, pool);
      StillOffered(p, p2, wave, pool);
      q := FoolsAll(p2, wave, i + 1, r + 1, s, pool);
      LeadsOn(p, p2, q, pool);
    } else {
      q := LastZero(p1, wave, r + 1, pool);
      LeadsOn(p, p1, q, pool);
    }
  }

  lemma ZeroesAreVotes(p: Proc, wave: seq<PeerId>, n: nat, pool: iset<Packet>)
    requires n <= |wave| && forall j :: 0 <= j < n ==> ZeroOffered(p, wave, j, pool)
    ensures forall j :: 0 <= j < n ==> VoteOffered(p, wave, n, j, pool)
  {
    forall j | 0 <= j < n
      ensures VoteOffered(p, wave, n, j, pool)
    {
      assert ZeroOffered(p, wave, j, pool);
    }
  }

  lemma FoolingStarts(before: Proc, p: Proc, wave: seq<PeerId>, m: nat, pool: iset<Packet>)
    requires 1 <= m < |wave|
    requires forall j :: 0 <= j < m ==> ZeroOffered(p, wave, j, pool)
    requires Opening(before, p, wave)
    ensures var h := Heard(p, wave, m, m);
            Leads(p, h, pool) && Fooling(h, wave, m, 0) && h.s.seqNum == p.s.seqNum && h.s.id == p.s.id
    ensures Inv(p)
  {
    hide Inv, Leads;
    ZeroesAreVotes(p, wave, m, pool);
    HearsVotes(p, wave, m, m, pool);
  }

  /** Zeroes from the first m of the sample, and from its first member again for each of the others. */
  lemma IsFooled(before: Proc, p: Proc, wave: seq<PeerId>, m: nat, pool: iset<Packet>) returns (q: Proc)
    requires 1 <= m < |wave|
    requires forall j :: 0 <= j < m ==> ZeroOffered(p, wave, j, pool)
    requires forall j :: m <= j < |wave| ==> RefusalOffered(p, wave, j, pool)
    requires Opening(before, p, wave)
    ensures Leads(p, q, pool) && Fooled(q, p.s.seqNum, |wave| - m)
  {
    hide *;
    var h := Heard(p, wave, m, m);
    FoolingStarts(before, p, wave, m, pool);
    LeadsKeeps(p, h, pool);
    StillOffered(p, h, wave, pool);
    q := FoolsAll(h, wave, m, 0, p.s.seqNum, pool);
    LeadsOn(p, h, q, pool);
  }

  // ---------- A node that counts one zero too many ----------

  /** Zeroes from the first n of the sample: they all stand in the buffer, no peer was swapped. */
  ghost predicate Counted(q: Proc, n: nat) {
    q.s.responseBuffer.ko == n && q.h.extras == [] && q.h.replacements == 0
  }

  lemma CountsZeroes(before: Proc, p: Proc, wave: seq<PeerId>, n: nat, pool: iset<Packet>) returns (q: Proc)
    requires n <= |wave|
    requires forall j :: 0 <= j < n ==> ZeroOffered(p, wave, j, pool)
    requires Opening(before, p, wave)
    ensures Leads(p, q, pool) && Counted(q, n) && (n == |wave| ==> FailedOnce(q, 0))
  {
    hide *;
    if n < |wave| {
      q := CountsSome(before, p, wave, n, pool);
    } else {
      q := FailsBlock(before, p, wave, pool);
    }
  }

  lemma CountsSome(before: Proc, p: Proc, wave: seq<PeerId>, n: nat, pool: iset<Packet>) returns (q: Proc)
    requires n < |wave|
    requires forall j :: 0 <= j < n ==> ZeroOffered(p, wave, j, pool)
    requires Opening(before, p, wave)
    ensures Leads(p, q, pool) && Counted(q, n)
  {
    hide Inv, Leads;
    ZeroesAreVotes(p, wave, n, pool);
    HearsVotes(p, wave, n, n, pool);
    q := Heard(p, wave, n, n);
  }

  lemma FailsBlock(before: Proc, p: Proc, wave: seq<PeerId>, pool: iset<Packet>) returns (q: Proc)
    requires forall j :: 0 <= j < |wave| ==> ZeroOffered(p, wave, j, pool)
    requires Opening(before, p, wave)
    ensures Leads(p, q, pool) && Counted(q, |wave|) && FailedOnce(q, 0)
  {
    hide *;
    var rounds := Repeat(KO, p.s.params.beta);
    OpeningIs(before, p, wave);
    SampleNotEmpty(p, wave);
    ZeroHistory(p.s.params);
    ZeroesOffered(p, wave, pool);
    q := HistoryHappens(p, wave, rounds, pool);
    LeadsKeeps(p, q, pool);
    FailedByZeroes(p, q, p.s.params.beta, |wave|);
  }

  lemma OpeningIs(before: Proc, p: Proc, wave: seq<PeerId>)
    requires Opening(before, p, wave)
    ensures Inv(p) && FreshRound(p, wave) && p.s.params.Sound()
    ensures p.h.rounds == [] && p.h.decided == [] && p.h.extras == [] && p.h.replacements == 0
  {
  }

  lemma ZeroesOffered(p: Proc, wave: seq<PeerId>, pool: iset<Packet>)
    requires |wave| == p.s.params.k && forall j :: 0 <= j < |wave| ==> ZeroOffered(p, wave, j, pool)
    ensures HistoryOffered(p, wave, Repeat(KO, p.s.params.beta), pool)
  {
    ZeroesAreVotes(p, wave, |wave|, pool);
  }

  lemma ZeroHistory(params: Params)
    requires params.Sound()
    ensures var rounds := Repeat(KO, params.beta);
            && FirstDecision(rounds, params.beta) && LastBuffer(params, rounds) == Tally(params.k, 0)
            && forall o :: o in rounds ==> Possible(params, o)
  {
    var rounds := Repeat(KO, params.beta);
    assert Open([], params.beta);
    UnanimousTail([], params.beta, KO);
    assert [] + rounds == rounds;
  }

  lemma FailedByZeroes(p: Proc, q: Proc, beta: nat, n: nat)
    requires p.h.decided == [] && p.h.extras == [] && p.h.replacements == 0 && beta >= 1
    requires Inv(q) && Settles(p, q, Repeat(KO, beta), Tally(n, 0))
    ensures Counted(q, n) && FailedOnce(q, 0)
  {
    assert DecisionInv(q);
    hide Inv;
    ZeroesPrefer(beta);
    hide Repeat, Replay, Decides, FirstDecision;
  }

  lemma ZeroesPrefer(beta: nat)
    requires beta >= 1
    ensures Replay(Repeat(KO, beta)).pref == KO
  {
    CountRepeat([], KO, beta);
    assert [] + Repeat(KO, beta) == Repeat(KO, beta);
    ReplayRefines(Repeat(KO, beta));
  }

  // ---------- The scenario ----------

  /** Has opened nothing, and would open sequence s. */
  ghost predicate Asleep(p: Proc, s: nat) {
    Dormant(p) && p.s.seqNum + 1 == s
  }

  function FirstSeq(g: Setup): nat {
    g.headNum + 2
  }

  lemma StartsAsleep(g: Setup, n: PeerId)
    requires g.Sound() && n in g.ids
    ensures Asleep(Starting(g, n), FirstSeq(g))
    ensures exists wave :: StartsWith(Starting(g, n).s, [], wave)
  {
    hide Inv;
    BootInv(g.params, g.ids, n, g.headNum, g.headId);
    var p := Starting(g, n);
    assert Dormant(p);
    hide Dormant, OtherMembers, FreshWave;
    NobodyElse(p.s);
    var wave := SampleFrom(p.s, []);
    assert StartsWith(p.s, [], wave);
  }

  lemma NobodyElse(s: Node)
    ensures OtherMembers(s.memberIds, s.id, [])
  {
  }

  lemma OpenedSaysZero(before: Proc, p: Proc, wave: seq<PeerId>)
    requires Opening(before, p, wave) && Forced(before.s)
    ensures SaysZero(p, before.s.seqNum + 1)
  {
    hide Inv, FreshRound;
  }

  ghost function VoterOpened(g: Setup, n: PeerId): Proc
    requires g.Sound() && n in g.ids
  {
    StartsAsleep(g, n);
    OpenedWith(Starting(g, n), AnySample(Starting(g, n).s))
  }

  lemma VoterOpens(g: Setup, n: PeerId, pool: iset<Packet>)
    requires g.Sound() && n in g.ids
    ensures Leads(Starting(g, n), VoterOpened(g, n), pool)
    ensures n in Wrong(g) ==> SaysZero(VoterOpened(g, n), FirstSeq(g))
  {
    hide Inv, Dormant, FreshWave, Opening, OpenedWith, Leads, SaysZero;
    StartsAsleep(g, n);
    var p, wave := Starting(g, n), AnySample(Starting(g, n).s);
    OpensSequence(p, wave, pool);
    if n in Wrong(g) {
      OpenedSaysZero(p, VoterOpened(g, n), wave);
    }
  }

  /** The wrong voters have opened the first sequence, the others have not. */
  ghost predicate VotersReady(g: Setup, net: Net) {
    && net.Keys == Start(g).Keys
    && (forall n :: n in Wrong(g) ==> n in net && SaysZero(net[n], FirstSeq(g)))
    && forall n :: n in net && n !in Wrong(g) ==> Asleep(net[n], FirstSeq(g))
  }

  lemma WrongAreMembers(g: Setup)
    ensures forall n :: n in Wrong(g) ==> n in g.ids
    ensures Start(g).Keys == ToSet(g.ids)
  {
  }

  ghost function VoterTarget(g: Setup, n: PeerId): Proc
    requires g.Sound() && n in g.ids
  {
    if n in Wrong(g) then VoterOpened(g, n) else Starting(g, n)
  }

  lemma VoterMoves(g: Setup, n: PeerId, pool: iset<Packet>)
    requires g.Sound() && n in g.ids
    ensures Leads(Starting(g, n), VoterTarget(g, n), pool)
    ensures if n in Wrong(g) then SaysZero(VoterTarget(g, n), FirstSeq(g)) else Asleep(VoterTarget(g, n), FirstSeq(g))
  {
    hide Wrong, Leads, SaysZero, Asleep, VoterOpened, Starting;
    VoterOpens(g, n, pool);
    StartsAsleep(g, n);
    LeadsNowhere(Starting(g, n), pool);
  }

  lemma VotersOpen(g: Setup) returns (net: Net)
    requires g.Sound()
    ensures Reached(g, net) && VotersReady(g, net)
  {
    hide Reached, Leads, Wrong, SaysZero, Asleep, VoterTarget, Starting, Sent;
    var start := Start(g);
    StartIsReached(g);
    WrongAreMembers(g);
    net := map n | n in start :: VoterTarget(g, n);
    forall n | n in start
      ensures Leads(start[n], net[n], Sent(start))
      ensures if n in Wrong(g) then SaysZero(net[n], FirstSeq(g)) else Asleep(net[n], FirstSeq(g))
    {
      VoterMoves(g, n, Sent(start));
    }
    AllMove(g, start, net);
  }

  /** Some peers answer the request of one node. */
  lemma EveryoneAnswers(g: Setup, net: Net, from: PeerId, peers: seq<PeerId>, s: nat) returns (next: Net)
    requires Reached(g, net) && from in net
    requires forall n :: n in peers ==> n in net && Packet(from, n, Request, 0, s) in net[from].s.sent
    ensures Reached(g, next) && next.Keys == net.Keys
    ensures forall n :: n in net ==> next[n] == if n in peers then Answered(net[n], from, s) else net[n]
  {
    next := map n | n in net :: if n in peers then Answered(net[n], from, s) else net[n];
    hide Reached, Leads, Inv, Answered, MembersOk, Wrong;
    forall n | n in net
      ensures Leads(net[n], next[n], Sent(net))
    {
      ReachedNode(g, net, n);
      if n in peers {
        ReachedNode(g, net, from);
        assert Packet(from, n, Request, 0, s) in Sent(net);
        AnswersRequest(net[n], from, s, Sent(net));
      } else {
        LeadsNowhere(net[n], Sent(net));
      }
    }
    AllMove(g, net, next);
  }

  /** The wrong voters, in some order. */
  lemma {:induction false} Listed(d: set<PeerId>) returns (list: seq<PeerId>)
    ensures Distinct(list) && ToSet(list) == d && |list| == |d|
    decreases d
  {
    list := [];
    if d != {} {
      var n :| n in d;
      var rest := Listed(d - {n});
      assert n !in ToSet(rest);
      list := rest + [n];
      assert ToSet(list) == ToSet(rest) + {n};
    }
    DistinctCard(list);
  }

  /** An honest node that has just opened the sequence with a sample that begins with these members. */
  ghost predicate Polling(g: Setup, net: Net, a: PeerId, before: Proc, must: seq<PeerId>, wave: seq<PeerId>) {
    && a in net && Opening(before, net[a], wave) && must <= wave && |wave| == g.params.k
    && net[a].s.id == a && net[a].s.seqNum == FirstSeq(g)
    && forall n :: n in wave ==> n in net && n != a
  }

  /** A sleeping node opens the sequence with such a sample. */
  lemma StartsPolling(g: Setup, net: Net, a: PeerId, must: seq<PeerId>) returns (next: Net, wave: seq<PeerId>)
    requires Reached(g, net) && a in net && Asleep(net[a], FirstSeq(g))
    requires Distinct(must) && |must| <= g.params.k && forall n :: n in must ==> n in net && n != a
    ensures Reached(g, next) && Polling(g, next, a, net[a], must, wave)
    ensures next == net[a := OpenedWith(net[a], wave)]
  {
    hide Inv, Reached, Sent, Leads, OpenedWith, Opening, MembersOk, Dormant, FreshWave, OtherMembers, Wrong, Forced;
    ReachedNode(g, net, a);
    WaveFor(g, net[a].s, must);
    wave := SampleFrom(net[a].s, must);
    OpensSequence(net[a], wave, Sent(net));
    next := net[a := OpenedWith(net[a], wave)];
    NodeMoves(g, net, a, next[a], Sent(net));
    OpeningKeeps(net[a], next[a], wave);
  }

  lemma WaveFor(g: Setup, s: Node, must: seq<PeerId>)
    requires Distinct(must) && s.memberIds == g.ids
    requires forall n :: n in must ==> n in ToSet(g.ids) && n != s.id
    ensures OtherMembers(s.memberIds, s.id, must)
  {
  }

  lemma OpeningKeeps(before: Proc, p: Proc, wave: seq<PeerId>)
    requires Opening(before, p, wave)
    ensures |wave| == before.s.params.k && p.s.id == before.s.id && p.s.seqNum == before.s.seqNum + 1
    ensures forall n :: n in wave ==> n in before.s.memberIds && n != before.s.id
  {
    hide Inv;
  }

  lemma RequestsAreOut(g: Setup, net: Net, a: PeerId, before: Proc, must: seq<PeerId>, wave: seq<PeerId>)
    requires Polling(g, net, a, before, must, wave)
    ensures forall n :: n in wave ==> n in net && n != a && Packet(a, n, Request, 0, FirstSeq(g)) in net[a].s.sent
  {
    hide Opening;
    forall n | n in wave
      ensures Packet(a, n, Request, 0, FirstSeq(g)) in net[a].s.sent
    {
      RequestIsSent(before, net[a], wave, n);
    }
  }

  /** The sample of a polling node has answered. */
  ghost predicate AnsweredBy(g: Setup, net: Net, a: PeerId, peers: seq<PeerId>, next: Net) {
    && a in net && a !in peers && next.Keys == net.Keys
    && forall n :: n in net ==> next[n] == if n in peers then Answered(net[n], a, FirstSeq(g)) else net[n]
  }

  /** Who says zero still does, and has said it to a if it was asked. */
  lemma ZeroesAnswered(g: Setup, net: Net, a: PeerId, peers: seq<PeerId>, next: Net, n: PeerId)
    requires AnsweredBy(g, net, a, peers, next) && n in net && net[n].s.id == n && SaysZero(net[n], FirstSeq(g))
    ensures SaysZero(next[n], FirstSeq(g))
    ensures n in peers ==> Packet(n, a, Response, 0, FirstSeq(g)) in Sent(next)
  {
    hide SaysZero;
    AnswerSays(net[n], a, FirstSeq(g));
  }

  /** Who sleeps still does, and has refused a if it was asked. */
  lemma SleepersAnswered(g: Setup, net: Net, a: PeerId, peers: seq<PeerId>, next: Net, n: PeerId)
    requires AnsweredBy(g, net, a, peers, next) && n in net && net[n].s.id == n && Asleep(net[n], FirstSeq(g))
    ensures Asleep(next[n], FirstSeq(g))
    ensures n in peers ==> Packet(n, a, Unavailable, 0, FirstSeq(g)) in Sent(next)
  {
    hide Dormant;
    AnswerSays(net[n], a, FirstSeq(g));
    AnswerKeepsDormant(net[n], a, FirstSeq(g));
  }

  /** What a peer answered is offered to the polling node. */
  lemma ReplyIsOffered(p: Proc, wave: seq<PeerId>, j: nat, s: nat, pool: iset<Packet>)
    requires j < |wave| && p.s.seqNum == s
    ensures Packet(wave[j], p.s.id, Response, 0, s) in pool ==> ZeroOffered(p, wave, j, pool)
    ensures Packet(wave[j], p.s.id, Unavailable, 0, s) in pool ==> RefusalOffered(p, wave, j, pool)
  {
  }

  lemma PollsDistinct(before: Proc, p: Proc, wave: seq<PeerId>)
    requires Opening(before, p, wave)
    ensures Distinct(wave)
  {
    hide Inv;
  }

  lemma InPrefix(must: seq<PeerId>, wave: seq<PeerId>, j: nat)
    requires must <= wave && Distinct(wave) && j < |wave|
    ensures wave[j] in wave && (wave[j] in ToSet(must) <==> j < |must|)
  {
    assert forall i :: 0 <= i < |must| ==> must[i] == wave[i];
    assert j < |must| ==> wave[j] in must;
  }

  lemma Membership(list: seq<PeerId>)
    ensures forall n :: n in list <==> n in ToSet(list)
  {
  }

  /** One honest node holds a KO, another still sleeps, and all wrong voters say zero. */
  ghost predicate OneFooled(g: Setup, net: Net, a: PeerId, b: PeerId) {
    && a in net && b in net && Fooled(net[a], FirstSeq(g), g.params.k - |Wrong(g)|)
    && (forall n :: n in Wrong(g) ==> n in net && SaysZero(net[n], FirstSeq(g)))
    && Asleep(net[b], FirstSeq(g))
  }

  /** The setting of the scenario: some wrong voters, fewer than a sample, and two honest nodes. */
  predicate Divided(g: Setup, a: PeerId, b: PeerId) {
    && g.Sound() && 1 <= |Wrong(g)| < g.params.k
    && a in g.ids && b in g.ids && a !in Wrong(g) && b !in Wrong(g) && a != b
  }

  /** All wrong voters say zero, and all others but a sleep. */
  ghost predicate OnlyPolls(g: Setup, net: Net, a: PeerId) {
    && (forall n :: n in Wrong(g) ==> n in net && SaysZero(net[n], FirstSeq(g)))
    && forall n :: n in net && n !in Wrong(g) && n != a ==> Asleep(net[n], FirstSeq(g))
  }

  lemma SampleReplies(g: Setup, net: Net, a: PeerId, before: Proc, must: seq<PeerId>, wave: seq<PeerId>, next: Net, j: nat)
    requires j < |wave| && ToSet(must) == Wrong(g) && must <= wave && Distinct(wave)
    requires a in net && net[a].s.seqNum == FirstSeq(g) && net[a].s.id == a
    requires wave[j] in net && net[wave[j]].s.id == wave[j] && wave[j] != a
    requires OnlyPolls(g, net, a) && AnsweredBy(g, net, a, wave, next)
    ensures j < |must| ==> ZeroOffered(next[a], wave, j, Sent(next))
    ensures |must| <= j ==> RefusalOffered(next[a], wave, j, Sent(next))
  {
    hide SaysZero, Asleep, Answered, Wrong, Sent, ToSet, Distinct, ZeroOffered, RefusalOffered;
    InPrefix(must, wave, j);
    if j < |must| {
      ZeroesAnswered(g, net, a, wave, next, wave[j]);
    } else {
      SleepersAnswered(g, net, a, wave, next, wave[j]);
    }
    ReplyIsOffered(next[a], wave, j, FirstSeq(g), Sent(next));
  }

  /** The first honest node opens the sequence with all wrong voters in its sample. */
  lemma FirstPolls(g: Setup, a: PeerId, wrong: seq<PeerId>) returns (net: Net, before: Proc, wave: seq<PeerId>)
    requires g.Sound() && |Wrong(g)| < g.params.k && a in g.ids && a !in Wrong(g)
    requires Distinct(wrong) && ToSet(wrong) == Wrong(g) && |wrong| == |Wrong(g)|
    ensures Reached(g, net) && Polling(g, net, a, before, wrong, wave) && OnlyPolls(g, net, a)
  {
    hide Inv, Reached, Asleep, SaysZero, Forced, Wrong, Opening, OpenedWith, Distinct;
    WrongAreMembers(g);
    var start := VotersOpen(g);
    before := start[a];
    net, wave := StartsPolling(g, start, a, wrong);
  }

  lemma FirstIsFooled(g: Setup, a: PeerId, b: PeerId) returns (net: Net)
    requires Divided(g, a, b)
    ensures Reached(g, net) && OneFooled(g, net, a, b)
  {
    hide Inv, Reached, Asleep, SaysZero, Answered, Forced, Wrong, Sent, Opening, FreshRound, Leads, Fooled;
    hide ZeroOffered, RefusalOffered, OpenedWith, Distinct, ToSet, OnlyPolls;
    var wrong := Listed(Wrong(g));
    var net2, before, wave := FirstPolls(g, a, wrong);
    PollsDistinct(before, net2[a], wave);
    RequestsAreOut(g, net2, a, before, wrong, wave);
    var net3 := EveryoneAnswers(g, net2, a, wave, FirstSeq(g));
    forall j | 0 <= j < |wave|
      ensures j < |wrong| ==> ZeroOffered(net3[a], wave, j, Sent(net3))
      ensures |wrong| <= j ==> RefusalOffered(net3[a], wave, j, Sent(net3))
    {
      assert wave[j] in wave;
      ReachedNode(g, net2, wave[j]);
      SampleReplies(g, net2, a, before, wrong, wave, net3, j);
    }
    var q := IsFooled(before, net3[a], wave, |wrong|, Sent(net3));
    NodeMoves(g, net3, a, q, Sent(net3));
    net := net3[a := q];
    OthersWait(g, net2, net3, a, b, wave);
  }

  /** After answering, the wrong voters still say zero and another node still sleeps. */
  lemma OthersWait(g: Setup, net: Net, next: Net, a: PeerId, b: PeerId, wave: seq<PeerId>)
    requires Reached(g, net) && OnlyPolls(g, net, a) && AnsweredBy(g, net, a, wave, next)
    requires b in g.ids && b !in Wrong(g) && a != b
    ensures forall n :: n in Wrong(g) ==> n in next && SaysZero(next[n], FirstSeq(g))
    ensures b in next && Asleep(next[b], FirstSeq(g))
  {
    hide Inv, Reached, Asleep, SaysZero, Answered, Forced, Wrong, Sent;
    forall n | n in Wrong(g)
      ensures n in next && SaysZero(next[n], FirstSeq(g))
    {
      ReachedNode(g, net, n);
      ZeroesAnswered(g, net, a, wave, next, n);
    }
    ReachedNode(g, net, a);
    ReachedNode(g, net, b);
    SleepersAnswered(g, net, a, wave, next, b);
  }

  /** The end of the scenario: the second node drew no replacement and counts one zero too many. */
  ghost predicate Spread(g: Setup, net: Net, a: PeerId, b: PeerId) {
    && a in net && b in net && Fooled(net[a], FirstSeq(g), g.params.k - |Wrong(g)|)
    && Counted(net[b], |Wrong(g)| + 1) && (|Wrong(g)| + 1 == g.params.k ==> FailedOnce(net[b], 0))
  }

  lemma FooledSaysZero(p: Proc, s: nat, r: int, from: PeerId)
    requires Fooled(p, s, r)
    ensures SaysZero(p, s) && Fooled(Answered(p, from, s), s, r)
  {
  }

  /** From there a second honest node counts the zeroes of all wrong voters and of the first. */
  lemma SecondCounts(g: Setup, net: Net, a: PeerId, b: PeerId) returns (last: Net)
    requires Divided(g, a, b) && Reached(g, net) && OneFooled(g, net, a, b)
    ensures Reached(g, last) && Spread(g, last, a, b)
  {
    hide Inv, Reached, Asleep, SaysZero, Answered, Forced, Wrong, Sent, Opening, FreshRound, Leads, Fooled;
    hide ZeroOffered, RefusalOffered, OpenedWith, Counted, FailedOnce;
    var wrong := Listed(Wrong(g));
    var s := FirstSeq(g);
    var must := wrong + [a];
    assert forall n :: n in must ==> n in Wrong(g) || n == a;
    assert a !in ToSet(wrong) && Distinct(must);
    var net1, wave := StartsPolling(g, net, b, must);
    RequestsAreOut(g, net1, b, net[b], must, wave);
    assert forall n :: n in must ==> n in wave;
    var net2 := EveryoneAnswers(g, net1, b, must, s);
    FooledSaysZero(net[a], s, g.params.k - |Wrong(g)|, b);
    forall j | 0 <= j < |must|
      ensures ZeroOffered(net2[b], wave, j, Sent(net2))
    {
      var n := wave[j];
      assert n == must[j] && n in must && n in net1 && SaysZero(net1[n], s);
      ReachedNode(g, net1, n);
      ZeroesAnswered(g, net1, b, must, net2, n);
      ReplyIsOffered(net2[b], wave, j, s, Sent(net2));
    }
    var q := CountsZeroes(net[b], net2[b], wave, |must|, Sent(net2));
    NodeMoves(g, net2, b, q, Sent(net2));
    last := net2[b := q];
  }

  /** The scenario, for any two honest nodes. */
  lemma Spreads(g: Setup, a: PeerId, b: PeerId) returns (net: Net)
    requires Divided(g, a, b)
    ensures Reached(g, net) && Spread(g, net, a, b)
  {
    hide *;
    var fooled := FirstIsFooled(g, a, b);
    net := SecondCounts(g, fooled, a, b);
  }

  // ---------- The bound, exactly ----------

  /** At every honest node, in every state of every run: zero votes within wrong voters plus replacements. */
  ghost predicate BoundHolds(g: Setup) {
    forall net: Net, n :: Reached(g, net) && n in net && n !in Wrong(g) ==> WithinBound(g, net[n])
  }

  predicate WithinBound(g: Setup, p: Proc) {
    p.s.responseBuffer.ko <= |Wrong(g)| + |p.h.extras|
  }

  lemma NobodyWrong(g: Setup, net: Net, n: PeerId)
    requires Wrong(g) == {} && Reached(g, net) && n in net
    ensures net[n].s.responseBuffer.ko == 0
  {
    var run: seq<Net>, acts: seq<Act> :| EndsIn(g, run, acts, net);
    forall j: nat, m: PeerId | j < |acts| && m in run[j]
      ensures !Forced(run[j][m].s)
    {
      RolesStay(g, run, acts, j);
      ForcedAreWrong(g, run[j], m);
    }
    hide Wrong, Forced, SameRoles;
    NeverAsked(run, acts, |acts|);
    HonestNodesStayOK(run, acts, {}, |acts|);
    hide IsRun, NetInv, Loyal;
    assert ZeroesBounded(net[n], {});
    NobodyAsked(net[n].h.wave + net[n].h.extras);
  }

  lemma TwoHonest(g: Setup) returns (a: PeerId, b: PeerId)
    requires g.Sound() && Wrong(g) != {} && |Wrong(g)| < g.params.k
    ensures Divided(g, a, b)
  {
    var honest := ToSet(g.ids) - Wrong(g);
    WrongAreMembers(g);
    DistinctCard(g.ids);
    hide Wrong;
    assert Wrong(g) <= ToSet(g.ids) && |honest| == |g.ids| - |Wrong(g)|;
    a :| a in honest;
    assert |honest - {a}| >= 1;
    b :| b in honest - {a};
  }

  /**
   * Zero votes at honest nodes stay within wrong voters plus replacements in all runs, exactly if
   * there is no wrong voter, or there are enough of them to fill a sample (as there are whenever
   * at most one node is honest).
   */
  lemma ZeroBoundExactly(g: Setup)
    requires g.Sound()
    ensures BoundHolds(g) <==> Wrong(g) == {} || |Wrong(g)| >= g.params.k
    ensures |ToSet(g.ids) - Wrong(g)| <= 1 ==> |Wrong(g)| >= g.params.k
  {
    hide Inv, Reached, Wrong, Fooled;
    if Wrong(g) == {} || |Wrong(g)| >= g.params.k {
      forall net: Net, n | Reached(g, net) && n in net && n !in Wrong(g)
        ensures WithinBound(g, net[n])
      {
        if Wrong(g) == {} {
          NobodyWrong(g, net, n);
        } else {
          ReachedNode(g, net, n);
          BufferFits(net[n]);
        }
      }
    } else {
      var a, b := TwoHonest(g);
      var net := Spreads(g, a, b);
      assert !WithinBound(g, net[b]);
    }
    WrongAreMembers(g);
    DistinctCard(g.ids);
    assert Wrong(g) <= ToSet(g.ids) && |ToSet(g.ids) - Wrong(g)| == |g.ids| - |Wrong(g)|;
  }

  lemma BufferFits(p: Proc)
    requires Inv(p)
    ensures p.s.responseBuffer.ko <= p.s.params.k
  {
    assert SlotInv(p);
  }

  // ---------- One wrong voter among three nodes ----------

  const A: PeerId := [1]
  const W: PeerId := [2]
  const G: PeerId := [3]

  // Threshold 2 of 2, decision after one round; the node at position 1 votes wrongly.
  const SMALL: Setup := Setup(Params(2, 1, 2, true, {1}), [A, W, G], 0, [0])

  /** Only W forces its votes. */
  predicate OnlyWForces(net: Net) {
    net.Keys == {A, W, G} && !Forced(net[A].s) && Forced(net[W].s) && !Forced(net[G].s)
  }

  lemma SmallIsDivided()
    ensures Wrong(SMALL) == {W} && |Wrong(SMALL)| == 1 && Divided(SMALL, A, G)
    ensures ToSet(SMALL.ids) == {A, W, G}
  {
    var ids := SMALL.ids;
    assert ids[0] == A && ids[1] == W && ids[2] == G;
    assert A[0] != W[0] && A[0] != G[0] && W[0] != G[0];
    assert PositionOf(ids, A) == 0 && PositionOf(ids, W) == 1 && PositionOf(ids, G) == 2;
    assert Wrong(SMALL) == {W};
  }

  lemma SmallRoles(net: Net)
    requires SameRoles(SMALL, net)
    ensures OnlyWForces(net)
  {
    SmallIsDivided();
    WrongAreMembers(SMALL);
    ForcedAreWrong(SMALL, net, A);
    ForcedAreWrong(SMALL, net, W);
    ForcedAreWrong(SMALL, net, G);
    hide Wrong, Forced;
  }

  /** What the run ends with: A failed the block after a replacement, G without one. */
  predicate SpreadTo(net: Net) {
    && A in net && G in net && FailedOnce(net[A], 1) && FailedOnce(net[G], 0)
    && net[G].s.responseBuffer.ko > |{W}| + |net[G].h.extras|
  }

  lemma SmallSpread(net: Net)
    requires Reached(SMALL, net) && Spread(SMALL, net, A, G)
    ensures SpreadTo(net)
  {
    hide Inv, Reached, Wrong, Forced, MembersOk, Distinct;
    SmallIsDivided();
    ReachedNode(SMALL, net, A);
    assert |{W}| == 1;
  }

  /**
   * One wrong voter, a threshold of two: node A fails the block after one replacement, and node G
   * then counts two zero votes with no replacement at all.
   */
  lemma OneWrongVoterSpreads() returns (run: seq<Net>, acts: seq<Act>)
    ensures IsRun(run, acts) && |run| == |acts| + 1 && |{W}| < SMALL.params.alfa
    ensures forall i :: 0 <= i < |run| ==> OnlyWForces(run[i])
    ensures SpreadTo(run[|acts|])
  {
    SmallIsDivided();
    assert |{W}| == 1;
    hide Inv, Wrong, Forced, Spread, SpreadTo, OnlyWForces, SameRoles, Divided, Moves, Genesis, Start;
    var net := Spreads(SMALL, A, G);
    SmallSpread(net);
    run, acts :| EndsIn(SMALL, run, acts, net);
    forall i | 0 <= i < |run|
      ensures OnlyWForces(run[i])
    {
      RolesStay(SMALL, run, acts, i);
      SmallRoles(run[i]);
    }
  }
}
