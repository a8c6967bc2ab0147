/**
 * A network of nodes. Any message ever sent may be delivered to its addressee at any time, any
 * number of times or never: losses, delays, duplicates and reordering are all included.
 */
module Network {
  import opened SnowballTypes
  import opened RoundTally
  import opened NodeSpec
  import opened NodeRuns
  import opened NodeTheorems

  type Net = map<PeerId, Proc>

  datatype Act = Act(node: PeerId, event: Event)

  /** The delivered message was sent, by its sender, to this node. */
  predicate WasSent(net: Net, dst: PeerId, e: Event)
    requires e.Deliver?
  {
    e.sender in net && Packet(e.sender, dst, e.kind, e.vote, e.seqNum) in net[e.sender].s.sent
  }

  ghost predicate CanAct(net: Net, a: Act) {
    && a.node in net && Allowed(net[a.node].s, a.event)
    && (a.event.Deliver? ==> WasSent(net, a.node, a.event))
  }

  ghost function Next(net: Net, a: Act): Net
    requires CanAct(net, a)
  {
    net[a.node := Advance(net[a.node], a.event)]
  }

  ghost predicate Genesis(net: Net) {
    forall n :: n in net ==> Booted(net[n], n)
  }

  ghost predicate IsRun(run: seq<Net>, acts: seq<Act>) {
    && |run| == |acts| + 1
    && Genesis(run[0])
    && forall i :: 0 <= i < |acts| ==> Moves(run[i], acts[i], run[i + 1])
  }

  ghost predicate Moves(net: Net, a: Act, next: Net) {
    CanAct(net, a) && next == Next(net, a)
  }

  // ---------- What holds in every state of every run ----------

  /** Nodes satisfy their invariant, and no vote outside 0 and 1 was ever received. */
  ghost predicate NetInv(net: Net) {
    forall n :: n in net ==> Sane(net[n], n)
  }

  ghost predicate Sane(p: Proc, id: PeerId) {
    p.s.id == id && Inv(p) && p.h.invalid == 0 && Distinct(p.h.wave)
  }

  lemma BootedInv(p: Proc, id: PeerId)
    requires Booted(p, id)
    ensures Sane(p, id)
  {
    BootInv(p.s.params, p.s.memberIds, id, p.h.headNum, p.h.headId);
  }

  lemma DeliveredVoteIsBinary(net: Net, a: Act)
    requires NetInv(net) && CanAct(net, a) && a.event.Deliver?
    ensures a.event.vote <= 1
    ensures a.event.kind == Request ==> a.event.seqNum > 0
  {
    assert SentInv(net[a.event.sender]);
  }

  lemma NothingInvalid(p: Proc, e: Event)
    requires p.h.invalid == 0 && Distinct(p.h.wave)
    requires Allowed(p.s, e) && (e.Deliver? ==> e.vote <= 1)
    ensures Advance(p, e).h.invalid == 0 && Distinct(Advance(p, e).h.wave)
  {
  }

  lemma SaneStep(p: Proc, id: PeerId, e: Event)
    requires Sane(p, id) && Allowed(p.s, e) && (e.Deliver? ==> e.vote <= 1)
    ensures Sane(Advance(p, e), id)
  {
    StepKeepsInv(p, e);
    StepKeepsIdentity(p.s, e);
    NothingInvalid(p, e);
  }

  lemma NetStep(net: Net, a: Act)
    requires NetInv(net) && CanAct(net, a)
    ensures NetInv(Next(net, a))
  {
    hide Inv;
    if a.event.Deliver? {
      DeliveredVoteIsBinary(net, a);
    }
    SaneStep(net[a.node], a.node, a.event);
  }

  lemma GenesisInv(net: Net)
    requires Genesis(net)
    ensures NetInv(net)
  {
    forall n | n in net
      ensures Sane(net[n], n)
    {
      BootedInv(net[n], n);
    }
  }

  /** Every node satisfies its invariant in every state of every run. */
  lemma {:induction false} RunKeepsNetInv(run: seq<Net>, acts: seq<Act>, i: nat)
    requires IsRun(run, acts) && i < |run|
    ensures NetInv(run[i]) && run[i].Keys == run[0].Keys
  {
    if i == 0 {
      GenesisInv(run[0]);
    } else {
      RunKeepsNetInv(run, acts, i - 1);
      assert Moves(run[i - 1], acts[i - 1], run[i]);
      NetStep(run[i - 1], acts[i - 1]);
    }
  }

  // ---------- Wrong votes ----------

  /** How often a member of d was asked in the current round: in its sample or as a replacement. */
  function Asked(h: History, d: set<PeerId>): nat {
    CountIn(h.wave + h.extras, d)
  }

  lemma AskedBound(h: History, d: set<PeerId>)
    requires Distinct(h.wave)
    ensures Asked(h, d) <= |d| + |h.extras|
  {
    CountInAppend(h.wave, h.extras, d);
    CountInDistinct(h.wave, d);
  }

  /** Zero votes counted, plus members of d that may still send one, fit in the slots d was asked for. */
  predicate ZeroesBounded(p: Proc, d: set<PeerId>) {
    p.s.responseBuffer.ko + |p.s.waiting * d| <= Asked(p.h, d)
  }

  /** This node replaces no votes and holds no KO. */
  predicate Clean(s: Node) {
    !Forced(s) && forall n :: n in s.decisionMap ==> s.decisionMap[n] != KO
  }

  /** Only members of d ever sent a response with vote 0. */
  predicate ZeroesFrom(net: Net, d: set<PeerId>) {
    forall n, m :: n in net && n !in d && m in net[n].s.sent && m.kind == Response ==> m.vote == 1
  }

  lemma ExtrasFit(w: set<PeerId>, gone: set<PeerId>, extras: seq<PeerId>, d: set<PeerId>)
    requires Distinct(extras)
    ensures |(w - gone + ToSet(extras)) * d| <= |w * d| + CountIn(extras, d)
  {
    CountInDistinct(extras, d);
    CardMono((w - gone + ToSet(extras)) * d, w * d + ToSet(extras) * d);
    CardUnion(w * d, ToSet(extras) * d);
  }

  lemma CardUnion<T>(a: set<T>, b: set<T>)
    ensures |a + b| <= |a| + |b|
  {
  }

  lemma WaveFits(wave: seq<PeerId>, d: set<PeerId>)
    requires Distinct(wave)
    ensures |ToSet(wave) * d| == CountIn(wave + [], d)
  {
    assert wave + [] == wave;
    CountInDistinct(wave, d);
  }

  lemma VoteFits(p: Proc, sender: PeerId, vote: u8, d: set<PeerId>)
    requires ZeroesBounded(p, d) && sender in p.s.waiting && vote <= 1 && (vote == 0 ==> sender in d)
    ensures var c := CountVote(p.s, sender, vote); c.responseBuffer.ko + |c.waiting * d| <= Asked(p.h, d)
  {
    var w := p.s.waiting;
    if sender in d {
      assert w * d == (w - {sender}) * d + {sender};
    } else {
      assert w * d == (w - {sender}) * d;
    }
  }

  lemma SubstitutionFits(p: Proc, gone: set<PeerId>, extras: seq<PeerId>, d: set<PeerId>)
    requires ZeroesBounded(p, d) && Distinct(extras)
    ensures ZeroesBounded(Proc(Replace(p.s.(waiting := p.s.waiting - gone), extras),
                               Substitute(p.h, multiset(gone), extras)), d)
  {
    hide Distinct, CountIn;
    ExtrasFit(p.s.waiting, gone, extras, d);
    CountInAppend(p.h.wave + p.h.extras, extras, d);
    assert p.h.wave + (p.h.extras + extras) == (p.h.wave + p.h.extras) + extras;
  }

  lemma NewWaveFits(p: Proc, sender: PeerId, vote: u8, wave: seq<PeerId>, d: set<PeerId>)
    requires Started(p.s) && p.s.waiting == {sender} && Distinct(wave)
    ensures ZeroesBounded(Continuing(p, sender, vote, wave), d)
  {
    WaveFits(wave, d);
    assert Continuing(p, sender, vote, wave).s.waiting == ToSet(wave);
  }

  lemma RoundFits(p: Proc, e: Event, d: set<PeerId>)
    requires Inv(p) && Allowed(p.s, e) && Closes(p.s, e) && ZeroesBounded(p, d)
    requires e.vote == 0 ==> e.sender in d
    ensures ZeroesBounded(Advance(p, e), d)
  {
    VoteFits(p, e.sender, e.vote, d);
    RoundDecidesExactly(p, e);
    CompletesClean(p, e.sender, e.vote);
    ClosesDecidable(p);
    hide Inv, ZeroesBounded;
    if Advance(p, e) == Continuing(p, e.sender, e.vote, e.wave) {
      NewWaveFits(p, e.sender, e.vote, e.wave, d);
    } else {
      LastRoundFits(p, e, d);
    }
  }

  lemma LastRoundFits(p: Proc, e: Event, d: set<PeerId>)
    requires e.Deliver? && Started(p.s) && Decidable(p.s)
    requires var c := CountVote(p.s, e.sender, e.vote); c.responseBuffer.ko + |c.waiting * d| <= Asked(p.h, d)
    ensures ZeroesBounded(Concluding(p, e.sender, e.vote), d)
  {
  }

  lemma WaveStartsBounded(p: Proc, headNum: nat, wave: seq<PeerId>, d: set<PeerId>)
    requires Opens(p.s, headNum) && p.s.waiting == {} && Distinct(wave)
    ensures ZeroesBounded(Advance(p, Poll(headNum, wave)), d)
  {
    WaveFits(wave, d);
    assert Advance(p, Poll(headNum, wave)).s.waiting == ToSet(wave);
  }

  lemma ZeroesStayBounded(p: Proc, e: Event, d: set<PeerId>)
    requires Inv(p) && Allowed(p.s, e) && ZeroesBounded(p, d)
    requires e.Deliver? && e.kind == Response ==> e.vote <= 1 && (e.vote == 0 ==> e.sender in d)
    ensures ZeroesBounded(Advance(p, e), d)
  {
    if Closes(p.s, e) {
      RoundFits(p, e, d);
    } else {
      if Pending(p.s) {
        OpensOnlyIdle(p);
      }
      OthersStayBounded(p, e, d);
    }
  }

  lemma OthersStayBounded(p: Proc, e: Event, d: set<PeerId>)
    requires Runs(p.s, e) && GoodDraws(p.s, e) && !Closes(p.s, e) && ZeroesBounded(p, d)
    requires Pending(p.s) ==> p.s.waiting == {}
    requires e.Deliver? && e.kind == Response ==> e.vote <= 1 && (e.vote == 0 ==> e.sender in d)
    ensures ZeroesBounded(Advance(p, e), d)
  {
    match e {
      case Poll(headNum, wave) =>
        if Opens(p.s, headNum) {
          WaveStartsBounded(p, headNum, wave, d);
        }
      case Deliver(sender, Response, vote, _, _, _) =>
        if Awaited(p.s, sender) {
          VoteFits(p, sender, vote, d);
        }
      case Deliver(sender, Unavailable, _, _, extra, _) =>
        if Awaited(p.s, sender) {
          SubstitutionFits(p, {sender}, [extra], d);
        }
      case Expire(expired, extras) => SubstitutionFits(p, expired, extras, d);
      case _ =>
    }
  }

  lemma ZeroesExtend(net: Net, a: Act, d: set<PeerId>)
    requires ZeroesFrom(net, d) && CanAct(net, a)
    requires forall m :: m in Next(net, a)[a.node].s.sent ==>
               m in net[a.node].s.sent || (m.kind == Response && a.node !in d ==> m.vote == 1)
    ensures ZeroesFrom(Next(net, a), d)
  {
  }

  /** A clean node answers every request of the network with vote 1. */
  lemma CleanAnswers(p: Proc, e: Event)
    requires Inv(p) && Allowed(p.s, e) && Clean(p.s)
    requires e.Deliver? && e.kind == Request ==> e.seqNum > 0
    ensures forall m :: m in Step(p.s, e).sent ==> m in p.s.sent || (m.kind == Response ==> m.vote == 1)
  {
    if Closes(p.s, e) {
      RoundDecidesExactly(p, e);
      RequestsAre(p.s, e.wave);
      ClosingSends(p, e);
    } else {
      if e.Deliver? && e.seqNum in p.s.decisionMap {
        ColourMapIsTotal(p, e.seqNum);
      }
      AnswersSend(p.s, e);
    }
  }

  lemma ClosingSends(p: Proc, e: Event)
    requires Inv(p) && Allowed(p.s, e) && Closes(p.s, e)
    ensures Step(p.s, e).sent == p.s.sent || Step(p.s, e).sent == p.s.sent + Requests(p.s, e.wave)
  {
    DecidesExactly(p, e);
  }

  lemma AnswersSend(s: Node, e: Event)
    requires Runs(s, e) && GoodDraws(s, e) && !Closes(s, e) && !Forced(s)
    requires e.Deliver? && e.kind == Request && e.seqNum in s.decisionMap ==> s.decisionMap[e.seqNum] == OK
    ensures forall m :: m in Step(s, e).sent ==> m in s.sent || (m.kind == Response ==> m.vote == 1)
  {
    var r := Step(s, e);
    match e {
      case Poll(headNum, wave) =>
        if Opens(s, headNum) {
          assert r.sent == s.sent + Requests(r, wave);
          RequestsAre(r, wave);
        }
      case Deliver(sender, Unavailable, _, _, extra, _) =>
        if Awaited(s, sender) {
          assert r.sent == s.sent + Requests(r, [extra]);
          RequestsAre(r, [extra]);
        }
      case Expire(expired, extras) =>
        assert r.sent == s.sent + Requests(r, extras);
        RequestsAre(r, extras);
      case _ =>
    }
  }

  /** Every node's counted zeroes are bounded, and all zero responses come from d. */
  ghost predicate NetBound(net: Net, d: set<PeerId>) {
    && NetInv(net) && ZeroesFrom(net, d)
    && forall n :: n in net ==> ZeroesBounded(net[n], d)
  }

  lemma BootedBound(p: Proc, id: PeerId, d: set<PeerId>)
    requires Booted(p, id)
    ensures ZeroesBounded(p, d) && p.s.sent == []
  {
  }

  lemma SilentNet(net: Net, d: set<PeerId>)
    requires forall n :: n in net ==> net[n].s.sent == []
    ensures ZeroesFrom(net, d)
  {
  }

  lemma GenesisBound(net: Net, d: set<PeerId>)
    requires Genesis(net)
    ensures NetBound(net, d)
  {
    hide NetInv, Booted, ZeroesBounded, ZeroesFrom;
    GenesisInv(net);
    forall n | n in net
      ensures ZeroesBounded(net[n], d) && net[n].s.sent == []
    {
      BootedBound(net[n], n, d);
    }
    SilentNet(net, d);
  }

  lemma ZeroesStep(net: Net, a: Act, d: set<PeerId>)
    requires NetInv(net) && ZeroesFrom(net, d) && CanAct(net, a)
    requires a.node !in d ==> Clean(net[a.node].s)
    ensures ZeroesFrom(Next(net, a), d)
  {
    if a.node !in d {
      if a.event.Deliver? {
        DeliveredVoteIsBinary(net, a);
      }
      assert Sane(net[a.node], a.node);
      CleanAnswers(net[a.node], a.event);
    }
    ZeroesExtend(net, a, d);
  }

  lemma BoundStep(net: Net, a: Act, d: set<PeerId>)
    requires NetBound(net, d) && CanAct(net, a)
    requires a.node !in d ==> Clean(net[a.node].s)
    ensures NetBound(Next(net, a), d)
  {
    hide Inv;
    NetStep(net, a);
    ZeroesStep(net, a, d);
    assert ZeroesBounded(Advance(net[a.node], a.event), d) by {
      if a.event.Deliver? {
        DeliveredVoteIsBinary(net, a);
      }
      assert Sane(net[a.node], a.node) && ZeroesBounded(net[a.node], d);
      ZeroesStayBounded(net[a.node], a.event, d);
    }
  }

  /**
   * For any set d holding every node that ever forces votes or ever holds a KO: at every node, the
   * zero votes of the current round never outnumber the slots members of d were asked for, hence
   * |d| plus the replacements of the round.
   */
  lemma {:induction false} ZeroVotesBounded(run: seq<Net>, acts: seq<Act>, d: set<PeerId>, i: nat)
    requires IsRun(run, acts) && i < |run|
    requires forall j, n :: 0 <= j < i && n in run[j] && n !in d ==> Clean(run[j][n].s)
    ensures NetBound(run[i], d)
    ensures forall n :: n in run[i] ==>
              run[i][n].s.responseBuffer.ko <= Asked(run[i][n].h, d) <= |d| + |run[i][n].h.extras|
  {
    if i == 0 {
      GenesisBound(run[0], d);
    } else {
      ZeroVotesBounded(run, acts, d, i - 1);
      assert Moves(run[i - 1], acts[i - 1], run[i]);
      BoundStep(run[i - 1], acts[i - 1], d);
    }
    forall n | n in run[i]
      ensures run[i][n].s.responseBuffer.ko <= Asked(run[i][n].h, d) <= |d| + |run[i][n].h.extras|
    {
      assert Sane(run[i][n], n) && ZeroesBounded(run[i][n], d);
      AskedBound(run[i][n].h, d);
    }
  }

  // ---------- Safety with wrong voters ----------

  predicate NoKO(rounds: seq<Outcome>) {
    forall o :: o in rounds ==> o != Majority(KO)
  }

  /** Nothing at this node was ever KO: no colour, no round, no decision. */
  predicate Loyal(p: Proc) {
    && (forall n :: n in p.s.decisionMap ==> p.s.decisionMap[n] != KO)
    && NoKO(p.h.rounds)
    && (forall d :: d in p.h.decided ==> d.color == OK && NoKO(d.rounds))
  }

  /** Fewer slots of the current round went to wrong voters than the threshold needs. */
  predicate Outvoted(p: Proc, w: set<PeerId>) {
    Asked(p.h, w) < p.s.params.alfa
  }

  lemma RoundIsNotKO(p: Proc, e: Event, w: set<PeerId>)
    requires Closes(p.s, e) && ZeroesBounded(p, w) && Outvoted(p, w) && (e.vote == 0 ==> e.sender in w)
    ensures OutcomeBy(p.s, e) != Majority(KO)
  {
    VoteFits(p, e.sender, e.vote, w);
  }

  lemma LoyalClosing(p: Proc, sender: PeerId, vote: u8, wave: seq<PeerId>)
    requires Loyal(p) && Started(p.s) && Decidable(p.s)
    requires OutcomeOf(CountVote(p.s, sender, vote).responseBuffer, p.s.params.alfa) != Majority(KO)
    ensures Loyal(Continuing(p, sender, vote, wave)) && Loyal(Concluding(p, sender, vote))
  {
    assert Closing(p.s, sender, vote).pref == OK;
  }

  lemma LoyalRound(p: Proc, e: Event, w: set<PeerId>)
    requires Inv(p) && Allowed(p.s, e) && Closes(p.s, e) && Loyal(p)
    requires ZeroesBounded(p, w) && Outvoted(p, w) && (e.vote == 0 ==> e.sender in w)
    ensures Loyal(Advance(p, e))
  {
    RoundIsNotKO(p, e, w);
    ClosesDecidable(p);
    RoundDecidesExactly(p, e);
    LoyalClosing(p, e.sender, e.vote, e.wave);
  }

  lemma LoyalIsClean(p: Proc)
    requires Loyal(p) && !Forced(p.s)
    ensures Clean(p.s)
  {
  }

  lemma LoyalOthers(p: Proc, e: Event)
    requires Runs(p.s, e) && !Closes(p.s, e) && Loyal(p)
    ensures Loyal(Advance(p, e))
  {
  }

  ghost predicate HonestSafe(net: Net, w: set<PeerId>) {
    NetBound(net, w) && forall n :: n in net && n !in w ==> Loyal(net[n])
  }

  lemma GenesisSafe(net: Net, w: set<PeerId>)
    requires Genesis(net)
    ensures HonestSafe(net, w)
  {
    GenesisBound(net, w);
    hide NetBound;
    forall n | n in net
      ensures Loyal(net[n])
    {
      BootedLoyal(net[n], n);
    }
  }

  lemma BootedLoyal(p: Proc, id: PeerId)
    requires Booted(p, id)
    ensures Loyal(p)
  {
  }

  lemma SafeStep(net: Net, a: Act, w: set<PeerId>)
    requires HonestSafe(net, w) && CanAct(net, a)
    requires a.node !in w ==> !Forced(net[a.node].s) && Outvoted(net[a.node], w)
    ensures HonestSafe(Next(net, a), w)
  {
    hide Inv, Loyal, ZeroesBounded, Clean;
    var p, e := net[a.node], a.event;
    if a.node !in w {
      LoyalIsClean(p);
    }
    BoundStep(net, a, w);
    if a.node !in w {
      if Closes(p.s, e) {
        DeliveredVoteIsBinary(net, a);
        assert Sane(p, a.node) && ZeroesBounded(p, w);
        LoyalRound(p, e, w);
      } else {
        LoyalOthers(p, e);
      }
    }
  }

  /**
   * If only members of w ever force their votes, and no round of an honest node ever puts alfa
   * slots or more in their hands, then nothing is ever KO at an honest node, and all it decides
   * is committed.
   */
  lemma {:induction false} HonestNodesStayOK(run: seq<Net>, acts: seq<Act>, w: set<PeerId>, i: nat)
    requires IsRun(run, acts) && i < |run|
    requires forall j, n :: 0 <= j < i && n in run[j] && n !in w ==> !Forced(run[j][n].s) && Outvoted(run[j][n], w)
    ensures HonestSafe(run[i], w)
  {
    hide HonestSafe;
    if i == 0 {
      GenesisSafe(run[0], w);
    } else {
      HonestNodesStayOK(run, acts, w, i - 1);
      assert Moves(run[i - 1], acts[i - 1], run[i]);
      SafeStep(run[i - 1], acts[i - 1], w);
    }
  }

  lemma {:induction false} OnlyCommits(decided: seq<Decision>)
    requires forall d :: d in decided ==> d.color == OK
    ensures CommittedIds(decided) == DecidedIds(decided) && FailedIds(decided) == []
  {
    if decided != [] {
      var n := |decided| - 1;
      assert decided[n] in decided;
      OnlyCommits(decided[..n]);
      assert DecidedIds(decided) == DecidedIds(decided[..n]) + [decided[n].id];
    }
  }

  /** In terms of what the validator sees: every opened sequence is OK, and every decision a commit. */
  lemma WrongVotersAreHarmless(run: seq<Net>, acts: seq<Act>, w: set<PeerId>, i: nat, n: PeerId)
    requires IsRun(run, acts) && i < |run| && n in run[i] && n !in w
    requires forall j, m :: 0 <= j < i && m in run[j] && m !in w ==> !Forced(run[j][m].s) && Outvoted(run[j][m], w)
    ensures AllCommitted(run[i][n])
  {
    hide Inv, Loyal, AllCommitted;
    HonestNodesStayOK(run, acts, w, i);
    assert Sane(run[i][n], n) && Loyal(run[i][n]);
    LoyalCommits(run[i][n]);
  }

  /** The same, with the slots of wrong voters bounded by their number plus the replacements drawn. */
  lemma FewWrongVotersAreHarmless(run: seq<Net>, acts: seq<Act>, w: set<PeerId>, i: nat, n: PeerId)
    requires IsRun(run, acts) && i < |run| && n in run[i] && n !in w
    requires forall j, m :: 0 <= j < i && m in run[j] && m !in w ==>
               !Forced(run[j][m].s) && |w| + |run[j][m].h.extras| < run[j][m].s.params.alfa
    ensures AllCommitted(run[i][n])
  {
    hide Inv, AllCommitted;
    forall j, m | 0 <= j < i && m in run[j] && m !in w
      ensures !Forced(run[j][m].s) && Outvoted(run[j][m], w)
    {
      RunKeepsNetInv(run, acts, j);
      assert Sane(run[j][m], m);
      AskedBound(run[j][m].h, w);
    }
    WrongVotersAreHarmless(run, acts, w, i, n);
  }

  /** Every opened sequence is OK, every decision was a commit, and only too-old blocks were failed. */
  ghost predicate AllCommitted(p: Proc) {
    && (forall s :: p.h.headNum + 2 <= s <= p.s.seqNum ==> s in p.s.decisionMap && p.s.decisionMap[s] == OK)
    && Commits(p.s.calls) == DecidedIds(p.h.decided)
    && multiset(Fails(p.s.calls)) == multiset(p.h.stale)
  }

  lemma LoyalCommits(p: Proc)
    requires Inv(p) && Loyal(p)
    ensures AllCommitted(p)
  {
    OnlyCommits(p.h.decided);
    assert CallInv(p);
    hide Inv;
    forall s | p.h.headNum + 2 <= s <= p.s.seqNum
      ensures s in p.s.decisionMap && p.s.decisionMap[s] == OK
    {
      ColourMapIsTotal(p, s);
    }
  }

  // ---------- No wrong voters at all ----------

  predicate AllOK(rounds: seq<Outcome>) {
    forall o :: o in rounds ==> o == Majority(OK)
  }

  predicate Unanimous(p: Proc) {
    AllOK(p.h.rounds) && forall d :: d in p.h.decided ==> d.color == OK && AllOK(d.rounds)
  }

  lemma {:induction false} NobodyAsked(s: seq<PeerId>)
    ensures CountIn(s, {}) == 0
  {
    if s != [] {
      NobodyAsked(s[..|s| - 1]);
    }
  }

  lemma FullRoundIsOK(p: Proc, e: Event)
    requires p.s.params.Sound() && Closes(p.s, e) && ZeroesBounded(p, {}) && e.vote != 0
    ensures OutcomeBy(p.s, e) == Majority(OK)
  {
    NobodyAsked(p.h.wave + p.h.extras);
    VoteFits(p, e.sender, e.vote, {});
  }

  lemma UnanimousClosing(p: Proc, sender: PeerId, vote: u8, wave: seq<PeerId>)
    requires Loyal(p) && Unanimous(p) && Started(p.s) && Decidable(p.s)
    requires OutcomeOf(CountVote(p.s, sender, vote).responseBuffer, p.s.params.alfa) == Majority(OK)
    ensures Unanimous(Continuing(p, sender, vote, wave)) && Unanimous(Concluding(p, sender, vote))
  {
    assert Closing(p.s, sender, vote).pref == OK;
  }

  lemma UnanimousRound(p: Proc, e: Event)
    requires Inv(p) && Allowed(p.s, e) && Closes(p.s, e) && Loyal(p) && Unanimous(p)
    requires ZeroesBounded(p, {}) && e.vote != 0
    ensures Unanimous(Advance(p, e))
  {
    FullRoundIsOK(p, e);
    ClosesDecidable(p);
    RoundDecidesExactly(p, e);
    UnanimousClosing(p, e.sender, e.vote, e.wave);
  }

  lemma UnanimousOthers(p: Proc, e: Event)
    requires Runs(p.s, e) && !Closes(p.s, e) && Unanimous(p)
    ensures Unanimous(Advance(p, e))
  {
  }

  lemma UnanimousProcStep(p: Proc, e: Event)
    requires Inv(p) && Allowed(p.s, e) && Loyal(p) && Unanimous(p) && ZeroesBounded(p, {})
    requires e.Deliver? && e.kind == Response ==> e.vote != 0
    ensures Unanimous(Advance(p, e))
  {
    if Closes(p.s, e) {
      UnanimousRound(p, e);
    } else {
      UnanimousOthers(p, e);
    }
  }

  ghost predicate AllUnanimous(net: Net) {
    forall n :: n in net ==> Unanimous(net[n])
  }

  lemma ResponsesAreOne(net: Net, a: Act)
    requires ZeroesFrom(net, {}) && CanAct(net, a) && a.event.Deliver? && a.event.kind == Response
    ensures a.event.vote == 1
  {
  }

  lemma UnanimousStep(net: Net, a: Act)
    requires HonestSafe(net, {}) && AllUnanimous(net) && CanAct(net, a)
    ensures AllUnanimous(Next(net, a))
  {
    hide Unanimous, Loyal, ZeroesBounded, Inv;
    assert Unanimous(Advance(net[a.node], a.event)) by {
      if a.event.Deliver? && a.event.kind == Response {
        ResponsesAreOne(net, a);
      }
      assert Sane(net[a.node], a.node) && ZeroesBounded(net[a.node], {});
      assert Loyal(net[a.node]) && Unanimous(net[a.node]);
      UnanimousProcStep(net[a.node], a.event);
    }
    forall n | n in net
      ensures Unanimous(Next(net, a)[n])
    {
      assert n != a.node ==> Unanimous(net[n]);
    }
  }

  lemma GenesisUnanimous(net: Net)
    requires Genesis(net)
    ensures AllUnanimous(net)
  {
    forall n | n in net
      ensures Unanimous(net[n])
    {
      assert Booted(net[n], n);
    }
  }

  lemma {:induction false} StaysUnanimous(run: seq<Net>, acts: seq<Act>, i: nat)
    requires IsRun(run, acts) && i < |run|
    requires forall j, n :: 0 <= j < i && n in run[j] ==> !Forced(run[j][n].s)
    ensures NetInv(run[i]) && AllUnanimous(run[i])
  {
    RunKeepsNetInv(run, acts, i);
    if i == 0 {
      GenesisUnanimous(run[0]);
    } else {
      StaysUnanimous(run, acts, i - 1);
      NeverAsked(run, acts, i - 1);
      HonestNodesStayOK(run, acts, {}, i - 1);
      assert Moves(run[i - 1], acts[i - 1], run[i]);
      UnanimousStep(run[i - 1], acts[i - 1]);
    }
  }

  lemma NobodyOutvotes(net: Net, m: PeerId)
    requires NetInv(net) && m in net
    ensures Outvoted(net[m], {})
  {
    assert Sane(net[m], m);
    NobodyAsked(net[m].h.wave + net[m].h.extras);
  }

  lemma NeverAsked(run: seq<Net>, acts: seq<Act>, i: nat)
    requires IsRun(run, acts) && i < |run|
    ensures forall j, n :: 0 <= j < i && n in run[j] ==> Outvoted(run[j][n], {})
  {
    forall j, n | 0 <= j < i && n in run[j]
      ensures Outvoted(run[j][n], {})
    {
      RunKeepsNetInv(run, acts, j);
      NobodyOutvotes(run[j], n);
    }
  }

  lemma UnanimousDecidesAtBeta(rounds: seq<Outcome>, beta: nat)
    requires FirstDecision(rounds, beta) && AllOK(rounds)
    ensures |rounds| == beta
  {
    if |rounds| > beta {
      forall j | 0 <= j < beta
        ensures rounds[..beta][j] == Majority(OK)
      {
        assert rounds[j] in rounds;
      }
      assert SuffixOf(rounds[..beta], beta, OK);
    }
  }

  /**
   * Without wrong voters every block is committed after exactly beta rounds and k * beta counted
   * votes, whatever is lost, late, repeated or replaced on the way.
   */
  lemma HonestNetworkTakesBetaRounds(run: seq<Net>, acts: seq<Act>, i: nat, n: PeerId, d: Decision)
    requires IsRun(run, acts) && i < |run| && n in run[i] && d in run[i][n].h.decided
    requires forall j, m :: 0 <= j < i && m in run[j] ==> !Forced(run[j][m].s)
    ensures d.color == OK && |d.rounds| == run[i][n].s.params.beta
    ensures d.votes == run[i][n].s.params.k * run[i][n].s.params.beta
  {
    StaysUnanimous(run, acts, i);
    var p := run[i][n];
    assert Sane(p, n) && Unanimous(p);
    assert DecisionInv(p);
    UnanimousDecidesAtBeta(d.rounds, p.s.params.beta);
  }

  /** What this node does in the rest of a run. */
  function OwnEvents(acts: seq<Act>, n: PeerId): seq<Event> {
    if acts == [] then []
    else (if acts[0].node == n then [acts[0].event] else []) + OwnEvents(acts[1..], n)
  }

  ghost predicate FollowsOwn(p: Proc, es: seq<Event>, q: Proc) {
    ValidRun(p, es) && q == After(p, es) && AllRoundsHave(p, es, OK)
  }

  /** A round that a node completes among honest nodes has majority OK. */
  lemma HonestRoundIsOK(p: Proc, e: Event)
    requires Inv(p) && Allowed(p.s, e) && Closes(p.s, e) && Unanimous(Advance(p, e))
    ensures OutcomeBy(p.s, e) == Majority(OK)
  {
    RoundDecidesExactly(p, e);
    ClosesDecidable(p);
    var q, rounds := Advance(p, e), p.h.rounds + [OutcomeBy(p.s, e)];
    hide Inv;
    assert q.h.rounds == rounds by {
      ClosingRounds(p, e);
    }
    assert rounds[|rounds| - 1] in rounds;
  }

  lemma ClosingRounds(p: Proc, e: Event)
    requires e.Deliver? && Started(p.s) && Decidable(p.s)
    ensures var rounds := p.h.rounds + [OutcomeBy(p.s, e)];
            Continuing(p, e.sender, e.vote, e.wave).h.rounds == rounds
            && Concluding(p, e.sender, e.vote).h.rounds == rounds
  {
  }

  /** The rest of a node's run among honest nodes is a run of its own, all rounds of which have majority OK. */
  lemma {:induction false} OwnRun(run: seq<Net>, acts: seq<Act>, i: nat, n: PeerId)
    requires IsRun(run, acts) && i < |run| && n in run[i]
    requires forall j, m :: 0 <= j < |run| && m in run[j] ==> !Forced(run[j][m].s)
    ensures n in run[|acts|] && FollowsOwn(run[i][n], OwnEvents(acts[i..], n), run[|acts|][n])
    decreases |acts| - i
  {
    hide Inv, Unanimous, Forced;
    if i < |acts| {
      var a := acts[i];
      assert Moves(run[i], a, run[i + 1]) && acts[i..][0] == a && acts[i..][1..] == acts[i + 1..];
      OwnRun(run, acts, i + 1, n);
      var rest := OwnEvents(acts[i + 1..], n);
      assert OwnEvents(acts[i..], n) == if a.node == n then [a.event] + rest else [] + rest;
      assert [] + rest == rest;
      if a.node == n {
        OwnStep(run, acts, i, n);
        FollowsOne(run[i][n], a.event, OwnEvents(acts[i + 1..], n), run[|acts|][n]);
      }
    } else {
      EmptyRun(run[i][n]);
    }
  }

  lemma OwnStep(run: seq<Net>, acts: seq<Act>, i: nat, n: PeerId)
    requires IsRun(run, acts) && i < |acts| && n in run[i] && acts[i].node == n
    requires forall j, m :: 0 <= j < |run| && m in run[j] ==> !Forced(run[j][m].s)
    ensures var p, e := run[i][n], acts[i].event;
            && Allowed(p.s, e) && n in run[i + 1] && run[i + 1][n] == Advance(p, e)
            && (Closes(p.s, e) ==> OutcomeBy(p.s, e) == Majority(OK))
  {
    hide Inv, Unanimous, Forced;
    var p, e := run[i][n], acts[i].event;
    assert Moves(run[i], acts[i], run[i + 1]);
    if Closes(p.s, e) {
      RunKeepsNetInv(run, acts, i);
      StaysUnanimous(run, acts, i + 1);
      assert Sane(p, n) && Unanimous(run[i + 1][n]);
      HonestRoundIsOK(p, e);
    }
  }

  lemma FollowsOne(p: Proc, e: Event, es: seq<Event>, q: Proc)
    requires Allowed(p.s, e) && FollowsOwn(Advance(p, e), es, q)
    requires Closes(p.s, e) ==> OutcomeBy(p.s, e) == Majority(OK)
    ensures FollowsOwn(p, [e] + es, q)
  {
    assert ([e] + es)[1..] == es;
  }

  /**
   * Without wrong voters an open sequence is decided by the votes its node counts, at most k * beta
   * of them: whatever else happens in the network, each counted vote brings it one vote nearer.
   */
  lemma HonestNetworkDecides(run: seq<Net>, acts: seq<Act>, i: nat, n: PeerId)
    requires IsRun(run, acts) && i < |run| && n in run[i] && run[i][n].s.phase == Listening
    requires forall j, m :: 0 <= j < |run| && m in run[j] ==> !Forced(run[j][m].s)
    ensures n in run[|acts|] && ValidRun(run[i][n], OwnEvents(acts[i..], n))
    ensures var p, q, heard := run[i][n], run[|acts|][n], VotesHeard(run[i][n], OwnEvents(acts[i..], n));
            && 1 <= Missing(p.s, OK) <= p.s.params.k * p.s.params.beta
            && p.h.decided <= q.h.decided
            && (heard >= Missing(p.s, OK) ==> q.h.decided != p.h.decided)
            && (q.h.decided == p.h.decided ==> Missing(q.s, OK) == Missing(p.s, OK) - heard)
  {
    RunKeepsNetInv(run, acts, i);
    assert Sane(run[i][n], n);
    OwnRun(run, acts, i, n);
    hide Inv, Forced;
    UnanimousRunDecides(run[i][n], OwnEvents(acts[i..], n), OK);
  }

  // ---------- Agreement ----------

  /** The block that sequence s stands for at this node. */
  function BlockOf(p: Proc, s: nat): BlockId
    requires p.h.headNum + 2 <= s < p.h.headNum + 2 + Opened(p)
  {
    var j := s - p.h.headNum - 2;
    if j < |p.h.decided| then p.h.decided[j].id else p.s.decisionBlock
  }

  predicate Comparable<T(==)>(a: seq<T>, b: seq<T>) {
    a <= b || b <= a
  }

  /** The s-th sequence is about the arrival of the same rank. */
  lemma SequenceNamesArrival(p: Proc, s: nat)
    requires QueueInv(p) && p.h.headNum + 2 <= s <= p.s.seqNum
    ensures p.s.seqNum == p.h.headNum + 1 + Opened(p)
    ensures s - p.h.headNum - 2 < |p.h.arrivals|
    ensures BlockOf(p, s) == p.h.arrivals[s - p.h.headNum - 2]
  {
    OpenedBlockIsArrival(p);
  }

  lemma {:induction false} ArrivalsGrow(run: seq<Net>, acts: seq<Act>, i: nat, n: PeerId)
    requires IsRun(run, acts) && i < |run| && n in run[i]
    ensures n in run[|acts|] && run[i][n].h.arrivals <= run[|acts|][n].h.arrivals
    ensures run[i][n].h.headNum == run[|acts|][n].h.headNum
    decreases |acts| - i
  {
    if i < |acts| {
      assert Moves(run[i], acts[i], run[i + 1]);
      HistoryGrows(run[i][acts[i].node], acts[i].event);
      ArrivalsGrow(run, acts, i + 1, n);
    }
  }

  /** All nodes start from one head and receive prefixes of one order of blocks. */
  predicate OneOrder(net: Net, headNum: nat, order: seq<BlockId>) {
    forall n :: n in net ==> net[n].h.headNum == headNum && net[n].h.arrivals <= order
  }

  /**
   * Messages carry no block id, yet under one order a sequence number stands for the same block at
   * every node and every time, and the logs of decided blocks never diverge.
   */
  lemma Agreement(run: seq<Net>, acts: seq<Act>, headNum: nat, order: seq<BlockId>,
                  i: nat, x: PeerId, j: nat, y: PeerId)
    requires IsRun(run, acts) && OneOrder(run[|acts|], headNum, order)
    requires i < |run| && x in run[i] && j < |run| && y in run[j]
    ensures Comparable(DecidedIds(run[i][x].h.decided), DecidedIds(run[j][y].h.decided))
    ensures forall s :: headNum + 2 <= s <= run[i][x].s.seqNum && s <= run[j][y].s.seqNum ==>
              && run[i][x].s.seqNum == run[i][x].h.headNum + 1 + Opened(run[i][x]) && run[i][x].h.headNum == headNum
              && run[j][y].s.seqNum == run[j][y].h.headNum + 1 + Opened(run[j][y]) && run[j][y].h.headNum == headNum
              && BlockOf(run[i][x], s) == BlockOf(run[j][y], s)
  {
    ArrivalsGrow(run, acts, i, x);
    ArrivalsGrow(run, acts, j, y);
    RunKeepsNetInv(run, acts, i);
    RunKeepsNetInv(run, acts, j);
    assert Sane(run[i][x], x) && Sane(run[j][y], y);
    TwoProcsAgree(run[i][x], run[j][y], headNum, order);
  }

  lemma TwoProcsAgree(p: Proc, q: Proc, headNum: nat, order: seq<BlockId>)
    requires QueueInv(p) && QueueInv(q) && p.h.headNum == q.h.headNum == headNum
    requires p.h.arrivals <= order && q.h.arrivals <= order
    ensures Comparable(DecidedIds(p.h.decided), DecidedIds(q.h.decided))
    ensures p.s.seqNum == headNum + 1 + Opened(p) && q.s.seqNum == headNum + 1 + Opened(q)
    ensures forall s :: headNum + 2 <= s <= p.s.seqNum && s <= q.s.seqNum ==> BlockOf(p, s) == BlockOf(q, s)
  {
    DecidedIsPrefix(p, order);
    DecidedIsPrefix(q, order);
    assert p.s.seqNum == headNum + 1 + Opened(p) && q.s.seqNum == headNum + 1 + Opened(q);
    hide QueueInv, BlockOf;
    forall s | headNum + 2 <= s <= p.s.seqNum && s <= q.s.seqNum
      ensures BlockOf(p, s) == BlockOf(q, s)
    {
      SequenceNamesArrival(p, s);
      SequenceNamesArrival(q, s);
    }
  }

  lemma DecidedIsPrefix(p: Proc, order: seq<BlockId>)
    requires QueueInv(p) && p.h.arrivals <= order
    ensures DecidedIds(p.h.decided) <= order
  {
  }

  /** Under one order and outvoted wrong voters the committed chains of honest nodes never diverge. */
  lemma CommittedChainsAgree(run: seq<Net>, acts: seq<Act>, headNum: nat, order: seq<BlockId>, w: set<PeerId>,
                             i: nat, x: PeerId, j: nat, y: PeerId)
    requires IsRun(run, acts) && OneOrder(run[|acts|], headNum, order)
    requires i < |run| && x in run[i] && x !in w && j < |run| && y in run[j] && y !in w
    requires forall t, m :: 0 <= t < |run| && m in run[t] && m !in w ==> !Forced(run[t][m].s) && Outvoted(run[t][m], w)
    ensures Comparable(Commits(run[i][x].s.calls), Commits(run[j][y].s.calls))
  {
    WrongVotersAreHarmless(run, acts, w, i, x);
    WrongVotersAreHarmless(run, acts, w, j, y);
    Agreement(run, acts, headNum, order, i, x, j, y);
  }

  /** So they never diverge in a network without wrong voters, however many replacements are drawn. */
  lemma HonestChainsAgree(run: seq<Net>, acts: seq<Act>, headNum: nat, order: seq<BlockId>,
                          i: nat, x: PeerId, j: nat, y: PeerId)
    requires IsRun(run, acts) && OneOrder(run[|acts|], headNum, order)
    requires i < |run| && x in run[i] && j < |run| && y in run[j]
    requires forall t, m :: 0 <= t < |run| && m in run[t] ==> !Forced(run[t][m].s)
    ensures Comparable(Commits(run[i][x].s.calls), Commits(run[j][y].s.calls))
  {
    forall t, m | 0 <= t < |run| && m in run[t]
      ensures Outvoted(run[t][m], {})
    {
      RunKeepsNetInv(run, acts, t);
      NobodyOutvotes(run[t], m);
    }
    hide Outvoted, IsRun;
    CommittedChainsAgree(run, acts, headNum, order, {}, i, x, j, y);
  }
}
