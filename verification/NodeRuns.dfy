/**
 * Runs of one node: events, the history they leave behind, and the invariant of every
 * reachable state.
 */
module NodeRuns {
  import opened SnowballTypes
  import opened RoundTally
  import opened NodeSpec

  /** One handler call, with the environment's input and the random choices made in it. */
  datatype Event =
    | Poll(headNum: nat, wave: seq<PeerId>)
    | Arrive(block: Block)
    | Connect(peer: PeerId)
    | Disconnect(peer: PeerId)
    | Deliver(sender: PeerId, kind: Kind, vote: u8, seqNum: nat, extra: PeerId, wave: seq<PeerId>)
    | Expire(expired: set<PeerId>, extras: seq<PeerId>)

  /** A decided block with the colour it got, the rounds it took, their votes and how many it cost. */
  datatype Decision = Decision(id: BlockId, color: BinaryColor, rounds: seq<Outcome>, ballots: seq<seq<u8>>, votes: nat)

  /** Auxiliary variables: no handler reads them. */
  datatype History = History(
    headNum: nat,                 // number of the chain head at startup
    headId: BlockId,              // and its id
    arrivals: seq<BlockId>,       // every BlockNew, in order
    decided: seq<Decision>,       // every call of handle_decision, in order
    stale: seq<BlockId>,          // blocks failed by handle_queue for being too old
    rounds: seq<Outcome>,         // finished rounds of the current (or last) sequence
    votes: seq<u8>,               // votes counted in the current round
    ballots: seq<seq<u8>>,        // votes of each finished round of the sequence
    wave: seq<PeerId>,            // sample of the current round
    extras: seq<PeerId>,          // replacements drawn in the current round
    invalid: nat,                 // awaited votes other than 0 and 1 in the current round
    replacements: nat,            // replacements over the whole sequence
    counted: multiset<PeerId>,    // senders of the votes counted in the sequence
    dropped: multiset<PeerId>)    // peers struck off without a counted vote in the sequence

  datatype Proc = Proc(s: Node, h: History)

  // ---------- One step ----------

  /** The handler would not panic on this event. */
  predicate Runs(s: Node, e: Event) {
    match e
    case Connect(_) => s.id in s.memberIds
    case Disconnect(peer) => peer in s.memberIds && s.id in Without(s.memberIds, PositionOf(s.memberIds, peer))
    case Deliver(sender, kind, vote, _, _, _) => kind == Response && Completes(s, sender, vote) ==> Decidable(s)
    case _ => true
  }

  function Step(s: Node, e: Event): Node
    requires Runs(s, e)
  {
    match e
    case Poll(headNum, wave) => HandleQueue(s, headNum, wave)
    case Arrive(block) => BlockNew(s, block)
    case Connect(peer) => Connected(s, peer)
    case Disconnect(peer) => Disconnected(s, peer)
    case Deliver(sender, Request, _, seqNum, _, _) => AnswerRequest(s, sender, seqNum)
    case Deliver(sender, Response, vote, _, _, wave) => TakeResponse(s, sender, vote, wave, wave)
    case Deliver(sender, Unavailable, _, _, extra, _) => TakeUnavailable(s, sender, extra)
    case Deliver(_, Other, _, _, _, _) => s
    case Expire(expired, extras) => HandleUnresponsive(s, expired, extras)
  }

  /** The random choices are ones the sampling loops can make; only expired peers are struck off. */
  ghost predicate GoodDraws(s: Node, e: Event)
    requires Runs(s, e)
  {
    match e
    case Poll(headNum, wave) => Opens(s, headNum) ==> FreshWave(s, wave)
    case Deliver(sender, Response, vote, _, _, wave) =>
      Completes(s, sender, vote) && Step(s, e).phase == Listening ==> FreshWave(s, wave)
    case Deliver(sender, Unavailable, _, _, extra, _) =>
      Awaited(s, sender) ==> FreshExtras(s.(waiting := s.waiting - {sender}), [extra])
    case Expire(expired, extras) =>
      expired <= s.waiting && |extras| == |expired| && FreshExtras(s.(waiting := s.waiting - expired), extras)
    case _ => true
  }

  /** What the model asks of the environment: members enough to sample from, and never itself leaving. */
  predicate Fits(s: Node, e: Event) {
    e.Disconnect? ==> e.peer in s.memberIds && e.peer != s.id && s.params.k <= |s.memberIds| - 2
  }

  ghost predicate Allowed(s: Node, e: Event) {
    Fits(s, e) && Runs(s, e) && GoodDraws(s, e)
  }

  // ---------- What the step adds to the history ----------

  function NewRound(h: History, wave: seq<PeerId>): History {
    h.(votes := [], wave := wave, extras := [], invalid := 0)
  }

  /** A completed round; `r` is the state after it. */
  function CloseRound(h: History, s: Node, r: Node, wave: seq<PeerId>): History
    requires s.seqNum in r.decisionMap && r.decisionMap[s.seqNum] != Undecided
  {
    var h1 := h.(rounds := h.rounds + [OutcomeOf(s.responseBuffer, s.params.alfa)], ballots := h.ballots + [h.votes]);
    if r.phase == Listening then NewRound(h1, wave)
    else
      var d := Decision(s.decisionBlock, r.decisionMap[s.seqNum], h1.rounds, h1.ballots, |h1.counted|);
      h1.(decided := h.decided + [d])
  }

  function Substitute(h: History, gone: multiset<PeerId>, extras: seq<PeerId>): History {
    h.(dropped := h.dropped + gone, extras := h.extras + extras, replacements := h.replacements + |extras|)
  }

  function Record(s: Node, h: History, e: Event): History
    requires Runs(s, e)
  {
    match e
    case Poll(headNum, wave) =>
      if !Pending(s) then h
      else if !Opens(s, headNum) then h.(stale := h.stale + [s.queue[0].id])
      else
        var h1 := h.(rounds := [], ballots := [], replacements := 0, counted := multiset{}, dropped := multiset{});
        NewRound(h1, wave)
    case Arrive(block) => h.(arrivals := h.arrivals + [block.id])
    case Deliver(sender, Response, vote, _, _, wave) =>
      if !Awaited(s, sender) then h
      else if vote > 1 then h.(invalid := h.invalid + 1, dropped := h.dropped + multiset{sender})
      else
        var h1 := h.(counted := h.counted + multiset{sender}, votes := h.votes + [vote]);
        var r := Step(s, e);
        if Completes(s, sender, vote) && s.seqNum in r.decisionMap && r.decisionMap[s.seqNum] != Undecided
        then CloseRound(h1, CountVote(s, sender, vote), r, wave)
        else h1
    case Deliver(sender, Unavailable, _, _, extra, _) =>
      if Awaited(s, sender) then Substitute(h, multiset{sender}, [extra]) else h
    case Expire(expired, extras) => Substitute(h, multiset(expired), extras)
    case _ => h
  }

  function Advance(p: Proc, e: Event): Proc
    requires Runs(p.s, e)
  {
    Proc(Step(p.s, e), Record(p.s, p.h, e))
  }

  // ---------- The invariant ----------

  ghost predicate ConfigInv(s: Node) {
    s.params.Sound() && MembersOk(s) && s.params.k <= |s.memberIds| - 1
  }

  /** Every slot of the round is a counted vote, an awaited peer or an invalid vote. */
  predicate SlotInv(p: Proc) {
    match p.s.phase
    case Idle => p.s.waiting == {} && p.s.responseBuffer.Total() <= p.s.params.k
    case Listening =>
      && p.s.responseBuffer.Total() + |p.s.waiting| + p.h.invalid == p.s.params.k
      && p.s.responseBuffer.Total() < p.s.params.k
    case Finishing => false
  }

  /** The counters are those of the round history, which has not decided while Listening. */
  ghost predicate TallyInv(p: Proc) {
    if p.s.phase == Listening then
      Started(p.s) && StandingOf(p.s) == Replay(p.h.rounds) && Open(p.h.rounds, p.s.params.beta)
    else if p.h.decided == [] then
      p.h.rounds == []
    else
      && Started(p.s) && StandingOf(p.s) == Replay(p.h.rounds)
      && p.h.rounds == p.h.decided[|p.h.decided| - 1].rounds
  }

  function Ids(blocks: seq<Block>): seq<BlockId> {
    seq(|blocks|, i requires 0 <= i < |blocks| => blocks[i].id)
  }

  function DecidedIds(decided: seq<Decision>): seq<BlockId> {
    seq(|decided|, i requires 0 <= i < |decided| => decided[i].id)
  }

  /** Decided blocks, then the queue, are the arrivals; the block being decided is at the front. */
  ghost predicate QueueInv(p: Proc) {
    && p.h.arrivals == DecidedIds(p.h.decided) + Ids(p.s.queue)
    && (forall id :: id in p.h.arrivals ==> id in p.s.stamped)
    && p.s.seqNum == p.h.headNum + 1 + |p.h.decided| + (if p.s.phase == Listening then 1 else 0)
    && p.s.decisionBlock == (if p.s.phase == Listening then (if p.s.queue == [] then [] else p.s.queue[0].id)
                             else if p.h.decided == [] then [] else p.h.decided[|p.h.decided| - 1].id)
    && (p.s.phase == Listening ==> p.s.queue != [])
  }

  /** The id that precedes the i-th arrival; the empty id precedes the first. */
  function PreviousId(arrivals: seq<BlockId>, i: nat): BlockId
    requires i <= |arrivals|
  {
    if i == 0 then [] else arrivals[i - 1]
  }

  function Opened(p: Proc): nat {
    |p.h.decided| + (if p.s.phase == Listening then 1 else 0)
  }

  /** The first n arrivals exist, and each differs from the one before it. */
  predicate FreshUpTo(arrivals: seq<BlockId>, n: nat) {
    && n <= |arrivals|
    && forall i :: 0 <= i < n ==> arrivals[i] != PreviousId(arrivals, i)
  }

  /** Only blocks that differ from their predecessor were ever opened. */
  predicate FreshInv(p: Proc) {
    FreshUpTo(p.h.arrivals, Opened(p))
  }

  /** Sequence number of the i-th decided block. */
  function SeqOf(h: History, i: nat): nat {
    h.headNum + 2 + i
  }

  /** Colours are kept for sequence 0 and for every opened one; those of decided ones are final. */
  ghost predicate ColorInv(p: Proc) {
    && (forall n :: n in p.s.decisionMap <==> n == 0 || p.h.headNum + 2 <= n <= p.s.seqNum)
    && p.s.decisionMap[0] == Undecided
    && (forall i :: 0 <= i < |p.h.decided| ==>
          SeqOf(p.h, i) in p.s.decisionMap && p.s.decisionMap[SeqOf(p.h, i)] == p.h.decided[i].color)
  }

  /** Each decision was made at the first moment its rounds decide, with their preference. */
  ghost predicate DecisionInv(p: Proc) {
    forall d :: d in p.h.decided ==>
      && FirstDecision(d.rounds, p.s.params.beta)
      && d.color == Replay(d.rounds).pref
      && d.votes == p.s.params.k * |d.rounds|
  }

  /** A full buffer always has a majority. */
  predicate NeverSplits(params: Params) {
    params.k == 2 * params.alfa - 1
  }

  /** Under such settings no round was ever without one. */
  ghost predicate MajorityInv(p: Proc) {
    NeverSplits(p.s.params) ==>
      AllMajorities(p.h.rounds) && forall d :: d in p.h.decided ==> AllMajorities(d.rounds)
  }

  /** The buffer counts the votes of the round, and every recorded outcome is that of its k votes. */
  ghost predicate BallotInv(p: Proc) {
    && (p.s.phase == Listening ==>
          && p.s.responseBuffer == Tally(VotesFor(p.h.votes, KO), VotesFor(p.h.votes, OK))
          && |p.h.votes| == p.s.responseBuffer.Total() && forall v :: v in p.h.votes ==> v <= 1)
    && Balloted(p.h.rounds, p.h.ballots, p.s.params.alfa, p.s.params.k)
    && forall d :: d in p.h.decided ==> Balloted(d.rounds, d.ballots, p.s.params.alfa, p.s.params.k)
  }

  function CommittedIds(decided: seq<Decision>): seq<BlockId> {
    if decided == [] then []
    else
      var d := decided[|decided| - 1];
      CommittedIds(decided[..|decided| - 1]) + (if d.color == OK then [d.id] else [])
  }

  function FailedIds(decided: seq<Decision>): seq<BlockId> {
    if decided == [] then []
    else
      var d := decided[|decided| - 1];
      FailedIds(decided[..|decided| - 1]) + (if d.color == KO then [d.id] else [])
  }

  function Commits(calls: seq<Call>): seq<BlockId> {
    if calls == [] then []
    else
      var c := calls[|calls| - 1];
      Commits(calls[..|calls| - 1]) + (if c.Commit? then [c.id] else [])
  }

  function Fails(calls: seq<Call>): seq<BlockId> {
    if calls == [] then []
    else
      var c := calls[|calls| - 1];
      Fails(calls[..|calls| - 1]) + (if c.Fail? then [c.id] else [])
  }

  function Checks(calls: seq<Call>): seq<BlockId> {
    if calls == [] then []
    else
      var c := calls[|calls| - 1];
      Checks(calls[..|calls| - 1]) + (if c.Check? then [c.id] else [])
  }

  /** The validator was asked to check every opened block, once and in order. */
  predicate ChecksMatch(calls: seq<Call>, arrivals: seq<BlockId>, n: nat) {
    n <= |arrivals| && Checks(calls) == arrivals[..n]
  }

  predicate CheckInv(p: Proc) {
    ChecksMatch(p.s.calls, p.h.arrivals, Opened(p))
  }

  /** The validator saw one commit or fail per decision, in order, and no other commit. */
  predicate LogsMatch(calls: seq<Call>, decided: seq<Decision>, stale: seq<BlockId>) {
    && Commits(calls) == CommittedIds(decided)
    && multiset(Fails(calls)) == multiset(FailedIds(decided)) + multiset(stale)
  }

  /** The last committed block, or the startup head. */
  function HeadAfter(decided: seq<Decision>, headId: BlockId): BlockId {
    var c := CommittedIds(decided); if c == [] then headId else c[|c| - 1]
  }

  predicate CallInv(p: Proc) {
    && LogsMatch(p.s.calls, p.h.decided, p.h.stale)
    && p.s.chainHead == HeadAfter(p.h.decided, p.h.headId)
  }

  /** Destinations of the requests sent for a sequence. */
  function Requested(sent: seq<Packet>, seqNum: nat): multiset<PeerId> {
    if sent == [] then multiset{}
    else
      var m := sent[|sent| - 1];
      Requested(sent[..|sent| - 1], seqNum)
      + (if m.kind == Request && m.seqNum == seqNum then multiset{m.dst} else multiset{})
  }

  function RoundsStarted(p: Proc): nat {
    |p.h.rounds| + (if p.s.phase == Listening then 1 else 0)
  }

  /** Every request of the sequence is awaited, was counted once, or was struck off. */
  predicate Balanced(requested: multiset<PeerId>, waiting: set<PeerId>, h: History) {
    requested == multiset(waiting) + h.counted + h.dropped
  }

  /** Requests sent and votes counted, by number. */
  predicate Totals(requested: nat, p: Proc) {
    && requested == p.s.params.k * RoundsStarted(p) + p.h.replacements
    && |p.h.counted| == p.s.params.k * |p.h.rounds| + (if p.s.phase == Listening then p.s.responseBuffer.Total() else 0)
  }

  predicate LedgerInv(p: Proc) {
    var requested := Requested(p.s.sent, p.s.seqNum);
    Balanced(requested, p.s.waiting, p.h) && Totals(|requested|, p)
  }

  ghost predicate SentInv(p: Proc) {
    && p.s.id !in p.s.waiting
    && forall m :: m in p.s.sent ==>
         && m.src == p.s.id && m.vote <= 1
         && (m.kind == Request ==> m.dst != p.s.id && p.h.headNum + 2 <= m.seqNum <= p.s.seqNum)
  }

  ghost predicate Inv(p: Proc) {
    && ConfigInv(p.s) && SlotInv(p) && TallyInv(p) && QueueInv(p) && ColorInv(p)
    && FreshInv(p) && CheckInv(p) && DecisionInv(p) && MajorityInv(p)
    && BallotInv(p) && CallInv(p) && LedgerInv(p) && SentInv(p)
  }

  // ---------- The invariant holds at startup ----------

  function Boot(params: Params, members: seq<PeerId>, id: PeerId, headNum: nat, headId: BlockId): Proc
    requires id in members
  {
    Proc(Startup(params, members, id, headNum, headId),
         History(headNum, headId, [], [], [], [], [], [], [], [], 0, 0, multiset{}, multiset{}))
  }

  /** A node just started with a sound configuration. */
  ghost predicate Booted(p: Proc, id: PeerId) {
    && id in p.s.memberIds && Distinct(p.s.memberIds)
    && p.s.params.Sound() && p.s.params.k <= |p.s.memberIds| - 1
    && p == Boot(p.s.params, p.s.memberIds, id, p.h.headNum, p.h.headId)
  }

  lemma BootInv(params: Params, members: seq<PeerId>, id: PeerId, headNum: nat, headId: BlockId)
    requires id in members && Distinct(members) && params.Sound() && params.k <= |members| - 1
    ensures Inv(Boot(params, members, id, headNum, headId))
  {
    var p := Boot(params, members, id, headNum, headId);
    NothingHappened(p);
    NothingLogged(p);
  }

  lemma NothingHappened(p: Proc)
    requires p.s.params.Sound() && MembersOk(p.s) && p.s.params.k <= |p.s.memberIds| - 1
    requires p.s.phase == Idle && p.s.waiting == {} && p.s.responseBuffer == Tally(0, 0) && p.s.queue == []
    requires p.s.decisionBlock == [] && p.s.seqNum == p.h.headNum + 1 && p.s.decisionMap == map[0 := Undecided]
    requires p.h.arrivals == [] && p.h.decided == [] && p.h.rounds == [] && p.h.ballots == []
    ensures ConfigInv(p.s) && SlotInv(p) && TallyInv(p) && QueueInv(p) && ColorInv(p) && FreshInv(p)
    ensures DecisionInv(p) && MajorityInv(p) && BallotInv(p)
  {
    assert p.h.arrivals == DecidedIds(p.h.decided) + Ids(p.s.queue);
  }

  lemma NothingLogged(p: Proc)
    requires p.s.calls == [] || p.s.calls == [Initialize]
    requires p.s.phase == Idle && p.s.waiting == {} && p.s.sent == [] && p.s.chainHead == p.h.headId
    requires p.h.arrivals == [] && p.h.decided == [] && p.h.rounds == [] && p.h.stale == []
    requires p.h.counted == p.h.dropped == multiset{} && p.h.replacements == 0
    ensures CheckInv(p) && CallInv(p) && LedgerInv(p) && SentInv(p)
  {
    LogAppend([], Initialize);
    assert [] + [Initialize] == [Initialize];
  }

  // ---------- No handler panics ----------

  /** In every state of the invariant the handlers find what they unwrap. */
  lemma NoPanic(p: Proc, e: Event)
    requires Inv(p) && Fits(p.s, e)
    ensures Runs(p.s, e)
  {
    if e.Deliver? && p.s.phase == Listening {
      ClosesDecidable(p);
    }
    if e.Disconnect? {
      StaysMember(p.s, e.peer);
    }
    assert MembersOk(p.s);
    hide Inv, Decidable;
    assert p.s.memberIds[p.s.order] == p.s.id;
  }

  lemma StaysMember(s: Node, peer: PeerId)
    requires MembersOk(s) && peer in s.memberIds && peer != s.id
    ensures s.id in Without(s.memberIds, PositionOf(s.memberIds, peer))
  {
    var i := PositionOf(s.memberIds, peer);
    var rest := Without(s.memberIds, i);
    assert rest[if s.order < i then s.order else s.order - 1] == s.id;
  }

  // ---------- Logs, one entry at a time ----------

  lemma LogAppend(calls: seq<Call>, c: Call)
    ensures Commits(calls + [c]) == Commits(calls) + (if c.Commit? then [c.id] else [])
    ensures Fails(calls + [c]) == Fails(calls) + (if c.Fail? then [c.id] else [])
    ensures Checks(calls + [c]) == Checks(calls) + (if c.Check? then [c.id] else [])
  {
    assert (calls + [c])[..|calls + [c]| - 1] == calls;
  }

  lemma DecisionsAppend(decided: seq<Decision>, d: Decision)
    ensures CommittedIds(decided + [d]) == CommittedIds(decided) + (if d.color == OK then [d.id] else [])
    ensures FailedIds(decided + [d]) == FailedIds(decided) + (if d.color == KO then [d.id] else [])
    ensures DecidedIds(decided + [d]) == DecidedIds(decided) + [d.id]
  {
    assert (decided + [d])[..|decided + [d]| - 1] == decided;
  }

  lemma RequestedAppend(sent: seq<Packet>, m: Packet, n: nat)
    ensures Requested(sent + [m], n)
         == Requested(sent, n) + (if m.kind == Request && m.seqNum == n then multiset{m.dst} else multiset{})
  {
    assert (sent + [m])[..|sent + [m]| - 1] == sent;
  }

  lemma {:induction false} RequestedWave(s: Node, sent: seq<Packet>, peers: seq<PeerId>)
    ensures Requested(sent + Requests(s, peers), s.seqNum) == Requested(sent, s.seqNum) + multiset(peers)
  {
    if peers == [] {
      assert sent + Requests(s, peers) == sent;
    } else {
      var before, p := peers[..|peers| - 1], peers[|peers| - 1];
      assert peers == before + [p];
      RequestsAppend(s, before, p);
      var m := Packet(s.id, p, Request, 0, s.seqNum);
      calc {
        Requested(sent + Requests(s, peers), s.seqNum);
        { assert sent + Requests(s, peers) == sent + Requests(s, before) + [m]; }
        Requested(sent + Requests(s, before) + [m], s.seqNum);
        { RequestedAppend(sent + Requests(s, before), m, s.seqNum); }
        Requested(sent + Requests(s, before), s.seqNum) + multiset{p};
        { RequestedWave(s, sent, before); }
        Requested(sent, s.seqNum) + multiset(before) + multiset{p};
      }
    }
  }

  lemma {:induction false} NothingRequested(sent: seq<Packet>, n: nat)
    requires forall m :: m in sent && m.kind == Request ==> m.seqNum != n
    ensures Requested(sent, n) == multiset{}
  {
    if sent != [] {
      assert sent[|sent| - 1] in sent;
      NothingRequested(sent[..|sent| - 1], n);
    }
  }

  // ---------- A completed round, in closed form ----------

  /** The standing after the round that this vote completes. */
  function Closing(s: Node, sender: PeerId, vote: u8): Standing
    requires Started(s)
  {
    Absorb(StandingOf(s), OutcomeOf(CountVote(s, sender, vote).responseBuffer, s.params.alfa))
  }

  function CountedHistory(p: Proc, sender: PeerId, vote: u8): History {
    p.h.(counted := p.h.counted + multiset{sender},
         votes := p.h.votes + [vote],
         ballots := p.h.ballots + [p.h.votes + [vote]],
         rounds := p.h.rounds + [OutcomeOf(CountVote(p.s, sender, vote).responseBuffer, p.s.params.alfa)])
  }

  /** The round is followed by a fresh one. */
  function Continuing(p: Proc, sender: PeerId, vote: u8, wave: seq<PeerId>): Proc
    requires Started(p.s)
  {
    Proc(Forward(WithStanding(CountVote(p.s, sender, vote), Closing(p.s, sender, vote)), wave),
         NewRound(CountedHistory(p, sender, vote), wave))
  }

  /** The round closes the sequence. */
  function Concluding(p: Proc, sender: PeerId, vote: u8): Proc
    requires Started(p.s) && p.s.decisionBlock in p.s.stamped
  {
    var t, h := Closing(p.s, sender, vote), CountedHistory(p, sender, vote);
    Proc(Concluded(CountVote(p.s, sender, vote), t),
         h.(decided := h.decided + [Decision(p.s.decisionBlock, t.pref, h.rounds, h.ballots, |h.counted|)]))
  }

  predicate Closes(s: Node, e: Event) {
    e.Deliver? && e.kind == Response && Completes(s, e.sender, e.vote)
  }

  lemma CompletedRound(p: Proc, e: Event)
    requires p.s.params.Sound() && Decidable(p.s) && Started(p.s) && Closes(p.s, e)
    ensures Advance(p, e) == if Closing(p.s, e.sender, e.vote).confidence >= p.s.params.beta
                             then Concluding(p, e.sender, e.vote) else Continuing(p, e.sender, e.vote, e.wave)
  {
    RoundCloses(CountVote(p.s, e.sender, e.vote), e.wave, e.wave);
  }

  // ---------- Each event keeps each part of the invariant ----------

  lemma StepKeepsIdentity(s: Node, e: Event)
    requires Runs(s, e)
    ensures Step(s, e).params == s.params && Step(s, e).id == s.id
    ensures !e.Connect? && !e.Disconnect? ==> SameIdentity(s, Step(s, e))
  {
  }

  lemma ConfigKept(s: Node, e: Event)
    requires ConfigInv(s) && Fits(s, e) && Runs(s, e)
    ensures ConfigInv(Step(s, e))
  {
    StepKeepsIdentity(s, e);
    match e {
      case Connect(peer) => ConnectedMembers(s, peer);
      case Disconnect(peer) => DisconnectedMembers(s, peer);
      case _ =>
    }
  }

  lemma ConnectedMembers(s: Node, peer: PeerId)
    requires MembersOk(s)
    ensures s.id in s.memberIds && MembersOk(Connected(s, peer))
    ensures |Connected(s, peer).memberIds| >= |s.memberIds|
  {
    assert s.memberIds[s.order] == s.id;
  }

  lemma DisconnectedMembers(s: Node, peer: PeerId)
    requires MembersOk(s) && peer in s.memberIds && peer != s.id
    requires s.id in Without(s.memberIds, PositionOf(s.memberIds, peer))
    ensures MembersOk(Disconnected(s, peer))
    ensures |Disconnected(s, peer).memberIds| == |s.memberIds| - 1
  {
    var i := PositionOf(s.memberIds, peer);
    var rest := Without(s.memberIds, i);
    forall a, b | 0 <= a < b < |rest|
      ensures rest[a] != rest[b]
    {
      assert rest[a] == s.memberIds[if a < i then a else a + 1];
      assert rest[b] == s.memberIds[if b < i then b else b + 1];
    }
  }

  lemma ReplaceSlots(w: set<PeerId>, gone: set<PeerId>, extras: seq<PeerId>)
    requires gone <= w && Distinct(extras)
    requires forall p :: p in extras ==> p !in w - gone
    ensures |w - gone + ToSet(extras)| == |w| - |gone| + |extras|
    ensures multiset(w - gone + ToSet(extras)) + multiset(gone) == multiset(w) + multiset(extras)
  {
    DistinctCard(extras);
    assert w == (w - gone) + gone;
    assert multiset(w - gone + ToSet(extras)) == multiset(w - gone) + multiset(ToSet(extras));
    assert multiset(w) == multiset(w - gone) + multiset(gone);
  }

  lemma SlotOpens(p: Proc, headNum: nat, wave: seq<PeerId>)
    requires Opens(p.s, headNum) && FreshWave(p.s, wave) && p.s.phase == Idle && p.s.waiting == {} && p.s.params.k >= 1
    ensures SlotInv(Advance(p, Poll(headNum, wave)))
  {
    DistinctCard(wave);
    assert Advance(p, Poll(headNum, wave)).s.waiting == ToSet(wave);
  }

  lemma SlotSubstitutes(p: Proc, gone: set<PeerId>, extras: seq<PeerId>)
    requires SlotInv(p) && gone <= p.s.waiting && |extras| == |gone|
    requires FreshExtras(p.s.(waiting := p.s.waiting - gone), extras)
    ensures SlotInv(Proc(Replace(p.s.(waiting := p.s.waiting - gone), extras), Substitute(p.h, multiset(gone), extras)))
  {
    ReplaceSlots(p.s.waiting, gone, extras);
    if p.s.phase == Idle {
      assert |p.s.waiting - gone + ToSet(extras)| == 0;
    }
  }

  lemma SlotKept(p: Proc, e: Event)
    requires SlotInv(p) && Runs(p.s, e) && GoodDraws(p.s, e) && !Closes(p.s, e)
    requires Pending(p.s) ==> p.s.phase == Idle
    requires p.s.params.k >= 1
    ensures SlotInv(Advance(p, e))
  {
    match e {
      case Poll(headNum, wave) =>
        if Opens(p.s, headNum) {
          SlotOpens(p, headNum, wave);
        }
      case Deliver(sender, Unavailable, _, _, extra, _) =>
        if Awaited(p.s, sender) {
          SlotSubstitutes(p, {sender}, [extra]);
        }
      case Expire(expired, extras) => SlotSubstitutes(p, expired, extras);
      case Deliver(_, Response, _, _, _, _) => SlotHears(p, e);
      case _ =>
    }
  }

  lemma SlotHears(p: Proc, e: Event)
    requires SlotInv(p) && Runs(p.s, e) && !Closes(p.s, e) && e.Deliver? && e.kind == Response
    ensures SlotInv(Advance(p, e))
  {
  }

  /** A sequence is only opened from Idle, although the queue guard never looks at the phase. */
  lemma OpensOnlyIdle(p: Proc)
    requires QueueInv(p) && SlotInv(p) && Pending(p.s)
    ensures p.s.phase == Idle
  {
  }

  /** Nothing about the sequences changed. */
  predicate SameSequence(p: Proc, q: Proc) {
    && q.s.phase == p.s.phase && q.s.seqNum == p.s.seqNum && q.s.decisionMap == p.s.decisionMap
    && q.s.lastColor == p.s.lastColor && q.s.confidence == p.s.confidence && q.s.decisionArray == p.s.decisionArray
    && q.s.params == p.s.params && q.s.decisionBlock == p.s.decisionBlock && q.s.chainHead == p.s.chainHead
    && q.h.decided == p.h.decided && q.h.rounds == p.h.rounds && q.h.headNum == p.h.headNum && q.h.headId == p.h.headId
  }

  /** An event that neither opens a sequence nor closes a round. */
  predicate Quiet(s: Node, e: Event) {
    !Closes(s, e) && !(e.Poll? && Opens(s, e.headNum))
  }

  lemma QuietKeepsSequence(p: Proc, e: Event)
    requires Runs(p.s, e) && Quiet(p.s, e)
    ensures SameSequence(p, Advance(p, e))
  {
  }

  lemma TallyOpens(p: Proc, headNum: nat, wave: seq<PeerId>)
    requires Opens(p.s, headNum) && p.s.phase == Idle && p.s.params.beta >= 1
    ensures TallyInv(Advance(p, Poll(headNum, wave)))
  {
    var q := Advance(p, Poll(headNum, wave));
    assert Started(q.s) && StandingOf(q.s) == FRESH;
  }

  lemma TallyKept(p: Proc, e: Event)
    requires TallyInv(p) && Runs(p.s, e) && !Closes(p.s, e)
    requires Pending(p.s) ==> p.s.phase == Idle
    requires p.s.params.beta >= 1
    ensures TallyInv(Advance(p, e))
  {
    if Quiet(p.s, e) {
      QuietKeepsSequence(p, e);
    } else {
      TallyOpens(p, e.headNum, e.wave);
    }
  }

  lemma QueueArrives(p: Proc, block: Block)
    requires QueueInv(p)
    ensures QueueInv(Advance(p, Arrive(block)))
  {
    var q := Advance(p, Arrive(block));
    assert Ids(q.s.queue) == Ids(p.s.queue) + [block.id];
    assert q.h.arrivals == DecidedIds(q.h.decided) + Ids(q.s.queue);
  }

  lemma QueueUntouched(p: Proc, e: Event)
    requires Runs(p.s, e) && !Closes(p.s, e) && !e.Arrive?
    ensures var q := Advance(p, e);
            q.s.queue == p.s.queue && q.s.stamped == p.s.stamped && q.h.arrivals == p.h.arrivals
  {
  }

  lemma QueueKept(p: Proc, e: Event)
    requires QueueInv(p) && Runs(p.s, e) && !Closes(p.s, e)
    requires Pending(p.s) ==> p.s.phase == Idle
    ensures QueueInv(Advance(p, e))
  {
    if e.Arrive? {
      QueueArrives(p, e.block);
    } else {
      QueueUntouched(p, e);
      if Quiet(p.s, e) {
        QuietKeepsSequence(p, e);
      }
    }
  }

  lemma FreshExtends(a: seq<BlockId>, b: seq<BlockId>, n: nat)
    requires FreshUpTo(a, n) && a <= b
    ensures FreshUpTo(b, n)
  {
  }

  lemma FrontIsFresh(p: Proc)
    requires QueueInv(p) && Pending(p.s) && p.s.phase == Idle
    ensures |p.h.decided| < |p.h.arrivals|
    ensures p.h.arrivals[|p.h.decided|] == p.s.queue[0].id
    ensures p.h.arrivals[|p.h.decided|] != PreviousId(p.h.arrivals, |p.h.decided|)
  {
    assert p.h.arrivals[|p.h.decided|] == p.s.queue[0].id;
    assert p.s.decisionBlock == PreviousId(p.h.arrivals, |p.h.decided|);
  }

  lemma ArrivalsOnlyGrow(p: Proc, e: Event)
    requires Runs(p.s, e)
    ensures p.h.arrivals <= Advance(p, e).h.arrivals
  {
  }

  lemma FreshKept(p: Proc, e: Event)
    requires QueueInv(p) && FreshInv(p) && Runs(p.s, e) && !Closes(p.s, e)
    requires Pending(p.s) ==> p.s.phase == Idle
    ensures FreshInv(Advance(p, e))
  {
    hide QueueInv;
    ArrivalsOnlyGrow(p, e);
    FreshExtends(p.h.arrivals, Advance(p, e).h.arrivals, Opened(p));
    if Quiet(p.s, e) {
      QuietKeepsSequence(p, e);
    } else {
      FrontIsFresh(p);
    }
  }

  lemma ColorOpens(p: Proc, headNum: nat, wave: seq<PeerId>)
    requires ColorInv(p) && Opens(p.s, headNum)
    requires p.s.seqNum == p.h.headNum + 1 + |p.h.decided|
    ensures ColorInv(Advance(p, Poll(headNum, wave)))
  {
  }

  lemma ColorSame(p: Proc, q: Proc)
    requires ColorInv(p) && SameSequence(p, q)
    ensures ColorInv(q)
  {
    assert forall i :: SeqOf(q.h, i) == SeqOf(p.h, i);
  }

  lemma ColorKept(p: Proc, e: Event)
    requires ColorInv(p) && Runs(p.s, e) && !Closes(p.s, e)
    requires Pending(p.s) ==> p.s.seqNum == p.h.headNum + 1 + |p.h.decided|
    ensures ColorInv(Advance(p, e))
  {
    hide ColorInv;
    if Quiet(p.s, e) {
      QuietKeepsSequence(p, e);
      ColorSame(p, Advance(p, e));
    } else {
      ColorOpens(p, e.headNum, e.wave);
    }
  }

  lemma LogsKept(calls: seq<Call>, decided: seq<Decision>, stale: seq<BlockId>, c: Call)
    requires LogsMatch(calls, decided, stale) && !c.Commit?
    ensures LogsMatch(calls + [c], decided, if c.Fail? then stale + [c.id] else stale)
  {
    LogAppend(calls, c);
    assert c.Fail? ==> multiset(Fails(calls) + [c.id]) == multiset(Fails(calls)) + multiset{c.id};
    assert c.Fail? ==> multiset(stale + [c.id]) == multiset(stale) + multiset{c.id};
  }

  lemma CallKept(p: Proc, e: Event)
    requires CallInv(p) && Runs(p.s, e) && !Closes(p.s, e)
    ensures CallInv(Advance(p, e))
  {
    var q := Advance(p, e);
    if e.Poll? && Pending(p.s) {
      LogsKept(p.s.calls, p.h.decided, p.h.stale,
               if Opens(p.s, e.headNum) then Check(p.s.queue[0].id) else Fail(p.s.queue[0].id));
    } else {
      CallsUntouched(p, e);
    }
  }

  lemma ChecksLast(calls: seq<Call>, c: Call, a: seq<BlockId>, b: seq<BlockId>, n: nat)
    requires ChecksMatch(calls, a, n) && a <= b
    ensures !c.Check? ==> ChecksMatch(calls + [c], b, n)
    ensures c.Check? && n < |b| && b[n] == c.id ==> ChecksMatch(calls + [c], b, n + 1)
    ensures ChecksMatch(calls, b, n)
  {
    LogAppend(calls, c);
    assert a[..n] == b[..n];
    assert n < |b| ==> b[..n + 1] == b[..n] + [b[n]];
  }

  lemma CheckKept(p: Proc, e: Event)
    requires CheckInv(p) && Runs(p.s, e) && !Closes(p.s, e)
    requires Pending(p.s) ==> p.s.phase == Idle && |p.h.decided| < |p.h.arrivals|
                              && p.h.arrivals[|p.h.decided|] == p.s.queue[0].id
    ensures CheckInv(Advance(p, e))
  {
    hide ChecksMatch;
    var q := Advance(p, e);
    ArrivalsOnlyGrow(p, e);
    if e.Poll? && Pending(p.s) {
      ChecksLast(p.s.calls, if Opens(p.s, e.headNum) then Check(p.s.queue[0].id) else Fail(p.s.queue[0].id),
                 p.h.arrivals, q.h.arrivals, Opened(p));
    } else {
      ChecksLast(p.s.calls, Initialize, p.h.arrivals, q.h.arrivals, Opened(p));
      CallsUntouched(p, e);
      QuietKeepsSequence(p, e);
    }
  }

  lemma CallsUntouched(p: Proc, e: Event)
    requires Runs(p.s, e) && !Closes(p.s, e) && !(e.Poll? && Pending(p.s))
    ensures var q := Advance(p, e);
            && q.s.calls == p.s.calls && q.s.chainHead == p.s.chainHead && q.h.decided == p.h.decided
            && q.h.headId == p.h.headId && q.h.stale == p.h.stale
  {
  }

  lemma DecisionKept(p: Proc, e: Event)
    requires DecisionInv(p) && Runs(p.s, e) && !Closes(p.s, e)
    ensures DecisionInv(Advance(p, e))
  {
    hide FirstDecision, Replay;
    if Quiet(p.s, e) {
      QuietKeepsSequence(p, e);
    }
  }

  lemma MajorityKept(p: Proc, e: Event)
    requires MajorityInv(p) && Runs(p.s, e) && !Closes(p.s, e)
    ensures MajorityInv(Advance(p, e))
  {
    StepKeepsIdentity(p.s, e);
    if Quiet(p.s, e) {
      QuietKeepsSequence(p, e);
    }
  }

  lemma BallotKept(p: Proc, e: Event)
    requires BallotInv(p) && Runs(p.s, e) && !Closes(p.s, e)
    requires Pending(p.s) ==> p.s.phase == Idle
    ensures BallotInv(Advance(p, e))
  {
    hide Balloted, BallotInv;
    match e {
      case Poll(headNum, wave) => BallotPolled(p, headNum, wave);
      case Deliver(_, Response, _, _, _, _) => BallotHears(p, e);
      case _ => BallotUntouched(p, e);
    }
  }

  lemma BallotUntouched(p: Proc, e: Event)
    requires BallotInv(p) && Runs(p.s, e) && !e.Poll? && !(e.Deliver? && e.kind == Response)
    ensures BallotInv(Advance(p, e))
  {
    hide Balloted;
  }

  lemma BallotPolled(p: Proc, headNum: nat, wave: seq<PeerId>)
    requires BallotInv(p) && (Pending(p.s) ==> p.s.phase == Idle)
    ensures BallotInv(Advance(p, Poll(headNum, wave)))
  {
    NothingBalloted(p.s.params);
    NothingCounted();
    hide Balloted, VotesFor;
  }

  lemma BallotHears(p: Proc, e: Event)
    requires BallotInv(p) && Runs(p.s, e) && e.Deliver? && e.kind == Response && !Closes(p.s, e)
    ensures BallotInv(Advance(p, e))
  {
    hide Balloted, VotesFor;
    if Awaited(p.s, e.sender) && e.vote <= 1 {
      HeardOneMore(p.h.votes, p.s.responseBuffer, e.vote);
      assert Advance(p, e) == Proc(CountVote(p.s, e.sender, e.vote),
                                   p.h.(counted := p.h.counted + multiset{e.sender}, votes := p.h.votes + [e.vote]));
    } else {
      var q := Advance(p, e);
      assert q.h.votes == p.h.votes && q.s.responseBuffer == p.s.responseBuffer && q.s.phase == p.s.phase;
      assert q.h.rounds == p.h.rounds && q.h.ballots == p.h.ballots && q.h.decided == p.h.decided && q.s.params == p.s.params;
    }
  }

  lemma HeardOneMore(votes: seq<u8>, buffer: Tally, v: u8)
    requires buffer == Tally(VotesFor(votes, KO), VotesFor(votes, OK)) && |votes| == buffer.Total() && v <= 1
    requires forall w :: w in votes ==> w <= 1
    ensures buffer.Bump(v) == Tally(VotesFor(votes + [v], KO), VotesFor(votes + [v], OK))
    ensures |votes + [v]| == buffer.Bump(v).Total() && forall w :: w in votes + [v] ==> w <= 1
  {
    VotesForMore(votes, v, KO);
    VotesForMore(votes, v, OK);
  }

  lemma NothingBalloted(params: Params)
    ensures Balloted([], [], params.alfa, params.k)
  {
  }

  /** The packets this event adds, and to whom requests go. */
  lemma SentGrows(s: Node, e: Event)
    requires Runs(s, e) && GoodDraws(s, e) && !Closes(s, e)
    requires s.waiting != {} ==> s.phase == Listening
    requires e.Poll? && Pending(s) ==> s.phase == Idle
    ensures s.sent <= Step(s, e).sent
    ensures forall m :: m in Step(s, e).sent ==> m in s.sent || Authored(s, Step(s, e), m)
  {
    var r := Step(s, e);
    match e {
      case Poll(headNum, wave) =>
        if Opens(s, headNum) {
          assert r.sent == s.sent + Requests(r, wave);
          RequestsAre(r, wave);
        }
      case Deliver(sender, Request, _, _, _, _) =>
        assert |r.sent| == |s.sent| + 1 ==> r.sent == s.sent + [r.sent[|s.sent|]];
      case Deliver(sender, Unavailable, _, _, extra, _) =>
        if Awaited(s, sender) {
          assert r.sent == s.sent + Requests(r, [extra]);
          RequestsAre(r, [extra]);
        }
      case Expire(expired, extras) =>
        assert r.sent == s.sent + Requests(r, extras);
        RequestsAre(r, extras);
        if expired == {} {
          assert extras == [];
        }
      case _ =>
    }
  }

  /** A packet node s may add when it moves to r. */
  predicate Authored(s: Node, r: Node, m: Packet) {
    && m.src == s.id && m.vote <= 1
    && (m.kind == Request ==> m.dst != s.id && m.seqNum == r.seqNum && r.phase == Listening)
  }

  lemma SentKept(p: Proc, e: Event)
    requires SentInv(p) && Runs(p.s, e) && GoodDraws(p.s, e) && !Closes(p.s, e)
    requires QueueInv(p) && SlotInv(p) && QueueInv(Advance(p, e))
    ensures SentInv(Advance(p, e))
  {
    SentGrows(p.s, e);
    WaitingGrows(p.s, e);
  }

  lemma WaitingGrows(s: Node, e: Event)
    requires Runs(s, e) && GoodDraws(s, e) && !Closes(s, e) && s.id !in s.waiting
    ensures s.id !in Step(s, e).waiting
    ensures Step(s, e).seqNum >= s.seqNum
  {
  }

  lemma StrikeOff(w: set<PeerId>, x: PeerId)
    requires x in w
    ensures multiset(w) == multiset(w - {x}) + multiset{x}
    ensures |w - {x}| == |w| - 1
  {
  }

  lemma OpeningRequests(p: Proc, headNum: nat, wave: seq<PeerId>)
    requires Opens(p.s, headNum) && SentInv(p)
    ensures var q := Advance(p, Poll(headNum, wave)); Requested(q.s.sent, q.s.seqNum) == multiset(wave)
  {
    var q := Advance(p, Poll(headNum, wave));
    NothingRequested(p.s.sent, q.s.seqNum);
    RequestedWave(q.s, p.s.sent, wave);
    assert q.s.sent == p.s.sent + Requests(q.s, wave);
  }

  lemma LedgerOpens(p: Proc, headNum: nat, wave: seq<PeerId>)
    requires Opens(p.s, headNum) && FreshWave(p.s, wave) && p.s.phase == Idle && p.s.waiting == {}
    requires SentInv(p)
    ensures LedgerInv(Advance(p, Poll(headNum, wave)))
  {
    hide SentInv, Requested;
    var q := Advance(p, Poll(headNum, wave));
    OpeningRequests(p, headNum, wave);
    DistinctCard(wave);
    assert q.s.waiting == ToSet(wave);
  }

  lemma BalanceSubstitutes(requested: multiset<PeerId>, w: set<PeerId>, h: History, gone: set<PeerId>, extras: seq<PeerId>)
    requires Balanced(requested, w, h)
    requires gone <= w && Distinct(extras)
    requires forall p :: p in extras ==> p !in w - gone
    ensures Balanced(requested + multiset(extras), w - gone + ToSet(extras), Substitute(h, multiset(gone), extras))
  {
    ReplaceSlots(w, gone, extras);
    Rebalance(requested, multiset(w), multiset(w - gone + ToSet(extras)), h.counted, h.dropped, multiset(gone), multiset(extras));
  }

  lemma Rebalance<T>(r: multiset<T>, w: multiset<T>, w': multiset<T>, c: multiset<T>, d: multiset<T>,
                     g: multiset<T>, x: multiset<T>)
    requires r == w + c + d && w' + g == w + x
    ensures r + x == w' + c + (d + g)
  {
    assert r + x == (w + x) + c + d;
    assert (w' + g) + c + d == w' + c + (d + g);
  }

  /** Peers struck off and replaced: the ledger moves them to `dropped` and adds the new requests. */
  lemma LedgerSubstitutes(p: Proc, gone: set<PeerId>, extras: seq<PeerId>)
    requires LedgerInv(p)
    requires gone <= p.s.waiting && |extras| == |gone|
    requires FreshExtras(p.s.(waiting := p.s.waiting - gone), extras)
    ensures LedgerInv(Proc(Replace(p.s.(waiting := p.s.waiting - gone), extras),
                           Substitute(p.h, multiset(gone), extras)))
  {
    var q := Proc(Replace(p.s.(waiting := p.s.waiting - gone), extras), Substitute(p.h, multiset(gone), extras));
    var before := Requested(p.s.sent, p.s.seqNum);
    assert Requested(q.s.sent, q.s.seqNum) == before + multiset(extras) by {
      assert q.s.sent == p.s.sent + Requests(p.s, extras);
      RequestedWave(p.s, p.s.sent, extras);
    }
    BalanceSubstitutes(before, p.s.waiting, p.h, gone, extras);
  }

  lemma LedgerAnswers(p: Proc, m: Packet)
    requires LedgerInv(p) && m.kind != Request
    ensures LedgerInv(p.(s := p.s.(sent := p.s.sent + [m])))
  {
    RequestedAppend(p.s.sent, m, p.s.seqNum);
  }

  lemma BalanceHears(requested: multiset<PeerId>, w: set<PeerId>, h: History, x: PeerId)
    requires Balanced(requested, w, h) && x in w
    ensures Balanced(requested, w - {x}, h.(counted := h.counted + multiset{x}))
    ensures forall n :: Balanced(requested, w - {x}, h.(dropped := h.dropped + multiset{x}, invalid := n))
  {
    StrikeOff(w, x);
    Rebalance(requested, multiset(w), multiset(w - {x}), h.counted, h.dropped, multiset{x}, multiset{});
    Rebalance(requested, multiset(w), multiset(w - {x}), h.dropped, h.counted, multiset{x}, multiset{});
  }

  lemma LedgerHears(p: Proc, e: Event)
    requires LedgerInv(p) && e.Deliver? && e.kind == Response && Runs(p.s, e) && !Closes(p.s, e)
    ensures LedgerInv(Advance(p, e))
  {
    hide Requested;
    if Awaited(p.s, e.sender) {
      BalanceHears(Requested(p.s.sent, p.s.seqNum), p.s.waiting, p.h, e.sender);
      var q := Advance(p, e);
      assert Balanced(Requested(p.s.sent, p.s.seqNum), q.s.waiting, q.h);
    }
  }

  lemma LedgerReplies(p: Proc, e: Event)
    requires LedgerInv(p) && e.Deliver? && e.kind == Request
    ensures LedgerInv(Advance(p, e))
  {
    hide LedgerInv;
    var sent := Step(p.s, e).sent;
    if sent != p.s.sent {
      var m := sent[|sent| - 1];
      LedgerAnswers(p, m);
      assert Advance(p, e) == p.(s := p.s.(sent := p.s.sent + [m]));
    }
  }

  lemma LedgerUnavailable(p: Proc, e: Event)
    requires LedgerInv(p) && e.Deliver? && e.kind == Unavailable && GoodDraws(p.s, e)
    ensures LedgerInv(Advance(p, e))
  {
    if Awaited(p.s, e.sender) {
      LedgerSubstitutes(p, {e.sender}, [e.extra]);
      assert multiset({e.sender}) == multiset{e.sender};
      assert Advance(p, e) == Proc(Replace(p.s.(waiting := p.s.waiting - {e.sender}), [e.extra]),
                                   Substitute(p.h, multiset({e.sender}), [e.extra]));
    }
  }

  lemma LedgerExpires(p: Proc, e: Event)
    requires LedgerInv(p) && e.Expire? && GoodDraws(p.s, e)
    ensures LedgerInv(Advance(p, e))
  {
    hide LedgerInv;
    LedgerSubstitutes(p, e.expired, e.extras);
  }

  lemma LedgerKept(p: Proc, e: Event)
    requires LedgerInv(p) && Runs(p.s, e) && GoodDraws(p.s, e) && !Closes(p.s, e)
    requires SentInv(p) && (Pending(p.s) ==> p.s.phase == Idle && p.s.waiting == {})
    ensures LedgerInv(Advance(p, e))
  {
    hide SentInv, LedgerInv;
    match e {
      case Poll(headNum, wave) =>
        if Opens(p.s, headNum) {
          LedgerOpens(p, headNum, wave);
        } else {
          LedgerIgnores(p, e);
        }
      case Deliver(_, Request, _, _, _, _) => LedgerReplies(p, e);
      case Deliver(_, Response, _, _, _, _) => LedgerHears(p, e);
      case Deliver(_, Unavailable, _, _, _, _) => LedgerUnavailable(p, e);
      case Expire(_, _) => LedgerExpires(p, e);
      case _ => LedgerIgnores(p, e);
    }
  }

  lemma LedgerIgnores(p: Proc, e: Event)
    requires LedgerInv(p) && Runs(p.s, e)
    requires e.Arrive? || e.Connect? || e.Disconnect? || (e.Deliver? && e.kind == Other) || (e.Poll? && !Opens(p.s, e.headNum))
    ensures LedgerInv(Advance(p, e))
  {
  }

  // ---------- Completing a round keeps the invariant ----------

  /** When a round completes nobody is awaited any more and no slot was lost to an invalid vote. */
  lemma CompletesClean(p: Proc, sender: PeerId, vote: u8)
    requires SlotInv(p) && Completes(p.s, sender, vote)
    ensures p.h.invalid == 0 && p.s.waiting == {sender}
    ensures CountVote(p.s, sender, vote).waiting == {}
  {
    StrikeOff(p.s.waiting, sender);
  }

  lemma ClosesDecidable(p: Proc)
    requires QueueInv(p) && TallyInv(p) && p.s.phase == Listening
    ensures Decidable(p.s) && Started(p.s)
  {
    assert p.s.decisionBlock == p.h.arrivals[|p.h.decided|];
  }

  lemma OpenIsDecidable(p: Proc)
    requires Inv(p) && p.s.phase == Listening
    ensures Decidable(p.s) && Started(p.s)
  {
    ClosesDecidable(p);
  }

  /** The standing after the round is the replay of the longer history, which stays open or first decides. */
  lemma ClosingReplays(p: Proc, sender: PeerId, vote: u8)
    requires TallyInv(p) && p.s.phase == Listening && p.s.params.beta >= 1
    ensures var t, rounds := Closing(p.s, sender, vote), CountedHistory(p, sender, vote).rounds;
            && t == Replay(rounds)
            && (t.confidence >= p.s.params.beta ==> FirstDecision(rounds, p.s.params.beta))
            && (t.confidence < p.s.params.beta ==> Open(rounds, p.s.params.beta))
  {
    OpenStep(p.h.rounds, OutcomeOf(CountVote(p.s, sender, vote).responseBuffer, p.s.params.alfa), p.s.params.beta);
  }

  lemma SlotsContinue(p: Proc, sender: PeerId, vote: u8, wave: seq<PeerId>)
    requires SlotInv(p) && Completes(p.s, sender, vote) && Started(p.s) && FreshWave(p.s, wave) && p.s.params.k >= 1
    ensures SlotInv(Continuing(p, sender, vote, wave))
  {
    CompletesClean(p, sender, vote);
    DistinctCard(wave);
    assert Continuing(p, sender, vote, wave).s.waiting == ToSet(wave);
  }

  lemma TallyContinues(p: Proc, sender: PeerId, vote: u8, wave: seq<PeerId>)
    requires TallyInv(p) && Completes(p.s, sender, vote) && p.s.params.beta >= 1
    requires Closing(p.s, sender, vote).confidence < p.s.params.beta
    ensures TallyInv(Continuing(p, sender, vote, wave))
  {
    ClosingReplays(p, sender, vote);
    var q := Continuing(p, sender, vote, wave);
    assert StandingOf(q.s) == Closing(p.s, sender, vote);
  }

  lemma RestContinues(p: Proc, sender: PeerId, vote: u8, wave: seq<PeerId>)
    requires Completes(p.s, sender, vote) && Started(p.s)
    requires QueueInv(p) && ColorInv(p)
    ensures QueueInv(Continuing(p, sender, vote, wave)) && ColorInv(Continuing(p, sender, vote, wave))
  {
  }

  lemma BalanceContinues(requested: multiset<PeerId>, h: History, sender: PeerId, wave: seq<PeerId>)
    requires Balanced(requested, {sender}, h) && Distinct(wave)
    ensures Balanced(requested + multiset(wave), ToSet(wave), h.(counted := h.counted + multiset{sender}))
  {
    var heard := h.(counted := h.counted + multiset{sender});
    BalanceHears(requested, {sender}, h, sender);
    assert {sender} - {sender} == {};
    BalanceSubstitutes(requested, {}, heard, {}, wave);
    assert {} - {} + ToSet(wave) == ToSet(wave);
  }

  lemma TotalsContinue(p: Proc, sender: PeerId, vote: u8, wave: seq<PeerId>, requested: nat)
    requires Totals(requested, p) && Completes(p.s, sender, vote) && Started(p.s)
    ensures Totals(requested + p.s.params.k, Continuing(p, sender, vote, wave))
  {
    var q := Continuing(p, sender, vote, wave);
    assert RoundsStarted(q) == RoundsStarted(p) + 1;
    assert p.s.params.k * RoundsStarted(q) == p.s.params.k * RoundsStarted(p) + p.s.params.k;
    assert p.s.params.k * |q.h.rounds| == p.s.params.k * |p.h.rounds| + p.s.params.k;
    assert |q.h.counted| == |p.h.counted| + 1;
  }

  lemma LedgerContinues(p: Proc, sender: PeerId, vote: u8, wave: seq<PeerId>)
    requires LedgerInv(p) && SlotInv(p) && Completes(p.s, sender, vote) && Started(p.s) && FreshWave(p.s, wave)
    ensures LedgerInv(Continuing(p, sender, vote, wave))
  {
    var q := Continuing(p, sender, vote, wave);
    var before := Requested(p.s.sent, p.s.seqNum);
    assert Requested(q.s.sent, q.s.seqNum) == before + multiset(wave) by {
      RequestedWave(p.s, p.s.sent, wave);
      assert q.s.sent == p.s.sent + Requests(p.s, wave);
    }
    CompletesClean(p, sender, vote);
    BalanceContinues(before, p.h, sender, wave);
    TotalsContinue(p, sender, vote, wave, |before|);
    assert q.s.waiting == ToSet(wave);
  }

  lemma SentContinues(p: Proc, sender: PeerId, vote: u8, wave: seq<PeerId>)
    requires SentInv(p) && QueueInv(p) && Completes(p.s, sender, vote) && Started(p.s) && FreshWave(p.s, wave)
    ensures SentInv(Continuing(p, sender, vote, wave))
  {
    var q := Continuing(p, sender, vote, wave);
    assert q.s.sent == p.s.sent + Requests(p.s, wave);
    RequestsAre(p.s, wave);
  }

  lemma SlotsConclude(p: Proc, sender: PeerId, vote: u8)
    requires SlotInv(p) && Completes(p.s, sender, vote) && Decidable(p.s) && Started(p.s)
    ensures SlotInv(Concluding(p, sender, vote))
  {
    CompletesClean(p, sender, vote);
  }

  lemma TallyConcludes(p: Proc, sender: PeerId, vote: u8)
    requires TallyInv(p) && Completes(p.s, sender, vote) && p.s.params.beta >= 1 && Decidable(p.s)
    requires Closing(p.s, sender, vote).confidence >= p.s.params.beta
    ensures TallyInv(Concluding(p, sender, vote))
  {
    ClosingReplays(p, sender, vote);
    var q := Concluding(p, sender, vote);
    assert StandingOf(q.s) == Closing(p.s, sender, vote);
  }

  lemma QueueConcludes(p: Proc, sender: PeerId, vote: u8)
    requires QueueInv(p) && Completes(p.s, sender, vote) && Decidable(p.s) && Started(p.s)
    ensures QueueInv(Concluding(p, sender, vote))
  {
    var q := Concluding(p, sender, vote);
    assert Ids(p.s.queue) == [p.s.decisionBlock] + Ids(q.s.queue);
    assert DecidedIds(q.h.decided) == DecidedIds(p.h.decided) + [p.s.decisionBlock];
    assert q.h.arrivals == DecidedIds(q.h.decided) + Ids(q.s.queue);
  }

  lemma ColorsConclude(p: Proc, sender: PeerId, vote: u8)
    requires ColorInv(p) && QueueInv(p) && Completes(p.s, sender, vote) && Decidable(p.s) && Started(p.s)
    ensures ColorInv(Concluding(p, sender, vote))
  {
  }

  lemma DecisionConcludes(p: Proc, sender: PeerId, vote: u8)
    requires DecisionInv(p) && TallyInv(p) && LedgerInv(p) && Completes(p.s, sender, vote) && Decidable(p.s)
    requires p.s.params.beta >= 1 && Closing(p.s, sender, vote).confidence >= p.s.params.beta
    ensures DecisionInv(Concluding(p, sender, vote))
  {
    ClosingReplays(p, sender, vote);
    VotesConclude(p, sender, vote);
    var q := Concluding(p, sender, vote);
    var d := q.h.decided[|p.h.decided|];
    forall x | x in q.h.decided
      ensures x in p.h.decided || x == d
    {
    }
  }

  lemma MajorityCloses(p: Proc, sender: PeerId, vote: u8, wave: seq<PeerId>)
    requires MajorityInv(p) && Completes(p.s, sender, vote) && Started(p.s) && Decidable(p.s)
    ensures MajorityInv(Continuing(p, sender, vote, wave)) && MajorityInv(Concluding(p, sender, vote))
  {
    var o := OutcomeOf(CountVote(p.s, sender, vote).responseBuffer, p.s.params.alfa);
    assert NeverSplits(p.s.params) ==> o.Majority?;
  }

  /** With sound settings, the outcome read off a full buffer is that of the votes in it. */
  lemma OutcomeIsBallot(votes: seq<u8>, buffer: Tally, params: Params)
    requires params.Sound() && |votes| == buffer.Total() == params.k && forall v :: v in votes ==> v <= 1
    requires buffer == Tally(VotesFor(votes, KO), VotesFor(votes, OK))
    ensures Ballot(OutcomeOf(buffer, params.alfa), votes, params.alfa, params.k)
  {
  }

  lemma BallotCloses(p: Proc, sender: PeerId, vote: u8, wave: seq<PeerId>)
    requires BallotInv(p) && Completes(p.s, sender, vote) && Started(p.s) && Decidable(p.s) && p.s.params.Sound()
    ensures BallotInv(Continuing(p, sender, vote, wave)) && BallotInv(Concluding(p, sender, vote))
  {
    var c := CountVote(p.s, sender, vote);
    VotesForMore(p.h.votes, vote, KO);
    VotesForMore(p.h.votes, vote, OK);
    OutcomeIsBallot(p.h.votes + [vote], c.responseBuffer, p.s.params);
    OneMoreBallot(p.h.rounds, OutcomeOf(c.responseBuffer, p.s.params.alfa), p.h.ballots, p.h.votes + [vote],
                  p.s.params.alfa, p.s.params.k);
    hide Ballot, Balloted, OutcomeOf, Absorb;
    NothingCounted();
    assert forall d :: d in Concluding(p, sender, vote).h.decided ==>
             d in p.h.decided || d == Concluding(p, sender, vote).h.decided[|p.h.decided|];
  }

  lemma NothingCounted()
    ensures VotesFor([], OK) == VotesFor([], KO) == 0
  {
  }

  lemma OneMoreBallot(rounds: seq<Outcome>, o: Outcome, ballots: seq<seq<u8>>, votes: seq<u8>, alfa: nat, k: nat)
    requires Balloted(rounds, ballots, alfa, k) && Ballot(o, votes, alfa, k)
    ensures Balloted(rounds + [o], ballots + [votes], alfa, k)
  {
    hide Ballot;
  }

  lemma VotesConclude(p: Proc, sender: PeerId, vote: u8)
    requires LedgerInv(p) && Completes(p.s, sender, vote)
    ensures var h := CountedHistory(p, sender, vote); |h.counted| == p.s.params.k * |h.rounds|
  {
    var h := CountedHistory(p, sender, vote);
    assert |h.counted| == |p.h.counted| + 1;
    assert p.s.params.k * |h.rounds| == p.s.params.k * |p.h.rounds| + p.s.params.k;
  }

  lemma LogsCommit(calls: seq<Call>, decided: seq<Decision>, stale: seq<BlockId>, d: Decision)
    requires LogsMatch(calls, decided, stale) && d.color == OK
    ensures LogsMatch(calls + [Commit(d.id)], decided + [d], stale)
  {
    LogAppend(calls, Commit(d.id));
    DecisionsAppend(decided, d);
  }

  lemma LogsFail(calls: seq<Call>, decided: seq<Decision>, stale: seq<BlockId>, d: Decision)
    requires LogsMatch(calls, decided, stale) && d.color == KO
    ensures LogsMatch(calls + [Fail(d.id)], decided + [d], stale)
  {
    LogAppend(calls, Fail(d.id));
    DecisionsAppend(decided, d);
    assert multiset(Fails(calls) + [d.id]) == multiset(Fails(calls)) + multiset{d.id};
    assert multiset(FailedIds(decided) + [d.id]) == multiset(FailedIds(decided)) + multiset{d.id};
  }

  lemma LogsDecide(calls: seq<Call>, decided: seq<Decision>, stale: seq<BlockId>, d: Decision, headId: BlockId)
    requires LogsMatch(calls, decided, stale)
    ensures LogsMatch(calls + [if d.color == OK then Commit(d.id) else Fail(d.id)], decided + [d], stale)
    ensures HeadAfter(decided + [d], headId) == if d.color == OK then d.id else HeadAfter(decided, headId)
  {
    DecisionsAppend(decided, d);
    hide LogsMatch;
    if d.color == OK {
      LogsCommit(calls, decided, stale, d);
    } else {
      LogsFail(calls, decided, stale, d);
    }
  }

  lemma CallsConclude(p: Proc, sender: PeerId, vote: u8)
    requires CallInv(p) && Completes(p.s, sender, vote) && Decidable(p.s) && Started(p.s)
    ensures CallInv(Concluding(p, sender, vote))
  {
    hide LogsMatch;
    var q := Concluding(p, sender, vote);
    var d := q.h.decided[|p.h.decided|];
    var verdict := if d.color == OK then Commit(d.id) else Fail(d.id);
    LogsDecide(p.s.calls, p.h.decided, p.h.stale, d, p.h.headId);
    if p.s.order == 0 {
      LogsKept(p.s.calls + [verdict], q.h.decided, p.h.stale, Initialize);
      assert q.s.calls == p.s.calls + [verdict] + [Initialize];
    } else {
      assert q.s.calls == p.s.calls + [verdict];
    }
  }

  lemma ChecksConclude(p: Proc, sender: PeerId, vote: u8)
    requires CheckInv(p) && Completes(p.s, sender, vote) && Decidable(p.s) && Started(p.s)
    ensures CheckInv(Concluding(p, sender, vote))
  {
    hide ChecksMatch;
    var q := Concluding(p, sender, vote);
    var d := q.h.decided[|p.h.decided|];
    var verdict := if d.color == OK then Commit(d.id) else Fail(d.id);
    ChecksLast(p.s.calls, verdict, p.h.arrivals, p.h.arrivals, Opened(p));
    ChecksLast(p.s.calls + [verdict], Initialize, p.h.arrivals, p.h.arrivals, Opened(p));
    if p.s.order == 0 {
      assert q.s.calls == p.s.calls + [verdict] + [Initialize];
    } else {
      assert q.s.calls == p.s.calls + [verdict];
    }
  }

  lemma LedgerConcludes(p: Proc, sender: PeerId, vote: u8)
    requires LedgerInv(p) && SlotInv(p) && Completes(p.s, sender, vote) && Decidable(p.s) && Started(p.s)
    ensures LedgerInv(Concluding(p, sender, vote))
  {
    var q := Concluding(p, sender, vote);
    BalanceHears(Requested(p.s.sent, p.s.seqNum), p.s.waiting, p.h, sender);
    VotesConclude(p, sender, vote);
    assert Balanced(Requested(p.s.sent, p.s.seqNum), q.s.waiting, q.h);
    assert q.s.sent == p.s.sent;
  }

  // ---------- The whole step, and whole runs ----------

  lemma ConclusionKeepsInv(p: Proc, x: PeerId, v: u8)
    requires Inv(p) && Decidable(p.s) && Started(p.s) && Closing(p.s, x, v).confidence >= p.s.params.beta
    requires Completes(p.s, x, v)
    ensures Inv(Concluding(p, x, v))
  {
    assert p.s.params.Sound() && p.s.phase == Listening;
    hide ConfigInv, SlotInv, TallyInv, QueueInv, ColorInv, FreshInv, CheckInv, DecisionInv, CallInv, LedgerInv, SentInv;
    hide MajorityInv, BallotInv, Concluding, Closing;
    SlotsConclude(p, x, v);
    TallyConcludes(p, x, v);
    QueueConcludes(p, x, v);
    ColorsConclude(p, x, v);
    DecisionConcludes(p, x, v);
    MajorityCloses(p, x, v, []);
    BallotCloses(p, x, v, []);
    CallsConclude(p, x, v);
    ChecksConclude(p, x, v);
    LedgerConcludes(p, x, v);
    RestConcludes(p, x, v);
  }

  lemma RestConcludes(p: Proc, x: PeerId, v: u8)
    requires Completes(p.s, x, v) && Decidable(p.s) && Started(p.s)
    requires ConfigInv(p.s) && FreshInv(p) && SentInv(p)
    ensures var q := Concluding(p, x, v); ConfigInv(q.s) && FreshInv(q) && SentInv(q)
  {
  }

  /** The parts of the invariant that speak of decided blocks and of the service only. */
  lemma LogsContinue(p: Proc, x: PeerId, v: u8, wave: seq<PeerId>)
    requires Completes(p.s, x, v) && Started(p.s)
    requires ConfigInv(p.s) && FreshInv(p) && CheckInv(p) && DecisionInv(p) && CallInv(p)
    ensures var q := Continuing(p, x, v, wave);
            ConfigInv(q.s) && FreshInv(q) && CheckInv(q) && DecisionInv(q) && CallInv(q)
  {
    hide LogsMatch, ChecksMatch;
  }

  lemma ContinuationKeepsInv(p: Proc, x: PeerId, v: u8, wave: seq<PeerId>)
    requires Inv(p) && Started(p.s) && Completes(p.s, x, v) && FreshWave(p.s, wave)
    requires Closing(p.s, x, v).confidence < p.s.params.beta
    ensures Inv(Continuing(p, x, v, wave))
  {
    ClosesDecidable(p);
    assert p.s.params.Sound();
    hide ConfigInv, SlotInv, TallyInv, QueueInv, ColorInv, FreshInv, CheckInv, DecisionInv, CallInv, LedgerInv, SentInv;
    hide MajorityInv, BallotInv;
    hide Continuing, Closing;
    SlotsContinue(p, x, v, wave);
    TallyContinues(p, x, v, wave);
    RestContinues(p, x, v, wave);
    LedgerContinues(p, x, v, wave);
    SentContinues(p, x, v, wave);
    LogsContinue(p, x, v, wave);
    MajorityCloses(p, x, v, wave);
    BallotCloses(p, x, v, wave);
  }

  lemma CompletionKeepsInv(p: Proc, e: Event)
    requires Inv(p) && Closes(p.s, e) && Runs(p.s, e) && GoodDraws(p.s, e)
    ensures Inv(Advance(p, e))
  {
    ClosesDecidable(p);
    CompletedRound(p, e);
    if Closing(p.s, e.sender, e.vote).confidence >= p.s.params.beta {
      ConclusionKeepsInv(p, e.sender, e.vote);
    } else {
      ContinuationKeepsInv(p, e.sender, e.vote, e.wave);
    }
  }

  /** Every step a node can take keeps the invariant. */
  lemma StepKeepsInv(p: Proc, e: Event)
    requires Inv(p) && Allowed(p.s, e)
    ensures Inv(Advance(p, e))
  {
    if Closes(p.s, e) {
      CompletionKeepsInv(p, e);
    } else {
      if Pending(p.s) {
        OpensOnlyIdle(p);
        FrontIsFresh(p);
      }
      ConfigKept(p.s, e);
      SlotKept(p, e);
      TallyKept(p, e);
      QueueKept(p, e);
      FreshKept(p, e);
      ColorKept(p, e);
      CallKept(p, e);
      CheckKept(p, e);
      DecisionKept(p, e);
      MajorityKept(p, e);
      BallotKept(p, e);
      SentKept(p, e);
      LedgerKept(p, e);
    }
  }

  ghost predicate ValidRun(p: Proc, es: seq<Event>)
    decreases |es|
  {
    es == [] || (Allowed(p.s, es[0]) && ValidRun(Advance(p, es[0]), es[1..]))
  }

  ghost function After(p: Proc, es: seq<Event>): Proc
    requires ValidRun(p, es)
    decreases |es|
  {
    if es == [] then p else After(Advance(p, es[0]), es[1..])
  }

  lemma {:induction false} RunKeepsInv(p: Proc, es: seq<Event>)
    requires Inv(p) && ValidRun(p, es)
    ensures Inv(After(p, es))
    decreases |es|
  {
    if es != [] {
      StepKeepsInv(p, es[0]);
      RunKeepsInv(Advance(p, es[0]), es[1..]);
    }
  }

  lemma RunFirst(p: Proc, es: seq<Event>)
    requires es != []
    ensures ValidRun(p, es) <==> Allowed(p.s, es[0]) && Runs(p.s, es[0]) && ValidRun(Advance(p, es[0]), es[1..])
    ensures ValidRun(p, es) ==> After(p, es) == After(Advance(p, es[0]), es[1..])
  {
    hide Fits, GoodDraws, Advance;
  }

  lemma {:induction false} RunConcat(p: Proc, es: seq<Event>, fs: seq<Event>)
    requires ValidRun(p, es) && ValidRun(After(p, es), fs)
    ensures ValidRun(p, es + fs) && After(p, es + fs) == After(After(p, es), fs)
    decreases |es|
  {
    hide *;
    if es == [] {
      EmptyRun(p);
      assert es + fs == fs;
    } else {
      RunFirst(p, es);
      assert (es + fs)[0] == es[0] && (es + fs)[1..] == es[1..] + fs;
      RunConcat(Advance(p, es[0]), es[1..], fs);
      RunFirst(p, es + fs);
    }
  }

  /** The end of some run from boot. */
  ghost predicate Reachable(p: Proc) {
    exists boot, id, es :: Reaches(boot, id, es, p)
  }

  ghost predicate Reaches(boot: Proc, id: PeerId, es: seq<Event>, p: Proc) {
    Booted(boot, id) && ValidRun(boot, es) && p == After(boot, es)
  }

  /** So whatever follows from Inv holds in every reachable state. */
  lemma ReachableInv(p: Proc)
    requires Reachable(p)
    ensures Inv(p)
  {
    var boot, id, es :| Reaches(boot, id, es, p);
    BootInv(boot.s.params, boot.s.memberIds, id, boot.h.headNum, boot.h.headId);
    RunKeepsInv(boot, es);
  }

  lemma EmptyRun(p: Proc)
    ensures ValidRun(p, []) && After(p, []) == p
  {
  }

  lemma RunOfOne(p: Proc, e: Event)
    requires Allowed(p.s, e)
    ensures ValidRun(p, [e]) && After(p, [e]) == Advance(p, e)
  {
    assert [e][1..] == [];
  }
}
