/** The event loop: how updates, the queue and the timeouts of one node interleave. */
module SnowballEngine {
  import opened SnowballTypes
  import opened NodeSpec
  import opened NodeRuns
  import opened Sampling
  import opened SnowballNodes
  import opened Clocks
  import opened Timeline

  datatype Update =
    | BlockArrived(block: Block)
    | BlockValid(id: BlockId)
    | BlockInvalid(id: BlockId)
    | BlockCommitted(id: BlockId)
    | PeerMessage(kind: Kind, sender: PeerId, vote: u8, seqNum: nat)
    | PeerConnected(peer: PeerId)
    | PeerDisconnected(peer: PeerId)
    | NothingYet        // the receive timed out
    | Shutdown
    | ValidatorGone     // the channel is closed

  /** One turn of the loop: the update received, the chain head the validator reports, the clock. */
  datatype Turn = Turn(update: Update, headNum: nat, now: int)

  predicate Stops(u: Update) {
    u.Shutdown? || u.ValidatorGone?
  }

  /** The event an update stands for, up to the random choices; None for one that changes nothing. */
  predicate EventFor(u: Update, e: Event) {
    match u
    case BlockArrived(block) => e == Arrive(block)
    case PeerConnected(peer) => e == Connect(peer)
    case PeerDisconnected(peer) => e == Disconnect(peer)
    case PeerMessage(kind, sender, vote, seqNum) =>
      e.Deliver? && e.kind == kind && e.sender == sender && e.vote == vote && e.seqNum == seqNum
    case _ => false
  }

  predicate Eventful(u: Update) {
    u.BlockArrived? || u.PeerMessage? || u.PeerConnected? || u.PeerDisconnected?
  }

  /** What one turn does: poll the queue, handle the update and, unless the loop stops, the timeouts. */
  predicate TurnTrace(turn: Turn, es: seq<Event>) {
    var k := if Eventful(turn.update) then 1 else 0;
    && |es| == 1 + k + (if Stops(turn.update) then 0 else 1)
    && es[0].Poll? && es[0].headNum == turn.headNum
    && (Eventful(turn.update) ==> EventFor(turn.update, es[1]))
    && (!Stops(turn.update) ==> es[k + 1].Expire?)
  }

  function Flatten(traces: seq<seq<Event>>): seq<Event> {
    if traces == [] then [] else Flatten(traces[..|traces| - 1]) + traces[|traces| - 1]
  }

  lemma FlattenNothing()
    ensures Flatten([]) == []
  {
  }

  lemma FlattenAppend(traces: seq<seq<Event>>, es: seq<Event>)
    ensures Flatten(traces + [es]) == Flatten(traces) + es
  {
    assert (traces + [es])[..|traces|] == traces;
  }

  /** The member list after an update. */
  function MembersAfter(ids: seq<PeerId>, u: Update): seq<PeerId> {
    match u
    case PeerConnected(peer) => if peer in ids then ids else ids + [peer]
    case PeerDisconnected(peer) => if peer in ids then Without(ids, PositionOf(ids, peer)) else ids
    case _ => ids
  }

  /** A peer that leaves is a member, is not this node, and leaves enough members to sample from. */
  predicate UpdateFits(ids: seq<PeerId>, id: PeerId, k: nat, u: Update) {
    u.PeerDisconnected? ==> u.peer in ids && u.peer != id && k <= |ids| - 2
  }

  predicate TurnsFit(ids: seq<PeerId>, id: PeerId, k: nat, turns: seq<Turn>)
    decreases |turns|
  {
    turns != [] ==>
      && UpdateFits(ids, id, k, turns[0].update)
      && TurnsFit(MembersAfter(ids, turns[0].update), id, k, turns[1..])
  }

  /** Under a sound configuration a response uses one wave only, whichever pass sends it. */
  lemma OneWave(p: Proc, sender: PeerId, vote: u8, first: seq<PeerId>, second: seq<PeerId>) returns (wave: seq<PeerId>)
    requires Inv(p) && (Completes(p.s, sender, vote) ==> Decidable(p.s))
    requires FreshWave(p.s, first) && FreshWave(p.s, second)
    ensures FreshWave(p.s, wave)
    ensures TakeResponse(p.s, sender, vote, first, second) == TakeResponse(p.s, sender, vote, wave, wave)
  {
    wave := first;
    if Completes(p.s, sender, vote) {
      ClosesDecidable(p);
      var c := CountVote(p.s, sender, vote);
      if c.responseBuffer.ko < p.s.params.alfa {
        wave := second;
      }
      RoundCloses(c, first, second);
      RoundCloses(c, wave, wave);
    }
  }

  lemma InvLetsSample(p: Proc)
    requires Inv(p)
    ensures MembersOk(p.s) && p.s.params.k <= |p.s.memberIds| - 1 && |p.s.waiting| <= p.s.params.k
  {
  }

  // ---------- A node at a moment of its run ----------

  /** The objects are at this moment: state, timers, stamps and random stream. */
  ghost predicate At(node: SnowballNode, state: SnowballState, m: Moment)
    reads node, state, state.waitingResponseMap.Values
  {
    && node.View(state) == m.p.s && node.Working(state) && node.drawn == m.drawn
    && state.askedAt == m.clock.asked && state.convergenza == m.clock.stamps
  }

  /** They are at the moment after this event. */
  ghost predicate AtNext(node: SnowballNode, state: SnowballState, m: Moment, e: Event, now: int)
    requires Runs(m.p.s, e)
    reads node, state, state.waitingResponseMap.Values
  {
    m.drawn <= node.drawn && At(node, state, NextMoment(node.draw, m, e, node.drawn, now))
  }

  /** An event in which peers may have been drawn and asked. */
  lemma NextOnTime(node: SnowballNode, state: SnowballState, m: Moment, e: Event, now: int)
    requires Runs(m.p.s, e) && node.View(state) == Step(m.p.s, e) && node.OnTime(state, m.clock.asked, m.drawn, now)
    requires SameIdentity(m.p.s, Step(m.p.s, e)) && state.convergenza == StampsTick(m.clock.stamps, m.p, e, now)
    ensures AtNext(node, state, m, e, now)
  {
    var drawn := DrawnMembers(node.draw, m.p.s.memberIds, m.p.s.order, m.drawn, node.drawn);
    RefreshedTimes(m.clock.asked, state.askedAt, drawn, now);
    hide DrawnMembers, Step, StampsTick, Runs;
  }

  /** An event in which none were. */
  lemma NextStill(node: SnowballNode, state: SnowballState, m: Moment, e: Event, now: int)
    requires Runs(m.p.s, e) && node.View(state) == Step(m.p.s, e) && node.Working(state)
    requires node.drawn == m.drawn && state.askedAt == m.clock.asked
    requires state.convergenza == StampsTick(m.clock.stamps, m.p, e, now)
    ensures AtNext(node, state, m, e, now)
  {
    DrawnTwice(node.draw, m.p.s.memberIds, m.p.s.order, m.drawn, m.drawn, m.drawn);
    hide DrawnMembers, Step, StampsTick, Runs;
  }

  /** What the handlers need of the objects. */
  lemma Ready(node: SnowballNode, state: SnowballState, m: Moment)
    requires Inv(m.p) && At(node, state, m)
    ensures node.View(state) == m.p.s && node.Working(state) && node.drawn == m.drawn
    ensures state.askedAt == m.clock.asked && state.convergenza == m.clock.stamps
    ensures state.memberIds == m.p.s.memberIds && state.id == m.p.s.id && state.params == m.p.s.params
    ensures state.phase == m.p.s.phase && state.decisionBlock == m.p.s.decisionBlock
    ensures state.waitingResponseMap.Keys == m.p.s.waiting == m.clock.asked.Keys
    ensures Fair(node.draw) ==> node.CanSample(state)
    ensures |state.waitingResponseMap| <= |state.memberIds| - 1 && state.params.Sound()
  {
    InvLetsSample(m.p);
    state.TimedKeys();
    assert m.p.s.params.Sound() && |m.p.s.waiting| == |state.waitingResponseMap|;
    hide Inv, SnowballState.TimersRun, Fair;
  }

  // ---------- Updates ----------

  /** A request, as one event of the node. */
  method HandleRequest(u: Update, now: int, node: SnowballNode, state: SnowballState, ghost m: Moment) returns (ghost e: Event)
    requires u.PeerMessage? && u.kind == Request && At(node, state, m)
    modifies node, state
    ensures Allowed(m.p.s, e) && AtNext(node, state, m, e, now) && EventFor(u, e)
  {
    e := Deliver(u.sender, Request, u.vote, u.seqNum, [], []);
    StampsQuiet(m.clock.stamps, m.p, e, now);
    hide SnowballState.TimersRun, StampsTick, AtNext;
    var _ := node.OnRequest(u.sender, u.seqNum, state);
    NextStill(node, state, m, e, now);
  }

  /** A response, as one event of the node. */
  method HandleResponse(u: Update, now: int, node: SnowballNode, state: SnowballState, ghost m: Moment)
    returns (ghost e: Event)
    requires u.PeerMessage? && u.kind == Response
    requires Inv(m.p) && At(node, state, m) && Fair(node.draw)
    modifies node, state
    ensures Allowed(m.p.s, e) && AtNext(node, state, m, e, now) && EventFor(u, e)
  {
    hide *;
    Ready(node, state, m);
    LastVoteDecides(m.p, u.sender, u.vote);
    var _, first, second := node.OnResponse(u.sender, u.vote, state, now);
    ghost var wave := OneWave(m.p, u.sender, u.vote, first, second);
    e := Deliver(u.sender, Response, u.vote, u.seqNum, [], wave);
    ResponseIsEvent(m, u, wave, now);
    PhaseIs(node, state, Step(m.p.s, e));
    NextOnTime(node, state, m, e, now);
  }

  lemma PhaseIs(node: SnowballNode, state: SnowballState, s: Node)
    requires node.View(state) == s
    ensures state.phase == s.phase
  {
  }

  lemma LastVoteDecides(p: Proc, sender: PeerId, vote: u8)
    requires Inv(p)
    ensures Completes(p.s, sender, vote) ==> Decidable(p.s)
  {
    if Completes(p.s, sender, vote) {
      ClosesDecidable(p);
    }
  }

  lemma ResponseIsEvent(m: Moment, u: Update, wave: seq<PeerId>, now: int)
    requires Inv(m.p) && u.PeerMessage? && u.kind == Response && FreshWave(m.p.s, wave)
    requires Completes(m.p.s, u.sender, u.vote) ==> Decidable(m.p.s)
    ensures var s, e := m.p.s, Deliver(u.sender, Response, u.vote, u.seqNum, [], wave);
            && Allowed(s, e) && Runs(s, e) && Step(s, e) == TakeResponse(s, u.sender, u.vote, wave, wave) && EventFor(u, e)
            && SameIdentity(s, Step(s, e))
            && StampsTick(m.clock.stamps, m.p, e, now)
               == (if s.phase != Listening then m.clock.stamps
                   else StampsAfter(m.clock.stamps, s.decisionBlock, Step(s, e).phase, now))
  {
    hide Inv, FreshWave;
    var e := Deliver(u.sender, Response, u.vote, u.seqNum, [], wave);
    StampsOfResponse(m.clock.stamps, m.p, e, now);
    StepKeepsIdentity(m.p.s, e);
    hide StampsTick, StampsAfter;
  }

  /** An unavailable notice, as one event of the node. */
  method HandleUnavailable(u: Update, now: int, node: SnowballNode, state: SnowballState, ghost m: Moment)
    returns (ghost e: Event)
    requires u.PeerMessage? && u.kind == Unavailable
    requires Inv(m.p) && At(node, state, m) && Fair(node.draw)
    modifies node, state
    ensures Allowed(m.p.s, e) && AtNext(node, state, m, e, now) && EventFor(u, e)
  {
    hide *;
    Ready(node, state, m);
    AwaitedIs(m.p.s, u.sender);
    var _, extra := node.OnUnavailable(u.sender, state, now);
    e := Deliver(u.sender, Unavailable, u.vote, u.seqNum, extra, []);
    NoticeIsEvent(m, u, extra, now);
    NextOnTime(node, state, m, e, now);
  }

  lemma AwaitedIs(s: Node, sender: PeerId)
    ensures Awaited(s, sender) <==> s.phase == Listening && sender in s.waiting
  {
  }

  lemma NoticeIsEvent(m: Moment, u: Update, extra: PeerId, now: int)
    requires u.PeerMessage? && u.kind == Unavailable
    requires Awaited(m.p.s, u.sender) ==> FreshExtras(m.p.s.(waiting := m.p.s.waiting - {u.sender}), [extra])
    ensures var s, e := m.p.s, Deliver(u.sender, Unavailable, u.vote, u.seqNum, extra, []);
            && Allowed(s, e) && Runs(s, e) && Step(s, e) == TakeUnavailable(s, u.sender, extra) && EventFor(u, e)
            && SameIdentity(s, Step(s, e)) && StampsTick(m.clock.stamps, m.p, e, now) == m.clock.stamps
  {
    hide FreshExtras;
    StampsQuiet(m.clock.stamps, m.p, Deliver(u.sender, Unavailable, u.vote, u.seqNum, extra, []), now);
  }

  /** A peer message, as one event of the node. */
  method HandleMessage(u: Update, now: int, node: SnowballNode, state: SnowballState, ghost m: Moment)
    returns (ghost e: Event)
    requires u.PeerMessage?
    requires Inv(m.p) && At(node, state, m) && Fair(node.draw)
    modifies node, state
    ensures Allowed(m.p.s, e) && AtNext(node, state, m, e, now) && EventFor(u, e)
    ensures MembersAfter(m.p.s.memberIds, u) == Step(m.p.s, e).memberIds
  {
    hide Inv, Allowed, AtNext;
    match u.kind {
      case Request => e := HandleRequest(u, now, node, state, m);
      case Response => e := HandleResponse(u, now, node, state, m);
      case Unavailable => e := HandleUnavailable(u, now, node, state, m);
      case Other =>
        e := OtherMessage(u, m.p);
        StampsQuiet(m.clock.stamps, m.p, e, now);
        NextStill(node, state, m, e, now);
    }
    assert Runs(m.p.s, e) by {
      EventRuns(m.p.s, e);
    }
    StepKeepsIdentity(m.p.s, e);
  }

  lemma OtherMessage(u: Update, p: Proc) returns (e: Event)
    requires u.PeerMessage? && u.kind == Kind.Other
    ensures Allowed(p.s, e) && Runs(p.s, e) && Step(p.s, e) == p.s && EventFor(u, e) && !Closes(p.s, e) && !e.Arrive?
  {
    e := Deliver(u.sender, Kind.Other, u.vote, u.seqNum, [], []);
  }

  lemma EventRuns(s: Node, e: Event)
    requires Allowed(s, e)
    ensures Runs(s, e)
  {
  }

  /** A block that arrives, as one event of the node. */
  method HandleBlock(block: Block, now: int, node: SnowballNode, state: SnowballState, ghost m: Moment) returns (ghost e: Event)
    requires At(node, state, m)
    modifies node, state
    ensures Allowed(m.p.s, e) && AtNext(node, state, m, e, now) && e == Arrive(block)
    ensures Step(m.p.s, e).memberIds == m.p.s.memberIds
  {
    e := Arrive(block);
    hide SnowballState.TimersRun, AtNext;
    node.OnBlockNew(block, state, now);
    NextStill(node, state, m, e, now);
  }

  /** A peer that joins, as one event of the node; the own position is found again. */
  method HandleConnect(peer: PeerId, now: int, node: SnowballNode, state: SnowballState, ghost m: Moment)
    returns (ghost e: Event)
    requires Inv(m.p) && At(node, state, m)
    modifies node, state
    ensures Allowed(m.p.s, e) && AtNext(node, state, m, e, now)
    ensures Step(m.p.s, e).memberIds == MembersAfter(m.p.s.memberIds, PeerConnected(peer)) && e == Connect(peer)
  {
    hide *;
    e := Connect(peer);
    Ready(node, state, m);
    JoiningIsEvent(m, peer, now);
    var alive := node.OnPeerConnected(peer, state);
    NextStill(node, state, m, e, now);
  }

  lemma JoiningIsEvent(m: Moment, peer: PeerId, now: int)
    requires Inv(m.p)
    ensures var p, e := m.p, Connect(peer);
            && Allowed(p.s, e) && Runs(p.s, e) && Step(p.s, e) == Connected(p.s, peer) && p.s.id in p.s.memberIds
            && Step(p.s, e).memberIds == MembersAfter(p.s.memberIds, PeerConnected(peer))
            && StampsTick(m.clock.stamps, p, e, now) == m.clock.stamps
  {
    NoPanic(m.p, Connect(peer));
    hide Inv;
    StampsQuiet(m.clock.stamps, m.p, Connect(peer), now);
  }

  /** A peer that leaves, as one event of the node; neither position lookup panics. */
  method HandleDisconnect(peer: PeerId, now: int, node: SnowballNode, state: SnowballState, ghost m: Moment)
    returns (ghost e: Event)
    requires Inv(m.p) && At(node, state, m)
    requires UpdateFits(m.p.s.memberIds, m.p.s.id, m.p.s.params.k, PeerDisconnected(peer))
    modifies node, state
    ensures Allowed(m.p.s, e) && AtNext(node, state, m, e, now)
    ensures Step(m.p.s, e).memberIds == MembersAfter(m.p.s.memberIds, PeerDisconnected(peer)) && e == Disconnect(peer)
  {
    hide *;
    e := Disconnect(peer);
    Ready(node, state, m);
    LeavingIsEvent(m, peer, now);
    var alive := node.OnPeerDisconnected(peer, state);
    NextStill(node, state, m, e, now);
  }

  lemma LeavingIsEvent(m: Moment, peer: PeerId, now: int)
    requires Inv(m.p) && UpdateFits(m.p.s.memberIds, m.p.s.id, m.p.s.params.k, PeerDisconnected(peer))
    ensures var p, e := m.p, Disconnect(peer);
            && Allowed(p.s, e) && Runs(p.s, e) && peer in p.s.memberIds
            && p.s.id in Without(p.s.memberIds, PositionOf(p.s.memberIds, peer))
            && Step(p.s, e) == Disconnected(p.s, peer)
            && Step(p.s, e).memberIds == MembersAfter(p.s.memberIds, PeerDisconnected(peer))
            && StampsTick(m.clock.stamps, p, e, now) == m.clock.stamps
  {
    hide Inv, PositionOf, Without, StampsTick;
    NoPanic(m.p, Disconnect(peer));
    StampsQuiet(m.clock.stamps, m.p, Disconnect(peer), now);
  }

  /** One update, as a run of at most one event. */
  method HandleUpdate(u: Update, now: int, node: SnowballNode, state: SnowballState, ghost m: Moment)
    returns (again: bool, ghost es: seq<Event>, ghost marks: seq<nat>, ghost next: Moment)
    requires Inv(m.p) && At(node, state, m) && Fair(node.draw)
    requires UpdateFits(m.p.s.memberIds, m.p.s.id, m.p.s.params.k, u)
    modifies node, state
    ensures Passes(node.draw, m, es, marks, next, now) && At(node, state, next)
    ensures next.p.s.memberIds == MembersAfter(m.p.s.memberIds, u)
    ensures if Eventful(u) then |es| == 1 && EventFor(u, es[0]) else es == []
    ensures again <==> !Stops(u)
  {
    hide Inv, At, Passes, Allowed, Step, NextMoment;
    again, es, marks, next := true, [], [m.drawn], m;
    PassesNothing(node.draw, m, now);
    ghost var e;
    match u {
      case BlockArrived(block) =>
        e := HandleBlock(block, now, node, state, m);
      case PeerMessage(_, _, _, _) =>
        e := HandleMessage(u, now, node, state, m);
      case PeerConnected(peer) =>
        e := HandleConnect(peer, now, node, state, m);
      case PeerDisconnected(peer) =>
        e := HandleDisconnect(peer, now, node, state, m);
      case _ =>
        again := !(u.Shutdown? || u.ValidatorGone?);
        return;
    }
    es, marks := [e], [m.drawn, node.drawn];
    PassesOne(node.draw, m, e, node.drawn, now);
    next := NextMoment(node.draw, m, e, node.drawn, now);
    NextIsStep(node.draw, m, e, node.drawn, now);
  }

  lemma NextIsStep(draw: Draws, m: Moment, e: Event, upto: nat, now: int)
    requires Runs(m.p.s, e)
    ensures NextMoment(draw, m, e, upto, now).p.s == Step(m.p.s, e)
    ensures NextMoment(draw, m, e, upto, now).p == Advance(m.p, e)
  {
  }

  lemma TurnIsTrace(turn: Turn, e0: Event, fs: seq<Event>, rest: seq<Event>)
    requires e0.Poll? && e0.headNum == turn.headNum
    requires if Eventful(turn.update) then |fs| == 1 && EventFor(turn.update, fs[0]) else fs == []
    requires if Stops(turn.update) then rest == [] else |rest| == 1 && rest[0].Expire?
    ensures TurnTrace(turn, [e0] + fs + rest)
  {
  }

  /** The timeouts struck off exactly the peers that were asked too long ago, as of then. */
  ghost predicate ChecksTimes(draw: Draws, hang: nat, m: Moment, es: seq<Event>, marks: seq<nat>, now: int) {
    && es != [] && |marks| == |es| + 1
    && var n := |es| - 1;
       ValidRun(m.p, es[..n]) && es[n].Expire?
       && es[n].expired == Late(hang, After(m.p, es[..n]), ClockAfter(draw, m.clock, m.p, es[..n], marks[..n + 1], now), now)
  }

  /** One turn leads from one moment to another. */
  ghost predicate TurnTakes(draw: Draws, hang: nat, turn: Turn, m: Moment, es: seq<Event>, marks: seq<nat>, next: Moment) {
    && Passes(draw, m, es, marks, next, turn.now) && TurnTrace(turn, es)
    && (!Stops(turn.update) ==> ChecksTimes(draw, hang, m, es, marks, turn.now))
  }

  /** The first part of a turn, and the whole of one that stops. */
  method PollAndUpdate(turn: Turn, node: SnowballNode, state: SnowballState, ghost m: Moment)
    returns (again: bool, ghost e0: Event, ghost fs: seq<Event>, ghost marks: seq<nat>, ghost next: Moment)
    requires Inv(m.p) && At(node, state, m) && Fair(node.draw)
    requires UpdateFits(m.p.s.memberIds, m.p.s.id, m.p.s.params.k, turn.update)
    modifies node, state
    ensures Passes(node.draw, m, [e0] + fs, marks, next, turn.now) && At(node, state, next) && Inv(next.p)
    ensures next.p.s.memberIds == MembersAfter(m.p.s.memberIds, turn.update)
    ensures next.p.s.id == m.p.s.id && next.p.s.params == m.p.s.params
    ensures e0.Poll? && e0.headNum == turn.headNum
    ensures if Eventful(turn.update) then |fs| == 1 && EventFor(turn.update, fs[0]) else fs == []
    ensures again <==> !Stops(turn.update)
  {
    hide *;
    e0 := PollQueue(turn, node, state, m);
    PolledFits(m, e0);
    ghost var mid := NextMoment(node.draw, m, e0, node.drawn, turn.now);
    NextIsStep(node.draw, m, e0, node.drawn, turn.now);
    NextIsAt(node, state, m, e0, turn.now);
    PassesOne(node.draw, m, e0, node.drawn, turn.now);
    ghost var upto, ns := node.drawn, [];
    again, fs, ns, next := HandleUpdate(turn.update, turn.now, node, state, mid);
    PassesKeep(node.draw, mid, fs, ns, next, turn.now);
    PassesOn(node.draw, m, [e0], [m.drawn, upto], mid, fs, ns, next, turn.now);
    marks := [m.drawn, upto] + ns[1..];
    PassesKeep(node.draw, m, [e0] + fs, marks, next, turn.now);
  }

  lemma PolledFits(m: Moment, e: Event)
    requires Inv(m.p) && Allowed(m.p.s, e) && e.Poll?
    ensures Runs(m.p.s, e) && Inv(Advance(m.p, e))
    ensures var r := Advance(m.p, e).s; r.memberIds == m.p.s.memberIds && r.id == m.p.s.id && r.params == m.p.s.params
  {
    StepKeepsInv(m.p, e);
    StepKeepsIdentity(m.p.s, e);
    hide Inv;
  }

  lemma NextIsAt(node: SnowballNode, state: SnowballState, m: Moment, e: Event, now: int)
    requires Runs(m.p.s, e) && AtNext(node, state, m, e, now)
    ensures m.drawn <= node.drawn && At(node, state, NextMoment(node.draw, m, e, node.drawn, now))
  {
    hide NextMoment, At;
  }

  lemma PassesKeep(draw: Draws, m: Moment, es: seq<Event>, marks: seq<nat>, next: Moment, now: int)
    requires Inv(m.p) && Passes(draw, m, es, marks, next, now)
    ensures Inv(next.p) && next.p.s.id == m.p.s.id && next.p.s.params == m.p.s.params && |marks| == |es| + 1
  {
    RunKeepsInv(m.p, es);
    RunKeepsNames(m.p, es);
    hide Inv, ValidRun, ClockAfter;
  }

  lemma {:induction false} RunKeepsNames(p: Proc, es: seq<Event>)
    requires ValidRun(p, es)
    ensures After(p, es).s.id == p.s.id && After(p, es).s.params == p.s.params
    decreases |es|
  {
    if es != [] {
      StepKeepsIdentity(p.s, es[0]);
      RunKeepsNames(Advance(p, es[0]), es[1..]);
    }
  }

  /** One turn: the queue, the update and, unless the loop stops, the timeouts. */
  method TakeTurn(turn: Turn, node: SnowballNode, state: SnowballState, ghost m: Moment)
    returns (again: bool, ghost es: seq<Event>, ghost marks: seq<nat>, ghost next: Moment)
    requires Inv(m.p) && At(node, state, m) && Fair(node.draw)
    requires UpdateFits(m.p.s.memberIds, m.p.s.id, m.p.s.params.k, turn.update)
    modifies node, state
    ensures TurnTakes(node.draw, state.hangTimeout, turn, m, es, marks, next) && At(node, state, next) && Inv(next.p)
    ensures next.p.s.memberIds == MembersAfter(m.p.s.memberIds, turn.update)
    ensures next.p.s.id == m.p.s.id && next.p.s.params == m.p.s.params
    ensures again <==> !Stops(turn.update)
  {
    hide *;
    ghost var e0, fs, ms, mid;
    again, e0, fs, ms, mid := PollAndUpdate(turn, node, state, m);
    ghost var rest: seq<Event> := [];
    es, marks, next := [e0] + fs, ms, mid;
    if again {
      ghost var e1 := CheckTimeouts(turn.now, node, state, mid);
      ghost var upto := node.drawn;
      PolledOrExpired(mid, e1);
      NextIsAt(node, state, mid, e1, turn.now);
      next := NextMoment(node.draw, mid, e1, upto, turn.now);
      NextIsStep(node.draw, mid, e1, upto, turn.now);
      PassesOne(node.draw, mid, e1, upto, turn.now);
      PassesOn(node.draw, m, es, ms, mid, [e1], [mid.drawn, upto], next, turn.now);
      rest := [e1];
      TimesChecked(node.draw, state.hangTimeout, m, es, ms, mid, e1, upto, next, turn.now);
      marks, es := ms + [mid.drawn, upto][1..], es + rest;
      PassesKeep(node.draw, m, es, marks, next, turn.now);
    } else {
      assert [e0] + fs + [] == [e0] + fs;
    }
    TurnIsTrace(turn, e0, fs, rest);
    TurnIsTaken(node.draw, state.hangTimeout, turn, m, es, marks, next);
  }

  lemma PolledOrExpired(m: Moment, e: Event)
    requires Inv(m.p) && Allowed(m.p.s, e) && (e.Poll? || e.Expire?)
    ensures Runs(m.p.s, e) && SameIdentity(m.p.s, Step(m.p.s, e)) && Step(m.p.s, e).memberIds == m.p.s.memberIds
  {
    StepKeepsIdentity(m.p.s, e);
    hide Inv;
  }

  lemma TimesChecked(draw: Draws, hang: nat, m: Moment, es: seq<Event>, ms: seq<nat>, mid: Moment, e: Event, upto: nat,
                     next: Moment, now: int)
    requires Passes(draw, m, es, ms, mid, now) && e.Expire? && e.expired == Late(hang, mid.p, mid.clock, now)
    ensures ChecksTimes(draw, hang, m, es + [e], ms + [mid.drawn, upto][1..], now)
  {
    hide ClockAfter, ValidRun, After, Late;
    var all := es + [e];
    assert all[..|es|] == es && (ms + [mid.drawn, upto][1..])[..|es| + 1] == ms;
  }

  lemma TurnIsTaken(draw: Draws, hang: nat, turn: Turn, m: Moment, es: seq<Event>, marks: seq<nat>, next: Moment)
    requires Passes(draw, m, es, marks, next, turn.now) && TurnTrace(turn, es)
    requires !Stops(turn.update) ==> ChecksTimes(draw, hang, m, es, marks, turn.now)
    ensures TurnTakes(draw, hang, turn, m, es, marks, next)
  {
    hide Passes, TurnTrace, ChecksTimes;
  }

  method PollQueue(turn: Turn, node: SnowballNode, state: SnowballState, ghost m: Moment) returns (ghost e: Event)
    requires Inv(m.p) && At(node, state, m) && Fair(node.draw)
    modifies node, state
    ensures Allowed(m.p.s, e) && AtNext(node, state, m, e, turn.now)
    ensures e.Poll? && e.headNum == turn.headNum
  {
    hide *;
    Ready(node, state, m);
    ghost var wave := node.HandleQueue(state, turn.headNum, turn.now);
    e := Poll(turn.headNum, wave);
    PollIsEvent(m, turn.headNum, wave, turn.now);
    NextOnTime(node, state, m, e, turn.now);
  }

  lemma PollIsEvent(m: Moment, headNum: nat, wave: seq<PeerId>, now: int)
    requires FreshWave(m.p.s, wave)
    ensures var e := Poll(headNum, wave);
            && Allowed(m.p.s, e) && Runs(m.p.s, e) && Step(m.p.s, e) == NodeSpec.HandleQueue(m.p.s, headNum, wave)
            && SameIdentity(m.p.s, Step(m.p.s, e)) && StampsTick(m.clock.stamps, m.p, e, now) == m.clock.stamps
  {
    hide FreshWave;
    StampsQuiet(m.clock.stamps, m.p, Poll(headNum, wave), now);
    StepKeepsIdentity(m.p.s, Poll(headNum, wave));
  }

  method CheckTimeouts(now: int, node: SnowballNode, state: SnowballState, ghost m: Moment) returns (ghost e: Event)
    requires Inv(m.p) && At(node, state, m) && Fair(node.draw)
    modifies node, state
    ensures Allowed(m.p.s, e) && AtNext(node, state, m, e, now)
    ensures e.Expire? && e.expired == Late(state.hangTimeout, m.p, m.clock, now)
  {
    hide *;
    Ready(node, state, m);
    LateIs(state.hangTimeout, m.p, m.clock, now);
    ghost var expired, extras := node.HandleUnresponsivePeers(state, now);
    e := Expire(expired, extras);
    TimeoutsAreEvent(m, expired, extras, now);
    NextOnTime(node, state, m, e, now);
  }

  lemma LateIs(hang: nat, p: Proc, c: Clock, now: int)
    requires p.s.waiting == c.asked.Keys
    ensures Late(hang, p, c, now) == set x | x in c.asked && now - c.asked[x] > hang
  {
  }

  lemma TimeoutsAreEvent(m: Moment, expired: set<PeerId>, extras: seq<PeerId>, now: int)
    requires expired <= m.p.s.waiting && |extras| == |expired|
    requires FreshExtras(m.p.s.(waiting := m.p.s.waiting - expired), extras)
    ensures var e := Expire(expired, extras);
            && Allowed(m.p.s, e) && Runs(m.p.s, e) && Step(m.p.s, e) == HandleUnresponsive(m.p.s, expired, extras)
            && SameIdentity(m.p.s, Step(m.p.s, e)) && StampsTick(m.clock.stamps, m.p, e, now) == m.clock.stamps
  {
    hide FreshExtras;
    StampsQuiet(m.clock.stamps, m.p, Expire(expired, extras), now);
  }

  lemma NextTurnFits(ids: seq<PeerId>, id: PeerId, k: nat, turns: seq<Turn>, i: nat)
    requires i < |turns| && TurnsFit(ids, id, k, turns[i..])
    ensures UpdateFits(ids, id, k, turns[i].update)
    ensures TurnsFit(MembersAfter(ids, turns[i].update), id, k, turns[i + 1..])
  {
    assert turns[i..][0] == turns[i] && turns[i..][1..] == turns[i + 1..];
  }

  /** Every turn leads from one of these moments to the next. */
  ghost predicate TurnsTake(draw: Draws, hang: nat, turns: seq<Turn>, moments: seq<Moment>, traces: seq<seq<Event>>,
                            marks: seq<seq<nat>>)
  {
    && |traces| == |marks| <= |turns| && |moments| == |traces| + 1
    && forall i :: 0 <= i < |traces| ==> TurnTakes(draw, hang, turns[i], moments[i], traces[i], marks[i], moments[i + 1])
  }

  lemma OneMoreTurn(draw: Draws, hang: nat, turns: seq<Turn>, moments: seq<Moment>, traces: seq<seq<Event>>,
                    marks: seq<seq<nat>>, es: seq<Event>, ms: seq<nat>, next: Moment)
    requires TurnsTake(draw, hang, turns, moments, traces, marks) && |traces| < |turns|
    requires TurnTakes(draw, hang, turns[|traces|], moments[|traces|], es, ms, next)
    ensures TurnsTake(draw, hang, turns, moments + [next], traces + [es], marks + [ms])
  {
    hide TurnTakes;
  }

  lemma TurnPasses(draw: Draws, hang: nat, turn: Turn, m: Moment, es: seq<Event>, ms: seq<nat>, next: Moment)
    requires TurnTakes(draw, hang, turn, m, es, ms, next)
    ensures ValidRun(m.p, es) && next.p == After(m.p, es)
  {
    hide ClockAfter, TurnTrace, ChecksTimes;
  }

  /** The event loop, from any state of the invariant. */
  method Loop(node: SnowballNode, state: SnowballState, turns: seq<Turn>, ghost m: Moment)
    returns (taken: nat, ghost traces: seq<seq<Event>>, ghost marks: seq<seq<nat>>, ghost moments: seq<Moment>)
    requires Inv(m.p) && At(node, state, m) && Fair(node.draw)
    requires TurnsFit(m.p.s.memberIds, m.p.s.id, m.p.s.params.k, turns)
    modifies node, state
    ensures taken <= |turns|
    ensures forall i :: 0 <= i < taken - 1 ==> !Stops(turns[i].update)
    ensures taken < |turns| ==> taken > 0 && Stops(turns[taken - 1].update)
    ensures |traces| == taken && TurnsTake(node.draw, state.hangTimeout, turns, moments, traces, marks)
    ensures |moments| == taken + 1 && moments[0] == m && At(node, state, moments[taken]) && Inv(moments[taken].p)
    ensures ValidRun(m.p, Flatten(traces)) && moments[taken].p == After(m.p, Flatten(traces))
  {
    hide *;
    taken, traces, marks, moments := 0, [], [], [m];
    ghost var q, trace: seq<Event> := m, [];
    EmptyRun(m.p);
    FlattenNothing();
    NoTurns(node.draw, state.hangTimeout, turns, m);
    assert turns[taken..] == turns;
    var again := true;
    while again && taken < |turns|
      invariant taken <= |turns|
      invariant ValidRun(m.p, trace) && q.p == After(m.p, trace) && Inv(q.p) && At(node, state, q)
      invariant q.p.s.id == m.p.s.id && q.p.s.params == m.p.s.params
      invariant trace == Flatten(traces) && |traces| == taken
      invariant |moments| == taken + 1 && moments[0] == m && moments[taken] == q
      invariant TurnsTake(node.draw, state.hangTimeout, turns, moments, traces, marks)
      invariant again ==> TurnsFit(q.p.s.memberIds, m.p.s.id, m.p.s.params.k, turns[taken..])
      invariant forall i :: 0 <= i < (if again then taken else taken - 1) ==> !Stops(turns[i].update)
      invariant !again ==> taken > 0 && Stops(turns[taken - 1].update)
      decreases |turns| - taken
    {
      NextTurnFits(q.p.s.memberIds, m.p.s.id, m.p.s.params.k, turns, taken);
      ghost var es, ms, next;
      again, es, ms, next := TakeTurn(turns[taken], node, state, q);
      OneMoreTurn(node.draw, state.hangTimeout, turns, moments, traces, marks, es, ms, next);
      TurnPasses(node.draw, state.hangTimeout, turns[taken], q, es, ms, next);
      RunConcat(m.p, trace, es);
      FlattenAppend(traces, es);
      q, trace, traces, marks, moments := next, trace + es, traces + [es], marks + [ms], moments + [next];
      taken := taken + 1;
    }
  }

  lemma NoTurns(draw: Draws, hang: nat, turns: seq<Turn>, m: Moment)
    ensures TurnsTake(draw, hang, turns, [m], [], [])
  {
  }

  /**
   * The engine: boots a node and takes turns until it is told to stop or the turns run out. What it
   * does is a run of the node from its boot state, so every state it passes through satisfies the
   * invariant; and each turn that goes on strikes off exactly the peers that were last asked longer
   * than the timeout ago.
   */
  method Start(draw: Draws, id: PeerId, members: seq<PeerId>, params: Params, hangTimeout: nat,
               headNum: nat, headId: BlockId, turns: seq<Turn>)
    returns (node: SnowballNode, state: SnowballState, taken: nat,
             ghost traces: seq<seq<Event>>, ghost marks: seq<seq<nat>>, ghost moments: seq<Moment>)
    requires Fair(draw) && id in members && Distinct(members) && params.Sound() && params.k <= |members| - 1
    requires TurnsFit(members, id, params.k, turns)
    ensures taken <= |turns|
    ensures forall i :: 0 <= i < taken - 1 ==> !Stops(turns[i].update)
    ensures taken < |turns| ==> taken > 0 && Stops(turns[taken - 1].update)
    ensures |traces| == taken && TurnsTake(draw, hangTimeout, turns, moments, traces, marks)
    ensures var boot, trace := Boot(params, members, id, headNum, headId), Flatten(traces);
            && |moments| == taken + 1 && moments[0] == Moment(boot, Clock(map[], map[]), 0)
            && At(node, state, moments[taken]) && Inv(moments[taken].p)
            && ValidRun(boot, trace) && moments[taken].p == After(boot, trace)
  {
    hide *;
    ghost var boot := Boot(params, members, id, headNum, headId);
    BootInv(params, members, id, headNum, headId);
    BootHas(params, members, id, headNum, headId);
    node, state := Build(draw, id, members, params, hangTimeout, headNum, headId);
    taken, traces, marks, moments := Loop(node, state, turns, Moment(boot, Clock(map[], map[]), 0));
  }

  lemma BootHas(params: Params, members: seq<PeerId>, id: PeerId, headNum: nat, headId: BlockId)
    requires id in members
    ensures var s := Boot(params, members, id, headNum, headId).s;
            s.memberIds == members && s.id == id && s.params == params
  {
  }

  /** The state and the node object, as the node starts. */
  method Build(draw: Draws, id: PeerId, members: seq<PeerId>, params: Params, hangTimeout: nat,
               headNum: nat, headId: BlockId) returns (node: SnowballNode, state: SnowballState)
    requires id in members
    ensures fresh(node) && fresh(state) && node.draw == draw && state.hangTimeout == hangTimeout
    ensures At(node, state, Moment(Boot(params, members, id, headNum, headId), Clock(map[], map[]), 0))
  {
    state := new SnowballState(id, headNum, members, params, hangTimeout);
    node := new SnowballNode(draw, headId, state);
  }
}
