/**
 * The node as it runs: state and node objects whose methods update their fields in place, each
 * proved to do to the abstract view what the corresponding function of NodeSpec does.
 */
module SnowballNodes {
  import opened SnowballTypes
  import opened NodeSpec
  import opened Sampling
  import opened Clocks
  import Timing

  class SnowballState {
    const id: PeerId
    const params: Params
    const hangTimeout: nat
    var order: nat
    var seqNum: nat
    var decisionMap: map<nat, Color>
    var lastColor: Color
    var confidenceCounter: nat
    var responseBuffer: Tally
    var decisionArray: Tally
    var waitingResponseMap: map<PeerId, Timing.Timeout>
    var chainHead: BlockId
    var decisionBlock: BlockId
    var phase: Phase
    var memberIds: seq<PeerId>
    var convergenza: map<BlockId, int>
    var messagesSent: nat
    ghost var askedAt: Times       // when each awaited peer was last asked

    constructor (id: PeerId, headNum: nat, members: seq<PeerId>, params: Params, hangTimeout: nat)
      requires id in members
      ensures this.id == id && this.params == params && this.hangTimeout == hangTimeout
      ensures memberIds == members && order == PositionOf(members, id) && seqNum == headNum + 1
      ensures decisionMap == map[0 := Undecided] && lastColor == Undecided && confidenceCounter == 0
      ensures responseBuffer == decisionArray == Tally(0, 0) && waitingResponseMap == map[]
      ensures chainHead == decisionBlock == [] && phase == Idle && convergenza == map[] && messagesSent == 0
      ensures askedAt == map[]
    {
      this.id, this.params, this.hangTimeout := id, params, hangTimeout;
      order := PositionOf(members, id);
      seqNum := headNum + 1;
      decisionMap := map[0 := Undecided];
      lastColor := Undecided;
      confidenceCounter := 0;
      responseBuffer := Tally(0, 0);
      decisionArray := Tally(0, 0);
      waitingResponseMap := map[];
      chainHead := [];
      decisionBlock := [];
      phase := Idle;
      memberIds := members;
      convergenza := map[];
      messagesSent := 0;
      askedAt := map[];
    }

    /** A running timer of the configured length, started at this time. */
    ghost predicate RunsSince(timeout: Timing.Timeout, at: int)
      reads timeout
    {
      timeout.state == Timing.Active && timeout.duration == hangTimeout && timeout.start == at
    }

    /** Every awaited peer has a running timer of the configured length, started when it was last asked. */
    ghost predicate TimersRun()
      reads this`waitingResponseMap, this`askedAt, waitingResponseMap.Values
    {
      && askedAt.Keys == waitingResponseMap.Keys
      && forall p :: p in waitingResponseMap ==> RunsSince(waitingResponseMap[p], askedAt[p])
    }

    lemma TimedKeys()
      requires TimersRun()
      ensures askedAt.Keys == waitingResponseMap.Keys && |waitingResponseMap| == |askedAt.Keys|
    {
      assert |waitingResponseMap| == |waitingResponseMap.Keys|;
    }

    method SwitchPhase()
      modifies this`phase
      ensures phase == old(phase).Next()
    {
      match phase {
        case Idle => phase := Listening;
        case Listening => phase := Finishing;
        case Finishing => phase := Idle;
      }
    }

    /** Position of the first member with this id, if there is one. */
    method GetOrderIndex(id: PeerId) returns (index: Option<nat>)
      ensures index == if id in memberIds then Some(PositionOf(memberIds, id)) else None
    {
      var i := 0;
      while i < |memberIds| && memberIds[i] != id
        invariant i <= |memberIds| && id !in memberIds[..i]
      {
        i := i + 1;
      }
      if i == |memberIds| {
        return None;
      }
      FirstPosition(memberIds, id, i);
      return Some(i);
    }

    /** A running timer of the configured length. */
    method NewTimer(now: int) returns (timeout: Timing.Timeout)
      ensures fresh(timeout) && RunsSince(timeout, now)
      ensures forall t :: timeout.Overdue(t) <==> t - now > hangTimeout
    {
      timeout := new Timing.Timeout(hangTimeout, now);
      timeout.Start(now);
    }

    method AddToWaitingSet(peer: PeerId, now: int)
      modifies this`waitingResponseMap, this`askedAt
      ensures waitingResponseMap.Keys == old(waitingResponseMap).Keys + {peer}
      ensures fresh(waitingResponseMap[peer]) && waitingResponseMap == old(waitingResponseMap)[peer := waitingResponseMap[peer]]
      ensures forall t :: waitingResponseMap[peer].Overdue(t) <==> t - now > hangTimeout
      ensures old(TimersRun()) ==> TimersRun()
      ensures askedAt == old(askedAt)[peer := now]
      ensures |waitingResponseMap| == |old(waitingResponseMap)| + (if peer in old(waitingResponseMap) then 0 else 1)
    {
      hide RunsSince, Timing.Timeout.Overdue;
      var timeout := NewTimer(now);
      waitingResponseMap, askedAt := waitingResponseMap[peer := timeout], askedAt[peer := now];
    }

    method StopWaitingFor(peer: PeerId)
      modifies this`waitingResponseMap, this`askedAt
      ensures waitingResponseMap == old(waitingResponseMap) - {peer}
      ensures waitingResponseMap.Keys == old(waitingResponseMap).Keys - {peer}
      ensures peer in old(waitingResponseMap) ==> |waitingResponseMap| == |old(waitingResponseMap)| - 1
      ensures old(TimersRun()) ==> TimersRun()
      ensures askedAt == old(askedAt) - {peer}
    {
      ghost var keys := waitingResponseMap.Keys;
      waitingResponseMap, askedAt := waitingResponseMap - {peer}, askedAt - {peer};
      assert waitingResponseMap.Keys == keys - {peer};
      assert |waitingResponseMap| == |waitingResponseMap.Keys|;
    }

    method SetMessageSent()
      modifies this`messagesSent
      ensures messagesSent == old(messagesSent) + 1
    {
      messagesSent := messagesSent + 1;
    }

    method SetBlockNewTimestamp(block: BlockId, now: int)
      modifies this`convergenza
      ensures convergenza == old(convergenza)[block := now]
    {
      convergenza := convergenza[block := now];
    }

    /** Panics when the block never got an arrival stamp. */
    method SetBlockCommitTimestamp(block: BlockId, now: int) returns (elapsed: int)
      requires block in convergenza
      modifies this`convergenza
      ensures elapsed == now - old(convergenza[block])
      ensures convergenza == old(convergenza)[block := elapsed]
    {
      elapsed := now - convergenza[block];
      convergenza := convergenza[block := elapsed];
    }
  }

  lemma {:induction false} FirstPosition(ids: seq<PeerId>, id: PeerId, i: nat)
    requires i < |ids| && ids[i] == id && id !in ids[..i]
    ensures PositionOf(ids, id) == i
  {
    var p := PositionOf(ids, id);
    forall j | 0 <= j < i
      ensures ids[j] != id
    {
      assert ids[..i][j] == ids[j];
    }
    forall j | 0 <= j < p
      ensures ids[j] != id
    {
      assert ids[..p][j] == ids[j];
    }
  }

  lemma NoExtras(v: Node)
    ensures FreshExtras(v, [])
  {
  }

  lemma AlreadyIn<T>(s: set<T>, x: T)
    requires x in s
    ensures s + {x} == s
  {
  }

  lemma SentIsOne(v: Node, dst: PeerId, kind: Kind, seqNum: nat)
    ensures |Send(v, dst, kind, 0, seqNum).sent| == |v.sent| + 1
    ensures SameIdentity(v, Send(v, dst, kind, 0, seqNum))
  {
  }

  /** A sample that the sampling loop could return. */
  lemma SomeWave(v: Node) returns (wave: seq<PeerId>)
    requires MembersOk(v) && v.params.k <= |v.memberIds| - 1
    ensures FreshWave(v, wave)
  {
    var rest := Without(v.memberIds, v.order);
    wave := rest[..v.params.k];
    forall a | 0 <= a < |rest|
      ensures rest[a] == v.memberIds[if a < v.order then a else a + 1]
    {
    }
  }

  /** The wave lists the members at these positions, each once. */
  predicate Covers(ids: seq<PeerId>, done: set<nat>, wave: seq<PeerId>)
  {
    && (forall i :: i in done ==> i < |ids|) && |wave| == |done| && Distinct(wave)
    && ToSet(wave) == set i | i in done && i < |ids| :: ids[i]
  }

  lemma NobodyAsked(ids: seq<PeerId>, times: Times, now: int)
    ensures Covers(ids, {}, []) && Refreshed(times, times, ToSet([]), now)
  {
  }

  lemma OneMoreAsked(ids: seq<PeerId>, done: set<nat>, wave: seq<PeerId>, i: nat, a: Times, b: Times, now: int)
    requires Covers(ids, done, wave) && Distinct(ids) && i < |ids| && i !in done && Refreshed(a, b, ToSet(wave), now)
    ensures Covers(ids, done + {i}, wave + [ids[i]])
    ensures Refreshed(a, b[ids[i] := now], ToSet(wave + [ids[i]]), now)
  {
    assert ids[i] !in ToSet(wave);
    assert ToSet(wave + [ids[i]]) == ToSet(wave) + {ids[i]};
    var all := set j | j in done + {i} && j < |ids| :: ids[j];
    assert all == (set j | j in done && j < |ids| :: ids[j]) + {ids[i]};
    RefreshedTwice(a, b, b[ids[i] := now], ToSet(wave), {ids[i]}, now);
  }

  lemma CoversAll(ids: seq<PeerId>, sample: set<nat>, wave: seq<PeerId>, self: nat)
    requires Covers(ids, sample, wave) && Distinct(ids) && self < |ids| && self !in sample
    ensures OtherMembers(ids, ids[self], wave) && |wave| == |sample|
    ensures (forall i :: i in sample ==> i < |ids|) && ToSet(wave) == set i | i in sample :: ids[i]
  {
    assert (set i | i in sample :: ids[i]) == set i | i in sample && i < |ids| :: ids[i];
    forall p | p in wave
      ensures p in ids && p != ids[self]
    {
      assert p in ToSet(wave);
    }
  }

  class SnowballNode {
    const draw: Draws
    var drawn: nat                 // position in the random stream
    var blockQueue: seq<Block>
    var calls: seq<Call>           // calls made to the validator
    var sent: seq<Packet>          // messages handed to the validator for sending

    /** The value that the functions of NodeSpec work on. */
    ghost function View(state: SnowballState): Node
      reads this, state
    {
      Node(state.params, state.id, state.order, state.seqNum, state.decisionMap, state.lastColor,
           state.confidenceCounter, state.responseBuffer, state.decisionArray, state.waitingResponseMap.Keys,
           state.chainHead, state.decisionBlock, state.phase, state.memberIds, blockQueue,
           state.convergenza.Keys, sent, calls)
    }

    /** Timers run, and every message sent was counted. */
    ghost predicate Working(state: SnowballState)
      reads this, state, state.waitingResponseMap.Values
    {
      state.TimersRun() && state.messagesSent == |sent|
    }

    /** The members drawn since this position of the stream. */
    ghost function DrawnSince(state: SnowballState, from: nat): set<PeerId>
      reads this, state
    {
      DrawnMembers(draw, state.memberIds, state.order, from, drawn)
    }

    /** The node works, and since then just the drawn members were asked anew, now. */
    ghost predicate OnTime(state: SnowballState, before: Times, from: nat, now: int)
      reads this, state, state.waitingResponseMap.Values
    {
      Working(state) && Moved(draw, state.memberIds, state.order, before, from, state.askedAt, drawn, now)
    }

    /** Two calls, one after the other. */
    lemma OnTimeTwice(state: SnowballState, a: Times, x: nat, b: Times, y: nat, now: int)
      requires Moved(draw, state.memberIds, state.order, a, x, b, y, now) && OnTime(state, b, y, now)
      ensures OnTime(state, a, x, now)
    {
      MovedTwice(draw, state.memberIds, state.order, a, x, b, y, state.askedAt, drawn, now);
    }

    /** Nothing drawn, and at most some peers struck off. */
    lemma OnTimeUnmoved(state: SnowballState, before: Times, gone: set<PeerId>, now: int)
      requires Working(state) && (state.askedAt == before || state.askedAt == before - gone)
      ensures OnTime(state, before, drawn, now)
    {
      NotMoved(draw, state.memberIds, state.order, before, gone, drawn, now);
    }

    /** Enough well-formed members and a fair random source: without them a sampling loop can spin forever. */
    ghost predicate CanSample(state: SnowballState)
      reads this, state
    {
      Fair(draw) && MembersOk(View(state)) && state.params.k <= |state.memberIds| - 1
    }

    constructor (draw: Draws, headId: BlockId, state: SnowballState)
      modifies state`chainHead
      ensures this.draw == draw && drawn == 0 && blockQueue == [] && sent == []
      ensures calls == if state.order == 0 then [Initialize] else []
      ensures state.chainHead == headId
    {
      this.draw, drawn, blockQueue, sent := draw, 0, [], [];
      calls := if state.order == 0 then [Initialize] else [];
      new;
      state.chainHead := headId;
    }

    // ---------- Sending ----------

    method SendPeerMessage(peer: PeerId, kind: Kind, vote: u8, seqNum: nat, state: SnowballState)
      modifies this`sent, state`messagesSent
      ensures View(state) == Send(old(View(state)), peer, kind, vote, seqNum)
      ensures state.messagesSent == old(state.messagesSent) + 1
    {
      var payload := Packet(state.id, peer, kind, vote, seqNum);
      // Wrong-vote mode.
      if state.params.byzantine && state.order in state.params.wrongIdx {
        payload := payload.(vote := 0);
      }
      sent := sent + [payload];
      state.SetMessageSent();
    }

    method SendPeerNotification(peer: PeerId, kind: Kind, seqNum: nat, state: SnowballState)
      modifies this`sent, state`messagesSent
      ensures View(state) == Send(old(View(state)), peer, kind, 0, seqNum)
      ensures state.messagesSent == old(state.messagesSent) + 1
    {
      SendPeerMessage(peer, kind, 0, seqNum, state);
    }

    // ---------- Sampling ----------

    method RandomValue(rangeMax: nat) returns (value: nat)
      requires Fair(draw) && rangeMax > 0
      modifies this`drawn
      ensures value < rangeMax && value == draw(old(drawn), rangeMax) && drawn == old(drawn) + 1
    {
      value := draw(drawn, rangeMax);
      drawn := drawn + 1;
    }

    /** Distinct positions of other members, all of them drawn; no other draw but the own position was made. */
    method SelectNodeSample(state: SnowballState, amount: nat) returns (sample: set<nat>)
      requires Fair(draw) && amount < |state.memberIds|
      modifies this`drawn
      ensures |sample| == amount && state.order !in sample
      ensures forall i :: i in sample ==> i < |state.memberIds|
      ensures old(drawn) + amount <= drawn
      ensures forall q :: old(drawn) <= q < drawn ==>
                draw(q, |state.memberIds|) == state.order || draw(q, |state.memberIds|) in sample
      ensures forall i :: i in sample ==> WasDrawn(draw, i, |state.memberIds|, old(drawn), drawn)
      ensures (set i | i in sample :: state.memberIds[i]) == DrawnSince(state, old(drawn))
    {
      sample := {};
      var n := |state.memberIds|;
      ghost var hit := drawn;
      if amount > 0 {
        hit := UsefulDraw(draw, drawn, n, sample, state.order);
      }
      while |sample| < amount
        invariant |sample| <= amount && state.order !in sample
        invariant forall i :: i in sample ==> i < n
        invariant old(drawn) + |sample| <= drawn
        invariant forall q :: old(drawn) <= q < drawn ==> draw(q, n) == state.order || draw(q, n) in sample
        invariant forall i :: i in sample ==> WasDrawn(draw, i, n, old(drawn), drawn)
        invariant |sample| < amount ==> drawn <= hit && draw(hit, n) !in sample && draw(hit, n) != state.order
        decreases amount - |sample|, hit - drawn
      {
        var choice := RandomValue(n);
        if choice != state.order {
          if choice !in sample && |sample| + 1 < amount {
            hit := UsefulDraw(draw, drawn, n, sample + {choice}, state.order);
          }
          assert choice in sample ==> sample + {choice} == sample;
          sample := sample + {choice};
        }
      }
      SampleIsDrawn(state, sample, old(drawn));
    }

    lemma SampleIsDrawn(state: SnowballState, sample: set<nat>, from: nat)
      requires state.order !in sample && forall i :: i in sample ==> i < |state.memberIds|
      requires forall q :: from <= q < drawn ==>
                 draw(q, |state.memberIds|) == state.order || draw(q, |state.memberIds|) in sample
      requires forall i :: i in sample ==> WasDrawn(draw, i, |state.memberIds|, from, drawn)
      ensures (set i | i in sample :: state.memberIds[i]) == DrawnSince(state, from)
    {
      forall i: nat | i < |state.memberIds| && i != state.order
        ensures i in sample <==> WasDrawn(draw, i, |state.memberIds|, from, drawn)
      {
      }
    }

    /** One other member; every draw on the way was either this one or the own position. */
    method DrawPeer(state: SnowballState) returns (peer: PeerId)
      requires CanSample(state) && |state.memberIds| > 1
      modifies this`drawn
      ensures peer in state.memberIds && peer != state.id && old(drawn) < drawn
      ensures OnlyDrew(draw, state.memberIds, state.order, peer, old(drawn), drawn)
      ensures DrawnSince(state, old(drawn)) == {peer}
    {
      var extra := SelectNodeSample(state, 1);
      var index :| index in extra;
      OneMember(extra, index);
      peer := state.memberIds[index];
      assert (set i | i in extra :: state.memberIds[i]) == {peer};
    }

    /** Draws one member and waits for it from now on, whether or not it was awaited already. */
    method DrawAndWait(state: SnowballState, now: int) returns (peer: PeerId)
      requires CanSample(state) && |state.memberIds| > 1 && Working(state)
      modifies this`drawn, state`waitingResponseMap, state`askedAt
      ensures peer in state.memberIds && peer != state.id && old(drawn) < drawn
      ensures OnlyDrew(draw, state.memberIds, state.order, peer, old(drawn), drawn)
      ensures state.waitingResponseMap.Keys == old(state.waitingResponseMap).Keys + {peer}
      ensures |state.waitingResponseMap| == |old(state.waitingResponseMap)| + (if peer in old(state.waitingResponseMap) then 0 else 1)
      ensures OnTime(state, old(state.askedAt), old(drawn), now)
    {
      peer := DrawPeer(state);
      state.AddToWaitingSet(peer, now);
    }

    /** Adds one member that is neither this node nor awaited; peers drawn again only get a new timer. */
    method AddReplacement(state: SnowballState, now: int) returns (peer: PeerId)
      requires CanSample(state) && |state.waitingResponseMap| < |state.memberIds| - 1 && Working(state)
      modifies this`drawn, state`waitingResponseMap, state`askedAt
      ensures peer in state.memberIds && peer != state.id && peer !in old(state.waitingResponseMap)
      ensures state.waitingResponseMap.Keys == old(state.waitingResponseMap).Keys + {peer}
      ensures OnTime(state, old(state.askedAt), old(drawn), now)
    {
      hide Moved, SnowballState.TimersRun, Fair;
      var missing := |state.waitingResponseMap|;
      ghost var awaited := state.waitingResponseMap.Keys;
      ghost var hit := FreeDraw(draw, drawn, state.memberIds, awaited, state.order);
      OnTimeUnmoved(state, old(state.askedAt), {}, now);
      hide MembersFit, OnlyDrew;
      peer := [];
      while |state.waitingResponseMap| < missing + 1
        invariant if |state.waitingResponseMap| < missing + 1 then
                    state.waitingResponseMap.Keys == awaited && drawn <= hit
                  else
                    peer in state.memberIds && peer != state.id && peer !in awaited
                    && state.waitingResponseMap.Keys == awaited + {peer}
        invariant OnTime(state, old(state.askedAt), old(drawn), now)
        decreases if |state.waitingResponseMap| < missing + 1 then 1 + hit - drawn else 0
      {
        ghost var before, at := state.askedAt, drawn;
        peer := DrawAndWait(state, now);
        OnTimeTwice(state, old(state.askedAt), old(drawn), before, at, now);
        if peer in awaited {
          AlreadyIn(awaited, peer);
          StillAhead(draw, state.memberIds, state.order, peer, at, drawn, hit);
        }
      }
    }

    /** Draws one more member to wait for and sends it a request. */
    method AskReplacement(state: SnowballState, now: int) returns (peer: PeerId)
      requires CanSample(state) && |state.waitingResponseMap| < |state.memberIds| - 1 && Working(state)
      modifies this`drawn, this`sent, state`waitingResponseMap, state`askedAt, state`messagesSent
      ensures View(state) == Ask(old(View(state)), peer, state.seqNum)
      ensures FreshExtras(old(View(state)), [peer])
      ensures OnTime(state, old(state.askedAt), old(drawn), now)
    {
      hide SnowballState.TimersRun, Moved, Fair, MembersFit, FreshExtras, Ask, Send;
      ghost var v := View(state);
      peer := AddReplacement(state, now);
      OneExtra(v, peer);
      ghost var w := v.(waiting := v.waiting + {peer});
      assert View(state) == w;
      AskWaitsFirst(v, peer, v.seqNum);
      SentIsOne(w, peer, Request, v.seqNum);
      hide CanSample;
      SendPeerNotification(peer, Request, state.seqNum, state);
      assert state.TimersRun() && state.messagesSent == |sent|;
    }

    // ---------- Rounds ----------

    method PrepareAndForwardPeerRequests(sample: set<nat>, state: SnowballState, now: int)
      returns (ghost wave: seq<PeerId>)
      requires MembersOk(View(state)) && |sample| == state.params.k
      requires forall i :: i in sample ==> i < |state.memberIds| && i != state.order
      requires Working(state)
      modifies this`sent, state`responseBuffer, state`waitingResponseMap, state`askedAt, state`messagesSent
      ensures View(state) == Forward(old(View(state)), wave)
      ensures FreshWave(old(View(state)), wave) && ToSet(wave) == (set i | i in sample :: state.memberIds[i])
      ensures Working(state) && Refreshed(old(state.askedAt), state.askedAt, ToSet(wave), now)
    {
      ghost var v := View(state);
      ForwardExtends(v, [], v.id);
      state.responseBuffer := Tally(0, 0);
      assert Distinct(v.memberIds) && v.order < |v.memberIds| && v.memberIds[v.order] == v.id;
      hide SnowballState.TimersRun, Refreshed, Forward, Covers, MembersOk, OtherMembers, Distinct;
      wave := RequestAll(sample, state, now, v);
      CoversAll(v.memberIds, sample, wave, v.order);
    }

    /** Asks the members at these positions, one after the other. */
    method RequestAll(sample: set<nat>, state: SnowballState, now: int, ghost v: Node) returns (ghost wave: seq<PeerId>)
      requires Distinct(state.memberIds) && v.memberIds == state.memberIds && Working(state)
      requires View(state) == Forward(v, []) && forall i :: i in sample ==> i < |state.memberIds|
      modifies this`sent, state`waitingResponseMap, state`askedAt, state`messagesSent
      ensures View(state) == Forward(v, wave) && Covers(v.memberIds, sample, wave)
      ensures Working(state) && Refreshed(old(state.askedAt), state.askedAt, ToSet(wave), now)
    {
      hide SnowballState.TimersRun, Refreshed, Forward, Covers, Distinct, ToSet;
      wave := [];
      var rest := sample;
      NobodyAsked(v.memberIds, state.askedAt, now);
      assert sample - rest == {};
      while rest != {}
        invariant rest <= sample && Covers(v.memberIds, sample - rest, wave)
        invariant View(state) == Forward(v, wave)
        invariant Working(state) && Refreshed(old(state.askedAt), state.askedAt, ToSet(wave), now)
        decreases rest
      {
        var index :| index in rest;
        OneMoreAsked(v.memberIds, sample - rest, wave, index, old(state.askedAt), state.askedAt, now);
        RequestPeer(index, state, now, v, wave);
        assert sample - (rest - {index}) == (sample - rest) + {index};
        rest := rest - {index};
        wave := wave + [v.memberIds[index]];
      }
      assert sample - {} == sample;
    }

    /** Asks the member at this position, as one more of the wave. */
    method RequestPeer(index: nat, state: SnowballState, now: int, ghost v: Node, ghost wave: seq<PeerId>)
      requires index < |state.memberIds| && View(state) == Forward(v, wave) && Working(state)
      modifies this`sent, state`waitingResponseMap, state`askedAt, state`messagesSent
      ensures View(state) == Forward(v, wave + [state.memberIds[index]])
      ensures Working(state) && state.askedAt == old(state.askedAt)[state.memberIds[index] := now]
    {
      hide SnowballState.TimersRun, Timing.Timeout.Overdue, Forward;
      var peer := state.memberIds[index];
      ForwardExtends(v, wave, peer);
      SendPeerNotification(peer, Request, state.seqNum, state);
      state.AddToWaitingSet(peer, now);
    }

    /** A fresh wave of requests to a fresh sample. */
    method SendWave(state: SnowballState, now: int) returns (ghost wave: seq<PeerId>)
      requires CanSample(state) && Working(state)
      modifies this`drawn, this`sent, state`responseBuffer, state`waitingResponseMap, state`askedAt, state`messagesSent
      ensures View(state) == Forward(old(View(state)), wave)
      ensures FreshWave(old(View(state)), wave) && ToSet(wave) == DrawnSince(state, old(drawn))
      ensures OnTime(state, old(state.askedAt), old(drawn), now)
    {
      var sample := SelectNodeSample(state, state.params.k);
      wave := PrepareAndForwardPeerRequests(sample, state, now);
    }

    /** One reading of the loop over the colours: the state after the first i passes. */
    ghost function AfterPasses(v: Node, i: nat, first: seq<PeerId>, second: seq<PeerId>): Node
      requires Decidable(v)
    {
      if i == 0 then v
      else if i == 1 then PassIfMajority(v, 0, first)
      else PassIfMajority(PassIfMajority(v, 0, first), 1, second)
    }

    /** Not both colours reached the threshold. */
    predicate OneMajority(state: SnowballState)
      reads state
    {
      state.responseBuffer.ko < state.params.alfa || state.responseBuffer.ok < state.params.alfa
    }

    method OnValuesReady(state: SnowballState, now: int) returns (ghost first: seq<PeerId>, ghost second: seq<PeerId>)
      requires CanSample(state) && Decidable(View(state)) && Working(state)
      modifies this, state
      ensures View(state) == ValuesReady(old(View(state)), first, second)
      ensures FreshWave(old(View(state)), first) && FreshWave(old(View(state)), second)
      ensures OnTime(state, old(state.askedAt), old(drawn), now)
      ensures old(state.phase == Listening && OneMajority(state)) ==>
                state.convergenza == StampsAfter(old(state.convergenza), old(state.decisionBlock), state.phase, now)
    {
      ghost var v := View(state);
      first := SomeWave(v);
      second := first;
      var majority := false;
      OnTimeUnmoved(state, old(state.askedAt), {}, now);
      for i := 0 to 2
        invariant FreshWave(v, first) && FreshWave(v, second)
        invariant View(state) == AfterPasses(v, i, first, second)
        invariant OnTime(state, old(state.askedAt), old(drawn), now) && CanSample(state)
        invariant old(state.phase == Listening && OneMajority(state)) ==>
                    state.convergenza == StampsAfter(old(state.convergenza), old(state.decisionBlock), state.phase, now)
        invariant majority <==> (i >= 1 && v.responseBuffer.ko >= v.params.alfa)
                                || (i >= 2 && AfterPasses(v, 1, first, second).responseBuffer.ok >= v.params.alfa)
      {
        if state.responseBuffer.At(i) >= state.params.alfa {
          majority := true;
          ghost var before, at := state.askedAt, drawn;
          ghost var wave := OnMajority(i, state, now, if i == 0 then first else second);
          OnTimeTwice(state, old(state.askedAt), old(drawn), before, at, now);
          if i == 0 {
            first := wave;
          } else {
            second := wave;
          }
        }
      }
      if !majority {
        state.confidenceCounter := 0;
        ghost var before, at := state.askedAt, drawn;
        second := SendWave(state, now);
        OnTimeTwice(state, old(state.askedAt), old(drawn), before, at, now);
      }
    }

    /** The body of the loop, for a colour that reached the threshold. */
    method OnMajority(i: nat, state: SnowballState, now: int, ghost unused: seq<PeerId>) returns (ghost wave: seq<PeerId>)
      requires i < 2 && CanSample(state) && Decidable(View(state)) && FreshWave(View(state), unused) && Working(state)
      modifies this, state
      ensures View(state) == Pass(old(View(state)), i, wave)
      ensures FreshWave(old(View(state)), wave)
      ensures OnTime(state, old(state.askedAt), old(drawn), now)
      ensures old(state.phase) == Listening ==>
                state.convergenza == StampsAfter(old(state.convergenza), old(state.decisionBlock), state.phase, now)
    {
      hide Moved, SnowballState.TimersRun, MembersFit, Fair, OtherMembers, Forward, WithMajority;
      wave := unused;
      CountMajority(i, state);
      if state.confidenceCounter >= state.params.beta {
        state.SwitchPhase();
        HandleDecision(state, now);
        OnTimeUnmoved(state, old(state.askedAt), {}, now);
      } else {
        wave := SendWave(state, now);
      }
    }

    method CountMajority(i: nat, state: SnowballState)
      requires i < 2 && Decidable(View(state))
      modifies state`decisionArray, state`decisionMap, state`lastColor, state`confidenceCounter
      ensures View(state) == WithMajority(old(View(state)), i)
    {
      var color := ColorOf(i);
      state.decisionArray := state.decisionArray.Bump(i);
      var current: BinaryColor := state.decisionMap[state.seqNum];
      if state.decisionArray.At(i) > state.decisionArray.At(IndexOf(current)) {
        state.decisionMap := state.decisionMap[state.seqNum := color];
      }
      if color != state.lastColor {
        state.lastColor := color;
        state.confidenceCounter := 1;
      } else {
        state.confidenceCounter := state.confidenceCounter + 1;
      }
    }

    /** Commits or fails the decided block. */
    method GiveVerdict(state: SnowballState)
      requires state.seqNum in state.decisionMap
      modifies this`calls, state`chainHead
      ensures calls == old(calls) + [Verdict(old(View(state)))]
      ensures state.chainHead
           == if state.decisionMap[state.seqNum] == OK then state.decisionBlock else old(state.chainHead)
    {
      if state.decisionMap[state.seqNum] == OK {
        calls := calls + [Commit(state.decisionBlock)];
        state.chainHead := state.decisionBlock;
      } else {
        calls := calls + [Fail(state.decisionBlock)];
      }
    }

    method HandleDecision(state: SnowballState, now: int)
      requires state.seqNum in state.decisionMap && state.decisionBlock in state.convergenza
      modifies this`blockQueue, this`calls, state`chainHead, state`convergenza, state`phase
      ensures View(state) == NodeSpec.HandleDecision(old(View(state)))
      ensures state.convergenza
           == old(state.convergenza)[state.decisionBlock := now - old(state.convergenza[state.decisionBlock])]
    {
      GiveVerdict(state);
      var elapsed := state.SetBlockCommitTimestamp(state.decisionBlock, now);
      if blockQueue != [] {
        blockQueue := blockQueue[1..];
      }
      if state.order == 0 {
        calls := calls + [Initialize];
      }
      state.SwitchPhase();
    }

    // ---------- Blocks ----------

    method HandleBlockNew(block: BlockId, state: SnowballState, now: int) returns (ghost wave: seq<PeerId>)
      requires CanSample(state) && Working(state)
      modifies this`drawn, this`sent
      modifies state`decisionBlock, state`seqNum, state`decisionMap, state`lastColor, state`confidenceCounter
      modifies state`decisionArray, state`responseBuffer, state`waitingResponseMap, state`askedAt, state`messagesSent, state`phase
      ensures View(state) == NodeSpec.HandleBlockNew(old(View(state)), block, wave)
      ensures FreshWave(old(View(state)), wave) && ToSet(wave) == DrawnSince(state, old(drawn))
      ensures OnTime(state, old(state.askedAt), old(drawn), now)
    {
      hide MembersFit, Fair, OtherMembers, Moved, SnowballState.TimersRun, DrawnMembers, Forward, Begun;
      BeginSequence(block, state);
      wave := SendWave(state, now);
      state.SwitchPhase();
    }

    method BeginSequence(block: BlockId, state: SnowballState)
      modifies state`decisionBlock, state`seqNum, state`decisionMap, state`lastColor, state`confidenceCounter
      modifies state`decisionArray
      ensures View(state) == Begun(old(View(state)), block)
    {
      state.decisionBlock := block;
      state.seqNum := state.seqNum + 1;
      state.decisionMap := state.decisionMap[state.seqNum := OK];
      state.lastColor := OK;
      state.confidenceCounter := 0;
      state.decisionArray := Tally(0, 0);
    }

    /** `headNum` is the number of the chain head that the validator reports. */
    method HandleQueue(state: SnowballState, headNum: nat, now: int) returns (ghost wave: seq<PeerId>)
      requires CanSample(state) && Working(state)
      modifies this`drawn, this`sent, this`calls
      modifies state`decisionBlock, state`seqNum, state`decisionMap, state`lastColor, state`confidenceCounter
      modifies state`decisionArray, state`responseBuffer, state`waitingResponseMap, state`askedAt, state`messagesSent, state`phase
      ensures View(state) == NodeSpec.HandleQueue(old(View(state)), headNum, wave)
      ensures FreshWave(old(View(state)), wave)
      ensures OnTime(state, old(state.askedAt), old(drawn), now)
    {
      wave := SomeWave(View(state));
      if blockQueue == [] {
        return;
      }
      var block := blockQueue[0];
      if block.id == state.decisionBlock {
        return;
      }
      if block.num < headNum {
        calls := calls + [Fail(block.id)];
        return;
      }
      calls := calls + [Check(block.id)];
      wave := HandleBlockNew(block.id, state, now);
    }

    method OnBlockNew(block: Block, state: SnowballState, now: int)
      modifies this`blockQueue, state`convergenza
      ensures View(state) == BlockNew(old(View(state)), block)
      ensures state.convergenza == old(state.convergenza)[block.id := now]
      ensures old(Working(state)) ==> Working(state)
    {
      blockQueue := blockQueue + [block];
      state.SetBlockNewTimestamp(block.id, now);
    }

    // ---------- Peers ----------

    /** False stands for a panic: a position that was unwrapped is missing. */
    method OnPeerConnected(peer: PeerId, state: SnowballState) returns (alive: bool)
      modifies state`memberIds, state`order
      ensures alive <==> peer in old(state.memberIds) || state.id in old(state.memberIds) + [peer]
      ensures state.id in old(state.memberIds) ==> alive && View(state) == Connected(old(View(state)), peer)
      ensures old(Working(state)) ==> Working(state)
    {
      if peer in state.memberIds {
        return true;
      }
      state.memberIds := state.memberIds + [peer];
      alive := RefreshOrder(state);
    }

    method RefreshOrder(state: SnowballState) returns (alive: bool)
      modifies state`order
      ensures alive <==> state.id in state.memberIds
      ensures state.order == if alive then PositionOf(state.memberIds, state.id) else old(state.order)
    {
      var index := state.GetOrderIndex(state.id);
      alive := index.Some?;
      if alive {
        state.order := index.value;
      }
    }

    /** False stands for a panic: the peer, or then this node itself, is not a member. */
    method OnPeerDisconnected(peer: PeerId, state: SnowballState) returns (alive: bool)
      modifies state`memberIds, state`order
      ensures var ids := old(state.memberIds);
              alive <==> peer in ids && state.id in Without(ids, PositionOf(ids, peer))
      ensures alive ==> View(state) == Disconnected(old(View(state)), peer)
      ensures old(Working(state)) ==> Working(state)
    {
      hide SnowballState.TimersRun, PositionOf;
      var index := state.GetOrderIndex(peer);
      if index.None? {
        return false;
      }
      ghost var rest := Without(state.memberIds, index.value);
      state.memberIds := state.memberIds[..index.value] + state.memberIds[index.value + 1..];
      assert state.memberIds == rest;
      hide Without;
      alive := RefreshOrder(state);
    }

    method OnRequest(sender: PeerId, seqNum: nat, state: SnowballState) returns (handled: bool)
      modifies this`sent, state`messagesSent
      ensures View(state) == AnswerRequest(old(View(state)), sender, seqNum)
      ensures old(Working(state)) ==> Working(state)
      ensures handled <==> seqNum <= state.seqNum && seqNum in state.decisionMap
    {
      if seqNum > state.seqNum {
        SendPeerNotification(sender, Unavailable, seqNum, state);
        return false;
      }
      if seqNum !in state.decisionMap {
        return false;
      }
      var currentValue: u8 := if state.decisionMap[seqNum] == OK then 1 else 0;
      SendPeerMessage(sender, Response, currentValue, state.seqNum, state);
      return true;
    }

    method OnResponse(sender: PeerId, vote: u8, state: SnowballState, now: int)
      returns (handled: bool, ghost first: seq<PeerId>, ghost second: seq<PeerId>)
      requires CanSample(state) && Working(state)
      requires Completes(View(state), sender, vote) ==> Decidable(View(state))
      modifies this, state
      ensures OnTime(state, old(state.askedAt), old(drawn), now)
      ensures state.params.Sound() ==>
                state.convergenza == if old(state.phase) != Listening then old(state.convergenza)
                                     else StampsAfter(old(state.convergenza), old(state.decisionBlock), state.phase, now)
      ensures View(state) == TakeResponse(old(View(state)), sender, vote, first, second)
      ensures FreshWave(old(View(state)), first) && FreshWave(old(View(state)), second)
      ensures handled <==> old(Awaited(View(state), sender)) && vote <= 1
    {
      hide MembersFit, Fair, Moved, SnowballState.TimersRun, ValuesReady, OtherMembers, DrawnMembers;
      hide TakeResponse, CountVote, StampsAfter;
      first := SomeWave(View(state));
      second := first;
      OnTimeUnmoved(state, old(state.askedAt), {}, now);
      Unstamped(state.convergenza, state.decisionBlock, now);
      ResponseCases(View(state), sender, vote, first, second);
      if state.phase != Listening {
        return false, first, second;
      }
      if sender !in state.waitingResponseMap {
        return false, first, second;
      }
      handled, first, second := TakeVote(sender, vote, state, now);
      ResponseCases(old(View(state)), sender, vote, first, second);
    }

    /** The vote of an awaited peer; its slot is used up whatever the vote turns out to be. */
    method TakeVote(sender: PeerId, vote: u8, state: SnowballState, now: int)
      returns (handled: bool, ghost first: seq<PeerId>, ghost second: seq<PeerId>)
      requires CanSample(state) && Working(state) && state.phase == Listening && sender in state.waitingResponseMap
      requires vote <= 1 && state.responseBuffer.Total() + 1 == state.params.k ==> Decidable(View(state))
      modifies this, state
      ensures OnTime(state, old(state.askedAt), old(drawn), now)
      ensures state.params.Sound() ==>
                state.convergenza == StampsAfter(old(state.convergenza), old(state.decisionBlock), state.phase, now)
      ensures var v := old(View(state));
              var heard := v.(waiting := v.waiting - {sender});
              var counted := v.(waiting := v.waiting - {sender}, responseBuffer := v.responseBuffer.Bump(if vote > 1 then 0 else vote));
              View(state) == if vote > 1 then heard
                             else if v.responseBuffer.Total() + 1 == v.params.k then ValuesReady(counted, first, second) else counted
      ensures FreshWave(old(View(state)), first) && FreshWave(old(View(state)), second)
      ensures handled <==> vote <= 1
    {
      hide MembersFit, Fair, Moved, SnowballState.TimersRun, ValuesReady, OtherMembers, DrawnMembers, StampsAfter;
      first := SomeWave(View(state));
      second := first;
      Unstamped(state.convergenza, state.decisionBlock, now);
      state.StopWaitingFor(sender);
      OnTimeUnmoved(state, old(state.askedAt), {sender}, now);
      if vote != 0 && vote != 1 {
        return false, first, second;
      }
      ghost var before := state.askedAt;
      first, second := CountResponse(vote, state, now);
      OnTimeTwice(state, old(state.askedAt), old(drawn), before, old(drawn), now);
      return true, first, second;
    }

    lemma Unstamped(stamps: map<BlockId, int>, block: BlockId, now: int)
      ensures StampsAfter(stamps, block, Listening, now) == stamps
    {
    }

    /** A valid vote, from a peer that is no longer awaited; the last one of the round closes it. */
    method CountResponse(vote: u8, state: SnowballState, now: int) returns (ghost first: seq<PeerId>, ghost second: seq<PeerId>)
      requires CanSample(state) && Working(state) && vote <= 1 && state.phase == Listening
      requires state.responseBuffer.Total() + 1 == state.params.k ==> Decidable(View(state))
      modifies this, state
      ensures OnTime(state, old(state.askedAt), old(drawn), now)
      ensures state.params.Sound() ==>
                state.convergenza == StampsAfter(old(state.convergenza), old(state.decisionBlock), state.phase, now)
      ensures var v := old(View(state));
              var counted := v.(responseBuffer := v.responseBuffer.Bump(vote));
              View(state) == if v.responseBuffer.Total() + 1 == v.params.k then ValuesReady(counted, first, second) else counted
      ensures FreshWave(old(View(state)), first) && FreshWave(old(View(state)), second)
    {
      hide MembersFit, Fair, Moved, SnowballState.TimersRun, ValuesReady, OtherMembers, DrawnMembers;
      first := SomeWave(View(state));
      second := first;
      state.responseBuffer := state.responseBuffer.Bump(vote);
      OnTimeUnmoved(state, old(state.askedAt), {}, now);
      if state.responseBuffer.ko + state.responseBuffer.ok == state.params.k {
        first, second := OnValuesReady(state, now);
      }
    }

    method OnUnavailable(sender: PeerId, state: SnowballState, now: int) returns (handled: bool, ghost extra: PeerId)
      requires CanSample(state) && |state.waitingResponseMap| <= |state.memberIds| - 1 && Working(state)
      modifies this`drawn, this`sent, state`waitingResponseMap, state`askedAt, state`messagesSent
      ensures OnTime(state, old(state.askedAt), old(drawn), now)
      ensures View(state) == TakeUnavailable(old(View(state)), sender, extra)
      ensures handled <==> old(Awaited(View(state), sender))
      ensures handled ==> var v := old(View(state)); FreshExtras(v.(waiting := v.waiting - {sender}), [extra])
    {
      extra := [];
      OnTimeUnmoved(state, old(state.askedAt), {}, now);
      if state.phase != Listening {
        return false, extra;
      }
      if sender !in state.waitingResponseMap {
        return false, extra;
      }
      extra := SwapPeer(sender, state, now);
      return true, extra;
    }

    /** Strikes a peer off and asks another one instead. */
    method SwapPeer(sender: PeerId, state: SnowballState, now: int) returns (extra: PeerId)
      requires CanSample(state) && |state.waitingResponseMap| <= |state.memberIds| - 1 && Working(state)
      requires sender in state.waitingResponseMap
      ensures OnTime(state, old(state.askedAt), old(drawn), now)
      modifies this`drawn, this`sent, state`waitingResponseMap, state`askedAt, state`messagesSent
      ensures var v := old(View(state));
              && View(state) == Replace(v.(waiting := v.waiting - {sender}), [extra])
              && FreshExtras(v.(waiting := v.waiting - {sender}), [extra])
    {
      hide MembersFit, Fair, FreshExtras, Ask, Replace;
      ghost var heard := View(state).(waiting := View(state).waiting - {sender});
      state.StopWaitingFor(sender);
      assert View(state) == heard;
      OnTimeUnmoved(state, old(state.askedAt), {sender}, now);
      ghost var before := state.askedAt;
      extra := AskReplacement(state, now);
      OnTimeTwice(state, old(state.askedAt), old(drawn), before, old(drawn), now);
      ReplaceExtends(heard, [], extra);
      assert [] + [extra] == [extra];
    }

    // ---------- Timeouts ----------

    /** The awaited peers whose timer has run out; copies are checked, the timers stay as they are. */
    method ExpiredPeers(state: SnowballState, now: int) returns (expired: set<PeerId>)
      ensures expired == set p | p in state.waitingResponseMap && state.waitingResponseMap[p].Overdue(now)
      ensures state.TimersRun() ==> expired == set p | p in state.askedAt && now - state.askedAt[p] > state.hangTimeout
    {
      expired := {};
      var rest := state.waitingResponseMap.Keys;
      while rest != {}
        invariant rest <= state.waitingResponseMap.Keys
        invariant expired == set p | p in state.waitingResponseMap.Keys - rest && state.waitingResponseMap[p].Overdue(now)
        decreases rest
      {
        var peer :| peer in rest;
        var copy := state.waitingResponseMap[peer].Clone();
        var late := copy.CheckExpired(now);
        if late {
          expired := expired + {peer};
        }
        rest := rest - {peer};
      }
    }

    method StrikeOff(peers: set<PeerId>, state: SnowballState) returns (amount: nat)
      requires peers <= state.waitingResponseMap.Keys && state.TimersRun()
      modifies state`waitingResponseMap, state`askedAt
      ensures state.waitingResponseMap.Keys == old(state.waitingResponseMap).Keys - peers
      ensures amount == |peers| && |state.waitingResponseMap| == |old(state.waitingResponseMap)| - |peers|
      ensures state.TimersRun() && state.askedAt == old(state.askedAt) - peers
    {
      ghost var times := state.askedAt;
      state.TimedKeys();
      hide *;
      amount := 0;
      var rest := peers;
      NoneStruckOff(times, peers);
      while rest != {}
        invariant rest <= peers && amount + |rest| == |peers|
        invariant state.TimersRun() && state.askedAt == times - (peers - rest)
        decreases rest
      {
        var peer :| peer in rest;
        StruckOff(times, peers, rest, peer);
        state.StopWaitingFor(peer);
        rest := rest - {peer};
        amount := amount + 1;
      }
      state.TimedKeys();
      LeftAfter(times, peers);
    }

    lemma NoneStruckOff(times: Times, peers: set<PeerId>)
      ensures times == times - (peers - peers)
    {
      assert peers - peers == {};
    }

    lemma StruckOff(times: Times, peers: set<PeerId>, rest: set<PeerId>, peer: PeerId)
      requires peer in rest && rest <= peers
      ensures (times - (peers - rest)) - {peer} == times - (peers - (rest - {peer}))
      ensures |rest - {peer}| == |rest| - 1 && rest - {peer} <= peers && rest - {peer} < rest
    {
    }

    lemma LeftAfter(times: Times, gone: set<PeerId>)
      requires gone <= times.Keys
      ensures times - (gone - {}) == times - gone && (times - gone).Keys == times.Keys - gone
      ensures |times.Keys - gone| == |times.Keys| - |gone|
    {
      assert gone - {} == gone;
    }

    method AskReplacements(amount: nat, state: SnowballState, now: int) returns (ghost extras: seq<PeerId>)
      requires CanSample(state) && |state.waitingResponseMap| + amount <= |state.memberIds| - 1 && Working(state)
      modifies this`drawn, this`sent, state`waitingResponseMap, state`askedAt, state`messagesSent
      ensures OnTime(state, old(state.askedAt), old(drawn), now)
      ensures View(state) == Replace(old(View(state)), extras)
      ensures |extras| == amount && FreshExtras(old(View(state)), extras)
    {
      hide MembersFit, Fair, Ask, Moved, SnowballState.TimersRun, Replace;
      ghost var v := View(state);
      extras := [];
      ReplaceExtends(v, [], v.id);
      OnTimeUnmoved(state, old(state.askedAt), {}, now);
      NoExtras(v);
      hide FreshExtras;
      for i := 0 to amount
        invariant OnTime(state, old(state.askedAt), old(drawn), now)
        invariant View(state) == Replace(v, extras) && |extras| == i && FreshExtras(v, extras)
        invariant |state.waitingResponseMap| == |v.waiting| + i
      {
        ghost var before, at := state.askedAt, drawn;
        var extra := AskReplacement(state, now);
        OnTimeTwice(state, old(state.askedAt), old(drawn), before, at, now);
        ReplaceExtends(v, extras, extra);
        ExtrasExtend(v, extras, extra);
        extras := extras + [extra];
        assert |state.waitingResponseMap| == |View(state).waiting|;
      }
    }

    method HandleUnresponsivePeers(state: SnowballState, now: int)
      returns (ghost expired: set<PeerId>, ghost extras: seq<PeerId>)
      requires CanSample(state) && |state.waitingResponseMap| <= |state.memberIds| - 1 && Working(state)
      modifies this`drawn, this`sent, state`waitingResponseMap, state`askedAt, state`messagesSent
      ensures OnTime(state, old(state.askedAt), old(drawn), now)
      ensures expired == old(set p | p in state.askedAt && now - state.askedAt[p] > state.hangTimeout)
      ensures View(state) == HandleUnresponsive(old(View(state)), expired, extras)
      ensures var v := old(View(state));
              && expired <= v.waiting && |extras| == |expired|
              && FreshExtras(v.(waiting := v.waiting - expired), extras)
    {
      hide MembersFit, Fair, Moved, FreshExtras, Replace, SnowballState.TimersRun;
      ghost var v := View(state);
      state.TimedKeys();
      var late := ExpiredPeers(state, now);
      expired := late;
      var amount := StrikeOff(late, state);
      assert View(state) == v.(waiting := v.waiting - late);
      OnTimeUnmoved(state, old(state.askedAt), late, now);
      ghost var before := state.askedAt;
      extras := AskReplacements(amount, state, now);
      OnTimeTwice(state, old(state.askedAt), old(drawn), before, old(drawn), now);
    }
  }

  lemma OneMember<T>(s: set<T>, x: T)
    requires |s| == 1 && x in s
    ensures s == {x}
  {
    assert |s - {x}| == 0;
  }
}
