/**
 * What each handler call does to a node, written out on the fields of its state: the conditions under
 * which it acts, everything it changes, and that it changes nothing else.
 */
module Handlers {
  import opened SnowballTypes
  import opened RoundTally
  import opened NodeSpec
  import opened NodeRuns
  import opened NodeTheorems

  // ---------- Polling the queue ----------

  /** One request to each peer of the list, about this sequence. */
  predicate RequestsTo(id: PeerId, peers: seq<PeerId>, seqNum: nat, sent: seq<Packet>) {
    |sent| == |peers| && forall i :: 0 <= i < |peers| ==> sent[i] == Packet(id, peers[i], Request, 0, seqNum)
  }

  /** The front of the queue is checked and opened as OK, with a fresh round of one request per sampled peer. */
  ghost predicate OpensFront(s: Node, r: Node, wave: seq<PeerId>)
    requires s.queue != []
  {
    && |wave| == s.params.k && OtherMembers(s.memberIds, s.id, wave)
    && |r.sent| == |s.sent| + |wave| && r.sent[..|s.sent|] == s.sent
    && RequestsTo(s.id, wave, s.seqNum + 1, r.sent[|s.sent|..])
    && r == s.(decisionBlock := s.queue[0].id, seqNum := s.seqNum + 1, phase := Listening,
               decisionMap := s.decisionMap[s.seqNum + 1 := OK], lastColor := OK, confidence := 0,
               decisionArray := Tally(0, 0), responseBuffer := Tally(0, 0), waiting := ToSet(wave),
               calls := s.calls + [Check(s.queue[0].id)], sent := r.sent)
  }

  /** The front of the queue is failed, and stays where it is. */
  predicate FailsFront(s: Node, r: Node)
    requires s.queue != []
  {
    r == s.(calls := s.calls + [Fail(s.queue[0].id)])
  }

  /**
   * A poll opens the front exactly if the node is Idle, the front is not the block dealt with last and
   * its number is not below the head's; it fails the front exactly if the number is below; otherwise
   * it changes nothing.
   */
  lemma PollExactly(p: Proc, headNum: nat, wave: seq<PeerId>)
    requires Inv(p) && Allowed(p.s, Poll(headNum, wave))
    ensures var s, r := p.s, Step(p.s, Poll(headNum, wave));
            var next := s.queue != [] && s.phase == Idle && s.queue[0].id != s.decisionBlock;
            && (next && s.queue[0].num >= headNum <==> s.queue != [] && OpensFront(s, r, wave))
            && (next && s.queue[0].num < headNum <==> s.queue != [] && FailsFront(s, r))
            && (!next ==> r == s)
  {
    if Pending(p.s) {
      OpensOnlyIdle(p);
    }
    assert SlotInv(p) && QueueInv(p);
    hide Inv;
    PollWritten(p.s, headNum, wave);
  }

  lemma PollWritten(s: Node, headNum: nat, wave: seq<PeerId>)
    requires Allowed(s, Poll(headNum, wave)) && (s.phase == Idle ==> s.waiting == {})
    requires s.queue != [] && s.queue[0].id != s.decisionBlock ==> s.phase == Idle
    ensures var r := Step(s, Poll(headNum, wave));
            var next := s.queue != [] && s.phase == Idle && s.queue[0].id != s.decisionBlock;
            && (next && s.queue[0].num >= headNum <==> s.queue != [] && OpensFront(s, r, wave))
            && (next && s.queue[0].num < headNum <==> s.queue != [] && FailsFront(s, r))
            && (!next ==> r == s)
  {
    var r := Step(s, Poll(headNum, wave));
    if Pending(s) {
      if s.queue[0].num >= headNum {
        assert r.sent == s.sent + Requests(r, wave);
        assert r.waiting == ToSet(wave);
      }
      assert |r.calls| == |s.calls| + 1;
    } else {
      assert r == s && |s.calls| == |r.calls|;
    }
  }

  // ---------- Requests ----------

  /** The colour a node answers with, by its history: none for sequence 0. */
  ghost predicate ColourOf(p: Proc, n: nat, c: Color) {
    if n == 0 then c == Undecided
    else if p.h.headNum + 2 <= n < p.h.headNum + 2 + |p.h.decided| then c == p.h.decided[n - p.h.headNum - 2].color
    else exists last: BinaryColor ::
           LastColor(p.h.rounds, last) && c == Preferred(Count(p.h.rounds, KO), Count(p.h.rounds, OK), last)
  }

  /** The vote that leaves the node: 0 in the wrong-vote mode, else 1 for OK. */
  function VoteOf(s: Node, c: Color): u8 {
    if s.params.byzantine && s.order in s.params.wrongIdx then 0 else if c == OK then 1 else 0
  }

  /**
   * A request is answered with one packet to its sender: a notice that carries the requested number
   * if that is ahead, a response that carries the own number if the sequence is known, open or
   * decided. For any other number, nothing is sent. Nothing else changes.
   */
  lemma RequestExactly(p: Proc, e: Event)
    requires Inv(p) && Allowed(p.s, e) && e.Deliver? && e.kind == Request
    ensures var s, r, n := p.s, Step(p.s, e), e.seqNum;
            if n > s.seqNum then r == s.(sent := s.sent + [Packet(s.id, e.sender, Unavailable, 0, n)])
            else if n == 0 || p.h.headNum + 2 <= n then
              exists c: Color ::
                ColourOf(p, n, c)
                && r == s.(sent := s.sent + [Packet(s.id, e.sender, Response, VoteOf(s, c), s.seqNum)])
            else r == s
  {
    var n := e.seqNum;
    ColourMapIsTotal(p, n);
    if n <= p.s.seqNum && n in p.s.decisionMap {
      ColourIsKnown(p, n);
      hide Inv, ColourOf;
      assert ColourOf(p, n, p.s.decisionMap[n]);
    }
  }

  lemma ColourIsKnown(p: Proc, n: nat)
    requires Inv(p) && n in p.s.decisionMap
    ensures ColourOf(p, n, p.s.decisionMap[n])
  {
    ColourMapIsTotal(p, n);
    assert QueueInv(p) && SlotInv(p) && ColorInv(p);
    if n == p.s.seqNum && p.s.phase == Listening {
      CountersReadHistory(p);
    }
    hide Inv, Preferred, Count;
  }

  // ---------- Responses, notices, timeouts, arrivals and members ----------

  /** Nothing but a vote counted, or a slot given up. */
  lemma ResponseExactly(p: Proc, e: Event)
    requires Inv(p) && Allowed(p.s, e) && e.Deliver? && e.kind == Response
    ensures var s, r := p.s, Step(p.s, e);
            if s.phase != Listening || e.sender !in s.waiting then r == s
            else if e.vote > 1 then r == s.(waiting := s.waiting - {e.sender})
            else if s.responseBuffer.ko + s.responseBuffer.ok + 1 < s.params.k then
              r == s.(waiting := s.waiting - {e.sender},
                      responseBuffer := if e.vote == 0 then Tally(s.responseBuffer.ko + 1, s.responseBuffer.ok)
                                        else Tally(s.responseBuffer.ko, s.responseBuffer.ok + 1))
            else
              s.responseBuffer.ko + s.responseBuffer.ok + 1 == s.params.k && CompletesWith(p, e.vote, e.wave, r)
  {
    assert SlotInv(p);
    if Closes(p.s, e) {
      LastVoteExactly(p, e);
    }
    hide Inv, CompletesWith;
  }

  /**
   * The state after the last vote of a round: if the vote makes this many zeroes and ones, one colour
   * with at least alfa of them gets the round, and the streak it makes decides or not.
   */
  ghost predicate CompletesWith(p: Proc, vote: u8, wave: seq<PeerId>, r: Node) {
    var s := p.s;
    var ko := s.responseBuffer.ko + (if vote == 0 then 1 else 0);
    var ok := s.responseBuffer.ok + (if vote == 1 then 1 else 0);
    var kos := s.decisionArray.ko + (if ko >= s.params.alfa then 1 else 0);
    var oks := s.decisionArray.ok + (if ok >= s.params.alfa then 1 else 0);
    && r.decisionArray == Tally(kos, oks)
    && r.lastColor == (if ko >= s.params.alfa then KO else if ok >= s.params.alfa then OK else s.lastColor)
    && r.confidence == (if ko < s.params.alfa && ok < s.params.alfa then 0
                        else if r.lastColor == s.lastColor then s.confidence + 1 else 1)
    && s.seqNum in s.decisionMap
    && r.decisionMap == s.decisionMap[s.seqNum := if oks > kos then OK else if kos > oks then KO
                                                  else s.decisionMap[s.seqNum]]
    && r == if r.confidence >= s.params.beta then DecidedState(s, r, Tally(ko, ok)) else ContinuedState(s, r, wave)
  }

  /** Everything but the counters after a decision. */
  ghost function DecidedState(s: Node, r: Node, buffer: Tally): Node {
    var color := if s.seqNum in r.decisionMap then r.decisionMap[s.seqNum] else Undecided;
    var verdict := if color == OK then Commit(s.decisionBlock) else Fail(s.decisionBlock);
    r.(params := s.params, id := s.id, order := s.order, memberIds := s.memberIds, seqNum := s.seqNum,
       decisionBlock := s.decisionBlock, stamped := s.stamped, sent := s.sent, waiting := {}, phase := Idle,
       responseBuffer := buffer, queue := if s.queue == [] then [] else s.queue[1..],
       chainHead := if color == OK then s.decisionBlock else s.chainHead,
       calls := s.calls + [verdict] + (if s.order == 0 then [Initialize] else []))
  }

  /** Everything but the counters after a round that does not decide. */
  ghost function ContinuedState(s: Node, r: Node, wave: seq<PeerId>): Node {
    s.(decisionArray := r.decisionArray, lastColor := r.lastColor, confidence := r.confidence,
       decisionMap := r.decisionMap, responseBuffer := Tally(0, 0), waiting := ToSet(wave),
       sent := s.sent + seq(|wave|, i requires 0 <= i < |wave| => Packet(s.id, wave[i], Request, 0, s.seqNum)))
  }

  /** The counters after the round. */
  lemma ClosingWritten(s: Node, sender: PeerId, vote: u8)
    requires Started(s) && s.params.Sound() && Completes(s, sender, vote)
    requires s.decisionMap[s.seqNum] == Preferred(s.decisionArray.ko, s.decisionArray.ok, s.lastColor)
    ensures var ko := s.responseBuffer.ko + (if vote == 0 then 1 else 0);
            var ok := s.responseBuffer.ok + (if vote == 1 then 1 else 0);
            var kos := s.decisionArray.ko + (if ko >= s.params.alfa then 1 else 0);
            var oks := s.decisionArray.ok + (if ok >= s.params.alfa then 1 else 0);
            var t := Closing(s, sender, vote);
            && CountVote(s, sender, vote).responseBuffer == Tally(ko, ok)
            && t.votes == Tally(kos, oks)
            && t.last == (if ko >= s.params.alfa then KO else if ok >= s.params.alfa then OK else s.lastColor)
            && t.confidence == (if ko < s.params.alfa && ok < s.params.alfa then 0
                                else if t.last == s.lastColor then s.confidence + 1 else 1)
            && t.pref == (if oks > kos then OK else if kos > oks then KO else s.decisionMap[s.seqNum])
  {
  }

  lemma LastVoteExactly(p: Proc, e: Event)
    requires Inv(p) && Allowed(p.s, e) && Closes(p.s, e)
    ensures CompletesWith(p, e.vote, e.wave, Step(p.s, e))
  {
    ClosesDecidable(p);
    CompletesClean(p, e.sender, e.vote);
    CompletedRound(p, e);
    CountersReadHistory(p);
    assert p.s.params.Sound() && p.s.phase == Listening;
    hide Inv, Allowed, Count, Replay, LastColor, TrailingRun, Preferred, Closing, CompletesWith, Decidable, Step;
    ClosingWritten(p.s, e.sender, e.vote);
    LastVoteWritten(p, e.sender, e.vote, e.wave);
  }

  lemma LastVoteWritten(p: Proc, sender: PeerId, vote: u8, wave: seq<PeerId>)
    requires Started(p.s) && Decidable(p.s) && p.s.params.Sound() && Completes(p.s, sender, vote)
    requires p.s.decisionMap[p.s.seqNum] == Preferred(p.s.decisionArray.ko, p.s.decisionArray.ok, p.s.lastColor)
    requires CountVote(p.s, sender, vote).waiting == {}
    ensures if Closing(p.s, sender, vote).confidence >= p.s.params.beta
            then CompletesWith(p, vote, wave, Concluding(p, sender, vote).s)
            else CompletesWith(p, vote, wave, Continuing(p, sender, vote, wave).s)
  {
    ClosingWritten(p.s, sender, vote);
    hide Closing, Preferred;
    if Closing(p.s, sender, vote).confidence < p.s.params.beta {
      assert {} + ToSet(wave) == ToSet(wave);
    }
  }

  /** A notice from an awaited peer swaps it for another member, which is asked instead. */
  lemma NoticeExactly(p: Proc, e: Event)
    requires Inv(p) && Allowed(p.s, e) && e.Deliver? && e.kind == Unavailable
    ensures var s, r := p.s, Step(p.s, e);
            if s.phase != Listening || e.sender !in s.waiting then r == s
            else
              && e.extra in s.memberIds && e.extra != s.id && e.extra !in s.waiting - {e.sender}
              && r == s.(waiting := s.waiting - {e.sender} + {e.extra},
                         sent := s.sent + [Packet(s.id, e.extra, Request, 0, s.seqNum)])
  {
    hide Inv;
    assert e.extra in [e.extra] && ToSet([e.extra]) == {e.extra};
    assert Requests(p.s, [e.extra]) == [Packet(p.s.id, e.extra, Request, 0, p.s.seqNum)];
  }

  /** Expired peers are swapped for as many other members, each asked once. */
  lemma TimeoutsExactly(p: Proc, expired: set<PeerId>, extras: seq<PeerId>)
    requires Inv(p) && Allowed(p.s, Expire(expired, extras))
    ensures var s, r := p.s, Step(p.s, Expire(expired, extras));
            && |extras| == |expired| && Distinct(extras)
            && (forall x :: x in extras ==> x in s.memberIds && x != s.id && x !in s.waiting - expired)
            && |r.sent| == |s.sent| + |extras| && r.sent[..|s.sent|] == s.sent
            && RequestsTo(s.id, extras, s.seqNum, r.sent[|s.sent|..])
            && r == s.(waiting := s.waiting - expired + ToSet(extras), sent := r.sent)
  {
    hide Inv;
  }

  /** A block joins the back of the queue; nothing happens to it until it is polled. */
  lemma ArrivalExactly(p: Proc, block: Block)
    ensures Step(p.s, Arrive(block)) == p.s.(queue := p.s.queue + [block], stamped := p.s.stamped + {block.id})
  {
  }

  /** Messages of other kinds change nothing, connects and disconnects only members and the own position. */
  lemma MembersExactly(p: Proc, e: Event)
    requires Inv(p) && Allowed(p.s, e)
    ensures e.Deliver? && e.kind == Other ==> Step(p.s, e) == p.s
    ensures e.Connect? ==>
              var r := Step(p.s, e);
              r == p.s.(memberIds := if e.peer in p.s.memberIds then p.s.memberIds else p.s.memberIds + [e.peer], order := r.order)
    ensures e.Disconnect? ==>
              var r := Step(p.s, e);
              r == p.s.(memberIds := r.memberIds, order := r.order) && e.peer !in r.memberIds
              && |r.memberIds| == |p.s.memberIds| - 1 && forall x :: x in r.memberIds ==> x in p.s.memberIds
    ensures e.Connect? || e.Disconnect? ==>
              var r := Step(p.s, e);
              Distinct(r.memberIds) && r.order < |r.memberIds| && r.memberIds[r.order] == p.s.id
  {
    assert ConfigInv(p.s);
    ConfigKept(p.s, e);
    hide Inv;
    if e.Disconnect? {
      Gone(p.s.memberIds, PositionOf(p.s.memberIds, e.peer));
    }
  }

  lemma Gone(ids: seq<PeerId>, i: nat)
    requires Distinct(ids) && i < |ids|
    ensures ids[i] !in Without(ids, i) && |Without(ids, i)| == |ids| - 1
  {
    var rest := Without(ids, i);
    forall j | 0 <= j < |rest|
      ensures rest[j] != ids[i]
    {
      assert rest[j] == ids[if j < i then j else j + 1];
    }
  }

  // ---------- When the next block is opened ----------

  function Arrived(es: seq<Event>): seq<Block> {
    if es == [] then []
    else (if es[0].Arrive? then [es[0].block] else []) + Arrived(es[1..])
  }

  /** Once there is a front, every poll reports a head above this number. */
  predicate OnlyEarlyPolls(front: bool, es: seq<Event>, num: nat)
    decreases |es|
  {
    es != [] ==>
      && (front && es[0].Poll? ==> es[0].headNum > num)
      && OnlyEarlyPolls(front || es[0].Arrive?, es[1..], num)
  }

  /**
   * An Idle node whose next block is not a repeat opens exactly this block, and at the first poll
   * whose head is not above it: until then it stays Idle and opens nothing, at that poll it does.
   */
  lemma {:induction false} NextBlockOpens(p: Proc, es: seq<Event>, block: Block, headNum: nat, wave: seq<PeerId>)
    requires Inv(p) && p.s.phase == Idle && ValidRun(p, es)
    requires p.s.queue + Arrived(es) != [] && (p.s.queue + Arrived(es))[0] == block && block.id != p.s.decisionBlock
    requires OnlyEarlyPolls(p.s.queue != [], es, block.num)
    requires headNum <= block.num && Allowed(After(p, es).s, Poll(headNum, wave))
    ensures var q := After(p, es);
            && q.s.phase == Idle && q.s.seqNum == p.s.seqNum && q.h.decided == p.h.decided
            && Checks(q.s.calls) == Checks(p.s.calls) && q.s.decisionBlock == p.s.decisionBlock
            && q.s.queue == p.s.queue + Arrived(es) && q.s.queue[0] == block
            && OpensFront(q.s, Step(q.s, Poll(headNum, wave)), wave)
    decreases |es|
  {
    hide *;
    if es == [] {
      EmptyRun(p);
      NextIsHere(p, block, headNum, wave);
    } else {
      var next := FirstOf(p, es, block);
      NextBlockOpens(next, es[1..], block, headNum, wave);
    }
  }

  lemma NextIsHere(p: Proc, block: Block, headNum: nat, wave: seq<PeerId>)
    requires Inv(p) && p.s.phase == Idle && p.s.queue + Arrived([]) != [] && (p.s.queue + Arrived([]))[0] == block
    requires block.id != p.s.decisionBlock && headNum <= block.num && Allowed(p.s, Poll(headNum, wave))
    ensures p.s.queue + Arrived([]) == p.s.queue && p.s.queue[0] == block
    ensures OpensFront(p.s, Step(p.s, Poll(headNum, wave)), wave)
  {
    assert p.s.queue + [] == p.s.queue;
    PollExactly(p, headNum, wave);
    hide Inv, OpensFront;
  }

  /** The first event of such a run. */
  lemma FirstOf(p: Proc, es: seq<Event>, block: Block) returns (next: Proc)
    requires Inv(p) && p.s.phase == Idle && ValidRun(p, es) && es != []
    requires p.s.queue + Arrived(es) != [] && (p.s.queue + Arrived(es))[0] == block
    requires OnlyEarlyPolls(p.s.queue != [], es, block.num)
    ensures Runs(p.s, es[0]) && next == Advance(p, es[0]) && Inv(next) && ValidRun(next, es[1..])
    ensures After(p, es) == After(next, es[1..])
    ensures next.s.phase == Idle && next.s.seqNum == p.s.seqNum && next.h.decided == p.h.decided
    ensures Checks(next.s.calls) == Checks(p.s.calls) && next.s.decisionBlock == p.s.decisionBlock
    ensures next.s.queue + Arrived(es[1..]) == p.s.queue + Arrived(es)
    ensures OnlyEarlyPolls(next.s.queue != [], es[1..], block.num)
  {
    hide Inv, Checks, GoodDraws, Fits, Step, Record;
    next := Advance(p, es[0]);
    StepKeepsInv(p, es[0]);
    FrontArrived(p.s.queue, es, block);
    IdleWaits(p, es[0], block);
  }

  lemma FrontArrived(queue: seq<Block>, es: seq<Event>, block: Block)
    requires es != [] && queue + Arrived(es) != [] && (queue + Arrived(es))[0] == block
    requires OnlyEarlyPolls(queue != [], es, block.num)
    ensures queue != [] && es[0].Poll? ==> queue[0] == block && es[0].headNum > block.num
    ensures var next := queue + (if es[0].Arrive? then [es[0].block] else []);
            next + Arrived(es[1..]) == queue + Arrived(es) && OnlyEarlyPolls(next != [], es[1..], block.num)
  {
    hide *;
    var first := if es[0].Arrive? then [es[0].block] else [];
    ArrivedFirst(es);
    EarlyFirst(queue != [], es, block.num);
    FrontStays(queue, first, Arrived(es[1..]));
  }

  lemma ArrivedFirst(es: seq<Event>)
    requires es != []
    ensures Arrived(es) == (if es[0].Arrive? then [es[0].block] else []) + Arrived(es[1..])
  {
  }

  lemma EarlyFirst(front: bool, es: seq<Event>, num: nat)
    requires es != [] && OnlyEarlyPolls(front, es, num)
    ensures front && es[0].Poll? ==> es[0].headNum > num
    ensures OnlyEarlyPolls(front || es[0].Arrive?, es[1..], num)
  {
  }

  lemma FrontStays(queue: seq<Block>, first: seq<Block>, later: seq<Block>)
    ensures (queue + first) + later == queue + (first + later)
    ensures queue != [] ==> (queue + (first + later))[0] == queue[0]
    ensures queue + first != [] <==> queue != [] || first != []
  {
  }

  lemma IdleWaits(p: Proc, e: Event, block: Block)
    requires Inv(p) && p.s.phase == Idle && Allowed(p.s, e)
    requires p.s.queue != [] && e.Poll? ==> p.s.queue[0] == block && e.headNum > block.num
    ensures var q := Advance(p, e);
            && q.s.phase == Idle && q.s.seqNum == p.s.seqNum && q.h.decided == p.h.decided
            && Checks(q.s.calls) == Checks(p.s.calls) && q.s.decisionBlock == p.s.decisionBlock
            && q.s.queue == p.s.queue + (if e.Arrive? then [e.block] else [])
  {
    hide Inv;
    if e.Poll? && Pending(p.s) {
      LogAppend(p.s.calls, Fail(p.s.queue[0].id));
    }
    hide Checks;
  }
}
