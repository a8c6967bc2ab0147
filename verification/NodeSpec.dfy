/**
 * What each handler of a node does to its state, as functions on a value.
 *
 * The random choices are arguments: `wave` lists the members of a fresh sample in the order the
 * requests to them are sent, `extras` the replacements in the order they are drawn.
 */
module NodeSpec {
  import opened SnowballTypes
  import opened RoundTally

  datatype Node = Node(
    params: Params,
    id: PeerId,
    order: nat,
    seqNum: nat,
    decisionMap: map<nat, Color>,
    lastColor: Color,
    confidence: nat,
    responseBuffer: Tally,
    decisionArray: Tally,
    waiting: set<PeerId>,
    chainHead: BlockId,
    decisionBlock: BlockId,
    phase: Phase,
    memberIds: seq<PeerId>,
    queue: seq<Block>,
    stamped: set<BlockId>,
    sent: seq<Packet>,
    calls: seq<Call>)

  // ---------- Members ----------

  /** Settings, own id, members and own position are as before. */
  predicate SameIdentity(s: Node, r: Node) {
    r.params == s.params && r.id == s.id && r.memberIds == s.memberIds && r.order == s.order
  }

  /** Position of the first occurrence. */
  function PositionOf(ids: seq<PeerId>, id: PeerId): (i: nat)
    requires id in ids
    ensures i < |ids| && ids[i] == id && id !in ids[..i]
  {
    if ids[0] == id then 0 else 1 + PositionOf(ids[1..], id)
  }

  /** Ids are distinct and `order` is this node's own position. */
  ghost predicate MembersOk(s: Node) {
    MembersFit(s.memberIds, s.order, s.id)
  }

  predicate MembersFit(ids: seq<PeerId>, order: nat, id: PeerId) {
    Distinct(ids) && order < |ids| && ids[order] == id
  }

  function Without(ids: seq<PeerId>, i: nat): seq<PeerId>
    requires i < |ids|
  {
    ids[..i] + ids[i + 1..]
  }

  function Connected(s: Node, peer: PeerId): Node
    requires s.id in s.memberIds
  {
    if peer in s.memberIds then s
    else s.(memberIds := s.memberIds + [peer], order := PositionOf(s.memberIds + [peer], s.id))
  }

  function Disconnected(s: Node, peer: PeerId): Node
    requires peer in s.memberIds
    requires s.id in Without(s.memberIds, PositionOf(s.memberIds, peer))
  {
    var rest := Without(s.memberIds, PositionOf(s.memberIds, peer));
    s.(memberIds := rest, order := PositionOf(rest, s.id))
  }

  // ---------- Messages ----------

  /** This node replaces the vote of every message it sends by 0. */
  predicate Forced(s: Node) {
    s.params.byzantine && s.order in s.params.wrongIdx
  }

  function Send(s: Node, dst: PeerId, kind: Kind, vote: u8, seqNum: nat): Node {
    s.(sent := s.sent + [Packet(s.id, dst, kind, if Forced(s) then 0 else vote, seqNum)])
  }

  function Requests(s: Node, peers: seq<PeerId>): seq<Packet> {
    seq(|peers|, i requires 0 <= i < |peers| => Packet(s.id, peers[i], Request, 0, s.seqNum))
  }

  lemma RequestsAppend(s: Node, peers: seq<PeerId>, p: PeerId)
    ensures Requests(s, peers + [p]) == Requests(s, peers) + [Packet(s.id, p, Request, 0, s.seqNum)]
  {
  }

  lemma RequestsAre(s: Node, peers: seq<PeerId>)
    ensures forall m :: m in Requests(s, peers) ==>
              m == Packet(s.id, m.dst, Request, 0, s.seqNum) && m.dst in peers
  {
  }

  /** A fresh sample: k distinct members other than this node. */
  ghost predicate FreshWave(s: Node, wave: seq<PeerId>) {
    |wave| == s.params.k && OtherMembers(s.memberIds, s.id, wave)
  }

  predicate OtherMembers(ids: seq<PeerId>, id: PeerId, peers: seq<PeerId>) {
    Distinct(peers) && forall p :: p in peers ==> p in ids && p != id
  }

  /** Replacements: distinct members, not this node, not already waited for. */
  ghost predicate FreshExtras(s: Node, extras: seq<PeerId>) {
    && Distinct(extras)
    && forall p :: p in extras ==> p in s.memberIds && p != s.id && p !in s.waiting
  }

  lemma OneExtra(s: Node, p: PeerId)
    requires p in s.memberIds && p != s.id && p !in s.waiting
    ensures FreshExtras(s, [p])
  {
  }

  function Forward(s: Node, wave: seq<PeerId>): Node {
    s.(responseBuffer := Tally(0, 0), waiting := s.waiting + ToSet(wave), sent := s.sent + Requests(s, wave))
  }

  function Replace(s: Node, extras: seq<PeerId>): Node {
    s.(waiting := s.waiting + ToSet(extras), sent := s.sent + Requests(s, extras))
  }

  /** One more peer of a wave, or one more replacement: a request sent and a peer to wait for. */
  function Ask(s: Node, p: PeerId, seqNum: nat): Node {
    var asked := Send(s, p, Request, 0, seqNum);
    asked.(waiting := s.waiting + {p})
  }

  /** Whether the peer is added before or after the request is sent makes no difference. */
  lemma AskWaitsFirst(s: Node, p: PeerId, seqNum: nat)
    ensures Ask(s, p, seqNum) == Send(s.(waiting := s.waiting + {p}), p, Request, 0, seqNum)
  {
  }

  lemma ForwardExtends(s: Node, wave: seq<PeerId>, p: PeerId)
    ensures Forward(s, wave + [p]) == Ask(Forward(s, wave), p, s.seqNum) && Forward(s, wave).seqNum == s.seqNum
    ensures Forward(s, []) == s.(responseBuffer := Tally(0, 0))
  {
    RequestsAppend(s, wave, p);
    assert ToSet(wave + [p]) == ToSet(wave) + {p};
    assert s.waiting + ToSet(wave + [p]) == s.waiting + ToSet(wave) + {p};
    assert s.sent + Requests(s, wave + [p]) == s.sent + Requests(s, wave) + [Packet(s.id, p, Request, 0, s.seqNum)];
  }

  lemma ReplaceExtends(s: Node, extras: seq<PeerId>, p: PeerId)
    ensures Replace(s, extras + [p]) == Ask(Replace(s, extras), p, s.seqNum)
    ensures Replace(s, []) == s
  {
    RequestsAppend(s, extras, p);
    assert ToSet(extras + [p]) == ToSet(extras) + {p};
    assert s.waiting + ToSet(extras + [p]) == s.waiting + ToSet(extras) + {p};
    assert s.sent + Requests(s, extras + [p]) == s.sent + Requests(s, extras) + [Packet(s.id, p, Request, 0, s.seqNum)];
  }

  lemma ExtrasExtend(s: Node, extras: seq<PeerId>, p: PeerId)
    requires FreshExtras(s, extras) && FreshExtras(Replace(s, extras), [p])
    ensures FreshExtras(s, extras + [p])
    ensures |Replace(s, extras + [p]).waiting| == |Replace(s, extras).waiting| + 1
  {
    assert p in [p];
    assert p !in s.waiting && p !in extras;
    assert Replace(s, extras + [p]).waiting == Replace(s, extras).waiting + {p};
  }

  // ---------- Opening and deciding a sequence ----------

  /** A new sequence about this block: OK, with no rounds yet. */
  function Begun(s: Node, id: BlockId): (r: Node)
    ensures SameIdentity(s, r) && r.phase == s.phase && r.seqNum == s.seqNum + 1
  {
    var n := s.seqNum + 1;
    s.(decisionBlock := id, seqNum := n, decisionMap := s.decisionMap[n := OK],
       lastColor := OK, confidence := 0, decisionArray := Tally(0, 0))
  }

  function HandleBlockNew(s: Node, id: BlockId, wave: seq<PeerId>): Node {
    Forward(Begun(s, id), wave).(phase := s.phase.Next())
  }

  /** The front of the queue is not the block being (or last) decided. */
  predicate Pending(s: Node) {
    s.queue != [] && s.queue[0].id != s.decisionBlock
  }

  predicate Opens(s: Node, headNum: nat) {
    Pending(s) && s.queue[0].num >= headNum
  }

  function HandleQueue(s: Node, headNum: nat, wave: seq<PeerId>): Node {
    if !Pending(s) then s
    else if s.queue[0].num < headNum then s.(calls := s.calls + [Fail(s.queue[0].id)])
    else HandleBlockNew(s.(calls := s.calls + [Check(s.queue[0].id)]), s.queue[0].id, wave)
  }

  function Verdict(s: Node): Call
    requires s.seqNum in s.decisionMap
  {
    if s.decisionMap[s.seqNum] == OK then Commit(s.decisionBlock) else Fail(s.decisionBlock)
  }

  /** The decided block must have an arrival stamp, or the node stops with a panic. */
  function HandleDecision(s: Node): Node
    requires s.seqNum in s.decisionMap && s.decisionBlock in s.stamped
  {
    s.(calls := s.calls + [Verdict(s)] + (if s.order == 0 then [Initialize] else []),
       chainHead := if s.decisionMap[s.seqNum] == OK then s.decisionBlock else s.chainHead,
       queue := if s.queue == [] then [] else s.queue[1..],
       phase := s.phase.Next())
  }

  // ---------- Closing a round ----------

  /** The current sequence has a colour other than Undecided, and its block an arrival stamp. */
  predicate Decidable(s: Node) {
    && s.seqNum in s.decisionMap && s.decisionMap[s.seqNum] != Undecided
    && s.decisionBlock in s.stamped
  }

  /** The counters after one more round with this majority. */
  function WithMajority(s: Node, i: nat): (r: Node)
    requires i < 2 && Decidable(s)
    ensures Decidable(r) && SameIdentity(s, r) && r.phase == s.phase && r.decisionBlock == s.decisionBlock
  {
    var tally := s.decisionArray.Bump(i);
    var current: BinaryColor := s.decisionMap[s.seqNum];
    var colors := if tally.At(i) > tally.Of(current) then s.decisionMap[s.seqNum := ColorOf(i)] else s.decisionMap;
    var streak := if ColorOf(i) != s.lastColor then 1 else s.confidence + 1;
    s.(decisionArray := tally, decisionMap := colors, lastColor := ColorOf(i), confidence := streak)
  }

  /** One pass of the loop over the two colours, for a colour that reached the threshold. */
  function Pass(s: Node, i: nat, wave: seq<PeerId>): (r: Node)
    requires i < 2 && Decidable(s)
    ensures Decidable(r) && SameIdentity(s, r)
  {
    var counted := WithMajority(s, i);
    if counted.confidence >= s.params.beta then HandleDecision(counted.(phase := s.phase.Next()))
    else Forward(counted, wave)
  }

  function PassIfMajority(s: Node, i: nat, wave: seq<PeerId>): (r: Node)
    requires i < 2 && Decidable(s)
    ensures Decidable(r) && SameIdentity(s, r)
  {
    if s.responseBuffer.At(i) >= s.params.alfa then Pass(s, i, wave) else s
  }

  /** Both passes, then a fresh wave if neither colour reached the threshold. */
  function ValuesReady(s: Node, first: seq<PeerId>, second: seq<PeerId>): (r: Node)
    requires Decidable(s)
    ensures SameIdentity(s, r)
  {
    var a := PassIfMajority(s, 0, first);
    var b := PassIfMajority(a, 1, second);
    if s.responseBuffer.ko >= s.params.alfa || a.responseBuffer.ok >= s.params.alfa then b
    else Forward(b.(confidence := 0), second)
  }

  // ---------- Peer messages and timeouts ----------

  /** A response or an unavailable notice that this node is waiting for. */
  predicate Awaited(s: Node, sender: PeerId) {
    s.phase == Listening && sender in s.waiting
  }

  function AnswerRequest(s: Node, sender: PeerId, seqNum: nat): Node {
    if seqNum > s.seqNum then Send(s, sender, Unavailable, 0, seqNum)
    else if seqNum !in s.decisionMap then s
    else Send(s, sender, Response, if s.decisionMap[seqNum] == OK then 1 else 0, s.seqNum)
  }

  /** The state in which the vote of an awaited sender has been put in the buffer. */
  function CountVote(s: Node, sender: PeerId, vote: u8): Node {
    var heard := s.(waiting := s.waiting - {sender});
    if vote > 1 then heard else heard.(responseBuffer := s.responseBuffer.Bump(vote))
  }

  /** This vote is the last one the round was short of. */
  predicate Completes(s: Node, sender: PeerId, vote: u8) {
    && Awaited(s, sender) && vote <= 1
    && s.responseBuffer.Total() + 1 == s.params.k
  }

  function TakeResponse(s: Node, sender: PeerId, vote: u8, first: seq<PeerId>, second: seq<PeerId>): Node
    requires Completes(s, sender, vote) ==> Decidable(s)
  {
    if !Awaited(s, sender) then s
    else if Completes(s, sender, vote) then ValuesReady(CountVote(s, sender, vote), first, second)
    else CountVote(s, sender, vote)
  }

  /** The cases of a response. */
  lemma ResponseCases(s: Node, sender: PeerId, vote: u8, first: seq<PeerId>, second: seq<PeerId>)
    requires Completes(s, sender, vote) ==> Decidable(s)
    ensures !Awaited(s, sender) ==> TakeResponse(s, sender, vote, first, second) == s
    ensures Awaited(s, sender) && vote > 1 ==>
              TakeResponse(s, sender, vote, first, second) == s.(waiting := s.waiting - {sender})
    ensures Awaited(s, sender) && vote <= 1 ==>
              var counted := s.(waiting := s.waiting - {sender}, responseBuffer := s.responseBuffer.Bump(vote));
              TakeResponse(s, sender, vote, first, second)
              == if s.responseBuffer.Total() + 1 == s.params.k then ValuesReady(counted, first, second) else counted
  {
  }

  function TakeUnavailable(s: Node, sender: PeerId, extra: PeerId): Node {
    if !Awaited(s, sender) then s else Replace(s.(waiting := s.waiting - {sender}), [extra])
  }

  function HandleUnresponsive(s: Node, expired: set<PeerId>, extras: seq<PeerId>): Node {
    Replace(s.(waiting := s.waiting - expired), extras)
  }

  function BlockNew(s: Node, b: Block): Node {
    s.(queue := s.queue + [b], stamped := s.stamped + {b.id})
  }

  function Startup(params: Params, members: seq<PeerId>, id: PeerId, headNum: nat, headId: BlockId): Node
    requires id in members
  {
    var order := PositionOf(members, id);
    Node(params, id, order, headNum + 1, map[0 := Undecided], Undecided, 0, Tally(0, 0), Tally(0, 0), {},
         headId, [], Idle, members, [], {}, [], if order == 0 then [Initialize] else [])
  }

  // ---------- One round, read as one outcome ----------

  function OutcomeOf(buffer: Tally, alfa: nat): Outcome {
    if buffer.ko >= alfa then Majority(KO) else if buffer.ok >= alfa then Majority(OK) else NoMajority
  }

  /** A sequence has been opened: its colour and its last colour are set. */
  predicate Started(s: Node) {
    s.seqNum in s.decisionMap && s.decisionMap[s.seqNum] != Undecided && s.lastColor != Undecided
  }

  function StandingOf(s: Node): Standing
    requires Started(s)
  {
    Standing(s.decisionArray, s.lastColor, s.confidence, s.decisionMap[s.seqNum])
  }

  function WithStanding(s: Node, t: Standing): Node {
    s.(decisionArray := t.votes, lastColor := t.last, confidence := t.confidence,
       decisionMap := s.decisionMap[s.seqNum := t.pref])
  }

  /** The node that closes its sequence with this standing. */
  function Concluded(s: Node, t: Standing): Node
    requires s.decisionBlock in s.stamped
  {
    HandleDecision(WithStanding(s, t).(phase := s.phase.Next()))
  }

  lemma PassAbsorbs(s: Node, i: nat, wave: seq<PeerId>)
    requires i < 2 && Decidable(s) && Started(s)
    ensures var t := Absorb(StandingOf(s), Majority(ColorOf(i)));
            Pass(s, i, wave)
            == if t.confidence >= s.params.beta then Concluded(s, t) else Forward(WithStanding(s, t), wave)
  {
    var t := Absorb(StandingOf(s), Majority(ColorOf(i)));
    if t.pref == s.decisionMap[s.seqNum] {
      assert s.decisionMap[s.seqNum := t.pref] == s.decisionMap;
    }
  }

  /**
   * With a sound configuration a full buffer closes the round in exactly one way: the standing
   * absorbs the round's outcome, and the node either concludes or sends one fresh wave.
   */
  lemma RoundCloses(s: Node, first: seq<PeerId>, second: seq<PeerId>)
    requires s.params.Sound() && s.responseBuffer.Total() == s.params.k
    requires Decidable(s) && Started(s)
    ensures var o := OutcomeOf(s.responseBuffer, s.params.alfa);
            var t := Absorb(StandingOf(s), o);
            ValuesReady(s, first, second)
            == if t.confidence >= s.params.beta then Concluded(s, t)
               else Forward(WithStanding(s, t), if o == Majority(KO) then first else second)
  {
    if s.responseBuffer.ko >= s.params.alfa {
      PassAbsorbs(s, 0, first);
    } else if s.responseBuffer.ok >= s.params.alfa {
      PassAbsorbs(s, 1, second);
    } else {
      assert s.decisionMap[s.seqNum := s.decisionMap[s.seqNum]] == s.decisionMap;
    }
  }

  // ---------- The loop over the colours, for any thresholds ----------

  /** Closes the sequence once, or sends one fresh wave; never both, never twice. */
  ghost predicate OneMove(s: Node, r: Node) {
    || (r.phase == Idle && r.sent == s.sent && Decidable(r)
        && r.calls == s.calls + [Verdict(r)] + (if s.order == 0 then [Initialize] else [])
        && r.queue == if s.queue == [] then [] else s.queue[1..])
    || (r.phase == Listening && r.calls == s.calls && r.queue == s.queue
        && exists wave: seq<PeerId> :: FreshWave(s, wave) && r.sent == s.sent + Requests(s, wave))
  }

  /** Both colours reached the threshold and the first of them closes the sequence. */
  predicate FiresTwice(s: Node) {
    && s.responseBuffer.ko >= s.params.alfa && s.responseBuffer.ok >= s.params.alfa
    && (if s.lastColor != KO then 1 else s.confidence + 1) >= s.params.beta
  }

  /** A call closes the sequence once or sends one wave, if and only if it does not fire twice. */
  lemma OneMoveExactly(s: Node, first: seq<PeerId>, second: seq<PeerId>)
    requires s.params.alfa >= 1 && s.params.beta >= 1 && s.params.k >= 1
    requires Decidable(s) && s.phase == Listening
    requires FreshWave(s, first) && FreshWave(s, second)
    ensures OneMove(s, ValuesReady(s, first, second)) <==> !FiresTwice(s)
  {
    var a := PassIfMajority(s, 0, first);
    var r := ValuesReady(s, first, second);
    if FiresTwice(s) {
      assert a.phase == Idle && a.responseBuffer == s.responseBuffer;
      assert r == Pass(a, 1, second);
      if r.phase == Idle {
        assert |r.sent| == |a.sent| + |second|;
      }
    } else if r.phase == Listening {
      assert s.sent == a.sent || a.phase == Listening;
    }
  }

  /** Two majorities cannot coexist exactly when the threshold is more than half the sample. */
  lemma MajorityIsUnique(alfa: nat, k: nat)
    requires alfa <= k
    ensures k < 2 * alfa <==> forall b: Tally :: b.Total() == k ==> !(b.ko >= alfa && b.ok >= alfa)
  {
    if k >= 2 * alfa {
      var b := Tally(alfa, k - alfa);
      assert b.Total() == k && b.ko >= alfa && b.ok >= alfa;
    }
  }
}
