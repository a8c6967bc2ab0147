/** When each awaited peer was last asked. */
module Clocks {
  import opened SnowballTypes
  import opened Sampling

  type Times = map<PeerId, int>

  /** The members, other than the own position, that the stream hit at positions from..upto. */
  ghost function DrawnMembers(draw: Draws, ids: seq<PeerId>, self: nat, from: nat, upto: nat): set<PeerId> {
    set i | 0 <= i < |ids| && i != self && WasDrawn(draw, i, |ids|, from, upto) :: ids[i]
  }

  /** Between these positions the stream hit nothing but the own position and that of one member. */
  ghost predicate OnlyDrew(draw: Draws, ids: seq<PeerId>, self: nat, peer: PeerId, from: nat, upto: nat) {
    forall q :: from <= q < upto ==> var i := draw(q, |ids|); i == self || (i < |ids| && ids[i] == peer)
  }

  /** A position that hits somebody else is still ahead. */
  lemma StillAhead(draw: Draws, ids: seq<PeerId>, self: nat, peer: PeerId, from: nat, upto: nat, hit: nat)
    requires OnlyDrew(draw, ids, self, peer, from, upto) && from <= hit
    requires var i := draw(hit, |ids|); i < |ids| && i != self && ids[i] != peer
    ensures upto <= hit
  {
  }

  lemma DrawnTwice(draw: Draws, ids: seq<PeerId>, self: nat, x: nat, y: nat, z: nat)
    requires x <= y <= z
    ensures DrawnMembers(draw, ids, self, x, z)
         == DrawnMembers(draw, ids, self, x, y) + DrawnMembers(draw, ids, self, y, z)
    ensures DrawnMembers(draw, ids, self, x, x) == {}
  {
    forall i: nat
      ensures WasDrawn(draw, i, |ids|, x, z) <==> WasDrawn(draw, i, |ids|, x, y) || WasDrawn(draw, i, |ids|, y, z)
    {
      if WasDrawn(draw, i, |ids|, x, z) {
        var q :| x <= q < z && draw(q, |ids|) == i;
        assert q < y ==> WasDrawn(draw, i, |ids|, x, y);
      }
    }
    hide WasDrawn;
  }

  /** These peers have just been asked; the others were last asked when they were. */
  predicate Refreshed(before: Times, after: Times, asked: set<PeerId>, now: int) {
    forall p :: p in after ==> if p in asked then after[p] == now else p in before && after[p] == before[p]
  }

  lemma RefreshedTwice(a: Times, b: Times, c: Times, s: set<PeerId>, t: set<PeerId>, now: int)
    requires Refreshed(a, b, s, now) && Refreshed(b, c, t, now)
    ensures Refreshed(a, c, s + t, now)
  {
  }

  /**
   * Between positions x and y of the stream exactly the drawn members were asked, now; every other
   * awaited peer was last asked when it was before.
   */
  ghost predicate Moved(draw: Draws, ids: seq<PeerId>, self: nat, a: Times, x: nat, b: Times, y: nat, now: int) {
    x <= y && Refreshed(a, b, DrawnMembers(draw, ids, self, x, y), now)
  }

  lemma MovedTwice(draw: Draws, ids: seq<PeerId>, self: nat, a: Times, x: nat, b: Times, y: nat, c: Times, z: nat, now: int)
    requires Moved(draw, ids, self, a, x, b, y, now) && Moved(draw, ids, self, b, y, c, z, now)
    ensures Moved(draw, ids, self, a, x, c, z, now)
  {
    DrawnTwice(draw, ids, self, x, y, z);
    RefreshedTwice(a, b, c, DrawnMembers(draw, ids, self, x, y), DrawnMembers(draw, ids, self, y, z), now);
  }

  /** Nothing drawn, and at most some peers struck off. */
  lemma NotMoved(draw: Draws, ids: seq<PeerId>, self: nat, a: Times, gone: set<PeerId>, x: nat, now: int)
    ensures Moved(draw, ids, self, a, x, a - gone, x, now)
    ensures Moved(draw, ids, self, a, x, a, x, now)
  {
    DrawnTwice(draw, ids, self, x, x, x);
  }

  /** The times after a call that leaves these peers awaited and drew these. */
  function AskTimes(before: Times, awaited: set<PeerId>, drawn: set<PeerId>, now: int): Times {
    map x | x in awaited :: if x in drawn || x !in before then now else before[x]
  }

  lemma RefreshedTimes(before: Times, after: Times, drawn: set<PeerId>, now: int)
    requires Refreshed(before, after, drawn, now)
    ensures after == AskTimes(before, after.Keys, drawn, now)
  {
  }

  /** The stamps after a Listening node has come to this phase: a decided block has its elapsed time. */
  function StampsAfter(stamps: map<BlockId, int>, block: BlockId, phase: Phase, now: int): map<BlockId, int> {
    if phase == Idle && block in stamps then stamps[block := now - stamps[block]] else stamps
  }
}
