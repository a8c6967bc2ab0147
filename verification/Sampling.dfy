/** The random source, and why sampling peers always comes to an end. */
module Sampling {
  import opened SnowballTypes

  /** The value drawn at a position of the random stream, for a range 0..n. */
  type Draws = (nat, nat) -> nat

  ghost predicate HitsLater(draw: Draws, from: nat, n: nat, i: nat) {
    exists q :: from <= q && draw(q, n) == i
  }

  /** Draws stay in range, and every index comes up again and again. */
  ghost predicate Fair(draw: Draws) {
    && (forall q: nat, n: nat :: n > 0 ==> draw(q, n) < n)
    && (forall q: nat, n: nat, i: nat :: i < n ==> HitsLater(draw, q, n, i))
  }

  /** The stream hit this value at one of the positions from..upto. */
  ghost predicate WasDrawn(draw: Draws, value: nat, n: nat, from: nat, upto: nat) {
    exists q :: from <= q < upto && draw(q, n) == value
  }

  function Cycle(q: nat, n: nat): (i: nat)
    requires n > 0
    ensures i < n
  {
    if q < n then q else Cycle(q - n, n)
  }

  function RoundRobin(): Draws {
    (q, n) => if n == 0 then 0 else Cycle(q, n)
  }

  lemma {:induction false} CycleHits(q: nat, n: nat, i: nat) returns (at: nat)
    requires i < n
    ensures at >= q && Cycle(at, n) == i
  {
    if q <= i {
      at := i;
    } else {
      at := CycleHits(if q < n then 0 else q - n, n, i);
      at := at + n;
    }
  }

  /** Fair sources exist. */
  lemma RoundRobinIsFair()
    ensures Fair(RoundRobin())
  {
    var draw := RoundRobin();
    forall q: nat, n: nat, i: nat | i < n
      ensures HitsLater(draw, q, n, i)
    {
      var at := CycleHits(q, n, i);
      assert draw(at, n) == i;
    }
  }

  function Upto(n: nat): (s: set<nat>)
    ensures |s| == n
    ensures forall i: nat :: i in s <==> i < n
  {
    if n == 0 then {} else Upto(n - 1) + {n - 1}
  }

  /** Fewer than n - 1 indices leave one that is neither taken nor `self`. */
  lemma FreeIndex(n: nat, taken: set<nat>, self: nat) returns (i: nat)
    requires |taken| < n - 1
    ensures i < n && i !in taken && i != self
  {
    var free := Upto(n) - taken - {self};
    if free == {} {
      CardMono(Upto(n), taken + {self});
    }
    i :| i in free;
  }

  /** Indices below n other than `self`. */
  predicate OtherIndices(s: set<nat>, n: nat, self: nat) {
    forall i :: i in s ==> i < n && i != self
  }

  /** A sample of this size exists, and so the sampling loop can end, exactly when n - 1 covers it. */
  lemma SampleExistsExactly(n: nat, self: nat, amount: nat)
    requires self < n
    ensures amount <= n - 1 <==> exists s: set<nat> :: |s| == amount && OtherIndices(s, n, self)
  {
    forall s: set<nat> | OtherIndices(s, n, self)
      ensures |s| <= n - 1
    {
      assert s <= Upto(n) - {self};
      CardMono(s, Upto(n) - {self});
    }
    if amount <= n - 1 {
      var s := GrowSample(n, self, amount);
    }
  }

  lemma {:induction false} GrowSample(n: nat, self: nat, amount: nat) returns (s: set<nat>)
    requires self < n && amount <= n - 1
    ensures |s| == amount && OtherIndices(s, n, self)
  {
    s := {};
    if amount > 0 {
      s := GrowSample(n, self, amount - 1);
      var i := FreeIndex(n, s, self);
      s := s + {i};
    }
  }

  /** A later draw that would enlarge the sample. */
  lemma UsefulDraw(draw: Draws, from: nat, n: nat, taken: set<nat>, self: nat) returns (hit: nat)
    requires Fair(draw) && |taken| < n - 1
    ensures from <= hit && draw(hit, n) !in taken && draw(hit, n) != self
  {
    var i := FreeIndex(n, taken, self);
    assert HitsLater(draw, from, n, i);
    hit :| from <= hit && draw(hit, n) == i;
  }

  /** With fewer than |ids| - 1 peers awaited, some other member is not awaited (pigeonhole). */
  lemma FreeMember(ids: seq<PeerId>, awaited: set<PeerId>, self: nat) returns (i: nat)
    requires Distinct(ids) && self < |ids| && |awaited| < |ids| - 1
    ensures i < |ids| && i != self && ids[i] !in awaited
  {
    var taken := set i: nat | i < |ids| && ids[i] in awaited;
    TakenFit(ids, awaited, taken);
    i := FreeIndex(|ids|, taken, self);
  }

  lemma {:induction false} TakenFit(ids: seq<PeerId>, awaited: set<PeerId>, taken: set<nat>)
    requires Distinct(ids)
    requires forall i :: i in taken ==> i < |ids| && ids[i] in awaited
    ensures |taken| <= |awaited|
    decreases taken
  {
    if taken != {} {
      var i :| i in taken;
      TakenFit(ids, awaited - {ids[i]}, taken - {i});
    }
  }

  /** A later draw of a member that is not awaited. */
  lemma FreeDraw(draw: Draws, from: nat, ids: seq<PeerId>, awaited: set<PeerId>, self: nat) returns (hit: nat)
    requires Fair(draw) && Distinct(ids) && self < |ids| && |awaited| < |ids| - 1
    ensures from <= hit
    ensures var i := draw(hit, |ids|); i < |ids| && i != self && ids[i] !in awaited
  {
    var i := FreeMember(ids, awaited, self);
    assert HitsLater(draw, from, |ids|, i);
    hit :| from <= hit && draw(hit, |ids|) == i;
  }
}
