/** The values a Snowball node exchanges and stores. */
module SnowballTypes {

  datatype Option<T> = None | Some(value: T)

  type u8 = x: int | 0 <= x < 256

  // Both identifiers are byte vectors; the empty block id stands for "no block yet".
  type PeerId = seq<u8>
  type BlockId = seq<u8>

  datatype Block = Block(id: BlockId, num: nat)

  datatype Phase = Idle | Listening | Finishing
  {
    /** The relative phase switch: it never looks at where the caller meant to go. */
    function Next(): Phase {
      match this
      case Idle => Listening
      case Listening => Finishing
      case Finishing => Idle
    }
  }

  datatype Color = OK | KO | Undecided

  type BinaryColor = c: Color | c != Undecided witness OK

  function Opposite(c: BinaryColor): BinaryColor {
    if c == OK then KO else OK
  }

  function ColorOf(i: nat): BinaryColor
    requires i < 2
  {
    if i == 0 then KO else OK
  }

  function IndexOf(c: BinaryColor): (i: nat)
    ensures i < 2 && ColorOf(i) == c
  {
    if c == OK then 1 else 0
  }

  /** A pair of counters, one per colour: the vote buffer and the tally of rounds. */
  datatype Tally = Tally(ko: nat, ok: nat)
  {
    function At(i: nat): nat
      requires i < 2
    {
      if i == 0 then ko else ok
    }

    function Bump(i: nat): Tally
      requires i < 2
    {
      if i == 0 then Tally(ko + 1, ok) else Tally(ko, ok + 1)
    }

    function Of(c: BinaryColor): nat {
      At(IndexOf(c))
    }

    function Total(): nat {
      ko + ok
    }
  }

  datatype Kind = Request | Response | Unavailable | Other

  datatype Packet = Packet(src: PeerId, dst: PeerId, kind: Kind, vote: u8, seqNum: nat)

  /** Calls a node makes to its validator. */
  datatype Call = Check(id: BlockId) | Commit(id: BlockId) | Fail(id: BlockId) | Initialize

  /** The numeric settings and the wrong-vote test mode. */
  datatype Params = Params(alfa: nat, beta: nat, k: nat, byzantine: bool, wrongIdx: set<nat>)
  {
    /** What the protocol needs of its settings; the configuration parser checks none of it. */
    predicate Sound() {
      1 <= alfa <= k < 2 * alfa && 1 <= beta
    }
  }

  predicate Distinct<T(==)>(s: seq<T>) {
    forall i, j :: 0 <= i < j < |s| ==> s[i] != s[j]
  }

  function ToSet<T>(s: seq<T>): set<T> {
    set x | x in s
  }

  lemma {:induction false} DistinctCard<T>(s: seq<T>)
    requires Distinct(s)
    ensures |ToSet(s)| == |s|
    ensures multiset(s) == multiset(ToSet(s))
  {
    if s != [] {
      var n := |s| - 1;
      DistinctCard(s[..n]);
      assert s == s[..n] + [s[n]];
      assert ToSet(s) == ToSet(s[..n]) + {s[n]};
      assert s[n] !in ToSet(s[..n]);
    }
  }

  /** How many entries of the sequence belong to the set. */
  function CountIn<T(==)>(s: seq<T>, d: set<T>): (n: nat)
    ensures n <= |s|
  {
    if s == [] then 0 else CountIn(s[..|s| - 1], d) + (if s[|s| - 1] in d then 1 else 0)
  }

  lemma {:induction false} CountInAppend<T>(a: seq<T>, b: seq<T>, d: set<T>)
    ensures CountIn(a + b, d) == CountIn(a, d) + CountIn(b, d)
  {
    if b == [] {
      assert a + b == a;
    } else {
      var n := |b| - 1;
      assert (a + b)[..|a + b| - 1] == a + b[..n];
      CountInAppend(a, b[..n], d);
    }
  }

  lemma {:induction false} CountInDistinct<T>(s: seq<T>, d: set<T>)
    requires Distinct(s)
    ensures CountIn(s, d) == |ToSet(s) * d| <= |d|
  {
    if s == [] {
      assert ToSet(s) * d == {};
      CardMono(ToSet(s) * d, d);
    } else {
      var n := |s| - 1;
      CountInDistinct(s[..n], d);
      assert s == s[..n] + [s[n]];
      if s[n] in d {
        assert ToSet(s) * d == ToSet(s[..n]) * d + {s[n]};
      } else {
        assert ToSet(s) * d == ToSet(s[..n]) * d;
      }
      CardMono(ToSet(s) * d, d);
    }
  }

  lemma {:induction false} CardMono<T>(a: set<T>, b: set<T>)
    requires a <= b
    ensures |a| <= |b|
  {
    assert b == a + (b - a);
  }
}
