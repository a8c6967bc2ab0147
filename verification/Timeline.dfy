/** The clock of a run: when each awaited peer was last asked, and what is stamped for each block. */
module Timeline {
  import opened SnowballTypes
  import opened NodeSpec
  import opened NodeRuns
  import opened NodeTheorems
  import opened Sampling
  import opened Clocks

  datatype Clock = Clock(asked: Times, stamps: map<BlockId, int>)

  /** Stamps after an event: arrivals get the time, a decided block the time since its arrival. */
  function StampsTick(stamps: map<BlockId, int>, p: Proc, e: Event, now: int): map<BlockId, int>
    requires Runs(p.s, e)
  {
    if e.Arrive? then stamps[e.block.id := now]
    else if |Advance(p, e).h.decided| > |p.h.decided| && p.s.decisionBlock in stamps then
      stamps[p.s.decisionBlock := now - stamps[p.s.decisionBlock]]
    else stamps
  }

  /**
   * The clock after an event that took the random stream from one position to another: peers that were
   * drawn in between, and peers that were not awaited before, were asked now.
   */
  ghost function Tick(draw: Draws, c: Clock, p: Proc, e: Event, from: nat, upto: nat, now: int): Clock
    requires Runs(p.s, e)
  {
    Clock(AskTimes(c.asked, Step(p.s, e).waiting, DrawnMembers(draw, p.s.memberIds, p.s.order, from, upto), now),
          StampsTick(c.stamps, p, e, now))
  }

  /** The clock after a run; the marks are the positions of the random stream before and after each event. */
  ghost function ClockAfter(draw: Draws, c: Clock, p: Proc, es: seq<Event>, marks: seq<nat>, now: int): Clock
    requires ValidRun(p, es) && |marks| == |es| + 1
    decreases |es|
  {
    if es == [] then c
    else ClockAfter(draw, Tick(draw, c, p, es[0], marks[0], marks[1], now), Advance(p, es[0]), es[1..], marks[1..], now)
  }

  lemma ClockOfOne(draw: Draws, c: Clock, p: Proc, e: Event, from: nat, upto: nat, now: int)
    requires Allowed(p.s, e)
    ensures ValidRun(p, [e])
    ensures ClockAfter(draw, c, p, [e], [from, upto], now) == Tick(draw, c, p, e, from, upto, now)
  {
    RunOfOne(p, e);
    hide Tick, Allowed;
    assert [e][1..] == [] && [from, upto][1..] == [upto];
  }

  lemma ClockFirst(draw: Draws, c: Clock, p: Proc, es: seq<Event>, marks: seq<nat>, now: int)
    requires ValidRun(p, es) && |marks| == |es| + 1 && es != []
    ensures Runs(p.s, es[0]) && ValidRun(Advance(p, es[0]), es[1..]) && After(p, es) == After(Advance(p, es[0]), es[1..])
    ensures ClockAfter(draw, c, p, es, marks, now)
         == ClockAfter(draw, Tick(draw, c, p, es[0], marks[0], marks[1], now), Advance(p, es[0]), es[1..], marks[1..], now)
  {
    hide Tick;
  }

  lemma {:induction false} ClockConcat(draw: Draws, c: Clock, p: Proc, es: seq<Event>, ms: seq<nat>, fs: seq<Event>,
                                       ns: seq<nat>, now: int)
    requires |ms| == |es| + 1 && |ns| == |fs| + 1 && ms[|es|] == ns[0]
    requires ValidRun(p, es) && ValidRun(After(p, es), fs) && ValidRun(p, es + fs)
    ensures ClockAfter(draw, c, p, es + fs, ms + ns[1..], now)
         == ClockAfter(draw, ClockAfter(draw, c, p, es, ms, now), After(p, es), fs, ns, now)
    decreases |es|
  {
    hide *;
    if es == [] {
      assert es + fs == fs && ms + ns[1..] == ns;
      EmptyRun(p);
      ClockOfNone(draw, c, p, ms, now);
    } else {
      assert (es + fs)[0] == es[0] && (es + fs)[1..] == es[1..] + fs;
      assert (ms + ns[1..])[1..] == ms[1..] + ns[1..] && (ms + ns[1..])[0] == ms[0] && (ms + ns[1..])[1] == ms[1];
      ClockFirst(draw, c, p, es, ms, now);
      ClockFirst(draw, c, p, es + fs, ms + ns[1..], now);
      ClockConcat(draw, Tick(draw, c, p, es[0], ms[0], ms[1], now), Advance(p, es[0]), es[1..], ms[1..], fs, ns, now);
    }
  }

  lemma ClockOfNone(draw: Draws, c: Clock, p: Proc, ms: seq<nat>, now: int)
    requires |ms| == 1
    ensures ValidRun(p, []) && ClockAfter(draw, c, p, [], ms, now) == c
  {
  }

  /** The awaited peers that were last asked longer ago than this. */
  function Late(hang: nat, p: Proc, c: Clock, now: int): set<PeerId> {
    set x | x in p.s.waiting && x in c.asked && now - c.asked[x] > hang
  }

  // ---------- Stamps ----------

  lemma StampsQuiet(stamps: map<BlockId, int>, p: Proc, e: Event, now: int)
    requires Runs(p.s, e) && !Closes(p.s, e) && !e.Arrive?
    ensures StampsTick(stamps, p, e, now) == stamps
  {
    DecidedUntouched(p, e);
  }

  /** A response leaves the stamps alone, unless it decides. */
  lemma StampsOfResponse(stamps: map<BlockId, int>, p: Proc, e: Event, now: int)
    requires Inv(p) && Allowed(p.s, e) && e.Deliver? && e.kind == Response
    ensures StampsTick(stamps, p, e, now)
         == if p.s.phase != Listening then stamps else StampsAfter(stamps, p.s.decisionBlock, Step(p.s, e).phase, now)
  {
    hide Inv, GoodDraws, StampsAfter;
    DecidesExactly(p, e);
    HistoryGrows(p, e);
    if !Closes(p.s, e) {
      DecidedUntouched(p, e);
      NotClosing(p.s, e);
    }
    Decided(p, e);
    DecisionStamps(stamps, p, e, now);
  }

  lemma NotClosing(s: Node, e: Event)
    requires Runs(s, e) && e.Deliver? && e.kind == Response && !Closes(s, e)
    ensures Step(s, e).phase == s.phase
  {
  }

  /** More decisions, or the same. */
  lemma Decided(p: Proc, e: Event)
    requires Runs(p.s, e) && p.h.decided <= Advance(p, e).h.decided
    ensures |Advance(p, e).h.decided| > |p.h.decided| <==> Advance(p, e).h.decided != p.h.decided
  {
    hide Advance;
  }

  lemma DecisionStamps(stamps: map<BlockId, int>, p: Proc, e: Event, now: int)
    requires Runs(p.s, e) && e.Deliver?
    ensures StampsTick(stamps, p, e, now)
         == StampsAfter(stamps, p.s.decisionBlock, if |Advance(p, e).h.decided| > |p.h.decided| then Idle else Listening, now)
    ensures StampsAfter(stamps, p.s.decisionBlock, Listening, now) == stamps
  {
    hide Advance;
  }

  // ---------- Moments of a run ----------

  /** A state of a run, the clock, and the position of the random stream. */
  datatype Moment = Moment(p: Proc, clock: Clock, drawn: nat)

  ghost function NextMoment(draw: Draws, m: Moment, e: Event, upto: nat, now: int): Moment
    requires Runs(m.p.s, e)
  {
    Moment(Advance(m.p, e), Tick(draw, m.clock, m.p, e, m.drawn, upto, now), upto)
  }

  predicate Ascending(marks: seq<nat>) {
    forall i :: 0 < i < |marks| ==> marks[i - 1] <= marks[i]
  }

  /** Events that lead from one moment to another, the clock reading this time. */
  ghost predicate Passes(draw: Draws, m: Moment, es: seq<Event>, marks: seq<nat>, next: Moment, now: int) {
    && ValidRun(m.p, es) && next.p == After(m.p, es)
    && |marks| == |es| + 1 && marks[0] == m.drawn && marks[|es|] == next.drawn && Ascending(marks)
    && next.clock == ClockAfter(draw, m.clock, m.p, es, marks, now)
  }

  lemma PassesNothing(draw: Draws, m: Moment, now: int)
    ensures Passes(draw, m, [], [m.drawn], m, now)
  {
  }

  lemma PassesOne(draw: Draws, m: Moment, e: Event, upto: nat, now: int)
    requires Allowed(m.p.s, e) && m.drawn <= upto
    ensures Runs(m.p.s, e) && Passes(draw, m, [e], [m.drawn, upto], NextMoment(draw, m, e, upto, now), now)
  {
    RunOfOne(m.p, e);
    ClockOfOne(draw, m.clock, m.p, e, m.drawn, upto, now);
    hide Tick, ClockAfter;
  }

  lemma PassesOn(draw: Draws, m: Moment, es: seq<Event>, ms: seq<nat>, mid: Moment, fs: seq<Event>, ns: seq<nat>,
                 next: Moment, now: int)
    requires Passes(draw, m, es, ms, mid, now) && Passes(draw, mid, fs, ns, next, now)
    ensures Passes(draw, m, es + fs, ms + ns[1..], next, now)
  {
    RunConcat(m.p, es, fs);
    ClockConcat(draw, m.clock, m.p, es, ms, fs, ns, now);
    hide ClockAfter, ValidRun, After;
    var all := ms + ns[1..];
    assert all[..|es| + 1] == ms && forall i :: |es| <= i <= |es| + |fs| ==> all[i] == ns[i - |es|];
  }
}
