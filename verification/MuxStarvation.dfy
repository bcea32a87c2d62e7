/** Bounded waiting fails when polls come while the maximum rate holds batches back:
    runs of any length in which one pad is never served. */
module MuxStarvation {
  import opened Shared
  import opened MuxTypes
  import opened MuxSpec
  import opened BatchSplit
  import opened MuxRuns
  import opened PadLedger
  import opened MuxInvariant
  import opened MuxSafety
  import opened MuxFairness
  import opened MuxThrottle
  import opened MuxBuild

  /** Batches of one frame from a round robin, a maximum rate, and room for two frames. */
  predicate OneByOne(cfg: MuxConfig) {
    && cfg.Valid() && cfg.policy == New && cfg.roundRobin && !cfg.adaptive && cfg.batchSize == 1
    && cfg.maxSameSource >= 1 && !cfg.syncInputs && !cfg.rateControl
    && cfg.maxFpsControl && cfg.MaxFpsDur() >= 1 && cfg.queueDepth >= 2
  }

  /** Pad `a` waits with its first frame, the cursor stands at it, and `n` batches have
      gone out, the last one now; pad `b` has one frame. */
  ghost predicate Turned(w: World, cfg: MuxConfig, a: int, b: int, n: nat) {
    && Inv(w) && w.mux.cfg == cfg && Rivals(w.mux, a, b, 0) && a in w.hist
    && w.hist[a].emitted == [] && w.hist[a].pushed != []
    && b in w.mux.pads && |w.mux.pads[b].queue| == 1 && !w.mux.pads[b].eosPending && w.mux.pads[b].blocked.None?
    && w.mux.batchIndex == n && w.mux.lastBatch == Some(w.clock)
  }

  ghost predicate Starving(w: World, a: int) {
    Waiting(w.mux, a) && a in w.hist && w.hist[a].emitted == [] && w.hist[a].pushed != []
  }

  // ---------------------------------------------------------------- one period

  const FRAME := Arrival(0, 0, 1, 1, 0)

  /** The producer of `b` pushes one more frame. */
  lemma Refill(w: World, cfg: MuxConfig, a: int, b: int, n: nat)
    requires OneByOne(cfg) && Turned(w, cfg, a, b, n)
    ensures w.mux.WellFormed() && w.hist.Keys == w.mux.pads.Keys
    ensures var s := PushAt(b, FRAME, 0, w.clock);
            Enabled(w, s) && var w' := Next(w, s);
            && Rivals(w'.mux, a, b, 0) && w'.mux.cfg == cfg && w'.clock == w.clock
            && w'.mux.lastBatch == w.mux.lastBatch && w'.mux.batchIndex == w.mux.batchIndex
            && b in w'.mux.pads && |w'.mux.pads[b].queue| == 2
            && !w'.mux.pads[b].eosPending && w'.mux.pads[b].blocked.None?
            && a in w'.hist && a in w.hist && w'.hist[a] == w.hist[a] && w'.mux.pads[a] == w.mux.pads[a]
  {
    RivalsBasics(w.mux, a, b, 0);
    assert w.hist.Keys == w.mux.pads.Keys;
    var p := w.mux.pads[b];
    assert p.depth == cfg.queueDepth && !Refuses(p);
    PushedOne(cfg, p, w.hist[b]);
    var w' := NextPush(w, b, FRAME, 0, w.clock);
    assert w.mux.firstPush.Some? by {
      FirstPushSet(w, b);
    }
    hide Inv, Rivals, PushPad, PushHistory;
    assert w'.mux.pads == w.mux.pads[b := PushPad(cfg, p, FRAME, 0, w.clock).pad];
    RefillKeeps(w.mux, w'.mux, a, b);
  }

  lemma FirstPushSet(w: World, i: int)
    requires Inv(w) && i in w.mux.pads && w.mux.pads[i].queue != []
    ensures w.mux.firstPush.Some?
  {
    assert PadOk(w.mux.cfg, w.mux.pads[i], w.hist[i], w.clock);
  }

  lemma PushedOne(cfg: MuxConfig, p: Pad, h: History)
    requires |p.queue| == 1 && p.depth >= 2
    ensures forall now :: var q := PushPad(cfg, p, FRAME, 0, now).pad;
              |q.queue| == 2 && q.index == p.index && q.depth == p.depth && q.cfg == p.cfg && q.eos == p.eos &&
              q.eosPending == p.eosPending && q.blocked == p.blocked
  {
  }

  lemma RefillKeeps(m: Mux, m': Mux, a: int, b: int)
    requires Rivals(m, a, b, 0) && b in m'.pads && m'.pads == m.pads[b := m'.pads[b]]
    requires m'.order == m.order && m'.cfg == m.cfg && m'.lastBatch == m.lastBatch && m'.rrSource == m.rrSource
    requires m'.pads[b].queue != [] && !m'.pads[b].eos && m'.pads[b].index == b && m'.pads[b].depth == m.cfg.queueDepth
    requires m'.pads[b].cfg == m.pads[b].cfg
    ensures Rivals(m', a, b, 0)
  {
    RivalsBasics(m, a, b, 0);
    assert m'.pads.Keys == m.pads.Keys;
    assert OneGroup(m');
  }

  /** What a poll that serves another pad leaves of the history of `a`. */
  lemma PollPasses(w: World, now: int, a: int)
    requires Inv(w) && w.clock <= now && a in w.hist && w.hist[a].emitted == [] && On(Poll(w.mux, now).picks, a) == []
    ensures w.mux.WellFormed()
    ensures var w' := NextPoll(w, now);
            && a in w'.hist && w'.hist[a].emitted == [] && w'.hist[a].pushed == w.hist[a].pushed
            && w'.mux == Poll(w.mux, now).mux && w'.clock == now
  {
    PollHistory(w, now, a);
    hide Poll, On, FramesIn, FramesOn, Inv;
    assert |NextPoll(w, now).hist[a].emitted| == 0;
  }

  lemma OtherPick(b: int, q: Queued, a: int)
    requires a != b
    ensures On([Pick(b, q)], a) == []
  {
    assert [Pick(b, q)][..0] == [];
  }

  lemma OnNothing(a: int)
    ensures On([], a) == []
  {
  }

  /** The poll too early: nothing goes out, and it is the other pad's turn. */
  lemma EarlyPoll(w: World, cfg: MuxConfig, a: int, b: int)
    requires OneByOne(cfg) && Inv(w) && w.mux.cfg == cfg && Rivals(w.mux, a, b, 0)
    requires w.mux.lastBatch == Some(w.clock) && a in w.hist && w.hist[a].emitted == []
    ensures w.mux.WellFormed()
    ensures var w' := NextPoll(w, w.clock);
            && Rivals(w'.mux, a, b, 1) && w'.mux.cfg == cfg && w'.clock == w.clock
            && w'.mux.lastBatch == w.mux.lastBatch && w'.mux.batchIndex == w.mux.batchIndex && w'.mux.pads == w.mux.pads
            && a in w'.hist && w'.hist[a].emitted == [] && w'.hist[a].pushed == w.hist[a].pushed
  {
    hide *;
    RivalsBasics(w.mux, a, b, 0);
    PeriodHolds(w.mux, cfg);
    InvBasics(w);
    HeldPoll(w.mux, a, b, 0, w.clock);
    OnNothing(a);
    PollPasses(w, w.clock, a);
  }

  /** The poll a period later serves `b`. */
  lemma LatePoll(w: World, cfg: MuxConfig, a: int, b: int)
    requires OneByOne(cfg) && Inv(w) && w.mux.cfg == cfg && Rivals(w.mux, a, b, 1)
    requires w.mux.lastBatch == Some(w.clock) && a in w.hist && w.hist[a].emitted == []
    requires b in w.mux.pads && |w.mux.pads[b].queue| == 2
    ensures w.mux.WellFormed()
    ensures var w' := NextPoll(w, w.clock + cfg.MaxFpsDur());
            && Rivals(w'.mux, a, b, 0) && w'.mux.cfg == cfg && w'.mux.lastBatch == Some(w'.clock)
            && w'.mux.batchIndex == w.mux.batchIndex + 1
            && b in w'.mux.pads && w'.mux.pads[b] == TakeFrom(w.mux.pads[b], 1, w'.clock)
            && a in w'.hist && w'.hist[a].emitted == [] && w'.hist[a].pushed == w.hist[a].pushed
  {
    hide *;
    RivalsBasics(w.mux, a, b, 1);
    PeriodHolds(w.mux, cfg);
    InvBasics(w);
    var now := w.clock + cfg.MaxFpsDur();
    FreePoll(w.mux, a, b, 1, now);
    OtherPick(b, w.mux.pads[b].queue[0], a);
    PollPasses(w, now, a);
  }

  /** Right after a batch polls are held back, a period later no longer. */
  lemma PeriodHolds(m: Mux, cfg: MuxConfig)
    requires OneByOne(cfg) && m.cfg == cfg && m.lastBatch.Some?
    ensures cfg.overallMaxFps > 0.0 && cfg.MaxFpsDur() >= 1
    ensures HeldBack(m, m.lastBatch.value) && !HeldBack(m, m.lastBatch.value + cfg.MaxFpsDur())
  {
    hide MuxConfig.MaxFpsDur;
  }

  lemma Taken(p: Pad, now: int)
    requires |p.queue| == 2
    ensures var q := TakeFrom(p, 1, now);
            |q.queue| == 1 && q.eosPending == p.eosPending && q.blocked == p.blocked
  {
  }

  // ---------------------------------------------------------------- runs

  /** Pad `i` got its first frame. */
  ghost predicate Framed(w: World, w': World, i: int) {
    && i in w.mux.pads && i in w'.mux.pads && |w'.mux.pads[i].queue| == 1
    && w'.mux.pads[i] == w.mux.pads[i].(queue := w'.mux.pads[i].queue, received := 1, lastPts := Some(0),
                                        segmentStart := Some(0), segmentSent := true)
    && w'.mux.pads == w.mux.pads[i := w'.mux.pads[i]] && w'.mux.order == w.mux.order && w'.mux.cfg == w.mux.cfg
    && i in w.hist && i in w'.hist && w'.hist == w.hist[i := w'.hist[i]]
    && w'.hist[i].emitted == w.hist[i].emitted && |w'.hist[i].pushed| == |w.hist[i].pushed| + 1
    && w'.clock == w.clock && w'.mux.rrSource == w.mux.rrSource && w'.mux.batchIndex == w.mux.batchIndex
    && w'.mux.firstPush.Some?
    && w'.mux.lastBatch == if w.mux.firstPush.None? then Some(w.clock) else w.mux.lastBatch
  }

  /** The first frame of a pad that has just been added. */
  lemma FirstFrame(w: World, i: int)
    requires Inv(w) && i in w.mux.pads && w.mux.pads[i] == NewPad(w.mux.cfg, i, None, Some(DEFAULT_SOURCE))
    requires w.mux.cfg.queueDepth >= 2
    ensures w.mux.WellFormed() && w.hist.Keys == w.mux.pads.Keys && Enabled(w, PushAt(i, FRAME, 0, w.clock))
    ensures Framed(w, Next(w, PushAt(i, FRAME, 0, w.clock)), i)
  {
    assert w.hist.Keys == w.mux.pads.Keys;
    hide PadOk;
  }

  /** Two pads have come and nothing else has happened. */
  ghost predicate Bare(w: World, cfg: MuxConfig, a: int, b: int) {
    && Inv(w) && w.mux.cfg == cfg && w.clock == 0 && w.mux.order == [a, b] && w.hist.Keys == w.mux.pads.Keys
    && w.mux.pads == map[a := NewPad(cfg, a, None, Some(DEFAULT_SOURCE)), b := NewPad(cfg, b, None, Some(DEFAULT_SOURCE))]
    && w.hist[a].emitted == [] && w.hist[b].emitted == []
    && w.mux.firstPush.None? && w.mux.rrSource == 0 && w.mux.batchIndex == 0
  }

  /** The first of them has come. */
  ghost predicate HalfBare(w: World, cfg: MuxConfig, a: int) {
    && w.mux.cfg == cfg && w.clock == 0 && w.mux.order == [a] && w.hist.Keys == {a}
    && w.mux.pads == map[a := NewPad(cfg, a, None, Some(DEFAULT_SOURCE))]
    && w.hist[a].emitted == [] && w.mux.firstPush.None? && w.mux.rrSource == 0 && w.mux.batchIndex == 0
  }

  lemma OneAdded(cfg: MuxConfig, a: int, w1: World)
    requires cfg.Valid() && NewWorld(cfg, 0).mux.WellFormed() && NewWorld(cfg, 0).hist.Keys == NewWorld(cfg, 0).mux.pads.Keys
    requires w1 == Next(NewWorld(cfg, 0), Add(a, None, Some(DEFAULT_SOURCE)))
    ensures HalfBare(w1, cfg, a)
  {
    NewWorldOk(cfg, 0);
    AddedPad(NewWorld(cfg, 0), a);
    hide Next, NewPad, Inv, Mux.WellFormed;
  }

  lemma OtherAdded(cfg: MuxConfig, a: int, b: int, w1: World, w2: World)
    requires HalfBare(w1, cfg, a) && Inv(w1) && a != b && w1.mux.WellFormed() && w1.hist.Keys == w1.mux.pads.Keys
    requires w2 == Next(w1, Add(b, None, Some(DEFAULT_SOURCE))) && Inv(w2)
    ensures Bare(w2, cfg, a, b)
  {
    hide Next, NewPad, Inv, Mux.WellFormed, Enabled;
    AddedPad(w1, b);
    InvBasics(w2);
  }

  lemma BothAdded(cfg: MuxConfig, a: int, b: int, w1: World, w2: World)
    requires cfg.Valid() && a != b
    requires Inv(w1) && w1 == Next(NewWorld(cfg, 0), Add(a, None, Some(DEFAULT_SOURCE)))
    requires w1.mux.WellFormed() && w1.hist.Keys == w1.mux.pads.Keys && w2 == Next(w1, Add(b, None, Some(DEFAULT_SOURCE))) && Inv(w2)
    ensures Bare(w2, cfg, a, b)
  {
    OneAdded(cfg, a, w1);
    hide Next, Inv, Mux.WellFormed, HalfBare, Bare, NewWorld;
    OtherAdded(cfg, a, b, w1, w2);
  }

  lemma BareFrames(cfg: MuxConfig, a: int, b: int, w2: World, w3: World, w4: World)
    requires OneByOne(cfg) && a != b && Bare(w2, cfg, a, b) && w2.mux.WellFormed()
    requires w3.mux.WellFormed() && w3.hist.Keys == w3.mux.pads.Keys && Inv(w3) && Inv(w4)
    requires Enabled(w2, PushAt(a, FRAME, 0, 0)) && w3 == Next(w2, PushAt(a, FRAME, 0, 0))
    requires Enabled(w3, PushAt(b, FRAME, 0, 0)) && w4 == Next(w3, PushAt(b, FRAME, 0, 0))
    ensures Turned(w4, cfg, a, b, 0)
  {
    hide *;
    BarePad(cfg, a, b, w2, a);
    FirstFrame(w2, a);
    BareLater(cfg, a, b, w2, w3);
    FirstFrame(w3, b);
    InvBasics(w4);
    TwoFramed(cfg, a, b, w2, w3, w4);
  }

  lemma BarePad(cfg: MuxConfig, a: int, b: int, w: World, i: int)
    requires OneByOne(cfg) && a != b && Bare(w, cfg, a, b) && (i == a || i == b)
    ensures Inv(w) && w.clock == 0 && i in w.mux.pads && w.mux.pads[i] == NewPad(w.mux.cfg, i, None, Some(DEFAULT_SOURCE))
    ensures w.mux.cfg.queueDepth >= 2
  {
    hide NewPad, Inv;
  }

  lemma BareLater(cfg: MuxConfig, a: int, b: int, w2: World, w3: World)
    requires OneByOne(cfg) && a != b && Bare(w2, cfg, a, b) && Framed(w2, w3, a)
    ensures w3.clock == 0 && b in w3.mux.pads && w3.mux.pads[b] == NewPad(w3.mux.cfg, b, None, Some(DEFAULT_SOURCE))
    ensures w3.mux.cfg.queueDepth >= 2 && w3.mux.pads[b].blocked.None?
  {
    assert NewPad(cfg, b, None, Some(DEFAULT_SOURCE)).blocked.None?;
    hide NewPad, Inv;
  }

  lemma TwoFramed(cfg: MuxConfig, a: int, b: int, w2: World, w3: World, w4: World)
    requires OneByOne(cfg) && a != b && Bare(w2, cfg, a, b) && Framed(w2, w3, a) && Framed(w3, w4, b)
    requires Inv(w4) && w4.mux.WellFormed()
    ensures Turned(w4, cfg, a, b, 0)
  {
    hide Inv, Mux.WellFormed;
    var p := w4.mux.pads;
    assert w3.mux.pads[b] == w2.mux.pads[b];
    assert a in p && p[a] == w3.mux.pads[a] && b in p;
    assert p.Keys == {a, b};
    forall i | i in p ensures p[i].cfg == DEFAULT_SOURCE {
    }
    assert OneGroup(w4.mux);
    assert w4.hist[a] == w3.hist[a] && |w3.hist[a].pushed| >= 1;
    TwoTurned(w4, cfg, a, b);
  }

  lemma TwoTurned(w: World, cfg: MuxConfig, a: int, b: int)
    requires OneByOne(cfg) && Inv(w) && w.mux.WellFormed() && OneGroup(w.mux) && w.mux.cfg == cfg && w.mux.order == [a, b]
    requires a in w.mux.pads && |w.mux.pads[a].queue| == 1 && !w.mux.pads[a].eos
    requires b in w.mux.pads && |w.mux.pads[b].queue| == 1 && !w.mux.pads[b].eos
    requires !w.mux.pads[b].eosPending && w.mux.pads[b].blocked.None?
    requires a in w.hist && w.hist[a].emitted == [] && w.hist[a].pushed != []
    requires w.mux.rrSource == 0 && w.mux.batchIndex == 0 && w.mux.lastBatch == Some(w.clock)
    ensures Turned(w, cfg, a, b, 0)
  {
    hide Inv, Mux.WellFormed, OneGroup;
  }

  lemma FrameEnabled(w: World, i: int)
    requires w.clock == 0 && i in w.mux.pads && w.mux.pads[i].blocked.None?
    ensures Enabled(w, PushAt(i, FRAME, 0, 0))
  {
  }

  lemma OneByOneValid(cfg: MuxConfig)
    requires OneByOne(cfg)
    ensures cfg.Valid()
  {
  }

  /** Two pads have come, each with its first frame. */
  lemma Opening(cfg: MuxConfig, a: int, b: int) returns (ws: seq<World>, steps: seq<Step>)
    requires OneByOne(cfg) && a != b
    ensures StartsRun(cfg, ws, steps) && |steps| == 4 && Turned(ws[4], cfg, a, b, 0)
  {
    hide *;
    OneByOneValid(cfg);
    EmptyRun(cfg);
    ws, steps := [NewWorld(cfg, 0)], [];
    AddEnabled(ws[0], a);
    ws, steps := RunOn(cfg, ws, steps, Add(a, None, Some(DEFAULT_SOURCE)));
    RunInv(cfg, ws, steps);
    var w1 := ws[1];
    AddEnabled(w1, b);
    ws, steps := RunOn(cfg, ws, steps, Add(b, None, Some(DEFAULT_SOURCE)));
    RunInv(cfg, ws, steps);
    var w2 := ws[2];
    BothAdded(cfg, a, b, w1, w2);
    BareIs(w2, cfg, a, b);
    FrameEnabled(w2, a);
    ws, steps := RunOn(cfg, ws, steps, PushAt(a, FRAME, 0, 0));
    RunInv(cfg, ws, steps);
    var w3 := ws[3];
    BareNext(cfg, a, b, w2, w3);
    FrameEnabled(w3, b);
    ws, steps := RunOn(cfg, ws, steps, PushAt(b, FRAME, 0, 0));
    RunInv(cfg, ws, steps);
    BareFrames(cfg, a, b, w2, w3, ws[4]);
  }

  lemma BareIs(w: World, cfg: MuxConfig, a: int, b: int)
    requires Bare(w, cfg, a, b)
    ensures w.clock == 0 && a in w.mux.pads && w.mux.pads[a].blocked.None?
  {
  }

  lemma BareNext(cfg: MuxConfig, a: int, b: int, w2: World, w3: World)
    requires OneByOne(cfg) && a != b && Bare(w2, cfg, a, b) && w2.mux.WellFormed() && Enabled(w2, PushAt(a, FRAME, 0, 0))
    requires w2.hist.Keys == w2.mux.pads.Keys && w3 == Next(w2, PushAt(a, FRAME, 0, 0))
    ensures w3.clock == 0 && b in w3.mux.pads && w3.mux.pads[b].blocked.None?
  {
    hide *;
    BarePad(cfg, a, b, w2, a);
    FirstFrame(w2, a);
    BareLater(cfg, a, b, w2, w3);
  }

  /** Within a period: `b` has two frames and the cursor stands at position `c`. */
  ghost predicate Midway(w: World, cfg: MuxConfig, a: int, b: int, n: nat, c: nat) {
    && Inv(w) && w.mux.cfg == cfg && Rivals(w.mux, a, b, c) && a in w.hist
    && w.hist[a].emitted == [] && w.hist[a].pushed != []
    && b in w.mux.pads && |w.mux.pads[b].queue| == 2 && !w.mux.pads[b].eosPending && w.mux.pads[b].blocked.None?
    && w.mux.batchIndex == n && w.mux.lastBatch == Some(w.clock)
  }

  lemma PeriodFrame(cfg: MuxConfig, a: int, b: int, n: nat, w: World)
    requires OneByOne(cfg) && Turned(w, cfg, a, b, n)
    ensures w.mux.WellFormed() && w.hist.Keys == w.mux.pads.Keys
    ensures var s := PushAt(b, FRAME, 0, w.clock);
            Enabled(w, s) && (Inv(Next(w, s)) ==> Midway(Next(w, s), cfg, a, b, n, 0))
  {
    Refill(w, cfg, a, b, n);
    hide OneByOne, Next, Rivals, Inv, Enabled;
  }

  lemma PeriodEarly(cfg: MuxConfig, a: int, b: int, n: nat, w: World)
    requires OneByOne(cfg) && Midway(w, cfg, a, b, n, 0)
    ensures w.mux.WellFormed()
    ensures var w' := NextPoll(w, w.clock); Inv(w') ==> Midway(w', cfg, a, b, n, 1)
  {
    EarlyPoll(w, cfg, a, b);
    hide OneByOne, NextPoll, Rivals, Inv;
  }

  lemma PeriodLate(cfg: MuxConfig, a: int, b: int, n: nat, w: World)
    requires OneByOne(cfg) && Midway(w, cfg, a, b, n, 1)
    ensures w.mux.WellFormed() && cfg.overallMaxFps > 0.0
    ensures var w' := NextPoll(w, w.clock + cfg.MaxFpsDur()); Inv(w') ==> Turned(w', cfg, a, b, n + 1)
  {
    hide *;
    PeriodEnabled(w, cfg);
    MidwayParts(w, cfg, a, b, n, 1);
    LatePoll(w, cfg, a, b);
    var w' := NextPoll(w, w.clock + cfg.MaxFpsDur());
    Taken(w.mux.pads[b], w'.clock);
    if Inv(w') {
      TurnedAgain(w', cfg, a, b, n + 1);
    }
  }

  lemma MidwayParts(w: World, cfg: MuxConfig, a: int, b: int, n: nat, c: nat)
    requires Midway(w, cfg, a, b, n, c)
    ensures Inv(w) && w.mux.cfg == cfg && Rivals(w.mux, a, b, c) && a in w.hist
    ensures w.hist[a].emitted == [] && w.hist[a].pushed != []
    ensures b in w.mux.pads && |w.mux.pads[b].queue| == 2 && !w.mux.pads[b].eosPending && w.mux.pads[b].blocked.None?
    ensures w.mux.batchIndex == n && w.mux.lastBatch == Some(w.clock)
  {
  }

  lemma TurnedAgain(w: World, cfg: MuxConfig, a: int, b: int, n: nat)
    requires Inv(w) && w.mux.cfg == cfg && Rivals(w.mux, a, b, 0) && a in w.hist
    requires w.hist[a].emitted == [] && w.hist[a].pushed != []
    requires b in w.mux.pads && |w.mux.pads[b].queue| == 1 && !w.mux.pads[b].eosPending && w.mux.pads[b].blocked.None?
    requires w.mux.batchIndex == n && w.mux.lastBatch == Some(w.clock)
    ensures Turned(w, cfg, a, b, n)
  {
  }

  lemma MidwayStarves(w: World, cfg: MuxConfig, a: int, b: int, n: nat, c: nat)
    requires Midway(w, cfg, a, b, n, c)
    ensures Starving(w, a)
  {
    hide Inv;
  }

  /** One period: a frame for `b`, a poll too early, and a poll in time. */
  lemma Period(cfg: MuxConfig, a: int, b: int, n: nat, ws: seq<World>, steps: seq<Step>)
    returns (ws': seq<World>, steps': seq<Step>)
    requires OneByOne(cfg) && StartsRun(cfg, ws, steps) && |ws| == |steps| + 1 && Turned(ws[|steps|], cfg, a, b, n)
    ensures StartsRun(cfg, ws', steps') && |ws'| == |steps'| + 1 && |steps'| == |steps| + 3 && ws <= ws'
    ensures Turned(ws'[|steps'|], cfg, a, b, n + 1)
    ensures forall j :: |steps| < j <= |steps'| ==> Starving(ws'[j], a)
  {
    hide *;
    var w := ws[|steps|];
    PeriodFrame(cfg, a, b, n, w);
    var s1 := PushAt(b, FRAME, 0, w.clock);
    var ws1, steps1 := RunOn(cfg, ws, steps, s1);
    RunInv(cfg, ws1, steps1);
    var w1 := ws1[|steps1|];
    PeriodEarly(cfg, a, b, n, w1);
    PollEnabled(w1, w1.clock);
    NextIsPoll(w1, w1.clock);
    var ws2, steps2 := RunOn(cfg, ws1, steps1, PollAt(w1.clock));
    RunInv(cfg, ws2, steps2);
    var w2 := ws2[|steps2|];
    PeriodLate(cfg, a, b, n, w2);
    PeriodEnabled(w2, cfg);
    NextIsPoll(w2, w2.clock + cfg.MaxFpsDur());
    ws', steps' := RunOn(cfg, ws2, steps2, PollAt(w2.clock + cfg.MaxFpsDur()));
    RunInv(cfg, ws', steps');
    var w3 := ws'[|steps'|];
    MidwayStarves(w1, cfg, a, b, n, 0);
    MidwayStarves(w2, cfg, a, b, n, 1);
    OpensStarving(w3, cfg, a, b, n + 1);
    assert ws' == ws + [w1, w2, w3];
    forall j | |steps| < j <= |steps'| ensures Starving(ws'[j], a) {
      assert ws'[j] == w1 || ws'[j] == w2 || ws'[j] == w3;
    }
  }

  lemma PeriodEnabled(w: World, cfg: MuxConfig)
    requires OneByOne(cfg)
    ensures cfg.overallMaxFps > 0.0 && Enabled(w, PollAt(w.clock + cfg.MaxFpsDur()))
  {
    hide MuxConfig.MaxFpsDur;
  }

  lemma OpensStarving(w: World, cfg: MuxConfig, a: int, b: int, n: nat)
    requires Turned(w, cfg, a, b, n)
    ensures Starving(w, a)
  {
    hide Inv;
  }

  lemma {:induction false} StarvingRun(cfg: MuxConfig, a: int, b: int, n: nat) returns (ws: seq<World>, steps: seq<Step>)
    requires OneByOne(cfg) && a != b
    ensures StartsRun(cfg, ws, steps) && |ws| == |steps| + 1 && |steps| == 4 + 3 * n
    ensures Turned(ws[4], cfg, a, b, 0) && Turned(ws[|steps|], cfg, a, b, n)
    ensures forall j :: 4 <= j <= |steps| ==> Starving(ws[j], a)
  {
    hide StartsRun, Turned, Starving, OneByOne;
    if n == 0 {
      ws, steps := Opening(cfg, a, b);
      RunInv(cfg, ws, steps);
      OpensStarving(ws[4], cfg, a, b, 0);
    } else {
      var ws0, steps0 := StarvingRun(cfg, a, b, n - 1);
      ws, steps := Period(cfg, a, b, n - 1, ws0, steps0);
      forall j | 4 <= j <= |steps| ensures Starving(ws[j], a) {
        if j <= |steps0| {
          assert ws[j] == ws0[j];
        }
      }
    }
  }

  /** Bounded waiting fails under a maximum rate: for every n there is a run that sends
      n batches while pad `a` waits all the time, the first frame it accepted still
      at the head of its queue and none of its frames in a batch. */
  lemma EveryNumberOfBatchesPassesOver(cfg: MuxConfig, a: int, b: int, n: nat) returns (ws: seq<World>, steps: seq<Step>)
    requires OneByOne(cfg) && a != b
    ensures RunFrom(cfg, ws, steps) && |steps| == 4 + 3 * n
    ensures ws[|steps|].mux.batchIndex == n && ws[4].mux.batchIndex == 0
    ensures forall j :: 4 <= j <= |steps| ==> Starving(ws[j], a)
  {
    ws, steps := StarvingRun(cfg, a, b, n);
    hide Starving, Inv, NewWorld, Rivals;
    StartsFrom(cfg, ws, steps);
  }

  /** A configuration of that kind: one frame a batch, one batch a second. */
  lemma OneByOneExists()
    ensures OneByOne(MuxConfig(1, 0, false, New, false, true, 1.0, true, 1, false, map[], false, 0, false, false, 4, None, 2))
  {
    var cfg := MuxConfig(1, 0, false, New, false, true, 1.0, true, 1, false, map[], false, 0, false, false, 4, None, 2);
    assert cfg.MaxFpsDur() == NS;
  }
}
