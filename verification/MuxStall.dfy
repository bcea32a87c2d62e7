/** Where full queues drop their oldest frame a legacy deadline can run away for ever:
    runs of any length in which frames stay queued and no batch is sent. */
module MuxStall {
  import opened Shared
  import opened MuxTypes
  import opened MuxSpec
  import opened BatchSplit
  import opened LegacyBatch
  import opened MuxRuns
  import opened PadLedger
  import opened MuxInvariant
  import opened MuxSafety
  import opened MuxDrain
  import opened MuxFairness
  import opened MuxDeadlines
  import opened MuxLiveness
  import opened MuxQuiet
  import opened MuxBuild
  import opened MuxCadence

  const FRAME := Arrival(0, 0, 1, 1, 0)

  /** One pad is fed; beside it a live mux has one that is silent. */
  function Order(cfg: MuxConfig): seq<int> { if cfg.liveSource then [0, 1] else [0] }

  function Keys(cfg: MuxConfig): set<int> { if cfg.liveSource then {0, 1} else {0} }

  function Stamp(s: int, k: int): int { k * s }

  /** Frames every `s`, polls `g` later: the oldest frame of a full queue is then never
      as old as the timeout, and the queue never has as many frames as a batch needs. */
  predicate Stallable(cfg: MuxConfig, s: int, g: int) {
    && cfg.Valid() && cfg.policy == Legacy && !cfg.syncInputs && !cfg.BlocksWhenFull() && cfg.timeoutUs >= 0
    && s >= 1 && 0 <= g <= s && Stamp(s, cfg.queueDepth - 1) + g < cfg.timeoutUs * 1000
    && cfg.batchSize > if cfg.liveSource then 1 else Min(cfg.queueDepth, cfg.maxSameLegacy)
  }

  /** The pad after `j` frames. */
  ghost predicate Fed(cfg: MuxConfig, p: Pad, s: int, j: nat) {
    && p.index == 0 && p.depth == cfg.queueDepth && !p.eos && !p.eosPending && p.blocked.None?
    && |p.queue| == Min(j, cfg.queueDepth)
    && (forall x :: 0 <= x < |p.queue| ==> p.queue[x].recv == Stamp(s, j - |p.queue| + x))
  }

  ghost predicate Silent(p: Pad) {
    p.queue == [] && !p.eos && !p.eosPending && p.blocked.None?
  }

  ghost predicate StalledMux(m: Mux, cfg: MuxConfig, s: int, j: nat) {
    && m.cfg == cfg && m.order == Order(cfg) && m.pads.Keys == Keys(cfg)
    && Fed(cfg, m.pads[0], s, j) && (cfg.liveSource ==> Silent(m.pads[1]))
    && !m.eosSent && m.batchIndex == 0
    && (j == 0 ==> m.firstPush.None?) && (j > 0 ==> m.firstPush.Some? && m.lastBatch == Some(0))
  }

  ghost predicate Stalled(w: World, cfg: MuxConfig, s: int, j: nat) {
    Inv(w) && StalledMux(w.mux, cfg, s, j) && w.clock <= Stamp(s, j)
  }

  /** The time of the oldest frame queued. */
  function HeadTime(cfg: MuxConfig, s: int, j: nat): int { Stamp(s, j - Min(j, cfg.queueDepth)) }

  // ---------------------------------------------------------------- a frame comes

  lemma FedOne(cfg: MuxConfig, p: Pad, s: int, j: nat)
    requires Fed(cfg, p, s, j) && cfg.queueDepth >= 1 && !cfg.BlocksWhenFull()
    ensures Fed(cfg, PushPad(cfg, p, FRAME, 0, Stamp(s, j)).pad, s, j + 1)
  {
    var p' := PushPad(cfg, p, FRAME, 0, Stamp(s, j)).pad;
    hide Stamp;
    var n := |p'.queue|;
    assert n == Min(j + 1, cfg.queueDepth) && p'.queue[n - 1].recv == Stamp(s, j);
    if |p.queue| < p.depth {
      assert forall x :: 0 <= x < n - 1 ==> p'.queue[x] == p.queue[x];
    } else {
      assert forall x :: 0 <= x < n - 1 ==> p'.queue[x] == p.queue[x + 1];
    }
  }

  lemma PushStalls(w: World, cfg: MuxConfig, s: int, g: int, j: nat)
    requires Stallable(cfg, s, g) && Stalled(w, cfg, s, j)
    ensures w.mux.WellFormed() && w.hist.Keys == w.mux.pads.Keys
    ensures var step := PushAt(0, FRAME, 0, Stamp(s, j));
            && Enabled(w, step)
            && var w' := Next(w, step);
            StalledMux(w'.mux, cfg, s, j + 1) && w'.clock == Stamp(s, j)
  {
    hide *;
    StallableMeans(cfg, s, g);
    StalledParts(w, cfg, s, j);
    InvBasics(w);
    StalledTakes(w.mux, cfg, s, j);
    FedOne(cfg, w.mux.pads[0], s, j);
    PushShape(w, s, j);
    StampZero(s);
    StalledMore(w.mux, Next(w, PushAt(0, FRAME, 0, Stamp(s, j))).mux, cfg, s, j);
  }

  lemma StalledTakes(m: Mux, cfg: MuxConfig, s: int, j: nat)
    requires StalledMux(m, cfg, s, j)
    ensures m.cfg == cfg && 0 in m.pads && Fed(cfg, m.pads[0], s, j) && m.pads[0].depth >= 0
    ensures !Refuses(m.pads[0]) && m.pads[0].blocked.None? && m.pads[0].depth == cfg.queueDepth
  {
    assert 0 in m.pads.Keys;
    hide Stamp;
  }

  lemma StalledMore(m: Mux, m': Mux, cfg: MuxConfig, s: int, j: nat)
    requires StalledMux(m, cfg, s, j) && 0 in m.pads && 0 in m'.pads && Fed(cfg, m'.pads[0], s, j + 1)
    requires m'.pads == m.pads[0 := m'.pads[0]] && m'.cfg == m.cfg && m'.order == m.order && m'.eosSent == m.eosSent
    requires m'.batchIndex == m.batchIndex && m'.firstPush.Some?
    requires m'.lastBatch == (if m.firstPush.None? then Some(Stamp(s, j)) else m.lastBatch) && (j == 0 ==> Stamp(s, j) == 0)
    ensures StalledMux(m', cfg, s, j + 1)
  {
    hide Fed, Silent, Order, Stamp;
    assert m'.pads.Keys == m.pads.Keys;
  }

  lemma PushShape(w: World, s: int, j: nat)
    requires w.mux.WellFormed() && w.hist.Keys == w.mux.pads.Keys && 0 in w.mux.pads
    requires !Refuses(w.mux.pads[0]) && w.mux.pads[0].blocked.None? && w.clock <= Stamp(s, j)
    ensures Enabled(w, PushAt(0, FRAME, 0, Stamp(s, j)))
    ensures var w' := Next(w, PushAt(0, FRAME, 0, Stamp(s, j)));
            && w'.mux.pads == w.mux.pads[0 := PushPad(w.mux.cfg, w.mux.pads[0], FRAME, 0, Stamp(s, j)).pad]
            && w'.mux.order == w.mux.order && w'.mux.cfg == w.mux.cfg && w'.clock == Stamp(s, j)
            && w'.mux.eosSent == w.mux.eosSent && w'.mux.batchIndex == w.mux.batchIndex
            && w'.mux.firstPush.Some?
            && w'.mux.lastBatch == if w.mux.firstPush.None? then Some(Stamp(s, j)) else w.mux.lastBatch
  {
    hide PushPad, PushHistory, Stamp;
  }

  // ---------------------------------------------------------------- a poll sends nothing

  /** The parts of a stalled mux that a poll looks at. */
  lemma StalledBasics(m: Mux, cfg: MuxConfig, s: int, j: nat)
    requires StalledMux(m, cfg, s, j) && j > 0 && cfg.queueDepth >= 1
    ensures m.cfg == cfg && m.order == Order(cfg) && AllIn(m.order, m.pads) && 0 in m.pads && (cfg.liveSource ==> 1 in m.pads)
    ensures m.pads[0].queue != [] && !m.pads[0].Done() && !m.pads[0].eos && |m.pads[0].queue| <= cfg.queueDepth
    ensures m.pads[0].queue[0].recv == HeadTime(cfg, s, j)
    ensures cfg.liveSource ==> Silent(m.pads[1])
    ensures forall i :: i in m.pads ==> !Closing(m.pads[i])
    ensures m.lastBatch == Some(0) && !m.eosSent && m.pads != map[]
  {
    hide Stamp;
    var p := m.pads[0];
    assert 0 in m.pads.Keys && (cfg.liveSource ==> 1 in m.pads.Keys);
    assert |p.queue| == Min(j, cfg.queueDepth) >= 1;
    forall i | i in m.pads ensures !Closing(m.pads[i]) {
      assert i in m.pads.Keys;
      assert i == 0 || i == 1;
    }
  }

  lemma ActiveLast(p: map<int, Pad>, ids: seq<int>, x: int)
    requires AllIn(ids, p) && x in p
    ensures AllIn(ids + [x], p)
    ensures Active(p, ids + [x]) == if p[x].Done() then Active(p, ids) else Active(p, ids) + [x]
    ensures Oldest(p, ids + [x]) ==
            if p[x].queue != [] && !p[x].Done() then Earlier(Oldest(p, ids), p[x].queue[0].recv) else Oldest(p, ids)
  {
    assert (ids + [x])[..|ids|] == ids;
    hide Pad.Done;
  }

  lemma ActiveNobody(p: map<int, Pad>)
    ensures Active(p, []) == [] && Oldest(p, []) == None
  {
  }

  lemma SilentWaits(p: Pad)
    requires Silent(p)
    ensures !p.Done() && p.queue == []
  {
  }

  lemma Alone(p: map<int, Pad>)
    ensures AllIn([], p)
    ensures 0 in p ==> AllIn([0], p)
  {
  }

  lemma ActiveOne(p: map<int, Pad>)
    requires 0 in p && p[0].queue != [] && !p[0].Done() && AllIn([0], p)
    ensures Active(p, [0]) == [0] && Oldest(p, [0]) == Some(p[0].queue[0].recv)
  {
    hide *;
    Alone(p);
    ActiveNobody(p);
    ActiveLast(p, [], 0);
    assert [] + [0] == [0];
    EarlierThanNone(p[0].queue[0].recv);
  }

  lemma EarlierThanNone(b: int)
    ensures Earlier(None, b) == Some(b)
  {
  }

  lemma ActiveTwo(p: map<int, Pad>)
    requires 0 in p && p[0].queue != [] && !p[0].Done() && 1 in p && Silent(p[1]) && AllIn([0, 1], p)
    ensures Active(p, [0, 1]) == [0, 1] && Oldest(p, [0, 1]) == Some(p[0].queue[0].recv)
  {
    hide *;
    Alone(p);
    ActiveOne(p);
    SilentWaits(p[1]);
    ActiveLast(p, [0], 1);
    assert [0] + [1] == [0, 1];
  }

  lemma OrderIs(cfg: MuxConfig)
    ensures if cfg.liveSource then Order(cfg) == [0, 1] else Order(cfg) == [0]
  {
  }

  lemma StalledActive(m: Mux, cfg: MuxConfig, s: int, j: nat)
    requires StalledMux(m, cfg, s, j) && j > 0 && cfg.queueDepth >= 1
    ensures AllIn(m.order, m.pads) && Active(m.pads, m.order) == m.order
    ensures Oldest(m.pads, m.order) == Some(HeadTime(cfg, s, j))
  {
    hide *;
    StalledBasics(m, cfg, s, j);
    OrderIs(cfg);
    if cfg.liveSource {
      ActiveTwo(m.pads);
    } else {
      ActiveOne(m.pads);
    }
  }

  /** Never as old as the timeout. */
  lemma YoungEnough(cfg: MuxConfig, s: int, g: int, j: nat)
    requires Stallable(cfg, s, g) && j > 0
    ensures Stamp(s, j - 1) + g < HeadTime(cfg, s, j) + cfg.timeoutUs * 1000 && HeadTime(cfg, s, j) >= 0
  {
    var d := Min(j, cfg.queueDepth);
    Apart(s, j - 1, j - d);
    Apart(s, cfg.queueDepth - 1, d - 1);
    Apart(s, j - d, 0);
    hide Stamp;
  }

  lemma Apart(s: int, a: int, b: int)
    requires s >= 1
    ensures Stamp(s, a) - Stamp(s, b) == Stamp(s, a - b)
    ensures a >= b ==> Stamp(s, a) >= Stamp(s, b)
    ensures Stamp(s, 0) == 0
  {
    assert (a - b) * s == a * s - b * s;
    if a >= b {
      assert (a - b) * s >= 0;
    }
  }

  lemma StallableMeans(cfg: MuxConfig, s: int, g: int)
    requires Stallable(cfg, s, g)
    ensures cfg.Valid() && cfg.queueDepth >= 1 && cfg.policy == Legacy && !cfg.syncInputs && !cfg.BlocksWhenFull()
    ensures cfg.timeoutUs >= 0 && s >= 1 && 0 <= g <= s
    ensures cfg.batchSize > if cfg.liveSource then 1 else Min(cfg.queueDepth, cfg.maxSameLegacy)
  {
    hide Stamp;
  }

  lemma TimerFrom(m: Mux, h: int)
    requires AllIn(m.order, m.pads) && Oldest(m.pads, m.order) == Some(h) && h >= 0 && m.lastBatch == Some(0)
    requires m.cfg.policy == Legacy && m.cfg.timeoutUs >= 0
    ensures LegacyTimerStart(m) == Some(h) && NextDeadline(m) == Some(h + m.cfg.timeoutUs * 1000)
  {
    hide Oldest;
  }

  lemma StalledDeadline(m: Mux, cfg: MuxConfig, s: int, g: int, j: nat)
    requires Stallable(cfg, s, g) && StalledMux(m, cfg, s, j) && j > 0
    ensures AllIn(m.order, m.pads) && LegacyTimerStart(m) == Some(HeadTime(cfg, s, j))
    ensures NextDeadline(m) == Some(HeadTime(cfg, s, j) + cfg.timeoutUs * 1000)
  {
    hide *;
    StallableMeans(cfg, s, g);
    StalledBasics(m, cfg, s, j);
    StalledActive(m, cfg, s, j);
    YoungEnough(cfg, s, g, j);
    TimerFrom(m, HeadTime(cfg, s, j));
  }

  lemma FifoTooFew(m: Mux)
    requires OrderedQueues(m) && 0 in m.pads
    requires m.cfg.batchSize > Min(|m.pads[0].queue|, m.cfg.maxSameLegacy)
    ensures |FifoPicks(m, [0])| < m.cfg.batchSize || FifoPicks(m, [0]) == []
  {
    FifoBatch(m, [0]);
    assert [0][..0] == [];
    assert Supply(m.pads, [0], m.cfg.maxSameLegacy) == Quota(m.cfg.maxSameLegacy, |m.pads[0].queue|);
    hide FifoPicks;
  }

  lemma LiveTooFew(m: Mux, now: int)
    requires 0 in m.pads && 1 in m.pads && Silent(m.pads[1]) && !m.cfg.syncInputs
    ensures |FormLive(m, [0, 1], now).picks| <= 1
  {
    assert [0, 1][..1] == [0] && [0][..0] == [];
    var f := FormLive(m, [0], now);
    assert |f.picks| <= 1 && f.pads[1] == m.pads[1];
    assert FormLive(m, [0, 1], now) == VisitLive(m, f, 1, now);
  }

  lemma LegacyGoes(m: Mux, now: int, h: int)
    requires AllIn(m.order, m.pads) && Active(m.pads, m.order) == m.order && m.cfg.policy == Legacy && m.cfg.timeoutUs >= 0
    requires LegacyTimerStart(m) == Some(h) && now < h + m.cfg.timeoutUs * 1000 && m.cfg.overallMaxFps > 0.0
    requires m.cfg.liveSource ==> |FormLive(m, m.order, now).picks| < Min(m.cfg.batchSize, |m.order|)
    requires !m.cfg.liveSource ==> |FifoPicks(m, m.order)| < m.cfg.batchSize || FifoPicks(m, m.order) == []
    ensures !Goes(Form(m, now))
  {
    hide Active, LegacyTimerStart, FormLive, FifoPicks;
  }

  lemma NothingFull(m: Mux, cfg: MuxConfig, s: int, g: int, j: nat)
    requires Stallable(cfg, s, g) && StalledMux(m, cfg, s, j) && j > 0 && OrderedQueues(m) && m.cfg.overallMaxFps > 0.0
    ensures AllIn(m.order, m.pads) && !Goes(Form(m, Stamp(s, j - 1) + g))
  {
    var now := Stamp(s, j - 1) + g;
    hide Order, HeadTime, Stamp, Stallable, StalledMux, OrderedQueues, FormLive, FifoPicks, Active, LegacyTimerStart, Form, Goes, Silent;
    StallableMeans(cfg, s, g);
    StalledBasics(m, cfg, s, j);
    StalledActive(m, cfg, s, j);
    StalledDeadline(m, cfg, s, g, j);
    YoungEnough(cfg, s, g, j);
    OrderIs(cfg);
    if cfg.liveSource {
      LiveTooFew(m, now);
    } else {
      FifoTooFew(m);
    }
    LegacyGoes(m, now, HeadTime(cfg, s, j));
  }

  lemma StalledOpen(m: Mux, cfg: MuxConfig, s: int, j: nat)
    requires StalledMux(m, cfg, s, j) && j > 0 && cfg.queueDepth >= 1
    ensures !SomeClosing(m) && !m.AllEos()
  {
    StalledBasics(m, cfg, s, j);
    hide StalledMux, Closing;
    assert 0 in m.pads && !m.pads[0].eos;
  }

  lemma SoundMeans(m: Mux)
    requires Sound(m)
    ensures m.WellFormed() && AllIn(m.order, m.pads) && OrderedQueues(m) && m.cfg.overallMaxFps > 0.0
  {
    hide Ordered;
  }

  lemma StalledSame(m: Mux, m': Mux, cfg: MuxConfig, s: int, j: nat)
    requires StalledMux(m, cfg, s, j) && m'.cfg == m.cfg && m'.order == m.order && m'.pads == m.pads
    requires m'.eosSent == m.eosSent && m'.batchIndex == m.batchIndex && m'.firstPush == m.firstPush && m'.lastBatch == m.lastBatch
    ensures StalledMux(m', cfg, s, j)
  {
    hide Fed, Silent, Order, Keys;
  }

  lemma PollStalls(m: Mux, cfg: MuxConfig, s: int, g: int, j: nat)
    requires Stallable(cfg, s, g) && StalledMux(m, cfg, s, j) && j > 0 && Sound(m)
    ensures AllIn(m.order, m.pads) && m.cfg.overallMaxFps > 0.0
    ensures StalledMux(Poll(m, Stamp(s, j - 1) + g).mux, cfg, s, j)
  {
    var now := Stamp(s, j - 1) + g;
    var m0 := m.(pending := []);
    hide *;
    StallableMeans(cfg, s, g);
    SoundMeans(m);
    SoundFlushed(m, m0);
    SoundMeans(m0);
    StalledSame(m, m0, cfg, s, j);
    NothingFull(m0, cfg, s, g, j);
    StalledOpen(m0, cfg, s, j);
    StalledBasics(m0, cfg, s, j);
    NothingGoes(m0, now);
    QuietForms(m0, now);
    NothingLate(m0, now);
    PollFlushes(m, m0, now);
    FormedSame(m0, Form(m0, now));
    StalledSame(m0, Formed(m0, Form(m0, now)), cfg, s, j);
  }

  lemma FormedSame(m: Mux, f: Forming)
    ensures Formed(m, f) == m.(pads := f.pads, rrPriority := f.rrPriority, rrSource := f.rrSource,
                               stats := m.stats.(droppedLate := m.stats.droppedLate + |f.late|))
  {
  }

  // ---------------------------------------------------------------- runs

  lemma PadsCome(cfg: MuxConfig, s: int, g: int) returns (ws: seq<World>, steps: seq<Step>)
    requires Stallable(cfg, s, g)
    ensures StartsRun(cfg, ws, steps) && |ws| == |steps| + 1 && |steps| == |Order(cfg)|
    ensures Stalled(ws[|steps|], cfg, s, 0)
  {
    hide *;
    StallableMeans(cfg, s, g);
    OrderIs(cfg);
    EmptyRun(cfg);
    ws, steps := [NewWorld(cfg, 0)], [];
    AddEnabled(ws[0], 0);
    ws, steps := RunOn(cfg, ws, steps, Add(0, None, Some(DEFAULT_SOURCE)));
    RunInv(cfg, ws, steps);
    var w1 := ws[1];
    FirstCame(cfg, w1);
    if cfg.liveSource {
      AddEnabled(w1, 1);
      ws, steps := RunOn(cfg, ws, steps, Add(1, None, Some(DEFAULT_SOURCE)));
      RunInv(cfg, ws, steps);
      SecondCame(cfg, w1, ws[2]);
    }
    AllCame(cfg, s, ws[|steps|]);
  }

  function FreshPad(cfg: MuxConfig, i: int): Pad { NewPad(cfg, i, None, Some(DEFAULT_SOURCE)) }

  /** Only pads have come. */
  ghost predicate Bare(w: World, cfg: MuxConfig, live: bool) {
    && Inv(w) && w.mux.cfg == cfg && w.clock == 0 && w.mux.firstPush.None? && w.mux.batchIndex == 0
    && w.mux.order == (if live then [0, 1] else [0])
    && w.mux.pads == if live then map[0 := FreshPad(cfg, 0), 1 := FreshPad(cfg, 1)] else map[0 := FreshPad(cfg, 0)]
  }

  lemma FirstCame(cfg: MuxConfig, w1: World)
    requires cfg.Valid() && Inv(w1)
    requires var w := NewWorld(cfg, 0);
             w.mux.WellFormed() && w.hist.Keys == w.mux.pads.Keys && Enabled(w, Add(0, None, Some(DEFAULT_SOURCE))) &&
             w1 == Next(w, Add(0, None, Some(DEFAULT_SOURCE)))
    ensures Bare(w1, cfg, false)
  {
    NewWorldOk(cfg, 0);
    AddedPad(NewWorld(cfg, 0), 0);
    hide Inv, Next, NewPad;
  }

  lemma SecondCame(cfg: MuxConfig, w1: World, w2: World)
    requires Bare(w1, cfg, false) && Inv(w2) && w1.mux.WellFormed() && w1.hist.Keys == w1.mux.pads.Keys
    requires Enabled(w1, Add(1, None, Some(DEFAULT_SOURCE))) && w2 == Next(w1, Add(1, None, Some(DEFAULT_SOURCE)))
    ensures Bare(w2, cfg, true)
  {
    hide Inv, Next, NewPad;
    AddedPad(w1, 1);
  }

  lemma AllCame(cfg: MuxConfig, s: int, w: World)
    requires Bare(w, cfg, cfg.liveSource) && cfg.queueDepth >= 1
    ensures Stalled(w, cfg, s, 0)
  {
    hide Inv, Fed, Silent, FreshPad, Stamp, Order, Keys, StalledMux;
    FreshPads(cfg, s);
    NotEnded(w);
    StampZero(s);
    BareStalled(cfg, s, w.mux);
  }

  lemma BareStalled(cfg: MuxConfig, s: int, m: Mux)
    requires m.cfg == cfg && m.firstPush.None? && m.batchIndex == 0 && !m.eosSent
    requires m.order == if cfg.liveSource then [0, 1] else [0]
    requires m.pads == if cfg.liveSource then map[0 := FreshPad(cfg, 0), 1 := FreshPad(cfg, 1)] else map[0 := FreshPad(cfg, 0)]
    requires Fed(cfg, FreshPad(cfg, 0), s, 0) && Silent(FreshPad(cfg, 1))
    ensures StalledMux(m, cfg, s, 0)
  {
    hide Fed, Silent, FreshPad;
    assert m.pads.Keys == Keys(cfg);
  }

  lemma StampZero(s: int)
    ensures Stamp(s, 0) == 0
  {
  }

  lemma FreshPads(cfg: MuxConfig, s: int)
    requires cfg.queueDepth >= 1
    ensures Fed(cfg, FreshPad(cfg, 0), s, 0) && Silent(FreshPad(cfg, 1)) && !FreshPad(cfg, 0).eos
  {
  }

  lemma NotEnded(w: World)
    requires Inv(w) && 0 in w.mux.pads && !w.mux.pads[0].eos
    ensures !w.mux.eosSent
  {
    hide PadsOk;
  }

  lemma PollPeriod(w: World, cfg: MuxConfig, s: int, g: int, j: nat)
    requires Stallable(cfg, s, g) && Inv(w) && StalledMux(w.mux, cfg, s, j + 1) && w.clock == Stamp(s, j)
    ensures w.mux.WellFormed() && w.hist.Keys == w.mux.pads.Keys && Enabled(w, PollAt(Stamp(s, j) + g))
    ensures var w' := Next(w, PollAt(Stamp(s, j) + g));
            StalledMux(w'.mux, cfg, s, j + 1) && w'.clock == Stamp(s, j) + g <= Stamp(s, j + 1)
  {
    hide *;
    StallableMeans(cfg, s, g);
    InvIsSound(w);
    InvBasics(w);
    Apart(s, j + 1, j);
    StampOne(s);
    PollStalls(w.mux, cfg, s, g, j + 1);
    PollEnabled(w, Stamp(s, j) + g);
    NextIsPoll(w, Stamp(s, j) + g);
    PolledWorld(w, Stamp(s, j) + g);
  }

  lemma StampOne(s: int)
    ensures Stamp(s, 1) == s
  {
  }

  /** What is seen of the mux after `j` frames. */
  ghost predicate Runaway(m: Mux, cfg: MuxConfig, s: int, j: nat) {
    && m.WellFormed() && m.cfg == cfg && Waiting(m, 0)
    && NextDeadline(m) == Some(HeadTime(cfg, s, j) + cfg.timeoutUs * 1000)
  }

  lemma StalledRunsAway(w: World, cfg: MuxConfig, s: int, g: int, j: nat)
    requires Stallable(cfg, s, g) && Inv(w) && StalledMux(w.mux, cfg, s, j) && j > 0
    ensures Runaway(w.mux, cfg, s, j) && w.mux.batchIndex == 0
  {
    hide *;
    InvBasics(w);
    StallableMeans(cfg, s, g);
    StalledBasics(w.mux, cfg, s, j);
    StalledDeadline(w.mux, cfg, s, g, j);
    MakesRunaway(w.mux, cfg, s, j);
    NoBatchYet(w.mux, cfg, s, j);
  }

  lemma MakesRunaway(m: Mux, cfg: MuxConfig, s: int, j: nat)
    requires m.WellFormed() && m.cfg == cfg && 0 in m.pads && m.pads[0].queue != []
    requires NextDeadline(m) == Some(HeadTime(cfg, s, j) + cfg.timeoutUs * 1000)
    ensures Runaway(m, cfg, s, j)
  {
    hide Mux.WellFormed, NextDeadline, HeadTime;
  }

  lemma NoBatchYet(m: Mux, cfg: MuxConfig, s: int, j: nat)
    requires StalledMux(m, cfg, s, j)
    ensures m.batchIndex == 0
  {
  }

  /** What the steps are, and what they lead through. */
  ghost predicate Period(ws: seq<World>, steps: seq<Step>, cfg: MuxConfig, s: int, g: int, x: nat) {
    var o := |Order(cfg)| + 2 * x;
    && |ws| == |steps| + 1 && o + 2 < |ws|
    && steps[o] == PushAt(0, FRAME, 0, Stamp(s, x)) && steps[o + 1] == PollAt(Stamp(s, x) + g)
    && Runaway(ws[o + 1].mux, cfg, s, x + 1) && Runaway(ws[o + 2].mux, cfg, s, x + 1)
    && ws[o + 1].mux.batchIndex == 0 && ws[o + 2].mux.batchIndex == 0
  }

  lemma OnePeriod(cfg: MuxConfig, s: int, g: int, j: nat, ws: seq<World>, steps: seq<Step>)
    returns (ws': seq<World>, steps': seq<Step>)
    requires Stallable(cfg, s, g) && StartsRun(cfg, ws, steps) && |ws| == |steps| + 1
    requires |steps| == |Order(cfg)| + 2 * j && Stalled(ws[|steps|], cfg, s, j)
    ensures StartsRun(cfg, ws', steps') && |ws'| == |steps'| + 1 && |steps'| == |steps| + 2 && ws <= ws' && steps <= steps'
    ensures Stalled(ws'[|steps'|], cfg, s, j + 1) && Period(ws', steps', cfg, s, g, j)
  {
    hide *;
    var w := ws[|steps|];
    StalledParts(w, cfg, s, j);
    PushStalls(w, cfg, s, g, j);
    var ws1, steps1 := RunOn(cfg, ws, steps, PushAt(0, FRAME, 0, Stamp(s, j)));
    RunInv(cfg, ws1, steps1);
    var w1 := ws1[|steps1|];
    PollPeriod(w1, cfg, s, g, j);
    StalledRunsAway(w1, cfg, s, g, j + 1);
    ws', steps' := RunOn(cfg, ws1, steps1, PollAt(Stamp(s, j) + g));
    RunInv(cfg, ws', steps');
    var w2 := ws'[|steps'|];
    StalledRunsAway(w2, cfg, s, g, j + 1);
    MakesStalled(w2, cfg, s, j + 1);
    MakesPeriod(ws', steps', cfg, s, g, j);
  }

  lemma StalledParts(w: World, cfg: MuxConfig, s: int, j: nat)
    requires Stalled(w, cfg, s, j)
    ensures Inv(w) && StalledMux(w.mux, cfg, s, j) && w.clock <= Stamp(s, j)
  {
  }

  lemma MakesStalled(w: World, cfg: MuxConfig, s: int, j: nat)
    requires Inv(w) && StalledMux(w.mux, cfg, s, j) && w.clock <= Stamp(s, j)
    ensures Stalled(w, cfg, s, j)
  {
  }

  lemma MakesPeriod(ws: seq<World>, steps: seq<Step>, cfg: MuxConfig, s: int, g: int, x: nat)
    requires var o := |Order(cfg)| + 2 * x;
             && |ws| == |steps| + 1 && o + 2 < |ws|
             && steps[o] == PushAt(0, FRAME, 0, Stamp(s, x)) && steps[o + 1] == PollAt(Stamp(s, x) + g)
             && Runaway(ws[o + 1].mux, cfg, s, x + 1) && Runaway(ws[o + 2].mux, cfg, s, x + 1)
             && ws[o + 1].mux.batchIndex == 0 && ws[o + 2].mux.batchIndex == 0
    ensures Period(ws, steps, cfg, s, g, x)
  {
  }

  lemma {:induction false} StallRun(cfg: MuxConfig, s: int, g: int, n: nat) returns (ws: seq<World>, steps: seq<Step>)
    requires Stallable(cfg, s, g)
    ensures StartsRun(cfg, ws, steps) && |ws| == |steps| + 1 && |steps| == |Order(cfg)| + 2 * n
    ensures Stalled(ws[|steps|], cfg, s, n) && forall x: nat :: x < n ==> Period(ws, steps, cfg, s, g, x)
  {
    hide *;
    if n == 0 {
      ws, steps := PadsCome(cfg, s, g);
    } else {
      var ws0, steps0 := StallRun(cfg, s, g, n - 1);
      ws, steps := OnePeriod(cfg, s, g, n - 1, ws0, steps0);
      forall x: nat | x < n ensures Period(ws, steps, cfg, s, g, x) {
        if x < n - 1 {
          PeriodStays(ws0, steps0, ws, steps, cfg, s, g, x);
        }
      }
    }
  }

  lemma PeriodStays(ws: seq<World>, steps: seq<Step>, ws': seq<World>, steps': seq<Step>, cfg: MuxConfig, s: int, g: int, x: nat)
    requires Period(ws, steps, cfg, s, g, x) && ws <= ws' && steps <= steps' && |ws'| == |steps'| + 1
    ensures Period(ws', steps', cfg, s, g, x)
  {
    hide Runaway;
  }

  /** Under a timer and with queues that drop: for every n there is a run with n polls in
      which, from the first frame on, a frame is queued in every world and no batch is
      ever sent. Each push to the full queue moves the deadline by `s`. */
  lemma NoBatchEver(cfg: MuxConfig, s: int, g: int, n: nat) returns (ws: seq<World>, steps: seq<Step>)
    requires Stallable(cfg, s, g)
    ensures RunFrom(cfg, ws, steps) && |ws| == |steps| + 1 && |steps| == |Order(cfg)| + 2 * n
    ensures forall x: nat :: x < n ==> Period(ws, steps, cfg, s, g, x)
    ensures ws[|steps|].mux.batchIndex == 0
  {
    ws, steps := StallRun(cfg, s, g, n);
    hide Inv, Period, NewWorld, Fed, Silent;
    StartsFrom(cfg, ws, steps);
  }

  /** The first push to the full queue moves the deadline, which stood one timeout after
      the first push of all, although no batch was sent. */
  lemma DeadlineRunsAway(cfg: MuxConfig, s: int, g: int) returns (ws: seq<World>, steps: seq<Step>, k: nat)
    requires Stallable(cfg, s, g)
    ensures RunFrom(cfg, ws, steps) && |ws| == |steps| + 1 && k < |steps|
    ensures steps[k] == PushAt(0, FRAME, 0, Stamp(s, cfg.queueDepth)) && ws[k].mux.batchIndex == ws[k + 1].mux.batchIndex == 0
    ensures ws[k].mux.WellFormed() && NextDeadline(ws[k].mux) == Some(cfg.timeoutUs * 1000)
    ensures ws[k + 1].mux.WellFormed() && NextDeadline(ws[k + 1].mux) == Some(s + cfg.timeoutUs * 1000)
  {
    hide *;
    StallableMeans(cfg, s, g);
    var d: nat := cfg.queueDepth;
    ws, steps := NoBatchEver(cfg, s, g, d + 1);
    k := |Order(cfg)| + 2 * d;
    PeriodMeans(ws, steps, cfg, s, g, d - 1);
    PeriodMeans(ws, steps, cfg, s, g, d);
    StampZero(s);
    StampOne(s);
    HeadTimes(cfg, s);
  }

  lemma PeriodMeans(ws: seq<World>, steps: seq<Step>, cfg: MuxConfig, s: int, g: int, x: nat)
    requires Period(ws, steps, cfg, s, g, x)
    ensures var o := |Order(cfg)| + 2 * x;
            && |ws| == |steps| + 1 && o + 2 < |ws| && steps[o] == PushAt(0, FRAME, 0, Stamp(s, x))
            && ws[o + 1].mux.batchIndex == 0 && ws[o + 2].mux.batchIndex == 0
            && ws[o + 1].mux.WellFormed() && NextDeadline(ws[o + 1].mux) == Some(HeadTime(cfg, s, x + 1) + cfg.timeoutUs * 1000)
            && ws[o + 2].mux.WellFormed() && NextDeadline(ws[o + 2].mux) == Some(HeadTime(cfg, s, x + 1) + cfg.timeoutUs * 1000)
  {
    hide Mux.WellFormed, NextDeadline, HeadTime, Stamp;
  }

  lemma HeadTimes(cfg: MuxConfig, s: int)
    requires cfg.queueDepth >= 1
    ensures HeadTime(cfg, s, cfg.queueDepth) == 0 && HeadTime(cfg, s, cfg.queueDepth + 1) == s
  {
  }

  /** Such muxes, with 40 ms timeout and a frame each 10 ms: a live one, which drops by
      default, beside a silent source, and one that is not live but told to drop. */
  lemma StallableExists()
    ensures Stallable(MuxConfig(4, 40_000, true, Legacy, false, false, 120.0, false, 1, false, map[], false, 0, false, false, 4, None, 2),
                      10_000_000, 5_000_000)
    ensures Stallable(MuxConfig(4, 40_000, false, Legacy, false, false, 120.0, false, 1, false, map[], false, 0, false, false, 4, Some(false), 2),
                      10_000_000, 5_000_000)
  {
  }
}
