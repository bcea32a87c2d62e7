/** What the sync filter can do, shown by runs of a mux with one pad. */
module MuxSyncRuns {
  import opened Shared
  import opened MuxTypes
  import opened MuxSpec
  import opened BatchSplit
  import opened SyncSplit
  import opened MuxRuns
  import opened PadLedger
  import opened MuxInvariant
  import opened MuxSafety
  import opened MuxBuild
  import opened MuxDrain
  import opened MuxFairness
  import opened MuxThrottle
  import opened MuxLiveness
  import opened MuxQuiet
  import opened MuxOnePad

  /** Two accepted frames, the later one with the earlier timestamp: at the first
      moment the filter works it drops the second frame from behind the first. */
  lemma LateInTheMiddle(cfg: MuxConfig) returns (ws: seq<World>, steps: seq<Step>)
    requires cfg.Valid() && cfg.syncInputs && cfg.maxLatency >= 0 && cfg.queueDepth >= 2
    ensures RunFrom(cfg, ws, steps) && steps == [ADDED, PushFrame(cfg.maxLatency + 1), PushFrame(0)]
    ensures ws[1].mux.WellFormed() && Push(ws[1].mux, 0, FrameAt(cfg.maxLatency + 1), 0, 0).1 == Returned(true)
    ensures ws[2].mux.WellFormed() && Push(ws[2].mux, 0, FrameAt(0), 0, 0).1 == Returned(true)
    ensures 0 in ws[3].mux.pads && |ws[3].mux.pads[0].queue| == 2
    ensures var m, p, now := ws[3].mux, ws[3].mux.pads[0], cfg.MinFpsDurOrZero();
            && SyncFilter(m, p, 2, now) == Screened([p.queue[0]], [p.queue[1]], 1)
            && !ThreeWay(WindowOf(m, p, now), p.queue, SyncFilter(m, p, 2, now))
  {
    hide StartsRun, Inv, Push, RunFrom;
    var first := cfg.maxLatency + 1;
    ws, steps := PadComes(cfg);
    ws, steps := FrameComes(cfg, FreshPad(cfg), first, ws, steps);
    ws, steps := FrameComes(cfg, Got(FreshPad(cfg), first), 0, ws, steps);
    StartsFrom(cfg, ws, steps);
    var m, p, now := ws[3].mux, ws[3].mux.pads[0], cfg.MinFpsDurOrZero();
    assert p.queue == [QueuedAt(first, 0), QueuedAt(0, 1)];
    var w := WindowOf(m, p, now);
    Falls(w, p.queue[0], p.queue[1]);
    FilterScans(m, p, now);
  }

  lemma Falls(w: Window, a: Queued, b: Queued)
    requires w.OnTime(a) && w.Late(b)
    ensures Scan(w, [a, b]) == Screened([a], [b], 1) && !ThreeWay(w, [a, b], Scan(w, [a, b]))
  {
    var q := [a, b];
    assert Class(w, q[0]) > Class(w, q[1]);
    ThreeWayExactly(w, q);
    ScanStep(w, q);
    assert q[1..] == [b];
    ScanStep(w, [b]);
    assert [b][1..] == [];
    hide ThreeWay;
  }

  // ---------------------------------------------------------------- an end that drain leaves behind

  /** At time 0 one frame does not make a batch of two. */
  lemma FirstWaits(m: Mux, p: Pad)
    requires Alone(m, p) && m.cfg.syncInputs && m.cfg.batchSize >= 2 && m.cfg.maxLatency >= 0
    requires p == Got(FreshPad(m.cfg), 0) && m.base == Some(0) && m.lastBatch == Some(0)
    ensures !Goes(Form(m, 0)) && Form(m, 0).pads == m.pads
  {
    FilterScans(m, p, 0);
    var w := WindowOf(m, p, 0);
    ScanStep(w, p.queue);
    assert p.queue[1..] == [];
    assert p.queue == [QueuedAt(0, 0)];
    var s := Screen(m, p, 0);
    assert s == Screened(p.queue, [], 1);
    OneForms(m, p, 0);
    hide Form, Screen;
  }

  lemma OnlyLate(m: Mux, p: Pad, now: int)
    requires Alone(m, p) && m.cfg.syncInputs && m.cfg.batchSize >= 1
    requires p == Got(FreshPad(m.cfg), 0).(eosPending := true) && m.base == Some(0)
    requires now > m.cfg.MinFpsDurOrZero() + m.cfg.maxLatency && m.cfg.maxLatency >= 0
    ensures var f := Form(m, now); f.picks == [] && f.late == [Pick(0, QueuedAt(0, 0))] && f.pads == map[0 := p.(queue := [], dropped := 1)]
  {
    FilterScans(m, p, now);
    var w := WindowOf(m, p, now);
    ScanStep(w, p.queue);
    assert p.queue[1..] == [];
    assert p.queue == [QueuedAt(0, 0)];
    var s := Screen(m, p, now);
    assert s == Screened([], p.queue, 0);
    OneForms(m, p, now);
    hide Form, Screen;
  }

  /** At time 0 the first frame is polled for: its events come out, and it waits. */
  lemma EventsComeOut(cfg: MuxConfig, ws: seq<World>, steps: seq<Step>) returns (ws': seq<World>, steps': seq<Step>)
    requires StartsRun(cfg, ws, steps) && |ws| == |steps| + 1 && OnePad(ws[|steps|], cfg, Got(FreshPad(cfg), 0))
    requires cfg.policy == New && cfg.syncInputs && !cfg.adaptive && cfg.batchSize >= 2 && cfg.maxLatency >= 0
    ensures StartsRun(cfg, ws', steps') && |ws'| == |steps'| + 1 && steps' == steps + [PollAt(0)]
    ensures OnePad(ws'[|steps'|], cfg, Got(FreshPad(cfg), 0)) && ws'[|steps'|].mux.pending == []
  {
    hide *;
    var w, p := ws[|steps|], Got(FreshPad(cfg), 0);
    GotStarted(FreshPad(cfg), 0);
    AloneIs(w, cfg, p);
    OnePadCfg(w, cfg, p);
    PollEnabled(w, 0);
    NextIsPoll(w, 0);
    ws', steps' := RunOn(cfg, ws, steps, PollAt(0));
    RunInv(cfg, ws', steps');
    EventsLeave(cfg, w, ws'[|steps'|]);
  }

  lemma EventsLeave(cfg: MuxConfig, w: World, w': World)
    requires OnePad(w, cfg, Got(FreshPad(cfg), 0)) && w.mux.WellFormed() && w' == NextPoll(w, 0) && Inv(w')
    requires cfg.policy == New && cfg.syncInputs && !cfg.adaptive && cfg.batchSize >= 2 && cfg.maxLatency >= 0
    ensures OnePad(w', cfg, Got(FreshPad(cfg), 0)) && w'.mux.pending == []
  {
    var p := Got(FreshPad(cfg), 0);
    var m := w.mux;
    var m0 := m.(pending := []);
    GotStarted(FreshPad(cfg), 0);
    AloneIs(w, cfg, p);
    FirstWaits(m, p);
    PendingAside(m, m0, 0);
    SilentPoll(m, p, 0);
    hide Form, Inv, Sound, Got, Poll;
  }

  lemma EndComes(cfg: MuxConfig, p: Pad, ws: seq<World>, steps: seq<Step>) returns (ws': seq<World>, steps': seq<Step>)
    requires StartsRun(cfg, ws, steps) && |ws| == |steps| + 1 && OnePad(ws[|steps|], cfg, p)
    requires !p.eos && !p.eosPending && p.blocked.None? && p.segmentStart.Some?
    ensures StartsRun(cfg, ws', steps') && |ws'| == |steps'| + 1 && steps' == steps + [End(0)]
    ensures OnePad(ws'[|steps'|], cfg, p.(eosPending := true)) && ws'[|steps'|].mux.pending == ws[|steps|].mux.pending
  {
    var w := ws[|steps|];
    assert Enabled(w, End(0));
    assert w.mux.pads[0 := p.(eosPending := true)] == map[0 := p.(eosPending := true)];
    InvBasics(w);
    hide StartsRun, Inv, Mux.WellFormed, Enabled;
    ws', steps' := RunOn(cfg, ws, steps, End(0));
    RunInv(cfg, ws', steps');
  }

  /** A frame comes, its events are polled, its producer ends. Later than the frame may
      wait, `drain` drops it, puts nothing out and stops; the end of the pad and of the
      stream, due at the same instant, come with the poll after it. */
  lemma DrainLeavesTheEnd(cfg: MuxConfig) returns (ws: seq<World>, steps: seq<Step>, late: int)
    requires cfg.Valid() && cfg.policy == New && cfg.syncInputs && !cfg.adaptive && cfg.batchSize >= 2 && cfg.maxLatency >= 0
    ensures RunFrom(cfg, ws, steps) && steps == [ADDED, PushFrame(0), PollAt(0), End(0)]
    ensures late >= ws[4].clock && Sound(ws[4].mux)
    ensures var d := Drain(ws[4].mux, _ => late, 0);
            && d.outs == [] && d.lost == [Pick(0, QueuedAt(0, 0))]
            && Sound(d.mux) && Poll(d.mux, late).outs == [Notice(StreamEos(0, 0)), Notice(Eos)]
  {
    hide *;
    ValidDepth(cfg);
    var p := Got(FreshPad(cfg), 0);
    FreshRoom(cfg);
    GotStarted(FreshPad(cfg), 0);
    GotFlags(cfg);
    ws, steps := PadComes(cfg);
    ws, steps := FrameComes(cfg, FreshPad(cfg), 0, ws, steps);
    ws, steps := EventsComeOut(cfg, ws, steps);
    ws, steps := EndComes(cfg, p, ws, steps);
    StartsFrom(cfg, ws, steps);
    late := cfg.MinFpsDurOrZero() + cfg.maxLatency + 1;
    LateDrain(cfg, ws[4], late);
  }

  lemma ValidDepth(cfg: MuxConfig)
    requires cfg.Valid()
    ensures cfg.queueDepth >= 1
  {
  }

  lemma LateDrain(cfg: MuxConfig, w: World, late: int)
    requires OnePad(w, cfg, Got(FreshPad(cfg), 0).(eosPending := true)) && w.mux.pending == []
    requires cfg.policy == New && cfg.syncInputs && !cfg.adaptive && cfg.batchSize >= 2 && cfg.maxLatency >= 0
    requires late == cfg.MinFpsDurOrZero() + cfg.maxLatency + 1
    ensures late >= w.clock && Sound(w.mux)
    ensures var d := Drain(w.mux, _ => late, 0);
            && d.outs == [] && d.lost == [Pick(0, QueuedAt(0, 0))]
            && Sound(d.mux) && Poll(d.mux, late).outs == [Notice(StreamEos(0, 0)), Notice(Eos)]
  {
    var p := Got(FreshPad(cfg), 0).(eosPending := true);
    var m := w.mux;
    assert m.(pending := []) == m;
    GotFlags(cfg);
    AloneIs(w, cfg, p);
    OnlyLate(m, p, late);
    assert cfg.MinFpsDurOrZero() >= 0;
    assert !Closing(p);
    SilentPoll(m, p, late);
    PollShrinks(m, late);
    hide Form, Inv, Sound, Got, Poll;
    ClosingPoll(Poll(m, late).mux, p.(queue := [], dropped := 1), late);
  }

  // ---------------------------------------------------------------- a batch that drain leaves behind

  /** Rate control and the sync filter together, one frame a batch. */
  predicate RatedAndSynced(cfg: MuxConfig) {
    && cfg.Valid() && cfg.policy == New && cfg.syncInputs && cfg.rateControl && !cfg.adaptive && !cfg.maxFpsControl
    && cfg.batchSize == 1 && cfg.maxSameSource >= 1 && cfg.timeoutUs <= 0 && cfg.queueDepth >= 2
    && 0 <= cfg.maxLatency < SOON
  }

  /** Between one and two periods of the 60 frames a second that a source may send. */
  const SOON: int := 20_000_000

  /** The first frame goes out at once. */
  lemma FirstGoes(m: Mux, p: Pad)
    requires RatedAndSynced(m.cfg) && Alone(m, p) && p == Got(FreshPad(m.cfg), 0) && m.base == Some(0) && m.lastBatch == Some(0)
    ensures Goes(Form(m, 0)) && Form(m, 0).pads == m.pads && Form(m, 0).picks == [Pick(0, QueuedAt(0, 0))]
  {
    FilterScans(m, p, 0);
    var w := WindowOf(m, p, 0);
    ScanStep(w, p.queue);
    assert p.queue[1..] == [];
    assert p.queue == [QueuedAt(0, 0)];
    assert p.queue[..1] == p.queue;
    var s := Screen(m, p, 0);
    assert s == Screened(p.queue, [], 1);
    OneForms(m, p, 0);
    hide Form, Screen;
  }

  /** A pad that sent its last frame at time 0 and has the frames `q`. */
  predicate Served(p: Pad, q: seq<Queued>) {
    && p.queue == q && p.lastPush == Some(0) && p.cfg == DEFAULT_SOURCE && p.segmentStart == Some(0)
    && !p.eos && !p.eosPending && p.blocked.None?
  }

  /** What the pad has got by then: a frame that is late and one that is on time. */
  function Behind(cfg: MuxConfig): Pad {
    Got(Got(TakeFrom(Got(FreshPad(cfg), 0), 1, 0), 0), SOON)
  }

  lemma BehindIs(cfg: MuxConfig)
    ensures Served(Behind(cfg), [QueuedAt(0, 1), QueuedAt(SOON, 2)])
  {
  }

  lemma OneAllowed(p: Pad)
    requires p.lastPush == Some(0) && p.cfg == DEFAULT_SOURCE
    ensures RateAllowance(p, SOON) == 1
  {
  }

  /** The filter when rate control lets it look at one frame. */
  lemma ScreensOne(m: Mux, p: Pad)
    requires RatedAndSynced(m.cfg) && m.base == Some(0) && Served(p, p.queue) && p.queue != []
    ensures var (x, s) := (p.queue[0], Screen(m, p, SOON));
            && (x.pts == 0 ==> s == Screened(p.queue[1..], [x], 0))
            && (x.pts == SOON ==> s == Screened([x] + p.queue[1..], [], 1))
  {
    OneAllowed(p);
    hide RateAllowance;
    assert m.cfg.MinFpsDurOrZero() == 0 && m.RunningTime(SOON) == SOON && -p.RunningTime(0) == 0;
    assert SyncScan(p.queue[1..], 0, 0, SOON, 0, m.cfg.maxLatency) == Screened(p.queue[1..], [], 0);
    assert Screen(m, p, SOON) == SyncScan(p.queue, 1, 0, SOON, 0, m.cfg.maxLatency);
  }

  /** Rate control lets the filter see the late frame only. */
  lemma SeesOnlyLate(m: Mux, p: Pad)
    requires RatedAndSynced(m.cfg) && Alone(m, p) && Served(p, [QueuedAt(0, 1), QueuedAt(SOON, 2)]) && m.base == Some(0)
    ensures var f := Form(m, SOON);
            !Goes(f) && f.late == [Pick(0, QueuedAt(0, 1))] && f.pads == map[0 := p.(queue := [QueuedAt(SOON, 2)], dropped := p.dropped + 1)]
  {
    ScreensOne(m, p);
    var s := Screen(m, p, SOON);
    assert p.queue[1..] == [QueuedAt(SOON, 2)];
    hide Screen;
    assert s.kept[..0] == [];
    OneForms(m, p, SOON);
    hide Form;
  }

  /** With that one gone it sees the other. */
  lemma SeesTheOther(m: Mux, p: Pad)
    requires RatedAndSynced(m.cfg) && Alone(m, p) && Served(p, [QueuedAt(SOON, 2)]) && m.base == Some(0)
    ensures Goes(Form(m, SOON)) && Form(m, SOON).picks == [Pick(0, QueuedAt(SOON, 2))]
  {
    ScreensOne(m, p);
    var s := Screen(m, p, SOON);
    assert p.queue[1..] == [];
    hide Screen;
    assert s.kept[..1] == p.queue;
    OneForms(m, p, SOON);
    hide Form;
  }

  /** With rate control as well `drain` can leave a frame that could go at the same instant. */
  lemma DrainLeavesABatch(cfg: MuxConfig) returns (ws: seq<World>, steps: seq<Step>)
    requires RatedAndSynced(cfg)
    ensures RunFrom(cfg, ws, steps) && steps == [ADDED, PushFrame(0), PollAt(0), PushFrame(0), PushFrame(SOON)]
    ensures SOON >= ws[5].clock && Sound(ws[5].mux)
    ensures var d := Drain(ws[5].mux, _ => SOON, 0);
            && d.outs == [] && d.lost == [Pick(0, QueuedAt(0, 1))] && !SomeClosing(d.mux)
            && Sound(d.mux) && Poll(d.mux, SOON).picks == [Pick(0, QueuedAt(SOON, 2))]
  {
    hide *;
    RatedDepth(cfg);
    FreshRoom(cfg);
    TakenRoom(cfg);
    ws, steps := PadComes(cfg);
    ws, steps := FrameComes(cfg, FreshPad(cfg), 0, ws, steps);
    ws, steps := FirstGoesOut(cfg, ws, steps);
    ws, steps := FrameComes(cfg, TakeFrom(Got(FreshPad(cfg), 0), 1, 0), 0, ws, steps);
    ws, steps := FrameComes(cfg, Got(TakeFrom(Got(FreshPad(cfg), 0), 1, 0), 0), SOON, ws, steps);
    StartsFrom(cfg, ws, steps);
    BehindShape(cfg);
    BehindDrain(cfg, ws[5]);
  }

  lemma BehindShape(cfg: MuxConfig)
    ensures Behind(cfg) == Got(Got(TakeFrom(Got(FreshPad(cfg), 0), 1, 0), 0), SOON)
  {
  }

  lemma RatedDepth(cfg: MuxConfig)
    requires RatedAndSynced(cfg)
    ensures cfg.Valid() && cfg.queueDepth >= 2
  {
  }

  lemma TakenRoom(cfg: MuxConfig)
    ensures var p := TakeFrom(Got(FreshPad(cfg), 0), 1, 0);
            && p.queue == [] && !Refuses(p) && p.blocked.None? && p.segmentSent
            && |Got(p, 0).queue| == 1 && !Refuses(Got(p, 0)) && Got(p, 0).blocked.None? && Got(p, 0).segmentSent
  {
  }

  lemma FirstGoesOut(cfg: MuxConfig, ws: seq<World>, steps: seq<Step>) returns (ws': seq<World>, steps': seq<Step>)
    requires StartsRun(cfg, ws, steps) && |ws| == |steps| + 1 && OnePad(ws[|steps|], cfg, Got(FreshPad(cfg), 0))
    requires RatedAndSynced(cfg)
    ensures StartsRun(cfg, ws', steps') && |ws'| == |steps'| + 1 && steps' == steps + [PollAt(0)]
    ensures OnePad(ws'[|steps'|], cfg, TakeFrom(Got(FreshPad(cfg), 0), 1, 0)) && ws'[|steps'|].mux.pending == []
  {
    hide *;
    var w, p := ws[|steps|], Got(FreshPad(cfg), 0);
    RatedIsNew(cfg);
    AloneIs(w, cfg, p);
    OnePadCfg(w, cfg, p);
    PollEnabled(w, 0);
    NextIsPoll(w, 0);
    ws', steps' := RunOn(cfg, ws, steps, PollAt(0));
    RunInv(cfg, ws', steps');
    FirstLeaves(cfg, w, ws'[|steps'|]);
  }

  lemma RatedIsNew(cfg: MuxConfig)
    requires RatedAndSynced(cfg)
    ensures cfg.policy == New && !cfg.adaptive
  {
  }

  lemma FirstLeaves(cfg: MuxConfig, w: World, w': World)
    requires OnePad(w, cfg, Got(FreshPad(cfg), 0)) && w.mux.WellFormed() && w' == NextPoll(w, 0) && Inv(w') && RatedAndSynced(cfg)
    ensures OnePad(w', cfg, TakeFrom(Got(FreshPad(cfg), 0), 1, 0)) && w'.mux.pending == []
  {
    var p := Got(FreshPad(cfg), 0);
    GotStarted(FreshPad(cfg), 0);
    GotFlags(cfg);
    AloneIs(w, cfg, p);
    FirstGoes(w.mux, p);
    BatchTaken(w.mux, p, 0, QueuedAt(0, 0));
    assert TakeFrom(p, 1, 0).segmentStart == p.segmentStart;
    hide Form, Inv, Sound, Got, Poll, TakeFrom, RatedAndSynced;
  }

  lemma BehindDrain(cfg: MuxConfig, w: World)
    requires OnePad(w, cfg, Behind(cfg)) && w.mux.pending == [] && RatedAndSynced(cfg)
    ensures SOON >= w.clock && Sound(w.mux)
    ensures var d := Drain(w.mux, _ => SOON, 0);
            && d.outs == [] && d.lost == [Pick(0, QueuedAt(0, 1))] && !SomeClosing(d.mux)
            && Sound(d.mux) && Poll(d.mux, SOON).picks == [Pick(0, QueuedAt(SOON, 2))]
  {
    BehindIs(cfg);
    hide Behind, Inv, Poll, PollBody, Sound, Drain;
    AloneIs(w, cfg, Behind(cfg));
    OnePadCfg(w, cfg, Behind(cfg));
    ServedDrain(w.mux, Behind(cfg));
  }

  lemma ServedDrain(m: Mux, p: Pad)
    requires RatedAndSynced(m.cfg) && Alone(m, p) && Served(p, [QueuedAt(0, 1), QueuedAt(SOON, 2)])
    requires m.base == Some(0) && m.pending == []
    ensures var d := Drain(m, _ => SOON, 0);
            && d.outs == [] && d.lost == [Pick(0, QueuedAt(0, 1))] && !SomeClosing(d.mux)
            && Sound(d.mux) && Poll(d.mux, SOON).picks == [Pick(0, QueuedAt(SOON, 2))]
  {
    var e := Poll(m, SOON);
    ServedOnce(m, p, e);
    PollShrinks(m, SOON);
    var q := p.(queue := [QueuedAt(SOON, 2)], dropped := p.dropped + 1);
    hide Form, Sound, Poll, RatedAndSynced;
    SeesTheOther(e.mux, q);
    BatchPoll(e.mux, q, SOON);
  }

  lemma ServedOnce(m: Mux, p: Pad, e: Effect)
    requires RatedAndSynced(m.cfg) && Alone(m, p) && Served(p, [QueuedAt(0, 1), QueuedAt(SOON, 2)])
    requires m.base == Some(0) && m.pending == [] && AllIn(m.order, m.pads) && m.cfg.overallMaxFps > 0.0
    requires e == Poll(m, SOON)
    ensures e.outs == [] && e.lost == [Pick(0, QueuedAt(0, 1))] && e.mux.cfg == m.cfg && e.mux.base == m.base
    ensures Alone(e.mux, p.(queue := [QueuedAt(SOON, 2)], dropped := p.dropped + 1))
  {
    SeesOnlyLate(m, p);
    SilentPoll(m, p, SOON);
    PollShrinks(m, SOON);
    assert m.(pending := []) == m;
    hide Form, Sound, Poll, RatedAndSynced;
  }
}
