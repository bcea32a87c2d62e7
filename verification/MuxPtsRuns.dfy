/** A run on which the output timestamps fall back. */
module MuxPtsRuns {
  import opened Shared
  import opened MuxTypes
  import opened MuxSpec
  import opened BatchSplit
  import opened MuxRuns
  import opened PadLedger
  import opened MuxInvariant
  import opened MuxSafety
  import opened MuxBuild
  import opened MuxDrain
  import opened MuxFairness
  import opened MuxQuiet
  import opened MuxOnePad
  import opened MuxPts

  /** Batches of one frame, sent at once. */
  predicate OneAtOnce(cfg: MuxConfig) {
    && cfg.Valid() && cfg.policy == New && !cfg.syncInputs && !cfg.adaptive && !cfg.rateControl && !cfg.maxFpsControl
    && cfg.batchSize == 1 && cfg.maxSameSource >= 1
  }

  /** The pad after one frame came, all at timestamp 0, and went. */
  function Passed(p: Pad, duration: int): Pad { TakeFrom(GotFor(p, 0, duration), 1, 0) }

  /** A pad with nothing queued that taught no duration but `d`. */
  predicate Idle(p: Pad, d: int) {
    && p.queue == [] && !p.eos && !p.eosPending && p.blocked.None? && p.frameDuration == d
    && (p.lastPts == None || p.lastPts == Some(0))
  }

  lemma PassedIdle(p: Pad, d: int, duration: int)
    requires Idle(p, d)
    ensures var q := GotFor(p, 0, duration);
            && q.queue == [QueuedAt(0, p.received)] && !q.eos && !q.eosPending && q.segmentStart.Some?
            && q.frameDuration == if duration != 0 then duration else d
    ensures Idle(Passed(p, duration), if duration != 0 then duration else d) && Passed(p, duration).segmentStart.Some?
  {
  }

  /** The frame goes out at once. */
  lemma OneGoesOut(m: Mux, p: Pad)
    requires OneAtOnce(m.cfg) && Alone(m, p) && |p.queue| == 1 && !p.eos && !p.eosPending
    ensures Goes(Form(m, 0)) && Form(m, 0).pads == m.pads && Form(m, 0).picks == [Pick(0, p.queue[0])]
  {
    var s := Screen(m, p, 0);
    assert s == Screened(p.queue, [], 1);
    assert Thin(p, s) == p && p.queue[..1] == p.queue;
    OneForms(m, p, 0);
    hide Form, Screen;
  }

  lemma PollTakesIt(cfg: MuxConfig, p: Pad, w: World, w': World)
    requires OneAtOnce(cfg) && OnePad(w, cfg, p) && p.segmentStart.Some? && |p.queue| == 1 && !p.eos && !p.eosPending
    requires w.mux.WellFormed() && w' == NextPoll(w, 0) && Inv(w')
    ensures OnePad(w', cfg, TakeFrom(p, 1, 0)) && w'.mux.batchIndex == w.mux.batchIndex + 1
    ensures w'.mux.firstDuration == if w.mux.firstDuration != 0 then w.mux.firstDuration else p.frameDuration
  {
    AloneIs(w, cfg, p);
    OneGoesOut(w.mux, p);
    BatchTaken(w.mux, p, 0, p.queue[0]);
    assert TakeFrom(p, 1, 0).segmentStart == p.segmentStart;
    hide Form, Inv, Sound, Poll, TakeFrom;
  }

  /** A push and the poll that sends the frame. */
  lemma FrameGoes(cfg: MuxConfig, p: Pad, d: int, duration: int, ws: seq<World>, steps: seq<Step>)
    returns (ws': seq<World>, steps': seq<Step>)
    requires OneAtOnce(cfg) && StartsRun(cfg, ws, steps) && |ws| == |steps| + 1 && OnePad(ws[|steps|], cfg, p) && Idle(p, d)
    ensures StartsRun(cfg, ws', steps') && |ws'| == |steps'| + 1 && ws <= ws'
    ensures steps' == steps + [PushAt(0, FrameAt(0), duration, 0), PollAt(0)]
    ensures var (m, m', d') := (ws[|steps|].mux, ws'[|steps'|].mux, if duration != 0 then duration else d);
            && OnePad(ws'[|steps'|], cfg, Passed(p, duration)) && Idle(Passed(p, duration), d')
            && m'.batchIndex == m.batchIndex + 1
            && m'.firstDuration == if m.firstDuration != 0 then m.firstDuration else d'
  {
    hide *;
    IdleRoom(cfg, p, d);
    PassedIdle(p, d, duration);
    var q := GotFor(p, 0, duration);
    var ws1, steps1 := FrameComesFor(cfg, p, 0, duration, ws, steps);
    var w := ws1[|steps1|];
    OneAtOnceIsNew(cfg);
    AloneIs(w, cfg, q);
    OnePadCfg(w, cfg, q);
    PollEnabled(w, 0);
    NextIsPoll(w, 0);
    ws', steps' := RunOn(cfg, ws1, steps1, PollAt(0));
    RunInv(cfg, ws', steps');
    PollTakesIt(cfg, q, w, ws'[|steps'|]);
    PassedIs(p, duration);
  }

  lemma PassedIs(p: Pad, duration: int)
    ensures Passed(p, duration) == TakeFrom(GotFor(p, 0, duration), 1, 0)
  {
  }

  lemma OneAtOnceIsNew(cfg: MuxConfig)
    requires OneAtOnce(cfg)
    ensures cfg.policy == New && !cfg.adaptive && cfg.Valid() && CountsBatches(cfg)
  {
  }

  lemma IdleRoom(cfg: MuxConfig, p: Pad, d: int)
    requires OneAtOnce(cfg) && Idle(p, d)
    ensures |p.queue| < cfg.queueDepth && !Refuses(p) && p.blocked.None?
  {
  }

  const SHORT: int := 125_000

  function ShortSteps(): seq<Step> {
    [ADDED, PushFrame(0), PollAt(0), PushFrame(0), PollAt(0), PushAt(0, FrameAt(0), SHORT, 0), PollAt(0), PushFrame(0), PollAt(0)]
  }

  lemma ShortAre()
    ensures SHORT == 125_000 && |ShortSteps()| == 9
    ensures ShortSteps() == [ADDED] + [PushAt(0, FrameAt(0), 0, 0), PollAt(0)] + [PushAt(0, FrameAt(0), 0, 0), PollAt(0)]
                            + [PushAt(0, FrameAt(0), SHORT, 0), PollAt(0)] + [PushAt(0, FrameAt(0), 0, 0), PollAt(0)]
  {
  }

  lemma ShortRun(cfg: MuxConfig) returns (ws: seq<World>, steps: seq<Step>)
    requires OneAtOnce(cfg)
    ensures StartsRun(cfg, ws, steps) && steps == ShortSteps() && |ws| == 10
    ensures ws[5].mux.batchIndex == 2 && ws[5].mux.firstDuration == 0
    ensures ws[7].mux.batchIndex == 3 && ws[7].mux.firstDuration == SHORT
    ensures ws[9].mux.batchIndex == 4 && ws[9].mux.firstDuration == SHORT && PtsOffset(ws[9].mux) == 0
  {
    hide *;
    ShortAre();
    OneAtOnceIsNew(cfg);
    FreshIdle(cfg);
    var p := FreshPad(cfg);
    ws, steps := PadComes(cfg);
    ws, steps := FrameGoes(cfg, p, 0, 0, ws, steps);
    p := Passed(p, 0);
    ws, steps := FrameGoes(cfg, p, 0, 0, ws, steps);
    p := Passed(p, 0);
    ws, steps := FrameGoes(cfg, p, 0, SHORT, ws, steps);
    p := Passed(p, SHORT);
    ws, steps := FrameGoes(cfg, p, SHORT, 0, ws, steps);
    PassedIdle(Passed(Passed(Passed(FreshPad(cfg), 0), 0), SHORT), SHORT, 0);
    NoOffset(ws[9], cfg, Passed(p, 0));
  }

  lemma FreshIdle(cfg: MuxConfig)
    ensures Idle(FreshPad(cfg), 0)
  {
  }

  lemma NoOffset(w: World, cfg: MuxConfig, p: Pad)
    requires OnePad(w, cfg, p) && p.segmentStart.Some?
    ensures PtsOffset(w.mux) == 0
  {
  }

  lemma NeverStarted(ws: seq<World>, steps: seq<Step>)
    requires |ws| == |steps| + 1 && steps == ShortSteps()
    ensures forall j :: 0 <= j < |steps| ==> StartsEarly(ws[j], steps[j])
  {
  }

  /** A frame duration of 125000 that comes with the third frame: batch 2 goes out at
      500000, off its count because of the bump, and batch 3 at 375000, before it. */
  lemma TimestampsFallBack(cfg: MuxConfig) returns (ws: seq<World>, steps: seq<Step>, a: nat, b: nat)
    requires OneAtOnce(cfg)
    ensures RunFrom(cfg, ws, steps) && steps == ShortSteps() && |ws| == 10
    ensures BatchAt(ws[9].trace, a, 2) && ws[9].trace[a].batch.pts == 500_000
    ensures BatchAt(ws[9].trace, b, 3) && ws[9].trace[b].batch.pts == 375_000
  {
    hide *;
    ShortAre();
    OneAtOnceIsNew(cfg);
    ws, steps := ShortRun(cfg);
    StartsFrom(cfg, ws, steps);
    NeverStarted(ws, steps);
    var n0 := TimestampsExactly(cfg, ws, steps, 9);
    assert n0 < ws[7].mux.batchIndex && ws[5].mux.batchIndex <= n0;
    assert n0 == 2;
    CollisionFallsBack(0);
    a := TimedAt(ws[9].trace, ws[9].mux, 2, 2);
    b := TimedAt(ws[9].trace, ws[9].mux, 2, 3);
  }

  lemma TimedAt(trace: seq<Output>, m: Mux, n0: nat, n: nat) returns (k: nat)
    requires Timed(trace, m, n0) && n < m.batchIndex
    ensures BatchAt(trace, k, n) && trace[k].batch.pts == PtsOf(PtsOffset(m), m.firstDuration, n0, n)
  {
    assert HasBatch(trace, n);
    k :| BatchAt(trace, k, n);
  }
}
