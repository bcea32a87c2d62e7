/** Runs of a mux with one pad, built step by step at time 0, and what its polls do. */
module MuxOnePad {
  import opened Shared
  import opened MuxTypes
  import opened MuxSpec
  import opened BatchSplit
  import opened MuxRuns
  import opened PadLedger
  import opened MuxInvariant
  import opened MuxSafety
  import opened MuxBuild
  import opened MuxDrain
  import opened MuxFairness
  import opened MuxThrottle
  import opened MuxLiveness
  import opened MuxQuiet

  const ADDED := Add(0, None, Some(DEFAULT_SOURCE))

  function FrameAt(pts: int): Arrival { Arrival(0, pts, 1, 1, 0) }

  function QueuedAt(pts: int, seqNum: nat): Queued { Queued(0, pts, 1, 1, 0, 0, seqNum) }

  function PushFrame(pts: int): Step { PushAt(0, FrameAt(pts), 0, 0) }

  /** A pad that got a frame at time 0, of a duration if one was given. */
  function GotFor(p: Pad, pts: int, duration: int): Pad { Append(RecordPad(p, pts, duration), FrameAt(pts), 0) }

  function Got(p: Pad, pts: int): Pad { GotFor(p, pts, 0) }

  function FreshPad(cfg: MuxConfig): Pad { NewPad(cfg, 0, None, Some(DEFAULT_SOURCE)) }

  /** At time 0 the mux has the one pad `p`, which may have got frames. */
  ghost predicate OnePad(w: World, cfg: MuxConfig, p: Pad) {
    && Inv(w) && w.mux.cfg == cfg && w.clock == 0 && w.mux.order == [0] && w.mux.pads == map[0 := p] && !w.mux.eosSent
    && if p.segmentStart.None? then w.mux.base.None? && w.mux.firstPush.None?
       else w.mux.base == Some(0) && w.mux.firstPush == Some(0) && w.mux.lastBatch == Some(0)
  }

  lemma PadComes(cfg: MuxConfig) returns (ws: seq<World>, steps: seq<Step>)
    requires cfg.Valid()
    ensures StartsRun(cfg, ws, steps) && |ws| == 2 && steps == [ADDED] && OnePad(ws[1], cfg, FreshPad(cfg))
    ensures ws[1].mux.batchIndex == 0 && ws[1].mux.firstDuration == 0
  {
    EmptyRun(cfg);
    ws, steps := [NewWorld(cfg, 0)], [];
    AddEnabled(ws[0], 0);
    NewWorldOk(cfg, 0);
    AddedPad(ws[0], 0);
    assert ws[0].clock == 0 && ws[0].mux.order == [] && ws[0].mux.pads == map[] && ws[0].mux.cfg == cfg;
    assert ws[0].mux.base.None? && ws[0].mux.firstPush.None? && ws[0].mux.batchIndex == 0 && ws[0].mux.firstDuration == 0;
    assert !FreshPad(cfg).eos && FreshPad(cfg).segmentStart.None?;
    hide StartsRun, Inv, Next, NewWorld, NewPad;
    ws, steps := RunOn(cfg, ws, steps, ADDED);
    RunInv(cfg, ws, steps);
    NotEnded(ws[1]);
  }

  lemma NotEnded(w: World)
    requires Inv(w) && 0 in w.mux.pads && !w.mux.pads[0].eos
    ensures !w.mux.eosSent
  {
    hide PadsOk;
  }

  lemma FrameComesFor(cfg: MuxConfig, p: Pad, pts: int, duration: int, ws: seq<World>, steps: seq<Step>)
    returns (ws': seq<World>, steps': seq<Step>)
    requires StartsRun(cfg, ws, steps) && |ws| == |steps| + 1 && OnePad(ws[|steps|], cfg, p)
    requires |p.queue| < cfg.queueDepth && !Refuses(p) && p.blocked.None?
    ensures ws[|steps|].mux.WellFormed() && Push(ws[|steps|].mux, 0, FrameAt(pts), duration, 0).1 == Returned(true)
    ensures StartsRun(cfg, ws', steps') && |ws'| == |steps'| + 1 && ws <= ws'
    ensures steps' == steps + [PushAt(0, FrameAt(pts), duration, 0)]
    ensures var (m, m') := (ws[|steps|].mux, ws'[|steps'|].mux);
            && OnePad(ws'[|steps'|], cfg, GotFor(p, pts, duration)) && (p.segmentSent ==> m'.pending == m.pending)
            && m'.batchIndex == m.batchIndex && m'.firstDuration == m.firstDuration
  {
    var w := ws[|steps|];
    PushedPad(w, 0, FrameAt(pts), duration);
    assert GotFor(p, pts, duration).segmentStart.Some? && (p.segmentStart.Some? ==> w.mux.firstPush.Some?);
    hide StartsRun, Inv, Next, Enabled, Push, GotFor;
    ws', steps' := RunOn(cfg, ws, steps, PushAt(0, FrameAt(pts), duration, 0));
    RunInv(cfg, ws', steps');
  }

  lemma FrameComes(cfg: MuxConfig, p: Pad, pts: int, ws: seq<World>, steps: seq<Step>)
    returns (ws': seq<World>, steps': seq<Step>)
    requires StartsRun(cfg, ws, steps) && |ws| == |steps| + 1 && OnePad(ws[|steps|], cfg, p)
    requires |p.queue| < cfg.queueDepth && !Refuses(p) && p.blocked.None?
    ensures ws[|steps|].mux.WellFormed() && Push(ws[|steps|].mux, 0, FrameAt(pts), 0, 0).1 == Returned(true)
    ensures StartsRun(cfg, ws', steps') && |ws'| == |steps'| + 1 && steps' == steps + [PushFrame(pts)] && ws <= ws'
    ensures OnePad(ws'[|steps'|], cfg, Got(p, pts)) && (p.segmentSent ==> ws'[|steps'|].mux.pending == ws[|steps|].mux.pending)
  {
    hide StartsRun, OnePad, Push;
    ws', steps' := FrameComesFor(cfg, p, pts, 0, ws, steps);
  }

  lemma AloneIs(w: World, cfg: MuxConfig, p: Pad)
    requires OnePad(w, cfg, p) && cfg.policy == New && !cfg.adaptive
    ensures w.mux.WellFormed() && w.hist.Keys == w.mux.pads.Keys && Alone(w.mux, p) && w.clock == 0
    ensures p.segmentStart.Some? ==> w.mux.base == Some(0) && w.mux.lastBatch == Some(0)
  {
    InvIsSound(w);
    InvBasics(w);
    hide Inv, Sound;
  }

  lemma GotStarted(p: Pad, pts: int)
    ensures Got(p, pts).segmentStart.Some?
    ensures !p.eosPending && !p.eos ==> !Closing(Got(p, pts)) && !Got(p, pts).eos && !Refuses(Got(p, pts))
  {
  }

  lemma OnePadCfg(w: World, cfg: MuxConfig, p: Pad)
    requires OnePad(w, cfg, p)
    ensures w.mux.cfg == cfg && Inv(w)
  {
  }

  lemma FreshRoom(cfg: MuxConfig)
    ensures FreshPad(cfg).queue == [] && !Refuses(FreshPad(cfg)) && FreshPad(cfg).blocked.None?
    ensures !FreshPad(cfg).eosPending && !FreshPad(cfg).eos
  {
  }

  lemma GotFlags(cfg: MuxConfig)
    ensures var p := Got(FreshPad(cfg), 0); !p.eos && !p.eosPending && p.blocked.None? && p.index == 0 && p.sourceId == 0
  {
  }

  // ---------------------------------------------------------------- polls of one pad

  ghost predicate Alone(m: Mux, p: Pad) {
    Sound(m) && m.order == [0] && m.pads == map[0 := p] && m.cfg.policy == New && !m.cfg.adaptive && !m.eosSent
  }

  lemma OneRound(m: Mux, p: Pad)
    requires Alone(m, p)
    ensures Round(m) == [Entry(0, 0, 0)]
  {
    assert Priorities(m.pads, [0]) == [p.cfg.priority] by {
      assert [0][..0] == [];
    }
    assert Group(m.pads, [0], p.cfg.priority) == [0] by {
      assert [0][..0] == [];
    }
    assert Groups(m) == [[0]];
    assert RoundEntries([[0]], 0, 0, 1) == [];
    assert GroupEntries([0], 0, 0) == [Entry(0, 0, 0)];
    assert RoundEntries([[0]], 0, 0, 0) == [Entry(0, 0, 0)] + [];
  }

  /** Forming a batch from one pad. */
  lemma OneForms(m: Mux, p: Pad, now: int)
    requires Alone(m, p) && !p.Done() && m.cfg.batchSize >= 1
    ensures var (s, f) := (Screen(m, p, now), Form(m, now));
            var n := Min(Min(s.onTime, AllowedRepeats(m.cfg, p, m.cfg.batchSize)), m.cfg.batchSize);
            && f.pads == map[0 := Thin(p, s)] && f.late == Tagged(0, s.late)
            && f.picks == Tagged(0, s.kept[..Max(0, Min(n, |s.kept|))])
            && (Goes(f) <==> f.picks != [] && (|f.picks| >= m.cfg.batchSize || IsDue(m, now)) && !HeldBack(m, now))
  {
    OneRound(m, p);
    var bs := m.cfg.batchSize;
    assert NewBatchSize(m) == bs;
    VisitPicks(m, Blank(m), 0, now, bs);
    var g := Visit(m, Blank(m), 0, now, bs);
    assert g.late == [] + Tagged(0, Screen(m, p, now).late);
    hide Visit, Screen, Round, Form, Tagged;
    OneGoes(m, p, now, g);
  }

  lemma OneGoes(m: Mux, p: Pad, now: int, g: Forming)
    requires Alone(m, p) && m.cfg.batchSize >= 1 && Round(m) == [Entry(0, 0, 0)] && NewBatchSize(m) == m.cfg.batchSize
    requires g == Visit(m, Blank(m), 0, now, m.cfg.batchSize)
    ensures var f := Form(m, now);
            && f.pads == g.pads && f.late == g.late && f.picks == g.picks
            && (Goes(f) <==> f.picks != [] && (|f.picks| >= m.cfg.batchSize || IsDue(m, now)) && !HeldBack(m, now))
  {
    assert m.pads != map[];
    assert [Entry(0, 0, 0)][1..] == [];
    hide Visit, Screen, Round, MuxConfig.MaxFpsDur, Tagged, Sound;
  }

  /** A poll in which no pad ends and no batch goes. */
  lemma SilentPoll(m: Mux, p: Pad, now: int)
    requires Alone(m, p) && !p.eos && !Closing(p) && !Goes(Form(m, now))
    ensures Poll(m, now).outs == Notices(m.pending)
    ensures Poll(m, now).mux == Formed(m.(pending := []), Form(m.(pending := []), now))
    ensures Poll(m, now).lost == Form(m, now).late
  {
    var m0 := m.(pending := []);
    PendingAside(m, m0, now);
    hide Form, Sound;
    assert !SomeClosing(m0);
    assert 0 in m0.pads && !m0.pads[0].eos;
    SoundFlushed(m, m0);
    NothingGoes(m0, now);
    QuietForms(m0, now);
    hide PollBody, SomeClosing;
    PollFlushes(m, m0, now);
  }

  lemma PendingAside(m: Mux, m0: Mux, now: int)
    requires Sound(m) && m0 == m.(pending := []) && m.cfg.policy == New
    ensures Form(m0, now) == Form(m, now)
  {
    assert Round(m0) == Round(m);
    FillPending(m, m0, Blank(m), Round(m), now, NewBatchSize(m));
    hide Fill, Round, MuxConfig.MaxFpsDur, Sound;
  }

  lemma {:induction false} FillPending(m: Mux, m0: Mux, f: Forming, entries: seq<Entry>, now: int, bs: int)
    requires m0 == m.(pending := []) && EntriesIn(entries, f.pads) && PicksIn(f.pads, f.picks)
    ensures Fill(m0, f, entries, now, bs) == Fill(m, f, entries, now, bs)
    decreases |entries|
  {
    if entries != [] {
      assert Screen(m0, f.pads[entries[0].pad], now) == Screen(m, f.pads[entries[0].pad], now);
      hide Screen;
      var g := Visit(m, f, entries[0].pad, now, bs);
      if |g.picks| < bs {
        FillPending(m, m0, g, entries[1..], now, bs);
      }
    }
  }

  /** The poll that closes the only pad ends the stream. */
  lemma ClosingPoll(m: Mux, p: Pad, now: int)
    requires Alone(m, p) && m.pending == [] && Closing(p)
    ensures Poll(m, now).outs == [Notice(StreamEos(p.index, p.sourceId)), Notice(Eos)]
  {
    assert m.(pending := []) == m;
    assert EosNotices(m.pads, m.order) == [StreamEos(p.index, p.sourceId)] by {
      assert [0][..0] == [];
      assert EosNotices(m.pads, [0]) == EosNotices(m.pads, []) + [StreamEos(p.index, p.sourceId)];
    }
    var c := ClosePad(m.cfg, p);
    var m1 := EosStage(m).mux;
    assert m1.pads == map[0 := c];
    EosStageSound(m);
    OneDone(m1, c, now);
    var e := BatchStage(m1, now);
    assert e.outs == [] && e.picks == [] && e.mux.pads == m1.pads && !e.mux.eosSent by {
      hide Form;
    }
    hide BatchStage, EosStage, ClosePad;
    assert EndStage(e.mux).outs == [Notice(Eos)];
  }

  lemma OneDone(m: Mux, p: Pad, now: int)
    requires Alone(m, p) && p.Done()
    ensures Form(m, now).picks == [] && Form(m, now).pads == m.pads
  {
    OneRound(m, p);
    assert [Entry(0, 0, 0)][1..] == [];
    hide Round;
    assert m.pads[0 := p] == m.pads;
  }

  /** A poll whose batch goes, of a pad that is not at its end. */
  lemma BatchPoll(m: Mux, p: Pad, now: int)
    requires Alone(m, p) && !p.eos && !p.eosPending && Goes(Form(m, now))
    ensures Poll(m, now).picks == Form(m, now).picks
  {
    var m0 := m.(pending := []);
    PendingAside(m, m0, now);
    SoundFlushed(m, m0);
    hide Form, Sound;
    assert !SomeClosing(m0);
    NothingCloses(m0);
    hide SomeClosing, EosStage, EndStage, EmitMux, EmitBatch;
  }

  lemma OneDuration(m: Mux, p: Pad)
    requires m.order == [0] && m.pads == map[0 := p]
    ensures FrameDuration(m) == if m.firstDuration != 0 then m.firstDuration else p.frameDuration
  {
    assert [0][1..] == [];
  }

  lemma OneEmitted(m: Mux, p: Pad, now: int, f: Forming, q: Queued)
    requires m.order == [0] && m.pads == map[0 := p] && f.picks == [Pick(0, q)] && f.pads == m.pads
    ensures var m1 := Formed(m, f);
            && AllIn(m1.order, m1.pads) && PicksIn(m1.pads, f.picks)
            && var m2 := EmitMux(m1, f.picks, now);
            && m2.order == [0] && m2.pads == map[0 := TakeFrom(p, 1, now)] && m2.cfg == m.cfg && m2.pending == m.pending
            && m2.eosSent == m.eosSent && m2.base == m.base && m2.firstPush == m.firstPush && m2.lastBatch == Some(now)
            && m2.batchIndex == m.batchIndex + 1
            && m2.firstDuration == if !CountsBatches(m.cfg) || m.firstDuration != 0 then m.firstDuration else p.frameDuration
  {
    assert [Pick(0, q)][..0] == [];
    assert On([Pick(0, q)], 0) == [q];
    OneDuration(Formed(m, f), p);
    hide On, OutputPts, FrameDuration, TakeFrom;
    var m2 := EmitMux(Formed(m, f), f.picks, now);
    assert m2.pads.Keys == {0} && m2.pads[0] == TakeFrom(p, 1, now);
  }

  /** ... and what it leaves of the pad. */
  lemma BatchTaken(m: Mux, p: Pad, now: int, q: Queued)
    requires Alone(m, p) && !p.eos && !p.eosPending && Goes(Form(m, now))
    requires Form(m, now).picks == [Pick(0, q)] && Form(m, now).pads == m.pads
    ensures var m' := Poll(m, now).mux;
            && m'.order == [0] && m'.pads == map[0 := TakeFrom(p, 1, now)] && m'.cfg == m.cfg && m'.pending == []
            && !m'.eosSent && m'.base == m.base && m'.firstPush == m.firstPush && m'.lastBatch == Some(now)
            && m'.batchIndex == m.batchIndex + 1
            && m'.firstDuration == if !CountsBatches(m.cfg) || m.firstDuration != 0 then m.firstDuration else p.frameDuration
  {
    var m0 := m.(pending := []);
    PendingAside(m, m0, now);
    SoundFlushed(m, m0);
    var f := Form(m, now);
    OneEmitted(m0, p, now, f, q);
    StillOpen(p, now);
    hide Form, On, Sound, EmitBatch, EmitMux, TakeFrom;
    assert !SomeClosing(m0);
    NothingCloses(m0);
    var m2 := EmitMux(Formed(m0, f), f.picks, now);
    NothingEnds(m2);
    hide EosStage, SomeClosing;
    assert 0 in m2.pads && !m2.pads[0].eos;
  }

  lemma StillOpen(p: Pad, now: int)
    requires !p.eos && !p.eosPending
    ensures !TakeFrom(p, 1, now).eos && !Closing(TakeFrom(p, 1, now))
  {
  }

  lemma NothingEnds(m: Mux)
    requires m.order == [0] && m.pads.Keys == {0} && !Closing(m.pads[0])
    ensures EosStage(m) == Effect(m, [], [], [])
  {
    NoNotices(m.pads, m.order);
    assert ForwardEos(m).pads == m.pads;
  }
}
