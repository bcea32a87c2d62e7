/** The timestamps of batches in live and in sync mode. */
module MuxModes {
  import opened Shared
  import opened MuxTypes
  import opened MuxSpec
  import opened BatchSplit
  import opened LegacyBatch
  import opened MuxRuns
  import opened PadLedger
  import opened MuxInvariant
  import opened MuxSafety
  import opened MuxDrain
  import opened MuxFairness
  import opened MuxLiveness
  import opened MuxQuiet
  import opened MuxBatches

  // ---------------------------------------------------------------- what polls leave of a pad

  /** All that push_frame and add_pad set, and polls only read. */
  ghost predicate SameSource(p: Pad, p': Pad) {
    && p'.index == p.index && p'.sourceId == p.sourceId && p'.cfg == p.cfg && p'.depth == p.depth
    && p'.segmentStart == p.segmentStart && p'.segmentSent == p.segmentSent && p'.lastPts == p.lastPts
    && p'.frameDuration == p.frameDuration && p'.blocked == p.blocked
  }

  ghost predicate SameSources(m: Mux, m': Mux) {
    m'.pads.Keys == m.pads.Keys && forall i :: i in m.pads ==> SameSource(m.pads[i], m'.pads[i])
  }

  lemma EosSameSources(m: Mux)
    requires AllIn(m.order, m.pads)
    ensures SameSources(m, EosStage(m).mux)
  {
    hide EosNotices;
  }

  lemma FormedSameSources(m: Mux, now: int)
    requires Sound(m)
    ensures SameSources(m, Formed(m, Form(m, now)))
  {
    FormedFlags(m, now);
    hide Form, Sound;
    var m' := Formed(m, Form(m, now));
    forall i | i in m.pads ensures SameSource(m.pads[i], m'.pads[i]) {
      assert ThinnedPad(m.pads[i], m'.pads[i]);
    }
  }

  lemma EmitSameSources(m: Mux, picks: seq<Pick>, now: int)
    requires picks != [] && PicksIn(m.pads, picks) && AllIn(m.order, m.pads)
    ensures SameSources(m, EmitMux(m, picks, now))
  {
    hide On, OutputPts, FrameDuration;
  }

  lemma SameThrough(m: Mux, m1: Mux, m2: Mux)
    requires SameSources(m, m1) && SameSources(m1, m2)
    ensures SameSources(m, m2)
  {
  }

  lemma BatchSameSources(m: Mux, now: int)
    requires Sound(m)
    ensures AllIn(m.order, m.pads) && m.cfg.overallMaxFps > 0.0
    ensures SameSources(m, BatchStage(m, now).mux)
  {
    FormedSameSources(m, now);
    var f := Form(m, now);
    var m' := Formed(m, f);
    hide Form, EmitMux, EmitBatch, SameSources, Ordered;
    if f.picks != [] && f.go {
      EmitSameSources(m', f.picks, now);
      SameThrough(m, m', EmitMux(m', f.picks, now));
    }
  }

  lemma PollSameSources(m: Mux, now: int)
    requires Sound(m)
    ensures AllIn(m.order, m.pads) && m.cfg.overallMaxFps > 0.0
    ensures SameSources(m, Poll(m, now).mux)
  {
    var m0 := m.(pending := []);
    SoundFlushed(m, m0);
    BodySameSources(m0, now);
    PollIs(m, m0, now);
    hide Poll, PollBody, Sound;
    assert m0.pads == m.pads;
  }

  lemma BodySameSources(m: Mux, now: int)
    requires Sound(m)
    ensures AllIn(m.order, m.pads) && m.cfg.overallMaxFps > 0.0
    ensures SameSources(m, PollBody(m, now).mux)
  {
    EosStageSound(m);
    EosSameSources(m);
    var e1 := EosStage(m);
    BatchSameSources(e1.mux, now);
    hide EosStage, BatchStage, SameSources, Sound;
    var e2 := BatchStage(e1.mux, now);
    SameThrough(m, e1.mux, e2.mux);
    if e2.picks != [] {
      EosSameSources(e2.mux);
      SameThrough(m, e2.mux, EosStage(e2.mux).mux);
      EndStageKeeps(EosStage(e2.mux).mux);
      SamePads(m, EosStage(e2.mux).mux, EndStage(EosStage(e2.mux).mux).mux);
    } else {
      EndStageKeeps(e2.mux);
      SamePads(m, e2.mux, EndStage(e2.mux).mux);
    }
    hide EndStage;
  }

  lemma SamePads(m: Mux, m1: Mux, m2: Mux)
    requires SameSources(m, m1) && m2.pads == m1.pads
    ensures SameSources(m, m2)
  {
  }

  // ---------------------------------------------------------------- where a pad's time begins

  /** The pts of the first frame a pad accepted. */
  function FirstPts(h: History): Option<int> {
    if h.pushed == [] then None else Some(h.pushed[0].pts)
  }

  ghost predicate BeginsAtFirst(w: World) {
    w.hist.Keys == w.mux.pads.Keys && forall i :: i in w.mux.pads ==> w.mux.pads[i].segmentStart == FirstPts(w.hist[i])
  }

  lemma QueuedWasPushed(w: World, i: int)
    requires Inv(w) && i in w.mux.pads && i in w.hist
    ensures w.mux.pads[i].queue != [] ==> w.hist[i].pushed != [] && w.mux.firstPush.Some? && w.mux.base.Some?
    ensures w.mux.pads[i].depth >= 1
  {
    assert PadOk(w.mux.cfg, w.mux.pads[i], w.hist[i], w.clock);
    if w.mux.pads[i].queue != [] {
      assert w.mux.pads[i].queue[0].seqNum < |w.hist[i].pushed|;
    }
  }

  lemma PushBegins(cfg: MuxConfig, p: Pad, h: History, a: Arrival, duration: int, now: int)
    requires p.depth >= 1 && p.segmentStart == FirstPts(h) && (h.pushed == [] ==> p.queue == [])
    ensures PushPad(cfg, p, a, duration, now).pad.segmentStart == FirstPts(PushHistory(cfg, p, h, a, duration, now))
  {
  }

  lemma PushKeepsBegin(w: World, s: Step, w': World)
    requires Inv(w) && Follows(w, s, w') && s.PushAt? && BeginsAtFirst(w)
    ensures BeginsAtFirst(w')
  {
    var i := s.pad;
    hide Inv, PushPad, PushHistory;
    if i in w.mux.pads && !Refuses(w.mux.pads[i]) {
      QueuedWasPushed(w, i);
      PushBegins(w.mux.cfg, w.mux.pads[i], w.hist[i], s.arrival, s.duration, s.now);
    }
    hide FirstPts;
  }

  /** Whoever waits was preceded by a frame. */
  ghost predicate WaitedFor(w: World) {
    w.hist.Keys == w.mux.pads.Keys && forall i :: i in w.mux.pads && w.mux.pads[i].blocked.Some? ==> w.hist[i].pushed != []
  }

  lemma PushWaits(cfg: MuxConfig, p: Pad, h: History, a: Arrival, duration: int, now: int)
    requires p.depth >= 1 && (h.pushed == [] ==> p.queue == [] && p.blocked.None?)
    ensures PushPad(cfg, p, a, duration, now).pad.blocked.Some? ==> PushHistory(cfg, p, h, a, duration, now).pushed != []
  {
  }

  lemma PushKeepsWaited(w: World, s: Step, w': World)
    requires Inv(w) && Follows(w, s, w') && s.PushAt? && WaitedFor(w) && BeginsAtFirst(w)
    ensures WaitedFor(w')
  {
    var i := s.pad;
    hide Inv, PushPad, PushHistory;
    if i in w.mux.pads && !Refuses(w.mux.pads[i]) {
      QueuedWasPushed(w, i);
      PushWaits(w.mux.cfg, w.mux.pads[i], w.hist[i], s.arrival, s.duration, s.now);
    }
  }

  lemma PollKeepsBegin(w: World, now: int)
    requires Inv(w) && w.mux.WellFormed() && BeginsAtFirst(w) && WaitedFor(w)
    ensures BeginsAtFirst(NextPoll(w, now)) && WaitedFor(NextPoll(w, now))
  {
    InvIsSound(w);
    PollSameSources(w.mux, now);
    hide Inv, Poll, Sound, Mux.WellFormed, On, FramesOn, FramesIn;
  }

  lemma OthersKeepBegin(w: World, s: Step, w': World)
    requires Follows(w, s, w') && !s.PushAt? && !s.PollAt? && BeginsAtFirst(w) && WaitedFor(w)
    ensures BeginsAtFirst(w') && WaitedFor(w')
  {
    hide Without, Tagged, Mux.WellFormed, Absorb;
  }

  lemma FollowsKeepsBegin(w: World, s: Step, w': World)
    requires Inv(w) && Follows(w, s, w') && BeginsAtFirst(w) && WaitedFor(w)
    ensures BeginsAtFirst(w') && WaitedFor(w')
  {
    if s.PushAt? {
      hide Inv, Follows, BeginsAtFirst, WaitedFor;
      PushKeepsBegin(w, s, w');
      PushKeepsWaited(w, s, w');
    } else if s.PollAt? {
      PollKeepsBegin(w, s.now);
      hide Inv, NextPoll;
    } else {
      hide Inv, Follows, BeginsAtFirst, WaitedFor;
      OthersKeepBegin(w, s, w');
    }
  }

  lemma {:induction false} RunKeepsBegin(ws: seq<World>, steps: seq<Step>, k: nat)
    requires Run(ws, steps) && k < |ws| && Inv(ws[0]) && BeginsAtFirst(ws[0]) && WaitedFor(ws[0])
    ensures BeginsAtFirst(ws[k]) && WaitedFor(ws[k])
  {
    hide Inv, Follows, BeginsAtFirst, WaitedFor;
    if k > 0 {
      RunKeepsBegin(ws, steps, k - 1);
      RunKeepsInv(ws, steps, k - 1);
      FollowsKeepsBegin(ws[k - 1], steps[k - 1], ws[k]);
    }
  }

  lemma NewWorldBegins(cfg: MuxConfig, clock: int)
    ensures BeginsAtFirst(NewWorld(cfg, clock)) && WaitedFor(NewWorld(cfg, clock))
  {
  }

  /** In every world of every run the running time of a pad counts from the pts of the
      first frame it accepted. */
  lemma TimeBeginsAtFirstFrame(cfg: MuxConfig, ws: seq<World>, steps: seq<Step>, k: nat)
    requires RunFrom(cfg, ws, steps) && k < |ws|
    ensures BeginsAtFirst(ws[k])
  {
    hide Inv, Follows, NewWorld, BeginsAtFirst, WaitedFor;
    var clock :| ws[0] == NewWorld(cfg, clock);
    NewWorldOk(cfg, clock);
    NewWorldBegins(cfg, clock);
    RunKeepsBegin(ws, steps, k);
  }

  // ---------------------------------------------------------------- what a batch was formed from

  /** The batch formed by a poll, and the mux it was formed in. */
  lemma SentParts(w: World, now: int, b: Batch) returns (m: Mux, picks: seq<Pick>)
    requires Inv(w) && w.mux.WellFormed() && Sent(w.mux, now) == [Frames(b)]
    ensures picks != [] && PicksIn(m.pads, picks) && AllIn(m.order, m.pads) && b == EmitBatch(m, picks, now)
    ensures m.cfg == w.mux.cfg && m.base == w.mux.base && m.prevPts == w.mux.prevPts && m.batchIndex == w.mux.batchIndex
    ensures m.firstPush == w.mux.firstPush && m.firstDuration == w.mux.firstDuration && m.firstPad == w.mux.firstPad && m.order == w.mux.order
    ensures SameSources(w.mux, m) && m.pads.Keys == w.mux.pads.Keys && (forall i :: i in m.pads ==> m.pads[i].index == i)
    ensures forall k :: 0 <= k < |picks| ==> picks[k].pad in w.mux.pads && w.mux.pads[picks[k].pad].queue != []
  {
    InvIsSound(w);
    PolledWell(w.mux);
    PolledSound(w.mux);
    var p := Polled(w.mux);
    FormedSameSources(p, now);
    PolledSame(w.mux);
    m, picks := Formed(p, Form(p, now)), Form(p, now).picks;
    SameThrough(w.mux, p, m);
    FormedIndexed(p, now);
    forall k | 0 <= k < |picks| ensures picks[k].pad in w.mux.pads && w.mux.pads[picks[k].pad].queue != [] {
      PickedWasQueued(w.mux, p, now, k);
    }
    hide Form, Polled, EmitBatch, Inv, Sound, SameSources;
  }

  lemma PolledSound(m: Mux)
    requires Sound(m) && AllIn(m.order, m.pads)
    ensures Sound(Polled(m))
  {
    var m0 := m.(pending := []);
    SoundFlushed(m, m0);
    EosStageSound(m0);
    hide Sound, EosStage;
  }

  lemma PolledSame(m: Mux)
    requires m.WellFormed() && AllIn(m.order, m.pads)
    ensures SameSources(m, Polled(m))
  {
    PolledWell(m);
    hide Polled;
  }

  lemma FormedIndexed(m: Mux, now: int)
    requires Sound(m)
    ensures AllIn(m.order, m.pads) && m.cfg.overallMaxFps > 0.0
    ensures var m' := Formed(m, Form(m, now));
            m'.pads.Keys == m.pads.Keys && AllIn(m'.order, m'.pads) && forall i :: i in m'.pads ==> m'.pads[i].index == i
  {
    FormedSameSources(m, now);
    hide Form, Ordered;
    var m' := Formed(m, Form(m, now));
    forall i | i in m'.pads ensures m'.pads[i].index == i {
      assert SameSource(m.pads[i], m'.pads[i]);
    }
  }

  lemma PickedWasQueued(m: Mux, p: Mux, now: int, k: nat)
    requires Sound(m) && Sound(p) && AllIn(m.order, m.pads) && AllIn(p.order, p.pads) && p.cfg.overallMaxFps > 0.0
    requires p == Polled(m) && k < |Form(p, now).picks|
    ensures var i := Form(p, now).picks[k].pad; i in m.pads && m.pads[i].queue != []
  {
    var f := Form(p, now);
    var x := f.picks[k];
    FormSplits(p, now);
    PolledWell(m);
    hide Form, Polled, On, Thinned, Ordered;
    assert x in f.picks;
    OnMember(f.picks, x.pad, x.q);
    assert x.pad in p.pads;
    assert SplitAt(p, f, x.pad);
    ThinnedMembers(p.pads[x.pad].queue, f.pads[x.pad].queue, On(f.late, x.pad));
    assert x.q in f.pads[x.pad].queue;
    assert p.pads[x.pad] == ClosePad(m.cfg, m.pads[x.pad]);
  }

  // ---------------------------------------------------------------- the two modes

  /** Running times of the frames picked: the greatest. */
  lemma {:induction false} LatestIsGreatest(m: Mux, picks: seq<Pick>)
    requires picks != [] && PicksIn(m.pads, picks)
    ensures forall k :: 0 <= k < |picks| ==> m.pads[picks[k].pad].RunningTime(picks[k].q.pts) <= LatestRunningTime(m, picks)
    ensures exists k :: 0 <= k < |picks| && m.pads[picks[k].pad].RunningTime(picks[k].q.pts) == LatestRunningTime(m, picks)
  {
    var n := |picks| - 1;
    var last := m.pads[picks[n].pad].RunningTime(picks[n].q.pts);
    if n == 0 {
      assert m.pads[picks[0].pad].RunningTime(picks[0].q.pts) == LatestRunningTime(m, picks);
    } else {
      LatestIsGreatest(m, picks[..n]);
      hide Pad.RunningTime;
      var j :| 0 <= j < n && m.pads[picks[..n][j].pad].RunningTime(picks[..n][j].q.pts) == LatestRunningTime(m, picks[..n]);
      var k := if LatestRunningTime(m, picks[..n]) >= last then j else n;
      assert m.pads[picks[k].pad].RunningTime(picks[k].q.pts) == LatestRunningTime(m, picks);
      forall k | 0 <= k < |picks| ensures m.pads[picks[k].pad].RunningTime(picks[k].q.pts) <= LatestRunningTime(m, picks) {
        if k < n {
          assert picks[..n][k] == picks[k];
        }
      }
    }
  }

  /** `v` bumped exactly if the batch before had that timestamp. */
  ghost predicate Bumped(trace: seq<Output>, x: nat, v: int)
    requires x < |trace| && trace[x].Frames?
  {
    trace[x].batch.pts == if LastPts(trace[..x]) == Some(v) then v + 250_000 else v
  }

  /** In every run of a live legacy mux without sync: a batch has the time since the base
      of the clock at which it was pushed. */
  lemma LiveTimestamps(cfg: MuxConfig, ws: seq<World>, steps: seq<Step>, k: nat, x: nat) returns (j: nat)
    requires RunFrom(cfg, ws, steps) && k < |ws| && x < |ws[k].trace| && ws[k].trace[x].Frames?
    ensures j < k && j < |steps| && steps[j].PollAt? && ws[k].trace[x].batch.push == steps[j].now && ws[j].mux.base.Some?
    ensures ws[j].mux.cfg.policy == Legacy && ws[j].mux.cfg.liveSource && !ws[j].mux.cfg.syncInputs ==>
              Bumped(ws[k].trace, x, Max(0, ws[k].trace[x].batch.push - ws[j].mux.base.value))
  {
    hide *;
    j := EveryBatchHasItsPoll(cfg, ws, steps, k, x);
    PolledAtParts(ws, steps, j, ws[k].trace, x);
    var w, now, b := ws[j], steps[j].now, ws[k].trace[x].batch;
    var m, picks := SentParts(w, now, b);
    BaseIsSet(w, picks[0].pad);
    LiveValue(m, picks, now);
    MakesBumped(ws[k].trace, x, Max(0, now - w.mux.base.value), m.prevPts);
  }

  lemma LiveValue(m: Mux, picks: seq<Pick>, now: int)
    requires picks != [] && PicksIn(m.pads, picks) && AllIn(m.order, m.pads) && m.base.Some?
    ensures EmitBatch(m, picks, now).push == now
    ensures m.cfg.policy == Legacy && m.cfg.liveSource && !m.cfg.syncInputs ==>
              var v := Max(0, now - m.base.value);
              EmitBatch(m, picks, now).pts == if m.prevPts == Some(v) then v + 250_000 else v
  {
    hide LatestRunningTime, FrameDuration, PtsOffset, Metas, MaxFramesInBatch;
  }

  lemma SyncValue(m: Mux, picks: seq<Pick>, now: int)
    requires picks != [] && PicksIn(m.pads, picks) && AllIn(m.order, m.pads)
    ensures EmitBatch(m, picks, now).push == now
    ensures m.cfg.syncInputs ==>
              var v := LatestRunningTime(m, picks);
              EmitBatch(m, picks, now).pts == if m.prevPts == Some(v) then v + 250_000 else v
  {
    hide LatestRunningTime, FrameDuration, PtsOffset, Metas, MaxFramesInBatch, Mux.RunningTime;
  }

  lemma MakesBumped(trace: seq<Output>, x: nat, v: int, prev: Option<int>)
    requires x < |trace| && trace[x].Frames? && LastPts(trace[..x]) == prev
    ensures Bumped(trace, x, v) <==> trace[x].batch.pts == if prev == Some(v) then v + 250_000 else v
  {
    hide LastPts;
  }

  lemma PolledAtParts(ws: seq<World>, steps: seq<Step>, j: nat, trace: seq<Output>, x: nat)
    requires PolledAt(ws, steps, j, trace, x) && trace[x].Frames?
    ensures j < |steps| && j < |ws| && steps[j].PollAt? && ws[j].mux.WellFormed()
    ensures Sent(ws[j].mux, steps[j].now) == [Frames(trace[x].batch)] && LastPts(trace[..x]) == ws[j].mux.prevPts
    ensures Until(ws[j].trace, trace, x)
  {
    hide Sent, LastPts, Mux.WellFormed, Until;
  }

  lemma BaseIsSet(w: World, i: int)
    requires Inv(w) && i in w.mux.pads && w.mux.pads[i].queue != []
    ensures w.mux.base.Some?
  {
    QueuedWasPushed(w, i);
  }

  /** The running time of a frame, counted from the first frame its pad accepted. */
  function RunningPts(w: World, f: FrameMeta): Option<int> {
    if f.padIndex in w.hist && w.hist[f.padIndex].pushed != [] then Some(f.pts - w.hist[f.padIndex].pushed[0].pts) else None
  }

  ghost predicate LatestOf(w: World, frames: seq<FrameMeta>, v: int) {
    && (forall q :: 0 <= q < |frames| ==> RunningPts(w, frames[q]).Some? && RunningPts(w, frames[q]).value <= v)
    && (exists q :: 0 <= q < |frames| && RunningPts(w, frames[q]) == Some(v))
  }

  /** In every run of a mux in sync mode: a batch has the greatest running time of its
      frames, each counted from the first frame of its pad. */
  lemma SyncTimestamps(cfg: MuxConfig, ws: seq<World>, steps: seq<Step>, k: nat, x: nat) returns (j: nat, v: int)
    requires RunFrom(cfg, ws, steps) && k < |ws| && x < |ws[k].trace| && ws[k].trace[x].Frames?
    ensures j < k && j < |steps| && steps[j].PollAt? && ws[k].trace[x].batch.push == steps[j].now
    ensures ws[j].mux.cfg.syncInputs ==> LatestOf(ws[j], ws[k].trace[x].batch.frames, v) && Bumped(ws[k].trace, x, v)
  {
    hide *;
    j := EveryBatchHasItsPoll(cfg, ws, steps, k, x);
    PolledAtParts(ws, steps, j, ws[k].trace, x);
    TimeBeginsAtFirstFrame(cfg, ws, steps, j);
    var w, now, b := ws[j], steps[j].now, ws[k].trace[x].batch;
    var m, picks := SentParts(w, now, b);
    v := LatestRunningTime(m, picks);
    LatestOfPicks(w, m, picks, now);
    SyncValue(m, picks, now);
    MakesBumped(ws[k].trace, x, v, m.prevPts);
  }

  lemma PickRuns(w: World, m: Mux, picks: seq<Pick>, now: int, q: nat)
    requires Inv(w) && BeginsAtFirst(w) && SameSources(w.mux, m)
    requires picks != [] && PicksIn(m.pads, picks) && AllIn(m.order, m.pads) && q < |picks|
    requires picks[q].pad in w.mux.pads && w.mux.pads[picks[q].pad].queue != [] && m.pads[picks[q].pad].index == picks[q].pad
    ensures |EmitBatch(m, picks, now).frames| == |picks|
    ensures RunningPts(w, EmitBatch(m, picks, now).frames[q]) == Some(m.pads[picks[q].pad].RunningTime(picks[q].q.pts))
  {
    var i := picks[q].pad;
    QueuedWasPushed(w, i);
    FrameIs(m, picks, q);
    assert SameSource(w.mux.pads[i], m.pads[i]) && w.mux.pads[i].segmentStart == FirstPts(w.hist[i]);
    hide Inv, Metas, OutputPts, MaxFramesInBatch;
  }

  lemma LatestOfPicks(w: World, m: Mux, picks: seq<Pick>, now: int)
    requires Inv(w) && BeginsAtFirst(w) && SameSources(w.mux, m) && m.pads.Keys == w.mux.pads.Keys
    requires picks != [] && PicksIn(m.pads, picks) && AllIn(m.order, m.pads) && (forall i :: i in m.pads ==> m.pads[i].index == i)
    requires forall k :: 0 <= k < |picks| ==> picks[k].pad in w.mux.pads && w.mux.pads[picks[k].pad].queue != []
    ensures LatestOf(w, EmitBatch(m, picks, now).frames, LatestRunningTime(m, picks))
  {
    hide *;
    LatestIsGreatest(m, picks);
    var frames := EmitBatch(m, picks, now).frames;
    var x :| 0 <= x < |picks| && m.pads[picks[x].pad].RunningTime(picks[x].q.pts) == LatestRunningTime(m, picks);
    PickRuns(w, m, picks, now, x);
    forall q | 0 <= q < |frames|
      ensures RunningPts(w, frames[q]).Some? && RunningPts(w, frames[q]).value <= LatestRunningTime(m, picks)
    {
      PickRuns(w, m, picks, now, q);
    }
    MakesLatest(w, frames, LatestRunningTime(m, picks), x);
  }

  lemma MakesLatest(w: World, frames: seq<FrameMeta>, v: int, x: int)
    requires forall q :: 0 <= q < |frames| ==> RunningPts(w, frames[q]).Some? && RunningPts(w, frames[q]).value <= v
    requires 0 <= x < |frames| && RunningPts(w, frames[x]) == Some(v)
    ensures LatestOf(w, frames, v)
  {
    hide RunningPts;
  }

  lemma FrameIs(m: Mux, picks: seq<Pick>, q: nat)
    requires PicksIn(m.pads, picks) && q < |picks|
    ensures |Metas(m, picks)| == |picks|
    ensures var f := Metas(m, picks)[q]; f.padIndex == m.pads[picks[q].pad].index && f.pts == picks[q].q.pts
  {
    hide On;
  }
}
