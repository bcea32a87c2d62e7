/** Where the settings of a run's muxes and pads come from: the steps that set them. */
module MuxOrigins {
  import opened Shared
  import opened MuxTypes
  import opened MuxSpec
  import opened BatchSplit
  import opened MuxRuns
  import opened PadLedger
  import opened MuxInvariant
  import opened MuxSafety
  import opened MuxDrain
  import opened MuxFairness
  import opened MuxLiveness
  import opened MuxQuiet
  import opened MuxBatches
  import opened MuxModes

  // ---------------------------------------------------------------- the clocks

  /** The time of the last call of `start` among the first `k` steps. */
  function LastStart(steps: seq<Step>, k: nat): Option<int>
    requires k <= |steps|
  {
    if k == 0 then None else if steps[k - 1].StartAt? then Some(steps[k - 1].now) else LastStart(steps, k - 1)
  }

  /** Whether the last call of `start` or `stop` among the first `k` steps, if any, is a `stop`. */
  predicate Stopped(steps: seq<Step>, k: nat)
    requires k <= |steps|
  {
    k != 0 && !steps[k - 1].StartAt? && (steps[k - 1].StopNow? || Stopped(steps, k - 1))
  }

  /** A frame that push_frame does not refuse. */
  predicate FirstAccepted(w: World, s: Step) {
    s.PushAt? && s.pad in w.mux.pads && !w.mux.pads[s.pad].eosPending && !w.mux.pads[s.pad].eos && w.mux.firstPush.None?
  }

  lemma PollKeepsOrigin(m: Mux, now: int)
    requires m.WellFormed()
    ensures AllIn(m.order, m.pads) && m.cfg.overallMaxFps > 0.0
    ensures var m' := Poll(m, now).mux; m'.base == m.base && m'.firstPush == m.firstPush && m'.firstPad == m.firstPad && m'.cfg == m.cfg
    ensures Poll(m, now).mux.stopping == m.stopping
  {
    hide Form, EosNotices, OutputPts, FrameDuration, EmitBatch, On, ClosePad, Mux.AllEos;
  }

  /** Which calls set the clocks: only `start` and the first frame accepted. */
  ghost predicate SetsOrigin(w: World, s: Step, m': Mux) {
    var m := w.mux;
    && m'.cfg == m.cfg && m'.stopping == (s.StopNow? || (m.stopping && !s.StartAt?))
    && (if FirstAccepted(w, s) then m'.firstPush == Some(s.now) && m'.firstPad == Some(s.pad)
        else m'.firstPush == m.firstPush && m'.firstPad == m.firstPad)
    && m'.base == (if s.StartAt? then Some(s.now)
                   else if FirstAccepted(w, s) && m.base.None? then Some(s.now) else m.base)
  }

  lemma StepSetsOrigin(w: World, s: Step)
    requires w.mux.WellFormed() && w.hist.Keys == w.mux.pads.Keys && Enabled(w, s)
    requires w.mux.firstPush.Some? ==> w.mux.base.Some?
    ensures SetsOrigin(w, s, Next(w, s).mux)
  {
    if s.PollAt? {
      PollKeepsOrigin(w.mux, s.now);
      hide Poll, Mux.WellFormed;
    } else if s.PushAt? {
      PushSetsOrigin(w, s.pad, s.arrival, s.duration, s.now);
      hide NextPush, Mux.WellFormed;
    } else {
      hide SetsOrigin, Next;
      OtherSetsOrigin(w, s);
    }
  }

  lemma OtherSetsOrigin(w: World, s: Step)
    requires w.mux.WellFormed() && w.hist.Keys == w.mux.pads.Keys && Enabled(w, s) && !s.PollAt? && !s.PushAt?
    ensures SetsOrigin(w, s, Next(w, s).mux)
  {
    hide NextPoll, NextPush, Without, Tagged, Mux.WellFormed, NewPad, Absorb;
  }

  lemma PushSetsOrigin(w: World, i: int, a: Arrival, duration: int, now: int)
    requires w.mux.WellFormed() && w.hist.Keys == w.mux.pads.Keys && (w.mux.firstPush.Some? ==> w.mux.base.Some?)
    ensures var (m, m') := (w.mux, NextPush(w, i, a, duration, now).mux);
            && m'.cfg == m.cfg && m'.stopping == m.stopping
            && if FirstAccepted(w, PushAt(i, a, duration, now))
               then m'.firstPush == Some(now) && m'.firstPad == Some(i) && m'.base == (if m.base.None? then Some(now) else m.base)
               else m'.firstPush == m.firstPush && m'.firstPad == m.firstPad && m'.base == m.base
  {
    hide PushPad, PushHistory, Mux.WellFormed;
  }

  ghost predicate Origin(cfg: MuxConfig, w: World, steps: seq<Step>, k: nat)
    requires k <= |steps|
  {
    && w.mux.cfg == cfg && w.mux.stopping == Stopped(steps, k)
    && w.mux.base == (if LastStart(steps, k).Some? then LastStart(steps, k) else w.mux.firstPush)
  }

  /** In every world the configuration is that of the run, the mux is stopping if `stop` was
      called and `start` not since, and time counts from the last call of `start`, or else
      from the first frame accepted. */
  lemma {:induction false} OriginOfTime(cfg: MuxConfig, ws: seq<World>, steps: seq<Step>, k: nat)
    requires RunFrom(cfg, ws, steps) && |ws| == |steps| + 1 && k < |ws|
    ensures Origin(cfg, ws[k], steps, k)
  {
    hide *;
    BareStart(cfg, ws, steps);
    if k == 0 {
      NewOrigin(cfg, ws[0], steps);
    } else {
      OriginOfTime(cfg, ws, steps, k - 1);
      RunFollows(cfg, ws, steps, k - 1);
      EveryRunIsAccountedFor(cfg, ws, steps, k - 1);
      OriginOn(cfg, ws[k - 1], ws[k], steps, k);
    }
  }

  lemma NewOrigin(cfg: MuxConfig, w: World, steps: seq<Step>)
    requires w.mux == NewMux(cfg)
    ensures Origin(cfg, w, steps, 0)
  {
  }

  lemma OriginOn(cfg: MuxConfig, w: World, w': World, steps: seq<Step>, k: nat)
    requires 0 < k <= |steps| && Origin(cfg, w, steps, k - 1) && Inv(w) && Follows(w, steps[k - 1], w')
    ensures Origin(cfg, w', steps, k)
  {
    PushedMeansBased(w);
    hide Inv, Next, Mux.WellFormed;
    StepSetsOrigin(w, steps[k - 1]);
  }

  lemma BareStart(cfg: MuxConfig, ws: seq<World>, steps: seq<Step>)
    requires RunFrom(cfg, ws, steps)
    ensures |ws| == |steps| + 1 && ws[0].mux == NewMux(cfg)
  {
    hide Follows;
  }

  lemma PushedMeansBased(w: World)
    requires Inv(w)
    ensures w.mux.firstPush.Some? ==> w.mux.base.Some?
  {
    hide PadsOk;
  }

  lemma RunFollows(cfg: MuxConfig, ws: seq<World>, steps: seq<Step>, j: nat)
    requires RunFrom(cfg, ws, steps) && j < |steps|
    ensures |ws| == |steps| + 1 && Follows(ws[j], steps[j], ws[j + 1])
  {
    hide Follows, NewWorld;
  }

  lemma NothingPushed(cfg: MuxConfig)
    ensures NewMux(cfg).firstPush.None?
  {
  }

  lemma OneMorePush(w: World, s: Step, w': World)
    requires Follows(w, s, w') && (w.mux.firstPush.Some? ==> w.mux.base.Some?)
    ensures if FirstAccepted(w, s) then w'.mux.firstPush == Some(s.now) && w'.mux.firstPad == Some(s.pad)
            else w'.mux.firstPush == w.mux.firstPush && w'.mux.firstPad == w.mux.firstPad
    ensures FirstAccepted(w, s) ==> s.PushAt?
  {
    hide Next, Mux.WellFormed;
    StepSetsOrigin(w, s);
  }

  /** The first push the mux remembers is that of the first frame any pad accepted. */
  lemma {:induction false} FirstPushIs(cfg: MuxConfig, ws: seq<World>, steps: seq<Step>, k: nat) returns (j: nat)
    requires RunFrom(cfg, ws, steps) && |ws| == |steps| + 1 && k < |ws| && ws[k].mux.firstPush.Some?
    ensures j < k && FirstAccepted(ws[j], steps[j])
    ensures ws[k].mux.firstPush == Some(steps[j].now) && ws[k].mux.firstPad == Some(steps[j].pad)
  {
    hide *;
    BareStart(cfg, ws, steps);
    NothingPushed(cfg);
    assert k > 0;
    RunFollows(cfg, ws, steps, k - 1);
    EveryRunIsAccountedFor(cfg, ws, steps, k - 1);
    PushedMeansBased(ws[k - 1]);
    OneMorePush(ws[k - 1], steps[k - 1], ws[k]);
    if FirstAccepted(ws[k - 1], steps[k - 1]) {
      j := k - 1;
    } else {
      j := FirstPushIs(cfg, ws, steps, k - 1);
    }
  }

  /** What the timestamps of a new mux count from: the running time of the first frame. */
  lemma OffsetIs(m: Mux)
    ensures m.cfg.policy == Legacy ==> PtsOffset(m) == 0
    ensures m.cfg.policy == New && m.firstPush.Some? && m.base.Some? ==> PtsOffset(m) == m.firstPush.value - m.base.value
  {
  }

  /** Without a minimum rate, or with a timeout that waits forever, there is no deadline. */
  lemma NoDeadline(m: Mux)
    requires AllIn(m.order, m.pads)
    ensures m.cfg.policy == Legacy && m.cfg.timeoutUs < 0 ==> NextDeadline(m) == None
    ensures m.cfg.policy == New && m.cfg.timeoutUs <= 0 ==> NextDeadline(m) == None
  {
  }

  // ---------------------------------------------------------------- the pads

  /** What an `add_pad` of pad `i` gives it. */
  ghost predicate AddedBy(cfg: MuxConfig, s: Step, i: int, p: Pad) {
    && s.Add? && s.pad == i && p.index == i
    && p.sourceId == (if s.source.Some? then s.source.value else i)
    && p.cfg == (if s.scfg.Some? then s.scfg.value else if i in cfg.sources then cfg.sources[i] else SourceConfig(0, 60.0, 1))
    && p.depth == cfg.queueDepth
  }

  /** Pad `i` after step `s` is the pad it was, or the one that the step brings. */
  ghost predicate KeptOrAdded(w: World, s: Step, w': World, i: int) {
    i in w'.mux.pads && i in w'.hist ==>
      && s != Remove(i)
      && if i in w.mux.pads
         then SameIdentity(w.mux.pads[i], w'.mux.pads[i]) && i in w.hist && w'.hist[i].since == w.hist[i].since
         else AddedBy(w.mux.cfg, s, i, w'.mux.pads[i]) && w'.hist[i].since == |w.trace|
  }

  lemma PollKeepsPads(w: World, now: int, i: int)
    requires Inv(w) && w.mux.WellFormed()
    ensures KeptOrAdded(w, PollAt(now), NextPoll(w, now), i)
  {
    InvIsSound(w);
    InvBasics(w);
    PollSameSources(w.mux, now);
    hide Inv, Poll, Sound, On, FramesOn, FramesIn, Mux.WellFormed;
  }

  lemma OtherKeepsPads(w: World, s: Step, i: int)
    requires w.mux.WellFormed() && w.hist.Keys == w.mux.pads.Keys && Enabled(w, s) && !s.PollAt? && !s.PushAt?
    ensures KeptOrAdded(w, s, Next(w, s), i)
  {
    hide Without, Tagged, Mux.WellFormed, Poll, Push, NextPush;
  }

  lemma StepKeepsPads(w: World, s: Step, w': World, i: int)
    requires Inv(w) && Follows(w, s, w')
    ensures KeptOrAdded(w, s, w', i)
  {
    if s.PollAt? {
      hide Inv, NextPoll, KeptOrAdded;
      PollKeepsPads(w, s.now, i);
    } else if s.PushAt? {
      hide Inv, NextPush, Mux.WellFormed, SameIdentity;
      PushKeepsPads(w, s.pad, s.arrival, s.duration, s.now, i);
    } else {
      hide Inv, Next, KeptOrAdded;
      OtherKeepsPads(w, s, i);
    }
  }

  lemma PushKeepsPads(w: World, j: int, a: Arrival, duration: int, now: int, i: int)
    requires w.mux.WellFormed() && w.hist.Keys == w.mux.pads.Keys
    ensures var w' := NextPush(w, j, a, duration, now);
            && w'.mux.pads.Keys == w.mux.pads.Keys && w'.hist.Keys == w.hist.Keys
            && (i in w.mux.pads ==> SameIdentity(w.mux.pads[i], w'.mux.pads[i]) && w'.hist[i].since == w.hist[i].since)
  {
    if j in w.mux.pads {
      PushSameIdentity(w.mux.cfg, w.mux.pads[j], a, duration, now);
    }
    hide PushPad, Mux.WellFormed;
  }

  lemma PushSameIdentity(cfg: MuxConfig, p: Pad, a: Arrival, duration: int, now: int)
    ensures p.depth >= 1 ==> SameIdentity(p, PushPad(cfg, p, a, duration, now).pad)
  {
  }

  ghost predicate SameIdentity(p: Pad, p': Pad) {
    p'.index == p.index && p'.sourceId == p.sourceId && p'.cfg == p.cfg && p'.depth == p.depth
  }

  /** Step `j` added the pad `i` of world `k`, and it was not removed since. */
  ghost predicate AddedAt(cfg: MuxConfig, ws: seq<World>, steps: seq<Step>, j: nat, k: nat, i: int) {
    && j < k < |ws| && |ws| == |steps| + 1 && i !in ws[j].mux.pads
    && i in ws[k].mux.pads && AddedBy(cfg, steps[j], i, ws[k].mux.pads[i])
    && i in ws[k].hist && ws[k].hist[i].since == |ws[j].trace|
    && (forall l :: j < l < k ==> steps[l] != Remove(i))
  }

  lemma AddedJustNow(cfg: MuxConfig, ws: seq<World>, steps: seq<Step>, k: nat, i: int)
    requires 0 < k < |ws| && |ws| == |steps| + 1 && KeptOrAdded(ws[k - 1], steps[k - 1], ws[k], i) && ws[k - 1].mux.cfg == cfg
    requires i in ws[k].mux.pads && i in ws[k].hist && i !in ws[k - 1].mux.pads
    ensures AddedAt(cfg, ws, steps, k - 1, k, i)
  {
    hide AddedBy, SameIdentity;
  }

  lemma AddedBefore(cfg: MuxConfig, ws: seq<World>, steps: seq<Step>, j: nat, k: nat, i: int)
    requires 0 < k < |ws| && |ws| == |steps| + 1 && KeptOrAdded(ws[k - 1], steps[k - 1], ws[k], i)
    requires i in ws[k].mux.pads && i in ws[k].hist && AddedAt(cfg, ws, steps, j, k - 1, i)
    ensures AddedAt(cfg, ws, steps, j, k, i)
  {
    SameAdded(cfg, steps[j], i, ws[k - 1].mux.pads[i], ws[k].mux.pads[i]);
    hide AddedBy, SameIdentity;
  }

  /** Every pad of every world was added by a step since which it was not removed, and has
      the source, the settings and the depth it got then. */
  lemma {:induction false} PadsAreAsAdded(cfg: MuxConfig, ws: seq<World>, steps: seq<Step>, k: nat, i: int) returns (j: nat)
    requires RunFrom(cfg, ws, steps) && |ws| == |steps| + 1 && k < |ws| && i in ws[k].mux.pads
    ensures AddedAt(cfg, ws, steps, j, k, i)
  {
    hide *;
    BareStart(cfg, ws, steps);
    NewMuxBare(cfg);
    assert k > 0;
    EveryRunIsAccountedFor(cfg, ws, steps, k);
    InvBasics(ws[k]);
    EveryRunIsAccountedFor(cfg, ws, steps, k - 1);
    RunFollows(cfg, ws, steps, k - 1);
    OriginOfTime(cfg, ws, steps, k - 1);
    OriginMeans(cfg, ws[k - 1], steps, k - 1);
    StepKeepsPads(ws[k - 1], steps[k - 1], ws[k], i);
    if i in ws[k - 1].mux.pads {
      j := PadsAreAsAdded(cfg, ws, steps, k - 1, i);
      AddedBefore(cfg, ws, steps, j, k, i);
    } else {
      j := k - 1;
      AddedJustNow(cfg, ws, steps, k, i);
    }
  }

  lemma NewMuxBare(cfg: MuxConfig)
    ensures NewMux(cfg).pads == map[]
  {
  }

  lemma SameAdded(cfg: MuxConfig, s: Step, i: int, p: Pad, p': Pad)
    requires AddedBy(cfg, s, i, p) && SameIdentity(p, p')
    ensures AddedBy(cfg, s, i, p')
  {
  }

  lemma OriginMeans(cfg: MuxConfig, w: World, steps: seq<Step>, k: nat)
    requires k <= |steps| && Origin(cfg, w, steps, k)
    ensures w.mux.cfg == cfg
  {
    hide LastStart;
  }

  // ---------------------------------------------------------------- frame durations

  /** What push_frame notes of a frame: its pts and the duration given, 0 if none. */
  datatype Note = Note(pts: int, duration: int)

  function Noted(p: Pad, notes: seq<Note>): Pad {
    if notes == [] then p
    else
      var n := |notes| - 1;
      RecordPad(Noted(p, notes[..n]), notes[n].pts, notes[n].duration)
  }

  /** The last duration given. */
  function Given(notes: seq<Note>): int {
    if notes == [] then 0
    else
      var n := |notes| - 1;
      if notes[n].duration != 0 then notes[n].duration else Given(notes[..n])
  }

  /** The first step by which timestamps rose. */
  function FirstRise(notes: seq<Note>): int {
    if |notes| < 2 then 0
    else
      var n := |notes| - 1;
      var before := FirstRise(notes[..n]);
      if before != 0 then before
      else if notes[n].pts > notes[n - 1].pts then notes[n].pts - notes[n - 1].pts else 0
  }

  lemma {:induction false} RiseIsPositive(notes: seq<Note>)
    ensures FirstRise(notes) >= 0
  {
    if |notes| >= 2 {
      RiseIsPositive(notes[..|notes| - 1]);
    }
  }

  /** The frame duration of a pad is the last one given, or else the first rise of its
      timestamps; its time begins with the first frame. */
  lemma {:induction false} NotesTell(p: Pad, notes: seq<Note>)
    requires p.frameDuration == 0 && p.lastPts.None? && p.segmentStart.None? && notes != []
    ensures var q := Noted(p, notes);
            && q.frameDuration == (if Given(notes) != 0 then Given(notes) else FirstRise(notes))
            && q.lastPts == Some(notes[|notes| - 1].pts) && q.segmentStart == Some(notes[0].pts) && q.segmentSent
            && q == p.(frameDuration := q.frameDuration, lastPts := q.lastPts, segmentStart := q.segmentStart, segmentSent := true)
  {
    var n := |notes| - 1;
    if n > 0 {
      NotesTell(p, notes[..n]);
      RiseIsPositive(notes);
      RiseIsPositive(notes[..n]);
    } else {
      assert Noted(p, []) == p && Given([]) == 0;
    }
  }

  lemma {:induction false} FirstKnownIs(pads: map<int, Pad>, ids: seq<int>)
    requires AllIn(ids, pads)
    ensures var d := FirstKnownDuration(pads, ids);
            if d == 0 then forall k :: 0 <= k < |ids| ==> pads[ids[k]].frameDuration == 0
            else exists k :: 0 <= k < |ids| && pads[ids[k]].frameDuration == d && forall l :: 0 <= l < k ==> pads[ids[l]].frameDuration == 0
    decreases |ids|
  {
    if ids != [] {
      FirstKnownIs(pads, ids[1..]);
      if pads[ids[0]].frameDuration == 0 {
        var d := FirstKnownDuration(pads, ids[1..]);
        if d == 0 {
          assert forall k :: 0 < k < |ids| ==> ids[k] == ids[1..][k - 1];
        } else {
          var k :| 0 <= k < |ids[1..]| && pads[ids[1..][k]].frameDuration == d &&
                   forall l :: 0 <= l < k ==> pads[ids[1..][l]].frameDuration == 0;
          assert pads[ids[k + 1]].frameDuration == d;
          forall l | 0 <= l < k + 1 ensures pads[ids[l]].frameDuration == 0 {
            if l > 0 {
              assert ids[l] == ids[1..][l - 1];
            }
          }
        }
      } else {
        assert pads[ids[0]].frameDuration == FirstKnownDuration(pads, ids);
      }
    }
  }

  /** Which frame duration a mux goes by: that of the pad the first frame came on, if it is
      known, or else that of the first pad in pad order whose duration is known. */
  ghost predicate GoesBy(m: Mux, d: int)
    requires AllIn(m.order, m.pads)
  {
    if m.firstPad.Some? && m.firstPad.value in m.pads && m.pads[m.firstPad.value].frameDuration != 0
    then d == m.pads[m.firstPad.value].frameDuration
    else if d == 0 then forall k :: 0 <= k < |m.order| ==> m.pads[m.order[k]].frameDuration == 0
    else exists k :: 0 <= k < |m.order| && m.pads[m.order[k]].frameDuration == d &&
                     forall l :: 0 <= l < k ==> m.pads[m.order[l]].frameDuration == 0
  }

  lemma DurationIs(m: Mux)
    requires AllIn(m.order, m.pads)
    ensures if m.firstDuration != 0 then FrameDuration(m) == m.firstDuration else GoesBy(m, FrameDuration(m))
  {
    FirstKnownIs(m.pads, m.order);
    hide FirstKnownDuration;
  }

  lemma GoesBySame(m: Mux, m': Mux, d: int)
    requires AllIn(m.order, m.pads) && AllIn(m'.order, m'.pads) && SameSources(m, m') && m'.order == m.order && m'.firstPad == m.firstPad
    requires GoesBy(m', d)
    ensures GoesBy(m, d)
  {
    assert forall i :: i in m.pads ==> SameSource(m.pads[i], m'.pads[i]);
    assert forall k :: 0 <= k < |m.order| ==> m.order[k] in m.pads;
    hide SameSources;
  }

  /** A mux learns its frame duration with a batch, from its pads as they were before. */
  lemma DurationLearned(w: World, now: int)
    requires Inv(w) && w.mux.WellFormed()
    ensures AllIn(w.mux.order, w.mux.pads) && w.mux.cfg.overallMaxFps > 0.0
    ensures var d := Poll(w.mux, now).mux.firstDuration;
            if Sent(w.mux, now) == [] || !CountsBatches(w.mux.cfg) || w.mux.firstDuration != 0 then d == w.mux.firstDuration
            else GoesBy(w.mux, d)
  {
    PolledWell(w.mux);
    PollLearns(w.mux, now);
    if Sent(w.mux, now) != [] {
      PollRemembers(w.mux, now);
      var b := Sent(w.mux, now)[0].batch;
      assert Sent(w.mux, now) == [Frames(b)];
      InvIsSound(w);
      PolledSound(w.mux);
      PolledSame(w.mux);
      FormedSameSources(Polled(w.mux), now);
      var m := Formed(Polled(w.mux), Form(Polled(w.mux), now));
      SameThrough(w.mux, Polled(w.mux), m);
      FormedIndexed(Polled(w.mux), now);
      hide Inv, Poll, Sent, Polled, Form, Sound, SameSources, FrameDuration;
      DurationIs(m);
      if w.mux.firstDuration == 0 {
        hide GoesBy;
        GoesByMaybe(w.mux, m);
      }
    } else {
      hide Inv, Poll, Sent, Polled, Form;
    }
  }

  lemma GoesByMaybe(m: Mux, m': Mux)
    requires AllIn(m.order, m.pads) && AllIn(m'.order, m'.pads) && SameSources(m, m') && m'.order == m.order && m'.firstPad == m.firstPad
    requires GoesBy(m', FrameDuration(m'))
    ensures GoesBy(m, FrameDuration(m'))
  {
    hide GoesBy, FrameDuration, SameSources;
    GoesBySame(m, m', FrameDuration(m'));
  }

  lemma PollLearns(m: Mux, now: int)
    requires m.WellFormed()
    ensures AllIn(m.order, m.pads) && m.cfg.overallMaxFps > 0.0
    ensures AllIn(Polled(m).order, Polled(m).pads) && Polled(m).cfg.overallMaxFps > 0.0
    ensures var m' := Formed(Polled(m), Form(Polled(m), now));
            && AllIn(m'.order, m'.pads)
            && Poll(m, now).mux.firstDuration ==
               if Sent(m, now) != [] && CountsBatches(m.cfg) then FrameDuration(m') else m.firstDuration
  {
    PolledWell(m);
    StageLearns(m, now);
    hide Form, EosNotices, BatchStage, Sent, Polled, ClosePad, FrameDuration;
  }

  lemma StageLearns(m: Mux, now: int)
    requires m.WellFormed()
    ensures AllIn(m.order, m.pads) && m.cfg.overallMaxFps > 0.0
    ensures AllIn(Polled(m).order, Polled(m).pads) && Polled(m).cfg.overallMaxFps > 0.0
    ensures var m' := Formed(Polled(m), Form(Polled(m), now));
            && AllIn(m'.order, m'.pads)
            && BatchStage(EosStage(m.(pending := [])).mux, now).mux.firstDuration ==
               if Sent(m, now) != [] && CountsBatches(m.cfg) then FrameDuration(m') else m.firstDuration
  {
    PolledWell(m);
    hide Form, ForwardEos, EosNotices, OutputPts, On, FrameDuration;
  }
}
