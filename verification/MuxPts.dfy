/** Output timestamps that count batches: what batch n carries outside live and
    sync modes, before and after a frame duration D is known, and when these
    timestamps rise. */
module MuxPts {
  import opened Shared
  import opened MuxTypes
  import opened MuxSpec
  import opened BatchSplit
  import opened LegacyBatch
  import opened MuxRuns
  import opened PadLedger
  import opened MuxInvariant
  import opened MuxSafety
  import opened MuxDelivery
  import opened MuxDrain
  import opened MuxLiveness

  /** The timestamp of batch `n`, when the duration `d` was learned with batch `n0`.
      Without a duration they alternate; with one they count, but for a batch `n0`
      that would repeat the timestamp before it. */
  function PtsOf(off: int, d: int, n0: nat, n: nat): int {
    if n < n0 then if n % 2 == 0 then off else off + PTS_BUMP
    else if n == n0 && Collides(d, n0) then off + 2 * PTS_BUMP
    else off + n * d
  }

  predicate Collides(d: int, n0: nat) {
    n0 >= 2 && n0 % 2 == 0 && n0 * d == PTS_BUMP
  }

  /** What is remembered of the batches so far. */
  ghost predicate PtsOk(m: Mux, n0: nat) {
    && (if m.firstDuration == 0 then n0 == m.batchIndex else n0 < m.batchIndex)
    && m.prevPts == if m.batchIndex == 0 then None
                    else Some(PtsOf(PtsOffset(m), m.firstDuration, n0, m.batchIndex - 1))
  }

  // ---------------------------------------------------------------- one batch

  /** The batch that teaches the duration, after one more batch. */
  function Switch(m: Mux, d: int, n0: nat): nat {
    if d == 0 then m.batchIndex + 1 else if m.firstDuration == 0 then m.batchIndex else n0
  }

  /** The next timestamp, bumped when it would repeat the last one. */
  lemma NextPtsOf(off: int, d: int, d': int, n0: nat, n: nat)
    requires if d == 0 then n0 == n else n0 < n && d' == d
    ensures var n1 := if d' == 0 then n + 1 else if d == 0 then n else n0;
            PtsOf(off, d', n1, n) ==
            if n >= 1 && PtsOf(off, d, n0, n - 1) == off + n * d' then off + n * d' + PTS_BUMP else off + n * d'
  {
    if d' == 0 {
      assert n * d' == 0;
    } else if d == 0 {
      NonZero(n, d');
    } else {
      assert n * d == (n - 1) * d + d;
      if n - 1 == n0 && Collides(d, n0) {
        Small(n0, d);
      }
    }
  }

  lemma NonZero(n: nat, d: int)
    requires d != 0
    ensures n * d == 0 <==> n == 0
  {
  }

  lemma Small(n: nat, d: int)
    requires n >= 2 && n * d == PTS_BUMP
    ensures 0 < d < PTS_BUMP
  {
    if d <= 0 {
      Negative(n, d);
    }
    assert (n - 1) * d + d == PTS_BUMP;
    if d > 0 {
      Grows(n - 1, d);
    }
  }

  lemma Negative(n: nat, d: int)
    requires d <= 0
    ensures n * d <= 0
  {
  }

  lemma Grows(n: nat, d: int)
    requires n >= 1 && d > 0
    ensures n * d >= d
  {
  }

  /** Earlier timestamps stay what they were. */
  lemma PastPtsOf(off: int, d: int, d': int, n0: nat, n: nat, k: nat)
    requires k < n && if d == 0 then n0 == n else n0 < n && d' == d
    ensures var n1 := if d' == 0 then n + 1 else if d == 0 then n else n0;
            PtsOf(off, d', n1, k) == PtsOf(off, d, n0, k)
  {
  }

  /** The timestamp of one batch, and what is remembered for the next. */
  lemma EmitPts(m: Mux, picks: seq<Pick>, now: int, n0: nat)
    requires picks != [] && PicksIn(m.pads, picks) && AllIn(m.order, m.pads)
    requires CountsBatches(m.cfg) && PtsOk(m, n0)
    ensures var b, m', d := EmitBatch(m, picks, now), EmitMux(m, picks, now), FrameDuration(m);
            && m'.firstDuration == d && (m.firstDuration != 0 ==> d == m.firstDuration)
            && b.batchIndex == m.batchIndex && m'.batchIndex == m.batchIndex + 1 && PtsOffset(m') == PtsOffset(m)
            && PtsOk(m', Switch(m, d, n0))
            && b.pts == PtsOf(PtsOffset(m), d, Switch(m, d, n0), m.batchIndex)
  {
    NextPtsOf(PtsOffset(m), m.firstDuration, FrameDuration(m), n0, m.batchIndex);
    hide FrameDuration, On, Metas, PtsOf;
    assert m.firstDuration != 0 ==> FrameDuration(m) == m.firstDuration by {
      KnownDuration(m);
    }
  }

  lemma KnownDuration(m: Mux)
    requires AllIn(m.order, m.pads)
    ensures m.firstDuration != 0 ==> FrameDuration(m) == m.firstDuration
  {
    hide FirstKnownDuration;
  }

  // ---------------------------------------------------------------- one poll

  ghost predicate SamePts(m: Mux, m': Mux) {
    && m'.cfg == m.cfg && m'.base == m.base && m'.firstPush == m.firstPush
    && m'.firstDuration == m.firstDuration && m'.batchIndex == m.batchIndex && m'.prevPts == m.prevPts
  }

  ghost predicate BatchAt(trace: seq<Output>, k: int, n: nat) {
    0 <= k < |trace| && trace[k].Frames? && trace[k].batch.batchIndex == n
  }

  ghost predicate HasBatch(trace: seq<Output>, n: nat) {
    exists k :: BatchAt(trace, k, n)
  }

  /** Every batch up to the present has gone out, with its timestamp. */
  ghost predicate Timed(trace: seq<Output>, m: Mux, n0: nat) {
    && (forall k, n: nat :: BatchAt(trace, k, n) ==>
          n < m.batchIndex && trace[k].batch.pts == PtsOf(PtsOffset(m), m.firstDuration, n0, n))
    && (forall n: nat :: n < m.batchIndex ==> HasBatch(trace, n))
  }

  /** What one batch stage does to the timestamps. */
  ghost predicate Advances(m: Mux, m': Mux, outs: seq<Output>, n0: nat, n1: nat) {
    && PtsOk(m', n1) && m'.cfg == m.cfg && PtsOffset(m') == PtsOffset(m) && m'.firstPush == m.firstPush
    && (m.firstDuration != 0 ==> m'.firstDuration == m.firstDuration && n1 == n0)
    && if outs == [] then SamePts(m, m') && n1 == n0
       else
         && |outs| == 1 && outs[0].Frames? && m'.batchIndex == m.batchIndex + 1
         && n1 == Switch(m, m'.firstDuration, n0)
         && outs[0].batch.batchIndex == m.batchIndex
         && outs[0].batch.pts == PtsOf(PtsOffset(m), m'.firstDuration, n1, m.batchIndex)
  }

  lemma BatchPts(m: Mux, now: int, e: Effect, n0: nat) returns (n1: nat)
    requires m.cfg.overallMaxFps > 0.0 && AllIn(m.order, m.pads) && CountsBatches(m.cfg) && PtsOk(m, n0)
    requires e == BatchStage(m, now)
    ensures Advances(m, e.mux, e.outs, n0, n1)
  {
    hide Form, EmitMux, EmitBatch, FrameDuration, PtsOf;
    var f := Form(m, now);
    var m' := Formed(m, f);
    n1 := n0;
    if f.picks != [] && f.go {
      EmitPts(m', f.picks, now, n0);
      n1 := Switch(m', FrameDuration(m'), n0);
      EmitKeepsPush(m', f.picks, now);
    }
  }

  lemma EmitKeepsPush(m: Mux, picks: seq<Pick>, now: int)
    requires picks != [] && PicksIn(m.pads, picks) && AllIn(m.order, m.pads)
    ensures EmitMux(m, picks, now).firstPush == m.firstPush && EmitMux(m, picks, now).cfg == m.cfg
  {
    hide On, OutputPts, FrameDuration;
  }

  lemma EosKeepsPts(m: Mux)
    requires AllIn(m.order, m.pads)
    ensures SamePts(m, EosStage(m).mux) && NoBatch(EosStage(m).outs)
  {
    hide EosNotices;
  }

  ghost predicate NoBatch(outs: seq<Output>) {
    forall k :: 0 <= k < |outs| ==> !outs[k].Frames?
  }

  lemma EndKeepsPts(m: Mux)
    ensures SamePts(m, EndStage(m).mux) && NoBatch(EndStage(m).outs)
  {
  }

  lemma HasLater(trace: seq<Output>, outs: seq<Output>, n: nat)
    requires HasBatch(trace, n)
    ensures HasBatch(trace + outs, n)
  {
    var k :| BatchAt(trace, k, n);
    assert BatchAt(trace + outs, k, n);
  }

  lemma TimedQuiet(trace: seq<Output>, m: Mux, outs: seq<Output>, m': Mux, n0: nat)
    requires Timed(trace, m, n0) && SamePts(m, m') && NoBatch(outs)
    ensures Timed(trace + outs, m', n0)
  {
    hide PtsOf;
    assert PtsOffset(m') == PtsOffset(m);
    hide PtsOffset;
    forall k, n: nat | BatchAt(trace + outs, k, n) ensures BatchAt(trace, k, n) {
    }
    forall n: nat | n < m'.batchIndex ensures HasBatch(trace + outs, n) {
      HasLater(trace, outs, n);
    }
  }

  lemma PtsOkSame(m: Mux, m': Mux, n0: nat)
    requires SamePts(m, m') && PtsOk(m, n0)
    ensures PtsOk(m', n0) && PtsOffset(m') == PtsOffset(m)
  {
    hide PtsOf;
  }

  lemma TimedOne(trace: seq<Output>, m: Mux, m': Mux, b: Batch, n0: nat, n1: nat)
    requires Timed(trace, m, n0) && PtsOk(m, n0) && Advances(m, m', [Frames(b)], n0, n1)
    ensures Timed(trace + [Frames(b)], m', n1)
  {
    var off, out := PtsOffset(m), trace + [Frames(b)];
    forall k, n: nat | BatchAt(out, k, n)
      ensures n < m'.batchIndex && out[k].batch.pts == PtsOf(off, m'.firstDuration, n1, n)
    {
      if k < |trace| {
        assert BatchAt(trace, k, n);
        PastPtsOf(off, m.firstDuration, m'.firstDuration, n0, m.batchIndex, n);
      }
    }
    forall n: nat | n < m'.batchIndex ensures HasBatch(out, n) {
      if n < m.batchIndex {
        HasLater(trace, [Frames(b)], n);
      } else {
        assert BatchAt(out, |trace|, n);
      }
    }
  }

  /** A poll, as far as timestamps go. */
  ghost predicate Clocked(m: Mux, m': Mux, n0: nat, n1: nat) {
    && PtsOk(m', n1) && m'.cfg == m.cfg && m'.firstPush == m.firstPush && PtsOffset(m') == PtsOffset(m)
    && m.batchIndex <= m'.batchIndex && Learns(m, m', n0, n1)
  }

  /** A duration stays; a batch `n1` that teaches it is one sent since. */
  ghost predicate Learns(m: Mux, m': Mux, n0: nat, n1: nat) {
    && (m.firstDuration != 0 ==> m'.firstDuration == m.firstDuration && n1 == n0)
    && (m.firstDuration == 0 ==> m.batchIndex <= n1 <= m'.batchIndex)
  }

  lemma BodyTimed(trace: seq<Output>, m: Mux, now: int, e: Effect, n0: nat) returns (n1: nat)
    requires m.cfg.overallMaxFps > 0.0 && AllIn(m.order, m.pads) && CountsBatches(m.cfg) && PtsOk(m, n0)
    requires e == PollBody(m, now) && Timed(trace, m, n0)
    ensures Clocked(m, e.mux, n0, n1) && Timed(trace + e.outs, e.mux, n1)
  {
    hide EosStage, BatchStage, EndStage, Timed, PtsOk, PtsOffset, NoBatch, Advances, Clocked;
    EosKeepsPts(m);
    var e1 := EosStage(m);
    PtsOkSame(m, e1.mux, n0);
    TimedQuiet(trace, m, e1.outs, e1.mux, n0);
    var e2 := BatchStage(e1.mux, now);
    n1 := BatchPts(e1.mux, now, e2, n0);
    var e3 := if e2.picks != [] then EosStage(e2.mux) else Effect(e2.mux, [], [], []);
    if e2.picks != [] {
      EosKeepsPts(e2.mux);
    } else {
      NothingOut(e2.mux);
    }
    var e4 := EndStage(e3.mux);
    EndKeepsPts(e3.mux);
    TimedStage(trace + e1.outs, e1.mux, e2, n0, n1);
    PtsOkSame(e2.mux, e3.mux, n1);
    PtsOkSame(e3.mux, e4.mux, n1);
    TimedQuiet(trace + e1.outs + e2.outs, e2.mux, e3.outs, e3.mux, n1);
    TimedQuiet(trace + e1.outs + e2.outs + e3.outs, e3.mux, e4.outs, e4.mux, n1);
    Regroup(trace, e1.outs, e2.outs, e3.outs, e4.outs);
    ClockedThrough(m, e1.mux, e2, e4.mux, n0, n1);
  }

  lemma NothingOut(m: Mux)
    ensures SamePts(m, m) && NoBatch([])
  {
  }

  lemma ClockedThrough(m: Mux, m1: Mux, e2: Effect, m': Mux, n0: nat, n1: nat)
    requires SamePts(m, m1) && PtsOk(m1, n0) && Advances(m1, e2.mux, e2.outs, n0, n1) && SamePts(e2.mux, m') && PtsOk(m', n1)
    ensures Clocked(m, m', n0, n1)
  {
    hide PtsOf;
  }

  lemma TimedStage(trace: seq<Output>, m: Mux, e: Effect, n0: nat, n1: nat)
    requires Timed(trace, m, n0) && PtsOk(m, n0) && Advances(m, e.mux, e.outs, n0, n1)
    ensures PtsOk(e.mux, n1) && Timed(trace + e.outs, e.mux, n1)
  {
    if e.outs == [] {
      TimedQuiet(trace, m, [], e.mux, n0);
    } else {
      assert e.outs == [Frames(e.outs[0].batch)];
      TimedOne(trace, m, e.mux, e.outs[0].batch, n0, n1);
    }
    hide Timed, PtsOk;
  }

  // ---------------------------------------------------------------- runs

  /** The clock of the run is set at most once, and before the first frame. */
  predicate StartsEarly(w: World, s: Step) { s.StartAt? ==> w.mux.firstPush.None? }

  ghost predicate OnTime(w: World, n0: nat) {
    && CountsBatches(w.mux.cfg) && PtsOk(w.mux, n0) && Timed(w.trace, w.mux, n0)
    && (w.mux.batchIndex >= 1 ==> w.mux.firstPush.Some?)
  }

  /** A batch needs a frame, and a frame a first push. */
  lemma PicksNeedPush(w: World, now: int)
    requires Inv(w) && !w.mux.cfg.syncInputs && Poll(w.mux, now).picks != []
    ensures w.mux.firstPush.Some?
  {
    InvIsSound(w);
    PollPicksIn(w.mux, now);
    hide Poll, Ordered;
    var picks := Poll(w.mux, now).picks;
    var last := picks[|picks| - 1];
    OnMember(picks, last.pad, last.q);
    PollTakes(w.mux, now, last.pad);
    assert PadOk(w.mux.cfg, w.mux.pads[last.pad], w.hist[last.pad], w.clock);
  }

  lemma PollPicksIn(m: Mux, now: int)
    requires m.cfg.overallMaxFps > 0.0 && AllIn(m.order, m.pads)
    ensures PicksIn(m.pads, Poll(m, now).picks)
  {
    var m1 := EosStage(m.(pending := [])).mux;
    BatchStageKeeps(m1, now);
    hide EosNotices, BatchStage;
  }

  /** Without a batch the counter stays. */
  lemma NoBatchNoCount(m: Mux, now: int)
    requires m.cfg.overallMaxFps > 0.0 && AllIn(m.order, m.pads)
    ensures Poll(m, now).picks == [] ==> Poll(m, now).mux.batchIndex == m.batchIndex
  {
    StageCounts(EosStage(m.(pending := [])).mux, now);
    hide EosNotices, BatchStage, ClosePad, Notices, Mux.AllEos;
  }

  lemma StageCounts(m: Mux, now: int)
    requires m.cfg.overallMaxFps > 0.0 && AllIn(m.order, m.pads)
    ensures BatchStage(m, now).picks == [] ==> BatchStage(m, now).mux.batchIndex == m.batchIndex
  {
    hide Form, EmitMux, EmitBatch;
  }

  lemma PollNeedsPush(w: World, now: int)
    requires Inv(w) && CountsBatches(w.mux.cfg) && (w.mux.batchIndex >= 1 ==> w.mux.firstPush.Some?)
    ensures Poll(w.mux, now).mux.batchIndex >= 1 ==> w.mux.firstPush.Some?
  {
    if Poll(w.mux, now).picks != [] {
      PicksNeedPush(w, now);
    }
    NoBatchNoCount(w.mux, now);
    hide Inv, Poll;
  }

  lemma FlushTimed(trace: seq<Output>, m: Mux, n0: nat)
    requires Timed(trace, m, n0) && PtsOk(m, n0)
    ensures Timed(trace + Notices(m.pending), m.(pending := []), n0) && PtsOk(m.(pending := []), n0)
  {
    TimedQuiet(trace, m, Notices(m.pending), m.(pending := []), n0);
    PtsOkSame(m, m.(pending := []), n0);
  }

  lemma PollParts(w: World, now: int)
    requires w.mux.WellFormed()
    ensures var m := w.mux.(pending := []);
            && m.cfg.overallMaxFps > 0.0 && AllIn(m.order, m.pads)
            && var e, w' := PollBody(m, now), NextPoll(w, now);
            && w'.mux == e.mux && w'.trace == w.trace + Notices(w.mux.pending) + e.outs
            && e.mux == Poll(w.mux, now).mux
  {
    hide PollBody, AbsorbAll;
    var m := w.mux.(pending := []);
    var e := PollBody(m, now);
    assert w.trace + (Notices(w.mux.pending) + e.outs) == w.trace + Notices(w.mux.pending) + e.outs;
  }

  lemma PollOnTime(w: World, now: int, n0: nat) returns (n1: nat)
    requires Inv(w) && w.mux.WellFormed() && OnTime(w, n0)
    ensures OnTime(NextPoll(w, now), n1) && Learns(w.mux, NextPoll(w, now).mux, n0, n1)
  {
    var m := w.mux.(pending := []);
    PollNeedsPush(w, now);
    FlushTimed(w.trace, w.mux, n0);
    PollParts(w, now);
    hide Inv, NextPoll, Poll, PollBody, Timed, PtsOk, Mux.WellFormed;
    n1 := BodyTimed(w.trace + Notices(w.mux.pending), m, now, PollBody(m, now), n0);
    hide PtsOffset;
  }

  /** Before the first batch any origin of time is right. */
  lemma BeforeFirstBatch(trace: seq<Output>, m: Mux, m': Mux, n0: nat)
    requires PtsOk(m, n0) && Timed(trace, m, n0) && m.batchIndex == 0
    requires m'.batchIndex == 0 && m'.firstDuration == m.firstDuration && m'.prevPts == m.prevPts
    ensures PtsOk(m', n0) && Timed(trace, m', n0)
  {
    hide PtsOffset, PtsOf;
    forall k, n: nat | BatchAt(trace, k, n) ensures false {
    }
  }

  lemma SameOnTime(w: World, w': World, n0: nat)
    requires OnTime(w, n0) && w'.trace == w.trace && w'.mux.cfg == w.mux.cfg
    requires w'.mux.firstDuration == w.mux.firstDuration && w'.mux.batchIndex == w.mux.batchIndex
    requires w'.mux.prevPts == w.mux.prevPts
    requires w.mux.firstPush.Some? ==> w'.mux.firstPush.Some? && PtsOffset(w'.mux) == PtsOffset(w.mux)
    ensures OnTime(w', n0)
  {
    hide PtsOffset, PtsOf;
    if w.mux.firstPush.None? {
      BeforeFirstBatch(w.trace, w.mux, w'.mux, n0);
    }
  }

  lemma PushKeepsPts(w: World, i: int, a: Arrival, duration: int, now: int)
    requires MuxOk(w.mux, w.clock) && w.hist.Keys == w.mux.pads.Keys
    ensures var w' := NextPush(w, i, a, duration, now);
            && w'.trace == w.trace && w'.mux.cfg == w.mux.cfg && w'.mux.firstDuration == w.mux.firstDuration
            && w'.mux.batchIndex == w.mux.batchIndex && w'.mux.prevPts == w.mux.prevPts
            && (w.mux.firstPush.Some? ==> w'.mux.firstPush == w.mux.firstPush && w'.mux.base == w.mux.base)
  {
    hide PushPad, PushHistory;
  }

  lemma OthersKeepPts(w: World, s: Step, w': World)
    requires Follows(w, s, w') && !s.PollAt? && !s.PushAt? && StartsEarly(w, s)
    ensures w'.trace == w.trace && w'.mux.cfg == w.mux.cfg && w'.mux.firstDuration == w.mux.firstDuration
    ensures w'.mux.batchIndex == w.mux.batchIndex && w'.mux.prevPts == w.mux.prevPts
    ensures w.mux.firstPush.Some? ==> w'.mux.firstPush == w.mux.firstPush && w'.mux.base == w.mux.base
  {
    hide NextPoll, NextPush, Without, Tagged, Absorb;
  }

  lemma FollowOnTime(w: World, s: Step, w': World, n0: nat) returns (n1: nat)
    requires Inv(w) && OnTime(w, n0) && Follows(w, s, w') && StartsEarly(w, s)
    ensures OnTime(w', n1) && Learns(w.mux, w'.mux, n0, n1)
  {
    n1 := n0;
    if s.PollAt? {
      hide OnTime, Inv, NextPoll, Learns;
      n1 := PollOnTime(w, s.now, n0);
    } else {
      if s.PushAt? {
        hide NextPush;
        PushKeepsPts(w, s.pad, s.arrival, s.duration, s.now);
      } else {
        OthersKeepPts(w, s, w');
      }
      hide Follows, Inv, Timed;
      assert Learns(w.mux, w'.mux, n0, n0) by {
        hide PtsOf;
      }
      hide PtsOk;
      SameOnTime(w, w', n0);
    }
  }

  /** What a mux seen earlier in a run says about the duration and the batch that
      taught it. */
  predicate Since(m: Mux, m': Mux, n0: nat) {
    if m.firstDuration != 0 then m'.firstDuration == m.firstDuration && n0 < m.batchIndex else m.batchIndex <= n0
  }

  lemma SinceLater(m: Mux, w: World, w': World, n0: nat, n1: nat)
    requires Since(m, w.mux, n0) && OnTime(w, n0) && Learns(w.mux, w'.mux, n0, n1)
    ensures Since(m, w'.mux, n1)
  {
    hide Timed, PtsOf;
  }

  lemma {:induction false} RunOnTime(ws: seq<World>, steps: seq<Step>, k: nat) returns (n0: nat)
    requires Run(ws, steps) && k < |ws| && Inv(ws[0]) && OnTime(ws[0], 0) && ws[0].mux.firstDuration == 0
    requires forall j :: 0 <= j < |steps| ==> StartsEarly(ws[j], steps[j])
    ensures OnTime(ws[k], n0)
    ensures forall j :: 0 <= j <= k ==> Since(ws[j].mux, ws[k].mux, n0)
    decreases k
  {
    hide Inv, Follows, OnTime, StartsEarly, Learns, Since;
    if k == 0 {
      n0 := 0;
    } else {
      RunKeepsInv(ws, steps, k - 1);
      var w, w' := ws[k - 1], ws[k];
      var n := RunOnTime(ws, steps, k - 1);
      n0 := FollowOnTime(w, steps[k - 1], w', n);
      forall j | 0 <= j < k ensures Since(ws[j].mux, w'.mux, n0) {
        SinceLater(ws[j].mux, w, w', n, n0);
      }
    }
    OnTimeSince(ws[k], n0);
  }

  lemma OnTimeSince(w: World, n0: nat)
    requires OnTime(w, n0)
    ensures Since(w.mux, w.mux, n0)
  {
    hide Timed, PtsOf;
  }

  lemma StartsOnTime(cfg: MuxConfig, clock: int)
    requires CountsBatches(cfg)
    ensures OnTime(NewWorld(cfg, clock), 0)
  {
  }

  /** In every run of a mux that counts batches, every batch has exactly the timestamp
      PtsOf. Nothing is asked of the durations. The batch that taught the duration is
      pinned down by every state of the run: those without a duration have sent no
      batch beyond it, those with one have sent it, and their duration is the last one's. */
  lemma TimestampsExactly(cfg: MuxConfig, ws: seq<World>, steps: seq<Step>, k: nat) returns (n0: nat)
    requires RunFrom(cfg, ws, steps) && k < |ws| && CountsBatches(cfg)
    requires forall j :: 0 <= j < |steps| ==> StartsEarly(ws[j], steps[j])
    ensures Timed(ws[k].trace, ws[k].mux, n0)
    ensures if ws[k].mux.firstDuration == 0 then n0 == ws[k].mux.batchIndex else n0 < ws[k].mux.batchIndex
    ensures forall j :: 0 <= j <= k ==>
              if ws[j].mux.firstDuration != 0
              then ws[j].mux.firstDuration == ws[k].mux.firstDuration && n0 < ws[j].mux.batchIndex
              else ws[j].mux.batchIndex <= n0
  {
    hide Inv, Follows, StartsEarly, NewWorld, OnTime;
    var clock :| ws[0] == NewWorld(cfg, clock);
    NewWorldOk(cfg, clock);
    StartsOnTime(cfg, clock);
    NoDurationYet(cfg, clock);
    n0 := RunOnTime(ws, steps, k);
    OnTimeMeans(ws[k], n0);
    assert forall j :: 0 <= j <= k ==> Since(ws[j].mux, ws[k].mux, n0);
  }

  lemma NoDurationYet(cfg: MuxConfig, clock: int)
    ensures NewWorld(cfg, clock).mux.firstDuration == 0
  {
  }

  lemma OnTimeMeans(w: World, n0: nat)
    requires OnTime(w, n0)
    ensures Timed(w.trace, w.mux, n0)
    ensures if w.mux.firstDuration == 0 then n0 == w.mux.batchIndex else n0 < w.mux.batchIndex
  {
    hide Timed, PtsOf;
  }

  // ---------------------------------------------------------------- when timestamps count and rise

  /** From batch `n0` on batch n carries off + n * d. */
  ghost predicate CountsFrom(trace: seq<Output>, off: int, d: int, n0: nat) {
    forall k, n: nat :: BatchAt(trace, k, n) && n0 <= n ==> trace[k].batch.pts == off + n * d
  }

  /** From batch `n0` on every batch is later than all batches before it. */
  ghost predicate RisesFrom(trace: seq<Output>, n0: nat) {
    forall j, k, l: nat, n: nat :: BatchAt(trace, j, l) && BatchAt(trace, k, n) && l < n && n0 <= n ==>
      trace[j].batch.pts < trace[k].batch.pts
  }

  /** The condition on a duration learned with batch `n0`: positive, and its timestamp
      there behind those that went out without one. */
  predicate FarEnough(d: int, n0: nat) {
    d > 0 && (n0 <= 1 || n0 * d > PTS_BUMP)
  }

  lemma Multiples(a: nat, b: nat, d: int)
    requires a < b && d > 0
    ensures a * d < b * d
  {
    assert b * d == a * d + (b - a) * d;
    Grows(b - a, d);
  }

  lemma FarMeans(off: int, d: int, n0: nat, l: nat, n: nat)
    requires FarEnough(d, n0) && n0 <= n
    ensures PtsOf(off, d, n0, n) == off + n * d
    ensures l < n ==> PtsOf(off, d, n0, l) < off + n * d
  {
    if l < n {
      Multiples(l, n, d);
      if l < n0 && n0 < n {
        Multiples(n0, n, d);
      }
    }
  }

  /** Two batches where timestamps fail to count or to rise. */
  lemma NearMeans(off: int, d: int, n0: nat) returns (l: nat, n: nat)
    requires d != 0 && !FarEnough(d, n0)
    ensures l < n && n0 <= n && n <= (if n0 == 0 then 1 else n0)
    ensures PtsOf(off, d, n0, n) == off + n * d ==> PtsOf(off, d, n0, n) <= PtsOf(off, d, n0, l)
  {
    if n0 == 0 {
      l, n := 0, 1;
    } else if d < 0 {
      l, n := 0, n0;
      Negative(n0, d);
    } else {
      l, n := 1, n0;
    }
  }

  lemma CountingRises(trace: seq<Output>, m: Mux, n0: nat)
    requires Timed(trace, m, n0) && m.firstDuration != 0 && n0 < m.batchIndex
    ensures CountsFrom(trace, PtsOffset(m), m.firstDuration, n0) && RisesFrom(trace, n0) <==>
            m.batchIndex == 1 || FarEnough(m.firstDuration, n0)
  {
    var off, d := PtsOffset(m), m.firstDuration;
    hide PtsOffset, FarEnough;
    if FarEnough(d, n0) {
      Rising(trace, m, off, n0);
    } else if m.batchIndex == 1 {
      OnlyBatch(trace, m, off, n0);
    } else {
      NotRising(trace, m, off, n0);
    }
  }

  lemma Rising(trace: seq<Output>, m: Mux, off: int, n0: nat)
    requires Timed(trace, m, n0) && off == PtsOffset(m) && FarEnough(m.firstDuration, n0)
    ensures CountsFrom(trace, off, m.firstDuration, n0) && RisesFrom(trace, n0)
  {
    hide PtsOffset, FarEnough, PtsOf;
    forall k, n: nat | BatchAt(trace, k, n) && n0 <= n ensures trace[k].batch.pts == off + n * m.firstDuration {
      FarMeans(off, m.firstDuration, n0, n, n);
    }
    forall j, k, l: nat, n: nat | BatchAt(trace, j, l) && BatchAt(trace, k, n) && l < n && n0 <= n
      ensures trace[j].batch.pts < trace[k].batch.pts
    {
      FarMeans(off, m.firstDuration, n0, l, n);
    }
  }

  lemma OnlyBatch(trace: seq<Output>, m: Mux, off: int, n0: nat)
    requires Timed(trace, m, n0) && off == PtsOffset(m) && m.batchIndex == 1 && n0 == 0
    ensures CountsFrom(trace, off, m.firstDuration, n0) && RisesFrom(trace, n0)
  {
    hide PtsOffset;
    forall k, n: nat | BatchAt(trace, k, n) ensures n == 0 && trace[k].batch.pts == off + n * m.firstDuration {
    }
  }

  lemma NotRising(trace: seq<Output>, m: Mux, off: int, n0: nat)
    requires Timed(trace, m, n0) && off == PtsOffset(m) && m.firstDuration != 0 && !FarEnough(m.firstDuration, n0)
    requires m.batchIndex >= 2 && n0 < m.batchIndex
    ensures !(CountsFrom(trace, off, m.firstDuration, n0) && RisesFrom(trace, n0))
  {
    var l, n := NearMeans(off, m.firstDuration, n0);
    hide PtsOffset, FarEnough, PtsOf;
    assert HasBatch(trace, l) && HasBatch(trace, n);
    var j :| BatchAt(trace, j, l);
    var k :| BatchAt(trace, k, n);
    if CountsFrom(trace, off, m.firstDuration, n0) {
      assert trace[k].batch.pts <= trace[j].batch.pts;
    }
  }

  /** In every run of a mux that counts batches and has learned a duration D with batch
      n0: every batch from n0 on carries offset + n * D and is later than all batches
      before it if and only if D > 0 and n0 is at most 1 or n0 * D above 250000. */
  lemma TimestampsCountBatches(cfg: MuxConfig, ws: seq<World>, steps: seq<Step>, k: nat) returns (n0: nat)
    requires RunFrom(cfg, ws, steps) && k < |ws| && CountsBatches(cfg) && ws[k].mux.firstDuration != 0
    requires forall j :: 0 <= j < |steps| ==> StartsEarly(ws[j], steps[j])
    ensures n0 < ws[k].mux.batchIndex
    ensures forall j :: 0 <= j <= k ==>
              if ws[j].mux.firstDuration != 0
              then ws[j].mux.firstDuration == ws[k].mux.firstDuration && n0 < ws[j].mux.batchIndex
              else ws[j].mux.batchIndex <= n0
    ensures var off, d := PtsOffset(ws[k].mux), ws[k].mux.firstDuration;
            CountsFrom(ws[k].trace, off, d, n0) && RisesFrom(ws[k].trace, n0) <==>
            ws[k].mux.batchIndex == 1 || FarEnough(d, n0)
  {
    n0 := TimestampsExactly(cfg, ws, steps, k);
    hide RunFrom, Timed, StartsEarly, CountsFrom, RisesFrom, FarEnough, PtsOffset;
    CountingRises(ws[k].trace, ws[k].mux, n0);
  }

  /** Where they fail: a duration of 125000 learned with batch 2 gives offset + 500000
      and then offset + 375000. */
  lemma CollisionFallsBack(off: int)
    ensures PtsOf(off, 125_000, 2, 2) == off + 500_000 && PtsOf(off, 125_000, 2, 3) == off + 375_000
    ensures !FarEnough(125_000, 2)
    ensures forall d, n0: nat :: 125_001 <= d && n0 >= 2 ==> FarEnough(d, n0)
  {
    forall d, n0: nat | 125_001 <= d && n0 >= 2 ensures FarEnough(d, n0) {
      assert n0 * d == 2 * d + (n0 - 2) * d;
      assert (n0 - 2) * d >= 0;
    }
  }
}
