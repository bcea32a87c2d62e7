/** The maximum rate: with it on, batches of the new policy keep their distance. */
module MuxRate {
  import opened Shared
  import opened MuxTypes
  import opened MuxSpec
  import opened BatchSplit
  import opened MuxRuns
  import opened PadLedger
  import opened MuxInvariant
  import opened MuxSafety
  import opened MuxFairness
  import opened MuxLiveness
  import opened MuxQuiet
  import opened MuxBatches
  import opened MuxModes
  import opened MuxShares

  /** The greatest number of whole nanoseconds that fit into a period of the maximum rate. */
  lemma MaxFpsDurIs(cfg: MuxConfig, d: nat)
    requires cfg.overallMaxFps > 0.0
    ensures d <= cfg.MaxFpsDur() <==> d as real * cfg.overallMaxFps <= NS as real
    ensures cfg.MaxFpsDur() >= 0
  {
    var period := NS as real / cfg.overallMaxFps;
    Quotient(NS as real, cfg.overallMaxFps, d as real);
    Quotient(NS as real, cfg.overallMaxFps, 0.0);
    TruncateIs(period);
    hide Truncate;
  }

  /** When the last batch of an output went out. */
  function LastSent(trace: seq<Output>): Option<int> {
    if trace == [] then None
    else
      var n := |trace| - 1;
      if trace[n].Frames? then Some(trace[n].batch.push) else LastSent(trace[..n])
  }

  lemma {:induction false} LastSentQuiet(trace: seq<Output>, outs: seq<Output>)
    requires NoBatch(outs)
    ensures LastSent(trace + outs) == LastSent(trace)
  {
    if outs == [] {
      assert trace + outs == trace;
    } else {
      var n := |outs| - 1;
      assert (trace + outs)[..|trace| + n] == trace + outs[..n];
      LastSentQuiet(trace, outs[..n]);
    }
  }

  lemma LastSentBatch(trace: seq<Output>, b: Batch)
    ensures LastSent(trace + [Frames(b)]) == Some(b.push)
  {
  }

  /** The mux knows when it sent its last batch. */
  ghost predicate KnowsLast(w: World) {
    LastSent(w.trace).Some? ==> w.mux.firstPush.Some? && w.mux.lastBatch == LastSent(w.trace)
  }

  lemma StageSetsTimer(m: Mux, now: int)
    requires m.WellFormed()
    ensures AllIn(m.order, m.pads) && m.cfg.overallMaxFps > 0.0
    ensures BatchStage(EosStage(m.(pending := [])).mux, now).mux.lastBatch == if Sent(m, now) == [] then m.lastBatch else Some(now)
    ensures BatchStage(EosStage(m.(pending := [])).mux, now).mux.firstPush == m.firstPush
    ensures Sent(m, now) != [] ==> |Sent(m, now)| == 1 && Sent(m, now)[0].Frames? && Sent(m, now)[0].batch.push == now
  {
    PolledWell(m);
    hide Form, ForwardEos, EosNotices, OutputPts, On, FrameDuration;
  }

  lemma PollSetsLast(m: Mux, now: int)
    requires m.WellFormed()
    ensures AllIn(m.order, m.pads) && m.cfg.overallMaxFps > 0.0
    ensures Poll(m, now).mux.lastBatch == (if Sent(m, now) == [] then m.lastBatch else Some(now))
    ensures Poll(m, now).mux.firstPush == m.firstPush
    ensures Sent(m, now) != [] ==> |Sent(m, now)| == 1 && Sent(m, now)[0].Frames? && Sent(m, now)[0].batch.push == now
  {
    PolledWell(m);
    StageSetsTimer(m, now);
    hide Form, EosNotices, BatchStage, Sent, Polled, ClosePad;
  }

  /** A batch needs a frame, and a frame a first push. */
  lemma SentNeedsPush(w: World, now: int, b: Batch)
    requires Inv(w) && w.mux.WellFormed() && Sent(w.mux, now) == [Frames(b)]
    ensures w.mux.firstPush.Some?
  {
    hide *;
    var m, picks := SentParts(w, now, b);
    InvBasics(w);
    QueuedWasPushed(w, picks[0].pad);
  }

  lemma PollKnows(w: World, now: int)
    requires Inv(w) && w.mux.WellFormed() && KnowsLast(w)
    ensures KnowsLast(NextPoll(w, now))
  {
    hide Inv, Mux.WellFormed, Poll, Sent, NextPoll, LastSent;
    var before, after := PollOuts(w.mux, now);
    PollSetsLast(w.mux, now);
    PollTraceIs(w, now);
    var sent := Sent(w.mux, now);
    assert w.trace + (before + sent + after) == w.trace + before + sent + after;
    LastSentQuiet(w.trace, before);
    if sent != [] {
      assert sent == [Frames(sent[0].batch)];
      SentNeedsPush(w, now, sent[0].batch);
      LastSentBatch(w.trace + before, sent[0].batch);
    } else {
      assert w.trace + before + sent == w.trace + before;
    }
    LastSentQuiet(w.trace + before + sent, after);
  }

  lemma OtherKeepsLast(w: World, s: Step)
    requires w.mux.WellFormed() && w.hist.Keys == w.mux.pads.Keys && Enabled(w, s) && !s.PollAt? && w.mux.firstPush.Some?
    ensures Next(w, s).mux.lastBatch == w.mux.lastBatch && Next(w, s).mux.firstPush == w.mux.firstPush
  {
    hide Poll, PushPad, Without, Tagged, Mux.WellFormed, PushHistory, NewPad, Absorb;
  }

  lemma FollowsKnows(w: World, s: Step, w': World)
    requires Inv(w) && Follows(w, s, w') && KnowsLast(w)
    ensures KnowsLast(w')
  {
    if s.PollAt? {
      hide Inv, NextPoll, KnowsLast;
      PollKnows(w, s.now);
    } else {
      hide Inv, Next, LastSent;
      OtherKeepsPrev(w, s);
      if w.mux.firstPush.Some? {
        OtherKeepsLast(w, s);
      }
    }
  }

  lemma {:induction false} RunKnows(ws: seq<World>, steps: seq<Step>, k: nat)
    requires Run(ws, steps) && k < |ws| && Inv(ws[0]) && KnowsLast(ws[0])
    ensures KnowsLast(ws[k])
  {
    hide Inv, Follows, KnowsLast;
    if k > 0 {
      RunKnows(ws, steps, k - 1);
      RunKeepsInv(ws, steps, k - 1);
      FollowsKnows(ws[k - 1], steps[k - 1], ws[k]);
    }
  }

  lemma NewWorldKnows(cfg: MuxConfig, clock: int)
    ensures KnowsLast(NewWorld(cfg, clock))
  {
  }

  lemma SentNotHeld(m: Mux, now: int, b: Batch)
    requires m.WellFormed() && Sent(m, now) == [Frames(b)] && m.cfg.policy == New
    ensures m.cfg.overallMaxFps > 0.0 && !HeldBack(m, now)
  {
    PolledWell(m);
    SentIs(m, now, b);
    GoesExactly(Polled(m), now);
    hide Polled, Form, Goes, RoundOf, RoundFull, MuxConfig.MaxFpsDur, EmitBatch, Sent;
  }

  lemma SentUntil(t: seq<Output>, trace: seq<Output>, x: nat)
    requires Until(t, trace, x)
    ensures LastSent(trace[..x]) == LastSent(t)
  {
    hide LastSent;
    assert trace[..x] == t + trace[|t|..x];
    LastSentQuiet(t, trace[|t|..x]);
  }

  lemma EveryWorldKnows(cfg: MuxConfig, ws: seq<World>, steps: seq<Step>, j: nat)
    requires RunFrom(cfg, ws, steps) && j < |ws|
    ensures LastSent(ws[j].trace).Some? ==> ws[j].mux.lastBatch == LastSent(ws[j].trace)
  {
    hide Inv, Follows, NewWorld, LastSent;
    var clock :| ws[0] == NewWorld(cfg, clock);
    NewWorldOk(cfg, clock);
    NewWorldKnows(cfg, clock);
    RunKnows(ws, steps, j);
  }

  /** With the maximum rate on, two batches of the new policy, one right after the other in
      the output of any run, are at least a period of that rate apart. */
  lemma RateIsKept(cfg: MuxConfig, ws: seq<World>, steps: seq<Step>, k: nat, x: nat) returns (j: nat)
    requires RunFrom(cfg, ws, steps) && k < |ws| && x < |ws[k].trace| && ws[k].trace[x].Frames?
    ensures j < k && j < |steps| && steps[j].PollAt? && ws[k].trace[x].batch.push == steps[j].now
    ensures ws[j].mux.cfg.policy == New && ws[j].mux.cfg.maxFpsControl && LastSent(ws[k].trace[..x]).Some? ==>
              ws[j].mux.cfg.overallMaxFps > 0.0 &&
              ws[k].trace[x].batch.push >= LastSent(ws[k].trace[..x]).value + ws[j].mux.cfg.MaxFpsDur()
  {
    hide *;
    j := EveryBatchHasItsPoll(cfg, ws, steps, k, x);
    PolledAtParts(ws, steps, j, ws[k].trace, x);
    var w, now, b := ws[j], steps[j].now, ws[k].trace[x].batch;
    PollSetsLast(w.mux, now);
    EveryWorldKnows(cfg, ws, steps, j);
    SentUntil(w.trace, ws[k].trace, x);
    if w.mux.cfg.policy == New {
      SentNotHeld(w.mux, now, b);
      NotHeldMeans(w.mux, now);
    }
  }

  lemma NotHeldMeans(m: Mux, now: int)
    requires m.cfg.overallMaxFps > 0.0 && !HeldBack(m, now)
    ensures m.cfg.maxFpsControl && m.lastBatch.Some? ==> now >= m.lastBatch.value + m.cfg.MaxFpsDur()
  {
    hide MuxConfig.MaxFpsDur;
  }
}
