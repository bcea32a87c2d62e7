/** Where the batches of an output come from: each is what one poll of the run formed,
    and the timestamp before it is the one the mux remembers. */
module MuxBatches {
  import opened Shared
  import opened MuxTypes
  import opened MuxSpec
  import opened BatchSplit
  import opened LegacyBatch
  import opened MuxRuns
  import opened PadLedger
  import opened MuxInvariant
  import opened MuxSafety
  import opened MuxDrain
  import opened MuxFairness
  import opened MuxDeadlines
  import opened MuxLiveness
  import opened MuxQuiet

  // ---------------------------------------------------------------- one poll

  ghost predicate NoBatch(outs: seq<Output>) {
    forall k :: 0 <= k < |outs| ==> !outs[k].Frames?
  }

  /** What a poll at `now` forms its batch from, and the batch if one goes. */
  function Sent(m: Mux, now: int): seq<Output>
    requires m.WellFormed()
  {
    PolledWell(m);
    var p := Polled(m);
    var f := Form(p, now);
    if Goes(f) then [Frames(EmitBatch(Formed(p, f), f.picks, now))] else []
  }

  lemma PolledWell(m: Mux)
    requires m.WellFormed()
    ensures AllIn(m.order, m.pads) && Polled(m).WellFormed() && AllIn(Polled(m).order, Polled(m).pads)
    ensures m.cfg.overallMaxFps > 0.0 && Polled(m).cfg == m.cfg && Polled(m).order == m.order
    ensures Polled(m).pads.Keys == m.pads.Keys && Polled(m).base == m.base && Polled(m).prevPts == m.prevPts
    ensures Polled(m).batchIndex == m.batchIndex && Polled(m).firstPush == m.firstPush && Polled(m).lastBatch == m.lastBatch
    ensures Polled(m).firstDuration == m.firstDuration && Polled(m).firstPad == m.firstPad
    ensures Polled(m).stats == m.stats
    ensures forall i :: i in m.pads ==> Polled(m).pads[i] == ClosePad(m.cfg, m.pads[i])
  {
    hide EosNotices;
  }

  lemma NoticesNoBatch(events: seq<Event>)
    ensures NoBatch(Notices(events))
  {
  }

  /** A poll puts out notices, the batch if one goes, and notices. */
  lemma PollOuts(m: Mux, now: int) returns (before: seq<Output>, after: seq<Output>)
    requires m.WellFormed()
    ensures AllIn(m.order, m.pads) && m.cfg.overallMaxFps > 0.0
    ensures Poll(m, now).outs == before + Sent(m, now) + after && NoBatch(before) && NoBatch(after)
  {
    hide *;
    var m0 := m.(pending := []);
    Flushing(m, now);
    var head, tail := BodyOuts(m0, now);
    StageSends(m, now);
    NoticesNoBatch(m.pending);
    before, after := Notices(m.pending) + head, tail;
    BothNoBatch(Notices(m.pending), head);
    assert Notices(m.pending) + (head + Sent(m, now) + tail) == before + Sent(m, now) + after;
  }

  lemma Flushing(m: Mux, now: int)
    requires m.WellFormed()
    ensures var m0 := m.(pending := []);
            && AllIn(m.order, m.pads) && m.cfg.overallMaxFps > 0.0 && AllIn(m0.order, m0.pads) && m0.cfg.overallMaxFps > 0.0
            && Poll(m, now).outs == Notices(m.pending) + PollBody(m0, now).outs
  {
    hide PollBody, Notices;
  }

  lemma BothNoBatch(a: seq<Output>, b: seq<Output>)
    requires NoBatch(a) && NoBatch(b)
    ensures NoBatch(a + b)
  {
  }

  lemma EosNoBatch(m: Mux)
    requires AllIn(m.order, m.pads)
    ensures NoBatch(EosStage(m).outs)
  {
    NoticesNoBatch(EosNotices(m.pads, m.order));
    hide Notices, EosNotices, ForwardEos;
  }

  lemma BodyOuts(m: Mux, now: int) returns (head: seq<Output>, tail: seq<Output>)
    requires m.cfg.overallMaxFps > 0.0 && AllIn(m.order, m.pads)
    ensures AllIn(EosStage(m).mux.order, EosStage(m).mux.pads) && EosStage(m).mux.cfg.overallMaxFps > 0.0
    ensures PollBody(m, now).outs == head + BatchStage(EosStage(m).mux, now).outs + tail && NoBatch(head) && NoBatch(tail)
  {
    var e1 := EosStage(m);
    hide EosStage, BatchStage, EndStage, NoBatch;
    var e2 := BatchStage(e1.mux, now);
    var e3 := if e2.picks != [] then EosStage(e2.mux) else Effect(e2.mux, [], [], []);
    var e4 := EndStage(e3.mux);
    EosNoBatch(m);
    if e2.picks != [] {
      EosNoBatch(e2.mux);
    } else {
      NoticesNone();
    }
    EndNoBatch(e3.mux);
    BothNoBatch(e3.outs, e4.outs);
    head, tail := e1.outs, e3.outs + e4.outs;
    assert e1.outs + e2.outs + e3.outs + e4.outs == head + e2.outs + tail;
  }

  lemma NoticesNone()
    ensures NoBatch([])
  {
  }

  lemma EndNoBatch(m: Mux)
    ensures NoBatch(EndStage(m).outs)
  {
  }

  lemma StageSends(m: Mux, now: int)
    requires m.WellFormed()
    ensures AllIn(m.order, m.pads) && m.cfg.overallMaxFps > 0.0
    ensures BatchStage(EosStage(m.(pending := [])).mux, now).outs == Sent(m, now)
    ensures BatchStage(EosStage(m.(pending := [])).mux, now).picks == if Sent(m, now) == [] then [] else Form(Polled(m), now).picks
  {
    PolledWell(m);
    hide Form, EmitBatch, EmitMux, ForwardEos, EosNotices;
  }

  // ---------------------------------------------------------------- the timestamp before

  /** The timestamp of the last batch of an output. */
  function LastPts(trace: seq<Output>): Option<int> {
    if trace == [] then None
    else
      var n := |trace| - 1;
      if trace[n].Frames? then Some(trace[n].batch.pts) else LastPts(trace[..n])
  }

  lemma {:induction false} LastPtsQuiet(trace: seq<Output>, outs: seq<Output>)
    requires NoBatch(outs)
    ensures LastPts(trace + outs) == LastPts(trace)
  {
    if outs == [] {
      assert trace + outs == trace;
    } else {
      var n := |outs| - 1;
      assert (trace + outs)[..|trace| + n] == trace + outs[..n];
      LastPtsQuiet(trace, outs[..n]);
    }
  }

  lemma LastPtsBatch(trace: seq<Output>, b: Batch)
    ensures LastPts(trace + [Frames(b)]) == Some(b.pts)
  {
  }

  /** A poll remembers the timestamp it gave. */
  lemma PollRemembers(m: Mux, now: int)
    requires m.WellFormed()
    ensures AllIn(m.order, m.pads) && m.cfg.overallMaxFps > 0.0
    ensures Poll(m, now).mux.prevPts == if Sent(m, now) == [] then m.prevPts else Some(Sent(m, now)[0].batch.pts)
    ensures Sent(m, now) != [] ==> |Sent(m, now)| == 1 && Sent(m, now)[0].Frames?
  {
    PolledWell(m);
    StageRemembers(m, now);
    hide Form, EmitBatch, EmitMux, EosNotices, BatchStage, Sent, Polled;
  }

  lemma StageRemembers(m: Mux, now: int)
    requires m.WellFormed()
    ensures AllIn(m.order, m.pads) && m.cfg.overallMaxFps > 0.0
    ensures BatchStage(EosStage(m.(pending := [])).mux, now).mux.prevPts ==
            if Sent(m, now) == [] then m.prevPts else Some(Sent(m, now)[0].batch.pts)
    ensures Sent(m, now) != [] ==> |Sent(m, now)| == 1 && Sent(m, now)[0].Frames?
  {
    PolledWell(m);
    hide Form, ForwardEos, EosNotices, OutputPts, On, FrameDuration;
  }

  lemma PollTraceIs(w: World, now: int)
    requires w.mux.WellFormed()
    ensures AllIn(w.mux.order, w.mux.pads) && w.mux.cfg.overallMaxFps > 0.0
    ensures NextPoll(w, now).trace == w.trace + Poll(w.mux, now).outs && NextPoll(w, now).mux == Poll(w.mux, now).mux
  {
    hide Poll;
  }

  lemma OtherKeepsPrev(w: World, s: Step)
    requires w.mux.WellFormed() && w.hist.Keys == w.mux.pads.Keys && Enabled(w, s) && !s.PollAt?
    ensures Next(w, s).trace == w.trace && Next(w, s).mux.prevPts == w.mux.prevPts && Next(w, s).mux.cfg == w.mux.cfg
  {
    hide Poll, PushPad, Without, Tagged, Mux.WellFormed, PushHistory, NewPad, Absorb;
  }

  lemma PollKeepsPrev(w: World, now: int)
    requires w.mux.WellFormed() && w.mux.prevPts == LastPts(w.trace)
    ensures NextPoll(w, now).mux.prevPts == LastPts(NextPoll(w, now).trace)
  {
    hide *;
    var before, after := PollOuts(w.mux, now);
    PollRemembers(w.mux, now);
    PollTraceIs(w, now);
    var sent := Sent(w.mux, now);
    assert w.trace + (before + sent + after) == w.trace + before + sent + after;
    LastPtsQuiet(w.trace, before);
    if sent != [] {
      var b := sent[0].batch;
      assert sent == [Frames(b)];
      LastPtsBatch(w.trace + before, b);
    } else {
      assert w.trace + before + sent == w.trace + before;
    }
    LastPtsQuiet(w.trace + before + sent, after);
  }

  lemma FollowsKeepsPrev(w: World, s: Step, w': World)
    requires Inv(w) && Follows(w, s, w') && w.mux.prevPts == LastPts(w.trace)
    ensures w'.mux.prevPts == LastPts(w'.trace)
  {
    if s.PollAt? {
      hide Inv, NextPoll, LastPts;
      PollKeepsPrev(w, s.now);
    } else {
      hide Inv, Next, LastPts;
      OtherKeepsPrev(w, s);
    }
  }

  lemma {:induction false} RunKeepsPrev(ws: seq<World>, steps: seq<Step>, k: nat)
    requires Run(ws, steps) && k < |ws| && Inv(ws[0]) && ws[0].mux.prevPts == LastPts(ws[0].trace)
    ensures ws[k].mux.prevPts == LastPts(ws[k].trace)
  {
    hide Inv, Follows, LastPts;
    if k > 0 {
      RunKeepsPrev(ws, steps, k - 1);
      RunKeepsInv(ws, steps, k - 1);
      FollowsKeepsPrev(ws[k - 1], steps[k - 1], ws[k]);
    }
  }

  // ---------------------------------------------------------------- the poll of a batch

  /** Output `t` goes on to position `x` of `trace` without a batch in between. */
  ghost predicate Until(t: seq<Output>, trace: seq<Output>, x: nat) {
    |t| <= x <= |trace| && t <= trace && NoBatch(trace[|t|..x])
  }

  lemma UntilGrows(t: seq<Output>, trace: seq<Output>, more: seq<Output>, x: nat)
    requires Until(t, trace, x) && trace <= more
    ensures Until(t, more, x)
  {
    assert more[|t|..x] == trace[|t|..x];
  }

  /** Step `j` is the poll that put out position `x` of the trace, at `now` from mux `m`. */
  ghost predicate PolledAt(ws: seq<World>, steps: seq<Step>, j: nat, trace: seq<Output>, x: nat) {
    && j < |steps| && |ws| == |steps| + 1 && x < |trace| && steps[j].PollAt? && ws[j].mux.WellFormed()
    && Sent(ws[j].mux, steps[j].now) == [trace[x]] && LastPts(trace[..x]) == ws[j].mux.prevPts
    && Until(ws[j].trace, trace, x)
  }

  lemma PollGives(w: World, now: int, x: nat)
    requires w.mux.WellFormed() && w.mux.prevPts == LastPts(w.trace) && |w.trace| <= x < |NextPoll(w, now).trace|
    requires NextPoll(w, now).trace[x].Frames?
    ensures Sent(w.mux, now) == [NextPoll(w, now).trace[x]] && LastPts(NextPoll(w, now).trace[..x]) == w.mux.prevPts
    ensures Until(w.trace, NextPoll(w, now).trace, x)
  {
    hide *;
    var before, after := PollOuts(w.mux, now);
    PollRemembers(w.mux, now);
    PollTraceIs(w, now);
    var sent, t := Sent(w.mux, now), NextPoll(w, now).trace;
    assert t == w.trace + before + sent + after;
    var o := |w.trace| + |before|;
    InTheMiddle(w.trace, before, sent, after, x);
    assert t[..o] == w.trace + before;
    LastPtsQuiet(w.trace, before);
    assert x == o && t[|w.trace|..x] == before;
    MakesUntil(w.trace, t, x);
  }

  lemma MakesUntil(t: seq<Output>, trace: seq<Output>, x: nat)
    requires |t| <= x <= |trace| && t <= trace && NoBatch(trace[|t|..x])
    ensures Until(t, trace, x)
  {
  }

  lemma InTheMiddle(trace: seq<Output>, before: seq<Output>, sent: seq<Output>, after: seq<Output>, x: nat)
    requires NoBatch(before) && NoBatch(after) && |trace| <= x < |trace + before + sent + after|
    ensures var o := |trace| + |before|;
            (trace + before + sent + after)[x].Frames? ==> o <= x < o + |sent|
  {
    var o, t := |trace| + |before|, trace + before + sent + after;
    if x < o {
      assert t[x] == before[x - |trace|];
    } else if x >= o + |sent| {
      assert t[x] == after[x - o - |sent|];
    }
  }

  lemma {:induction false} BatchHasPoll(ws: seq<World>, steps: seq<Step>, k: nat, x: nat) returns (j: nat)
    requires Run(ws, steps) && k < |ws| && Inv(ws[0]) && ws[0].mux.prevPts == LastPts(ws[0].trace) && ws[0].trace == []
    requires x < |ws[k].trace| && ws[k].trace[x].Frames?
    ensures j < k && PolledAt(ws, steps, j, ws[k].trace, x)
  {
    hide Inv, Follows, LastPts, Sent, Mux.WellFormed, Until;
    assert Follows(ws[k - 1], steps[k - 1], ws[k]);
    RunKeepsInv(ws, steps, k - 1);
    RunKeepsPrev(ws, steps, k - 1);
    TraceGrows(ws[k - 1], steps[k - 1], ws[k]);
    if x < |ws[k - 1].trace| {
      j := BatchHasPoll(ws, steps, k - 1, x);
      assert ws[k].trace[..x] == ws[k - 1].trace[..x];
      UntilGrows(ws[j].trace, ws[k - 1].trace, ws[k].trace, x);
    } else {
      j := k - 1;
      LastGives(ws[k - 1], steps[k - 1], ws[k], x);
    }
  }

  lemma TraceGrows(w: World, s: Step, w': World)
    requires Inv(w) && Follows(w, s, w')
    ensures w.trace <= w'.trace && (|w'.trace| > |w.trace| ==> s.PollAt?)
  {
    if s.PollAt? {
      PollTraceIs(w, s.now);
      hide Poll, Inv;
    } else {
      OtherKeepsPrev(w, s);
      hide Next, Inv;
    }
  }

  lemma LastGives(w: World, s: Step, w': World, x: nat)
    requires Inv(w) && Follows(w, s, w') && s.PollAt? && w.mux.prevPts == LastPts(w.trace)
    requires |w.trace| <= x < |w'.trace| && w'.trace[x].Frames?
    ensures w.mux.WellFormed() && Sent(w.mux, s.now) == [w'.trace[x]] && LastPts(w'.trace[..x]) == w.mux.prevPts
    ensures Until(w.trace, w'.trace, x)
  {
    hide Inv, NextPoll, LastPts, Sent, Until;
    PollGives(w, s.now, x);
  }

  lemma NewWorldQuiet(cfg: MuxConfig, clock: int)
    ensures NewWorld(cfg, clock).trace == [] && NewWorld(cfg, clock).mux.prevPts == LastPts([])
  {
  }

  /** Every batch of every run comes from one poll of it. */
  lemma EveryBatchHasItsPoll(cfg: MuxConfig, ws: seq<World>, steps: seq<Step>, k: nat, x: nat) returns (j: nat)
    requires RunFrom(cfg, ws, steps) && k < |ws| && x < |ws[k].trace| && ws[k].trace[x].Frames?
    ensures j < k && PolledAt(ws, steps, j, ws[k].trace, x) && Inv(ws[j])
  {
    hide Inv, Follows, NewWorld, PolledAt, LastPts;
    var clock :| ws[0] == NewWorld(cfg, clock);
    NewWorldOk(cfg, clock);
    NewWorldQuiet(cfg, clock);
    j := BatchHasPoll(ws, steps, k, x);
    RunKeepsInv(ws, steps, j);
  }
}
