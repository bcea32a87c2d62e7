/** What a consumer of the trace gets: the batches are the histories, exact
    delivery when producers block, and one owner for every payload handed over. */
module MuxDelivery {
  import opened MuxTypes
  import opened MuxSpec
  import opened BatchSplit
  import opened LegacyBatch
  import opened MuxRuns
  import opened PadLedger
  import opened MuxInvariant
  import opened MuxSafety

  // ---------------------------------------------------------------- the trace tells the history

  /** The frames a history calls emitted are those of the batches in the trace
      since the pad was added. */
  ghost predicate Traced(w: World) {
    forall i :: i in w.hist ==>
      && w.hist[i].since <= |w.trace|
      && w.hist[i].emitted == FramesOn(FramesIn(w.trace[w.hist[i].since..]), i)
  }

  lemma TraceExtends(trace: seq<Output>, outs: seq<Output>, since: nat, i: int)
    requires since <= |trace|
    ensures FramesOn(FramesIn((trace + outs)[since..]), i) ==
            FramesOn(FramesIn(trace[since..]), i) + FramesOn(FramesIn(outs), i)
  {
    assert (trace + outs)[since..] == trace[since..] + outs;
    FramesInAppend(trace[since..], outs);
    FramesOnAppend(FramesIn(trace[since..]), FramesIn(outs), i);
  }

  lemma TracedPoll(w: World, now: int)
    requires Traced(w) && w.mux.WellFormed()
    ensures Traced(NextPoll(w, now))
  {
    hide Poll, FramesIn, FramesOn, On;
    forall i | i in w.hist
      ensures FramesOn(FramesIn((w.trace + Poll(w.mux, now).outs)[w.hist[i].since..]), i) ==
              w.hist[i].emitted + FramesOn(FramesIn(Poll(w.mux, now).outs), i)
    {
      TraceExtends(w.trace, Poll(w.mux, now).outs, w.hist[i].since, i);
    }
  }

  lemma TracedNext(w: World, s: Step)
    requires Traced(w) && w.mux.WellFormed() && w.hist.Keys == w.mux.pads.Keys && Enabled(w, s)
    ensures Traced(Next(w, s))
  {
    hide Push, Resume, RemovePad, PushPad, NextPoll;
    assert forall i :: FramesOn(FramesIn([]), i) == [];
    hide FramesOn;
    if s.PollAt? {
      TracedPoll(w, s.now);
    } else if s.Add? {
      assert w.trace[|w.trace|..] == [];
    }
  }

  // ---------------------------------------------------------------- exact delivery

  /** Producers wait for room and no frame is too late to keep. */
  predicate Lossless(cfg: MuxConfig) {
    cfg.BlocksWhenFull() && !cfg.syncInputs
  }

  ghost predicate NothingClosed(w: World) {
    forall i :: i in w.hist ==> w.hist[i].lostAt == []
  }

  lemma NoLateFrames(m: Mux, now: int, i: int)
    requires m.WellFormed() && OrderedQueues(m) && !m.cfg.syncInputs && i in m.pads
    ensures On(BatchStage(m, now).lost, i) == []
  {
    FormSplits(m, now);
    hide Form, On, EmitMux, EmitBatch;
    assert SplitAt(m, Form(m, now), i);
  }

  /** The mux that poll forms its batch from. */
  lemma BeforeBatchOk(w: World, now: int)
    requires Inv(w) && w.clock <= now
    ensures var m := EosStage(w.mux.(pending := [])).mux;
            MuxOk(m, now) && OrderedQueues(m) && m.cfg == w.mux.cfg && m.pads.Keys == w.hist.Keys
  {
    TimeOk(w, now);
    hide Settled, PadOk;
    var m0 := w.mux.(pending := []);
    assert MuxOk(m0, now);
    EosStageOk(m0, w.hist, now);
    hide MuxOk, EosStage;
    PadsOrdered(EosStage(m0).mux, w.hist, now);
  }

  lemma AbsorbsNoLoss(hist: map<int, History>, e: Effect)
    requires forall i :: i in hist ==> hist[i].lostAt == [] && On(e.lost, i) == []
    ensures forall i :: i in AbsorbAll(hist, e) ==> AbsorbAll(hist, e)[i].lostAt == []
  {
    hide On, FramesIn, FramesOn;
    assert Seqs([]) == [];
  }

  lemma PollClosesNothing(w: World, now: int)
    requires Inv(w) && NothingClosed(w) && !w.mux.cfg.syncInputs && w.clock <= now
    ensures NothingClosed(NextPoll(w, now))
  {
    BeforeBatchOk(w, now);
    hide Poll, PollBody, EosStage, BatchStage, On, AbsorbAll;
    var m0 := w.mux.(pending := []);
    assert w.mux.WellFormed() && AllIn(m0.order, m0.pads);
    hide Inv, Mux.WellFormed;
    PollAbsorbs(w.mux, w.hist, now);
    BodyAbsorbs(m0, w.hist, now);
    var m := EosStage(m0).mux;
    forall i | i in w.hist ensures On(BatchStage(m, now).lost, i) == [] {
      NoLateFrames(m, now, i);
    }
    AbsorbsNoLoss(w.hist, BatchStage(m, now));
  }

  lemma PushClosesNothing(cfg: MuxConfig, p: Pad, h: History, a: Arrival, duration: int, now: int)
    requires cfg.BlocksWhenFull() && p.depth >= 1
    ensures PushHistory(cfg, p, h, a, duration, now).lostAt == h.lostAt
  {
    assert Seqs([]) == [];
  }

  lemma PushLosesNothing(w: World, i: int, a: Arrival, duration: int, now: int)
    requires w.mux.WellFormed() && w.hist.Keys == w.mux.pads.Keys && NothingClosed(w) && Lossless(w.mux.cfg)
    ensures NothingClosed(NextPush(w, i, a, duration, now))
  {
    if i in w.mux.pads {
      PushClosesNothing(w.mux.cfg, w.mux.pads[i], w.hist[i], a, duration, now);
      hide PushHistory, Push;
    }
  }

  lemma FollowsClosesNothing(w: World, s: Step, w': World)
    requires Inv(w) && NothingClosed(w) && Lossless(w.mux.cfg) && Follows(w, s, w')
    ensures NothingClosed(w')
  {
    match s {
      case PollAt(now) =>
        hide NextPoll;
        PollClosesNothing(w, now);
      case PushAt(i, a, duration, now) =>
        hide NextPush, Lossless;
        PushLosesNothing(w, i, a, duration, now);
      case Add(_, _, _) =>
        hide NextPoll, NextPush, Inv, AddPad;
      case Remove(_) =>
        hide NextPoll, NextPush, Inv, RemovePad, Absorb;
      case _ =>
        hide NextPoll, NextPush, Inv, Resume, RemovePad, AddPad, PushEos;
    }
  }

  lemma FollowsKeepsConfig(w: World, s: Step, w': World)
    requires Follows(w, s, w')
    ensures w'.mux.cfg == w.mux.cfg
  {
    hide PushPad, EosNotices, Form, FramesIn;
  }

  lemma FollowsTraced(w: World, s: Step, w': World)
    requires Traced(w) && Follows(w, s, w')
    ensures Traced(w')
  {
    TracedNext(w, s);
  }

  lemma {:induction false} RunDelivers(ws: seq<World>, steps: seq<Step>, k: nat)
    requires Run(ws, steps) && k < |ws| && Inv(ws[0]) && Traced(ws[0])
    ensures Inv(ws[k]) && Traced(ws[k]) && ws[k].mux.cfg == ws[0].mux.cfg
    ensures Lossless(ws[0].mux.cfg) && NothingClosed(ws[0]) ==> NothingClosed(ws[k])
  {
    hide Inv, Traced, NothingClosed, Lossless, Follows;
    RunKeepsInv(ws, steps, k);
    if k > 0 {
      RunDelivers(ws, steps, k - 1);
      RunKeepsInv(ws, steps, k - 1);
      FollowsKeepsConfig(ws[k - 1], steps[k - 1], ws[k]);
      FollowsTraced(ws[k - 1], steps[k - 1], ws[k]);
      if Lossless(ws[0].mux.cfg) && NothingClosed(ws[0]) {
        FollowsClosesNothing(ws[k - 1], steps[k - 1], ws[k]);
      }
    }
  }

  /** The batches since pad `i` was added carry its frames exactly as they were
      pushed, and the queue holds the rest. */
  ghost predicate DeliversExactly(w: World, i: int) {
    && i in w.mux.pads && i in w.hist && w.hist[i].since <= |w.trace|
    && var h, q := w.hist[i], w.mux.pads[i].queue;
       var out := FramesOn(FramesIn(w.trace[h.since..]), i);
       && |h.pushed| == |out| + |q|
       && (forall j :: 0 <= j < |out| ==> out[j].Carried() == h.pushed[j])
       && (forall j :: 0 <= j < |q| ==> q[j].Carried() == h.pushed[|out| + j])
  }

  lemma NothingClosedDelivers(w: World, i: int)
    requires Inv(w) && Traced(w) && NothingClosed(w) && i in w.mux.pads
    ensures DeliversExactly(w, i)
  {
    hide PadOk, MuxOk, Settled, FramesOn, FramesIn;
    var p, h := w.mux.pads[i], w.hist[i];
    NothingLost(w.mux.cfg, p, h, w.clock);
    EmittedTogether(w.mux.cfg, p, h, w.clock);
  }

  lemma EmittedTogether(cfg: MuxConfig, p: Pad, h: History, clock: int)
    requires PadOk(cfg, p, h, clock)
    ensures |h.emitted| == |h.emittedAt| && |h.pushed| == |h.emitted| + |h.lostAt| + |p.queue|
  {
    PartitionSizes(h, Seqs(p.queue));
  }

  /** With blocking producers and no sync filter every run delivers every frame of
      every pad: none missing, none repeated, in order. */
  lemma BlockingDeliversExactly(cfg: MuxConfig, ws: seq<World>, steps: seq<Step>, k: nat, i: int)
    requires RunFrom(cfg, ws, steps) && Lossless(cfg) && k < |ws| && i in ws[k].mux.pads
    ensures DeliversExactly(ws[k], i)
  {
    hide Inv, Follows, Lossless, DeliversExactly;
    var clock :| ws[0] == NewWorld(cfg, clock);
    NewWorldOk(cfg, clock);
    RunDelivers(ws, steps, k);
    NothingClosedDelivers(ws[k], i);
  }

  // ---------------------------------------------------------------- counters and numbers

  lemma LedgerOf(w: World, i: int)
    requires Inv(w) && i in w.mux.pads
    ensures i in w.hist && PadOk(w.mux.cfg, w.mux.pads[i], w.hist[i], w.clock)
  {
    hide PadOk, MuxOk, Settled;
  }

  /** The counters of a pad add up until its end resets them, and without the sync filter the frames queued are
      the last ones received, number by number. */
  lemma CountersAddUp(cfg: MuxConfig, ws: seq<World>, steps: seq<Step>, k: nat, i: int)
    requires RunFrom(cfg, ws, steps) && k < |ws| && i in ws[k].mux.pads
    ensures var m, p := ws[k].mux, ws[k].mux.pads[i];
            if m.cfg.resetOnEos && p.eos then p.received == p.frameCount == 0
            else
              && p.received == p.frameCount + p.dropped + |p.queue|
              && (!m.cfg.syncInputs ==>
                    forall j :: 0 <= j < |p.queue| ==> p.queue[j].seqNum == p.frameCount + p.dropped + j)
  {
    EveryRunIsAccountedFor(cfg, ws, steps, k);
    LedgerOf(ws[k], i);
    EmittedTogether(ws[k].mux.cfg, ws[k].mux.pads[i], ws[k].hist[i], ws[k].clock);
    hide RunFrom, Inv, AccountedFor, Partition, InOrder, ContentsMatch, Numbered, PadFlags, ArrivedBy;
  }

  /** Frame numbers: under the new policy they count without a gap; under the legacy
      policy they point back at the frame received, and a gap is frames closed. */
  lemma FrameNumbersTell(cfg: MuxConfig, ws: seq<World>, steps: seq<Step>, k: nat, i: int, j: nat)
    requires RunFrom(cfg, ws, steps) && k < |ws| && i in ws[k].mux.pads && i in ws[k].hist && j < |ws[k].hist[i].emitted|
    ensures var c, h := ws[k].mux.cfg, ws[k].hist[i];
            && (c.policy == New ==> h.emitted[j].frameNum == j)
            && (c.policy == Legacy ==>
                  && h.emitted[j].frameNum < |h.pushed|
                  && h.emitted[j].Carried() == h.pushed[h.emitted[j].frameNum]
                  && (j > 0 ==> h.emitted[j - 1].frameNum < h.emitted[j].frameNum)
                  && (j > 0 ==> forall x :: h.emitted[j - 1].frameNum < x < h.emitted[j].frameNum ==> x in h.lostAt))
  {
    EveryRunIsAccountedFor(cfg, ws, steps, k);
    LedgerOf(ws[k], i);
    hide RunFrom, Inv, AccountedFor, PadOk;
    FrameNumbers(ws[k].mux.cfg, ws[k].mux.pads[i], ws[k].hist[i], ws[k].clock, j);
  }
}
