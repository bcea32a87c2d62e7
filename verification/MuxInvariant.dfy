/** The invariant of every run: each pad agrees with its ledger, whatever the
    policy, and nothing a removed pad accepted is unaccounted for. */
module MuxInvariant {
  import opened Shared
  import opened MuxTypes
  import opened MuxSpec
  import opened BatchSplit
  import opened LegacyBatch
  import opened MuxRuns
  import opened PadLedger

  ghost predicate MuxOk(m: Mux, clock: int) {
    && m.WellFormed()
    && (m.eosSent ==> m.AllEos())
    && (forall i :: i in m.pads && m.pads[i].segmentSent ==> m.firstPush.Some?)
    && (m.firstPush.Some? ==> m.lastBatch.Some? && m.base.Some?)
    && (m.lastBatch.Some? ==> m.lastBatch.value <= clock)
  }

  ghost predicate PadsOk(cfg: MuxConfig, pads: map<int, Pad>, hist: map<int, History>, clock: int) {
    && hist.Keys == pads.Keys
    && (forall i :: i in pads ==> PadOk(cfg, pads[i], hist[i], clock))
  }

  ghost predicate Settled(h: History) {
    Partition(h, []) && Rising(h.emittedAt)
  }

  ghost predicate Inv(w: World) {
    && MuxOk(w.mux, w.clock)
    && PadsOk(w.mux.cfg, w.mux.pads, w.hist, w.clock)
    && (forall h :: h in w.retired ==> Settled(h))
  }

  // ---------------------------------------------------------------- frames of a batch, pad by pad

  lemma {:induction false} FramesOnAppend(a: seq<FrameMeta>, b: seq<FrameMeta>, i: int)
    ensures FramesOn(a + b, i) == FramesOn(a, i) + FramesOn(b, i)
  {
    if b == [] {
      assert a + b == a;
    } else {
      var n := |b| - 1;
      assert (a + b)[..|a| + n] == a + b[..n];
      FramesOnAppend(a, b[..n], i);
    }
  }

  lemma {:induction false} FramesInAppend(a: seq<Output>, b: seq<Output>)
    ensures FramesIn(a + b) == FramesIn(a) + FramesIn(b)
  {
    if b == [] {
      assert a + b == a;
    } else {
      var n := |b| - 1;
      assert (a + b)[..|a| + n] == a + b[..n];
      FramesInAppend(a, b[..n]);
    }
  }

  lemma {:induction false} FramesInNotices(events: seq<Event>)
    ensures FramesIn(Notices(events)) == []
  {
    if events != [] {
      var n := |events| - 1;
      assert Notices(events)[..n] == Notices(events[..n]);
      FramesInNotices(events[..n]);
    }
  }

  /** The frames of a batch that come from pad `i` are the picks on it, in order. */
  lemma {:induction false} MetasCarry(m: Mux, picks: seq<Pick>, i: int)
    requires PicksIn(m.pads, picks) && i in m.pads && (forall j :: j in m.pads ==> m.pads[j].index == j)
    ensures Carries(m.cfg, m.pads[i], On(picks, i), FramesOn(Metas(m, picks), i))
  {
    if picks != [] {
      var n := |picks| - 1;
      MetasCarry(m, picks[..n], i);
      assert Metas(m, picks)[..n] == Metas(m, picks[..n]) by {
        forall k | 0 <= k < n ensures Meta(m, picks, k) == Meta(m, picks[..n], k) {
          assert picks[..n][..k] == picks[..k];
        }
      }
    }
  }

  // ---------------------------------------------------------------- stages of poll

  lemma EosStageMuxOk(m: Mux, clock: int)
    requires MuxOk(m, clock)
    ensures MuxOk(EosStage(m).mux, clock)
  {
    hide EosNotices;
    assert forall i :: i in m.pads ==> EosStage(m).mux.pads[i] == ClosePad(m.cfg, m.pads[i]);
  }

  lemma EosStageOk(m: Mux, hist: map<int, History>, clock: int)
    requires MuxOk(m, clock) && PadsOk(m.cfg, m.pads, hist, clock)
    ensures MuxOk(EosStage(m).mux, clock) && PadsOk(m.cfg, EosStage(m).mux.pads, hist, clock)
  {
    EosStageMuxOk(m, clock);
    hide PadOk, EosNotices, MuxOk, ClosePad;
    var m' := EosStage(m).mux;
    forall i | i in m.pads ensures PadOk(m.cfg, m'.pads[i], hist[i], clock) {
      CloseOk(m.cfg, m.pads[i], hist[i], clock);
    }
  }

  lemma PadsOrdered(m: Mux, hist: map<int, History>, clock: int)
    requires PadsOk(m.cfg, m.pads, hist, clock)
    ensures OrderedQueues(m)
  {
    forall i | i in m.pads ensures Ordered(m.pads[i].queue) {
      PadOkOrdered(m.cfg, m.pads[i], hist[i], clock);
    }
  }

  /** One pad through the emission of a batch. */
  lemma EmitPadOk(m: Mux, picks: seq<Pick>, h: History, now: int, i: int)
    requires picks != [] && PicksIn(m.pads, picks) && AllIn(m.order, m.pads) && i in m.pads
    requires forall j :: j in m.pads ==> m.pads[j].index == j
    requires PadOk(m.cfg, m.pads[i], h, now) && On(picks, i) <= m.pads[i].queue
    ensures PadOk(m.cfg, EmitMux(m, picks, now).pads[i],
                  h.(emitted := h.emitted + FramesOn(EmitBatch(m, picks, now).frames, i),
                     emittedAt := h.emittedAt + Seqs(On(picks, i))), now)
  {
    MetasCarry(m, picks, i);
    hide PadOk, Carries, FramesOn, OutputPts, FrameDuration, TakeFrom;
    TakeOk(m.cfg, m.pads[i], h, On(picks, i), FramesOn(Metas(m, picks), i), now);
  }

  /** Forming a batch leaves every pad under its index, with its flags. */
  lemma FormedOk(m: Mux, now: int)
    requires MuxOk(m, now) && AllSplit(m, Form(m, now))
    ensures MuxOk(Formed(m, Form(m, now)), now)
  {
    hide Form, Thinned, On;
    var f := Form(m, now);
    forall j | j in m.pads
      ensures f.pads[j] == m.pads[j].(queue := f.pads[j].queue, dropped := f.pads[j].dropped)
    {
      assert SplitAt(m, f, j);
    }
  }

  lemma EmittedOk(m: Mux, picks: seq<Pick>, now: int)
    requires MuxOk(m, now) && picks != [] && PicksIn(m.pads, picks)
    ensures MuxOk(EmitMux(m, picks, now), now)
  {
    hide On, OutputPts, FrameDuration;
    var m' := EmitMux(m, picks, now);
    forall j | j in m.pads
      ensures m'.pads[j].index == j && m'.pads[j].depth == m.pads[j].depth
      ensures m'.pads[j].eos == m.pads[j].eos && m'.pads[j].segmentSent == m.pads[j].segmentSent
    {
      assert m'.pads[j] == TakeFrom(m.pads[j], |On(picks, j)|, now);
    }
  }

  lemma AbsorbLate(h: History, i: int, late: seq<Pick>)
    ensures Absorb(h, i, [], late, []) == h.(lostAt := h.lostAt + Seqs(On(late, i)))
  {
  }

  lemma AbsorbBatch(h: History, i: int, b: Batch, late: seq<Pick>, picks: seq<Pick>)
    ensures Absorb(h, i, [Frames(b)], late, picks) ==
            h.(lostAt := h.lostAt + Seqs(On(late, i)),
               emitted := h.emitted + FramesOn(b.frames, i),
               emittedAt := h.emittedAt + Seqs(On(picks, i)))
  {
    assert [Frames(b)][..0] == [];
    assert FramesIn([Frames(b)]) == b.frames;
  }

  lemma BatchPadOk(m: Mux, hist: map<int, History>, now: int, i: int, e: Effect)
    requires MuxOk(m, now) && PadsOk(m.cfg, m.pads, hist, now) && i in m.pads
    requires AllSplit(m, Form(m, now)) && e == BatchStage(m, now)
    ensures PadOk(m.cfg, e.mux.pads[i], Absorb(hist[i], i, e.outs, e.lost, e.picks), now)
  {
    hide PadOk, Thinned, Form, EmitMux, EmitBatch, FramesIn, FramesOn, On, Seqs, Absorb;
    FormedOk(m, now);
    var f := Form(m, now);
    var m' := Formed(m, f);
    var h := hist[i].(lostAt := hist[i].lostAt + Seqs(On(f.late, i)));
    assert SplitAt(m, f, i);
    SplitOk(m.cfg, m.pads[i], f.pads[i], hist[i], On(f.late, i), On(f.picks, i), now);
    if f.picks != [] && f.go {
      EmitPadOk(m', f.picks, h, now, i);
      AbsorbBatch(hist[i], i, EmitBatch(m', f.picks, now), f.late, f.picks);
    } else {
      AbsorbLate(hist[i], i, f.late);
    }
  }

  lemma BatchStageMuxOk(m: Mux, now: int, e: Effect)
    requires MuxOk(m, now) && AllSplit(m, Form(m, now)) && e == BatchStage(m, now)
    ensures MuxOk(e.mux, now)
  {
    FormedOk(m, now);
    hide MuxOk, Form, EmitMux, EmitBatch, SplitAt;
    var f := Form(m, now);
    if f.picks != [] && f.go {
      EmittedOk(Formed(m, f), f.picks, now);
    }
  }

  lemma BatchStageOk(m: Mux, hist: map<int, History>, now: int, e: Effect)
    requires MuxOk(m, now) && PadsOk(m.cfg, m.pads, hist, now) && e == BatchStage(m, now)
    ensures MuxOk(e.mux, now) && PadsOk(m.cfg, e.mux.pads, AbsorbAll(hist, e), now)
  {
    hide PadOk, Absorb, BatchStage, Form, AllSplit;
    PadsOrdered(m, hist, now);
    FormSplits(m, now);
    BatchStageMuxOk(m, now, e);
    hide MuxOk;
    forall i | i in m.pads ensures PadOk(m.cfg, e.mux.pads[i], AbsorbAll(hist, e)[i], now) {
      BatchPadOk(m, hist, now, i, e);
    }
  }

  lemma EndStageOk(m: Mux, clock: int)
    requires MuxOk(m, clock)
    ensures MuxOk(EndStage(m).mux, clock)
  {
  }

  lemma AbsorbSame(hist: map<int, History>, e: Effect, e': Effect)
    requires FramesIn(e.outs) == FramesIn(e'.outs) && e.lost == e'.lost && e.picks == e'.picks
    ensures AbsorbAll(hist, e) == AbsorbAll(hist, e')
  {
    hide FramesIn, FramesOn, On;
  }

  lemma EndStageNoFrames(m: Mux)
    ensures FramesIn(EndStage(m).outs) == []
  {
    assert [Notice(Eos)][..0] == [];
  }

  /** Only the batch stage puts out frames, closes frames or takes frames. */
  lemma BodyAbsorbs(m: Mux, hist: map<int, History>, now: int)
    requires m.cfg.overallMaxFps > 0.0 && AllIn(m.order, m.pads)
    ensures AbsorbAll(hist, PollBody(m, now)) == AbsorbAll(hist, BatchStage(EosStage(m).mux, now))
  {
    hide AbsorbAll, BatchStage, ForwardEos, EosNotices, EndStage;
    var e1 := EosStage(m);
    var e2 := BatchStage(e1.mux, now);
    var e3 := if e2.picks != [] then EosStage(e2.mux) else Effect(e2.mux, [], [], []);
    FramesInNotices(EosNotices(m.pads, m.order));
    FramesInNotices(EosNotices(e2.mux.pads, e2.mux.order));
    EndStageNoFrames(e3.mux);
    assert FramesIn([]) == [];
    hide FramesIn;
    FramesInFour(e1.outs, e2.outs, e3.outs, EndStage(e3.mux).outs);
    AbsorbSame(hist, PollBody(m, now), e2);
  }

  /** Flushing the pending events tells of no frame. */
  lemma PollAbsorbs(m: Mux, hist: map<int, History>, now: int)
    requires m.cfg.overallMaxFps > 0.0 && AllIn(m.order, m.pads)
    ensures AbsorbAll(hist, Poll(m, now)) == AbsorbAll(hist, PollBody(m.(pending := []), now))
  {
    hide PollBody, FramesIn, AbsorbAll;
    var e := PollBody(m.(pending := []), now);
    FramesInNotices(m.pending);
    FramesInAppend(Notices(m.pending), e.outs);
    assert [] + FramesIn(e.outs) == FramesIn(e.outs);
    AbsorbSame(hist, Poll(m, now), e);
  }

  lemma FramesInFour(a: seq<Output>, b: seq<Output>, c: seq<Output>, d: seq<Output>)
    requires FramesIn(a) == FramesIn(c) == FramesIn(d) == []
    ensures FramesIn(a + b + c + d) == FramesIn(b)
  {
    FramesInAppend(a, b);
    FramesInAppend(a + b, c);
    FramesInAppend(a + b + c, d);
  }

  lemma PollBodyOk(m: Mux, hist: map<int, History>, now: int, e: Effect)
    requires MuxOk(m, now) && PadsOk(m.cfg, m.pads, hist, now) && e == PollBody(m, now)
    ensures e.mux.cfg == m.cfg && MuxOk(e.mux, now) && PadsOk(m.cfg, e.mux.pads, AbsorbAll(hist, e), now)
  {
    BodyAbsorbs(m, hist, now);
    EosStageOk(m, hist, now);
    var e1 := EosStage(m);
    hide PadOk, BatchStage, EosStage, AbsorbAll;
    var e2 := BatchStage(e1.mux, now);
    BatchStageOk(e1.mux, hist, now, e2);
    if e2.picks != [] {
      EosStageOk(e2.mux, AbsorbAll(hist, e2), now);
      EndStageOk(EosStage(e2.mux).mux, now);
    } else {
      EndStageOk(e2.mux, now);
    }
  }

  lemma PollOk(w: World, now: int)
    requires Inv(w) && now >= w.clock
    ensures Inv(NextPoll(w, now))
  {
    hide PadOk, PollBody, AbsorbAll, Settled;
    var m := w.mux.(pending := []);
    forall i | i in m.pads ensures PadOk(m.cfg, m.pads[i], w.hist[i], now) {
      LaterOk(m.cfg, m.pads[i], w.hist[i], w.clock, now);
    }
    PollAbsorbs(w.mux, w.hist, now);
    PollBodyOk(m, w.hist, now, PollBody(m, now));
  }
}
