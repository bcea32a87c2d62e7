/** Why bounded waiting asks that no poll has a whole batch held back by the maximum
    rate: the cursor moves before the throttle is looked at, so such a poll passes a pad over. */
module MuxThrottle {
  import opened Shared
  import opened MuxTypes
  import opened MuxSpec
  import opened BatchSplit
  import opened MuxFairness

  /** Two pads with frames queued, batches of one frame, and a throttled mux whose
      cursor stands at position `c`. */
  ghost predicate Rivals(m: Mux, a: int, b: int, c: nat) {
    && m.WellFormed() && m.order == [a, b] && OneGroup(m)
    && m.cfg.policy == New && m.cfg.roundRobin && !m.cfg.adaptive && m.cfg.batchSize == 1 && m.cfg.maxSameSource >= 1
    && !m.cfg.syncInputs && !m.cfg.rateControl && m.cfg.maxFpsControl
    && m.lastBatch.Some? && c < 2 && m.rrSource == c
    && Waiting(m, a) && !m.pads[a].eos && Waiting(m, b) && !m.pads[b].eos
  }

  /** A visit of the first pad in turn fills the batch. */
  lemma VisitFills(m: Mux, a: int, b: int, c: nat, now: int)
    requires Rivals(m, a, b, c)
    ensures var x := m.order[c];
            x in m.pads && Visit(m, Blank(m), x, now, 1) == Blank(m).(picks := [Pick(x, m.pads[x].queue[0])])
  {
    var x := m.order[c];
    var p := m.pads[x];
    assert x in m.pads && p.queue != [] && !p.Done();
    var s := Screen(m, p, now);
    assert s == Screened(p.queue, [], |p.queue|) && Thin(p, s) == p;
    assert m.pads[x := p] == m.pads;
    assert Tagged(x, []) == [] && Tagged(x, p.queue[..1]) == [Pick(x, p.queue[0])];
    assert AllowedRepeats(m.cfg, p, 1) >= 1;
    assert [] + Tagged(x, p.queue[..1]) == [Pick(x, p.queue[0])];
  }

  /** Forming a batch takes the head of that pad and moves the cursor to the other,
      whether or not the batch may go. */
  lemma FormTakesTurn(m: Mux, a: int, b: int, c: nat, now: int)
    requires Rivals(m, a, b, c)
    ensures var x, f := m.order[c], FormNew(m, now);
            && x in m.pads && f.pads == m.pads && f.late == [] && f.picks == [Pick(x, m.pads[x].queue[0])]
            && f.rrSource == 1 - c && f.rrPriority == 0 && f.go == !HeldBack(m, now)
  {
    VisitFills(m, a, b, c, now);
    OneGroupRound(m);
    var entries := GroupEntries(m.order, c, 0);
    assert entries[0] == Entry(m.order[c], 0, 1 - c);
    hide Visit, Round, GroupEntries, OneGroup, MuxConfig.MaxFpsDur;
    assert m.pads != map[];
  }

  lemma NothingToEnd(m: Mux)
    requires m.WellFormed() && forall i :: i in m.pads ==> !Closing(m.pads[i])
    ensures EosStage(m) == Effect(m, [], [], [])
  {
    var ended := ForwardEos(m).pads;
    assert ended.Keys == m.pads.Keys;
    assert forall i :: i in m.pads ==> ended[i] == m.pads[i];
    assert ended == m.pads;
    NoNotices(m.pads, m.order);
  }

  lemma {:induction false} NoNotices(pads: map<int, Pad>, ids: seq<int>)
    requires AllIn(ids, pads) && forall i :: i in pads ==> !Closing(pads[i])
    ensures EosNotices(pads, ids) == []
  {
    if ids != [] {
      NoNotices(pads, ids[..|ids| - 1]);
      assert ids[|ids| - 1] in pads;
    }
  }

  lemma RivalsStay(m: Mux, m': Mux, a: int, b: int, c: nat, c': nat)
    requires Rivals(m, a, b, c) && m'.WellFormed() && OneGroup(m') && m'.order == m.order && m'.cfg == m.cfg
    requires m'.lastBatch.Some? && c' < 2 && m'.rrSource == c'
    requires Waiting(m', a) && !m'.pads[a].eos && Waiting(m', b) && !m'.pads[b].eos
    ensures Rivals(m', a, b, c')
  {
  }

  lemma RivalsBasics(m: Mux, a: int, b: int, c: nat)
    requires Rivals(m, a, b, c)
    ensures m.WellFormed() && AllIn(m.order, m.pads) && m.cfg.overallMaxFps > 0.0 && m.lastBatch.Some?
    ensures forall i :: i in m.pads ==> !Closing(m.pads[i]) && !m.pads[i].eos && (i == a || i == b)
    ensures a in m.pads && b in m.pads && a != b && m.cfg.policy == New
    ensures m.order == [a, b]
  {
    forall i | i in m.pads ensures i == a || i == b {
      assert i in m.order;
    }
    assert m.order[0] in m.pads && m.order[1] in m.pads && m.order[0] != m.order[1];
  }

  lemma Flushed(m: Mux, a: int, b: int, c: nat)
    requires Rivals(m, a, b, c)
    ensures Rivals(m.(pending := []), a, b, c)
  {
  }

  /** A poll held back takes no frame and turns to the other pad. */
  lemma HeldPoll(m: Mux, a: int, b: int, c: nat, now: int)
    requires Rivals(m, a, b, c) && m.cfg.overallMaxFps > 0.0 && AllIn(m.order, m.pads) && HeldBack(m, now)
    ensures var e := Poll(m, now);
            && e.picks == [] && e.mux.pads == m.pads && e.mux.lastBatch == m.lastBatch && e.mux.cfg == m.cfg
            && e.mux.batchIndex == m.batchIndex && Rivals(e.mux, a, b, 1 - c)
  {
    var m0 := m.(pending := []);
    Flushed(m, a, b, c);
    RivalsBasics(m0, a, b, c);
    NothingToEnd(m0);
    FormTakesTurn(m0, a, b, c, now);
    var m1 := Formed(m0, FormNew(m0, now));
    hide Rivals, FormNew, EosStage, MuxConfig.MaxFpsDur;
    assert BatchStage(m0, now) == Effect(m1, [], [], []);
    assert EndStage(m1) == Effect(m1, [], [], []) by {
      assert !m1.pads[a].eos;
    }
    hide BatchStage, EndStage;
    assert m1.pads == m.pads;
    SameGroupRivals(m, m1, a, b, c);
  }

  lemma SameGroupRivals(m: Mux, m1: Mux, a: int, b: int, c: nat)
    requires Rivals(m, a, b, c) && m1.pads == m.pads && m1.order == m.order && m1.cfg == m.cfg
    requires m1.lastBatch == m.lastBatch && m1.rrSource == 1 - c
    ensures Rivals(m1, a, b, 1 - c)
  {
  }

  /** A poll that is not held back serves the pad the cursor stands at. */
  lemma FreePoll(m: Mux, a: int, b: int, c: nat, now: int)
    requires Rivals(m, a, b, c) && m.cfg.overallMaxFps > 0.0 && !HeldBack(m, now) && AllIn(m.order, m.pads)
    requires |m.pads[m.order[c]].queue| >= 2
    ensures var x, e := m.order[c], Poll(m, now);
            && e.picks == [Pick(x, m.pads[x].queue[0])]
            && e.mux.lastBatch == Some(now) && e.mux.cfg == m.cfg && e.mux.batchIndex == m.batchIndex + 1
            && (forall i :: i in m.pads && i != x ==> i in e.mux.pads && e.mux.pads[i] == m.pads[i])
            && x in e.mux.pads && e.mux.pads[x] == TakeFrom(m.pads[x], 1, now)
            && Rivals(e.mux, a, b, 1 - c)
  {
    var m0 := m.(pending := []);
    Flushed(m, a, b, c);
    RivalsBasics(m0, a, b, c);
    NothingToEnd(m0);
    FormTakesTurn(m0, a, b, c, now);
    var x := m.order[c];
    var picks := [Pick(x, m.pads[x].queue[0])];
    var m1 := Formed(m0, FormNew(m0, now));
    var m2 := EmitMux(m1, picks, now);
    hide FormNew, EosStage, MuxConfig.MaxFpsDur, Rivals;
    assert BatchStage(m0, now) == Effect(m2, [Frames(EmitBatch(m1, picks, now))], [], picks);
    EmittedOne(m0, m1, x, now);
    AfterServing(m0, m2, a, b, c);
    RivalsBasics(m2, a, b, 1 - c);
    NothingToEnd(m2);
    assert EndStage(m2) == Effect(m2, [], [], []) by {
      assert !m2.pads[a].eos;
    }
    hide BatchStage, EndStage, EmitMux, EmitBatch, TakeFrom;
  }

  lemma EmittedOne(m: Mux, m1: Mux, x: int, now: int)
    requires m.WellFormed() && x in m.pads && |m.pads[x].queue| >= 2 && m1.pads == m.pads && m1.order == m.order && m1.cfg == m.cfg
    ensures var picks := [Pick(x, m.pads[x].queue[0])];
            var m2 := EmitMux(m1, picks, now);
            && m2.pads.Keys == m.pads.Keys
            && (forall i :: i in m.pads && i != x ==> m2.pads[i] == m.pads[i])
            && m2.pads[x] == TakeFrom(m.pads[x], 1, now)
            && m2.order == m.order && m2.cfg == m.cfg && m2.rrSource == m1.rrSource && m2.lastBatch == Some(now)
            && m2.batchIndex == m1.batchIndex + 1
  {
    var picks := [Pick(x, m.pads[x].queue[0])];
    assert picks[..0] == [];
    forall i ensures On(picks, i) == if i == x then [m.pads[x].queue[0]] else [] {
    }
    hide On, OutputPts, FrameDuration;
  }

  lemma AfterServing(m: Mux, m2: Mux, a: int, b: int, c: nat)
    requires Rivals(m, a, b, c) && m2.pads.Keys == m.pads.Keys && m.order[c] in m.pads && |m.pads[m.order[c]].queue| >= 2
    requires forall i :: i in m.pads && i != m.order[c] ==> m2.pads[i] == m.pads[i]
    requires exists now :: m2.pads[m.order[c]] == TakeFrom(m.pads[m.order[c]], 1, now)
    requires m2.order == m.order && m2.cfg == m.cfg && m2.rrSource == 1 - c && m2.lastBatch.Some?
    ensures Rivals(m2, a, b, 1 - c)
  {
    RivalsBasics(m, a, b, c);
    forall i | i in m2.pads
      ensures m2.pads[i].index == i && m2.pads[i].depth == m.cfg.queueDepth && m2.pads[i].cfg == m.pads[i].cfg
      ensures m2.pads[i].queue != [] && !m2.pads[i].eos
    {
      assert i in m.pads;
    }
    assert OneGroup(m2);
    RivalsStay(m, m2, a, b, c, 1 - c);
  }

  // ---------------------------------------------------------------- when the cursor moves for nothing

  /** The carried position in the groups and in the first of them. */
  function Cursor(m: Mux): (nat, nat) { (m.rrPriority, m.rrSource) }

  /** Only a full round moves the cursor. */
  lemma {:induction false} FillCursor(m: Mux, f: Forming, entries: seq<Entry>, now: int, bs: int)
    requires EntriesIn(entries, f.pads) && PicksIn(f.pads, f.picks) && |f.picks| < bs
    ensures var r := Fill(m, f, entries, now, bs);
            |r.picks| < bs ==> r.rrPriority == f.rrPriority && r.rrSource == f.rrSource
    decreases |entries|
  {
    hide Screen;
    if entries != [] {
      var g := Visit(m, f, entries[0].pad, now, bs);
      assert g.rrPriority == f.rrPriority && g.rrSource == f.rrSource;
      if |g.picks| < bs {
        FillCursor(m, g, entries[1..], now, bs);
      }
    }
  }

  lemma StageCursor(m: Mux, now: int)
    requires m.cfg.overallMaxFps > 0.0 && AllIn(m.order, m.pads) && m.cfg.policy == New
    ensures var e := BatchStage(m, now);
            && (RoundFull(m, now) ==> Cursor(e.mux) == (RoundOf(m, now).rrPriority, RoundOf(m, now).rrSource))
            && (!RoundFull(m, now) ==> Cursor(e.mux) == Cursor(m))
            && (RoundFull(m, now) && HeldBack(m, now) ==> e.picks == [])
            && (RoundFull(m, now) && !HeldBack(m, now) ==> e.picks != [])
  {
    var bs := NewBatchSize(m);
    if m.pads != map[] && bs > 0 {
      FillCursor(m, Blank(m), Round(m), now, bs);
    }
    hide Fill, Round, NewBatchSize, MuxConfig.MaxFpsDur, On, OutputPts, FrameDuration, EmitBatch;
  }

  /** Under the new policy, whatever else is set: a poll moves the cursor without
      sending a batch if and only if its round was full, the maximum rate held the
      batch back, and the place behind the last pad visited is a new one. */
  lemma CursorMovesForNothing(m: Mux, now: int)
    requires m.WellFormed() && m.cfg.policy == New
    ensures AllIn(m.order, m.pads) && m.cfg.overallMaxFps > 0.0
    ensures var p := Polled(m);
            && AllIn(p.order, p.pads) && p.cfg == m.cfg
            && var (e, r) := (Poll(m, now), RoundOf(p, now));
            Cursor(e.mux) != Cursor(m) && e.picks == [] <==>
            RoundFull(p, now) && HeldBack(m, now) && (r.rrPriority, r.rrSource) != Cursor(m)
  {
    var p := Polled(m);
    PolledKeeps(m);
    StageCursor(p, now);
    PollCursor(m, now);
    hide Poll, Polled, BatchStage, RoundFull, RoundOf;
  }

  lemma PolledKeeps(m: Mux)
    requires m.WellFormed()
    ensures AllIn(m.order, m.pads) && AllIn(Polled(m).order, Polled(m).pads)
    ensures Polled(m).cfg == m.cfg && Cursor(Polled(m)) == Cursor(m) && Polled(m).lastBatch == m.lastBatch
  {
    hide EosNotices;
  }

  lemma PollCursor(m: Mux, now: int)
    requires m.WellFormed() && AllIn(m.order, m.pads) && AllIn(Polled(m).order, Polled(m).pads)
    ensures m.cfg.overallMaxFps > 0.0 && Polled(m).cfg == m.cfg
    ensures Poll(m, now).picks == BatchStage(Polled(m), now).picks
    ensures Cursor(Poll(m, now).mux) == Cursor(BatchStage(Polled(m), now).mux)
  {
    hide EosNotices, BatchStage, Notices, Mux.AllEos, ClosePad;
  }
}
