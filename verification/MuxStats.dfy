/** The statistics of the mux add up to what an observer of the run has seen. */
module MuxStats {
  import opened Shared
  import opened MuxTypes
  import opened MuxSpec
  import opened BatchSplit
  import opened LegacyBatch
  import opened MuxRuns
  import opened PadLedger
  import opened MuxInvariant
  import opened MuxSafety
  import opened MuxDrain
  import opened MuxFairness
  import opened MuxLiveness
  import opened MuxQuiet
  import opened MuxBatches
  import opened MuxModes
  import opened MuxShares

  // ---------------------------------------------------------------- sums over the pads

  ghost predicate AllKnown(ids: seq<int>, hist: map<int, History>) {
    forall k :: 0 <= k < |ids| ==> ids[k] in hist
  }

  /** The frames closed of the pads in `ids`. */
  function SumLost(hist: map<int, History>, ids: seq<int>): nat
    requires AllKnown(ids, hist)
  {
    if ids == [] then 0
    else
      var n := |ids| - 1;
      SumLost(hist, ids[..n]) + |hist[ids[n]].lostAt|
  }

  /** The frames closed of the pads removed. */
  function SumRetired(retired: seq<History>): nat {
    if retired == [] then 0
    else
      var n := |retired| - 1;
      SumRetired(retired[..n]) + |retired[n].lostAt|
  }

  lemma RetiredOneMore(retired: seq<History>, h: History)
    ensures SumRetired(retired + [h]) == SumRetired(retired) + |h.lostAt|
  {
    assert (retired + [h])[..|retired|] == retired;
  }

  lemma SumLast(hist: map<int, History>, ids: seq<int>, i: int)
    requires AllKnown(ids, hist) && i in hist
    ensures AllKnown(ids + [i], hist) && SumLost(hist, ids + [i]) == SumLost(hist, ids) + |hist[i].lostAt|
  {
    assert (ids + [i])[..|ids|] == ids;
  }

  /** Pads with `s` closed in addition. */
  lemma {:induction false} SumPlus(hist: map<int, History>, hist': map<int, History>, ids: seq<int>, s: seq<Pick>)
    requires AllKnown(ids, hist) && AllKnown(ids, hist')
    requires forall k :: 0 <= k < |ids| ==> |hist'[ids[k]].lostAt| == |hist[ids[k]].lostAt| + |On(s, ids[k])|
    ensures SumLost(hist', ids) == SumLost(hist, ids) + CountOn(s, ids)
  {
    if ids != [] {
      var n := |ids| - 1;
      assert forall k :: 0 <= k < n ==> ids[..n][k] == ids[k];
      SumPlus(hist, hist', ids[..n], s);
    }
  }

  lemma SumSame(hist: map<int, History>, hist': map<int, History>, ids: seq<int>)
    requires AllKnown(ids, hist) && AllKnown(ids, hist')
    requires forall k :: 0 <= k < |ids| ==> |hist'[ids[k]].lostAt| == |hist[ids[k]].lostAt|
    ensures SumLost(hist', ids) == SumLost(hist, ids)
  {
    forall k | 0 <= k < |ids| ensures |On([], ids[k])| == 0 {
      BatchNothing(ids[k]);
    }
    SumPlus(hist, hist', ids, []);
    CountNothing(ids);
  }

  lemma BatchNothing(i: int)
    ensures On([], i) == []
  {
  }

  lemma {:induction false} WithoutLast(ids: seq<int>, x: int, i: int)
    ensures Without(ids + [x], i) == if i in ids then Without(ids, i) + [x] else if x == i then ids else ids + [x]
  {
    if ids == [] {
      assert [x][1..] == [];
    } else {
      assert (ids + [x])[1..] == ids[1..] + [x] && (ids + [x])[0] == ids[0];
      assert ids == [ids[0]] + ids[1..];
      WithoutLast(ids[1..], x, i);
    }
  }

  lemma {:induction false} SumWithout(hist: map<int, History>, ids: seq<int>, i: int)
    requires AllKnown(ids, hist) && Distinct(ids) && i in ids && i in hist
    ensures AllKnown(Without(ids, i), hist) && SumLost(hist, Without(ids, i)) + |hist[i].lostAt| == SumLost(hist, ids)
  {
    var n := |ids| - 1;
    assert ids == ids[..n] + [ids[n]];
    WithoutLast(ids[..n], ids[n], i);
    if i in ids[..n] {
      SumWithout(hist, ids[..n], i);
      SumLast(hist, Without(ids[..n], i), ids[n]);
    }
  }

  // ---------------------------------------------------------------- frames of an output

  function CountBatches(trace: seq<Output>): nat {
    if trace == [] then 0
    else
      var n := |trace| - 1;
      CountBatches(trace[..n]) + if trace[n].Frames? then 1 else 0
  }

  lemma {:induction false} CountAppend(a: seq<Output>, b: seq<Output>)
    ensures CountBatches(a + b) == CountBatches(a) + CountBatches(b)
  {
    if b == [] {
      assert a + b == a;
    } else {
      var n := |b| - 1;
      assert (a + b)[..|a| + n] == a + b[..n];
      CountAppend(a, b[..n]);
    }
  }

  lemma {:induction false} QuietCounts(outs: seq<Output>)
    requires NoBatch(outs)
    ensures CountBatches(outs) == 0 && FramesIn(outs) == []
  {
    if outs != [] {
      QuietCounts(outs[..|outs| - 1]);
    }
  }

  lemma OneCounts(b: Batch)
    ensures CountBatches([Frames(b)]) == 1 && FramesIn([Frames(b)]) == b.frames
  {
    assert [Frames(b)][..0] == [];
  }

  lemma ThreeCounts(a: seq<Output>, b: seq<Output>, c: seq<Output>)
    requires NoBatch(a) && NoBatch(c)
    ensures CountBatches(a + b + c) == CountBatches(b) && FramesIn(a + b + c) == FramesIn(b)
  {
    CountAppend(a, b);
    CountAppend(a + b, c);
    FramesInAppend(a, b);
    FramesInAppend(a + b, c);
    QuietCounts(a);
    QuietCounts(c);
  }

  // ---------------------------------------------------------------- one poll

  lemma {:induction false} LiveLateIn(m: Mux, ids: seq<int>, now: int)
    requires AllIn(ids, m.pads)
    ensures forall x :: x in FormLive(m, ids, now).late ==> x.pad in m.pads
  {
    if ids != [] {
      var n := |ids| - 1;
      LiveLateIn(m, ids[..n], now);
      hide SyncFilter;
    }
  }

  lemma {:induction false} FillLateIn(m: Mux, f: Forming, entries: seq<Entry>, now: int, bs: int)
    requires EntriesIn(entries, f.pads) && PicksIn(f.pads, f.picks) && (forall x :: x in f.late ==> x.pad in f.pads)
    ensures forall x :: x in Fill(m, f, entries, now, bs).late ==> x.pad in f.pads
    decreases |entries|
  {
    hide Screen;
    if entries != [] {
      var g := Visit(m, f, entries[0].pad, now, bs);
      if |g.picks| < bs {
        FillLateIn(m, g, entries[1..], now, bs);
      }
    }
  }

  lemma LateIn(m: Mux, now: int)
    requires AllIn(m.order, m.pads) && m.cfg.overallMaxFps > 0.0
    ensures forall x :: x in Form(m, now).late ==> x.pad in m.pads
  {
    if m.cfg.policy == Legacy {
      LiveLateIn(m, Active(m.pads, m.order), now);
      hide FormLive, FifoPicks, LegacyTimerStart;
    } else {
      FillLateIn(m, Blank(m), Round(m), now, NewBatchSize(m));
      hide Fill, Round, NewBatchSize, MuxConfig.MaxFpsDur;
    }
  }

  lemma EmitStats(m: Mux, picks: seq<Pick>, now: int)
    requires picks != [] && PicksIn(m.pads, picks) && AllIn(m.order, m.pads)
    ensures var e := EmitMux(m, picks, now);
            && e.batchIndex == m.batchIndex + 1
            && e.stats == Stats(m.stats.batches + 1, m.stats.frames + |picks|, m.stats.droppedOverflow, m.stats.droppedLate)
  {
    hide OutputPts, On, FrameDuration;
  }

  lemma BatchStats(m: Mux, now: int)
    requires AllIn(m.order, m.pads) && m.cfg.overallMaxFps > 0.0
    ensures var (e, f) := (BatchStage(m, now), Form(m, now));
            var n := if Goes(f) then 1 else 0;
            && e.lost == f.late && e.picks == (if Goes(f) then f.picks else []) && e.mux.batchIndex == m.batchIndex + n
            && e.mux.stats == Stats(m.stats.batches + n, m.stats.frames + |e.picks|, m.stats.droppedOverflow, m.stats.droppedLate + |e.lost|)
  {
    hide Form, EmitMux, EmitBatch;
    var f := Form(m, now);
    if Goes(f) {
      EmitStats(Formed(m, f), f.picks, now);
    }
  }

  lemma SentIfGoes(m: Mux, now: int)
    requires m.WellFormed()
    ensures AllIn(Polled(m).order, Polled(m).pads) && Polled(m).cfg.overallMaxFps > 0.0
    ensures |Sent(m, now)| == if Goes(Form(Polled(m), now)) then 1 else 0
  {
    PolledWell(m);
    hide Form, Polled, OutputPts, Meta, Goes, Mux.WellFormed;
  }

  lemma PolledStats(m: Mux)
    requires AllIn(m.order, m.pads)
    ensures Polled(m).stats == m.stats && Polled(m).batchIndex == m.batchIndex
  {
  }

  /** What a poll adds to the statistics. */
  lemma StageStats(m: Mux, now: int)
    requires m.WellFormed()
    ensures AllIn(m.order, m.pads) && m.cfg.overallMaxFps > 0.0
    ensures AllIn(Polled(m).order, Polled(m).pads) && Polled(m).cfg.overallMaxFps > 0.0
    ensures var (e, f) := (BatchStage(EosStage(m.(pending := [])).mux, now), Form(Polled(m), now));
            && e.lost == f.late && e.picks == (if Sent(m, now) == [] then [] else f.picks)
            && e.mux.batchIndex == m.batchIndex + |Sent(m, now)|
            && e.mux.stats == Stats(m.stats.batches + |Sent(m, now)|, m.stats.frames + |e.picks|,
                                    m.stats.droppedOverflow, m.stats.droppedLate + |e.lost|)
            && |Sent(m, now)| <= 1
  {
    hide *;
    PollReady(m);
    PolledReady(m);
    BatchStats(Polled(m), now);
    PolledIs(m);
    PolledStats(m);
    SentIfGoes(m, now);
  }

  lemma PollReady(m: Mux)
    requires m.WellFormed()
    ensures AllIn(m.order, m.pads) && m.cfg.overallMaxFps > 0.0
  {
  }

  lemma PolledReady(m: Mux)
    requires m.WellFormed()
    ensures AllIn(Polled(m).order, Polled(m).pads) && Polled(m).cfg.overallMaxFps > 0.0
  {
    PolledWell(m);
    hide Polled;
  }

  lemma PolledIs(m: Mux)
    requires AllIn(m.order, m.pads)
    ensures EosStage(m.(pending := [])).mux == Polled(m)
  {
    hide EosStage;
  }

  lemma PollStats(m: Mux, now: int)
    requires m.WellFormed()
    ensures AllIn(m.order, m.pads) && m.cfg.overallMaxFps > 0.0
    ensures var e := Poll(m, now);
            && (forall x :: x in e.lost ==> x.pad in m.pads)
            && e.mux.batchIndex == m.batchIndex + |Sent(m, now)| && e.mux.order == m.order && e.mux.cfg == m.cfg
            && e.mux.stats == Stats(m.stats.batches + |Sent(m, now)|, m.stats.frames + |e.picks|,
                                    m.stats.droppedOverflow, m.stats.droppedLate + |e.lost|)
            && |Sent(m, now)| <= 1 && (Sent(m, now) == [] ==> e.picks == [])
            && (Sent(m, now) != [] ==> Sent(m, now)[0].Frames? && |Sent(m, now)[0].batch.frames| == |e.picks|)
  {
    PolledWell(m);
    StageStats(m, now);
    LateIn(Polled(m), now);
    SentFrames(m, now);
    PollIsStage(m, now);
    hide Form, BatchStage, EosStage, Sent, Polled, Poll;
  }

  lemma SentFrames(m: Mux, now: int)
    requires m.WellFormed()
    ensures AllIn(Polled(m).order, Polled(m).pads) && Polled(m).cfg.overallMaxFps > 0.0
    ensures Sent(m, now) != [] ==> Sent(m, now)[0].Frames? && |Sent(m, now)[0].batch.frames| == |Form(Polled(m), now).picks|
  {
    PolledWell(m);
    hide Form, Polled, OutputPts, Meta;
  }

  lemma PollIsStage(m: Mux, now: int)
    requires m.WellFormed()
    ensures AllIn(m.order, m.pads) && m.cfg.overallMaxFps > 0.0
    ensures AllIn(EosStage(m.(pending := [])).mux.order, EosStage(m.(pending := [])).mux.pads)
    ensures EosStage(m.(pending := [])).mux.cfg.overallMaxFps > 0.0
    ensures var (e, s) := (Poll(m, now), BatchStage(EosStage(m.(pending := [])).mux, now));
            && e.lost == s.lost && e.picks == s.picks && e.mux.stats == s.mux.stats && e.mux.batchIndex == s.mux.batchIndex
            && e.mux.order == m.order && e.mux.cfg == m.cfg
  {
    hide Form, EosNotices, BatchStage, ClosePad;
  }

  // ---------------------------------------------------------------- runs

  ghost predicate StatsOk(w: World) {
    && AllKnown(w.mux.order, w.hist)
    && w.mux.stats.batches == w.mux.batchIndex == CountBatches(w.trace)
    && w.mux.stats.frames == |FramesIn(w.trace)|
    && w.mux.stats.droppedOverflow + w.mux.stats.droppedLate == SumLost(w.hist, w.mux.order) + SumRetired(w.retired)
    && (!w.mux.cfg.syncInputs ==> w.mux.stats.droppedLate == 0)
  }

  lemma KnownInOrder(w: World)
    requires Inv(w)
    ensures AllKnown(w.mux.order, w.hist) && Distinct(w.mux.order) && w.mux.WellFormed() && w.hist.Keys == w.mux.pads.Keys
    ensures forall i :: i in w.mux.pads ==> i in w.mux.order
  {
    hide PadOk, Settled;
  }

  lemma AbsorbedLost(w: World, now: int, k: nat)
    requires w.mux.WellFormed() && AllKnown(w.mux.order, w.hist) && k < |w.mux.order|
    ensures AllKnown(w.mux.order, NextPoll(w, now).hist)
    ensures AllIn(w.mux.order, w.mux.pads) && w.mux.cfg.overallMaxFps > 0.0
    ensures var i := w.mux.order[k]; |NextPoll(w, now).hist[i].lostAt| == |w.hist[i].lostAt| + |On(Poll(w.mux, now).lost, i)|
  {
    hide Poll, FramesIn, FramesOn, On;
  }

  lemma NoLateWithoutSync(m: Mux, now: int)
    requires Sound(m) && !m.cfg.syncInputs
    ensures AllIn(m.order, m.pads) && m.cfg.overallMaxFps > 0.0 && m.WellFormed() && Poll(m, now).lost == []
  {
    PolledWell(m);
    PolledSound(m);
    StageStats(m, now);
    PollIsStage(m, now);
    var f := Form(Polled(m), now);
    FormSplits(Polled(m), now);
    LateIn(Polled(m), now);
    hide Form, BatchStage, EosStage, Polled, Poll, On, Sound, Thinned;
    forall x | x in f.late ensures On(f.late, x.pad) == [] {
      assert SplitAt(Polled(m), f, x.pad);
    }
    NothingOn(f.late);
  }

  lemma NothingOn(s: seq<Pick>)
    requires forall x :: x in s ==> On(s, x.pad) == []
    ensures s == []
  {
    if s != [] {
      OnMember(s, s[0].pad, s[0].q);
    }
  }

  /** What a poll leaves, as far as the sums are concerned. */
  lemma PollSums(w: World, now: int)
    requires Inv(w) && w.mux.WellFormed()
    ensures AllIn(w.mux.order, w.mux.pads) && w.mux.cfg.overallMaxFps > 0.0
    ensures var (e, w') := (Poll(w.mux, now), NextPoll(w, now));
            && AllKnown(w.mux.order, w.hist) && AllKnown(w.mux.order, w'.hist)
            && SumLost(w'.hist, w.mux.order) == SumLost(w.hist, w.mux.order) + |e.lost|
  {
    KnownInOrder(w);
    PollStats(w.mux, now);
    var e, w' := Poll(w.mux, now), NextPoll(w, now);
    NextPollKeeps(w, now);
    hide Inv, Poll, Sent, NextPoll, On;
    forall k | 0 <= k < |w.mux.order|
      ensures AllKnown(w.mux.order, w'.hist) && |w'.hist[w.mux.order[k]].lostAt| == |w.hist[w.mux.order[k]].lostAt| + |On(e.lost, w.mux.order[k])|
    {
      AbsorbedLost(w, now, k);
    }
    hide Mux.WellFormed;
    SumPlus(w.hist, w'.hist, w.mux.order, e.lost);
    CountIsLength(e.lost, w.mux.order);
  }

  lemma PollCounts(w: World, now: int)
    requires w.mux.WellFormed()
    ensures AllIn(w.mux.order, w.mux.pads) && w.mux.cfg.overallMaxFps > 0.0
    ensures CountBatches(NextPoll(w, now).trace) == CountBatches(w.trace) + |Sent(w.mux, now)|
    ensures |FramesIn(NextPoll(w, now).trace)| == |FramesIn(w.trace)| + |Poll(w.mux, now).picks|
  {
    hide *;
    PollTraceIs(w, now);
    var before, after := PollOuts(w.mux, now);
    ThreeCounts(before, Sent(w.mux, now), after);
    CountAppend(w.trace, Poll(w.mux, now).outs);
    FramesInAppend(w.trace, Poll(w.mux, now).outs);
    SentCounts(w.mux, now);
  }

  lemma StatsParts(w: World)
    ensures StatsOk(w) ==> AllKnown(w.mux.order, w.hist) && w.mux.stats.batches == w.mux.batchIndex == CountBatches(w.trace)
                           && w.mux.stats.frames == |FramesIn(w.trace)|
    ensures StatsOk(w) && AllKnown(w.mux.order, w.hist)
            ==> w.mux.stats.droppedOverflow + w.mux.stats.droppedLate == SumLost(w.hist, w.mux.order) + SumRetired(w.retired)
    ensures StatsOk(w) && !w.mux.cfg.syncInputs ==> w.mux.stats.droppedLate == 0
  {
    hide CountBatches, FramesIn, SumLost, SumRetired, AllKnown;
  }

  lemma StatsWhole(w: World)
    requires AllKnown(w.mux.order, w.hist)
    requires w.mux.stats.batches == w.mux.batchIndex == CountBatches(w.trace) && w.mux.stats.frames == |FramesIn(w.trace)|
    requires w.mux.stats.droppedOverflow + w.mux.stats.droppedLate == SumLost(w.hist, w.mux.order) + SumRetired(w.retired)
    requires !w.mux.cfg.syncInputs ==> w.mux.stats.droppedLate == 0
    ensures StatsOk(w)
  {
    hide CountBatches, FramesIn, SumLost, SumRetired, AllKnown;
  }

  lemma PollNextMux(w: World, now: int)
    requires w.mux.WellFormed()
    ensures AllIn(w.mux.order, w.mux.pads) && w.mux.cfg.overallMaxFps > 0.0 && NextPoll(w, now).mux == Poll(w.mux, now).mux
  {
    hide Poll;
  }

  lemma PollStatsOk(w: World, now: int)
    requires Inv(w) && w.mux.WellFormed() && StatsOk(w)
    ensures StatsOk(NextPoll(w, now))
  {
    hide *;
    PollSums(w, now);
    PollCounts(w, now);
    PollStats(w.mux, now);
    PollNextMux(w, now);
    InvIsSound(w);
    if !w.mux.cfg.syncInputs {
      NoLateWithoutSync(w.mux, now);
    }
    NextPollKeeps(w, now);
    StatsParts(w);
    StatsWhole(NextPoll(w, now));
  }

  lemma NextPollKeeps(w: World, now: int)
    requires w.mux.WellFormed()
    ensures NextPoll(w, now).retired == w.retired && NextPoll(w, now).hist.Keys == w.hist.Keys
  {
    hide Poll;
  }

  lemma SentCounts(m: Mux, now: int)
    requires m.WellFormed()
    ensures AllIn(m.order, m.pads) && m.cfg.overallMaxFps > 0.0
    ensures CountBatches(Sent(m, now)) == |Sent(m, now)| && |FramesIn(Sent(m, now))| == |Poll(m, now).picks|
  {
    PollStats(m, now);
    hide Poll, Sent, FramesIn, CountBatches;
    if Sent(m, now) != [] {
      assert Sent(m, now) == [Frames(Sent(m, now)[0].batch)];
      OneCounts(Sent(m, now)[0].batch);
    } else {
      QuietCounts([]);
    }
  }

  lemma AddedStats(w: World, i: int, source: Option<int>, scfg: Option<SourceConfig>)
    requires w.mux.WellFormed() && w.hist.Keys == w.mux.pads.Keys && i !in w.mux.pads
    ensures var w' := Next(w, Add(i, source, scfg));
            && w'.hist == w.hist[i := EmptyHistory(|w.trace|)] && w'.mux.order == w.mux.order + [i] && w'.trace == w.trace
            && w'.retired == w.retired && w'.mux.stats == w.mux.stats && w'.mux.batchIndex == w.mux.batchIndex && w'.mux.cfg == w.mux.cfg
  {
    hide NewPad, Mux.WellFormed;
  }

  lemma AddStatsOk(w: World, i: int, source: Option<int>, scfg: Option<SourceConfig>)
    requires Inv(w) && StatsOk(w) && w.mux.WellFormed() && w.hist.Keys == w.mux.pads.Keys
    ensures StatsOk(Next(w, Add(i, source, scfg)))
  {
    KnownInOrder(w);
    var w' := Next(w, Add(i, source, scfg));
    if i !in w.mux.pads {
      AddedStats(w, i, source, scfg);
      hide Inv, CountBatches, FramesIn, Next, Mux.WellFormed, SumLost;
      forall k | 0 <= k < |w.mux.order| ensures w.mux.order[k] in w'.hist && w'.hist[w.mux.order[k]] == w.hist[w.mux.order[k]] {
        assert w.mux.order[k] in w.hist;
      }
      SumSame(w.hist, w'.hist, w.mux.order);
      SumLast(w'.hist, w.mux.order, i);
    } else {
      assert w' == w;
      hide *;
    }
  }

  lemma RemoveStatsOk(w: World, i: int)
    requires Inv(w) && StatsOk(w) && w.mux.WellFormed() && w.hist.Keys == w.mux.pads.Keys
    ensures StatsOk(NextRemove(w, i))
  {
    hide *;
    KnownInOrder(w);
    RemoveElsewhere(w, i);
    if i in w.mux.pads {
      var w' := NextRemove(w, i);
      RemovedLost(w, i);
      WithoutRemoves(w.mux.order, i);
      SumWithout(w.hist, w.mux.order, i);
      RemovedKnown(w.hist, w.mux.order, i);
      SumSame(w.hist, w'.hist, w'.mux.order);
      RetiredOneMore(w.retired, w'.retired[|w.retired|]);
      StatsParts(w);
      StatsWhole(w');
    }
  }

  lemma RemoveElsewhere(w: World, i: int)
    requires w.hist.Keys == w.mux.pads.Keys
    ensures i !in w.mux.pads ==> NextRemove(w, i) == w
  {
  }

  lemma RemovedKnown(hist: map<int, History>, ids: seq<int>, i: int)
    requires AllKnown(ids, hist) && Distinct(ids) && i in ids
    ensures var rest := Without(ids, i);
            AllKnown(rest, hist - {i}) && forall k :: 0 <= k < |rest| ==> (hist - {i})[rest[k]] == hist[rest[k]]
  {
    WithoutRemoves(ids, i);
    var rest := Without(ids, i);
    hide Without;
    forall k | 0 <= k < |rest| ensures rest[k] in hist && rest[k] != i {
      assert rest[k] in rest;
      var j :| 0 <= j < |ids| && ids[j] == rest[k];
    }
  }

  lemma RemovedLost(w: World, i: int)
    requires w.hist.Keys == w.mux.pads.Keys && i in w.mux.pads
    ensures var w' := NextRemove(w, i);
            && w'.hist == w.hist - {i} && w'.mux.order == Without(w.mux.order, i) && w'.trace == w.trace
            && |w'.retired| == |w.retired| + 1 && w'.retired == w.retired + [w'.retired[|w.retired|]]
            && |w'.retired[|w.retired|].lostAt| == |w.hist[i].lostAt| + |w.mux.pads[i].queue|
            && w'.mux.stats == w.mux.stats.(droppedOverflow := w.mux.stats.droppedOverflow + |w.mux.pads[i].queue|)
            && w'.mux.batchIndex == w.mux.batchIndex && w'.mux.cfg == w.mux.cfg
  {
    OnTagged(i, w.mux.pads[i].queue, i);
    hide On, Tagged, FramesOn, FramesIn, Without;
  }

  lemma PushStatsOk(w: World, i: int, a: Arrival, duration: int, now: int)
    requires Inv(w) && StatsOk(w) && w.mux.WellFormed() && w.hist.Keys == w.mux.pads.Keys
    ensures StatsOk(NextPush(w, i, a, duration, now))
  {
    hide *;
    KnownInOrder(w);
    StatsParts(w);
    var w' := NextPush(w, i, a, duration, now);
    if i in w.mux.pads && !Refuses(w.mux.pads[i]) {
      DepthOk(w.mux, i);
      var lost := PushPad(w.mux.cfg, w.mux.pads[i], a, duration, now).lost;
      PushedStats(w, i, a, duration, now);
      PushedSums(w.hist, w'.hist, w.mux.order, i, lost);
      StatsWhole(w');
    } else {
      PushElsewhere(w, i, a, duration, now);
      StatsWhole(w');
    }
  }

  lemma DepthOk(m: Mux, i: int)
    requires m.WellFormed() && i in m.pads
    ensures m.pads[i].depth >= 1
  {
  }

  lemma PushElsewhere(w: World, i: int, a: Arrival, duration: int, now: int)
    requires w.mux.WellFormed() && w.hist.Keys == w.mux.pads.Keys && (i !in w.mux.pads || Refuses(w.mux.pads[i]))
    ensures var w' := NextPush(w, i, a, duration, now);
            w'.mux == w.mux && w'.hist == w.hist && w'.trace == w.trace && w'.retired == w.retired
  {
    hide Mux.WellFormed;
  }

  lemma TaggedPads(i: int, q: seq<Queued>)
    ensures forall x :: x in Tagged(i, q) ==> x.pad == i
  {
  }

  /** Only pad `i` has closed more. */
  lemma PushedSums(hist: map<int, History>, hist': map<int, History>, ids: seq<int>, i: int, lost: seq<Queued>)
    requires AllKnown(ids, hist) && Distinct(ids) && i in ids && i in hist && i in hist' && hist' == hist[i := hist'[i]]
    requires |hist'[i].lostAt| == |hist[i].lostAt| + |lost|
    ensures AllKnown(ids, hist') && SumLost(hist', ids) == SumLost(hist, ids) + |lost|
  {
    hide On, Tagged, SumLost;
    forall k | 0 <= k < |ids|
      ensures ids[k] in hist'
      ensures |hist'[ids[k]].lostAt| == |hist[ids[k]].lostAt| + |On(Tagged(i, lost), ids[k])|
    {
      OnTagged(i, lost, ids[k]);
    }
    SumPlus(hist, hist', ids, Tagged(i, lost));
    TaggedLength(i, lost);
    TaggedPads(i, lost);
    CountIsLength(Tagged(i, lost), ids);
  }

  lemma PushedStats(w: World, i: int, a: Arrival, duration: int, now: int)
    requires w.mux.WellFormed() && w.hist.Keys == w.mux.pads.Keys && i in w.mux.pads && !Refuses(w.mux.pads[i])
    ensures var (w', r) := (NextPush(w, i, a, duration, now), PushPad(w.mux.cfg, w.mux.pads[i], a, duration, now));
            && w'.hist == w.hist[i := w'.hist[i]] && |w'.hist[i].lostAt| == |w.hist[i].lostAt| + |r.lost|
            && w'.mux.stats == w.mux.stats.(droppedOverflow := w.mux.stats.droppedOverflow + |r.lost|)
            && w'.mux.order == w.mux.order && w'.mux.batchIndex == w.mux.batchIndex && w'.trace == w.trace
            && w'.retired == w.retired && w'.mux.cfg == w.mux.cfg
  {
    hide PushPad, Mux.WellFormed;
  }

  lemma OthersStatsOk(w: World, s: Step)
    requires StatsOk(w) && w.mux.WellFormed() && w.hist.Keys == w.mux.pads.Keys && Enabled(w, s)
    requires s.StartAt? || s.StopNow? || s.ResumeAt? || s.Abandon? || s.End?
    ensures StatsOk(Next(w, s))
  {
    hide *;
    var w' := Next(w, s);
    OthersKeep(w, s);
    StatsParts(w);
    SameKnown(w, s);
    SumSame(w.hist, w'.hist, w.mux.order);
    StatsWhole(w');
  }

  lemma OthersKeep(w: World, s: Step)
    requires w.mux.WellFormed() && w.hist.Keys == w.mux.pads.Keys && Enabled(w, s)
    requires s.StartAt? || s.StopNow? || s.ResumeAt? || s.Abandon? || s.End?
    ensures var w' := Next(w, s);
            && w'.mux.order == w.mux.order && w'.mux.stats == w.mux.stats && w'.mux.batchIndex == w.mux.batchIndex
            && w'.trace == w.trace && w'.retired == w.retired && w'.mux.cfg == w.mux.cfg && w'.hist.Keys == w.hist.Keys
            && forall i :: i in w.hist ==> w'.hist[i].lostAt == w.hist[i].lostAt
  {
    hide Mux.WellFormed;
  }

  lemma SameKnown(w: World, s: Step)
    requires w.mux.WellFormed() && w.hist.Keys == w.mux.pads.Keys && Enabled(w, s)
    requires AllKnown(w.mux.order, w.hist) && Next(w, s).hist.Keys == w.hist.Keys
    requires forall i :: i in w.hist ==> Next(w, s).hist[i].lostAt == w.hist[i].lostAt
    ensures AllKnown(w.mux.order, Next(w, s).hist)
    ensures forall k :: 0 <= k < |w.mux.order| ==>
              w.mux.order[k] in w.hist && |Next(w, s).hist[w.mux.order[k]].lostAt| == |w.hist[w.mux.order[k]].lostAt|
  {
    hide Next, Mux.WellFormed;
    forall k | 0 <= k < |w.mux.order|
      ensures w.mux.order[k] in w.hist && |Next(w, s).hist[w.mux.order[k]].lostAt| == |w.hist[w.mux.order[k]].lostAt|
    {
      var i := w.mux.order[k];
      assert i in w.hist;
    }
  }

  lemma FollowsStatsOk(w: World, s: Step, w': World)
    requires Inv(w) && Follows(w, s, w') && StatsOk(w)
    ensures StatsOk(w')
  {
    hide Inv, StatsOk, NextPoll, NextPush, NextRemove;
    match s
    case PollAt(now) => PollStatsOk(w, now);
    case PushAt(i, a, duration, now) => PushStatsOk(w, i, a, duration, now);
    case Add(i, source, scfg) => AddStatsOk(w, i, source, scfg);
    case Remove(i) => RemoveStatsOk(w, i);
    case _ => OthersStatsOk(w, s);
  }

  lemma {:induction false} RunStatsOk(ws: seq<World>, steps: seq<Step>, k: nat)
    requires Run(ws, steps) && k < |ws| && Inv(ws[0]) && StatsOk(ws[0])
    ensures StatsOk(ws[k])
  {
    hide Inv, Follows, StatsOk;
    if k > 0 {
      RunStatsOk(ws, steps, k - 1);
      RunKeepsInv(ws, steps, k - 1);
      FollowsStatsOk(ws[k - 1], steps[k - 1], ws[k]);
    }
  }

  lemma NewStatsOk(cfg: MuxConfig, clock: int)
    ensures StatsOk(NewWorld(cfg, clock))
  {
  }

  /** In every world of every run the statistics count the batches and frames put out and
      the frames closed, whether late, for room, or with their pad. */
  lemma StatsAddUp(cfg: MuxConfig, ws: seq<World>, steps: seq<Step>, k: nat)
    requires RunFrom(cfg, ws, steps) && k < |ws|
    ensures StatsOk(ws[k])
  {
    hide Inv, Follows, NewWorld, StatsOk;
    var clock :| ws[0] == NewWorld(cfg, clock);
    NewWorldOk(cfg, clock);
    NewStatsOk(cfg, clock);
    RunStatsOk(ws, steps, k);
  }

  lemma StepKinds(w: World, s: Step, w': World)
    requires Follows(w, s, w') && w.mux.WellFormed() && w.hist.Keys == w.mux.pads.Keys
    ensures s.PollAt? ==> w'.mux.stats.droppedOverflow == w.mux.stats.droppedOverflow
    ensures !s.PollAt? ==> w'.mux.stats.droppedLate == w.mux.stats.droppedLate
  {
    hide *;
    FollowsIs(w, s, w');
    match s
    case PollAt(now) =>
      PollStats(w.mux, now);
      PollNextMux(w, now);
    case _ => OtherKinds(w, s);
  }

  lemma FollowsIs(w: World, s: Step, w': World)
    requires Follows(w, s, w')
    ensures Enabled(w, s) && w' == Next(w, s) && (s.PollAt? ==> w.mux.WellFormed() && w' == NextPoll(w, s.now))
  {
    hide NextPoll;
  }

  lemma OtherKinds(w: World, s: Step)
    requires !s.PollAt? && Enabled(w, s) && w.mux.WellFormed() && w.hist.Keys == w.mux.pads.Keys
    ensures Next(w, s).mux.stats.droppedLate == w.mux.stats.droppedLate
  {
    hide NextPoll, PushPad, PushHistory, Mux.WellFormed, NewPad, On, Tagged, FramesOn;
  }

  /** In every run late frames are counted at polls only, all other frames closed at other
      calls only. */
  lemma EachCounterHasItsCalls(cfg: MuxConfig, ws: seq<World>, steps: seq<Step>, k: nat)
    requires RunFrom(cfg, ws, steps) && k < |steps|
    ensures steps[k].PollAt? ==> ws[k + 1].mux.stats.droppedOverflow == ws[k].mux.stats.droppedOverflow
    ensures !steps[k].PollAt? ==> ws[k + 1].mux.stats.droppedLate == ws[k].mux.stats.droppedLate
  {
    hide Inv, Follows, NewWorld;
    var clock :| ws[0] == NewWorld(cfg, clock);
    NewWorldOk(cfg, clock);
    RunKeepsInv(ws, steps, k);
    KnownInOrder(ws[k]);
    StepKinds(ws[k], steps[k], ws[k + 1]);
  }
}
