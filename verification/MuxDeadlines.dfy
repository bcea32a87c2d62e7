/** The deadline is exact: once a poll had nothing to put out, polls before
    `next_deadline_ns` put out no batch either, and a poll at or after it does. */
module MuxDeadlines {
  import opened Shared
  import opened MuxTypes
  import opened MuxSpec
  import opened BatchSplit
  import opened LegacyBatch
  import opened MuxDrain
  import opened MuxFairness

  /** Settings under which nothing but fullness and the timer decides about a batch. */
  predicate Prompt(cfg: MuxConfig) {
    if cfg.policy == New then PlainNew(cfg) && !cfg.maxFpsControl
    else !cfg.syncInputs && cfg.batchSize >= 1 && (cfg.liveSource || cfg.maxSameLegacy >= 1)
  }

  ghost predicate SomeQueued(m: Mux) {
    exists i :: Waiting(m, i)
  }

  ghost predicate Due(m: Mux, now: int)
    requires AllIn(m.order, m.pads)
  {
    NextDeadline(m).Some? && now >= NextDeadline(m).value
  }

  /** The number of frames that makes a batch go out at once. */
  function Target(m: Mux): int
    requires AllIn(m.order, m.pads)
  {
    if m.cfg.policy == New then NewBatchSize(m)
    else if m.cfg.liveSource then Min(m.cfg.batchSize, |Active(m.pads, m.order)|)
    else m.cfg.batchSize
  }

  /** A batch of `f` goes out at `now` exactly if it is full or the timer is due. */
  ghost predicate GoesWhen(m: Mux, f: Forming, now: int)
    requires AllIn(m.order, m.pads)
  {
    && f.pads == m.pads && f.late == []
    && (f.picks != [] <==> SomeQueued(m))
    && (f.picks != [] ==> (f.go <==> |f.picks| >= Target(m) || Due(m, now)))
  }

  // ---------------------------------------------------------------- the timer

  lemma {:induction false} OldestSome(pads: map<int, Pad>, ids: seq<int>)
    requires AllIn(ids, pads)
    ensures Oldest(pads, ids).Some? <==> exists k :: 0 <= k < |ids| && pads[ids[k]].queue != [] && !pads[ids[k]].Done()
  {
    if ids != [] {
      var n := |ids| - 1;
      OldestSome(pads, ids[..n]);
      if k :| 0 <= k < |ids| && pads[ids[k]].queue != [] && !pads[ids[k]].Done() {
        assert k < n ==> ids[..n][k] == ids[k];
      }
      if k :| 0 <= k < n && pads[ids[..n][k]].queue != [] && !pads[ids[..n][k]].Done() {
        assert ids[k] == ids[..n][k];
      }
    }
  }

  lemma TimerRuns(m: Mux)
    requires Sound(m)
    ensures LegacyTimerStart(m).Some? <==> SomeQueued(m)
  {
    hide Ordered;
    OldestSome(m.pads, m.order);
    if i :| Waiting(m, i) {
      var k :| 0 <= k < |m.order| && m.order[k] == i;
    }
    if k :| 0 <= k < |m.order| && m.pads[m.order[k]].queue != [] {
      assert Waiting(m, m.order[k]);
    }
  }

  // ---------------------------------------------------------------- legacy

  lemma FifoTakesSome(m: Mux)
    requires Sound(m) && m.cfg.batchSize >= 1 && m.cfg.maxSameLegacy >= 1
    ensures FifoPicks(m, Active(m.pads, m.order)) != [] <==> SomeQueued(m)
  {
    var ids := Active(m.pads, m.order);
    ActiveDistinct(m.pads, m.order);
    var picks := FifoPicks(m, ids);
    FifoPicksFrom(m, ids);
    SortMembers(AllQueued(m.pads, ids));
    if i :| Waiting(m, i) {
      AllQueuedOn(m.pads, ids, i);
      OnMember(AllQueued(m.pads, ids), i, m.pads[i].queue[0]);
      FifoTakesOldest(m, ids, Pick(i, m.pads[i].queue[0]));
    }
    if picks != [] {
      assert picks[0] in AllQueued(m.pads, ids);
      assert Waiting(m, picks[0].pad);
    }
  }

  lemma VisitLivePlain(m: Mux, f: Forming, i: int, now: int)
    requires !m.cfg.syncInputs && i in f.pads && PicksIn(f.pads, f.picks)
    ensures var g := VisitLive(m, f, i, now);
            && g == f.(picks := g.picks) && |g.picks| >= |f.picks|
            && (|g.picks| > |f.picks| <==> f.pads[i].queue != [] && |f.picks| < m.cfg.batchSize)
            && g == VisitLive(m, f, i, 0)
  {
    var p := f.pads[i];
    var s := Screened(p.queue, [], |p.queue|);
    assert Thin(p, s) == p;
    assert f.pads[i := p] == f.pads;
    assert f.late + Tagged(i, []) == f.late;
  }

  lemma {:induction false} FormLivePlain(m: Mux, ids: seq<int>, now: int)
    requires !m.cfg.syncInputs && AllIn(ids, m.pads) && m.cfg.batchSize >= 1
    ensures var f := FormLive(m, ids, now);
            && f.pads == m.pads && f.late == [] && f == FormLive(m, ids, 0)
            && (f.picks != [] <==> exists k :: 0 <= k < |ids| && m.pads[ids[k]].queue != [])
  {
    if ids != [] {
      var n := |ids| - 1;
      FormLivePlain(m, ids[..n], now);
      var f := FormLive(m, ids[..n], now);
      VisitLivePlain(m, f, ids[n], now);
      if k :| 0 <= k < |ids| && m.pads[ids[k]].queue != [] {
        assert k < n ==> ids[..n][k] == ids[k];
      }
      if k :| 0 <= k < n && m.pads[ids[..n][k]].queue != [] {
        assert ids[k] == ids[..n][k];
      }
    }
  }

  lemma FormLiveTakesSome(m: Mux, now: int)
    requires Sound(m) && !m.cfg.syncInputs && m.cfg.batchSize >= 1
    ensures FormLive(m, Active(m.pads, m.order), now).picks != [] <==> SomeQueued(m)
  {
    hide Ordered;
    var ids := Active(m.pads, m.order);
    FormLivePlain(m, ids, now);
    if i :| Waiting(m, i) {
      assert i in ids;
      var k :| 0 <= k < |ids| && ids[k] == i;
    }
    if k :| 0 <= k < |ids| && m.pads[ids[k]].queue != [] {
      assert Waiting(m, ids[k]);
    }
  }

  lemma NobodyActive(m: Mux)
    requires Sound(m) && Active(m.pads, m.order) == []
    ensures !SomeQueued(m)
  {
    hide Ordered;
    forall i ensures !Waiting(m, i) {
      assert i !in Active(m.pads, m.order);
    }
  }

  lemma LiveGoesWhen(m: Mux, now: int)
    requires Sound(m) && Prompt(m.cfg) && m.cfg.policy == Legacy && m.cfg.liveSource && Active(m.pads, m.order) != []
    ensures GoesWhen(m, FormLegacy(m, now), now) && FormLegacy(m, now).picks == FormLegacy(m, 0).picks
  {
    hide Ordered, SomeQueued, Oldest, FormLive, Active;
    FormLivePlain(m, Active(m.pads, m.order), now);
    FormLiveTakesSome(m, now);
    TimerRuns(m);
    hide Sound, LegacyTimerStart;
  }

  lemma FifoGoesWhen(m: Mux, now: int)
    requires Sound(m) && Prompt(m.cfg) && m.cfg.policy == Legacy && !m.cfg.liveSource && Active(m.pads, m.order) != []
    ensures GoesWhen(m, FormLegacy(m, now), now) && FormLegacy(m, now).picks == FormLegacy(m, 0).picks
  {
    hide Ordered, SomeQueued, Oldest, FifoPicks, Active;
    FifoTakesSome(m);
    TimerRuns(m);
    hide Sound, LegacyTimerStart;
  }

  lemma LegacyGoesWhen(m: Mux, now: int)
    requires Sound(m) && Prompt(m.cfg) && m.cfg.policy == Legacy
    ensures GoesWhen(m, FormLegacy(m, now), now)
    ensures FormLegacy(m, now).picks == FormLegacy(m, 0).picks
  {
    if Active(m.pads, m.order) == [] {
      NobodyActive(m);
    } else if m.cfg.liveSource {
      LiveGoesWhen(m, now);
    } else {
      FifoGoesWhen(m, now);
    }
    hide FormLegacy, Sound, SomeQueued;
  }

  // ---------------------------------------------------------------- new policy

  lemma {:induction false} FillTimeless(m: Mux, f: Forming, entries: seq<Entry>, now: int, bs: int)
    requires PlainNew(m.cfg) && EntriesIn(entries, f.pads) && PicksIn(f.pads, f.picks) && |f.picks| < bs
    ensures Fill(m, f, entries, now, bs) == Fill(m, f, entries, 0, bs)
    decreases |entries|
  {
    if entries != [] {
      PlainVisit(m, f, entries[0].pad, now, bs);
      var g := Visit(m, f, entries[0].pad, now, bs);
      assert g == Visit(m, f, entries[0].pad, 0, bs);
      if |g.picks| < bs {
        FillTimeless(m, g, entries[1..], now, bs);
      }
    }
  }

  lemma {:induction false} FillNothing(m: Mux, f: Forming, entries: seq<Entry>, now: int, bs: int)
    requires PlainNew(m.cfg) && EntriesIn(entries, f.pads) && f.picks == [] && bs >= 1
    requires forall i :: i in f.pads ==> f.pads[i].queue == []
    ensures Fill(m, f, entries, now, bs).picks == []
    decreases |entries|
  {
    if entries != [] {
      PlainVisit(m, f, entries[0].pad, now, bs);
      FillNothing(m, Visit(m, f, entries[0].pad, now, bs), entries[1..], now, bs);
    }
  }

  /** Every pad of the groups from number `gi` on comes up in the round. */
  lemma {:induction false} RoundEntriesCover(groups: seq<seq<int>>, pStart: nat, start: nat, gi: nat, g: nat, i: int)
    requires gi < |groups| && pStart < |groups| && (groups[pStart] != [] ==> start < |groups[pStart]|)
    requires gi <= g < |groups| && i in groups[Turn(pStart, g, |groups|)]
    ensures exists k :: 0 <= k < |RoundEntries(groups, pStart, start, gi)| && RoundEntries(groups, pStart, start, gi)[k].pad == i
    decreases |groups| - gi
  {
    var pos := Turn(pStart, gi, |groups|);
    var srcs, s := groups[pos], if gi == 0 then start else 0;
    var here: seq<Entry> := GroupEntries(srcs, s, pos);
    var rest: seq<Entry> := RoundEntries(groups, pStart, start, gi + 1);
    var all := RoundEntries(groups, pStart, start, gi);
    assert all == here + rest;
    if g == gi {
      var d := Distance(s, IndexOf(srcs, i), |srcs|);
      assert all[d] == here[d] && here[d].pad == i;
    } else {
      RoundEntriesCover(groups, pStart, start, gi + 1, g, i);
      var k :| 0 <= k < |rest| && rest[k].pad == i;
      assert all[|here| + k] == rest[k];
    }
  }

  lemma RoundCovers(m: Mux, i: int)
    requires m.WellFormed() && i in m.pads
    ensures exists k :: 0 <= k < |Round(m)| && Round(m)[k].pad == i
  {
    GroupsPartition(m);
    var groups := Groups(m);
    var g :| 0 <= g < |groups| && i in groups[g];
    var pStart := if m.cfg.roundRobin then Remainder(m.rrPriority, |groups|) else 0;
    var first := groups[pStart];
    var start := if m.cfg.roundRobin && first != [] then Remainder(m.rrSource, |first|) else 0;
    RoundEntriesCover(groups, pStart, start, 0, Distance(pStart, g, |groups|), i);
    var all := RoundEntries(groups, pStart, start, 0);
    assert Round(m) == all;
    var k :| 0 <= k < |all| && all[k].pad == i;
    assert Round(m)[k].pad == i;
  }

  lemma NoneQueued(m: Mux)
    requires !SomeQueued(m)
    ensures forall i :: i in m.pads ==> m.pads[i].queue == []
  {
    forall i | i in m.pads ensures m.pads[i].queue == [] {
      assert !Waiting(m, i);
    }
  }

  lemma RoundTakesSome(m: Mux, now: int, bs: int)
    requires Sound(m) && PlainNew(m.cfg) && bs >= 1
    ensures var r := Fill(m, Blank(m), Round(m), now, bs);
            && r.pads == m.pads && r.late == [] && (r.picks != [] <==> SomeQueued(m))
            && r == Fill(m, Blank(m), Round(m), 0, bs)
  {
    FillTimeless(m, Blank(m), Round(m), now, bs);
    FillGrows(m, Blank(m), Round(m), now, bs);
    FillNoLate(m, Blank(m), Round(m), now, bs);
    if i :| Waiting(m, i) {
      RoundCovers(m, i);
      var k :| 0 <= k < |Round(m)| && Round(m)[k].pad == i;
      hide Round, Fill, Ordered;
      FillReaches(m, Blank(m), Round(m), now, bs, k);
    } else {
      NoneQueued(m);
      FillNothing(m, Blank(m), Round(m), now, bs);
    }
  }

  lemma NewGoesWhen(m: Mux, now: int)
    requires Sound(m) && Prompt(m.cfg) && m.cfg.policy == New
    ensures GoesWhen(m, FormNew(m, now), now)
    ensures FormNew(m, now).picks == FormNew(m, 0).picks
  {
    hide Ordered, Fill, Round, OpenPads;
    var bs := NewBatchSize(m);
    if i :| Waiting(m, i) {
      BatchSizePositive(m, i);
    }
    if bs >= 1 {
      RoundTakesSome(m, now, bs);
      if !SomeQueued(m) {
        NoneQueued(m);
      }
      hide NewBatchSize, Sound;
    }
  }

  // ---------------------------------------------------------------- the deadline

  lemma BatchGoesWhen(m: Mux, now: int)
    requires Sound(m) && Prompt(m.cfg)
    ensures GoesWhen(m, Form(m, now), now) && Form(m, now).picks == Form(m, 0).picks
  {
    if m.cfg.policy == Legacy {
      LegacyGoesWhen(m, now);
    } else {
      NewGoesWhen(m, now);
    }
  }

  /** Soundness and completeness of the deadline at the batch stage. */
  lemma StageDeadline(m: Mux, t0: int, now: int)
    requires Sound(m) && Prompt(m.cfg) && BatchStage(m, t0).picks == []
    ensures BatchStage(m, now).picks != [] <==> Due(m, now)
  {
    BatchGoesWhen(m, t0);
    BatchGoesWhen(m, now);
    if Due(m, now) {
      DueMeansQueued(m);
    }
    hide Form, Due, SomeQueued, Target, EmitMux, EmitBatch;
  }

  lemma DueMeansQueued(m: Mux)
    requires Sound(m) && NextDeadline(m).Some?
    ensures SomeQueued(m)
  {
    TimerRuns(m);
    if m.cfg.policy == New {
      var i :| i in m.pads.Keys && m.pads[i].queue != [];
      assert Waiting(m, i);
    }
  }

  lemma {:induction false} NoNoticeNoClosing(pads: map<int, Pad>, ids: seq<int>)
    requires AllIn(ids, pads) && EosNotices(pads, ids) == []
    ensures forall k :: 0 <= k < |ids| ==> !Closing(pads[ids[k]])
  {
    if ids != [] {
      var n := |ids| - 1;
      NoNoticeNoClosing(pads, ids[..n]);
      assert forall k :: 0 <= k < n ==> ids[..n][k] == ids[k];
    }
  }

  /** A poll that puts nothing out finds no pad to close and forms no batch. */
  lemma QuietPoll(m: Mux, now: int)
    requires m.WellFormed() && Poll(m, now).outs == []
    ensures m.pending == [] && EosStage(m).mux == m && EosStage(m).outs == []
    ensures BatchStage(m, now).picks == [] && EndStage(BatchStage(m, now).mux).outs == []
    ensures Poll(m, now).mux == BatchStage(m, now).mux && Poll(m, now).picks == []
  {
    var m0 := m.(pending := []);
    var e1 := EosStage(m0);
    assert |Notices(m.pending)| == |m.pending|;
    assert m0 == m;
    assert |e1.outs| == |EosNotices(m.pads, m.order)|;
    NoNoticeNoClosing(m.pads, m.order);
    assert e1.mux.pads == m.pads by {
      forall i | i in m.pads ensures e1.mux.pads[i] == m.pads[i] {
        var k :| 0 <= k < |m.order| && m.order[k] == i;
      }
    }
    hide BatchStage, EndStage;
    BatchPicksShow(m, now);
  }

  lemma BatchPicksShow(m: Mux, now: int)
    requires m.cfg.overallMaxFps > 0.0 && AllIn(m.order, m.pads)
    ensures BatchStage(m, now).picks != [] <==> BatchStage(m, now).outs != []
  {
    hide Form, EmitBatch, EmitMux;
  }

  lemma QuietEnough(m: Mux, now: int)
    requires m.WellFormed() && m.pending == [] && EosStage(m).mux == m
    ensures Poll(m, now).picks == BatchStage(m, now).picks
  {
    assert m.(pending := []) == m;
    hide BatchStage, EosStage, EndStage;
  }

  /** Once a poll had nothing to put out, a later poll without new input brings a
      batch if and only if the deadline is set and has come. */
  lemma DeadlineIsExact(m: Mux, t0: int, now: int)
    requires Sound(m) && Prompt(m.cfg) && Poll(m, t0).outs == []
    ensures Poll(m, now).picks != [] <==> NextDeadline(m).Some? && now >= NextDeadline(m).value
  {
    QuietPoll(m, t0);
    QuietEnough(m, now);
    StageDeadline(m, t0, now);
  }

  /** The timer sees the same frames before and after the pads that are drained end. */
  lemma {:induction false} OldestSame(cfg: MuxConfig, pads: map<int, Pad>, pads': map<int, Pad>, ids: seq<int>)
    requires AllIn(ids, pads) && AllIn(ids, pads')
    requires forall k :: 0 <= k < |ids| ==> pads'[ids[k]] == ClosePad(cfg, pads[ids[k]])
    ensures Oldest(pads', ids) == Oldest(pads, ids)
  {
    if ids != [] {
      var n := |ids| - 1;
      assert forall k :: 0 <= k < n ==> ids[..n][k] == ids[k];
      OldestSame(cfg, pads, pads', ids[..n]);
    }
  }

  lemma EosKeepsDeadline(m: Mux)
    requires m.WellFormed()
    ensures AllIn(m.order, m.pads) && AllIn(EosStage(m).mux.order, EosStage(m).mux.pads)
    ensures NextDeadline(EosStage(m).mux) == NextDeadline(m)
  {
    var m' := EosStage(m).mux;
    forall k | 0 <= k < |m.order| ensures m'.pads[m.order[k]] == ClosePad(m.cfg, m.pads[m.order[k]]) {
      assert m.order[k] in m.pads;
    }
    OldestSame(m.cfg, m.pads, m'.pads, m.order);
    forall i | i in m.pads ensures m'.pads[i].queue == m.pads[i].queue {
    }
    assert m'.pads.Keys == m.pads.Keys;
    hide Oldest, ClosePad, EosNotices, Mux.WellFormed;
    assert (forall i <- m'.pads.Keys :: m'.pads[i].queue == []) <==> (forall i <- m.pads.Keys :: m.pads[i].queue == []);
  }

  /** Whatever state the mux is in: a poll at or after the deadline brings a batch, one
      before it only a batch that is full. */
  lemma DeadlineDecides(m: Mux, now: int)
    requires Sound(m) && Prompt(m.cfg)
    ensures AllIn(m.order, m.pads) && m.cfg.overallMaxFps > 0.0
    ensures var e1 := EosStage(m.(pending := [])).mux;
            && AllIn(e1.order, e1.pads)
            && (Due(m, now) ==> Poll(m, now).picks != [])
            && (Poll(m, now).picks != [] && !Due(m, now) ==> |Poll(m, now).picks| >= Target(e1))
  {
    var m0 := m.(pending := []);
    var e1 := EosStage(m0).mux;
    assert Sound(m0) && NextDeadline(m0) == NextDeadline(m);
    EosStageSound(m0);
    EosKeepsDeadline(m0);
    BatchGoesWhen(e1, now);
    if Due(e1, now) {
      DueMeansQueued(e1);
    }
    assert Poll(m, now).picks == BatchStage(e1, now).picks;
    hide Poll, Form, EosStage, NextDeadline, Target, Sound, SomeQueued, EmitMux, EmitBatch;
  }
}
