/** When a poll that put nothing out is followed by more: exactly if it dropped the
    last late frames of a pad whose source has ended. So `drain`, which stops at the
    first such poll, leaves nothing behind without the sync filter. */
module MuxQuiet {
  import opened Shared
  import opened MuxTypes
  import opened MuxSpec
  import opened BatchSplit
  import opened LegacyBatch
  import opened MuxDrain
  import opened MuxFairness
  import opened MuxThrottle
  import opened MuxDeadlines
  import opened SyncSplit

  /** Settings under which repeating a call at the same instant screens no more frames:
      with rate control as well as the sync filter every late frame dropped lets the
      next call look one frame further. */
  predicate Settles(cfg: MuxConfig) {
    !(cfg.policy == New && cfg.syncInputs && cfg.rateControl)
  }

  /** Some drained pad has not told its end yet. */
  ghost predicate SomeClosing(m: Mux) {
    exists i :: i in m.pads && Closing(m.pads[i])
  }

  // ---------------------------------------------------------------- nothing dropped

  lemma SplitOfNothing(m: Mux, f: Forming, i: int)
    requires i in m.pads && i in f.pads && SplitAt(m, f, i) && (f.late == [] || !m.cfg.syncInputs)
    ensures f.pads[i] == m.pads[i]
  {
    OnEmpty(i);
    hide On, Thinned;
    ThinnedAll(m.pads[i].queue, f.pads[i].queue);
  }

  /** Without late frames forming a batch leaves the pads as they are. */
  lemma NothingLate(m: Mux, now: int)
    requires Sound(m) && (Form(m, now).late == [] || !m.cfg.syncInputs)
    ensures Form(m, now).pads == m.pads
  {
    FormSplits(m, now);
    var f := Form(m, now);
    hide Form, SplitAt, Sound;
    forall i | i in m.pads ensures f.pads[i] == m.pads[i] {
      assert SplitAt(m, f, i);
      SplitOfNothing(m, f, i);
    }
  }

  lemma OnEmpty(i: int)
    ensures On([], i) == []
  {
  }

  // ---------------------------------------------------------------- what forming keeps

  /** The flags of pads with late frames dropped. */
  ghost predicate SameFlags(m: Mux, m1: Mux) {
    && m1.cfg == m.cfg && m1.order == m.order && m1.pads.Keys == m.pads.Keys
    && m1.base == m.base && m1.lastBatch == m.lastBatch && m1.eosSent == m.eosSent && m1.pending == m.pending
    && (forall i :: i in m.pads ==> ThinnedPad(m.pads[i], m1.pads[i]))
  }

  ghost predicate ThinnedPad(p: Pad, p1: Pad) {
    && p1 == p.(queue := p1.queue, dropped := p1.dropped)
    && (p1.queue != [] ==> p.queue != [] && p.queue[0].recv <= p1.queue[0].recv)
  }

  lemma FormedFlags(m: Mux, now: int)
    requires Sound(m)
    ensures SameFlags(m, Formed(m, Form(m, now)))
  {
    FormSplits(m, now);
    var f := Form(m, now);
    hide Form, On, Split, Ordered, ThinnedPad;
    forall i | i in m.pads ensures ThinnedPad(m.pads[i], f.pads[i]) {
      assert SplitAt(m, f, i);
      SplitThins(m.cfg.syncInputs, m.pads[i], f.pads[i], On(f.late, i), On(f.picks, i));
    }
  }

  lemma SplitThins(sync: bool, p: Pad, p1: Pad, late: seq<Queued>, taken: seq<Queued>)
    requires Split(sync, p, p1, late, taken) && Ordered(p.queue)
    ensures ThinnedPad(p, p1)
  {
    if p1.queue != [] {
      HeadLater(p.queue, p1.queue, late);
    }
  }

  lemma FlagsInOrder(m: Mux, m1: Mux)
    requires AllIn(m.order, m.pads) && SameFlags(m, m1)
    ensures AllIn(m1.order, m1.pads)
    ensures forall k :: 0 <= k < |m.order| ==> ThinnedPad(m.pads[m.order[k]], m1.pads[m.order[k]])
  {
    forall k | 0 <= k < |m.order| ensures m.order[k] in m1.pads && ThinnedPad(m.pads[m.order[k]], m1.pads[m.order[k]]) {
      var i := m.order[k];
      assert i in m.pads && i in m1.pads.Keys;
    }
  }

  lemma HeadLater(q: seq<Queued>, kept: seq<Queued>, late: seq<Queued>)
    requires Thinned(q, kept, late) && Ordered(q) && kept != []
    ensures q != [] && q[0].recv <= kept[0].recv
  {
    ThinnedMembers(q, kept, late);
    assert kept[0] in q;
  }

  lemma {:induction false} ActiveSame(pads: map<int, Pad>, pads1: map<int, Pad>, ids: seq<int>)
    requires AllIn(ids, pads) && AllIn(ids, pads1)
    requires forall k :: 0 <= k < |ids| ==> pads1[ids[k]].Done() == pads[ids[k]].Done()
    ensures Active(pads1, ids) == Active(pads, ids)
  {
    if ids != [] {
      var n := |ids| - 1;
      assert forall k :: 0 <= k < n ==> ids[..n][k] == ids[k];
      ActiveSame(pads, pads1, ids[..n]);
    }
  }

  /** The timer of thinned pads starts no earlier. */
  lemma {:induction false} OldestLater(pads: map<int, Pad>, pads1: map<int, Pad>, ids: seq<int>)
    requires AllIn(ids, pads) && AllIn(ids, pads1)
    requires forall k :: 0 <= k < |ids| ==> ThinnedPad(pads[ids[k]], pads1[ids[k]])
    ensures Oldest(pads1, ids).Some? ==> Oldest(pads, ids).Some? && Oldest(pads, ids).value <= Oldest(pads1, ids).value
  {
    if ids != [] {
      var n := |ids| - 1;
      assert forall k :: 0 <= k < n ==> ids[..n][k] == ids[k];
      OldestLater(pads, pads1, ids[..n]);
    }
  }

  lemma NotClosing(m: Mux, i: int)
    requires !SomeClosing(m) && i in m.pads
    ensures !Closing(m.pads[i])
  {
  }

  /** A pad is done after thinning if it was, or if that drained it. */
  lemma DoneSame(m: Mux, m1: Mux)
    requires m.WellFormed() && SameFlags(m, m1) && !SomeClosing(m1)
    ensures AllIn(m1.order, m1.pads) && forall k :: 0 <= k < |m.order| ==> m1.pads[m.order[k]].Done() == m.pads[m.order[k]].Done()
  {
    FlagsInOrder(m, m1);
    forall k | 0 <= k < |m.order| ensures m1.pads[m.order[k]].Done() == m.pads[m.order[k]].Done() {
      var i := m.order[k];
      assert ThinnedPad(m.pads[i], m1.pads[i]);
      NotClosing(m1, i);
    }
  }

  // ---------------------------------------------------------------- screening again

  /** What one live visit makes of a pad. */
  function ScreenLive(m: Mux, p: Pad, now: int): Screened {
    if m.cfg.syncInputs then SyncFilter(m, p, |p.queue|, now) else Screened(p.queue, [], |p.queue|)
  }

  lemma FilterAgain(m: Mux, m1: Mux, p: Pad, now: int)
    requires m1.cfg == m.cfg && m1.base == m.base
    ensures var s := SyncFilter(m, p, |p.queue|, now);
            SyncFilter(m1, Thin(p, s), |s.kept|, now) == Screened(s.kept, [], s.onTime)
  {
    var s := SyncFilter(m, p, |p.queue|, now);
    FilterScans(m, p, now);
    FilterScans(m1, Thin(p, s), now);
    assert WindowOf(m1, Thin(p, s), now) == WindowOf(m, p, now);
    ScanAgain(WindowOf(m, p, now), p.queue);
    hide Scan;
  }

  lemma LiveAgain(m: Mux, m1: Mux, p: Pad, now: int)
    requires m1.cfg == m.cfg && m1.base == m.base
    ensures var s := ScreenLive(m, p, now);
            ScreenLive(m1, Thin(p, s), now) == Screened(s.kept, [], s.onTime)
  {
    FilterAgain(m, m1, p, now);
    hide SyncFilter;
  }

  lemma ScreenAgain(m: Mux, m1: Mux, p: Pad, now: int)
    requires m1.cfg == m.cfg && m1.base == m.base && m.cfg.policy == New && Settles(m.cfg)
    ensures var s := Screen(m, p, now);
            Screen(m1, Thin(p, s), now) == Screened(s.kept, [], s.onTime)
  {
    FilterAgain(m, m1, p, now);
    hide SyncFilter, RateAllowance;
  }

  // ---------------------------------------------------------------- live legacy batches

  /** The pads after the visits: those of `ids` screened, the others untouched. */
  lemma {:induction false} LivePads(m: Mux, ids: seq<int>, now: int, i: int)
    requires AllIn(ids, m.pads) && Distinct(ids) && i in m.pads
    ensures FormLive(m, ids, now).pads[i] ==
            if i in ids then Thin(m.pads[i], ScreenLive(m, m.pads[i], now)) else m.pads[i]
  {
    if ids != [] {
      var n := |ids| - 1;
      assert ids == ids[..n] + [ids[n]];
      LivePads(m, ids[..n], now, i);
      hide SyncFilter, Tagged;
    }
  }

  lemma {:induction false} LivePicksAgain(m: Mux, m1: Mux, ids: seq<int>, now: int)
    requires AllIn(ids, m.pads) && AllIn(ids, m1.pads) && Distinct(ids) && m1.cfg == m.cfg && m1.base == m.base
    requires forall k :: 0 <= k < |ids| ==> m1.pads[ids[k]] == Thin(m.pads[ids[k]], ScreenLive(m, m.pads[ids[k]], now))
    ensures FormLive(m1, ids, now).picks == FormLive(m, ids, now).picks
  {
    if ids != [] {
      var n := |ids| - 1;
      assert forall k :: 0 <= k < n ==> ids[..n][k] == ids[k];
      LivePicksAgain(m, m1, ids[..n], now);
      LivePads(m, ids[..n], now, ids[n]);
      LivePads(m1, ids[..n], now, ids[n]);
      LiveAgain(m, m1, m.pads[ids[n]], now);
      assert ids[n] !in ids[..n];
      VisitLivePicks(m, FormLive(m, ids[..n], now), ids[n], now);
      VisitLivePicks(m1, FormLive(m1, ids[..n], now), ids[n], now);
      hide SyncFilter, Tagged, VisitLive, ScreenLive;
    }
  }

  lemma VisitLivePicks(m: Mux, f: Forming, i: int, now: int)
    requires i in f.pads && PicksIn(f.pads, f.picks)
    ensures var s := ScreenLive(m, f.pads[i], now);
            VisitLive(m, f, i, now).picks ==
            if s.onTime != 0 && s.kept != [] && |f.picks| < m.cfg.batchSize then f.picks + Tagged(i, s.kept[..1]) else f.picks
  {
    hide SyncFilter, Tagged;
  }

  /** A batch of `f` goes out. */
  predicate Goes(f: Forming) { f.picks != [] && f.go }

  lemma TimerLater(m: Mux, m1: Mux)
    requires m.WellFormed() && SameFlags(m, m1)
    ensures AllIn(m1.order, m1.pads)
    ensures LegacyTimerStart(m1).Some? ==> LegacyTimerStart(m).Some? && LegacyTimerStart(m).value <= LegacyTimerStart(m1).value
  {
    FlagsInOrder(m, m1);
    OldestLater(m.pads, m1.pads, m.order);
  }

  lemma LegacyAgain(m: Mux, now: int)
    requires Sound(m) && m.cfg.policy == Legacy && !Goes(FormLegacy(m, now))
    requires var m1 := Formed(m, FormLegacy(m, now)); SameFlags(m, m1) && !SomeClosing(m1)
    ensures var m1 := Formed(m, FormLegacy(m, now)); AllIn(m1.order, m1.pads) && !Goes(FormLegacy(m1, now))
  {
    var m1 := Formed(m, FormLegacy(m, now));
    DoneSame(m, m1);
    ActiveSame(m.pads, m1.pads, m.order);
    TimerLater(m, m1);
    var ids := Active(m.pads, m.order);
    if m.cfg.batchSize > 0 && ids != [] {
      if m.cfg.liveSource {
        LivePicksSame(m, m1, now);
        hide LegacyTimerStart, SameFlags, SomeClosing, Active, FormLive;
      } else {
        assert m1.pads == m.pads;
        hide LegacyTimerStart, SameFlags, SomeClosing, Active, Sort, AllQueued, Eligible;
      }
    }
  }

  lemma LivePicksSame(m: Mux, m1: Mux, now: int)
    requires m.WellFormed() && m1.pads == FormLive(m, Active(m.pads, m.order), now).pads && m1.cfg == m.cfg && m1.base == m.base
    ensures var ids := Active(m.pads, m.order);
            AllIn(ids, m1.pads) && FormLive(m1, ids, now).picks == FormLive(m, ids, now).picks
  {
    var ids := Active(m.pads, m.order);
    ActiveDistinct(m.pads, m.order);
    hide FormLive, Active, ScreenLive;
    forall k | 0 <= k < |ids| ensures m1.pads[ids[k]] == Thin(m.pads[ids[k]], ScreenLive(m, m.pads[ids[k]], now)) {
      LivePads(m, ids, now, ids[k]);
    }
    LivePicksAgain(m, m1, ids, now);
  }

  // ---------------------------------------------------------------- the new policy

  /** What a visit adds to the batch. */
  lemma VisitPicks(m: Mux, f: Forming, i: int, now: int, bs: int)
    requires i in f.pads && PicksIn(f.pads, f.picks)
    ensures var g := Visit(m, f, i, now, bs);
            var p := f.pads[i];
            var s := Screen(m, p, now);
            var n := Min(Min(s.onTime, AllowedRepeats(m.cfg, p, bs)), bs - |f.picks|);
            && g.picks == (if p.Done() then f.picks else f.picks + Tagged(i, s.kept[..Max(0, Min(n, |s.kept|))]))
            && g.pads == f.pads[i := if p.Done() then p else Thin(p, s)]
  {
    hide Screen, Tagged;
  }

  lemma VisitAgain(m: Mux, m1: Mux, f: Forming, f1: Forming, i: int, now: int, bs: int)
    requires m1.cfg == m.cfg && m1.base == m.base && m.cfg.policy == New && Settles(m.cfg)
    requires i in f.pads && i in f1.pads && PicksIn(f.pads, f.picks) && PicksIn(f1.pads, f1.picks) && f1.picks == f.picks
    requires f1.pads[i] == Visit(m, f, i, now, bs).pads[i] && f1.pads[i].Done() == f.pads[i].Done()
    ensures Visit(m1, f1, i, now, bs).picks == Visit(m, f, i, now, bs).picks
  {
    VisitPicks(m, f, i, now, bs);
    VisitPicks(m1, f1, i, now, bs);
    ScreenAgain(m, m1, f.pads[i], now);
    hide Visit, Screen, Tagged;
  }

  /** Pads that are not in the round stay as they are. */
  lemma {:induction false} FillLeaves(m: Mux, f: Forming, entries: seq<Entry>, now: int, bs: int, i: int)
    requires EntriesIn(entries, f.pads) && PicksIn(f.pads, f.picks) && i in f.pads
    requires forall k :: 0 <= k < |entries| ==> entries[k].pad != i
    ensures Fill(m, f, entries, now, bs).pads[i] == f.pads[i]
    decreases |entries|
  {
    if entries != [] {
      VisitPicks(m, f, entries[0].pad, now, bs);
      hide Screen, Visit;
      var g := Visit(m, f, entries[0].pad, now, bs);
      if |g.picks| < bs {
        FillLeaves(m, g, entries[1..], now, bs, i);
      }
    }
  }

  /** A round that was not full takes the same frames again. */
  lemma {:induction false} FillAgain(m: Mux, m1: Mux, f: Forming, f1: Forming, entries: seq<Entry>, now: int, bs: int)
    requires m1.cfg == m.cfg && m1.base == m.base && m.cfg.policy == New && Settles(m.cfg)
    requires EntriesIn(entries, f.pads) && PicksIn(f.pads, f.picks) && EntriesIn(entries, f1.pads) && PicksIn(f1.pads, f1.picks)
    requires VisitsOnce(entries) && f1.picks == f.picks && |Fill(m, f, entries, now, bs).picks| < bs
    requires forall k :: 0 <= k < |entries| ==> f1.pads[entries[k].pad] == Fill(m, f, entries, now, bs).pads[entries[k].pad]
    requires forall k :: 0 <= k < |entries| ==> f1.pads[entries[k].pad].Done() == f.pads[entries[k].pad].Done()
    ensures Fill(m1, f1, entries, now, bs).picks == Fill(m, f, entries, now, bs).picks
    decreases |entries|
  {
    if entries != [] {
      var i := entries[0].pad;
      var g := Visit(m, f, i, now, bs);
      assert |g.picks| < bs;
      var t := entries[1..];
      FillLeaves(m, g, t, now, bs, i);
      VisitAgain(m, m1, f, f1, i, now, bs);
      VisitPicks(m, f, i, now, bs);
      VisitPicks(m1, f1, i, now, bs);
      hide Visit, Screen, Pad.Done;
      var g1 := Visit(m1, f1, i, now, bs);
      forall k | 0 <= k < |t|
        ensures g1.pads[t[k].pad] == f1.pads[t[k].pad] && g.pads[t[k].pad] == f.pads[t[k].pad]
        ensures f1.pads[t[k].pad] == Fill(m, f, entries, now, bs).pads[t[k].pad]
      {
        assert t[k] == entries[k + 1];
      }
      FillAgain(m, m1, g, g1, t, now, bs);
    }
  }

  lemma {:induction false} PrioritiesSame(pads: map<int, Pad>, pads1: map<int, Pad>, ids: seq<int>)
    requires AllIn(ids, pads) && AllIn(ids, pads1)
    requires forall k :: 0 <= k < |ids| ==> pads1[ids[k]].cfg == pads[ids[k]].cfg
    ensures Priorities(pads1, ids) == Priorities(pads, ids)
  {
    if ids != [] {
      var n := |ids| - 1;
      assert forall k :: 0 <= k < n ==> ids[..n][k] == ids[k];
      PrioritiesSame(pads, pads1, ids[..n]);
    }
  }

  lemma {:induction false} GroupSame(pads: map<int, Pad>, pads1: map<int, Pad>, ids: seq<int>, priority: int)
    requires AllIn(ids, pads) && AllIn(ids, pads1)
    requires forall k :: 0 <= k < |ids| ==> pads1[ids[k]].cfg == pads[ids[k]].cfg
    ensures Group(pads1, ids, priority) == Group(pads, ids, priority)
  {
    if ids != [] {
      var n := |ids| - 1;
      assert forall k :: 0 <= k < n ==> ids[..n][k] == ids[k];
      GroupSame(pads, pads1, ids[..n], priority);
    }
  }

  /** The cursor where it was, the pads of the same priorities: the same round. */
  lemma RoundSame(m: Mux, m1: Mux)
    requires AllIn(m.order, m.pads) && SameFlags(m, m1) && AllIn(m1.order, m1.pads)
    requires m1.rrPriority == m.rrPriority && m1.rrSource == m.rrSource
    ensures Round(m1) == Round(m)
  {
    FlagsInOrder(m, m1);
    PrioritiesSame(m.pads, m1.pads, m.order);
    var ps := Priorities(m.pads, m.order);
    forall k | 0 <= k < |ps| ensures Groups(m1)[k] == Groups(m)[k] {
      GroupSame(m.pads, m1.pads, m.order, ps[k]);
    }
    assert Groups(m1) == Groups(m);
    hide Groups;
  }

  /** Held back by the maximum rate nothing goes; otherwise a round that sent nothing is
      repeated as it was. */
  lemma NewAgain(m: Mux, now: int)
    requires Sound(m) && m.cfg.policy == New && Settles(m.cfg) && !Goes(FormNew(m, now))
    requires var m1 := Formed(m, FormNew(m, now)); SameFlags(m, m1) && !SomeClosing(m1)
    ensures var m1 := Formed(m, FormNew(m, now)); AllIn(m1.order, m1.pads) && !Goes(FormNew(m1, now))
  {
    var f := FormNew(m, now);
    var m1 := Formed(m, f);
    SizeSame(m, m1);
    if !HeldBack(m, now) && m.pads != map[] && NewBatchSize(m) > 0 {
      RoundAgain(m, m1, now);
      hide Fill, Round, NewBatchSize, MuxConfig.MaxFpsDur, SameFlags, SomeClosing;
    } else {
      hide Fill, Round, NewBatchSize, MuxConfig.MaxFpsDur, SomeClosing;
      assert m1.pads == map[] <==> m.pads == map[];
    }
  }

  lemma SizeSame(m: Mux, m1: Mux)
    requires m.WellFormed() && SameFlags(m, m1)
    ensures AllIn(m1.order, m1.pads) && NewBatchSize(m1) == NewBatchSize(m)
  {
    FlagsInOrder(m, m1);
    OpenSame(m.pads, m1.pads, m.order);
  }

  lemma NotFull(m: Mux, now: int)
    requires m.cfg.overallMaxFps > 0.0 && AllIn(m.order, m.pads) && m.pads != map[] && NewBatchSize(m) > 0
    requires !Goes(FormNew(m, now)) && !HeldBack(m, now)
    ensures var f := FormNew(m, now);
            && |f.picks| < NewBatchSize(m) && f.rrPriority == m.rrPriority && f.rrSource == m.rrSource
            && f == RoundOf(m, now).(go := f.go)
  {
    FillCursor(m, Blank(m), Round(m), now, NewBatchSize(m));
    hide Fill, Round, NewBatchSize, MuxConfig.MaxFpsDur;
  }

  lemma RoundAgain(m: Mux, m1: Mux, now: int)
    requires Sound(m) && m.cfg.policy == New && Settles(m.cfg) && !Goes(FormNew(m, now)) && m1 == Formed(m, FormNew(m, now))
    requires !HeldBack(m, now) && m.pads != map[] && NewBatchSize(m) > 0
    requires SameFlags(m, m1) && !SomeClosing(m1)
    ensures AllIn(m1.order, m1.pads) && NewBatchSize(m1) == NewBatchSize(m)
    ensures |RoundOf(m, now).picks| < NewBatchSize(m) && RoundOf(m1, now).picks == RoundOf(m, now).picks
    ensures FormNew(m, now).go == IsDue(m, now)
  {
    var bs := NewBatchSize(m);
    NotFull(m, now);
    SizeSame(m, m1);
    RoundSame(m, m1);
    RoundOnce(m);
    DoneSame(m, m1);
    var entries := Round(m);
    forall k | 0 <= k < |entries|
      ensures m1.pads[entries[k].pad].Done() == m.pads[entries[k].pad].Done()
    {
      assert entries[k].pad in m.order;
    }
    hide Fill, Round, NewBatchSize, MuxConfig.MaxFpsDur, SameFlags, SomeClosing, Pad.Done, Sound;
    assert RoundOf(m, now).pads == m1.pads;
    FillAgain(m, m1, Blank(m), Blank(m1), entries, now, bs);
  }

  // ---------------------------------------------------------------- polls

  lemma StillNothing(m: Mux, now: int)
    requires Sound(m) && Settles(m.cfg) && !Goes(Form(m, now)) && !SomeClosing(Formed(m, Form(m, now)))
    ensures var m1 := Formed(m, Form(m, now)); SameFlags(m, m1) && AllIn(m1.order, m1.pads) && !Goes(Form(m1, now))
  {
    FormedFlags(m, now);
    hide FormLegacy, FormNew, SomeClosing, Sound;
    if m.cfg.policy == Legacy {
      LegacyAgain(m, now);
    } else {
      NewAgain(m, now);
    }
  }

  /** A batch formed from the same pads at the same instant: the cursor may have moved,
      but then the maximum rate holds back the second one too. */
  lemma SamePadsAgain(m: Mux, now: int)
    requires Sound(m) && !Goes(Form(m, now)) && (Form(m, now).late == [] || !m.cfg.syncInputs)
    ensures var m1 := Formed(m, Form(m, now)); SameFlags(m, m1) && AllIn(m1.order, m1.pads) && !Goes(Form(m1, now))
    ensures Form(m, now).pads == m.pads
  {
    FormedFlags(m, now);
    NothingLate(m, now);
    hide Sound;
    if m.cfg.policy == Legacy {
      hide FormNew, Sort, AllQueued, FormLive, FifoPicks;
      SameLegacy(m, Formed(m, Form(m, now)), now);
    } else {
      hide FormLegacy;
      SameNew(m, now);
    }
  }

  lemma SameLegacy(m: Mux, m1: Mux, now: int)
    requires AllIn(m.order, m.pads) && m1.pads == m.pads && m1.order == m.order && m1.cfg == m.cfg
    requires m1.lastBatch == m.lastBatch && m1.base == m.base
    ensures FormLegacy(m1, now).picks == FormLegacy(m, now).picks && FormLegacy(m1, now).go == FormLegacy(m, now).go
  {
    hide FormLegacy, Oldest, FormLive, FifoPicks, LegacyTimerStart;
    SameTimer(m, m1);
    SameInputs(m, m1, Active(m.pads, m.order), now);
    SameFormed(m, m1, now);
  }

  lemma SameTimer(m: Mux, m1: Mux)
    requires AllIn(m.order, m.pads) && m1.pads == m.pads && m1.order == m.order && m1.lastBatch == m.lastBatch
    ensures LegacyTimerStart(m1) == LegacyTimerStart(m)
  {
    hide Oldest;
  }

  lemma SameInputs(m: Mux, m1: Mux, ids: seq<int>, now: int)
    requires AllIn(ids, m.pads) && m1.pads == m.pads && m1.cfg == m.cfg && m1.base == m.base
    ensures FormLive(m1, ids, now).picks == FormLive(m, ids, now).picks && FifoPicks(m1, ids) == FifoPicks(m, ids)
  {
    LiveSame(m, m1, ids, now);
    hide FormLive, Sort, AllQueued, Eligible, TakeUpTo;
  }

  lemma SameFormed(m: Mux, m1: Mux, now: int)
    requires AllIn(m.order, m.pads) && m1.pads == m.pads && m1.order == m.order && m1.cfg == m.cfg
    requires LegacyTimerStart(m1) == LegacyTimerStart(m)
    requires var ids := Active(m.pads, m.order);
             FormLive(m1, ids, now).picks == FormLive(m, ids, now).picks && FifoPicks(m1, ids) == FifoPicks(m, ids)
    ensures FormLegacy(m1, now).picks == FormLegacy(m, now).picks && FormLegacy(m1, now).go == FormLegacy(m, now).go
  {
    hide FormLive, Active, FifoPicks, LegacyTimerStart;
  }

  lemma {:induction false} LiveSame(m: Mux, m1: Mux, ids: seq<int>, now: int)
    requires AllIn(ids, m.pads) && m1.pads == m.pads && m1.cfg == m.cfg && m1.base == m.base
    ensures var f, f1 := FormLive(m, ids, now), FormLive(m1, ids, now); f1.pads == f.pads && f1.picks == f.picks
  {
    if ids != [] {
      var n := |ids| - 1;
      LiveSame(m, m1, ids[..n], now);
      var i := ids[n];
      assert SyncFilter(m1, FormLive(m, ids[..n], now).pads[i], |FormLive(m, ids[..n], now).pads[i].queue|, now) ==
             SyncFilter(m, FormLive(m, ids[..n], now).pads[i], |FormLive(m, ids[..n], now).pads[i].queue|, now);
      hide SyncFilter, Tagged;
    }
  }

  lemma SameNew(m: Mux, now: int)
    requires m.WellFormed() && m.cfg.policy == New && !Goes(FormNew(m, now)) && FormNew(m, now).pads == m.pads
    ensures var m1 := Formed(m, FormNew(m, now)); AllIn(m1.order, m1.pads) && !Goes(FormNew(m1, now))
  {
    var m1 := Formed(m, FormNew(m, now));
    if !HeldBack(m, now) && m.pads != map[] && NewBatchSize(m) > 0 {
      NotFull(m, now);
      FillSame(m, m1, Blank(m), Blank(m1), Round(m), now, NewBatchSize(m));
      assert Round(m1) == Round(m);
    }
    hide Fill, Round, NewBatchSize, MuxConfig.MaxFpsDur;
  }

  lemma SameScreen(m: Mux, m1: Mux, p: Pad, now: int)
    requires m1.cfg == m.cfg && m1.base == m.base
    ensures Screen(m1, p, now) == Screen(m, p, now)
  {
    hide SyncScan, RateAllowance;
  }

  lemma {:induction false} FillSame(m: Mux, m1: Mux, f: Forming, f1: Forming, entries: seq<Entry>, now: int, bs: int)
    requires m1.cfg == m.cfg && m1.base == m.base && f1.pads == f.pads && f1.picks == f.picks
    requires EntriesIn(entries, f.pads) && PicksIn(f.pads, f.picks)
    ensures Fill(m1, f1, entries, now, bs).picks == Fill(m, f, entries, now, bs).picks
    decreases |entries|
  {
    if entries != [] {
      var i := entries[0].pad;
      VisitPicks(m, f, i, now, bs);
      VisitPicks(m1, f1, i, now, bs);
      SameScreen(m, m1, f.pads[i], now);
      hide Visit, Screen, Tagged, Thin;
      var g, g1 := Visit(m, f, i, now, bs), Visit(m1, f1, i, now, bs);
      if |g.picks| < bs {
        FillSame(m, m1, g, g1, entries[1..], now, bs);
      }
    }
  }

  /** A poll that puts nothing out only formed a batch that did not go. */
  lemma QuietForms(m: Mux, now: int)
    requires Sound(m) && Poll(m, now).outs == []
    ensures !SomeClosing(m) && !Goes(Form(m, now))
    ensures Poll(m, now).mux == Formed(m, Form(m, now)) && Poll(m, now).lost == Form(m, now).late
    ensures m.pending == [] && !(m.pads != map[] && !m.eosSent && m.AllEos())
  {
    QuietPoll(m, now);
    QuietLost(m, now);
    NoneClosing(m);
    hide Poll, Form, EosStage, EmitMux, EmitBatch;
    FormedFlags(m, now);
    QuietEnd(m, now);
  }

  lemma QuietLost(m: Mux, now: int)
    requires m.WellFormed() && m.pending == [] && EosStage(m).mux == m
    ensures Poll(m, now).lost == BatchStage(m, now).lost
  {
    assert m.(pending := []) == m;
    hide BatchStage, EosStage, EndStage;
  }

  lemma NoneClosing(m: Mux)
    requires m.WellFormed() && EosStage(m).outs == []
    ensures !SomeClosing(m)
  {
    assert |EosStage(m).outs| == |EosNotices(m.pads, m.order)|;
    NoNoticeNoClosing(m.pads, m.order);
    forall i | i in m.pads ensures !Closing(m.pads[i]) {
      var k :| 0 <= k < |m.order| && m.order[k] == i;
    }
  }

  /** The end of the stream is decided by flags that forming a batch keeps. */
  lemma QuietEnd(m: Mux, now: int)
    requires Sound(m) && SameFlags(m, Formed(m, Form(m, now)))
    ensures EndStage(Formed(m, Form(m, now))).outs == [] <==> !(m.pads != map[] && !m.eosSent && m.AllEos())
  {
    hide Form;
    var m1 := Formed(m, Form(m, now));
    assert m1.pads != map[] <==> m.pads != map[];
    if m1.AllEos() {
      forall i | i in m.pads ensures m.pads[i].eos {
        assert ThinnedPad(m.pads[i], m1.pads[i]);
      }
    }
    if m.AllEos() {
      forall i | i in m1.pads ensures m1.pads[i].eos {
        assert ThinnedPad(m.pads[i], m1.pads[i]);
      }
    }
  }

  lemma NothingGoes(m: Mux, now: int)
    requires Sound(m) && m.pending == [] && !SomeClosing(m) && !Goes(Form(m, now))
    requires !(m.pads != map[] && !m.eosSent && m.AllEos())
    ensures Poll(m, now).outs == []
  {
    assert m.(pending := []) == m;
    NothingCloses(m);
    FormedFlags(m, now);
    QuietEnd(m, now);
    hide Form, EosStage, EmitMux, EmitBatch, EndStage, SomeClosing;
  }

  lemma NothingCloses(m: Mux)
    requires m.WellFormed() && !SomeClosing(m)
    ensures EosStage(m) == Effect(m, [], [], [])
  {
    forall i | i in m.pads ensures !Closing(m.pads[i]) {
      NotClosing(m, i);
    }
    NothingToEnd(m);
  }

  lemma FlagsGoOn(m: Mux, m1: Mux)
    requires SameFlags(m, m1) && m.pending == [] && !(m.pads != map[] && !m.eosSent && m.AllEos())
    ensures m1.pending == [] && !(m1.pads != map[] && !m1.eosSent && m1.AllEos())
  {
    if m1.pads != map[] && m1.AllEos() {
      assert m.pads != map[];
      forall i | i in m.pads ensures m.pads[i].eos {
        assert ThinnedPad(m.pads[i], m1.pads[i]);
      }
    }
  }

  /** Once a poll has dropped nothing and put nothing out, a repetition at the same
      instant puts nothing out either, under any settings. */
  lemma QuietStays(m: Mux, now: int)
    requires Sound(m) && Poll(m, now).outs == [] && (Poll(m, now).lost == [] || !m.cfg.syncInputs)
    ensures var m1 := Poll(m, now).mux; Sound(m1) && m1.cfg == m.cfg && Poll(m1, now).outs == [] && !SomeClosing(m1)
  {
    PollShrinks(m, now);
    QuietForms(m, now);
    SamePadsAgain(m, now);
    hide Poll, Form, Sound;
    var m1 := Formed(m, Form(m, now));
    FlagsGoOn(m, m1);
    NothingGoes(m1, now);
  }

  /** Once a poll has put nothing out, a repetition at the same instant puts something
      out if and only if some pad is drained that was not before. */
  lemma QuietAgain(m: Mux, now: int)
    requires Sound(m) && Settles(m.cfg) && Poll(m, now).outs == []
    ensures var m1 := Poll(m, now).mux; Sound(m1) && m1.cfg == m.cfg && (Poll(m1, now).outs == [] <==> !SomeClosing(m1))
  {
    PollShrinks(m, now);
    QuietForms(m, now);
    var m1 := Formed(m, Form(m, now));
    if !SomeClosing(m1) {
      StillNothing(m, now);
      hide Poll, Form, Sound;
      FlagsGoOn(m, m1);
      NothingGoes(m1, now);
    } else {
      FormedFlags(m, now);
      if Poll(m1, now).outs == [] {
        QuietForms(m1, now);
      }
    }
  }

  /** Under any settings: a repetition puts something out if and only if a pad became
      drained or the frames screened now make a batch that goes. */
  lemma QuietExactly(m: Mux, now: int)
    requires Sound(m) && Poll(m, now).outs == []
    ensures var m1 := Poll(m, now).mux;
            && Sound(m1) && m1.cfg == m.cfg
            && (Poll(m1, now).outs == [] <==> !SomeClosing(m1) && !Goes(Form(m1, now)))
  {
    PollShrinks(m, now);
    QuietForms(m, now);
    FormedFlags(m, now);
    var m1 := Formed(m, Form(m, now));
    hide Poll, Form, Sound;
    if Poll(m1, now).outs == [] {
      QuietForms(m1, now);
    } else if !SomeClosing(m1) && !Goes(Form(m1, now)) {
      FlagsGoOn(m, m1);
      NothingGoes(m1, now);
    }
  }

  /** Such a batch of the new policy: a round that has frames, is full or due, and is not
      held back by the maximum rate. */
  lemma GoesExactly(m: Mux, now: int)
    requires m.cfg.overallMaxFps > 0.0 && AllIn(m.order, m.pads) && m.cfg.policy == New
    ensures Goes(Form(m, now)) <==>
              m.pads != map[] && NewBatchSize(m) > 0 && RoundOf(m, now).picks != []
              && (RoundFull(m, now) || IsDue(m, now)) && !HeldBack(m, now)
  {
    hide Fill, Round, NewBatchSize, MuxConfig.MaxFpsDur;
  }

  // ---------------------------------------------------------------- which ends are left

  /** Every frame of the pad is late and may be looked at, and then the pad ends. */
  ghost predicate EndsLate(m: Mux, i: int, now: int) {
    && i in m.pads && m.pads[i].eosPending && !m.pads[i].eos && m.pads[i].queue != []
    && m.cfg.syncInputs && m.RunningTime(now) >= m.cfg.MinFpsDurOrZero()
    && (forall k :: 0 <= k < |m.pads[i].queue| ==> WindowOf(m, m.pads[i], now).Late(m.pads[i].queue[k]))
    && (m.cfg.policy == New && m.cfg.rateControl && m.pads[i].lastPush.Some? ==>
          RateAllowance(m.pads[i], now) >= |m.pads[i].queue|)
  }

  lemma {:induction false} ScanNone(w: Window, q: seq<Queued>, avail: int)
    ensures SyncScan(q, avail, w.seg, w.cur, w.minDur, w.maxLatency).kept == [] <==>
            q == [] || (avail >= |q| && forall k :: 0 <= k < |q| ==> w.Late(q[k]))
  {
    if q != [] && avail > 0 && !w.Early(q[0]) {
      ScanNone(w, q[1..], avail - 1);
      if w.Late(q[0]) {
        assert forall k :: 0 < k < |q| ==> q[k] == q[1..][k - 1];
        assert forall k :: 0 <= k < |q| - 1 ==> q[1..][k] == q[k + 1];
      }
    }
  }

  /** Screening empties exactly such a queue. */
  lemma ScreenNone(m: Mux, i: int, now: int)
    requires i in m.pads && m.pads[i].eosPending && !m.pads[i].eos && m.pads[i].queue != []
    ensures m.cfg.policy == New ==> (Screen(m, m.pads[i], now).kept == [] <==> EndsLate(m, i, now))
    ensures m.cfg.policy == Legacy ==> (ScreenLive(m, m.pads[i], now).kept == [] <==> EndsLate(m, i, now))
  {
    var p := m.pads[i];
    var w := WindowOf(m, p, now);
    var avail := if m.cfg.rateControl && p.lastPush.Some? then Min(|p.queue|, RateAllowance(p, now)) else |p.queue|;
    ScanNone(w, p.queue, avail);
    ScanNone(w, p.queue, |p.queue|);
    hide SyncScan, RateAllowance;
  }

  /** A round that is not full screens every pad it comes to. */
  lemma {:induction false} FillScreens(m: Mux, f: Forming, entries: seq<Entry>, now: int, bs: int, k: nat)
    requires EntriesIn(entries, f.pads) && PicksIn(f.pads, f.picks) && VisitsOnce(entries) && k < |entries|
    requires |Fill(m, f, entries, now, bs).picks| < bs
    ensures var p := f.pads[entries[k].pad];
            Fill(m, f, entries, now, bs).pads[entries[k].pad] == if p.Done() then p else Thin(p, Screen(m, p, now))
    decreases |entries|
  {
    var i := entries[0].pad;
    VisitPicks(m, f, i, now, bs);
    var g := Visit(m, f, i, now, bs);
    hide Visit, Screen, Pad.Done;
    if k == 0 {
      FillLeaves(m, g, entries[1..], now, bs, i);
    } else {
      FillScreens(m, g, entries[1..], now, bs, k - 1);
    }
  }

  /** Forming a batch screens every pad: a legacy one over live pads, or a new one whose
      round did not fill and be held back. */
  ghost predicate ScreensAll(m: Mux, now: int)
    requires AllIn(m.order, m.pads) && m.cfg.overallMaxFps > 0.0
  {
    if m.cfg.policy == Legacy then m.cfg.liveSource && m.cfg.batchSize > 0
    else NewBatchSize(m) > 0 && !Wasted(m, now)
  }

  lemma FormScreens(m: Mux, now: int, i: int)
    requires Sound(m) && ScreensAll(m, now) && !Goes(Form(m, now)) && i in m.pads
    ensures var p := m.pads[i];
            Form(m, now).pads[i] ==
            if p.Done() then p else Thin(p, if m.cfg.policy == New then Screen(m, p, now) else ScreenLive(m, p, now))
  {
    if m.cfg.policy == New {
      NewScreens(m, now, i);
    } else {
      LiveScreens(m, now, i);
    }
    hide FormNew, FormLegacy, Sound, ScreensAll;
  }

  lemma NewScreens(m: Mux, now: int, i: int)
    requires m.WellFormed() && m.cfg.policy == New && NewBatchSize(m) > 0 && !Wasted(m, now) && !Goes(FormNew(m, now)) && i in m.pads
    ensures var p := m.pads[i]; FormNew(m, now).pads[i] == if p.Done() then p else Thin(p, Screen(m, p, now))
  {
    var bs := NewBatchSize(m);
    RoundCovers(m, i);
    RoundOnce(m);
    var k: nat :| k < |Round(m)| && Round(m)[k].pad == i;
    hide Fill, Round, NewBatchSize, MuxConfig.MaxFpsDur, Screen, Pad.Done;
    assert m.pads != map[];
    assert |RoundOf(m, now).picks| < bs;
    FillScreens(m, Blank(m), Round(m), now, bs, k);
  }

  lemma LiveScreens(m: Mux, now: int, i: int)
    requires m.WellFormed() && m.cfg.liveSource && m.cfg.batchSize > 0 && i in m.pads
    ensures var p := m.pads[i]; FormLegacy(m, now).pads[i] == if p.Done() then p else Thin(p, ScreenLive(m, p, now))
  {
    var ids := Active(m.pads, m.order);
    ActiveDistinct(m.pads, m.order);
    LivePads(m, ids, now, i);
    assert i in m.order;
    assert i in ids <==> !m.pads[i].Done();
    hide FormLive, Active, ScreenLive, LegacyTimerStart;
  }

  /** A poll that put nothing out leaves an end behind if and only if some pad had
      nothing but late frames in front of its end. */
  lemma ClosingExactly(m: Mux, now: int)
    requires Sound(m) && Poll(m, now).outs == []
    ensures AllIn(m.order, m.pads) && m.cfg.overallMaxFps > 0.0
    ensures ScreensAll(m, now) ==> (SomeClosing(Poll(m, now).mux) <==> exists i :: EndsLate(m, i, now))
    ensures m.cfg.policy == Legacy && !ScreensAll(m, now) ==> !SomeClosing(Poll(m, now).mux)
  {
    QuietForms(m, now);
    if m.cfg.policy == Legacy && !ScreensAll(m, now) {
      NothingScreened(m, now);
    }
    if ScreensAll(m, now) {
      var m1 := Formed(m, Form(m, now));
      hide Poll, Form, Sound, ScreensAll;
      FormedFlags(m, now);
      if i :| i in m1.pads && Closing(m1.pads[i]) {
        FormScreens(m, now, i);
        NotClosing(m, i);
        ClosedByScreen(m, m1, now, i);
      }
      if i :| EndsLate(m, i, now) {
        FormScreens(m, now, i);
        ScreenNone(m, i, now);
        hide EndsLate, Screen, ScreenLive, SameFlags;
        assert i in m1.pads && Closing(m1.pads[i]);
      }
    }
  }

  lemma NothingScreened(m: Mux, now: int)
    requires AllIn(m.order, m.pads) && m.cfg.policy == Legacy && !(m.cfg.liveSource && m.cfg.batchSize > 0)
    ensures FormLegacy(m, now).pads == m.pads
  {
    hide Active, FormLive, LegacyTimerStart;
  }

  lemma ClosedByScreen(m: Mux, m1: Mux, now: int, i: int)
    requires i in m.pads && i in m1.pads && Closing(m1.pads[i]) && !Closing(m.pads[i])
    requires var p := m.pads[i];
             m1.pads[i] == if p.Done() then p else Thin(p, if m.cfg.policy == New then Screen(m, p, now) else ScreenLive(m, p, now))
    ensures EndsLate(m, i, now)
  {
    hide Screen, ScreenLive, EndsLate;
    ScreenNone(m, i, now);
  }

  /** `drain` leaves nothing to put out at the time of its last poll, except, with the
      sync filter, the end of a pad whose last frames that poll dropped as late; and, with
      the sync filter and the rate control of the new policy, a batch that the frames
      screened next make. */
  lemma {:induction false} DrainIsQuiet(m: Mux, clock: nat -> int, k: nat)
    requires Sound(m)
    ensures var d, t := Drain(m, clock, k).mux, clock(LastPoll(m, clock, k));
            && Sound(d) && d.cfg == m.cfg
            && (!m.cfg.syncInputs ==> Poll(d, t).outs == [])
            && (Settles(m.cfg) ==> (Poll(d, t).outs == [] <==> !SomeClosing(d)))
            && (Poll(d, t).outs == [] <==> !SomeClosing(d) && !Goes(Form(d, t)))
    decreases Left(m)
  {
    PollShrinks(m, clock(k));
    var e := Poll(m, clock(k));
    if e.outs != [] {
      DrainIsQuiet(e.mux, clock, k + 1);
    } else {
      if !m.cfg.syncInputs {
        QuietStays(m, clock(k));
      }
      if Settles(m.cfg) {
        QuietAgain(m, clock(k));
      }
      QuietExactly(m, clock(k));
    }
    hide Poll, Sound, Settles, SomeClosing, Left, Form;
  }
}
