/** How a batch is shared out: what every batch of every run takes from each pad, and how
    its frames are labelled. */
module MuxShares {
  import opened Shared
  import opened MuxTypes
  import opened MuxSpec
  import opened BatchSplit
  import opened LegacyBatch
  import opened MuxRuns
  import opened PadLedger
  import opened MuxInvariant
  import opened MuxSafety
  import opened MuxDrain
  import opened MuxFairness
  import opened MuxDeadlines
  import opened MuxLiveness
  import opened MuxQuiet
  import opened MuxBatches
  import opened MuxModes

  // ---------------------------------------------------------------- limits of a share

  /** The most frames one source may have in a batch of the new policy. */
  function Cap(cfg: MuxConfig, p: Pad, bs: int): int {
    Max(0, Min(cfg.maxSameSource, Max(bs, p.cfg.maxFramesPerBatch)))
  }

  /** At the rate of the source so many frames have come due since it was last served. */
  predicate WithinRate(cfg: MuxConfig, p: Pad, n: int, now: int) {
    cfg.rateControl && p.lastPush.Some? && n > 0 ==> n as real * NS as real <= (now - p.lastPush.value) as real * p.cfg.maxFps
  }

  predicate FairShare(cfg: MuxConfig, p: Pad, n: int, now: int, bs: int) {
    n <= Cap(cfg, p, bs) && WithinRate(cfg, p, n, now)
  }

  /** Truncation goes to the integer next to zero. */
  lemma TruncateIs(r: real)
    ensures r >= 0.0 ==> Truncate(r) >= 0 && Truncate(r) as real <= r < Truncate(r) as real + 1.0
    ensures r <= 0.0 ==> Truncate(r) <= 0 && r <= Truncate(r) as real < r + 1.0
  {
  }

  lemma Quotient(a: real, b: real, q: real)
    requires b > 0.0
    ensures q <= a / b <==> q * b <= a
  {
    assert a / b * b == a;
    if q <= a / b {
      Scaled(a / b - q, b);
      assert (a / b - q) * b == a - q * b;
    } else {
      ScaledUp(q - a / b, b);
      assert (q - a / b) * b == q * b - a;
    }
  }

  lemma Scaled(x: real, b: real)
    requires x >= 0.0 && b > 0.0
    ensures x * b >= 0.0
  {
  }

  lemma ScaledUp(x: real, b: real)
    requires x > 0.0 && b > 0.0
    ensures x * b > 0.0
  {
  }

  /** The allowance of a source is the greatest number of frames within its rate. */
  lemma RateAllowanceIs(cfg: MuxConfig, p: Pad, now: int, n: int)
    requires cfg.rateControl && p.lastPush.Some? && n > 0
    ensures n <= RateAllowance(p, now) <==> WithinRate(cfg, p, n, now)
  {
    var due := (now - p.lastPush.value) as real * p.cfg.maxFps;
    TruncateIs(due / NS as real);
    Quotient(due, NS as real, n as real);
    hide Truncate;
  }

  lemma {:induction false} OnTimeAtMost(q: seq<Queued>, avail: int, seg: int, cur: int, minDur: int, maxLatency: int)
    ensures SyncScan(q, avail, seg, cur, minDur, maxLatency).onTime <= Max(avail, 0)
  {
    if q != [] && avail > 0 && q[0].pts - seg <= cur - minDur {
      OnTimeAtMost(q[1..], avail - 1, seg, cur, minDur, maxLatency);
    }
  }

  lemma ScreenedShare(m: Mux, p: Pad, now: int, n: int)
    requires n <= Screen(m, p, now).onTime
    ensures WithinRate(m.cfg, p, n, now)
  {
    if m.cfg.rateControl && p.lastPush.Some? && n > 0 {
      var avail := Min(|p.queue|, RateAllowance(p, now));
      OnTimeAtMost(p.queue, avail, -p.RunningTime(0), m.RunningTime(now), m.cfg.MinFpsDurOrZero(), m.cfg.maxLatency);
      RateAllowanceIs(m.cfg, p, now, n);
      hide SyncScan, RateAllowance, WithinRate;
    }
  }

  // ---------------------------------------------------------------- the round

  /** What a visit takes from a pad when there is room for so many. */
  function TakenOn(m: Mux, p: Pad, now: int, bs: int, room: int): seq<Queued> {
    if p.Done() then []
    else
      var s := Screen(m, p, now);
      s.kept[..Max(0, Min(Min(Min(s.onTime, AllowedRepeats(m.cfg, p, bs)), room), |s.kept|))]
  }

  lemma TakenFair(m: Mux, p: Pad, now: int, bs: int, room: int)
    requires room >= 0
    ensures |TakenOn(m, p, now, bs, room)| <= room && FairShare(m.cfg, p, |TakenOn(m, p, now, bs, room)|, now, bs)
  {
    var n := |TakenOn(m, p, now, bs, room)|;
    hide Screen, WithinRate;
    if n > 0 {
      ScreenedShare(m, p, now, n);
    } else {
      NothingWithinRate(m.cfg, p, now);
    }
  }

  lemma VisitTaken(m: Mux, f: Forming, i: int, now: int, bs: int)
    requires i in f.pads && PicksIn(f.pads, f.picks)
    ensures Visit(m, f, i, now, bs).picks == f.picks + Tagged(i, TakenOn(m, f.pads[i], now, bs, bs - |f.picks|))
  {
    VisitPicks(m, f, i, now, bs);
    NothingTagged(i);
    hide Visit, Screen, Tagged, AllowedRepeats;
  }

  lemma NothingTagged(i: int)
    ensures Tagged(i, []) == []
  {
  }

  /** What a visit adds for a pad. */
  lemma VisitShare(m: Mux, f: Forming, i: int, now: int, bs: int)
    requires i in f.pads && PicksIn(f.pads, f.picks) && |f.picks| <= bs
    ensures var (g, p) := (Visit(m, f, i, now, bs), f.pads[i]);
            && |g.picks| <= bs && (forall j :: j != i ==> On(g.picks, j) == On(f.picks, j))
            && |On(g.picks, i)| >= |On(f.picks, i)|
            && FairShare(m.cfg, p, |On(g.picks, i)| - |On(f.picks, i)|, now, bs)
  {
    hide *;
    var t := TakenOn(m, f.pads[i], now, bs, bs - |f.picks|);
    VisitTaken(m, f, i, now, bs);
    TakenFair(m, f.pads[i], now, bs, bs - |f.picks|);
    TaggedLength(i, t);
    forall j ensures On(f.picks + Tagged(i, t), j) == if i == j then On(f.picks, j) + t else On(f.picks, j) {
      OnMore(f.picks, i, t, j);
    }
  }

  lemma TaggedLength(i: int, q: seq<Queued>)
    ensures |Tagged(i, q)| == |q|
  {
  }

  lemma NothingWithinRate(cfg: MuxConfig, p: Pad, now: int)
    ensures WithinRate(cfg, p, 0, now)
  {
  }

  ghost predicate Unvisited(entries: seq<Entry>, i: int) {
    forall k :: 0 <= k < |entries| ==> entries[k].pad != i
  }

  lemma TailOnce(entries: seq<Entry>, i: int)
    requires entries != [] && VisitsOnce(entries)
    ensures VisitsOnce(entries[1..]) && Unvisited(entries[1..], entries[0].pad)
    ensures Unvisited(entries, i) ==> Unvisited(entries[1..], i) && entries[0].pad != i
  {
  }

  lemma FillOne(m: Mux, f: Forming, entries: seq<Entry>, now: int, bs: int)
    requires EntriesIn(entries, f.pads) && PicksIn(f.pads, f.picks) && entries != []
    ensures entries[0].pad in f.pads
    ensures var g := Visit(m, f, entries[0].pad, now, bs);
            && EntriesIn(entries[1..], g.pads) && PicksIn(g.pads, g.picks) && g.pads.Keys == f.pads.Keys
            && Fill(m, f, entries, now, bs).picks == if |g.picks| >= bs then g.picks else Fill(m, g, entries[1..], now, bs).picks
  {
    hide Visit;
  }

  lemma FillNone(m: Mux, f: Forming, now: int, bs: int)
    requires PicksIn(f.pads, f.picks)
    ensures EntriesIn([], f.pads) && Fill(m, f, [], now, bs) == f
  {
  }

  lemma {:induction false} FillShare(m: Mux, f: Forming, entries: seq<Entry>, now: int, bs: int, i: int)
    requires EntriesIn(entries, f.pads) && PicksIn(f.pads, f.picks) && VisitsOnce(entries) && |f.picks| <= bs && i in f.pads
    ensures var r := Fill(m, f, entries, now, bs);
            && |r.picks| <= bs
            && (Unvisited(entries, i) ==> On(r.picks, i) == On(f.picks, i))
            && FairShare(m.cfg, f.pads[i], |On(r.picks, i)| - |On(f.picks, i)|, now, bs)
    decreases |entries|
  {
    hide *;
    NoneIsFair(m.cfg, f.pads[i], now, bs);
    if entries == [] {
      FillNone(m, f, now, bs);
    } else {
      var e := entries[0].pad;
      FillOne(m, f, entries, now, bs);
      VisitShare(m, f, e, now, bs);
      TailOnce(entries, i);
      var g := Visit(m, f, e, now, bs);
      if |g.picks| < bs {
        VisitLeaves(m, f, e, now, bs, i);
        FillShare(m, g, entries[1..], now, bs, i);
      }
    }
  }

  lemma VisitLeaves(m: Mux, f: Forming, e: int, now: int, bs: int, i: int)
    requires e in f.pads && i in f.pads && PicksIn(f.pads, f.picks)
    ensures i in Visit(m, f, e, now, bs).pads && (i != e ==> Visit(m, f, e, now, bs).pads[i] == f.pads[i])
  {
    VisitPicks(m, f, e, now, bs);
    hide Visit, Screen, Tagged;
  }

  lemma NoneIsFair(cfg: MuxConfig, p: Pad, now: int, bs: int)
    ensures FairShare(cfg, p, 0, now, bs)
  {
  }

  /** Without sync and rate control a round that is not full takes all that a pad may give. */
  lemma {:induction false} FillTakes(m: Mux, f: Forming, entries: seq<Entry>, now: int, bs: int, k: nat)
    requires !m.cfg.syncInputs && !m.cfg.rateControl
    requires EntriesIn(entries, f.pads) && PicksIn(f.pads, f.picks) && VisitsOnce(entries) && |f.picks| <= bs
    requires k < |entries| && |Fill(m, f, entries, now, bs).picks| < bs
    ensures var (i, r) := (entries[k].pad, Fill(m, f, entries, now, bs));
            var p := f.pads[i];
            On(r.picks, i) == On(f.picks, i) + if p.Done() then [] else p.queue[..Min(|p.queue|, Cap(m.cfg, p, bs))]
    decreases |entries|
  {
    var e := entries[0].pad;
    VisitPicks(m, f, e, now, bs);
    VisitShare(m, f, e, now, bs);
    var g := Visit(m, f, e, now, bs);
    if k == 0 {
      VisitTakes(m, f, e, now, bs);
      hide Visit, Screen, On, FairShare, Cap;
      TailOnce(entries, e);
      FillShare(m, g, entries[1..], now, bs, e);
    } else {
      hide Visit, Screen, On, FairShare, Cap, Pad.Done;
      FillTakes(m, g, entries[1..], now, bs, k - 1);
      assert entries[k].pad != e;
    }
  }

  lemma VisitTakes(m: Mux, f: Forming, i: int, now: int, bs: int)
    requires !m.cfg.syncInputs && !m.cfg.rateControl && i in f.pads && PicksIn(f.pads, f.picks)
    requires |f.picks| <= bs && |Visit(m, f, i, now, bs).picks| < bs
    ensures var p := f.pads[i];
            On(Visit(m, f, i, now, bs).picks, i) ==
            On(f.picks, i) + if p.Done() then [] else p.queue[..Min(|p.queue|, Cap(m.cfg, p, bs))]
  {
    VisitPicks(m, f, i, now, bs);
    var p := f.pads[i];
    if !p.Done() {
      var s := Screen(m, p, now);
      assert s == Screened(p.queue, [], |p.queue|);
      var n := Min(Min(|p.queue|, AllowedRepeats(m.cfg, p, bs)), bs - |f.picks|);
      var t := p.queue[..Max(0, Min(n, |p.queue|))];
      OnMore(f.picks, i, t, i);
      TaggedLength(i, t);
      hide Visit, Screen, On, Tagged;
      assert Max(0, Min(n, |p.queue|)) == Min(|p.queue|, Cap(m.cfg, p, bs));
    }
  }

  // ---------------------------------------------------------------- the batch of a poll

  /** The pads that still are to give frames when a poll forms its batch. */
  ghost function StillOpen(m: Mux): set<int> {
    set i | i in m.pads && !m.pads[i].eos && !(m.pads[i].eosPending && m.pads[i].queue == [])
  }

  /** The size of a batch: that setting, or one slot for each such pad. */
  ghost function Size(m: Mux): int {
    if m.cfg.policy == New && m.cfg.adaptive then |StillOpen(m)| else m.cfg.batchSize
  }

  lemma SizeIs(m: Mux)
    requires m.WellFormed() && m.cfg.policy == New
    ensures AllIn(m.order, m.pads) && AllIn(Polled(m).order, Polled(m).pads) && NewBatchSize(Polled(m)) == Size(m)
  {
    PolledWell(m);
    if m.cfg.adaptive {
      var p := Polled(m);
      hide Polled;
      forall i ensures i in StillOpen(m) <==> i in p.order && i in p.pads && !p.pads[i].eos {
        if i in m.pads {
          assert p.pads[i] == ClosePad(m.cfg, m.pads[i]);
          assert i in m.order;
        }
      }
      hide Mux.WellFormed;
      OpenCount(p.pads, p.order, StillOpen(m));
    }
  }

  /** What is taken from each pad by a batch of the new policy. */
  ghost predicate SharedOut(m: Mux, picks: seq<Pick>, now: int) {
    && |picks| <= Size(m)
    && (forall i :: i in m.pads ==> FairShare(m.cfg, m.pads[i], |On(picks, i)|, now, Size(m)))
    && (!m.cfg.syncInputs && !m.cfg.rateControl && |picks| < Size(m) ==>
          forall i :: i in StillOpen(m) ==> On(picks, i) == m.pads[i].queue[..Min(|m.pads[i].queue|, Cap(m.cfg, m.pads[i], Size(m)))])
  }

  lemma BlankOn(m: Mux, i: int)
    ensures On(Blank(m).picks, i) == []
  {
  }

  lemma BasicsOf(m: Mux)
    requires m.WellFormed()
    ensures AllIn(m.order, m.pads) && m.cfg.overallMaxFps > 0.0
    ensures Blank(m).pads == m.pads && Blank(m).picks == [] && PicksIn(m.pads, [])
  {
  }

  lemma NewFormIs(m: Mux, now: int)
    requires AllIn(m.order, m.pads) && m.cfg.overallMaxFps > 0.0 && m.cfg.policy == New && NewBatchSize(m) > 0 && m.pads != map[]
    requires EntriesIn(Round(m), m.pads) && Blank(m).pads == m.pads && PicksIn(m.pads, Blank(m).picks)
    ensures Form(m, now).picks == Fill(m, Blank(m), Round(m), now, NewBatchSize(m)).picks
  {
    hide Round, NewBatchSize, MuxConfig.MaxFpsDur, Fill;
  }

  lemma FormShare(m: Mux, now: int, i: int)
    requires m.WellFormed() && m.cfg.policy == New && i in m.pads && NewBatchSize(m) > 0
    ensures AllIn(m.order, m.pads) && m.cfg.overallMaxFps > 0.0
    ensures var (bs, picks) := (NewBatchSize(m), Form(m, now).picks);
            && |picks| <= bs && FairShare(m.cfg, m.pads[i], |On(picks, i)|, now, bs)
            && (!m.cfg.syncInputs && !m.cfg.rateControl && |picks| < bs ==>
                  On(picks, i) == if m.pads[i].Done() then [] else m.pads[i].queue[..Min(|m.pads[i].queue|, Cap(m.cfg, m.pads[i], bs))])
  {
    hide *;
    BasicsOf(m);
    var bs := NewBatchSize(m);
    RoundOnce(m);
    RoundCovers(m, i);
    var k: nat :| k < |Round(m)| && Round(m)[k].pad == i;
    NewFormIs(m, now);
    BlankOn(m, i);
    FillShare(m, Blank(m), Round(m), now, bs, i);
    if !m.cfg.syncInputs && !m.cfg.rateControl && |Form(m, now).picks| < bs {
      FillTakes(m, Blank(m), Round(m), now, bs, k);
    }
  }

  lemma ClosedShares(cfg: MuxConfig, p: Pad, n: int, now: int, bs: int)
    requires p.queue == [] || !Closing(p)
    ensures var c := ClosePad(cfg, p);
            && Cap(cfg, c, bs) == Cap(cfg, p, bs) && FairShare(cfg, c, n, now, bs) == FairShare(cfg, p, n, now, bs)
            && c.queue == p.queue && (c.Done() <==> p.Done())
  {
  }

  lemma PolledShares(m: Mux, now: int, f: Forming)
    requires m.WellFormed() && m.cfg.policy == New
    requires AllIn(Polled(m).order, Polled(m).pads) && Polled(m).cfg.overallMaxFps > 0.0 && f == Form(Polled(m), now) && Goes(f)
    ensures SharedOut(m, f.picks, now)
  {
    PolledWell(m);
    SizeIs(m);
    var p := Polled(m);
    hide Form, Polled, FairShare, Cap, On, Mux.WellFormed, Size;
    assert NewBatchSize(p) > 0 by {
      GoesNeedsRoom(p, now);
    }
    forall i | i in m.pads
      ensures |f.picks| <= Size(m) && FairShare(m.cfg, m.pads[i], |On(f.picks, i)|, now, Size(m))
      ensures !m.cfg.syncInputs && !m.cfg.rateControl && |f.picks| < Size(m) ==>
                On(f.picks, i) == if m.pads[i].Done() then [] else m.pads[i].queue[..Min(|m.pads[i].queue|, Cap(m.cfg, m.pads[i], Size(m)))]
    {
      FormShare(p, now, i);
      ClosedShares(m.cfg, m.pads[i], |On(f.picks, i)|, now, Size(m));
    }
    GoesNeedsPads(p, now);
    var i :| i in m.pads;
    assert |f.picks| <= Size(m);
  }

  lemma GoesNeedsRoom(m: Mux, now: int)
    requires AllIn(m.order, m.pads) && m.cfg.overallMaxFps > 0.0 && m.cfg.policy == New && Goes(Form(m, now))
    ensures NewBatchSize(m) > 0
  {
    hide Fill, Round, NewBatchSize, MuxConfig.MaxFpsDur;
  }

  lemma GoesNeedsPads(m: Mux, now: int)
    requires AllIn(m.order, m.pads) && m.cfg.overallMaxFps > 0.0 && m.cfg.policy == New && Goes(Form(m, now))
    ensures exists i :: i in m.pads
  {
    hide Fill, Round, NewBatchSize, MuxConfig.MaxFpsDur;
    SomePad(m.pads);
  }

  lemma SomePad(pads: map<int, Pad>)
    ensures pads == map[] || exists i :: i in pads
  {
    if forall i :: i !in pads {
      assert pads == map[];
    }
  }

  // ---------------------------------------------------------------- legacy batches

  /** The frame a live pad offers: the oldest left after its late ones went. */
  function Offer(m: Mux, i: int, now: int): seq<Pick>
    requires i in m.pads
  {
    var s := ScreenLive(m, m.pads[i], now);
    if s.onTime != 0 && s.kept != [] then [Pick(i, s.kept[0])] else []
  }

  /** The offers of pads in order. */
  function Offers(m: Mux, ids: seq<int>, now: int): seq<Pick>
    requires AllIn(ids, m.pads)
  {
    if ids == [] then []
    else
      var n := |ids| - 1;
      Offers(m, ids[..n], now) + Offer(m, ids[n], now)
  }

  /** A live legacy batch takes the first offers, one of each pad, as many as it has slots. */
  lemma {:induction false} LiveTakesOffers(m: Mux, ids: seq<int>, now: int)
    requires AllIn(ids, m.pads) && Distinct(ids) && m.cfg.batchSize >= 0
    ensures FormLive(m, ids, now).picks == Offers(m, ids, now)[..Min(m.cfg.batchSize, |Offers(m, ids, now)|)]
  {
    if ids != [] {
      var n := |ids| - 1;
      LiveTakesOffers(m, ids[..n], now);
      LivePads(m, ids[..n], now, ids[n]);
      assert ids[n] !in ids[..n];
      var f := FormLive(m, ids[..n], now);
      VisitLivePicks(m, f, ids[n], now);
      HeadTagged(ids[n], ScreenLive(m, m.pads[ids[n]], now).kept);
      hide ScreenLive, VisitLive, Tagged, Distinct;
      FirstOf(Offers(m, ids[..n], now), Offer(m, ids[n], now), m.cfg.batchSize);
    }
  }

  /** The first `k` of two sequences, the second with at most one element. */
  lemma FirstOf(a: seq<Pick>, b: seq<Pick>, k: nat)
    requires |b| <= 1
    ensures (a + b)[..Min(k, |a + b|)] == if |a| < k then a[..Min(k, |a|)] + b else a[..Min(k, |a|)]
  {
  }

  lemma HeadTagged(i: int, q: seq<Queued>)
    ensures q != [] ==> Tagged(i, q[..1]) == [Pick(i, q[0])]
  {
  }

  lemma OneOffer(m: Mux, i: int, now: int, j: int)
    requires j in m.pads
    ensures |On(Offer(m, j, now), i)| <= (if i == j then 1 else 0)
  {
    hide ScreenLive;
    var o := Offer(m, j, now);
    if o != [] {
      assert o[..0] == [];
      assert On([], i) == [];
    }
  }

  lemma {:induction false} OfferedOnce(m: Mux, ids: seq<int>, now: int, i: int)
    requires AllIn(ids, m.pads) && Distinct(ids)
    ensures |On(Offers(m, ids, now), i)| <= (if i in ids then 1 else 0)
  {
    if ids != [] {
      var n := |ids| - 1;
      OfferedOnce(m, ids[..n], now, i);
      OnAppend(Offers(m, ids[..n], now), Offer(m, ids[n], now), i);
      OneOffer(m, i, now, ids[n]);
      assert ids == ids[..n] + [ids[n]] && ids[n] !in ids[..n];
      hide Offer;
    }
  }

  /** The most frames of one pad in a legacy batch. */
  function LegacyCap(cfg: MuxConfig): int { if cfg.liveSource then 1 else Max(0, cfg.maxSameLegacy) }

  lemma LiveShares(m: Mux, ids: seq<int>, now: int, i: int)
    requires AllIn(ids, m.pads) && Distinct(ids) && m.cfg.batchSize >= 0
    ensures |FormLive(m, ids, now).picks| <= m.cfg.batchSize && |On(FormLive(m, ids, now).picks, i)| <= 1
  {
    hide *;
    var o := Offers(m, ids, now);
    LiveTakesOffers(m, ids, now);
    OfferedOnce(m, ids, now, i);
    MinIs(m.cfg.batchSize, |o|);
    OnTakePrefix(o, Min(m.cfg.batchSize, |o|), i);
  }

  lemma MinIs(a: int, b: int)
    ensures Min(a, b) == (if a <= b then a else b)
  {
  }

  lemma LegacyFormIs(m: Mux, now: int)
    requires AllIn(m.order, m.pads) && m.cfg.overallMaxFps > 0.0 && m.cfg.policy == Legacy && Goes(Form(m, now))
    ensures m.cfg.batchSize > 0
    ensures Form(m, now).picks == if m.cfg.liveSource then FormLive(m, Active(m.pads, m.order), now).picks
                                  else FifoPicks(m, Active(m.pads, m.order))
  {
    hide FormLive, FifoPicks, LegacyTimerStart;
  }

  lemma SoundBasics(m: Mux)
    requires Sound(m)
    ensures AllIn(m.order, m.pads) && m.cfg.overallMaxFps > 0.0 && Distinct(m.order) && OrderedQueues(m)
  {
    hide Ordered;
  }

  lemma LegacyShares(m: Mux, now: int, i: int)
    requires Sound(m) && m.cfg.policy == Legacy && Goes(Form(m, now))
    ensures AllIn(m.order, m.pads) && m.cfg.overallMaxFps > 0.0
    ensures |Form(m, now).picks| <= m.cfg.batchSize && |On(Form(m, now).picks, i)| <= LegacyCap(m.cfg)
  {
    hide *;
    SoundBasics(m);
    var ids := Active(m.pads, m.order);
    ActiveDistinct(m.pads, m.order);
    ActiveIn(m.pads, m.order);
    LegacyFormIs(m, now);
    LegacyCapIs(m.cfg);
    if m.cfg.liveSource {
      LiveShares(m, ids, now, i);
    } else {
      FifoFits(m, ids);
      FifoElsewhere(m, ids, i);
    }
  }

  lemma ActiveIn(pads: map<int, Pad>, ids: seq<int>)
    requires AllIn(ids, pads)
    ensures AllIn(Active(pads, ids), pads)
  {
    hide Active;
  }

  lemma FifoFits(m: Mux, ids: seq<int>)
    requires AllIn(ids, m.pads) && m.cfg.batchSize >= 0
    ensures |FifoPicks(m, ids)| <= m.cfg.batchSize
  {
    hide Sort, Eligible;
  }

  lemma LegacyCapIs(cfg: MuxConfig)
    ensures if cfg.liveSource then LegacyCap(cfg) == 1 else LegacyCap(cfg) == Max(0, cfg.maxSameLegacy)
  {
  }

  lemma FifoElsewhere(m: Mux, ids: seq<int>, i: int)
    requires AllIn(ids, m.pads) && Distinct(ids) && OrderedQueues(m)
    ensures |On(FifoPicks(m, ids), i)| <= Max(0, m.cfg.maxSameLegacy)
  {
    FifoBatch(m, ids);
    hide FifoPicks, On;
    if i in ids {
      var k :| 0 <= k < |ids| && ids[k] == i;
      assert i in m.pads;
    }
  }

  // ---------------------------------------------------------------- every batch of every run

  /** What the labels of a batch say. */
  ghost predicate Labelled(m: Mux, b: Batch) {
    && b.frames != [] && b.batchIndex == m.batchIndex
    && b.maxFrames == (if m.cfg.policy == New && m.cfg.adaptive then Max(m.cfg.batchSize, |m.pads|) else m.cfg.batchSize)
    && (forall q :: 0 <= q < |b.frames| ==>
          b.frames[q].batchId == q && b.frames[q].padIndex in m.pads && b.frames[q].sourceId == m.pads[b.frames[q].padIndex].sourceId)
  }

  /** What it takes from each pad. */
  ghost predicate SharesOut(m: Mux, b: Batch, now: int) {
    && |b.frames| <= Size(m)
    && (forall i :: i in m.pads ==>
          if m.cfg.policy == Legacy then |FramesOn(b.frames, i)| <= LegacyCap(m.cfg)
          else FairShare(m.cfg, m.pads[i], |FramesOn(b.frames, i)|, now, Size(m)))
    && (m.cfg.policy == New && !m.cfg.syncInputs && !m.cfg.rateControl && |b.frames| < Size(m) ==>
          forall i :: i in StillOpen(m) ==>
            |FramesOn(b.frames, i)| == Min(|m.pads[i].queue|, Cap(m.cfg, m.pads[i], Size(m))))
  }

  lemma FramesCounted(m: Mux, picks: seq<Pick>, i: int)
    requires PicksIn(m.pads, picks) && i in m.pads && (forall j :: j in m.pads ==> m.pads[j].index == j)
    ensures |FramesOn(Metas(m, picks), i)| == |On(picks, i)|
  {
    MetasCarry(m, picks, i);
    hide On, FramesOn, Metas;
  }

  lemma SentShared(w: World, now: int, b: Batch)
    requires Inv(w) && w.mux.WellFormed() && Sent(w.mux, now) == [Frames(b)]
    ensures SharesOut(w.mux, b, now) && Labelled(w.mux, b) && b.push == now
  {
    InvIsSound(w);
    PolledWell(w.mux);
    PolledSound(w.mux);
    var p := Polled(w.mux);
    var f := Form(p, now);
    var m := Formed(p, f);
    FormedSameSources(p, now);
    PolledSame(w.mux);
    SameThrough(w.mux, p, m);
    FormedIndexed(p, now);
    SentIs(w.mux, now, b);
    hide *;
    SentLabels(w.mux, m, f.picks, now);
    SentShares(w.mux, m, f, now);
  }

  lemma SentIs(m: Mux, now: int, b: Batch)
    requires m.WellFormed() && Sent(m, now) == [Frames(b)]
    ensures AllIn(Polled(m).order, Polled(m).pads) && Polled(m).cfg.overallMaxFps > 0.0
    ensures var f := Form(Polled(m), now);
            && Goes(f) && f.picks != [] && PicksIn(Formed(Polled(m), f).pads, f.picks)
            && AllIn(Formed(Polled(m), f).order, Formed(Polled(m), f).pads) && b == EmitBatch(Formed(Polled(m), f), f.picks, now)
  {
    PolledWell(m);
    hide Form, Polled, EmitBatch;
  }

  lemma SentLabels(m: Mux, m': Mux, picks: seq<Pick>, now: int)
    requires picks != [] && PicksIn(m'.pads, picks) && AllIn(m'.order, m'.pads) && SameSources(m, m')
    requires (forall i :: i in m'.pads ==> m'.pads[i].index == i) && m'.cfg == m.cfg && m'.batchIndex == m.batchIndex
    ensures Labelled(m, EmitBatch(m', picks, now)) && EmitBatch(m', picks, now).push == now
  {
    var b := EmitBatch(m', picks, now);
    assert |m'.pads| == |m.pads| by {
      SameSize(m.pads, m'.pads);
    }
    forall q | 0 <= q < |b.frames|
      ensures b.frames[q].batchId == q && b.frames[q].padIndex in m.pads && b.frames[q].sourceId == m.pads[b.frames[q].padIndex].sourceId
    {
      var i := picks[q].pad;
      assert SameSource(m.pads[i], m'.pads[i]);
    }
    hide OutputPts, On, Meta;
  }

  lemma SameSize(a: map<int, Pad>, b: map<int, Pad>)
    requires a.Keys == b.Keys
    ensures |a| == |b|
  {
    assert |a.Keys| == |a| && |b.Keys| == |b|;
  }

  lemma SentShares(m: Mux, m': Mux, f: Forming, now: int)
    requires m.WellFormed() && AllIn(Polled(m).order, Polled(m).pads) && Polled(m).cfg.overallMaxFps > 0.0
    requires f == Form(Polled(m), now) && m' == Formed(Polled(m), f) && Goes(f) && Sound(Polled(m)) && Polled(m).cfg == m.cfg
    requires f.picks != [] && PicksIn(m'.pads, f.picks) && AllIn(m'.order, m'.pads) && m'.pads.Keys == m.pads.Keys
    requires forall i :: i in m'.pads ==> m'.pads[i].index == i
    ensures SharesOut(m, EmitBatch(m', f.picks, now), now)
  {
    PolledWell(m);
    hide Form, Polled, On, FramesOn, EmitBatch, Sound, FairShare, Cap, LegacyCap, Goes, Metas, SharesOut, SharedOut, Size, Formed;
    var b := EmitBatch(m', f.picks, now);
    FramesAre(m', f.picks, now);
    forall i | i in m.pads ensures |FramesOn(b.frames, i)| == |On(f.picks, i)| {
      FramesCounted(m', f.picks, i);
    }
    if m.cfg.policy == New {
      PolledShares(m, now, f);
      SharesFromNew(m, b, f.picks, now);
    } else {
      forall i ensures |f.picks| <= m.cfg.batchSize && |On(f.picks, i)| <= LegacyCap(m.cfg) {
        LegacyShares(Polled(m), now, i);
      }
      SharesFromLegacy(m, b, f.picks, now);
    }
  }

  lemma FramesAre(m: Mux, picks: seq<Pick>, now: int)
    requires picks != [] && PicksIn(m.pads, picks) && AllIn(m.order, m.pads)
    ensures EmitBatch(m, picks, now).frames == Metas(m, picks) && |Metas(m, picks)| == |picks|
  {
    hide OutputPts, MaxFramesInBatch, Meta;
  }

  lemma SharesFromNew(m: Mux, b: Batch, picks: seq<Pick>, now: int)
    requires m.cfg.policy == New && SharedOut(m, picks, now) && |b.frames| == |picks|
    requires forall i :: i in m.pads ==> |FramesOn(b.frames, i)| == |On(picks, i)|
    ensures SharesOut(m, b, now)
  {
    hide FairShare, On, FramesOn, Size;
    forall i | i in m.pads ensures Cap(m.cfg, m.pads[i], Size(m)) >= 0 {
    }
    hide Cap;
  }

  lemma SharesFromLegacy(m: Mux, b: Batch, picks: seq<Pick>, now: int)
    requires m.cfg.policy == Legacy && |b.frames| == |picks|
    requires forall i :: i in m.pads ==> |FramesOn(b.frames, i)| == |On(picks, i)|
    requires forall i :: |picks| <= m.cfg.batchSize && |On(picks, i)| <= LegacyCap(m.cfg)
    ensures SharesOut(m, b, now)
  {
    hide On, FramesOn, LegacyCap;
    assert |On(picks, 0)| <= LegacyCap(m.cfg);
  }

  /** Every batch of every run: it fits its size, takes no more from any pad than its share
      and, where nothing but the shares limits it and it has room left, exactly the share
      of every pad that is still open; and its labels are right. All of it is said of the
      mux just before the poll that sent it. */
  lemma EveryBatchIsShared(cfg: MuxConfig, ws: seq<World>, steps: seq<Step>, k: nat, x: nat) returns (j: nat)
    requires RunFrom(cfg, ws, steps) && k < |ws| && x < |ws[k].trace| && ws[k].trace[x].Frames?
    ensures j < k && j < |steps| && steps[j].PollAt?
    ensures var b := ws[k].trace[x].batch;
            b.push == steps[j].now && SharesOut(ws[j].mux, b, steps[j].now) && Labelled(ws[j].mux, b)
  {
    hide *;
    j := EveryBatchHasItsPoll(cfg, ws, steps, k, x);
    PolledAtParts(ws, steps, j, ws[k].trace, x);
    SentShared(ws[j], steps[j].now, ws[k].trace[x].batch);
  }
}
