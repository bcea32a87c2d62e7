/** One round of each loop of the mux, on values: what the loops of StreamMux.dfy
    have done after so many rounds, and what one more round adds. */
module MuxSteps {
  import opened Shared
  import opened MuxTypes
  import opened MuxSpec
  import opened BatchSplit
  import opened LegacyBatch
  import opened MuxDrain

  lemma OnOneMore(picks: seq<Pick>, k: nat, i: int)
    requires k < |picks|
    ensures On(picks[..k + 1], i) == On(picks[..k], i) + (if picks[k].pad == i then [picks[k].q] else [])
  {
    assert picks[..k + 1][..k] == picks[..k];
  }

  // ---------------------------------------------------------------- end of stream

  ghost predicate ClosedUpTo(cfg: MuxConfig, before: map<int, Pad>, pads: map<int, Pad>, ids: seq<int>) {
    && pads.Keys == before.Keys
    && (forall i :: i in before && i in ids ==> pads[i] == ClosePad(cfg, before[i]))
    && (forall i :: i in before && i !in ids ==> pads[i] == before[i])
  }

  lemma CloseOneMore(cfg: MuxConfig, before: map<int, Pad>, pads: map<int, Pad>, ids: seq<int>, k: nat)
    requires k < |ids| && Distinct(ids) && AllIn(ids, before) && ClosedUpTo(cfg, before, pads, ids[..k])
    ensures AllIn(ids[..k + 1], before) && AllIn(ids[..k], before) && pads[ids[k]] == before[ids[k]]
    ensures ClosedUpTo(cfg, before, pads[ids[k] := ClosePad(cfg, before[ids[k]])], ids[..k + 1])
    ensures var p := before[ids[k]];
            EosNotices(before, ids[..k + 1]) ==
            EosNotices(before, ids[..k]) + (if Closing(p) then [StreamEos(p.index, p.sourceId)] else [])
  {
    hide ClosePad, Closing;
    assert ids[k] in before;
    assert ids[..k + 1][k] == ids[k];
    assert ids[..k + 1] == ids[..k] + [ids[k]];
    assert ids[..k + 1][..k] == ids[..k];
    assert ids[k] !in ids[..k];
  }

  lemma ClosedAll(m: Mux, pads: map<int, Pad>)
    requires m.WellFormed() && ClosedUpTo(m.cfg, m.pads, pads, m.order)
    ensures m.(pads := pads) == ForwardEos(m)
  {
    hide ClosePad;
    var closed := ForwardEos(m).pads;
    assert closed.Keys == m.pads.Keys && pads.Keys == m.pads.Keys;
    forall i | i in m.pads ensures pads[i] == closed[i] {
      assert i in m.order;
    }
    assert pads == closed;
  }

  // ---------------------------------------------------------------- emission

  /** A pad that gave `n` frames to the batch. */
  function Gave(p: Pad, n: nat): Pad {
    p.(queue := p.queue[Min(n, |p.queue|)..], frameCount := p.frameCount + n)
  }

  function GaveAll(pads: map<int, Pad>, picks: seq<Pick>): map<int, Pad> {
    map i | i in pads :: Gave(pads[i], |On(picks, i)|)
  }

  lemma GaveNothing(pads: map<int, Pad>)
    ensures GaveAll(pads, []) == pads
  {
    forall i ensures On([], i) == [] {
    }
    hide On;
    forall i | i in pads ensures Gave(pads[i], 0) == pads[i] {
      assert pads[i].queue[0..] == pads[i].queue;
    }
  }

  lemma GiveOne(p: Pad, n: nat, q: Queued)
    requires n < |p.queue| && p.queue[n] == q
    ensures var g := Gave(p, n);
            && g.queue != [] && g.queue[0] == q && g.frameCount == p.frameCount + n
            && g == p.(queue := g.queue, frameCount := g.frameCount)
            && Gave(p, n + 1) == g.(queue := g.queue[1..], frameCount := g.frameCount + 1)
  {
  }

  /** The frame of slot `k` is at the head of its queue when its turn comes. */
  lemma GiveOneMore(m: Mux, picks: seq<Pick>, k: nat)
    requires PrefixPicks(m, picks) && k < |picks|
    ensures var i, q := picks[k].pad, picks[k].q;
            var now := GaveAll(m.pads, picks[..k]);
            && i in m.pads && i in now && now[i].queue != [] && now[i].queue[0] == q
            && now[i] == m.pads[i].(queue := now[i].queue, frameCount := now[i].frameCount)
            && now[i].frameCount == m.pads[i].frameCount + |On(picks[..k], i)|
            && GaveAll(m.pads, picks[..k + 1]) ==
               now[i := now[i].(queue := now[i].queue[1..], frameCount := now[i].frameCount + 1)]
  {
    hide On, Gave;
    var i, q := picks[k].pad, picks[k].q;
    forall j | j in m.pads ensures On(picks[..k + 1], j) == On(picks[..k], j) + (if i == j then [q] else []) {
      OnOneMore(picks, k, j);
    }
    OnTakePrefix(picks, k + 1, i);
    var n := |On(picks[..k], i)|;
    assert i in m.pads;
    assert On(picks[..k + 1], i) <= m.pads[i].queue;
    assert On(picks[..k + 1], i)[n] == q;
    GiveOne(m.pads[i], n, q);
    forall j | j in m.pads && j != i ensures On(picks[..k + 1], j) == On(picks[..k], j) {
      assert On(picks[..k], j) + [] == On(picks[..k], j);
    }
  }

  function Mark(pads: map<int, Pad>, ids: set<int>, now: int): map<int, Pad> {
    map i | i in pads :: if i in ids then pads[i].(lastPush := Some(now)) else pads[i]
  }

  lemma MarkNothing(pads: map<int, Pad>, now: int)
    ensures Mark(pads, {}, now) == pads
  {
  }

  lemma MarkOneMore(pads: map<int, Pad>, done: set<int>, i: int, now: int)
    requires i in pads && i !in done
    ensures i in Mark(pads, done, now) && Mark(pads, done, now)[i] == pads[i]
    ensures Mark(pads, done + {i}, now) == Mark(pads, done, now)[i := pads[i].(lastPush := Some(now))]
  {
  }

  function PadsOf(picks: seq<Pick>): set<int> {
    set x | x in picks :: x.pad
  }

  lemma {:induction false} PadsOfOn(picks: seq<Pick>, i: int)
    ensures i in PadsOf(picks) <==> On(picks, i) != []
  {
    if i in PadsOf(picks) {
      var x :| x in picks && x.pad == i;
      OnMember(picks, i, x.q);
    }
    if On(picks, i) != [] {
      OnMember(picks, i, On(picks, i)[0]);
    }
  }

  lemma GivenAndMarked(m: Mux, picks: seq<Pick>, now: int)
    ensures Mark(GaveAll(m.pads, picks), PadsOf(picks), now) == TakeAll(m, picks, now)
    ensures PicksIn(m.pads, picks) ==> PicksIn(GaveAll(m.pads, picks), picks)
  {
    forall i | i in m.pads
      ensures Mark(GaveAll(m.pads, picks), PadsOf(picks), now)[i] == TakeFrom(m.pads[i], |On(picks, i)|, now)
    {
      PadsOfOn(picks, i);
      hide On;
      assert m.pads[i].queue[0..] == m.pads[i].queue;
    }
  }

  // ---------------------------------------------------------------- output pts

  /** The frames of a batch are those picked, slot by slot. */
  ghost predicate AreOf(frames: seq<FrameMeta>, picks: seq<Pick>) {
    && |frames| == |picks|
    && (forall k :: 0 <= k < |picks| ==> frames[k].padIndex == picks[k].pad && frames[k].pts == picks[k].q.pts)
  }

  /** What the output pts depends on. */
  ghost predicate SameTimes(a: map<int, Pad>, b: map<int, Pad>) {
    && a.Keys == b.Keys
    && (forall i :: i in b ==> i in a)
    && (forall i :: i in a ==> i in b && b[i].frameDuration == a[i].frameDuration && b[i].segmentStart == a[i].segmentStart)
  }

  lemma {:induction false} SameFirstKnown(a: map<int, Pad>, b: map<int, Pad>, ids: seq<int>)
    requires SameTimes(a, b) && AllIn(ids, a)
    ensures AllIn(ids, b) && FirstKnownDuration(b, ids) == FirstKnownDuration(a, ids)
    decreases |ids|
  {
    forall k | 0 <= k < |ids| ensures ids[k] in b {
      assert ids[k] in a;
    }
    if ids != [] {
      var i := ids[0];
      assert i in a && i in b && b[i].frameDuration == a[i].frameDuration;
      forall k | 0 <= k < |ids[1..]| ensures ids[1..][k] in a {
        assert ids[1..][k] == ids[k + 1];
      }
      SameFirstKnown(a, b, ids[1..]);
    }
  }

  lemma {:induction false} SameLatest(m: Mux, m': Mux, picks: seq<Pick>)
    requires SameTimes(m.pads, m'.pads) && picks != [] && PicksIn(m.pads, picks) && PicksIn(m'.pads, picks)
    ensures LatestRunningTime(m', picks) == LatestRunningTime(m, picks)
  {
    var n := |picks| - 1;
    assert picks[n].pad in m.pads;
    if n > 0 {
      SameLatest(m, m', picks[..n]);
    }
  }

  lemma SameOutputPts(m: Mux, m': Mux, picks: seq<Pick>, now: int)
    requires SameTimes(m.pads, m'.pads) && picks != [] && PicksIn(m.pads, picks) && AllIn(m.order, m.pads)
    requires m' == m.(pads := m'.pads)
    ensures AllIn(m'.order, m'.pads) && PicksIn(m'.pads, picks)
    ensures OutputPts(m', picks, now) == OutputPts(m, picks, now) && FrameDuration(m') == FrameDuration(m)
  {
    assert AllIn(m'.order, m'.pads) && PicksIn(m'.pads, picks);
    SameLatest(m, m', picks);
    SameFirstKnown(m.pads, m'.pads, m.order);
    hide LatestRunningTime, FirstKnownDuration;
    assert m'.order == m.order && m'.firstDuration == m.firstDuration && m'.firstPad == m.firstPad;
    assert FirstKnownDuration(m'.pads, m'.order) == FirstKnownDuration(m.pads, m.order);
    if m.firstPad.Some? && m.firstPad.value in m.pads {
      var i := m.firstPad.value;
      assert i in m.pads ==> m'.pads[i].frameDuration == m.pads[i].frameDuration;
    }
    assert FrameDuration(m') == FrameDuration(m);
  }

  function TakeAll(m: Mux, picks: seq<Pick>, now: int): map<int, Pad> {
    map i | i in m.pads :: TakeFrom(m.pads[i], |On(picks, i)|, now)
  }

  lemma TakingKeepsTimes(m: Mux, picks: seq<Pick>, now: int)
    ensures SameTimes(m.pads, TakeAll(m, picks, now))
  {
    hide On;
  }

  lemma MetasAreOf(m: Mux, picks: seq<Pick>)
    requires m.WellFormed() && PicksIn(m.pads, picks)
    ensures AreOf(Metas(m, picks), picks)
  {
    forall k | 0 <= k < |picks| ensures Metas(m, picks)[k].padIndex == picks[k].pad {
      assert picks[k].pad in m.pads;
    }
  }

  /** The mux after the pts of a batch was worked out. */
  function WithPts(m: Mux, pts: int): Mux
    requires AllIn(m.order, m.pads)
  {
    m.(firstDuration := if CountsBatches(m.cfg) then FrameDuration(m) else m.firstDuration, prevPts := Some(pts))
  }

  /** The steps of an emission: the frames move, the pts is found, the batch is counted. */
  lemma EmitSteps(m: Mux, picks: seq<Pick>, now: int)
    requires m.WellFormed() && PrefixPicks(m, picks) && picks != []
    ensures var m1 := m.(pads := TakeAll(m, picks, now));
            var pts := OutputPts(m, picks, now);
            && m1.WellFormed() && AllIn(m1.order, m1.pads) && PicksIn(m.pads, picks) && PicksIn(m1.pads, picks)
            && AreOf(Metas(m, picks), picks) && |Metas(m, picks)| == |picks|
            && OutputPts(m1, picks, now) == pts
            && var m2 := WithPts(m1, pts);
            && EmitMux(m, picks, now) ==
               m2.(batchIndex := m2.batchIndex + 1, lastBatch := Some(now),
                   stats := m2.stats.(batches := m2.stats.batches + 1, frames := m2.stats.frames + |picks|))
            && EmitBatch(m, picks, now) == Batch(Metas(m, picks), pts, m2.batchIndex, MaxFramesInBatch(m2), now)
  {
    var m1 := m.(pads := TakeAll(m, picks, now));
    TakingKeepsTimes(m, picks, now);
    MetasAreOf(m, picks);
    TakenWellFormed(m, picks, now);
    hide On, OutputPts, FrameDuration, Meta, TakeFrom, SameTimes, Mux.WellFormed, AreOf;
    SameOutputPts(m, m1, picks, now);
  }

  lemma TakenWellFormed(m: Mux, picks: seq<Pick>, now: int)
    requires m.WellFormed() && PrefixPicks(m, picks)
    ensures var m1 := m.(pads := TakeAll(m, picks, now));
            && m1.WellFormed() && AllIn(m.order, m.pads) && AllIn(m1.order, m1.pads)
            && PicksIn(m.pads, picks) && PicksIn(m1.pads, picks) && m1.pads.Keys == m.pads.Keys
  {
    hide On;
    assert TakeAll(m, picks, now).Keys == m.pads.Keys;
  }

  // ---------------------------------------------------------------- batch formation

  lemma {:induction false} ScanFits(q: seq<Queued>, avail: int, seg: int, cur: int, minDur: int, maxLatency: int)
    ensures 0 <= SyncScan(q, avail, seg, cur, minDur, maxLatency).onTime
    ensures SyncScan(q, avail, seg, cur, minDur, maxLatency).onTime <= |SyncScan(q, avail, seg, cur, minDur, maxLatency).kept|
  {
    if q != [] && avail > 0 {
      ScanFits(q[1..], avail - 1, seg, cur, minDur, maxLatency);
    }
  }

  /** No more frames are found on time than there are. */
  lemma FilterFits(m: Mux, p: Pad, avail: int, now: int)
    requires avail <= |p.queue|
    ensures SyncFilter(m, p, avail, now).onTime <= |SyncFilter(m, p, avail, now).kept|
    ensures 0 <= avail ==> 0 <= SyncFilter(m, p, avail, now).onTime
  {
    ScanFits(p.queue, avail, -p.RunningTime(0), m.RunningTime(now), m.cfg.MinFpsDurOrZero(), m.cfg.maxLatency);
  }

  lemma TaggedOne(i: int, q: seq<Queued>, k: nat)
    requires k < |q|
    ensures Tagged(i, q[..k + 1]) == Tagged(i, q[..k]) + [Pick(i, q[k])]
  {
  }

  lemma FormLiveOneMore(m: Mux, ids: seq<int>, k: nat, now: int)
    requires AllIn(ids, m.pads) && k < |ids|
    ensures AllIn(ids[..k], m.pads) && AllIn(ids[..k + 1], m.pads)
    ensures var f := FormLive(m, ids[..k], now);
            && ids[k] in f.pads && PicksIn(f.pads, f.picks)
            && FormLive(m, ids[..k + 1], now) == VisitLive(m, f, ids[k], now)
  {
    assert ids[..k + 1][..k] == ids[..k];
    assert ids[k] in m.pads;
    hide VisitLive;
  }

  lemma {:induction false} FormLiveCursor(m: Mux, ids: seq<int>, now: int)
    requires AllIn(ids, m.pads)
    ensures FormLive(m, ids, now).rrPriority == m.rrPriority && FormLive(m, ids, now).rrSource == m.rrSource
  {
    hide SyncFilter;
    if ids != [] {
      FormLiveCursor(m, ids[..|ids| - 1], now);
    }
  }

  /** How often a source was picked. */
  function Count(perSource: map<int, nat>, i: int): nat {
    if i in perSource then perSource[i] else 0
  }

  ghost predicate Counts(perSource: map<int, nat>, picks: seq<Pick>) {
    forall i :: Count(perSource, i) == |On(picks, i)|
  }

  lemma CountsOneMore(perSource: map<int, nat>, picks: seq<Pick>, x: Pick)
    requires Counts(perSource, picks)
    ensures Counts(perSource[x.pad := Count(perSource, x.pad) + 1], picks + [x])
  {
    forall i ensures |On(picks + [x], i)| == |On(picks, i)| + (if x.pad == i then 1 else 0) {
      OnPush(picks, x, i);
    }
    hide On;
  }

  /** The cap counts the picks of a source, not its frames seen: the same thing. */
  lemma EligibleOneMore(items: seq<Pick>, cap: int, k: nat)
    requires k < |items|
    ensures var e := Eligible(items[..k], cap);
            Eligible(items[..k + 1], cap) == e + (if |On(e, items[k].pad)| < cap then [items[k]] else [])
  {
    assert items[..k + 1][..k] == items[..k];
    EligibleOn(items[..k], cap, items[k].pad);
    hide On;
  }

  lemma LiveNothing(m: Mux, ids: seq<int>, now: int)
    ensures AllIn(ids[..0], m.pads) && FormLive(m, ids[..0], now) == Blank(m)
  {
  }

  lemma FifoNothing(items: seq<Pick>, cap: int)
    ensures Eligible(items[..0], cap) == [] && Counts(map[], [])
  {
  }

  lemma CountOf(perSource: map<int, nat>, picks: seq<Pick>, i: int)
    requires Counts(perSource, picks)
    ensures Count(perSource, i) == |On(picks, i)|
  {
  }

  lemma WellFormedAllIn(m: Mux)
    requires m.WellFormed()
    ensures AllIn(m.order, m.pads) && m.cfg.overallMaxFps > 0.0
  {
  }

  lemma LegacyCases(m: Mux, now: int)
    requires m.WellFormed()
    ensures var active := Active(m.pads, m.order);
            var f := FormLegacy(m, now);
            var timeout, start := m.cfg.TimeoutNs(), LegacyTimerStart(m);
            var due := start.Some? && timeout.Some? && now >= start.value + timeout.value;
            && AllIn(active, m.pads)
            && if m.cfg.batchSize <= 0 || active == [] then Formed(m, f) == m && f.picks == [] && f.late == [] && !f.go
               else if m.cfg.liveSource then
                 var l := FormLive(m, active, now);
                 && Formed(m, f) == Formed(m, l) && f.picks == l.picks && f.late == l.late
                 && f.go == (|l.picks| >= Min(m.cfg.batchSize, |active|) || due)
               else
                 && Formed(m, f) == m && f.picks == FifoPicks(m, active) && f.late == []
                 && f.go == (|f.picks| >= m.cfg.batchSize || due)
  {
    hide FormLive, FifoPicks, LegacyTimerStart, Active;
  }

  // ---------------------------------------------------------------- the new policy

  /** What a visit starts from and may take. */
  lemma ScreenFits(m: Mux, p: Pad, now: int)
    ensures Screen(m, p, now).onTime <= |Screen(m, p, now).kept|
    ensures var avail := if m.cfg.rateControl && p.lastPush.Some? then Min(|p.queue|, RateAllowance(p, now)) else |p.queue|;
            Screen(m, p, now) ==
            if m.cfg.syncInputs then SyncFilter(m, p, avail, now) else Screened(p.queue, [], avail)
  {
    var avail := if m.cfg.rateControl && p.lastPush.Some? then Min(|p.queue|, RateAllowance(p, now)) else |p.queue|;
    FilterFits(m, p, avail, now);
    hide SyncFilter;
  }

  lemma VisitFrom(m: Mux, f: Forming, i: int, now: int, bs: int, s: Screened)
    requires i in f.pads && PicksIn(f.pads, f.picks) && s == Screen(m, f.pads[i], now)
    ensures s.onTime <= |s.kept|
    ensures var p := f.pads[i];
            var n := Min(Min(s.onTime, AllowedRepeats(m.cfg, p, bs)), bs - |f.picks|);
            Visit(m, f, i, now, bs) ==
            if p.Done() then f
            else f.(pads := f.pads[i := Thin(p, s)], late := f.late + Tagged(i, s.late),
                    picks := f.picks + Tagged(i, s.kept[..Max(0, n)]))
  {
    ScreenFits(m, f.pads[i], now);
    hide Screen;
  }

  /** One visit of the round: the batch is full, or the rest of the round goes on. */
  lemma FillOneMore(m: Mux, f: Forming, entries: seq<Entry>, now: int, bs: int)
    requires EntriesIn(entries, f.pads) && PicksIn(f.pads, f.picks) && entries != []
    ensures entries[0].pad in f.pads
    ensures var g := Visit(m, f, entries[0].pad, now, bs);
            && EntriesIn(entries[1..], g.pads) && PicksIn(g.pads, g.picks)
            && Fill(m, f, entries, now, bs) ==
               if |g.picks| >= bs then g.(rrPriority := entries[0].nextPriority, rrSource := entries[0].nextSource)
               else Fill(m, g, entries[1..], now, bs)
  {
    hide Visit;
  }

  /** Entry `si` of the round through one group, and what comes after it. */
  lemma GroupTurn(srcs: seq<int>, start: nat, pos: nat, si: nat, rest: seq<Entry>)
    requires start < |srcs| && si < |srcs|
    ensures var here := GroupEntries(srcs, start, pos)[si..] + rest;
            && here != [] && here[0] == Entry(srcs[Turn(start, si, |srcs|)], pos, After(start, si, |srcs|))
            && here[1..] == GroupEntries(srcs, start, pos)[si + 1..] + rest
  {
  }

  /** The fields a visit leaves alone. */
  lemma NewCases(m: Mux, now: int)
    requires m.WellFormed()
    ensures var f := FormNew(m, now);
            var bs := NewBatchSize(m);
            if m.pads == map[] || bs <= 0 then Formed(m, f) == m && f.picks == [] && f.late == [] && !f.go
            else
              && EntriesIn(Round(m), m.pads) && PicksIn(m.pads, [])
              && var g := Fill(m, Blank(m), Round(m), now, bs);
              var maxDur := m.cfg.MinFpsDur();
              var due := m.lastBatch.Some? && maxDur.Some? && now >= m.lastBatch.value + maxDur.value;
              var throttled := m.cfg.maxFpsControl && m.lastBatch.Some? && now < m.lastBatch.value + m.cfg.MaxFpsDur();
              && Formed(m, f) == Formed(m, g) && f.picks == g.picks && f.late == g.late
              && f.go == ((|g.picks| >= bs || due) && !throttled)
  {
    hide Fill, Round, NewBatchSize, MuxConfig.MaxFpsDur;
  }

  lemma RoundStarts(m: Mux)
    requires m.WellFormed()
    ensures var groups := Groups(m);
            var pStart := if m.cfg.roundRobin && groups != [] then Remainder(m.rrPriority, |groups|) else 0;
            var start := if m.cfg.roundRobin && groups != [] && groups[pStart] != []
                         then Remainder(m.rrSource, |groups[pStart]|) else 0;
            Round(m) == RoundEntries(groups, pStart, start, 0)
  {
    hide Groups;
  }

  /** The round behind group `gi`. */
  lemma RoundTurn(groups: seq<seq<int>>, pStart: nat, start: nat, gi: nat)
    requires gi < |groups| && pStart < |groups| && (groups[pStart] != [] ==> start < |groups[pStart]|)
    ensures RoundEntries(groups, pStart, start, gi) ==
            GroupEntries(groups[Turn(pStart, gi, |groups|)], if gi == 0 then start else 0, Turn(pStart, gi, |groups|)) +
            RoundEntries(groups, pStart, start, gi + 1)
    ensures gi == 0 ==> Turn(pStart, gi, |groups|) == pStart
  {
  }

  lemma RoundEnds(groups: seq<seq<int>>, pStart: nat, start: nat)
    requires groups != [] ==> pStart < |groups| && (groups[pStart] != [] ==> start < |groups[pStart]|)
    ensures RoundEntries(groups, pStart, start, |groups|) == []
  {
  }

  lemma FillEnds(m: Mux, f: Forming, now: int, bs: int)
    requires PicksIn(f.pads, f.picks)
    ensures EntriesIn([], f.pads) && Fill(m, f, [], now, bs) == f
  {
  }

  lemma GroupLength(srcs: seq<int>, start: nat, pos: nat)
    requires srcs != [] ==> start < |srcs|
    ensures |GroupEntries(srcs, start, pos)| == |srcs|
  {
  }

  // ---------------------------------------------------------------- poll

  lemma SoundParts(m: Mux)
    requires Sound(m)
    ensures m.WellFormed() && OrderedQueues(m) && AllIn(m.order, m.pads) && m.cfg.overallMaxFps > 0.0
  {
  }

  lemma FormPrefixes(m: Mux, now: int)
    requires Sound(m)
    ensures AllIn(m.order, m.pads) && m.cfg.overallMaxFps > 0.0
    ensures Formed(m, Form(m, now)).WellFormed() && PrefixPicks(Formed(m, Form(m, now)), Form(m, now).picks)
  {
    var f := Form(m, now);
    hide On, Form, Ordered;
    forall i | i in m.pads
      ensures f.pads[i].index == m.pads[i].index && f.pads[i].depth == m.pads[i].depth && On(f.picks, i) <= f.pads[i].queue
    {
      FormedSound(m, now, i);
    }
  }

  lemma FormByPolicy(m: Mux, now: int)
    requires m.cfg.overallMaxFps > 0.0 && AllIn(m.order, m.pads)
    ensures Form(m, now) == if m.cfg.policy == Legacy then FormLegacy(m, now) else FormNew(m, now)
    ensures var f := Form(m, now);
            PicksIn(Formed(m, f).pads, f.picks) && AllIn(Formed(m, f).order, Formed(m, f).pads)
    ensures var f := Form(m, now);
            BatchStage(m, now) ==
            if f.picks != [] && f.go
            then Effect(EmitMux(Formed(m, f), f.picks, now), [Frames(EmitBatch(Formed(m, f), f.picks, now))], f.late, f.picks)
            else Effect(Formed(m, f), [], f.late, [])
  {
    hide FormLegacy, FormNew, EmitMux, EmitBatch;
  }

  lemma EosParts(m: Mux)
    requires AllIn(m.order, m.pads)
    ensures EosStage(m) == Effect(ForwardEos(m), Notices(EosNotices(m.pads, m.order)), [], [])
  {
    hide ForwardEos, Notices, EosNotices;
  }

  /** The stages of a poll are defined on what the stages before leave. */
  lemma PollStages(m: Mux, now: int)
    requires Sound(m)
    ensures var m0 := m.(pending := []);
            && Sound(m0) && AllIn(m.order, m.pads) && AllIn(m0.order, m0.pads)
            && var e1 := EosStage(m0);
            && Sound(e1.mux) && AllIn(e1.mux.order, e1.mux.pads)
            && var e2 := BatchStage(e1.mux, now);
            && Sound(e2.mux) && AllIn(e2.mux.order, e2.mux.pads)
            && var e3 := if e2.picks != [] then EosStage(e2.mux) else Effect(e2.mux, [], [], []);
            && var e4 := EndStage(e3.mux);
            && Poll(m, now) ==
               Effect(e4.mux, Notices(m.pending) + (e1.outs + e2.outs + e3.outs + e4.outs), e2.lost, e2.picks)
  {
    var m0 := m.(pending := []);
    hide Ordered, EosStage, BatchStage, EndStage;
    EosStageSound(m0);
    BatchStageSound(EosStage(m0).mux, now, BatchStage(EosStage(m0).mux, now));
  }
}
