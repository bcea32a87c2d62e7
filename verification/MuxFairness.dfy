/** Bounded waiting under the `new` policy: with one priority group and nothing
    but the batch size to hold frames back, the carried round-robin cursor brings
    every waiting pad into one of the next n batches, n being the number of pads. */
module MuxFairness {
  import opened Shared
  import opened MuxTypes
  import opened MuxSpec
  import opened BatchSplit
  import opened LegacyBatch
  import opened MuxRuns
  import opened PadLedger
  import opened MuxInvariant
  import opened MuxSafety

  /** Only the batch size limits what a round takes. */
  predicate PlainNew(cfg: MuxConfig) {
    && cfg.policy == New
    && !cfg.syncInputs && !cfg.rateControl
    && cfg.maxSameSource >= 1 && (cfg.adaptive || cfg.batchSize >= 1)
  }

  /** The maximum rate holds back any batch: the last one went out less than a period ago. */
  predicate HeldBack(m: Mux, now: int)
    requires m.cfg.overallMaxFps > 0.0
  {
    m.cfg.maxFpsControl && m.lastBatch.Some? && now < m.lastBatch.value + m.cfg.MaxFpsDur()
  }

  /** The mux a poll forms its batch from. */
  function Polled(m: Mux): Mux
    requires AllIn(m.order, m.pads)
  {
    EosStage(m.(pending := [])).mux
  }

  /** The round of this poll, as far as it goes. */
  function RoundOf(m: Mux, now: int): Forming
    requires AllIn(m.order, m.pads)
  {
    Fill(m, Blank(m), Round(m), now, NewBatchSize(m))
  }

  /** The round of this poll collects a whole batch. */
  predicate RoundFull(m: Mux, now: int)
    requires AllIn(m.order, m.pads)
  {
    m.pads != map[] && NewBatchSize(m) > 0 && |RoundOf(m, now).picks| >= NewBatchSize(m)
  }

  ghost predicate OneGroup(m: Mux) {
    forall i, j :: i in m.pads && j in m.pads ==> m.pads[i].cfg.priority == m.pads[j].cfg.priority
  }

  ghost predicate Waiting(m: Mux, i: int) {
    i in m.pads && m.pads[i].queue != []
  }

  /** A pad that waits in a mux where the cursor alone decides when it is served. */
  ghost predicate Contender(m: Mux, i: int) {
    && m.WellFormed() && PlainNew(m.cfg) && m.cfg.roundRobin && OneGroup(m) && Waiting(m, i) && !m.pads[i].eos
  }

  function IndexOf(ids: seq<int>, i: int): (k: nat)
    requires i in ids
    ensures k < |ids| && ids[k] == i
  {
    if ids[0] == i then 0 else 1 + IndexOf(ids[1..], i)
  }

  /** How many pads the cursor has to pass before it stands at position `pos`. */
  function Distance(cursor: nat, pos: nat, n: nat): (d: nat)
    requires cursor < n && pos < n
    ensures d < n && Turn(cursor, d, n) == pos
  {
    if pos >= cursor then pos - cursor else pos - cursor + n
  }

  /** The number of pads the carried cursor `c` has to pass to reach pad `i`. */
  function Ahead(order: seq<int>, c: nat, i: int): (d: nat)
    requires i in order
    ensures d < |order|
  {
    Distance(Remainder(c, |order|), IndexOf(order, i), |order|)
  }

  // ---------------------------------------------------------------- the round of one group

  lemma {:induction false} OnePriority(pads: map<int, Pad>, ids: seq<int>, p: int)
    requires AllIn(ids, pads) && (forall k :: 0 <= k < |ids| ==> pads[ids[k]].cfg.priority == p)
    ensures Priorities(pads, ids) == if ids == [] then [] else [p]
    ensures Group(pads, ids, p) == ids
  {
    if ids != [] {
      var n := |ids| - 1;
      OnePriority(pads, ids[..n], p);
      assert ids == ids[..n] + [ids[n]];
      assert pads[ids[n]].cfg.priority == p;
    }
  }

  lemma OneGroupRound(m: Mux)
    requires m.WellFormed() && OneGroup(m) && m.cfg.roundRobin && m.order != []
    ensures Round(m) == GroupEntries(m.order, Remainder(m.rrSource, |m.order|), 0)
  {
    var p := m.pads[m.order[0]].cfg.priority;
    OnePriority(m.pads, m.order, p);
    assert Groups(m) == [m.order];
    var start := Remainder(m.rrSource, |m.order|);
    assert RoundEntries([m.order], 0, start, 1) == [];
    assert RoundEntries([m.order], 0, start, 0) == GroupEntries(m.order, start, 0) + [];
  }

  // ---------------------------------------------------------------- filling the batch

  lemma PlainVisit(m: Mux, f: Forming, i: int, now: int, bs: int)
    requires PlainNew(m.cfg) && i in f.pads && PicksIn(f.pads, f.picks) && |f.picks| < bs
    ensures var g := Visit(m, f, i, now, bs);
            && g.pads == f.pads && |f.picks| <= |g.picks| && f.picks <= g.picks
            && g.rrSource == f.rrSource && g.rrPriority == f.rrPriority
            && (f.pads[i].queue != [] && !f.pads[i].Done() ==> |g.picks| > |f.picks| && Pick(i, f.pads[i].queue[0]) in g.picks)
  {
    var p := f.pads[i];
    var g := Visit(m, f, i, now, bs);
    if !p.Done() {
      var s := Screen(m, p, now);
      assert Thin(p, s) == p;
      var n := Min(Min(s.onTime, AllowedRepeats(m.cfg, p, bs)), bs - |f.picks|);
      if p.queue != [] {
        assert n >= 1;
        assert Tagged(i, s.kept[..n])[0] == Pick(i, p.queue[0]);
        assert g.picks[|f.picks|] == Pick(i, p.queue[0]);
      }
    }
  }

  /** Going round, the batch either reaches entry `j` or is full before it, and then
      the cursor stands right behind an earlier entry. */
  lemma {:induction false} FillReaches(m: Mux, f: Forming, entries: seq<Entry>, now: int, bs: int, j: nat)
    requires PlainNew(m.cfg) && EntriesIn(entries, f.pads) && PicksIn(f.pads, f.picks) && |f.picks| < bs
    requires j < |entries| && f.pads[entries[j].pad].queue != [] && !f.pads[entries[j].pad].Done()
    ensures var r := Fill(m, f, entries, now, bs);
            && r.pads == f.pads && f.picks <= r.picks && r.picks != []
            && (|r.picks| < bs ==> r.rrSource == f.rrSource)
            && (|r.picks| >= bs ==> exists k :: 0 <= k < |entries| && r.rrSource == entries[k].nextSource)
            && (Pick(entries[j].pad, f.pads[entries[j].pad].queue[0]) in r.picks ||
                (|r.picks| >= bs && exists k :: 0 <= k < j && r.rrSource == entries[k].nextSource))
    decreases |entries|
  {
    var i := entries[0].pad;
    var g := Visit(m, f, i, now, bs);
    PlainVisit(m, f, i, now, bs);
    var r := Fill(m, f, entries, now, bs);
    if |g.picks| >= bs {
      assert r.rrSource == entries[0].nextSource;
    } else if j > 0 {
      FillReaches(m, g, entries[1..], now, bs, j - 1);
      if |r.picks| >= bs {
        var k :| 0 <= k < |entries[1..]| && r.rrSource == entries[1..][k].nextSource;
        assert r.rrSource == entries[k + 1].nextSource;
      }
      if k :| 0 <= k < j - 1 && r.rrSource == entries[1..][k].nextSource {
        assert r.rrSource == entries[k + 1].nextSource;
      }
    } else {
      FillGrows(m, g, entries[1..], now, bs);
      if k :| 0 <= k < |entries[1..]| && r.rrSource == entries[1..][k].nextSource {
        assert r.rrSource == entries[k + 1].nextSource;
      }
    }
  }

  lemma {:induction false} FillGrows(m: Mux, f: Forming, entries: seq<Entry>, now: int, bs: int)
    requires PlainNew(m.cfg) && EntriesIn(entries, f.pads) && PicksIn(f.pads, f.picks) && |f.picks| < bs
    ensures var r := Fill(m, f, entries, now, bs);
            && r.pads == f.pads && f.picks <= r.picks
            && (|r.picks| < bs ==> r.rrSource == f.rrSource)
            && (|r.picks| >= bs ==> exists k :: 0 <= k < |entries| && r.rrSource == entries[k].nextSource)
    decreases |entries|
  {
    if entries != [] {
      var g := Visit(m, f, entries[0].pad, now, bs);
      PlainVisit(m, f, entries[0].pad, now, bs);
      var r := Fill(m, f, entries, now, bs);
      if |g.picks| >= bs {
        assert r.rrSource == entries[0].nextSource;
      } else {
        FillGrows(m, g, entries[1..], now, bs);
        if k :| 0 <= k < |entries[1..]| && r.rrSource == entries[1..][k].nextSource {
          assert r.rrSource == entries[k + 1].nextSource;
        }
      }
    }
  }

  /** A cursor behind an earlier entry of the round is closer. */
  lemma CursorCloser(start: nat, k: nat, j: nat, n: nat)
    requires start < n && k < j < n
    ensures Distance(After(start, k, n), Turn(start, j, n), n) == j - k - 1
  {
  }

  lemma AheadCloser(order: seq<int>, c: nat, i: int, k: nat)
    requires i in order && k < Ahead(order, c, i)
    ensures Ahead(order, After(Remainder(c, |order|), k, |order|), i) < Ahead(order, c, i)
  {
    hide Remainder;
    var n := |order|;
    CursorCloser(Remainder(c, n), k, Ahead(order, c, i), n);
  }

  // ---------------------------------------------------------------- one batch

  lemma {:induction false} OpenPadsPositive(pads: map<int, Pad>, ids: seq<int>, i: int)
    requires AllIn(ids, pads) && i in ids && i in pads && !pads[i].eos
    ensures OpenPads(pads, ids) >= 1
  {
    var n := |ids| - 1;
    if ids[n] != i {
      assert i in ids[..n] by {
        assert ids == ids[..n] + [ids[n]];
      }
      OpenPadsPositive(pads, ids[..n], i);
    }
  }

  lemma BatchSizePositive(m: Mux, i: int)
    requires m.WellFormed() && PlainNew(m.cfg) && i in m.pads && !m.pads[i].eos
    ensures NewBatchSize(m) >= 1
  {
    if m.cfg.adaptive {
      OpenPadsPositive(m.pads, m.order, i);
    }
  }

  /** The round of one group, read from the carried cursor. */
  lemma EntriesServe(m: Mux, order: seq<int>, c: nat, i: int, now: int, bs: int, r: Forming)
    requires PlainNew(m.cfg) && AllIn(order, m.pads) && i in order && bs >= 1
    requires m.pads[i].queue != [] && !m.pads[i].Done()
    requires var entries := GroupEntries(order, Remainder(c, |order|), 0);
             EntriesIn(entries, m.pads) && r == Fill(m, Blank(m), entries, now, bs)
    ensures r.pads == m.pads && r.late == [] && r.picks != [] && (|r.picks| < bs ==> r.rrSource == m.rrSource)
    ensures Pick(i, m.pads[i].queue[0]) in r.picks || (|r.picks| >= bs && Ahead(order, r.rrSource, i) < Ahead(order, c, i))
  {
    var n := |order|;
    var start, j := Remainder(c, n), Ahead(order, c, i);
    var entries := GroupEntries(order, start, 0);
    assert entries[j].pad == i;
    FillReaches(m, Blank(m), entries, now, bs, j);
    FillNoLate(m, Blank(m), entries, now, bs);
    hide Fill, Visit;
    if k :| 0 <= k < j && r.rrSource == entries[k].nextSource {
      AheadCloser(order, c, i, k);
    }
  }

  /** The maximum rate holds back a whole batch, which moves the cursor for nothing. */
  predicate Wasted(m: Mux, now: int)
    requires AllIn(m.order, m.pads) && m.cfg.overallMaxFps > 0.0
  {
    HeldBack(m, now) && RoundFull(m, now)
  }

  /** A waiting pad is served by this batch, or the batch brings the cursor closer
      to it, or no batch goes out and the cursor stays. */
  lemma FormServes(m: Mux, now: int, i: int, f: Forming)
    requires Contender(m, i) && f == FormNew(m, now) && !Wasted(m, now)
    ensures f.pads == m.pads && f.late == [] && f.picks != []
    ensures !f.go ==> f.rrSource == m.rrSource
    ensures f.go ==> Pick(i, m.pads[i].queue[0]) in f.picks || Ahead(m.order, f.rrSource, i) < Ahead(m.order, m.rrSource, i)
  {
    BatchSizePositive(m, i);
    OneGroupRound(m);
    hide NewBatchSize;
    EntriesServe(m, m.order, m.rrSource, i, now, NewBatchSize(m), Fill(m, Blank(m), Round(m), now, NewBatchSize(m)));
    hide Fill, Round, Ahead, GroupEntries;
  }

  predicate IsDue(m: Mux, now: int) {
    var d := m.cfg.MinFpsDur();
    m.lastBatch.Some? && d.Some? && now >= m.lastBatch.value + d.value
  }

  lemma {:induction false} FillNoLate(m: Mux, f: Forming, entries: seq<Entry>, now: int, bs: int)
    requires PlainNew(m.cfg) && EntriesIn(entries, f.pads) && PicksIn(f.pads, f.picks) && |f.picks| < bs
    ensures Fill(m, f, entries, now, bs).late == f.late
    decreases |entries|
  {
    if entries != [] {
      var g := Visit(m, f, entries[0].pad, now, bs);
      PlainVisit(m, f, entries[0].pad, now, bs);
      assert g.late == f.late;
      if |g.picks| < bs {
        FillNoLate(m, g, entries[1..], now, bs);
      }
    }
  }

  // ---------------------------------------------------------------- one step

  /** Pads, their order and their priorities stay. */
  ghost predicate SameGroup(m: Mux, m': Mux) {
    && m'.cfg == m.cfg && m'.order == m.order && m'.pads.Keys == m.pads.Keys
    && (forall j :: j in m.pads ==> m'.pads[j].cfg == m.pads[j].cfg)
  }

  lemma EmitServes(m: Mux, picks: seq<Pick>, now: int, i: int)
    requires PicksIn(m.pads, picks) && picks != [] && AllIn(m.order, m.pads) && i in m.pads
    ensures var m' := EmitMux(m, picks, now);
            && SameGroup(m, m') && m'.rrSource == m.rrSource && m'.batchIndex == m.batchIndex + 1
            && (On(picks, i) == [] ==> m'.pads[i] == m.pads[i])
  {
    hide On, OutputPts, FrameDuration;
    assert forall j :: j in m.pads ==> EmitMux(m, picks, now).pads[j] == TakeFrom(m.pads[j], |On(picks, j)|, now);
  }

  /** What one batch stage does for a contender. */
  lemma BatchServes(m: Mux, now: int, i: int, e: Effect)
    requires Contender(m, i) && e == BatchStage(m, now) && !Wasted(m, now)
    ensures SameGroup(m, e.mux)
    ensures e.picks == [] ==> e.mux.pads == m.pads && e.mux.rrSource == m.rrSource && e.mux.batchIndex == m.batchIndex
    ensures e.picks != [] ==> e.mux.batchIndex == m.batchIndex + 1
    ensures e.picks != [] && On(e.picks, i) == [] ==>
              e.mux.pads[i] == m.pads[i] && Ahead(m.order, e.mux.rrSource, i) < Ahead(m.order, m.rrSource, i)
  {
    var f := FormNew(m, now);
    FormServes(m, now, i, f);
    OnMember(f.picks, i, m.pads[i].queue[0]);
    hide FormNew, On, EmitMux, EmitBatch, NewBatchSize, Ahead, IsDue;
    if f.go {
      EmitServes(Formed(m, f), f.picks, now, i);
    }
  }

  // ---------------------------------------------------------------- one poll

  lemma EosStageContends(m: Mux, i: int)
    requires Contender(m, i)
    ensures var m' := EosStage(m).mux;
            && Contender(m', i) && SameGroup(m, m') && m'.pads[i] == m.pads[i]
            && m'.rrSource == m.rrSource && m'.batchIndex == m.batchIndex && m'.lastBatch == m.lastBatch
  {
    hide EosNotices;
    assert forall j :: j in m.pads ==> EosStage(m).mux.pads[j] == ClosePad(m.cfg, m.pads[j]);
  }

  lemma EosStageKeepsWaiting(m: Mux, i: int)
    requires AllIn(m.order, m.pads) && Waiting(m, i)
    ensures var m' := EosStage(m).mux;
            SameGroup(m, m') && m'.pads[i] == m.pads[i] && m'.rrSource == m.rrSource && m'.batchIndex == m.batchIndex
  {
    hide EosNotices;
    assert forall j :: j in m.pads ==> EosStage(m).mux.pads[j] == ClosePad(m.cfg, m.pads[j]);
  }

  /** The number of batches so far plus the pads still ahead of the cursor. */
  function Turns(m: Mux, i: int): nat
    requires i in m.order
  {
    m.batchIndex + Ahead(m.order, m.rrSource, i)
  }

  /** A poll either serves pad `i` or leaves it waiting with no more turns to come. */
  lemma PollServes(m: Mux, now: int, i: int, e: Effect)
    requires Contender(m, i) && e == Poll(m, now) && !Wasted(Polled(m), now)
    ensures On(e.picks, i) == [] ==>
              SameGroup(m, e.mux) && e.mux.pads[i] == m.pads[i] && Turns(e.mux, i) <= Turns(m, i)
  {
    hide On, PollBody, Ahead;
    var m0 := m.(pending := []);
    assert Contender(m0, i);
    hide Contender, OneGroup;
    BodyServes(m0, now, i, PollBody(m0, now));
  }

  lemma BodyServes(m: Mux, now: int, i: int, e: Effect)
    requires Contender(m, i) && e == PollBody(m, now) && !Wasted(EosStage(m).mux, now)
    ensures On(e.picks, i) == [] ==>
              SameGroup(m, e.mux) && e.mux.pads[i] == m.pads[i] && Turns(e.mux, i) <= Turns(m, i)
  {
    EosStageContends(m, i);
    var e1 := EosStage(m);
    hide EosStage, Wasted;
    var e2 := BatchStage(e1.mux, now);
    BatchServes(e1.mux, now, i, e2);
    hide BatchStage, On, Ahead, Contender;
    if e2.picks != [] && On(e2.picks, i) == [] {
      EosStageKeepsWaiting(e2.mux, i);
      EndStageKeeps(EosStage(e2.mux).mux);
    } else {
      EndStageKeeps(e2.mux);
    }
  }

  lemma EndStageKeeps(m: Mux)
    ensures EndStage(m).mux == m.(eosSent := EndStage(m).mux.eosSent)
  {
  }

  // ---------------------------------------------------------------- runs

  lemma ContenderStays(m: Mux, m': Mux, i: int)
    requires Contender(m, i) && SameGroup(m, m') && m'.WellFormed() && Waiting(m', i) && !m'.pads[i].eos
    ensures Contender(m', i)
  {
  }

  lemma PushStaysWaiting(w: World, j: int, a: Arrival, duration: int, now: int, i: int)
    requires w.mux.WellFormed() && w.hist.Keys == w.mux.pads.Keys && Waiting(w.mux, i)
    ensures var w' := NextPush(w, j, a, duration, now);
            && SameGroup(w.mux, w'.mux) && Waiting(w'.mux, i) && w'.mux.rrSource == w.mux.rrSource
            && w'.mux.batchIndex == w.mux.batchIndex && w'.mux.pads[i].eos == w.mux.pads[i].eos
            && i in w'.hist && (i in w.hist ==> w'.hist[i].emitted == w.hist[i].emitted)
  {
    if j in w.mux.pads && !Refuses(w.mux.pads[j]) {
      var p := PushPad(w.mux.cfg, w.mux.pads[j], a, duration, now).pad;
      assert p.cfg == w.mux.pads[j].cfg && p.eos == w.mux.pads[j].eos;
      assert w.mux.pads[j].queue != [] ==> p.queue != [];
      hide PushPad;
    }
  }

  /** What is kept while pad `i` waits unserved since world `w0`. */
  ghost predicate StillWaiting(w0: World, w: World, i: int)
    requires i in w0.hist && i in w0.mux.order
  {
    && i in w.hist && |w.hist[i].emitted| >= |w0.hist[i].emitted|
    && (|w.hist[i].emitted| == |w0.hist[i].emitted| ==>
          Contender(w.mux, i) && w.mux.order == w0.mux.order && Turns(w.mux, i) <= Turns(w0.mux, i))
  }

  predicate FixedPads(s: Step) { !s.Add? && !s.Remove? }

  lemma PollHistory(w: World, now: int, i: int)
    requires Inv(w) && i in w.hist && w.clock <= now
    ensures var w', e := NextPoll(w, now), Poll(w.mux, now);
            && i in w'.hist && |w'.hist[i].emitted| == |w.hist[i].emitted| + |On(e.picks, i)|
            && w'.mux == e.mux
  {
    PollOk(w, now);
    var w', e := NextPoll(w, now), Poll(w.mux, now);
    SameLength(w, i);
    SameLength(w', i);
    hide Inv, Poll, FramesIn, FramesOn, On;
    assert w'.hist[i].emittedAt == w.hist[i].emittedAt + Seqs(On(e.picks, i));
  }

  lemma SameLength(w: World, i: int)
    requires Inv(w) && i in w.hist
    ensures |w.hist[i].emitted| == |w.hist[i].emittedAt|
  {
    assert PadOk(w.mux.cfg, w.mux.pads[i], w.hist[i], w.clock);
  }

  lemma OtherStepsWait(w: World, s: Step, w': World, i: int)
    requires Inv(w) && Follows(w, s, w') && FixedPads(s) && !s.PollAt? && Contender(w.mux, i)
    ensures Contender(w'.mux, i) && w'.mux.order == w.mux.order && Turns(w'.mux, i) == Turns(w.mux, i)
    ensures i in w'.hist && w'.hist[i].emitted == w.hist[i].emitted
  {
    OtherSteps(s);
    hide *;
    FollowsOk(w, s, w');
    InvBasics(w);
    InvBasics(w');
    ContenderListed(w.mux, i);
    if s.PushAt? {
      PushContends(w, s, w', i);
    } else {
      QuietStepsWait(w, s, w', i);
    }
    SameTurns(w.mux, w'.mux, i);
  }

  lemma OtherSteps(s: Step)
    requires FixedPads(s) && !s.PollAt?
    ensures s.PushAt? || s.StartAt? || s.StopNow? || s.ResumeAt? || s.Abandon? || s.End?
  {
  }

  lemma ContenderListed(m: Mux, i: int)
    requires Contender(m, i)
    ensures i in m.order
  {
  }

  lemma SameTurns(m: Mux, m': Mux, i: int)
    requires i in m.order && m'.order == m.order && m'.rrSource == m.rrSource && m'.batchIndex == m.batchIndex
    ensures Turns(m', i) == Turns(m, i)
  {
  }

  lemma InvBasics(w: World)
    requires Inv(w)
    ensures w.mux.WellFormed() && w.hist.Keys == w.mux.pads.Keys
  {
  }

  lemma PushContends(w: World, s: Step, w': World, i: int)
    requires w.mux.WellFormed() && w.hist.Keys == w.mux.pads.Keys && w'.mux.WellFormed()
    requires Follows(w, s, w') && s.PushAt? && Contender(w.mux, i)
    ensures Contender(w'.mux, i) && w'.mux.order == w.mux.order && w'.mux.rrSource == w.mux.rrSource
    ensures w'.mux.batchIndex == w.mux.batchIndex
    ensures i in w'.hist && w'.hist[i].emitted == w.hist[i].emitted
  {
    hide NextPush;
    PushStaysWaiting(w, s.pad, s.arrival, s.duration, s.now, i);
    assert w' == NextPush(w, s.pad, s.arrival, s.duration, s.now) && i in w.hist;
    hide Follows;
    ContenderStays(w.mux, w'.mux, i);
  }

  /** The fields of the mux and the histories that a producer's wake-up, an end of
      stream, a start or a stop leave alone. */
  ghost predicate QuietChange(w: World, w': World) {
    && SameGroup(w.mux, w'.mux) && w'.mux.rrSource == w.mux.rrSource && w'.mux.batchIndex == w.mux.batchIndex
    && w'.hist.Keys == w.hist.Keys
    && (forall j :: j in w.mux.pads ==> w'.mux.pads[j].eos == w.mux.pads[j].eos &&
                                         (w.mux.pads[j].queue != [] ==> w'.mux.pads[j].queue != []))
    && (forall j :: j in w.hist ==> w'.hist[j].emitted == w.hist[j].emitted)
  }

  lemma ResumeIsQuiet(w: World, j: int, now: int)
    requires CanResume(w.mux, j) && w.hist.Keys == w.mux.pads.Keys
    ensures QuietChange(w, NextResume(w, j, now))
  {
  }

  lemma EndIsQuiet(w: World, j: int)
    requires w.mux.WellFormed() && w.hist.Keys == w.mux.pads.Keys && Free(w.mux, j)
    ensures QuietChange(w, Next(w, End(j)))
  {
    hide *;
    EndShape(w, j);
    PendingIsQuiet(w, Next(w, End(j)), j);
  }

  lemma EndShape(w: World, j: int)
    requires w.mux.WellFormed() && w.hist.Keys == w.mux.pads.Keys && Free(w.mux, j)
    ensures Enabled(w, End(j)) && Next(w, End(j)) == w.(mux := PushEos(w.mux, j).0)
  {
    hide Mux.WellFormed;
  }

  lemma PendingIsQuiet(w: World, w': World, j: int)
    requires w' == w.(mux := PushEos(w.mux, j).0)
    ensures QuietChange(w, w')
  {
  }

  lemma QuietSteps(w: World, s: Step, w': World)
    requires Follows(w, s, w') && (s.StartAt? || s.StopNow? || s.ResumeAt? || s.Abandon? || s.End?)
    ensures QuietChange(w, w')
  {
    match s {
      case ResumeAt(j, now) =>
        hide QuietChange, NextResume;
        ResumeIsQuiet(w, j, now);
      case End(j) =>
        EndIsQuiet(w, j);
        hide QuietChange, PushEos;
      case StartAt(_) =>
      case StopNow =>
      case Abandon(_) =>
    }
  }

  lemma QuietStepsWait(w: World, s: Step, w': World, i: int)
    requires Follows(w, s, w') && w'.mux.WellFormed() && Contender(w.mux, i)
    requires s.StartAt? || s.StopNow? || s.ResumeAt? || s.Abandon? || s.End?
    ensures Contender(w'.mux, i) && w'.mux.order == w.mux.order
    ensures w'.mux.rrSource == w.mux.rrSource && w'.mux.batchIndex == w.mux.batchIndex
    ensures i in w'.hist && w'.hist[i].emitted == w.hist[i].emitted
  {
    QuietSteps(w, s, w');
    assert i in w.hist by {
      hide Enabled, Next;
    }
    hide Follows;
    ContenderStays(w.mux, w'.mux, i);
  }

  lemma PollWaits(w: World, now: int, i: int)
    requires Inv(w) && i in w.hist && w.clock <= now && Contender(w.mux, i) && !Wasted(Polled(w.mux), now)
    ensures var w' := NextPoll(w, now);
            && i in w'.hist && |w'.hist[i].emitted| >= |w.hist[i].emitted|
            && (|w'.hist[i].emitted| == |w.hist[i].emitted| ==>
                  Contender(w'.mux, i) && w'.mux.order == w.mux.order && Turns(w'.mux, i) <= Turns(w.mux, i))
  {
    PollHistory(w, now, i);
    PollOk(w, now);
    var e := Poll(w.mux, now);
    PollServes(w.mux, now, i, e);
    hide Poll, On, Ahead, PadsOk;
    if On(e.picks, i) == [] {
      ContenderStays(w.mux, e.mux, i);
    }
  }

  lemma PushEmitsNothing(w: World, j: int, a: Arrival, duration: int, now: int)
    requires w.mux.WellFormed() && w.hist.Keys == w.mux.pads.Keys
    ensures var w' := NextPush(w, j, a, duration, now);
            w'.hist.Keys == w.hist.Keys && forall i :: i in w.hist ==> w'.hist[i].emitted == w.hist[i].emitted
  {
    hide PushPad, Push;
  }

  lemma EmittedGrows(w: World, s: Step, w': World, i: int)
    requires Inv(w) && Follows(w, s, w') && FixedPads(s) && i in w.hist
    ensures i in w'.hist && |w'.hist[i].emitted| >= |w.hist[i].emitted|
  {
    hide Inv, NextPoll, NextPush;
    if s.PollAt? {
      PollHistory(w, s.now, i);
    } else if s.PushAt? {
      PushEmitsNothing(w, s.pad, s.arrival, s.duration, s.now);
    } else {
      QuietSteps(w, s, w');
      hide Follows;
    }
  }

  /** The pad set stays, and no poll is made that would move the cursor for nothing. */
  ghost predicate Unhurried(w: World, s: Step) {
    && FixedPads(s)
    && (s.PollAt? && w.mux.WellFormed() ==> !Wasted(Polled(w.mux), s.now))
  }

  lemma {:induction false} WaitingRun(ws: seq<World>, steps: seq<Step>, i: int, k: nat)
    requires Run(ws, steps) && Inv(ws[0]) && k < |ws| && (forall j :: 0 <= j < |steps| ==> Unhurried(ws[j], steps[j]))
    requires i in ws[0].hist && i in ws[0].mux.order && Contender(ws[0].mux, i)
    ensures StillWaiting(ws[0], ws[k], i)
  {
    hide Inv, Follows, Contender, Turns;
    if k > 0 {
      WaitingRun(ws, steps, i, k - 1);
      RunKeepsInv(ws, steps, k - 1);
      var w, s, w' := ws[k - 1], steps[k - 1], ws[k];
      EmittedGrows(w, s, w', i);
      if |w.hist[i].emitted| == |ws[0].hist[i].emitted| {
        FollowWaits(w, s, w', i);
      }
    }
  }

  lemma FollowWaits(w: World, s: Step, w': World, i: int)
    requires Inv(w) && Follows(w, s, w') && Unhurried(w, s) && i in w.hist && Contender(w.mux, i)
    ensures i in w'.hist && (|w'.hist[i].emitted| == |w.hist[i].emitted| ==>
              Contender(w'.mux, i) && w'.mux.order == w.mux.order && Turns(w'.mux, i) <= Turns(w.mux, i))
  {
    if s.PollAt? {
      PollWaits(w, s.now, i);
      hide NextPoll;
    } else {
      OtherStepsWait(w, s, w', i);
    }
    hide Inv, Contender, Turns;
  }

  /** Bounded waiting: while a waiting pad is not served, fewer batches go out than
      there are pads. So whatever producers and clock do, one of the next n batches
      serves it, with or without a maximum rate, as long as no poll is made that has a
      whole batch held back. */
  lemma BoundedWaiting(ws: seq<World>, steps: seq<Step>, i: int, k: nat)
    requires Run(ws, steps) && Inv(ws[0]) && k < |ws| && (forall j :: 0 <= j < |steps| ==> Unhurried(ws[j], steps[j]))
    requires i in ws[0].hist && Contender(ws[0].mux, i)
    ensures i in ws[k].hist
    ensures |ws[k].hist[i].emitted| == |ws[0].hist[i].emitted| ==>
              ws[k].mux.batchIndex < ws[0].mux.batchIndex + |ws[0].mux.order|
  {
    hide Inv, Follows;
    assert i in ws[0].mux.order;
    WaitingRun(ws, steps, i, k);
  }
}
