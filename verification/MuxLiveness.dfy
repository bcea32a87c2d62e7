/** Work gets done: batches under a timer keep their cadence, and once every
    source has ended, polling at the deadlines empties the mux and ends it. */
module MuxLiveness {
  import opened Shared
  import opened MuxTypes
  import opened MuxSpec
  import opened BatchSplit
  import opened LegacyBatch
  import opened MuxRuns
  import opened PadLedger
  import opened MuxInvariant
  import opened MuxSafety
  import opened MuxDrain
  import opened MuxFairness
  import opened MuxDeadlines
  import opened MuxBuild

  // ---------------------------------------------------------------- what a poll takes

  lemma FormKeepsPads(m: Mux, now: int, i: int)
    requires m.WellFormed() && OrderedQueues(m) && !m.cfg.syncInputs && i in m.pads
    ensures Form(m, now).pads[i] == m.pads[i] && On(Form(m, now).picks, i) <= m.pads[i].queue
  {
    FormSplits(m, now);
    hide Form, On;
    var f := Form(m, now);
    assert SplitAt(m, f, i);
    ThinnedAll(m.pads[i].queue, f.pads[i].queue);
  }

  lemma TakeSplits(p: Pad, taken: seq<Queued>, now: int)
    requires taken <= p.queue
    ensures var p' := TakeFrom(p, |taken|, now);
            p.queue == taken + p'.queue && p'.eos == p.eos && p'.eosPending == p.eosPending
  {
  }

  /** What one stage does to one pad: `taken` leaves the front of its queue. */
  ghost predicate Takes(p: Pad, taken: seq<Queued>, p': Pad) {
    && p.queue == taken + p'.queue
    && (p.eos || p.eosPending ==> p'.eos || p'.eosPending)
  }

  lemma BatchTakes(m: Mux, now: int, i: int)
    requires m.WellFormed() && OrderedQueues(m) && !m.cfg.syncInputs && i in m.pads
    ensures Takes(m.pads[i], On(BatchStage(m, now).picks, i), BatchStage(m, now).mux.pads[i])
  {
    hide Form, On, OutputPts, FrameDuration, EmitBatch, TakeFrom;
    FormKeepsPads(m, now, i);
    OnNothing(i);
    var f := Form(m, now);
    if f.picks != [] && f.go {
      assert BatchStage(m, now).mux.pads[i] == TakeFrom(f.pads[i], |On(f.picks, i)|, now);
      TakeSplits(m.pads[i], On(f.picks, i), now);
    }
  }

  lemma OnNothing(i: int)
    ensures On([], i) == []
  {
  }

  lemma EosTakes(m: Mux, i: int)
    requires AllIn(m.order, m.pads) && i in m.pads
    ensures Takes(m.pads[i], [], EosStage(m).mux.pads[i])
  {
    hide EosNotices;
    assert EosStage(m).mux.pads[i] == ClosePad(m.cfg, m.pads[i]);
  }

  lemma TakesThree(p0: Pad, p1: Pad, p2: Pad, p3: Pad, taken: seq<Queued>)
    requires Takes(p0, [], p1) && Takes(p1, taken, p2) && Takes(p2, [], p3)
    ensures Takes(p0, taken, p3)
  {
  }

  /** A poll splits every queue into what it takes and what stays. */
  lemma BodyTakes(m: Mux, now: int, i: int)
    requires Sound(m) && !m.cfg.syncInputs && i in m.pads
    ensures i in PollBody(m, now).mux.pads
    ensures Takes(m.pads[i], On(PollBody(m, now).picks, i), PollBody(m, now).mux.pads[i])
  {
    EosStageSound(m);
    EosTakes(m, i);
    var e1 := EosStage(m);
    BatchTakes(e1.mux, now, i);
    hide Sound, BatchStage, EosStage, On, Takes;
    var e2 := BatchStage(e1.mux, now);
    var last := if e2.picks != [] then EosStage(e2.mux).mux else e2.mux;
    TakesNothing(e2.mux.pads[i]);
    if e2.picks != [] {
      EosTakes(e2.mux, i);
    }
    EndStageKeeps(last);
    TakesThree(m.pads[i], e1.mux.pads[i], e2.mux.pads[i], last.pads[i], On(e2.picks, i));
  }

  lemma TakesNothing(p: Pad)
    ensures Takes(p, [], p)
  {
  }

  lemma PollTakes(m: Mux, now: int, i: int)
    requires Sound(m) && !m.cfg.syncInputs && i in m.pads
    ensures i in Poll(m, now).mux.pads
    ensures Takes(m.pads[i], On(Poll(m, now).picks, i), Poll(m, now).mux.pads[i])
  {
    var m0 := m.(pending := []);
    assert Sound(m0) by {
      hide Ordered;
    }
    hide Sound, PollBody, On;
    BodyTakes(m0, now, i);
  }

  /** A batch sets the timer to the moment it went out. */
  lemma BodySetsTimer(m: Mux, now: int)
    requires m.cfg.overallMaxFps > 0.0 && AllIn(m.order, m.pads)
    ensures var e := PollBody(m, now);
            && e.mux.cfg == m.cfg && e.mux.order == m.order && e.mux.pads.Keys == m.pads.Keys
            && e.mux.lastBatch == if e.picks != [] then Some(now) else m.lastBatch
  {
    BatchSetsTimer(EosStage(m).mux, now);
    hide EosNotices, BatchStage;
  }

  lemma BatchSetsTimer(m: Mux, now: int)
    requires m.cfg.overallMaxFps > 0.0 && AllIn(m.order, m.pads)
    ensures BatchStage(m, now).mux.lastBatch == if BatchStage(m, now).picks != [] then Some(now) else m.lastBatch
  {
    hide Form, On, OutputPts, FrameDuration, EmitBatch;
  }

  // ---------------------------------------------------------------- cadence

  lemma {:induction false} OldestAtMost(pads: map<int, Pad>, ids: seq<int>, now: int)
    requires AllIn(ids, pads)
    requires forall i :: i in pads ==> ArrivedBy(pads[i].queue, now)
    ensures Oldest(pads, ids).Some? ==> Oldest(pads, ids).value <= now
  {
    if ids != [] {
      OldestAtMost(pads, ids[..|ids| - 1], now);
      assert ArrivedBy(pads[ids[|ids| - 1]].queue, now);
    }
  }

  lemma TimerAtLastBatch(m: Mux, now: int)
    requires Sound(m) && m.cfg.policy == Legacy && m.cfg.timeoutUs >= 0 && m.lastBatch == Some(now) && SomeQueued(m)
    requires forall i :: i in m.pads ==> ArrivedBy(m.pads[i].queue, now)
    ensures NextDeadline(m) == Some(now + m.cfg.timeoutUs * 1000)
  {
    OldestAtMost(m.pads, m.order, now);
    TimerRuns(m);
    hide Sound, SomeQueued, Oldest, ArrivedBy;
  }

  lemma ArrivalsKept(m: Mux, now: int, i: int)
    requires Sound(m) && !m.cfg.syncInputs && i in m.pads && ArrivedBy(m.pads[i].queue, now)
    ensures i in Poll(m, now).mux.pads && ArrivedBy(Poll(m, now).mux.pads[i].queue, now)
  {
    hide Poll, Ordered, On;
    PollTakes(m, now, i);
    QueueTail(m.pads[i].queue, On(Poll(m, now).picks, i), Poll(m, now).mux.pads[i].queue, now);
  }

  lemma PollSetsTimer(m: Mux, now: int)
    requires m.cfg.overallMaxFps > 0.0 && AllIn(m.order, m.pads)
    ensures var e := Poll(m, now);
            && e.mux.cfg == m.cfg && e.mux.order == m.order && e.mux.pads.Keys == m.pads.Keys
            && e.mux.lastBatch == if e.picks != [] then Some(now) else m.lastBatch
  {
    BodySetsTimer(m.(pending := []), now);
    hide PollBody;
  }

  /** While frames stay queued, the next legacy deadline is one timeout after the
      batch that just went out, however long they have waited. */
  lemma LegacyCadence(m: Mux, now: int)
    requires Sound(m) && m.cfg.policy == Legacy && !m.cfg.syncInputs && m.cfg.timeoutUs >= 0
    requires forall i :: i in m.pads ==> ArrivedBy(m.pads[i].queue, now)
    requires Poll(m, now).picks != [] && SomeQueued(Poll(m, now).mux)
    ensures AllIn(Poll(m, now).mux.order, Poll(m, now).mux.pads)
    ensures NextDeadline(Poll(m, now).mux) == Some(now + m.cfg.timeoutUs * 1000)
  {
    hide Poll, Ordered, SomeQueued, Left, NextDeadline, ArrivedBy;
    var m' := Poll(m, now).mux;
    PollSetsTimer(m, now);
    PollShrinks(m, now);
    forall i | i in m'.pads ensures ArrivedBy(m'.pads[i].queue, now) {
      ArrivalsKept(m, now, i);
    }
    hide Sound;
    TimerAtLastBatch(m', now);
  }

  lemma QueueTail(q: seq<Queued>, a: seq<Queued>, b: seq<Queued>, now: int)
    requires q == a + b && ArrivedBy(q, now)
    ensures ArrivedBy(b, now)
  {
    assert forall k :: 0 <= k < |b| ==> b[k] == q[|a| + k];
  }

  // ---------------------------------------------------------------- every source has ended

  /** Every pad was given its end of stream. */
  ghost predicate AllEnding(m: Mux) {
    forall i :: i in m.pads ==> m.pads[i].eos || m.pads[i].eosPending
  }

  /** Settings under which the tail of the streams cannot get stuck: a legacy mux
      needs a finite timeout, a new one a minimum rate or adaptive batches. */
  predicate Lively(cfg: MuxConfig) {
    Prompt(cfg) && (if cfg.policy == Legacy then cfg.timeoutUs >= 0 else cfg.adaptive || cfg.timeoutUs > 0)
  }

  /** The timer of a mux that has received frames is set. */
  ghost predicate TimerSet(m: Mux) {
    SomeQueued(m) ==> m.lastBatch.Some?
  }

  ghost predicate Finished(m: Mux) {
    && m.pending == [] && !SomeQueued(m) && m.AllEos() && (m.pads != map[] ==> m.eosSent)
  }

  // ------------------------------ adaptive batches of the new policy

  function CountWaiting(pads: map<int, Pad>, entries: seq<Entry>): nat
    requires EntriesIn(entries, pads)
  {
    if entries == [] then 0
    else (if pads[entries[0].pad].queue != [] && !pads[entries[0].pad].Done() then 1 else 0) + CountWaiting(pads, entries[1..])
  }

  /** A round that does not fill the batch served every waiting pad. */
  lemma {:induction false} FillCounts(m: Mux, f: Forming, entries: seq<Entry>, now: int, bs: int)
    requires PlainNew(m.cfg) && EntriesIn(entries, f.pads) && PicksIn(f.pads, f.picks) && |f.picks| < bs
    ensures var r := Fill(m, f, entries, now, bs);
            |r.picks| >= bs || |r.picks| >= |f.picks| + CountWaiting(f.pads, entries)
    decreases |entries|
  {
    if entries != [] {
      PlainVisit(m, f, entries[0].pad, now, bs);
      var g := Visit(m, f, entries[0].pad, now, bs);
      if |g.picks| < bs {
        FillCounts(m, g, entries[1..], now, bs);
      }
    }
  }

  lemma {:induction false} CountCovers(pads: map<int, Pad>, entries: seq<Entry>, s: set<int>)
    requires EntriesIn(entries, pads)
    requires forall i :: i in s ==> i in pads && pads[i].queue != [] && !pads[i].Done()
    requires forall i :: i in s ==> exists k :: 0 <= k < |entries| && entries[k].pad == i
    ensures CountWaiting(pads, entries) >= |s|
    decreases |entries|
  {
    if entries == [] {
      assert forall i :: i !in s;
      assert s == {};
    } else {
      var s' := s - {entries[0].pad};
      forall i | i in s' ensures exists k :: 0 <= k < |entries[1..]| && entries[1..][k].pad == i {
        var k :| 0 <= k < |entries| && entries[k].pad == i;
        assert entries[1..][k - 1].pad == i;
      }
      CountCovers(pads, entries[1..], s');
    }
  }

  lemma {:induction false} OpenCount(pads: map<int, Pad>, ids: seq<int>, s: set<int>)
    requires AllIn(ids, pads) && Distinct(ids)
    requires forall i :: i in s <==> i in ids && i in pads && !pads[i].eos
    ensures OpenPads(pads, ids) == |s|
  {
    if ids == [] {
      assert forall i :: i !in s;
      assert s == {};
    } else {
      var n := |ids| - 1;
      var x := ids[n];
      assert ids == ids[..n] + [x];
      assert x !in ids[..n];
      OpenCount(pads, ids[..n], s - {x});
    }
  }

  /** When every open pad has frames, an adaptive batch fills at once. */
  lemma AdaptiveFills(m: Mux, now: int)
    requires Sound(m) && Prompt(m.cfg) && m.cfg.policy == New && m.cfg.adaptive
    requires forall i :: i in m.pads && !m.pads[i].eos ==> m.pads[i].queue != []
    ensures |FormNew(m, now).picks| >= NewBatchSize(m)
  {
    hide Ordered, Fill, Round;
    var bs := NewBatchSize(m);
    if bs >= 1 {
      var s := set i | i in m.pads && !m.pads[i].eos;
      OpenCount(m.pads, m.order, s);
      forall i | i in s ensures exists k :: 0 <= k < |Round(m)| && Round(m)[k].pad == i {
        RoundCovers(m, i);
      }
      CountCovers(m.pads, Round(m), s);
      FillCounts(m, Blank(m), Round(m), now, bs);
    }
  }

  // ------------------------------ progress

  /** The driver sleeps until the deadline, if there is one. */
  function PollTime(m: Mux, now: int): int
    requires AllIn(m.order, m.pads)
  {
    match NextDeadline(m) case None => now case Some(d) => Max(now, d)
  }

  lemma NoClosingPad(m: Mux, i: int)
    requires AllIn(m.order, m.pads) && EosStage(m).mux == m && AllEnding(m) && i in m.pads
    ensures m.pads[i].eos || m.pads[i].queue != []
  {
    hide EosNotices;
    assert EosStage(m).mux.pads[i] == ClosePad(m.cfg, m.pads[i]);
  }

  /** With frames queued and every pad ending, a batch is due by the poll time or
      full at once. */
  lemma EndingGoes(m: Mux, now: int, t: int)
    requires Sound(m) && Lively(m.cfg) && TimerSet(m) && SomeQueued(m) && t == PollTime(m, now)
    requires forall i :: i in m.pads ==> m.pads[i].eos || m.pads[i].queue != []
    ensures BatchStage(m, t).picks != []
  {
    BatchGoesWhen(m, t);
    TimerRuns(m);
    if m.cfg.policy == New {
      var i :| Waiting(m, i);
      assert i in m.pads.Keys && m.pads[i].queue != [];
      if m.cfg.timeoutUs <= 0 {
        AdaptiveFills(m, t);
      }
    }
    hide FormNew, FormLegacy, SomeQueued, EmitMux, EmitBatch, Sound;
  }

  lemma StageKeepsEos(m: Mux, now: int, i: int)
    requires Sound(m) && i in m.pads
    ensures BatchStage(m, now).mux.pads[i].eos == m.pads[i].eos
  {
    BatchPadSound(m, now, i);
  }

  /** A poll at the poll time that puts nothing out means that all is done. */
  lemma StuckMeansFinished(m: Mux, now: int, t: int)
    requires Sound(m) && Lively(m.cfg) && AllEnding(m) && TimerSet(m) && t == PollTime(m, now)
    requires Poll(m, t).outs == []
    ensures Finished(m) && Finished(Poll(m, t).mux)
  {
    QuietPoll(m, t);
    forall i | i in m.pads ensures m.pads[i].eos || m.pads[i].queue != [] {
      NoClosingPad(m, i);
    }
    if SomeQueued(m) {
      EndingGoes(m, now, t);
      assert false;
    }
    NoneQueued(m);
    BatchStageKeeps(m, t);
    hide Poll, BatchStage, EosStage, Ordered;
    var m' := BatchStage(m, t).mux;
    forall i | i in m.pads ensures m'.pads[i].eos && m'.pads[i].queue == [] {
      StageKeepsEos(m, t, i);
      BatchTakes(m, t, i);
    }
    assert !SomeQueued(m') by {
      forall i ensures !Waiting(m', i) {
      }
    }
  }

  // ------------------------------ running out

  /** Polling at successive deadlines until nothing more comes out. */
  function RunOut(m: Mux, now: int): Effect
    requires Sound(m)
    decreases Left(m)
  {
    var t := PollTime(m, now);
    var e := Poll(m, t);
    PollShrinks(m, t);
    if e.outs == [] then e
    else
      var r := RunOut(e.mux, t);
      Effect(r.mux, e.outs + r.outs, e.lost + r.lost, e.picks + r.picks)
  }

  lemma PollKeepsEnding(m: Mux, t: int)
    requires Sound(m) && Lively(m.cfg) && AllEnding(m) && TimerSet(m)
    ensures var m' := Poll(m, t).mux; Lively(m'.cfg) && AllEnding(m') && TimerSet(m') && m'.pads.Keys == m.pads.Keys
  {
    hide Poll, Ordered, On;
    PollSetsTimer(m, t);
    var m' := Poll(m, t).mux;
    forall i | i in m.pads
      ensures (m'.pads[i].eos || m'.pads[i].eosPending) && (m'.pads[i].queue != [] ==> m.pads[i].queue != [])
    {
      PollTakes(m, t, i);
    }
    if i :| Waiting(m', i) {
      assert Waiting(m, i);
    }
  }

  /** With every source ended, polling at the deadlines ends the run: every frame
      still queued leaves in a batch, in its pad's order, every pad gets its
      stream-eos and the pipeline its eos, whatever state the mux was in. */
  lemma {:induction false} EndedRunsOut(m: Mux, now: int)
    requires Sound(m) && Lively(m.cfg) && AllEnding(m) && TimerSet(m)
    ensures Finished(RunOut(m, now).mux)
    ensures forall i :: i in m.pads ==> On(RunOut(m, now).picks, i) == m.pads[i].queue
    decreases Left(m)
  {
    var t := PollTime(m, now);
    var e := Poll(m, t);
    PollShrinks(m, t);
    hide Poll, Sound, Lively, AllEnding, TimerSet, Finished;
    if e.outs == [] {
      StuckMeansFinished(m, now, t);
      forall i | i in m.pads ensures On(e.picks, i) == m.pads[i].queue {
        FinishedIsEmpty(m, i);
        QuietTakesNothing(m, t, i);
      }
    } else {
      PollKeepsEnding(m, t);
      EndedRunsOut(e.mux, t);
      var r := RunOut(e.mux, t);
      forall i | i in m.pads ensures On(e.picks + r.picks, i) == m.pads[i].queue {
        OnAppend(e.picks, r.picks, i);
        LivelyIsPlain(m.cfg);
        PollTakes(m, t, i);
      }
    }
  }

  lemma LivelyIsPlain(cfg: MuxConfig)
    requires Lively(cfg)
    ensures !cfg.syncInputs
  {
  }

  lemma FinishedIsEmpty(m: Mux, i: int)
    requires Finished(m) && i in m.pads
    ensures m.pads[i].queue == []
  {
    NoneQueued(m);
  }

  lemma QuietTakesNothing(m: Mux, t: int, i: int)
    requires m.WellFormed() && Poll(m, t).outs == []
    ensures On(Poll(m, t).picks, i) == []
  {
    QuietPoll(m, t);
    hide Poll;
  }

  lemma InvIsSound(w: World)
    requires Inv(w)
    ensures Sound(w.mux) && TimerSet(w.mux)
  {
    PadsOrdered(w.mux, w.hist, w.clock);
    hide Ordered, Partition, InOrder, ContentsMatch, Numbered, Counted, Gapless, ArrivedBy, Settled;
    forall i | i in w.mux.pads
      ensures (w.mux.pads[i].eos ==> w.mux.pads[i].queue == []) && (w.mux.pads[i].queue != [] ==> w.mux.lastBatch.Some?)
    {
      assert PadOk(w.mux.cfg, w.mux.pads[i], w.hist[i], w.clock);
    }
    if i :| Waiting(w.mux, i) {
      assert w.mux.lastBatch.Some?;
    }
  }

  /** From every world of every run in which all sources have ended. */
  lemma EveryRunCanEnd(cfg: MuxConfig, ws: seq<World>, steps: seq<Step>, k: nat)
    requires RunFrom(cfg, ws, steps) && k < |ws| && Lively(ws[k].mux.cfg) && AllEnding(ws[k].mux)
    ensures Sound(ws[k].mux)
    ensures Finished(RunOut(ws[k].mux, ws[k].clock).mux)
    ensures forall i :: i in ws[k].mux.pads ==>
              On(RunOut(ws[k].mux, ws[k].clock).picks, i) == ws[k].mux.pads[i].queue
  {
    EveryRunIsAccountedFor(cfg, ws, steps, k);
    hide Run, RunFrom, Inv, AccountedFor, Lively, AllEnding, Finished;
    InvIsSound(ws[k]);
    EndedRunsOut(ws[k].mux, ws[k].clock);
  }

  // ------------------------------ the polls that run out are a run

  lemma PollStep(ws: seq<World>, steps: seq<Step>, now: int)
    requires Run(ws, steps) && |ws| == |steps| + 1 && Inv(ws[|steps|]) && now >= ws[|steps|].clock
    ensures var w := ws[|steps|];
            && w.mux.WellFormed() && Run(ws + [NextPoll(w, now)], steps + [PollAt(now)]) && Inv(NextPoll(w, now))
  {
    hide *;
    InvBasics(ws[|steps|]);
    PollEnabled(ws[|steps|], now);
    NextIsPoll(ws[|steps|], now);
    RunGoesOn(ws, steps, PollAt(now));
  }

  lemma PolledWorld(w: World, now: int)
    requires w.mux.WellFormed()
    ensures AllIn(w.mux.order, w.mux.pads) && w.mux.cfg.overallMaxFps > 0.0
    ensures var (w', e) := (NextPoll(w, now), Poll(w.mux, now));
            w'.mux == e.mux && w'.clock == now && w'.trace == w.trace + e.outs
  {
    hide Poll;
  }

  lemma PollTimeLater(m: Mux, now: int)
    requires AllIn(m.order, m.pads)
    ensures PollTime(m, now) >= now
  {
    hide NextDeadline;
  }

  /** `ws'` goes on from `ws` by polls only. */
  ghost predicate PollsOn(ws: seq<World>, steps: seq<Step>, ws': seq<World>, steps': seq<Step>) {
    && ws <= ws' && steps <= steps' && |ws'| == |steps'| + 1
    && forall j :: |steps| <= j < |steps'| ==> steps'[j].PollAt?
  }

  lemma RunOutIs(m: Mux, now: int)
    requires Sound(m)
    ensures AllIn(m.order, m.pads) && m.cfg.overallMaxFps > 0.0
    ensures var t := PollTime(m, now);
            var e := Poll(m, t);
            && Sound(e.mux) && (e.outs != [] ==> Remaining(e.mux) < Remaining(m))
            && var r := RunOut(m, now);
            if e.outs == [] then r == e else r.mux == RunOut(e.mux, t).mux && r.outs == e.outs + RunOut(e.mux, t).outs
  {
    PollShrinks(m, PollTime(m, now));
    hide Poll, PollTime, Left, Ordered;
  }

  function Remaining(m: Mux): nat
    requires Sound(m)
  {
    Left(m)
  }

  lemma PollsOnOnce(ws: seq<World>, steps: seq<Step>, w: World, now: int)
    requires |ws| == |steps| + 1
    ensures PollsOn(ws, steps, ws + [w], steps + [PollAt(now)])
  {
  }

  lemma PollsOnMore(ws: seq<World>, steps: seq<Step>, ws1: seq<World>, steps1: seq<Step>, ws2: seq<World>, steps2: seq<Step>)
    requires PollsOn(ws, steps, ws1, steps1) && PollsOn(ws1, steps1, ws2, steps2)
    ensures PollsOn(ws, steps, ws2, steps2)
  {
    forall j | |steps| <= j < |steps2| ensures steps2[j].PollAt? {
      if j < |steps1| {
        assert steps2[j] == steps1[j];
      }
    }
  }

  lemma {:induction false} RunOutRuns(ws: seq<World>, steps: seq<Step>) returns (ws': seq<World>, steps': seq<Step>)
    requires Run(ws, steps) && |ws| == |steps| + 1 && Inv(ws[|steps|]) && Sound(ws[|steps|].mux)
    ensures Run(ws', steps') && |ws'| == |steps'| + 1 && PollsOn(ws, steps, ws', steps')
    ensures var (w, w') := (ws[|steps|], ws'[|steps'|]);
            w'.mux == RunOut(w.mux, w.clock).mux && w'.trace == w.trace + RunOut(w.mux, w.clock).outs
    decreases Remaining(ws[|steps|].mux)
  {
    hide *;
    var w := ws[|steps|];
    InvBasics(w);
    RunOutIs(w.mux, w.clock);
    var t := PollTime(w.mux, w.clock);
    PollTimeLater(w.mux, w.clock);
    PolledWorld(w, t);
    PollStep(ws, steps, t);
    var next := NextPoll(w, t);
    var ws1, steps1 := ws + [next], steps + [PollAt(t)];
    PollsOnOnce(ws, steps, next, t);
    if Poll(w.mux, t).outs == [] {
      ws', steps' := ws1, steps1;
    } else {
      ws', steps' := RunOutRuns(ws1, steps1);
      PollsOnMore(ws, steps, ws1, steps1, ws', steps');
      assert w.trace + Poll(w.mux, t).outs + RunOut(next.mux, t).outs == w.trace + (Poll(w.mux, t).outs + RunOut(next.mux, t).outs);
    }
  }

  /** Running out extends the run it starts from by polls at times that do not fall, so
      all that holds of runs holds of how they end. */
  lemma RunOutExtends(cfg: MuxConfig, ws: seq<World>, steps: seq<Step>) returns (ws': seq<World>, steps': seq<Step>)
    requires RunFrom(cfg, ws, steps)
    ensures |ws| == |steps| + 1 && Sound(ws[|steps|].mux)
    ensures RunFrom(cfg, ws', steps') && PollsOn(ws, steps, ws', steps')
    ensures var (w, w') := (ws[|steps|], ws'[|steps'|]);
            && w'.mux == RunOut(w.mux, w.clock).mux && w'.trace == w.trace + RunOut(w.mux, w.clock).outs
            && (Lively(w.mux.cfg) && AllEnding(w.mux) ==> Finished(w'.mux))
  {
    EveryRunIsAccountedFor(cfg, ws, steps, |steps|);
    InvIsSound(ws[|steps|]);
    hide Inv, AccountedFor, RunOut, Lively, AllEnding, Finished, Sound, Follows, NewWorld;
    ws', steps' := RunOutRuns(ws, steps);
    assert ws'[0] == ws[0];
    var w := ws[|steps|];
    if Lively(w.mux.cfg) && AllEnding(w.mux) {
      EndedRunsOut(w.mux, w.clock);
    }
  }
}
