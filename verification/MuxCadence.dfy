/** The cadence of legacy batches over runs: how long the deadline stands one timeout
    after the last batch, for queues that make producers wait and for queues that drop
    their oldest frame. */
module MuxCadence {
  import opened Shared
  import opened MuxTypes
  import opened MuxSpec
  import opened BatchSplit
  import opened MuxRuns
  import opened PadLedger
  import opened MuxInvariant
  import opened MuxSafety
  import opened MuxDrain
  import opened MuxFairness
  import opened MuxDeadlines
  import opened MuxLiveness

  predicate Timed(cfg: MuxConfig) {
    cfg.policy == Legacy && !cfg.syncInputs && cfg.timeoutUs >= 0
  }

  // ---------------------------------------------------------------- the deadline of one state

  /** The oldest frame on pad `i` came no later than `t`. */
  ghost predicate OldHead(m: Mux, t: int, i: int) {
    i in m.pads && m.pads[i].queue != [] && m.pads[i].queue[0].recv <= t
  }

  lemma {:induction false} OldestBelow(pads: map<int, Pad>, ids: seq<int>, i: int)
    requires AllIn(ids, pads) && i in ids && i in pads && pads[i].queue != [] && !pads[i].Done()
    ensures Oldest(pads, ids).Some? && Oldest(pads, ids).value <= pads[i].queue[0].recv
  {
    var n := |ids| - 1;
    assert ids == ids[..n] + [ids[n]];
    if i in ids[..n] {
      OldestBelow(pads, ids[..n], i);
    }
  }

  lemma {:induction false} OldestIsHead(pads: map<int, Pad>, ids: seq<int>)
    requires AllIn(ids, pads)
    ensures Oldest(pads, ids).Some? ==>
              exists i :: i in pads && pads[i].queue != [] && pads[i].queue[0].recv == Oldest(pads, ids).value
  {
    if ids != [] {
      var n := |ids| - 1;
      OldestIsHead(pads, ids[..n]);
      var r := Oldest(pads, ids);
      if r.Some? && r == Oldest(pads, ids[..n]) {
        var i :| i in pads && pads[i].queue != [] && pads[i].queue[0].recv == r.value;
      } else if r.Some? {
        var i := ids[n];
        assert i in pads && pads[i].queue != [] && pads[i].queue[0].recv == r.value;
      }
    }
  }

  lemma Undone(m: Mux, i: int)
    requires Sound(m) && i in m.pads && m.pads[i].queue != []
    ensures i in m.order && !m.pads[i].Done()
  {
    hide Ordered;
  }

  /** The deadline is one timeout after the last batch, or the first push, exactly while
      some frame queued is as old as that; otherwise it is later, or there is none. */
  lemma DeadlineStands(m: Mux, t: int)
    requires Sound(m) && Timed(m.cfg) && m.lastBatch == Some(t)
    ensures AllIn(m.order, m.pads)
    ensures NextDeadline(m) == Some(t + m.cfg.timeoutUs * 1000) <==> exists i :: OldHead(m, t, i)
    ensures NextDeadline(m).Some? ==> NextDeadline(m).value >= t + m.cfg.timeoutUs * 1000
  {
    OldestIsHead(m.pads, m.order);
    if i :| OldHead(m, t, i) {
      Undone(m, i);
      OldestBelow(m.pads, m.order, i);
    }
    hide Oldest, Sound;
    if NextDeadline(m) == Some(t + m.cfg.timeoutUs * 1000) {
      var i :| i in m.pads && m.pads[i].queue != [] && m.pads[i].queue[0].recv == Oldest(m.pads, m.order).value;
      assert OldHead(m, t, i);
    }
  }

  // ---------------------------------------------------------------- one pad, one step

  /** A poll, if it is one, sends no batch. */
  ghost predicate Batchless(w: World, s: Step) {
    s.PollAt? && w.mux.WellFormed() ==> Poll(w.mux, s.now).picks == []
  }

  /** What a step that sends no batch does to a queue: nothing, a frame more, or, where
      the queue was full, a frame more and the oldest dropped. */
  ghost predicate PadStep(p: Pad, p': Pad, now: int) {
    || (p'.queue == p.queue && p'.dropped == p.dropped)
    || (p'.queue != [] && p'.queue[|p'.queue| - 1].recv == now &&
        ((p'.queue == p.queue + [p'.queue[|p'.queue| - 1]] && p'.dropped == p.dropped) ||
         (|p.queue| >= p.depth >= 1 && p'.queue == p.queue[1..] + [p'.queue[|p'.queue| - 1]] && p'.dropped == p.dropped + 1)))
  }

  /** Pad `i` goes on as a pad. */
  ghost predicate GoesOn(m: Mux, m': Mux, i: int, now: int) {
    && i in m.pads && i in m'.pads && PadStep(m.pads[i], m'.pads[i], now)
    && (m.cfg.BlocksWhenFull() ==> m'.pads[i].dropped == m.pads[i].dropped)
  }

  lemma PushPadStep(cfg: MuxConfig, p: Pad, a: Arrival, duration: int, now: int)
    requires p.depth >= 1
    ensures var p' := PushPad(cfg, p, a, duration, now).pad;
            PadStep(p, p', now) && (cfg.BlocksWhenFull() ==> p'.dropped == p.dropped)
  {
  }

  lemma PushGoesOn(m: Mux, j: int, a: Arrival, duration: int, now: int, i: int)
    requires m.WellFormed() && i in m.pads
    ensures GoesOn(m, Push(m, j, a, duration, now).0.mux, i, now)
  {
    if j in m.pads {
      PushPadStep(m.cfg, m.pads[j], a, duration, now);
    }
    hide PushPad, Mux.WellFormed;
  }

  lemma PollGoesOn(m: Mux, now: int, i: int)
    requires Sound(m) && !m.cfg.syncInputs && i in m.pads && Poll(m, now).picks == []
    ensures GoesOn(m, Poll(m, now).mux, i, now)
  {
    var m0 := m.(pending := []);
    SoundFlushed(m, m0);
    hide PollBody, Sound;
    BodyGoesOn(m0, now, i);
  }

  lemma BodyGoesOn(m: Mux, now: int, i: int)
    requires Sound(m) && !m.cfg.syncInputs && i in m.pads && PollBody(m, now).picks == []
    ensures GoesOn(m, PollBody(m, now).mux, i, now)
  {
    var e1 := EosStage(m);
    EosStageSound(m);
    EosStagePad(m, i);
    hide EosStage, Sound;
    BatchStagePad(e1.mux, now, i);
    hide BatchStage;
    EndStageKeeps(BatchStage(e1.mux, now).mux);
    hide EndStage;
  }

  lemma EosStagePad(m: Mux, i: int)
    requires AllIn(m.order, m.pads) && i in m.pads
    ensures var p := EosStage(m).mux.pads[i]; p.queue == m.pads[i].queue && p.dropped == m.pads[i].dropped
  {
    hide EosNotices;
    assert EosStage(m).mux.pads[i] == ClosePad(m.cfg, m.pads[i]);
  }

  lemma BatchStagePad(m: Mux, now: int, i: int)
    requires Sound(m) && !m.cfg.syncInputs && i in m.pads && BatchStage(m, now).picks == []
    ensures BatchStage(m, now).mux.pads[i] == m.pads[i]
  {
    FormKeepsPads(m, now, i);
    hide Form, EmitMux, EmitBatch, On, Sound;
  }

  lemma OtherGoesOn(m: Mux, s: Step, i: int, now: int)
    requires m.WellFormed() && (s.ResumeAt? ==> CanResume(m, s.pad) && now == s.now) && i in m.pads
    requires s != Remove(i) && !s.PollAt? && !s.PushAt?
    ensures GoesOn(m, MuxAfter(m, s), i, now)
  {
    hide Poll, Push, Without, NewPad, Tagged, Mux.WellFormed;
  }

  lemma NextClock(w: World, s: Step)
    requires w.mux.WellFormed() && w.hist.Keys == w.mux.pads.Keys && Enabled(w, s)
    ensures Next(w, s).clock == if s.PushAt? || s.ResumeAt? || s.PollAt? || s.StartAt? then s.now else w.clock
  {
    hide Poll, Push, Mux.WellFormed, PushHistory, RemovePad, Resume, AddPad, PushEos;
  }

  lemma StepGoesOn(w: World, s: Step, w': World, i: int)
    requires Inv(w) && Follows(w, s, w') && !w.mux.cfg.syncInputs && i in w.mux.pads && Batchless(w, s) && s != Remove(i)
    ensures GoesOn(w.mux, w'.mux, i, w'.clock)
  {
    NextMux(w, s);
    NextClock(w, s);
    InvIsSound(w);
    hide Poll, Push, Sound, Inv, Next, GoesOn;
    if s.PollAt? {
      PollGoesOn(w.mux, s.now, i);
    } else if s.PushAt? {
      PushGoesOn(w.mux, s.pad, s.arrival, s.duration, s.now, i);
    } else {
      OtherGoesOn(w.mux, s, i, w'.clock);
    }
  }

  /** A pad that a step brings has nothing queued; one that it removes is gone. */
  lemma StepBrings(w: World, s: Step, w': World, i: int)
    requires Inv(w) && Follows(w, s, w') && i in w'.mux.pads
    ensures s != Remove(i)
    ensures i !in w.mux.pads ==> w'.mux.pads[i].queue == []
  {
    NextMux(w, s);
    InvIsSound(w);
    hide Sound, Inv, Next, Follows;
    if s.PollAt? {
      PollSetsTimer(w.mux, s.now);
      hide Poll;
    } else {
      hide Poll;
      OtherBrings(w.mux, s, i);
    }
  }

  lemma OtherBrings(m: Mux, s: Step, i: int)
    requires m.WellFormed() && (s.ResumeAt? ==> CanResume(m, s.pad)) && !s.PollAt? && i in MuxAfter(m, s).pads
    ensures s != Remove(i)
    ensures i !in m.pads ==> MuxAfter(m, s).pads[i].queue == []
  {
    hide Poll, PushPad, Without, Tagged, Mux.WellFormed;
  }

  /** The timer of a mux that has sent or received something. */
  ghost predicate SameTimer(m: Mux, m': Mux) {
    m'.cfg == m.cfg && m'.lastBatch == m.lastBatch && m'.firstPush == m.firstPush
  }

  lemma PollKeepsStart(m: Mux, now: int)
    requires m.WellFormed()
    ensures Poll(m, now).mux.firstPush == m.firstPush
  {
    hide Form, EosNotices, OutputPts, FrameDuration, EmitBatch, On;
  }

  lemma StepKeepsTimer(w: World, s: Step, w': World)
    requires Inv(w) && Follows(w, s, w') && Batchless(w, s) && w.mux.firstPush.Some?
    ensures SameTimer(w.mux, w'.mux)
  {
    NextMux(w, s);
    hide Inv, Next;
    if s.PollAt? {
      PollSetsTimer(w.mux, s.now);
      PollKeepsStart(w.mux, s.now);
      hide Poll, Mux.WellFormed;
    } else {
      hide Poll, PushPad, Without, Tagged, Mux.WellFormed, NewPad;
    }
  }

  // ---------------------------------------------------------------- one pad over a run

  /** What is left of `p0` on `p`: as many frames fewer as were dropped. */
  ghost predicate Drops(p0: Pad, p: Pad) {
    && p.dropped >= p0.dropped
    && p0.queue[Min(p.dropped - p0.dropped, |p0.queue|)..] <= p.queue
  }

  /** Everything behind that came after `t`. */
  ghost predicate RestAfter(p0: Pad, p: Pad, t: int) {
    forall x :: |p0.queue| - Min(p.dropped - p0.dropped, |p0.queue|) <= x < |p.queue| ==> 0 <= x && p.queue[x].recv > t
  }

  lemma DropsOn(p0: Pad, p: Pad, p': Pad, now: int)
    requires Drops(p0, p) && PadStep(p, p', now)
    ensures Drops(p0, p')
    ensures forall t :: t < now && RestAfter(p0, p, t) ==> RestAfter(p0, p', t)
  {
    var n := |p'.queue| - 1;
    var d := Min(p.dropped - p0.dropped, |p0.queue|);
    assert p0.queue[d..] == p.queue[..|p0.queue| - d];
    if p'.dropped == p.dropped + 1 {
      assert forall x :: 0 <= x < n ==> p'.queue[x] == p.queue[x + 1];
    }
  }

  /** No step from `b` up to `k` removes pad `i`. */
  ghost predicate Stays(steps: seq<Step>, b: nat, k: nat, i: int) {
    forall j :: b <= j < k && j < |steps| ==> steps[j] != Remove(i)
  }

  ghost predicate Quietly(ws: seq<World>, steps: seq<Step>, b: nat, k: nat) {
    |ws| == |steps| + 1 && k < |ws| && forall j :: b <= j < k ==> Batchless(ws[j], steps[j])
  }

  lemma {:induction false} PadAlong(ws: seq<World>, steps: seq<Step>, b: nat, k: nat, i: int, t: int)
    requires Run(ws, steps) && Inv(ws[0]) && b <= k && Quietly(ws, steps, b, k)
    requires Timed(ws[b].mux.cfg) && ws[b].mux.firstPush.Some? && i in ws[b].mux.pads && Stays(steps, b, k, i)
    ensures i in ws[k].mux.pads && Drops(ws[b].mux.pads[i], ws[k].mux.pads[i])
    ensures (forall j :: b < j <= k ==> ws[j].clock > t) ==> RestAfter(ws[b].mux.pads[i], ws[k].mux.pads[i], t)
    ensures ws[b].mux.cfg.BlocksWhenFull() ==> ws[k].mux.pads[i].dropped == ws[b].mux.pads[i].dropped
  {
    hide Inv, Follows, Batchless;
    if k > b {
      PadAlong(ws, steps, b, k - 1, i, t);
      TimerAlong(ws, steps, b, k - 1);
      RunKeepsInv(ws, steps, k - 1);
      assert Follows(ws[k - 1], steps[k - 1], ws[k]);
      StepGoesOn(ws[k - 1], steps[k - 1], ws[k], i);
      hide PadStep, Drops, RestAfter;
      DropsOn(ws[b].mux.pads[i], ws[k - 1].mux.pads[i], ws[k].mux.pads[i], ws[k].clock);
    }
  }

  lemma {:induction false} TimerAlong(ws: seq<World>, steps: seq<Step>, b: nat, k: nat)
    requires Run(ws, steps) && Inv(ws[0]) && b <= k && Quietly(ws, steps, b, k) && ws[b].mux.firstPush.Some?
    ensures SameTimer(ws[b].mux, ws[k].mux)
  {
    hide Inv, Follows, Batchless;
    if k > b {
      TimerAlong(ws, steps, b, k - 1);
      RunKeepsInv(ws, steps, k - 1);
      StepKeepsTimer(ws[k - 1], steps[k - 1], ws[k]);
    }
  }

  ghost predicate AllAfter(q: seq<Queued>, t: int) {
    forall x :: 0 <= x < |q| ==> q[x].recv > t
  }

  /** A pad that is not one of those at `b` has only frames that came since. */
  lemma {:induction false} StrangerAlong(ws: seq<World>, steps: seq<Step>, b: nat, k: nat, i: int, t: int)
    requires Run(ws, steps) && Inv(ws[0]) && b <= k && Quietly(ws, steps, b, k)
    requires Timed(ws[b].mux.cfg) && ws[b].mux.firstPush.Some? && (forall j :: b < j <= k ==> ws[j].clock > t)
    requires i in ws[k].mux.pads && (i !in ws[b].mux.pads || !Stays(steps, b, k, i))
    ensures AllAfter(ws[k].mux.pads[i].queue, t)
  {
    hide Inv, Follows, Batchless;
    if k > b {
      RunKeepsInv(ws, steps, k - 1);
      assert Follows(ws[k - 1], steps[k - 1], ws[k]);
      StepBrings(ws[k - 1], steps[k - 1], ws[k], i);
      if i in ws[k - 1].mux.pads {
        assert Stays(steps, b, k - 1, i) ==> Stays(steps, b, k, i);
        StrangerAlong(ws, steps, b, k - 1, i, t);
        TimerAlong(ws, steps, b, k - 1);
        StepGoesOn(ws[k - 1], steps[k - 1], ws[k], i);
        AfterOn(ws[k - 1].mux.pads[i], ws[k].mux.pads[i], ws[k].clock, t);
      }
    }
  }

  lemma AfterOn(p: Pad, p': Pad, now: int, t: int)
    requires PadStep(p, p', now) && AllAfter(p.queue, t) && now > t
    ensures AllAfter(p'.queue, t)
  {
  }

  // ---------------------------------------------------------------- the cadence

  /** Pad `i`, there since `b`, has dropped fewer frames since than it had queued then. */
  ghost predicate LeftOver(ws: seq<World>, steps: seq<Step>, b: nat, k: nat, i: int) {
    && b < |ws| && k < |ws| && i in ws[b].mux.pads && i in ws[k].mux.pads && Stays(steps, b, k, i)
    && ws[k].mux.pads[i].dropped - ws[b].mux.pads[i].dropped < |ws[b].mux.pads[i].queue|
  }

  lemma LeftOverHead(p0: Pad, p: Pad, t: int)
    requires Drops(p0, p) && ArrivedBy(p0.queue, t) && p.dropped - p0.dropped < |p0.queue|
    ensures p.queue != [] && p.queue[0].recv <= t
  {
    var d := p.dropped - p0.dropped;
    assert p0.queue[d..][0] == p0.queue[d];
    assert p.queue[0] == p0.queue[d];
  }

  lemma OldHeadLeft(p0: Pad, p: Pad, t: int)
    requires Drops(p0, p) && RestAfter(p0, p, t) && p.queue != [] && p.queue[0].recv <= t
    ensures p.dropped - p0.dropped < |p0.queue|
  {
  }

  lemma WasThere(w: World, t: int, i: int)
    requires Inv(w) && w.clock <= t && i in w.mux.pads
    ensures ArrivedBy(w.mux.pads[i].queue, t)
    ensures w.mux.pads[i].queue != [] ==> w.mux.firstPush.Some?
  {
    assert PadOk(w.mux.cfg, w.mux.pads[i], w.hist[i], w.clock);
  }

  /** Under a timer, for either kind of queue and whatever happens meanwhile: let world
      `b` be one at time `t` in which the last batch, or else the first push, is of time
      `t`. Until the next batch the deadline stands one timeout after `t` while some pad
      has dropped fewer frames since `b` than it had queued there. If `b` is the last
      world at time `t`, then only so long; after that it is later, or there is none. */
  lemma CadenceExactly(cfg: MuxConfig, ws: seq<World>, steps: seq<Step>, b: nat, k: nat, t: int)
    requires RunFrom(cfg, ws, steps) && b <= k && Quietly(ws, steps, b, k)
    requires Timed(ws[b].mux.cfg) && ws[b].mux.lastBatch == Some(t) && ws[b].mux.firstPush.Some? && ws[b].clock == t
    ensures ws[k].mux.WellFormed() && ws[k].mux.cfg == ws[b].mux.cfg
    ensures (exists i :: LeftOver(ws, steps, b, k, i)) ==>
              NextDeadline(ws[k].mux) == Some(t + ws[b].mux.cfg.timeoutUs * 1000)
    ensures (forall j :: b < j <= k ==> ws[j].clock > t) ==>
              (NextDeadline(ws[k].mux) == Some(t + ws[b].mux.cfg.timeoutUs * 1000) <==> exists i :: LeftOver(ws, steps, b, k, i))
    ensures NextDeadline(ws[k].mux).Some? ==> NextDeadline(ws[k].mux).value >= t + ws[b].mux.cfg.timeoutUs * 1000
  {
    hide *;
    QuietlyIn(ws, steps, b, k);
    RunsWell(cfg, ws, steps, b, k);
    TimerAlong(ws, steps, b, k);
    SameTimerMeans(ws[b].mux, ws[k].mux);
    DeadlineStands(ws[k].mux, t);
    if i :| LeftOver(ws, steps, b, k, i) {
      LeftOverIsOld(ws, steps, b, k, t, i);
    }
    if (forall j :: b < j <= k ==> ws[j].clock > t) {
      if i :| OldHead(ws[k].mux, t, i) {
        OldIsLeftOver(ws, steps, b, k, t, i);
      }
    }
  }

  lemma SameTimerMeans(m: Mux, m': Mux)
    requires SameTimer(m, m')
    ensures m'.cfg == m.cfg && m'.lastBatch == m.lastBatch && m'.firstPush == m.firstPush
  {
  }

  lemma RunsWell(cfg: MuxConfig, ws: seq<World>, steps: seq<Step>, b: nat, k: nat)
    requires RunFrom(cfg, ws, steps) && b < |ws| && k < |ws|
    ensures Run(ws, steps) && Inv(ws[0]) && Inv(ws[b]) && Inv(ws[k]) && Sound(ws[k].mux) && ws[k].mux.WellFormed()
  {
    EveryRunIsAccountedFor(cfg, ws, steps, 0);
    EveryRunIsAccountedFor(cfg, ws, steps, b);
    EveryRunIsAccountedFor(cfg, ws, steps, k);
    hide Inv, AccountedFor, Run;
    InvIsSound(ws[k]);
    InvBasics(ws[k]);
  }

  lemma LeftOverIsOld(ws: seq<World>, steps: seq<Step>, b: nat, k: nat, t: int, i: int)
    requires Run(ws, steps) && Inv(ws[0]) && b <= k && Quietly(ws, steps, b, k) && Inv(ws[b])
    requires Timed(ws[b].mux.cfg) && ws[b].mux.firstPush.Some? && ws[b].clock == t && LeftOver(ws, steps, b, k, i)
    ensures OldHead(ws[k].mux, t, i)
  {
    hide Run, Inv, Quietly, Stays, Timed;
    PadAlong(ws, steps, b, k, i, t);
    WasThere(ws[b], t, i);
    hide Drops, RestAfter, ArrivedBy;
    LeftOverHead(ws[b].mux.pads[i], ws[k].mux.pads[i], t);
  }

  lemma OldIsLeftOver(ws: seq<World>, steps: seq<Step>, b: nat, k: nat, t: int, i: int)
    requires Run(ws, steps) && Inv(ws[0]) && b <= k && Quietly(ws, steps, b, k)
    requires Timed(ws[b].mux.cfg) && ws[b].mux.firstPush.Some? && (forall j :: b < j <= k ==> ws[j].clock > t)
    requires OldHead(ws[k].mux, t, i) && k < |ws|
    ensures LeftOver(ws, steps, b, k, i)
  {
    hide Run, Inv, Quietly, Stays, Timed;
    if i !in ws[b].mux.pads || !Stays(steps, b, k, i) {
      StrangerAlong(ws, steps, b, k, i, t);
      assert false;
    } else {
      PadAlong(ws, steps, b, k, i, t);
      hide Drops, RestAfter;
      OldHeadLeft(ws[b].mux.pads[i], ws[k].mux.pads[i], t);
    }
  }

  /** The last world before `k` that still has the time of world `b`. */
  lemma {:induction false} LastMoment(ws: seq<World>, steps: seq<Step>, b: nat, k: nat) returns (l: nat)
    requires Run(ws, steps) && b <= k < |ws|
    ensures b <= l <= k && ws[l].clock == ws[b].clock && forall j :: l < j <= k ==> ws[j].clock > ws[b].clock
    decreases k - b
  {
    hide Follows;
    l := b;
    if b < k {
      assert Follows(ws[b], steps[b], ws[b + 1]);
      ClockGoesOn(ws[b], steps[b], ws[b + 1]);
      var l' := LastMoment(ws, steps, b + 1, k);
      if ws[b + 1].clock == ws[b].clock {
        l := l';
      } else {
        ClocksGoOn(ws, steps, b + 1, k);
      }
    }
  }

  lemma ClockGoesOn(w: World, s: Step, w': World)
    requires Follows(w, s, w')
    ensures w.clock <= w'.clock
  {
    NextClock(w, s);
    hide Next, Mux.WellFormed, CanResume;
  }

  lemma {:induction false} ClocksGoOn(ws: seq<World>, steps: seq<Step>, b: nat, k: nat)
    requires Run(ws, steps) && b <= k < |ws|
    ensures forall j :: b <= j <= k ==> ws[b].clock <= ws[j].clock
  {
    hide Follows;
    if b < k {
      ClocksGoOn(ws, steps, b, k - 1);
      assert Follows(ws[k - 1], steps[k - 1], ws[k]);
      ClockGoesOn(ws[k - 1], steps[k - 1], ws[k]);
    }
  }

  /** A batch at `t` leaves a world at `t` whose timer starts there. */
  lemma BatchStarts(w: World, s: Step, w': World, t: int)
    requires Inv(w) && Follows(w, s, w') && s == PollAt(t) && w.mux.WellFormed() && !w.mux.cfg.syncInputs && Poll(w.mux, t).picks != []
    ensures w'.mux.lastBatch == Some(t) && w'.mux.firstPush.Some? && w'.clock == t && w'.mux.cfg == w.mux.cfg
  {
    NextMux(w, s);
    NextClock(w, s);
    PollSetsTimer(w.mux, t);
    PollKeepsStart(w.mux, t);
    BatchNeedsPush(w, t);
    hide Poll, Inv, Next, Mux.WellFormed;
  }

  /** What a batch takes was queued, so something had been pushed. */
  lemma BatchNeedsPush(w: World, t: int)
    requires Inv(w) && w.clock <= t && w.mux.WellFormed() && !w.mux.cfg.syncInputs && Poll(w.mux, t).picks != []
    ensures w.mux.firstPush.Some?
  {
    hide Poll, Inv, Sound;
    InvIsSound(w);
    var x := Poll(w.mux, t).picks[0];
    PollPicksIn(w.mux, t);
    OnMember(Poll(w.mux, t).picks, x.pad, x.q);
    PollTakes(w.mux, t, x.pad);
    WasThere(w, t, x.pad);
  }

  lemma PollPicksIn(m: Mux, now: int)
    requires m.WellFormed()
    ensures PicksIn(m.pads, Poll(m, now).picks)
  {
    var e1 := EosStage(m.(pending := []));
    BatchStageKeeps(e1.mux, now);
    hide BatchStage, EosNotices, Mux.WellFormed;
  }

  /** Under a timer and with producers that wait for room: after a batch at `t` that
      leaves frames on pad `i`, the deadline is one timeout after `t`, and stays there
      until the next batch, whatever else happens to any pad. */
  lemma CadenceOverRuns(cfg: MuxConfig, ws: seq<World>, steps: seq<Step>, a: nat, k: nat, t: int, i: int)
    requires RunFrom(cfg, ws, steps) && |ws| == |steps| + 1 && a < k < |ws| && steps[a] == PollAt(t)
    requires Timed(ws[a].mux.cfg) && ws[a].mux.cfg.BlocksWhenFull()
    requires ws[a].mux.WellFormed() && Poll(ws[a].mux, t).picks != [] && Waiting(ws[a + 1].mux, i)
    requires Quietly(ws, steps, a + 1, k) && Stays(steps, a + 1, k, i)
    ensures ws[k].mux.WellFormed() && NextDeadline(ws[k].mux) == Some(t + ws[a].mux.cfg.timeoutUs * 1000)
  {
    hide *;
    RunsWell(cfg, ws, steps, a, k);
    RunStep(ws, steps, a);
    NoSync(ws[a].mux.cfg);
    BatchStarts(ws[a], steps[a], ws[a + 1], t);
    WaitingIs(ws[a + 1].mux, i);
    PadAlong(ws, steps, a + 1, k, i, t);
    MakesLeftOver(ws, steps, a + 1, k, i);
    CadenceExactly(cfg, ws, steps, a + 1, k, t);
  }

  lemma RunStep(ws: seq<World>, steps: seq<Step>, a: nat)
    requires Run(ws, steps) && a < |steps|
    ensures |ws| == |steps| + 1 && Follows(ws[a], steps[a], ws[a + 1])
  {
    hide Follows;
  }

  lemma NoSync(cfg: MuxConfig)
    requires Timed(cfg)
    ensures !cfg.syncInputs
  {
  }

  lemma WaitingIs(m: Mux, i: int)
    requires Waiting(m, i)
    ensures i in m.pads && m.pads[i].queue != []
  {
  }

  lemma MakesLeftOver(ws: seq<World>, steps: seq<Step>, b: nat, k: nat, i: int)
    requires b < |ws| && k < |ws| && i in ws[b].mux.pads && i in ws[k].mux.pads && Stays(steps, b, k, i)
    requires ws[k].mux.pads[i].dropped == ws[b].mux.pads[i].dropped && ws[b].mux.pads[i].queue != []
    ensures LeftOver(ws, steps, b, k, i)
  {
  }

  /** So the cadence is kept exactly so long: a poll one timeout after the batch sends the
      next one if some frame is left over from it, and otherwise only a batch that is full. */
  lemma NextBatchInTime(cfg: MuxConfig, ws: seq<World>, steps: seq<Step>, b: nat, k: nat, t: int)
    requires RunFrom(cfg, ws, steps) && b <= k && Quietly(ws, steps, b, k) && Prompt(ws[b].mux.cfg)
    requires Timed(ws[b].mux.cfg) && ws[b].mux.lastBatch == Some(t) && ws[b].mux.firstPush.Some? && ws[b].clock == t
    ensures ws[k].mux.WellFormed()
    ensures var (m, now) := (ws[k].mux, t + ws[b].mux.cfg.timeoutUs * 1000);
            var e := EosStage(m.(pending := [])).mux;
            && AllIn(e.order, e.pads)
            && ((exists i :: LeftOver(ws, steps, b, k, i)) ==> Poll(m, now).picks != [])
            && ((forall j :: b < j <= k ==> ws[j].clock > t) && Poll(m, now).picks != [] ==>
                  (exists i :: LeftOver(ws, steps, b, k, i)) || |Poll(m, now).picks| >= Target(e))
  {
    hide *;
    QuietlyIn(ws, steps, b, k);
    RunsWell(cfg, ws, steps, b, k);
    CadenceExactly(cfg, ws, steps, b, k, t);
    DeadlineDecides(ws[k].mux, t + ws[b].mux.cfg.timeoutUs * 1000);
    DueIs(ws[k].mux, t + ws[b].mux.cfg.timeoutUs * 1000);
  }

  lemma QuietlyIn(ws: seq<World>, steps: seq<Step>, b: nat, k: nat)
    requires b <= k && Quietly(ws, steps, b, k)
    ensures b <= k < |ws|
  {
    hide Batchless;
  }

  lemma DueIs(m: Mux, now: int)
    requires AllIn(m.order, m.pads)
    ensures Due(m, now) <==> NextDeadline(m).Some? && now >= NextDeadline(m).value
  {
    hide NextDeadline;
  }

  /** With a queue that drops its oldest frame instead the deadline can move: here the
      push takes the frame whose wait set it. */
  lemma DroppingMovesDeadline(m: Mux, i: int, a: Arrival, now: int, t: int)
    requires m.WellFormed() && m.cfg.policy == Legacy && m.cfg.timeoutUs >= 0 && !m.cfg.BlocksWhenFull()
    requires m.order == [i] && i in m.pads && !Refuses(m.pads[i]) && |m.pads[i].queue| == m.pads[i].depth >= 2
    requires m.lastBatch == Some(t) && m.firstPush.Some? && m.pads[i].queue[0].recv <= t < m.pads[i].queue[1].recv
    ensures NextDeadline(m) == Some(t + m.cfg.timeoutUs * 1000)
    ensures var m' := Push(m, i, a, 0, now).0.mux;
            AllIn(m'.order, m'.pads) && NextDeadline(m') == Some(m.pads[i].queue[1].recv + m.cfg.timeoutUs * 1000)
  {
    var m' := Push(m, i, a, 0, now).0.mux;
    OnlyHead(m, i);
    var p := RecordPad(m.pads[i], a.pts, 0);
    assert m'.pads[i] == Append(p.(queue := p.queue[1..], dropped := p.dropped + 1), a, now);
    assert m'.pads[i].queue[0] == m.pads[i].queue[1] && !m'.pads[i].Done();
    OnlyHead(m', i);
    hide Push, Oldest;
  }

  lemma OnlyHead(m: Mux, i: int)
    requires m.order == [i] && i in m.pads && m.pads[i].queue != [] && !m.pads[i].Done()
    ensures Oldest(m.pads, m.order) == Some(m.pads[i].queue[0].recv)
  {
    assert [i][..0] == [];
  }
}
