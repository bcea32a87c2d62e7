/** `drain` ends: every poll that puts something out shrinks what is left to put
    out, whatever the policy and the settings. */
module MuxDrain {
  import opened MuxTypes
  import opened MuxSpec
  import opened BatchSplit
  import opened LegacyBatch

  /** What the mux needs to work through its queues. */
  ghost predicate Sound(m: Mux) {
    && m.WellFormed() && OrderedQueues(m)
    && (forall i :: i in m.pads && m.pads[i].eos ==> m.pads[i].queue == [])
  }

  function TotalQueued(pads: map<int, Pad>, ids: seq<int>): nat
    requires AllIn(ids, pads)
  {
    if ids == [] then 0
    else
      var n := |ids| - 1;
      TotalQueued(pads, ids[..n]) + |pads[ids[n]].queue|
  }

  /** Pending events, queued frames, pads not at their end, and the end itself. */
  function Left(m: Mux): nat
    requires AllIn(m.order, m.pads)
  {
    |m.pending| + TotalQueued(m.pads, m.order) + OpenPads(m.pads, m.order) + (if m.eosSent then 0 else 1)
  }

  // ---------------------------------------------------------------- sums over the pads

  lemma {:induction false} TotalShrinks(pads: map<int, Pad>, pads': map<int, Pad>, ids: seq<int>)
    requires AllIn(ids, pads) && AllIn(ids, pads')
    requires forall k :: 0 <= k < |ids| ==> |pads'[ids[k]].queue| <= |pads[ids[k]].queue|
    ensures TotalQueued(pads', ids) <= TotalQueued(pads, ids)
    ensures (exists k :: 0 <= k < |ids| && |pads'[ids[k]].queue| < |pads[ids[k]].queue|) ==>
              TotalQueued(pads', ids) < TotalQueued(pads, ids)
  {
    if ids != [] {
      var n := |ids| - 1;
      forall k | 0 <= k < n ensures |pads'[ids[..n][k]].queue| <= |pads[ids[..n][k]].queue| {
        assert ids[..n][k] == ids[k];
      }
      TotalShrinks(pads, pads', ids[..n]);
      if k :| 0 <= k < |ids| && |pads'[ids[k]].queue| < |pads[ids[k]].queue| {
        assert k < n ==> ids[..n][k] == ids[k];
      }
    }
  }

  lemma {:induction false} OpenSame(pads: map<int, Pad>, pads': map<int, Pad>, ids: seq<int>)
    requires AllIn(ids, pads) && AllIn(ids, pads')
    requires forall k :: 0 <= k < |ids| ==> pads'[ids[k]].eos == pads[ids[k]].eos
    ensures OpenPads(pads', ids) == OpenPads(pads, ids)
  {
    if ids != [] {
      var n := |ids| - 1;
      assert forall k :: 0 <= k < n ==> ids[..n][k] == ids[k];
      OpenSame(pads, pads', ids[..n]);
    }
  }

  /** Every stream-eos notice closes one open pad. */
  lemma {:induction false} NoticesClose(cfg: MuxConfig, pads: map<int, Pad>, pads': map<int, Pad>, ids: seq<int>)
    requires AllIn(ids, pads) && AllIn(ids, pads')
    requires forall k :: 0 <= k < |ids| ==> pads'[ids[k]] == ClosePad(cfg, pads[ids[k]])
    ensures OpenPads(pads', ids) + |EosNotices(pads, ids)| == OpenPads(pads, ids)
    ensures TotalQueued(pads', ids) == TotalQueued(pads, ids)
  {
    if ids != [] {
      var n := |ids| - 1;
      assert forall k :: 0 <= k < n ==> ids[..n][k] == ids[k];
      NoticesClose(cfg, pads, pads', ids[..n]);
    }
  }

  // ---------------------------------------------------------------- stages

  lemma EosStageSound(m: Mux)
    requires Sound(m)
    ensures Sound(EosStage(m).mux)
  {
    hide EosNotices;
    assert forall i :: i in m.pads ==> EosStage(m).mux.pads[i] == ClosePad(m.cfg, m.pads[i]);
  }

  lemma EosStageLeft(m: Mux)
    requires Sound(m)
    ensures Left(EosStage(m).mux) + |EosStage(m).outs| == Left(m)
  {
    assert forall k :: 0 <= k < |m.order| ==> EosStage(m).mux.pads[m.order[k]] == ClosePad(m.cfg, m.pads[m.order[k]]);
    NoticesClose(m.cfg, m.pads, EosStage(m).mux.pads, m.order);
  }

  /** A pad through formation: its queue only loses frames, in order. */
  lemma SplitSound(sync: bool, p: Pad, p': Pad, late: seq<Queued>, taken: seq<Queued>)
    requires Split(sync, p, p', late, taken) && Ordered(p.queue) && (p.eos ==> p.queue == [])
    ensures Ordered(p'.queue) && |p'.queue| <= |p.queue| && (p'.eos ==> p'.queue == [])
    ensures p'.index == p.index && p'.depth == p.depth && p'.eos == p.eos
  {
    ThinnedOrdered(p.queue, p'.queue, late);
    ThinnedMultiset(p.queue, p'.queue, late);
    assert |multiset(p.queue)| == |multiset(p'.queue)| + |multiset(late)|;
  }

  lemma FormedSound(m: Mux, now: int, i: int)
    requires Sound(m) && i in m.pads
    ensures var p, p' := m.pads[i], Form(m, now).pads[i];
            && Ordered(p'.queue) && |p'.queue| <= |p.queue| && (p'.eos ==> p'.queue == [])
            && p'.index == p.index && p'.depth == p.depth && p'.eos == p.eos
    ensures On(Form(m, now).picks, i) <= Form(m, now).pads[i].queue
  {
    FormSplits(m, now);
    hide Form, On, Thinned;
    assert SplitAt(m, Form(m, now), i);
    SplitSound(m.cfg.syncInputs, m.pads[i], Form(m, now).pads[i], On(Form(m, now).late, i), On(Form(m, now).picks, i));
  }

  lemma TakeSound(p: Pad, n: nat, now: int)
    requires Ordered(p.queue) && n <= |p.queue| && (p.eos ==> p.queue == [])
    ensures var p' := TakeFrom(p, n, now);
            && Ordered(p'.queue) && |p'.queue| == |p.queue| - n && (p'.eos ==> p'.queue == [])
            && p'.index == p.index && p'.depth == p.depth && p'.eos == p.eos
  {
  }

  /** A pad through the whole batch stage. */
  lemma BatchPadSound(m: Mux, now: int, i: int)
    requires Sound(m) && i in m.pads
    ensures var e := BatchStage(m, now);
            var p, p' := m.pads[i], e.mux.pads[i];
            && Ordered(p'.queue) && |p'.queue| + |On(e.picks, i)| <= |p.queue| && (p'.eos ==> p'.queue == [])
            && p'.index == p.index && p'.depth == p.depth && p'.eos == p.eos
  {
    var f := Form(m, now);
    FormedSound(m, now, i);
    assert On([], i) == [];
    hide Form, On, OutputPts, FrameDuration, EmitBatch, Ordered, TakeFrom;
    if f.picks != [] && f.go {
      assert BatchStage(m, now).mux.pads[i] == TakeFrom(f.pads[i], |On(f.picks, i)|, now);
      TakeSound(f.pads[i], |On(f.picks, i)|, now);
    }
  }

  lemma BatchStageSound(m: Mux, now: int, e: Effect)
    requires Sound(m) && e == BatchStage(m, now)
    ensures Sound(e.mux)
  {
    hide BatchStage, Ordered, On;
    forall i | i in m.pads
      ensures Ordered(e.mux.pads[i].queue) && (e.mux.pads[i].eos ==> e.mux.pads[i].queue == [])
      ensures e.mux.pads[i].index == m.pads[i].index && e.mux.pads[i].depth == m.pads[i].depth
    {
      BatchPadSound(m, now, i);
    }
  }

  lemma BatchStageKeeps(m: Mux, now: int)
    requires m.cfg.overallMaxFps > 0.0 && AllIn(m.order, m.pads)
    ensures BatchStage(m, now).mux.pending == m.pending && BatchStage(m, now).mux.eosSent == m.eosSent
    ensures |BatchStage(m, now).outs| > 0 ==> BatchStage(m, now).picks != []
    ensures PicksIn(m.pads, BatchStage(m, now).picks)
  {
    hide Form, OutputPts, FrameDuration, EmitBatch, On;
  }

  lemma BatchStageLeft(m: Mux, now: int, e: Effect)
    requires Sound(m) && e == BatchStage(m, now)
    ensures Left(e.mux) <= Left(m) && (e.outs != [] ==> Left(e.mux) < Left(m))
  {
    BatchStageKeeps(m, now);
    hide BatchStage, On, Ordered;
    forall k | 0 <= k < |m.order|
      ensures |e.mux.pads[m.order[k]].queue| + |On(e.picks, m.order[k])| <= |m.pads[m.order[k]].queue|
      ensures e.mux.pads[m.order[k]].eos == m.pads[m.order[k]].eos
    {
      BatchPadSound(m, now, m.order[k]);
    }
    OpenSame(m.pads, e.mux.pads, m.order);
    TotalShrinks(m.pads, e.mux.pads, m.order);
    if e.picks != [] {
      var last := e.picks[|e.picks| - 1];
      OnMember(e.picks, last.pad, last.q);
      var k :| 0 <= k < |m.order| && m.order[k] == last.pad;
      assert |e.mux.pads[m.order[k]].queue| < |m.pads[m.order[k]].queue|;
    }
  }

  lemma EndStageLeft(m: Mux)
    requires Sound(m)
    ensures Sound(EndStage(m).mux)
    ensures Left(EndStage(m).mux) + |EndStage(m).outs| == Left(m)
  {
    hide Ordered;
  }

  lemma BodyShrinks(m: Mux, now: int, e: Effect)
    requires Sound(m) && e == PollBody(m, now)
    ensures Sound(e.mux) && Left(e.mux) <= Left(m) && (e.outs != [] ==> Left(e.mux) < Left(m))
  {
    EosStageSound(m);
    EosStageLeft(m);
    hide Sound, Left, EosStage, BatchStage, EndStage;
    var e1 := EosStage(m);
    assert AllIn(e1.mux.order, e1.mux.pads);
    var e2 := BatchStage(e1.mux, now);
    BatchStageSound(e1.mux, now, e2);
    BatchStageLeft(e1.mux, now, e2);
    var e3 := if e2.picks != [] then EosStage(e2.mux) else Effect(e2.mux, [], [], []);
    if e2.picks != [] {
      EosStageSound(e2.mux);
      EosStageLeft(e2.mux);
    }
    EndStageLeft(e3.mux);
  }

  /** A poll that puts anything out leaves less to put out. */
  lemma PollShrinks(m: Mux, now: int)
    requires Sound(m)
    ensures Sound(Poll(m, now).mux) && Left(Poll(m, now).mux) <= Left(m)
    ensures Poll(m, now).outs != [] ==> Left(Poll(m, now).mux) < Left(m)
  {
    var m0 := m.(pending := []);
    hide Ordered, PollBody;
    BodyShrinks(m0, now, PollBody(m0, now));
    assert Left(m) == Left(m0) + |m.pending|;
  }

  // ---------------------------------------------------------------- pending events come out first

  lemma SoundFlushed(m: Mux, m0: Mux)
    requires Sound(m) && m0 == m.(pending := [])
    ensures Sound(m0)
  {
  }

  lemma PollFlushes(m: Mux, m0: Mux, now: int)
    requires Sound(m) && AllIn(m.order, m.pads) && m.cfg.overallMaxFps > 0.0 && m0 == m.(pending := [])
    ensures Poll(m0, now) == Poll(m, now).(outs := Poll(m0, now).outs)
    ensures Poll(m, now).outs == Notices(m.pending) + Poll(m0, now).outs
  {
    hide *;
    assert AllIn(m0.order, m0.pads);
    PollIs(m, m0, now);
    PollIs(m0, m0, now);
    NoNotice();
  }

  lemma NoNotice()
    ensures Notices([]) == []
  {
  }

  lemma PollIs(m: Mux, m0: Mux, now: int)
    requires AllIn(m.order, m.pads) && m.cfg.overallMaxFps > 0.0 && m0 == m.(pending := [])
    ensures AllIn(m0.order, m0.pads)
    ensures Poll(m, now) == PollBody(m0, now).(outs := Notices(m.pending) + PollBody(m0, now).outs)
  {
    hide PollBody, Notices;
  }

  // ---------------------------------------------------------------- drain

  /** A clock that does not run backwards: `clock(k)` is the time its reading number `k` gives. */
  ghost predicate Forward(clock: nat -> int) {
    forall a: nat, b: nat :: a <= b ==> clock(a) <= clock(b)
  }

  /** `drain`: poll until nothing more comes out. Its polls are numbered from `k` on; each
      reads the clock again unless the caller gave a fixed instant, which is a clock that stands. */
  function Drain(m: Mux, clock: nat -> int, k: nat): Effect
    requires Sound(m)
    decreases Left(m)
  {
    PollShrinks(m, clock(k));
    var e := Poll(m, clock(k));
    if e.outs == [] then e
    else
      var r := Drain(e.mux, clock, k + 1);
      Effect(r.mux, e.outs + r.outs, e.lost + r.lost, e.picks + r.picks)
  }

  /** The number of the last poll of that drain. */
  function LastPoll(m: Mux, clock: nat -> int, k: nat): nat
    requires Sound(m)
    decreases Left(m)
  {
    PollShrinks(m, clock(k));
    var e := Poll(m, clock(k));
    if e.outs == [] then k else LastPoll(e.mux, clock, k + 1)
  }
}
