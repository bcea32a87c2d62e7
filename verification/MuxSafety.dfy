/** Every step of every run keeps the invariant, and what that means for the
    frames: order, conservation, and exact delivery when producers block. */
module MuxSafety {
  import opened Shared
  import opened MuxTypes
  import opened MuxSpec
  import opened BatchSplit
  import opened MuxRuns
  import opened PadLedger
  import opened MuxInvariant

  // ---------------------------------------------------------------- pads come and go

  lemma FreshPadOk(cfg: MuxConfig, i: int, source: Option<int>, scfg: Option<SourceConfig>, since: nat, clock: int)
    requires cfg.Valid()
    ensures PadOk(cfg, NewPad(cfg, i, source, scfg), EmptyHistory(since), clock)
  {
    assert UpTo(0) == [] && Seqs([]) == [];
  }

  lemma AddOk(w: World, i: int, source: Option<int>, scfg: Option<SourceConfig>)
    requires Inv(w)
    ensures Inv(Next(w, Add(i, source, scfg)))
  {
    hide PadOk, Settled;
    if i !in w.mux.pads {
      FreshPadOk(w.mux.cfg, i, source, scfg, |w.trace|, w.clock);
    }
  }

  lemma {:induction false} WithoutRemoves(s: seq<int>, x: int)
    requires Distinct(s)
    ensures Distinct(Without(s, x))
    ensures forall y :: y in Without(s, x) <==> y in s && y != x
  {
    if s != [] {
      assert s == [s[0]] + s[1..];
      if s[0] == x {
        assert forall k :: 0 < k < |s| ==> s[k] != x;
      } else {
        WithoutRemoves(s[1..], x);
        var r := Without(s[1..], x);
        forall k | 0 <= k < |r| ensures r[k] != s[0] {
          assert r[k] in r;
        }
      }
    }
  }

  lemma RemoveMuxOk(m: Mux, i: int, clock: int)
    requires MuxOk(m, clock) && i in m.pads
    ensures MuxOk(RemovePad(m, i).0.mux, clock)
  {
    WithoutRemoves(m.order, i);
    var m' := RemovePad(m, i).0.mux;
    assert forall k :: 0 <= k < |m'.order| ==> m'.order[k] in m'.order;
  }

  /** The frames still queued on a removed pad are closed: its ledger is settled. */
  lemma RemoveSettles(cfg: MuxConfig, p: Pad, h: History, clock: int)
    requires PadOk(cfg, p, h, clock)
    ensures Settled(Absorb(h, p.index, [], Tagged(p.index, p.queue), []))
  {
    OnTagged(p.index, p.queue, p.index);
    assert Seqs(On([], p.index)) == [];
    var s := h.emittedAt + Seqs(p.queue);
    forall a, b | 0 <= a < b < |h.emittedAt| ensures h.emittedAt[a] < h.emittedAt[b] {
      assert s[a] < s[b];
    }
  }

  lemma RemovePadsOk(cfg: MuxConfig, pads: map<int, Pad>, hist: map<int, History>, i: int, clock: int)
    requires PadsOk(cfg, pads, hist, clock)
    ensures PadsOk(cfg, pads - {i}, hist - {i}, clock)
  {
    hide PadOk;
    assert (pads - {i}).Keys == pads.Keys - {i} && (hist - {i}).Keys == hist.Keys - {i};
  }

  lemma RemoveOk(w: World, i: int)
    requires Inv(w)
    ensures Inv(NextRemove(w, i))
  {
    if i in w.mux.pads {
      RemoveMuxOk(w.mux, i, w.clock);
      RemoveSettles(w.mux.cfg, w.mux.pads[i], w.hist[i], w.clock);
      RemovePadsOk(w.mux.cfg, w.mux.pads, w.hist, i, w.clock);
      hide PadOk, PadsOk, Settled, MuxOk, Absorb, Tagged;
    }
  }

  // ---------------------------------------------------------------- producers

  /** One pad changes, and its ledger with it; the others only see time pass. */
  lemma OnePadOk(w: World, m: Mux, hist: map<int, History>, i: int, now: int)
    requires Inv(w) && w.clock <= now && i in w.mux.pads
    requires m.cfg == w.mux.cfg && m.pads.Keys == w.mux.pads.Keys && hist.Keys == w.hist.Keys
    requires forall j :: j in w.mux.pads && j != i ==> m.pads[j] == w.mux.pads[j] && hist[j] == w.hist[j]
    requires PadOk(m.cfg, m.pads[i], hist[i], now)
    ensures PadsOk(m.cfg, m.pads, hist, now)
  {
    hide PadOk;
    forall j | j in m.pads ensures PadOk(m.cfg, m.pads[j], hist[j], now) {
      if j != i {
        LaterOk(m.cfg, m.pads[j], w.hist[j], w.clock, now);
      }
    }
  }

  lemma PushPadOk(cfg: MuxConfig, p: Pad, h: History, a: Arrival, duration: int, clock: int, now: int)
    requires PadOk(cfg, p, h, clock) && clock <= now && p.depth >= 1 && !Refuses(p)
    ensures PadOk(cfg, PushPad(cfg, p, a, duration, now).pad, PushHistory(cfg, p, h, a, duration, now), now)
  {
    QueueFits(cfg, p, h, clock);
    RecordOk(cfg, p, h, a.pts, duration, clock);
    hide PadOk;
    var r := RecordPad(p, a.pts, duration);
    if |r.queue| < r.depth {
      AppendOk(cfg, r, h, a, now, clock);
      assert h.lostAt + Seqs([]) == h.lostAt;
    } else if cfg.BlocksWhenFull() {
      LaterOk(cfg, r, h, clock, now);
      WaitOk(cfg, r, h, a, now);
      assert h.lostAt + Seqs([]) == h.lostAt;
    } else {
      ReplaceOldestOk(cfg, r, h, a, now, clock);
      assert Seqs([r.queue[0]]) == [r.queue[0].seqNum];
    }
  }

  lemma ReplaceOldestOk(cfg: MuxConfig, p: Pad, h: History, a: Arrival, now: int, clock: int)
    requires PadOk(cfg, p, h, clock) && p.queue != [] && !p.eos && p.segmentSent && clock <= now
    ensures PadOk(cfg, Append(p.(queue := p.queue[1..], dropped := p.dropped + 1), a, now),
                  h.(lostAt := h.lostAt + [p.queue[0].seqNum], pushed := h.pushed + [Accept(a, now)]), now)
  {
    QueueFits(cfg, p, h, clock);
    hide PadOk;
    DropOldestOk(cfg, p, h, clock);
    AppendOk(cfg, p.(queue := p.queue[1..], dropped := p.dropped + 1),
             h.(lostAt := h.lostAt + [p.queue[0].seqNum]), a, now, clock);
  }

  /** Backpressure and drop-oldest both keep the queue within its depth. */
  lemma QueueFits(cfg: MuxConfig, p: Pad, h: History, clock: int)
    requires PadOk(cfg, p, h, clock)
    ensures |p.queue| <= p.depth
  {
  }

  lemma WaitOk(cfg: MuxConfig, p: Pad, h: History, a: Arrival, clock: int)
    requires PadOk(cfg, p, h, clock) && p.segmentSent && !p.eos && !p.eosPending
    ensures PadOk(cfg, p.(blocked := Some(a)), h, clock)
  {
  }

  /** A call that replaces one pad keeps the mux in order. */
  lemma ReplacePadMuxOk(m: Mux, m': Mux, i: int, p: Pad, clock: int, now: int)
    requires MuxOk(m, clock) && clock <= now && i in m.pads
    requires m'.cfg == m.cfg && m'.order == m.order && m'.pads == m.pads[i := p] && m'.eosSent == m.eosSent
    requires p.index == i && p.depth == m.pads[i].depth && p.eos == m.pads[i].eos
    requires m.firstPush.Some? ==> m'.firstPush.Some? && m'.lastBatch == m.lastBatch
    requires p.segmentSent ==> m'.firstPush.Some?
    requires m'.firstPush.Some? ==> m'.lastBatch.Some? && m'.base.Some?
    requires m'.lastBatch.Some? ==> m'.lastBatch.value <= now
    ensures MuxOk(m', now)
  {
  }

  lemma PushPadKeeps(cfg: MuxConfig, p: Pad, a: Arrival, duration: int, now: int)
    requires p.depth >= 1
    ensures var p' := PushPad(cfg, p, a, duration, now).pad;
            p'.index == p.index && p'.depth == p.depth && p'.eos == p.eos && p'.segmentSent && p'.sourceId == p.sourceId
  {
  }

  lemma PushMuxOk(m: Mux, i: int, a: Arrival, duration: int, clock: int, now: int)
    requires MuxOk(m, clock) && i in m.pads && clock <= now && !Refuses(m.pads[i])
    ensures MuxOk(Push(m, i, a, duration, now).0.mux, now)
  {
    PushPadKeeps(m.cfg, m.pads[i], a, duration, now);
    hide PushPad;
    ReplacePadMuxOk(m, Push(m, i, a, duration, now).0.mux, i, PushPad(m.cfg, m.pads[i], a, duration, now).pad, clock, now);
  }

  lemma TimeOk(w: World, now: int)
    requires Inv(w) && w.clock <= now
    ensures PadsOk(w.mux.cfg, w.mux.pads, w.hist, now)
  {
    hide PadOk;
    forall j | j in w.mux.pads ensures PadOk(w.mux.cfg, w.mux.pads[j], w.hist[j], now) {
      LaterOk(w.mux.cfg, w.mux.pads[j], w.hist[j], w.clock, now);
    }
  }

  lemma PushOk(w: World, i: int, a: Arrival, duration: int, now: int)
    requires Inv(w) && Enabled(w, PushAt(i, a, duration, now))
    ensures Inv(NextPush(w, i, a, duration, now))
  {
    hide PadOk, Settled, PushPad, PushHistory;
    if i !in w.mux.pads || Refuses(w.mux.pads[i]) {
      TimeOk(w, now);
      hide PadsOk;
    } else {
      PushMuxOk(w.mux, i, a, duration, w.clock, now);
      PushPadOk(w.mux.cfg, w.mux.pads[i], w.hist[i], a, duration, w.clock, now);
      hide MuxOk;
      var w' := NextPush(w, i, a, duration, now);
      OnePadOk(w, w'.mux, w'.hist, i, now);
      hide PadsOk;
    }
  }

  lemma ResumePadOk(m: Mux, h: History, i: int, now: int, clock: int)
    requires MuxOk(m, clock) && CanResume(m, i) && PadOk(m.cfg, m.pads[i], h, clock) && clock <= now
    ensures PadOk(m.cfg, Resume(m, i, now).0.pads[i],
                  if m.stopping then h else h.(pushed := h.pushed + [Accept(m.pads[i].blocked.value, now)]), now)
  {
    var p := m.pads[i].(blocked := None);
    assert PadOk(m.cfg, p, h, clock) && p.segmentSent && !p.eos;
    if m.stopping {
      LaterOk(m.cfg, p, h, clock, now);
    } else {
      AppendOk(m.cfg, p, h, m.pads[i].blocked.value, now, clock);
    }
  }

  lemma ResumeOk(w: World, i: int, now: int)
    requires Inv(w) && Enabled(w, ResumeAt(i, now))
    ensures Inv(NextResume(w, i, now))
  {
    hide PadOk, Settled;
    ResumePadOk(w.mux, w.hist[i], i, now, w.clock);
    var w' := NextResume(w, i, now);
    ReplacePadMuxOk(w.mux, w'.mux, i, w'.mux.pads[i], w.clock, now);
    OnePadOk(w, w'.mux, w'.hist, i, now);
    hide MuxOk, PadsOk;
  }

  lemma EndPadOk(cfg: MuxConfig, p: Pad, h: History, clock: int)
    requires PadOk(cfg, p, h, clock) && p.blocked.None?
    ensures !p.eos ==> PadOk(cfg, p.(eosPending := true), h, clock)
  {
  }

  lemma EndMuxOk(m: Mux, i: int, clock: int)
    requires MuxOk(m, clock) && i in m.pads
    ensures MuxOk(PushEos(m, i).0, clock)
  {
  }

  lemma EndOk(w: World, i: int)
    requires Inv(w) && Free(w.mux, i)
    ensures Inv(Next(w, End(i)))
  {
    hide PadOk, Settled;
    var w' := Next(w, End(i));
    assert w' == w.(mux := PushEos(w.mux, i).0);
    hide Next;
    if i in w.mux.pads {
      EndMuxOk(w.mux, i, w.clock);
      EndPadOk(w.mux.cfg, w.mux.pads[i], w.hist[i], w.clock);
      OnePadOk(w, w'.mux, w.hist, i, w.clock);
      hide MuxOk, PadsOk;
    }
  }

  lemma StartOk(w: World, now: int)
    requires Inv(w) && now >= w.clock
    ensures Inv(Next(w, StartAt(now)))
  {
    TimeOk(w, now);
    hide PadsOk, Settled;
  }

  lemma NextOk(w: World, s: Step)
    requires Inv(w) && Enabled(w, s)
    ensures Inv(Next(w, s))
  {
    hide Inv, NextPush, NextRemove, NextResume, NextPoll;
    match s
    case StartAt(now) => StartOk(w, now);
    case StopNow => StopOk(w);
    case Add(i, source, scfg) => AddOk(w, i, source, scfg);
    case Remove(i) => RemoveOk(w, i);
    case PushAt(i, a, duration, now) => PushOk(w, i, a, duration, now);
    case ResumeAt(i, now) => ResumeOk(w, i, now);
    case Abandon(k) => AbandonOk(w, k);
    case End(i) => EndOk(w, i);
    case PollAt(now) => PollOk(w, now);
  }

  lemma StopOk(w: World)
    requires Inv(w)
    ensures Inv(Next(w, StopNow))
  {
    hide PadsOk, Settled;
  }

  lemma AbandonOk(w: World, k: nat)
    requires Inv(w) && Enabled(w, Abandon(k))
    ensures Inv(Next(w, Abandon(k)))
  {
    hide PadsOk, Settled, MuxOk;
  }

  // ---------------------------------------------------------------- runs

  /** One step of a run. */
  ghost predicate Follows(w: World, s: Step, w': World) {
    && w.mux.WellFormed() && w.hist.Keys == w.mux.pads.Keys
    && Enabled(w, s) && w' == Next(w, s)
  }

  /** One run of the mux: `ws` are the worlds the steps lead through. */
  ghost predicate Run(ws: seq<World>, steps: seq<Step>) {
    && |ws| == |steps| + 1
    && (forall k :: 0 <= k < |steps| ==> Follows(ws[k], steps[k], ws[k + 1]))
  }

  ghost predicate RunFrom(cfg: MuxConfig, ws: seq<World>, steps: seq<Step>) {
    cfg.Valid() && Run(ws, steps) && exists clock :: ws[0] == NewWorld(cfg, clock)
  }

  lemma NewWorldOk(cfg: MuxConfig, clock: int)
    requires cfg.Valid()
    ensures Inv(NewWorld(cfg, clock))
  {
  }

  lemma FollowsOk(w: World, s: Step, w': World)
    requires Inv(w) && Follows(w, s, w')
    ensures Inv(w')
  {
    NextOk(w, s);
  }

  /** A run goes on by any step that is enabled. */
  lemma RunGoesOn(ws: seq<World>, steps: seq<Step>, s: Step)
    requires Run(ws, steps) && Inv(ws[|steps|]) && Enabled(ws[|steps|], s)
    ensures var w := ws[|steps|];
            && w.mux.WellFormed() && w.hist.Keys == w.mux.pads.Keys
            && Run(ws + [Next(w, s)], steps + [s]) && Inv(Next(w, s))
  {
    var w := ws[|steps|];
    NextOk(w, s);
    assert w.mux.WellFormed() && w.hist.Keys == w.mux.pads.Keys;
    assert Follows(w, s, Next(w, s));
    hide Inv, Follows;
    var ws', steps' := ws + [Next(w, s)], steps + [s];
    forall k | 0 <= k < |steps'| ensures Follows(ws'[k], steps'[k], ws'[k + 1]) {
      if k < |steps| {
        assert ws'[k] == ws[k] && ws'[k + 1] == ws[k + 1];
      }
    }
  }

  lemma {:induction false} RunKeepsInv(ws: seq<World>, steps: seq<Step>, k: nat)
    requires Run(ws, steps) && k < |ws| && Inv(ws[0])
    ensures Inv(ws[k])
  {
    hide Inv, Follows;
    if k > 0 {
      RunKeepsInv(ws, steps, k - 1);
      FollowsOk(ws[k - 1], steps[k - 1], ws[k]);
    }
  }

  /** The frames accepted on every pad are, each exactly once, in a batch, closed
      or queued; batches and queue keep the order of arrival; contents and frame
      numbers are right; queues stay within their depth; and the pads removed
      before leave no frame unaccounted for. */
  ghost predicate AccountedFor(w: World) {
    && w.hist.Keys == w.mux.pads.Keys
    && (forall i :: i in w.mux.pads ==>
          && Partition(w.hist[i], Seqs(w.mux.pads[i].queue))
          && InOrder(w.hist[i], Seqs(w.mux.pads[i].queue))
          && ContentsMatch(w.hist[i], w.mux.pads[i].queue)
          && Numbered(w.mux.cfg, i, w.hist[i])
          && |w.mux.pads[i].queue| <= w.mux.cfg.queueDepth)
    && (forall h :: h in w.retired ==> Settled(h))
  }

  lemma InvAccountsFor(w: World)
    requires Inv(w)
    ensures AccountedFor(w)
  {
    hide Partition, InOrder, ContentsMatch, Numbered, Settled, Seqs, Counted, ArrivedBy, Gapless;
  }

  /** In every world of every run, under either policy and every setting. */
  lemma EveryRunIsAccountedFor(cfg: MuxConfig, ws: seq<World>, steps: seq<Step>, k: nat)
    requires RunFrom(cfg, ws, steps) && k < |ws|
    ensures Inv(ws[k]) && AccountedFor(ws[k])
  {
    hide Inv, Follows, AccountedFor;
    var clock :| ws[0] == NewWorld(cfg, clock);
    NewWorldOk(cfg, clock);
    RunKeepsInv(ws, steps, k);
    InvAccountsFor(ws[k]);
  }
}
