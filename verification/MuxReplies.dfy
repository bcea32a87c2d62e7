/** What push_frame answers tells its caller what became of the frame. */
module MuxReplies {
  import opened Shared
  import opened MuxTypes
  import opened MuxSpec
  import opened MuxRuns
  import opened PadLedger
  import opened MuxInvariant
  import opened MuxSafety
  import opened MuxDrain
  import opened MuxFairness
  import opened MuxLiveness
  import opened MuxDelivery
  import opened MuxOwnership
  import opened MuxOrigins

  /** A full queue makes its producer wait: as configured, or else unless sources are live. */
  predicate Waits(cfg: MuxConfig) {
    if cfg.blockWhenFull.Some? then cfg.blockWhenFull.value else !cfg.liveSource
  }

  /** Frame `a` is now the last of pad `i`, behind `kept`. */
  ghost predicate Queues(w: World, i: int, a: Arrival, now: int, w': World, kept: seq<Queued>) {
    && i in w.hist && i in w'.hist && i in w'.mux.pads
    && w'.hist[i].pushed == w.hist[i].pushed + [Accept(a, now)]
    && var q := w'.mux.pads[i].queue;
    && |q| == |kept| + 1 && q[..|kept|] == kept && q[|kept|].Carried() == Accept(a, now)
    && w'.refused == w.refused
  }

  ghost predicate Closes(w: World, i: int, w': World, closed: seq<nat>) {
    i in w.hist && i in w'.hist && w'.hist[i].lostAt == w.hist[i].lostAt + closed
  }

  /** True: queued, nothing closed. False: refused, or queued in the place of the oldest
      frame. No answer: the producer waits with its frame. */
  ghost predicate Told(w: World, i: int, a: Arrival, now: int, w': World, reply: Reply) {
    if i !in w.mux.pads then reply == NoSuchPad && w'.mux == w.mux
    else
      var p := w.mux.pads[i];
      if p.eosPending || p.eos then
        reply == Returned(false) && w'.mux == w.mux && w'.refused == w.refused + [a.payload]
      else if |p.queue| < w.mux.cfg.queueDepth then
        reply == Returned(true) && Queues(w, i, a, now, w', p.queue) && Closes(w, i, w', [])
      else if Waits(w.mux.cfg) then
        && reply == Blocked && i in w'.mux.pads && w'.mux.pads[i].blocked == Some(a) && w'.mux.pads[i].queue == p.queue
        && i in w.hist && i in w'.hist && w'.hist[i] == w.hist[i] && w'.refused == w.refused
      else
        && p.queue != []
        && reply == Returned(false) && Queues(w, i, a, now, w', p.queue[1..]) && Closes(w, i, w', [p.queue[0].seqNum])
  }

  lemma PushTold(w: World, i: int, a: Arrival, duration: int, now: int)
    requires w.mux.WellFormed() && w.hist.Keys == w.mux.pads.Keys
    ensures Told(w, i, a, now, NextPush(w, i, a, duration, now), Push(w.mux, i, a, duration, now).1)
  {
    if i in w.mux.pads {
      PadTold(w.mux.cfg, w.mux.pads[i], a, duration, now);
    }
    hide PushPad, Mux.WellFormed;
  }

  lemma PadTold(cfg: MuxConfig, p: Pad, a: Arrival, duration: int, now: int)
    ensures p.depth >= 1 ==>
      var r := PushPad(cfg, p, a, duration, now);
      var x := Queued(a.payload, a.pts, a.width, a.height, a.ntp, now, p.received);
      if |p.queue| < p.depth then r.reply == Returned(true) && r.lost == [] && r.pad.queue == p.queue + [x]
      else if Waits(cfg) then r.reply == Blocked && r.lost == [] && r.pad.queue == p.queue && r.pad.blocked == Some(a)
      else r.reply == Returned(false) && r.lost == [p.queue[0]] && r.pad.queue == p.queue[1..] + [x]
  {
  }

  /** In every run the answer to a push_frame tells what became of the frame. */
  lemma PushTells(cfg: MuxConfig, ws: seq<World>, steps: seq<Step>, k: nat)
    requires RunFrom(cfg, ws, steps) && k < |steps| && steps[k].PushAt?
    ensures |ws| == |steps| + 1 && ws[k].mux.WellFormed()
    ensures var s := steps[k];
            Told(ws[k], s.pad, s.arrival, s.now, ws[k + 1], Push(ws[k].mux, s.pad, s.arrival, s.duration, s.now).1)
  {
    hide *;
    RunFollows(cfg, ws, steps, k);
    FollowsPush(ws[k], steps[k], ws[k + 1]);
    PushTold(ws[k], steps[k].pad, steps[k].arrival, steps[k].duration, steps[k].now);
  }

  lemma FollowsPush(w: World, s: Step, w': World)
    requires Follows(w, s, w') && s.PushAt?
    ensures w.mux.WellFormed() && w.hist.Keys == w.mux.pads.Keys && w' == NextPush(w, s.pad, s.arrival, s.duration, s.now)
  {
    hide NextPush, Mux.WellFormed;
  }

  // ---------------------------------------------------------------- producers that wait

  /** In every run a producer that waits can go on if and only if `stop` was called, and
      `start` not since, or there is room; otherwise its queue is full. */
  lemma WaitsWhileFull(cfg: MuxConfig, ws: seq<World>, steps: seq<Step>, k: nat, i: int)
    requires RunFrom(cfg, ws, steps) && |ws| == |steps| + 1 && k < |ws|
    requires i in ws[k].mux.pads && ws[k].mux.pads[i].blocked.Some?
    ensures CanResume(ws[k].mux, i) <==> Stopped(steps, k) || |ws[k].mux.pads[i].queue| != cfg.queueDepth
    ensures |ws[k].mux.pads[i].queue| <= cfg.queueDepth
  {
    hide *;
    OriginOfTime(cfg, ws, steps, k);
    StoppingIs(cfg, ws[k], steps, k);
    EveryRunIsAccountedFor(cfg, ws, steps, k);
    QueueFits(ws[k], i);
    ResumesWhen(ws[k].mux, i);
  }

  lemma StoppingIs(cfg: MuxConfig, w: World, steps: seq<Step>, k: nat)
    requires k <= |steps| && Origin(cfg, w, steps, k)
    ensures w.mux.cfg == cfg && w.mux.stopping == Stopped(steps, k)
  {
    hide Stopped, LastStart;
  }

  lemma QueueFits(w: World, i: int)
    requires Inv(w) && i in w.mux.pads
    ensures |w.mux.pads[i].queue| <= w.mux.pads[i].depth == w.mux.cfg.queueDepth
  {
    LedgerOf(w, i);
    hide Inv, Partition, InOrder, ContentsMatch, Numbered, Counted, Gapless, ArrivedBy;
  }

  lemma ResumesWhen(m: Mux, i: int)
    requires i in m.pads && m.pads[i].blocked.Some? && |m.pads[i].queue| <= m.pads[i].depth
    ensures CanResume(m, i) <==> m.stopping || |m.pads[i].queue| != m.pads[i].depth
  {
  }

  /** What a producer gets to know when it goes on. */
  lemma ResumeTells(cfg: MuxConfig, ws: seq<World>, steps: seq<Step>, k: nat)
    requires RunFrom(cfg, ws, steps) && |ws| == |steps| + 1 && k < |steps| && steps[k].ResumeAt?
    ensures var (i, now) := (steps[k].pad, steps[k].now);
            && i in ws[k].mux.pads && ws[k].mux.pads[i].blocked.Some? && CanResume(ws[k].mux, i)
            && var (a, reply, q) := (ws[k].mux.pads[i].blocked.value, Resume(ws[k].mux, i, now).1, ws[k].mux.pads[i].queue);
            && i in ws[k + 1].mux.pads && ws[k + 1].mux.pads[i].blocked.None? && Closes(ws[k], i, ws[k + 1], [])
            && if Stopped(steps, k) then reply == Returned(false) && ws[k + 1].mux.pads[i].queue == q
                                         && ws[k + 1].refused == ws[k].refused + [a.payload]
               else reply == Returned(true) && Queues(ws[k], i, a, now, ws[k + 1], q)
  {
    hide *;
    RunFollows(cfg, ws, steps, k);
    FollowsResume(ws[k], steps[k], ws[k + 1]);
    OriginOfTime(cfg, ws, steps, k);
    StoppingIs(cfg, ws[k], steps, k);
    ResumeTold(ws[k], steps[k].pad, steps[k].now);
  }

  lemma FollowsResume(w: World, s: Step, w': World)
    requires Follows(w, s, w') && s.ResumeAt?
    ensures w.hist.Keys == w.mux.pads.Keys && CanResume(w.mux, s.pad) && w' == NextResume(w, s.pad, s.now)
  {
    hide NextResume, Mux.WellFormed;
  }

  lemma ResumeTold(w: World, i: int, now: int)
    requires w.hist.Keys == w.mux.pads.Keys && CanResume(w.mux, i)
    ensures i in w.mux.pads && w.mux.pads[i].blocked.Some?
    ensures var (a, reply, q, w') := (w.mux.pads[i].blocked.value, Resume(w.mux, i, now).1, w.mux.pads[i].queue, NextResume(w, i, now));
            && i in w'.mux.pads && w'.mux.pads[i].blocked.None? && Closes(w, i, w', [])
            && if w.mux.stopping then reply == Returned(false) && w'.mux.pads[i].queue == q && w'.refused == w.refused + [a.payload]
               else reply == Returned(true) && Queues(w, i, a, now, w', q)
  {
  }

  /** A poll that takes or closes a frame of a pad lets its waiting producer go on. */
  lemma RoomWakes(cfg: MuxConfig, ws: seq<World>, steps: seq<Step>, k: nat, i: int)
    requires RunFrom(cfg, ws, steps) && |ws| == |steps| + 1 && k < |steps| && steps[k].PollAt?
    requires i in ws[k].mux.pads && ws[k].mux.pads[i].blocked.Some? && i in ws[k].hist && i in ws[k + 1].hist
    requires |ws[k + 1].hist[i].emitted| + |ws[k + 1].hist[i].lostAt| > |ws[k].hist[i].emitted| + |ws[k].hist[i].lostAt|
    ensures CanResume(ws[k + 1].mux, i)
  {
    hide *;
    RunFollows(cfg, ws, steps, k);
    FollowsPoll(ws[k], steps[k], ws[k + 1]);
    EveryRunIsAccountedFor(cfg, ws, steps, k);
    EveryRunIsAccountedFor(cfg, ws, steps, k + 1);
    PollKeepsWaiting(ws[k], steps[k].now, i);
    Whole(ws[k], i);
    Whole(ws[k + 1], i);
    OriginOfTime(cfg, ws, steps, k);
    OriginOfTime(cfg, ws, steps, k + 1);
    StoppingIs(cfg, ws[k], steps, k);
    StoppingIs(cfg, ws[k + 1], steps, k + 1);
    QueueFits(ws[k], i);
    QueueFits(ws[k + 1], i);
    ResumesWhen(ws[k + 1].mux, i);
  }

  lemma Whole(w: World, i: int)
    requires Inv(w) && i in w.mux.pads
    ensures i in w.hist && |w.hist[i].pushed| == |w.hist[i].emitted| + |w.hist[i].lostAt| + |w.mux.pads[i].queue|
  {
    hide *;
    LedgerOf(w, i);
    EmittedTogether(w.mux.cfg, w.mux.pads[i], w.hist[i], w.clock);
  }

  lemma FollowsPoll(w: World, s: Step, w': World)
    requires Follows(w, s, w') && s.PollAt?
    ensures w.mux.WellFormed() && w.hist.Keys == w.mux.pads.Keys && w' == NextPoll(w, s.now)
  {
    hide NextPoll, Mux.WellFormed;
  }

  lemma PollKeepsWaiting(w: World, now: int, i: int)
    requires Inv(w) && w.mux.WellFormed() && w.hist.Keys == w.mux.pads.Keys && i in w.mux.pads
    ensures var w' := NextPoll(w, now);
            && i in w'.mux.pads && w'.mux.pads[i].blocked == w.mux.pads[i].blocked
            && i in w.hist && i in w'.hist && w'.hist[i].pushed == w.hist[i].pushed
  {
    InvIsSound(w);
    PollKeepsHeld(w.mux, now, i);
    hide Inv, Poll, Sound, Mux.WellFormed, FramesIn, On, FramesOn;
  }
}
