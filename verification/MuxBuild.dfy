/** Building runs step by step, to show that a state is one a mux can get into. */
module MuxBuild {
  import opened Shared
  import opened MuxTypes
  import opened MuxSpec
  import opened MuxRuns
  import opened PadLedger
  import opened MuxInvariant
  import opened MuxSafety

  ghost predicate StartsRun(cfg: MuxConfig, ws: seq<World>, steps: seq<Step>) {
    Run(ws, steps) && ws[0] == NewWorld(cfg, 0) && Inv(ws[|steps|])
  }

  lemma EmptyRun(cfg: MuxConfig)
    requires cfg.Valid()
    ensures StartsRun(cfg, [NewWorld(cfg, 0)], [])
  {
    NewWorldOk(cfg, 0);
  }

  lemma RunOn(cfg: MuxConfig, ws: seq<World>, steps: seq<Step>, s: Step) returns (ws': seq<World>, steps': seq<Step>)
    requires StartsRun(cfg, ws, steps) && Enabled(ws[|steps|], s)
    ensures var w := ws[|steps|];
            && w.mux.WellFormed() && w.hist.Keys == w.mux.pads.Keys
            && ws' == ws + [Next(w, s)] && steps' == steps + [s] && StartsRun(cfg, ws', steps')
            && ws'[|steps'|] == Next(w, s)
  {
    RunGoesOn(ws, steps, s);
    hide Inv, Next, Follows, NewWorld;
    ws', steps' := ws + [Next(ws[|steps|], s)], steps + [s];
    assert ws'[0] == ws[0];
  }

  lemma RunInv(cfg: MuxConfig, ws: seq<World>, steps: seq<Step>)
    requires StartsRun(cfg, ws, steps)
    ensures |ws| == |steps| + 1 && Inv(ws[|steps|])
    ensures ws[|steps|].mux.WellFormed() && ws[|steps|].hist.Keys == ws[|steps|].mux.pads.Keys
  {
  }

  lemma AddEnabled(w: World, i: int)
    ensures Enabled(w, Add(i, None, Some(DEFAULT_SOURCE)))
  {
  }

  lemma AddedPad(w: World, i: int)
    requires Inv(w) && i !in w.mux.pads
    ensures w.mux.WellFormed() && w.hist.Keys == w.mux.pads.Keys
    ensures var w' := Next(w, Add(i, None, Some(DEFAULT_SOURCE)));
            && w'.mux.pads == w.mux.pads[i := NewPad(w.mux.cfg, i, None, Some(DEFAULT_SOURCE))]
            && w'.mux.order == w.mux.order + [i] && w'.hist == w.hist[i := EmptyHistory(|w.trace|)]
            && w'.mux.cfg == w.mux.cfg && w'.clock == w.clock && w'.mux.firstPush == w.mux.firstPush && w'.mux.base == w.mux.base
            && w'.mux.firstDuration == w.mux.firstDuration
            && w'.mux.rrSource == w.mux.rrSource && w'.mux.batchIndex == w.mux.batchIndex && w'.mux.lastBatch == w.mux.lastBatch
  {
    hide NewPad;
  }

  /** A push on an open pad with room. */
  lemma PushedPad(w: World, i: int, a: Arrival, duration: int)
    requires Inv(w) && i in w.mux.pads && !Refuses(w.mux.pads[i]) && w.mux.pads[i].blocked.None?
    requires |w.mux.pads[i].queue| < w.mux.cfg.queueDepth
    ensures w.mux.WellFormed() && w.hist.Keys == w.mux.pads.Keys && Enabled(w, PushAt(i, a, duration, w.clock))
    ensures Push(w.mux, i, a, duration, w.clock).1 == Returned(true)
    ensures var w' := Next(w, PushAt(i, a, duration, w.clock));
            && w'.mux.pads == w.mux.pads[i := Append(RecordPad(w.mux.pads[i], a.pts, duration), a, w.clock)]
            && w'.mux.order == w.mux.order && w'.mux.cfg == w.mux.cfg && w'.clock == w.clock
            && w'.mux.base == (if w.mux.base.None? then Some(w.clock) else w.mux.base)
            && w'.mux.firstPush == (if w.mux.firstPush.None? then Some(w.clock) else w.mux.firstPush) && w'.mux.eosSent == w.mux.eosSent
            && (w.mux.pads[i].segmentSent ==> w'.mux.pending == w.mux.pending)
            && w'.mux.batchIndex == w.mux.batchIndex && w'.mux.firstDuration == w.mux.firstDuration
            && w'.mux.lastBatch == if w.mux.firstPush.None? then Some(w.clock) else w.mux.lastBatch
  {
    assert w.hist.Keys == w.mux.pads.Keys;
    hide PadOk, Append;
  }

  lemma PollEnabled(w: World, now: int)
    requires now >= w.clock
    ensures Enabled(w, PollAt(now))
  {
  }

  lemma NextIsPoll(w: World, now: int)
    requires w.mux.WellFormed() && w.hist.Keys == w.mux.pads.Keys && Enabled(w, PollAt(now))
    ensures Next(w, PollAt(now)) == NextPoll(w, now)
  {
    hide NextPoll;
  }

  lemma StartsFrom(cfg: MuxConfig, ws: seq<World>, steps: seq<Step>)
    requires StartsRun(cfg, ws, steps) && cfg.Valid()
    ensures RunFrom(cfg, ws, steps)
  {
    hide Run, Inv, NewWorld;
  }
}
