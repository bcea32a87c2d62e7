/** Runs of the mux: any interleaving of producer and consumer calls under a
    monotone clock, with one producer per pad that sends its end of stream after
    its last frame. A world is the mux plus what an observer has seen. */
module MuxRuns {
  import opened Shared
  import opened MuxTypes
  import opened MuxSpec

  /** What happened on one pad since it was added, when the trace had length
      `since`: the frames accepted, the frames that left in batches with their
      positions among those accepted, and the positions of the frames that were
      closed instead. */
  datatype History = History(
    since: nat, pushed: seq<Content>, emitted: seq<FrameMeta>, emittedAt: seq<nat>, lostAt: seq<nat>)

  function EmptyHistory(since: nat): History { History(since, [], [], [], []) }

  /** A frame whose producer still waits although its pad was removed. */
  datatype Orphan = Orphan(pad: int, arrival: Arrival)

  datatype World = World(
    mux: Mux,
    clock: int,
    trace: seq<Output>,
    hist: map<int, History>,
    retired: seq<History>,
    handed: seq<int>,
    refused: seq<int>,
    orphans: seq<Orphan>)

  datatype Step =
    | StartAt(now: int)
    | StopNow
    | Add(pad: int, source: Option<int>, scfg: Option<SourceConfig>)
    | Remove(pad: int)
    | PushAt(pad: int, arrival: Arrival, duration: int, now: int)
    | ResumeAt(pad: int, now: int)
    | Abandon(k: nat)
    | End(pad: int)
    | PollAt(now: int)

  predicate Free(m: Mux, i: int) {
    i in m.pads ==> m.pads[i].blocked.None?
  }

  /** Which steps may come next. */
  predicate Enabled(w: World, s: Step) {
    match s
    case StartAt(now) => now >= w.clock
    case StopNow => true
    case Add(_, _, _) => true
    case Remove(_) => true
    case PushAt(i, _, _, now) => now >= w.clock && Free(w.mux, i)
    case ResumeAt(i, now) => now >= w.clock && CanResume(w.mux, i)
    case Abandon(k) => k < |w.orphans| && (w.mux.stopping || w.orphans[k].pad !in w.mux.pads)
    case End(i) => Free(w.mux, i)
    case PollAt(now) => now >= w.clock
  }

  function Seqs(q: seq<Queued>): (r: seq<nat>) {
    seq(|q|, k requires 0 <= k < |q| => q[k].seqNum)
  }

  /** All frames of the batches in an output, in order. */
  function FramesIn(outs: seq<Output>): seq<FrameMeta> {
    if outs == [] then []
    else
      var n := |outs| - 1;
      FramesIn(outs[..n]) + (if outs[n].Frames? then outs[n].batch.frames else [])
  }

  /** A pad's history after a call that put out `outs`, closed `lost` and took `picks`. */
  function Absorb(h: History, i: int, outs: seq<Output>, lost: seq<Pick>, picks: seq<Pick>): History {
    h.(emitted := h.emitted + FramesOn(FramesIn(outs), i),
       emittedAt := h.emittedAt + Seqs(On(picks, i)),
       lostAt := h.lostAt + Seqs(On(lost, i)))
  }

  function AbsorbAll(hist: map<int, History>, e: Effect): map<int, History> {
    map i | i in hist :: Absorb(hist[i], i, e.outs, e.lost, e.picks)
  }

  function Accept(a: Arrival, now: int): Content {
    Content(a.payload, a.pts, a.width, a.height, a.ntp, now)
  }

  /** The history of a pad after a push that was not refused. */
  function PushHistory(cfg: MuxConfig, p: Pad, h: History, a: Arrival, duration: int, now: int): History
    requires p.depth >= 1
  {
    var r := PushPad(cfg, p, a, duration, now);
    h.(lostAt := h.lostAt + Seqs(r.lost),
       pushed := if r.reply == Blocked then h.pushed else h.pushed + [Accept(a, now)])
  }

  function NextPush(w: World, i: int, a: Arrival, duration: int, now: int): World
    requires w.mux.WellFormed() && w.hist.Keys == w.mux.pads.Keys
  {
    if i !in w.mux.pads then w.(clock := now)
    else if Refuses(w.mux.pads[i])
    then w.(clock := now, handed := w.handed + [a.payload], refused := w.refused + [a.payload])
    else w.(mux := Push(w.mux, i, a, duration, now).0.mux, clock := now, handed := w.handed + [a.payload],
            hist := w.hist[i := PushHistory(w.mux.cfg, w.mux.pads[i], w.hist[i], a, duration, now)])
  }

  function NextResume(w: World, i: int, now: int): World
    requires CanResume(w.mux, i) && w.hist.Keys == w.mux.pads.Keys
  {
    var a := w.mux.pads[i].blocked.value;
    var (m, reply) := Resume(w.mux, i, now);
    if w.mux.stopping
    then w.(mux := m, clock := now, refused := w.refused + [a.payload])
    else w.(mux := m, clock := now,
            hist := w.hist[i := w.hist[i].(pushed := w.hist[i].pushed + [Accept(a, now)])])
  }

  function NextRemove(w: World, i: int): World
    requires w.hist.Keys == w.mux.pads.Keys
  {
    if i !in w.mux.pads then w
    else
      var (e, _) := RemovePad(w.mux, i);
      w.(mux := e.mux,
         hist := w.hist - {i},
         retired := w.retired + [Absorb(w.hist[i], i, e.outs, e.lost, e.picks)],
         orphans := if w.mux.pads[i].blocked.None? then w.orphans
                    else w.orphans + [Orphan(i, w.mux.pads[i].blocked.value)])
  }

  function NextPoll(w: World, now: int): World
    requires w.mux.WellFormed()
  {
    var e := Poll(w.mux, now);
    w.(mux := e.mux, clock := now, trace := w.trace + e.outs, hist := AbsorbAll(w.hist, e))
  }

  function Next(w: World, s: Step): World
    requires w.mux.WellFormed() && w.hist.Keys == w.mux.pads.Keys && Enabled(w, s)
  {
    match s
    case StartAt(now) => w.(mux := Start(w.mux, now), clock := now)
    case StopNow => w.(mux := Stop(w.mux))
    case Add(i, source, scfg) =>
      if i in w.mux.pads then w
      else w.(mux := AddPad(w.mux, i, source, scfg).0, hist := w.hist[i := EmptyHistory(|w.trace|)])
    case Remove(i) => NextRemove(w, i)
    case PushAt(i, a, duration, now) => NextPush(w, i, a, duration, now)
    case ResumeAt(i, now) => NextResume(w, i, now)
    case Abandon(k) =>
      w.(refused := w.refused + [w.orphans[k].arrival.payload], orphans := w.orphans[..k] + w.orphans[k + 1..])
    case End(i) => w.(mux := PushEos(w.mux, i).0)
    case PollAt(now) => NextPoll(w, now)
  }

  function NewWorld(cfg: MuxConfig, clock: int): World {
    World(NewMux(cfg), clock, [], map[], [], [], [], [])
  }

  /** The mux after a step, whatever an observer makes of it. */
  function MuxAfter(m: Mux, s: Step): Mux
    requires m.WellFormed() && (s.ResumeAt? ==> CanResume(m, s.pad))
  {
    match s
    case StartAt(now) => Start(m, now)
    case StopNow => Stop(m)
    case Add(i, source, scfg) => AddPad(m, i, source, scfg).0
    case Remove(i) => RemovePad(m, i).0.mux
    case PushAt(i, a, duration, now) => Push(m, i, a, duration, now).0.mux
    case ResumeAt(i, now) => Resume(m, i, now).0
    case Abandon(k) => m
    case End(i) => PushEos(m, i).0
    case PollAt(now) => Poll(m, now).mux
  }

  lemma NextMux(w: World, s: Step)
    requires w.mux.WellFormed() && w.hist.Keys == w.mux.pads.Keys && Enabled(w, s)
    ensures Next(w, s).mux == MuxAfter(w.mux, s)
  {
    hide Poll, PushOpen, PushHistory, Without;
  }
}
