/** The values the stream mux works on: its configuration, queued frames, pads,
    output batches and events, and the whole mux state. Times are integers in
    nanoseconds; `Fraction` rates of the source are exact reals. */
module MuxTypes {
  import opened Shared

  const NS: int := 1_000_000_000
  /** The quarter millisecond added to an output pts equal to the previous one. */
  const PTS_BUMP: int := 250_000

  function Min(a: int, b: int): int { if a <= b then a else b }

  function Max(a: int, b: int): int { if a >= b then a else b }

  /** Python's int() on a rational: truncation towards zero. */
  function Truncate(r: real): int {
    if r >= 0.0 then r.Floor else -((-r).Floor)
  }

  datatype Policy = Legacy | New

  datatype SourceConfig = SourceConfig(priority: int, maxFps: real, maxFramesPerBatch: int)

  const DEFAULT_SOURCE := SourceConfig(0, 60.0, 1)

  datatype MuxConfig = MuxConfig(
    batchSize: int,
    timeoutUs: int,
    liveSource: bool,
    policy: Policy,
    adaptive: bool,
    roundRobin: bool,
    overallMaxFps: real,
    maxFpsControl: bool,
    maxSameSource: int,
    rateControl: bool,
    sources: map<int, SourceConfig>,
    syncInputs: bool,
    maxLatency: int,
    attachSysTs: bool,
    resetOnEos: bool,
    queueDepth: int,
    blockWhenFull: Option<bool>,
    maxSameLegacy: int)
  {
    /** What the source needs to run at all: room for one frame per pad and a
        maximum rate it can divide by. */
    predicate Valid() {
      queueDepth >= 1 && overallMaxFps > 0.0
    }

    /** Legacy timeout; None waits forever. */
    function TimeoutNs(): Option<int> {
      if timeoutUs < 0 then None else Some(timeoutUs * 1000)
    }

    /** One period of the overall minimum rate; None when there is no minimum rate. */
    function MinFpsDur(): Option<int> {
      if timeoutUs <= 0 then None else Some(timeoutUs * 1000)
    }

    function MinFpsDurOrZero(): int {
      match MinFpsDur() case None => 0 case Some(d) => d
    }

    /** One period of the overall maximum rate. */
    function MaxFpsDur(): int
      requires overallMaxFps > 0.0
    {
      Truncate(NS as real / overallMaxFps)
    }

    predicate BlocksWhenFull() {
      match blockWhenFull case None => !liveSource case Some(b) => b
    }
  }

  /** `overall_min_fps` is the fraction 10^6 / timeout and its period is
      int(NS / overall_min_fps): exactly the timeout, with nothing truncated. */
  lemma MinFpsDurIsPeriod(cfg: MuxConfig)
    requires cfg.timeoutUs > 0
    ensures cfg.MinFpsDur() == Some(Truncate(NS as real / (1_000_000.0 / cfg.timeoutUs as real)))
  {
    var t := cfg.timeoutUs as real;
    assert NS as real / (1_000_000.0 / t) == 1000.0 * t by {
      assert (1_000_000.0 / t) * (1000.0 * t) == NS as real;
    }
  }

  /** What a producer hands over and a consumer gets back, unchanged. */
  datatype Content = Content(payload: int, pts: int, width: int, height: int, ntp: int, recv: int)

  datatype Queued = Queued(payload: int, pts: int, width: int, height: int, ntp: int, recv: int, seqNum: nat)
  {
    function Carried(): Content { Content(payload, pts, width, height, ntp, recv) }
  }

  /** A producer waiting inside push_frame for room on its pad. */
  datatype Arrival = Arrival(payload: int, pts: int, width: int, height: int, ntp: int)

  datatype Pad = Pad(
    index: int,
    sourceId: int,
    cfg: SourceConfig,
    queue: seq<Queued>,
    depth: int,
    frameCount: nat,
    received: nat,
    dropped: nat,
    eosPending: bool,
    eos: bool,
    segmentSent: bool,
    frameDuration: int,
    lastPts: Option<int>,
    segmentStart: Option<int>,
    lastPush: Option<int>,
    blocked: Option<Arrival>)
  {
    /** Cannot contribute any more frames. */
    predicate Done() { eos || (eosPending && queue == []) }

    /** The position of `pts` on the running time line of this pad. */
    function RunningTime(pts: int): int {
      pts - (match segmentStart case None => 0 case Some(s) => s)
    }
  }

  datatype FrameMeta = FrameMeta(
    padIndex: int, sourceId: int, batchId: nat, frameNum: nat, pts: int, ntp: int,
    width: int, height: int, payload: int, recv: int)
  {
    function Carried(): Content { Content(payload, pts, width, height, ntp, recv) }
  }

  datatype Batch = Batch(frames: seq<FrameMeta>, pts: int, batchIndex: nat, maxFrames: int, push: int)

  datatype Event =
    | PadAdded(pad: int, source: int)
    | StreamSegment(pad: int, source: int, startPts: int)
    | StreamEos(pad: int, source: int)
    | PadDeleted(pad: int, source: int)
    | Eos

  datatype Output = Notice(event: Event) | Frames(batch: Batch)

  datatype Stats = Stats(batches: nat, frames: nat, droppedOverflow: nat, droppedLate: nat)

  ghost predicate AllIn(ids: seq<int>, pads: map<int, Pad>) {
    forall k :: 0 <= k < |ids| ==> ids[k] in pads
  }

  datatype Mux = Mux(
    cfg: MuxConfig,
    pads: map<int, Pad>,
    order: seq<int>,
    batchIndex: nat,
    base: Option<int>,
    firstPush: Option<int>,
    firstPad: Option<int>,
    firstDuration: int,
    pending: seq<Event>,
    eosSent: bool,
    prevPts: Option<int>,
    lastBatch: Option<int>,
    rrPriority: nat,
    rrSource: nat,
    stopping: bool,
    stats: Stats)
  {
    /** `order` lists the pads once each, and every pad is filed under its own index. */
    ghost predicate WellFormed() {
      && cfg.Valid()
      && AllIn(order, pads)
      && (forall i :: i in pads ==> i in order)
      && (forall a, b :: 0 <= a < b < |order| ==> order[a] != order[b])
      && (forall i :: i in pads ==> pads[i].index == i && pads[i].depth == cfg.queueDepth)
    }

    function RunningTime(now: int): int {
      match base case None => 0 case Some(b) => Max(0, now - b)
    }

    predicate AllEos() {
      forall i :: i in pads ==> pads[i].eos
    }
  }

  function NewPad(cfg: MuxConfig, i: int, sourceId: Option<int>, scfg: Option<SourceConfig>): Pad {
    var sc := match scfg
      case Some(s) => s
      case None => if i in cfg.sources then cfg.sources[i] else DEFAULT_SOURCE;
    Pad(i, if sourceId.None? then i else sourceId.value, sc, [], cfg.queueDepth,
        0, 0, 0, false, false, false, 0, None, None, None, None)
  }

  function NewMux(cfg: MuxConfig): Mux {
    Mux(cfg, map[], [], 0, None, None, None, 0, [], false, None, None, 0, 0, false, Stats(0, 0, 0, 0))
  }

  /** A frame chosen for a batch, with the pad it comes from. */
  datatype Pick = Pick(pad: int, q: Queued)

  /** The frames `picks` takes from pad `i`, in slot order. */
  function On(picks: seq<Pick>, i: int): seq<Queued> {
    if picks == [] then []
    else
      var n := |picks| - 1;
      On(picks[..n], i) + (if picks[n].pad == i then [picks[n].q] else [])
  }

  /** The frames of a batch that belong to pad `i`, in slot order. */
  function FramesOn(frames: seq<FrameMeta>, i: int): seq<FrameMeta> {
    if frames == [] then []
    else
      var n := |frames| - 1;
      FramesOn(frames[..n], i) + (if frames[n].padIndex == i then [frames[n]] else [])
  }

  /** All picks come from pads of `m`, and those from one pad are the front of its queue. */
  ghost predicate PrefixPicks(m: Mux, picks: seq<Pick>) {
    && (forall k :: 0 <= k < |picks| ==> picks[k].pad in m.pads)
    && (forall i :: i in m.pads ==> On(picks, i) <= m.pads[i].queue)
  }

  lemma {:induction false} OnAppend(a: seq<Pick>, b: seq<Pick>, i: int)
    ensures On(a + b, i) == On(a, i) + On(b, i)
  {
    if b == [] {
      assert a + b == a;
    } else {
      var n := |b| - 1;
      assert (a + b)[..|a| + n] == a + b[..n];
      OnAppend(a, b[..n], i);
    }
  }

  lemma OnTakePrefix(s: seq<Pick>, k: nat, i: int)
    requires k <= |s|
    ensures On(s[..k], i) <= On(s, i)
  {
    assert s == s[..k] + s[k..];
    OnAppend(s[..k], s[k..], i);
  }

  lemma {:induction false} OnMember(s: seq<Pick>, i: int, q: Queued)
    ensures q in On(s, i) <==> Pick(i, q) in s
  {
    if s != [] {
      var n := |s| - 1;
      OnMember(s[..n], i, q);
      assert s == s[..n] + [s[n]];
    }
  }
}
