/** What one call of each StreamMux method does to the mux, as functions from
    state to state. The class in StreamMux.dfy is proved to compute these. */
module MuxSpec {
  import opened Shared
  import opened MuxTypes

  // ---------------------------------------------------------------- end of stream

  /** A pad whose end of stream is due: nothing queued in front of it. */
  predicate Closing(p: Pad) { p.eosPending && p.queue == [] && !p.eos }

  function ClosePad(cfg: MuxConfig, p: Pad): Pad {
    if Closing(p) then
      var c := p.(eos := true, eosPending := false);
      if cfg.resetOnEos then c.(frameCount := 0, received := 0) else c
    else p
  }

  /** The stream-eos notices of the pads in `ids` that are drained now, in that order. */
  function EosNotices(pads: map<int, Pad>, ids: seq<int>): seq<Event>
    requires AllIn(ids, pads)
  {
    if ids == [] then []
    else
      var n := |ids| - 1;
      var p := pads[ids[n]];
      EosNotices(pads, ids[..n]) +
      (if Closing(p) then [StreamEos(p.index, p.sourceId)] else [])
  }

  function ForwardEos(m: Mux): Mux {
    m.(pads := map i | i in m.pads :: ClosePad(m.cfg, m.pads[i]))
  }

  // ---------------------------------------------------------------- time helpers

  function Active(pads: map<int, Pad>, ids: seq<int>): (r: seq<int>)
    requires AllIn(ids, pads)
    ensures forall i :: i in r <==> i in ids && i in pads && !pads[i].Done()
  {
    if ids == [] then []
    else
      var n := |ids| - 1;
      assert ids == ids[..n] + [ids[n]];
      Active(pads, ids[..n]) + (if pads[ids[n]].Done() then [] else [ids[n]])
  }

  function Earlier(a: Option<int>, b: int): Option<int> {
    match a case None => Some(b) case Some(x) => Some(Min(x, b))
  }

  /** Arrival time of the oldest frame queued on a pad that is not done. */
  function Oldest(pads: map<int, Pad>, ids: seq<int>): Option<int>
    requires AllIn(ids, pads)
  {
    if ids == [] then None
    else
      var n := |ids| - 1;
      var p := pads[ids[n]];
      var before := Oldest(pads, ids[..n]);
      if p.queue != [] && !p.Done() then Earlier(before, p.queue[0].recv) else before
  }

  function LegacyTimerStart(m: Mux): Option<int>
    requires AllIn(m.order, m.pads)
  {
    match Oldest(m.pads, m.order)
    case None => None
    case Some(t) => Some(if m.lastBatch.None? then t else Max(t, m.lastBatch.value))
  }

  function NextDeadline(m: Mux): Option<int>
    requires AllIn(m.order, m.pads)
  {
    if m.cfg.policy == Legacy then
      var t := m.cfg.TimeoutNs();
      var start := LegacyTimerStart(m);
      if t.None? || start.None? then None else Some(start.value + t.value)
    else
      var d := m.cfg.MinFpsDur();
      if d.None? || m.lastBatch.None? then None
      else if forall i <- m.pads.Keys :: m.pads[i].queue == [] then None
      else Some(m.lastBatch.value + d.value)
  }

  // ---------------------------------------------------------------- sync filter

  datatype Screened = Screened(kept: seq<Queued>, late: seq<Queued>, onTime: int)

  /** The scan of `_sync_filter`: late frames go, the first early one entries the scan. */
  function SyncScan(q: seq<Queued>, avail: int, seg: int, cur: int, minDur: int, maxLatency: int): Screened {
    if q == [] || avail <= 0 then Screened(q, [], 0)
    else
      var rt := q[0].pts - seg;
      if rt > cur - minDur then Screened(q, [], 0)
      else
        var rest := SyncScan(q[1..], avail - 1, seg, cur, minDur, maxLatency);
        if rt + maxLatency < cur - minDur
        then Screened(rest.kept, [q[0]] + rest.late, rest.onTime)
        else Screened([q[0]] + rest.kept, rest.late, rest.onTime + 1)
  }

  function SyncFilter(m: Mux, p: Pad, avail: int, now: int): Screened {
    var minDur := m.cfg.MinFpsDurOrZero();
    var cur := m.RunningTime(now);
    if cur < minDur then Screened(p.queue, [], avail)
    else SyncScan(p.queue, avail, -p.RunningTime(0), cur, minDur, m.cfg.maxLatency)
  }

  /** The pad after its late frames were dropped. */
  function Thin(p: Pad, s: Screened): Pad {
    p.(queue := s.kept, dropped := p.dropped + |s.late|)
  }

  // ---------------------------------------------------------------- batch formation

  /** A batch under construction: the pads with late frames already dropped, the
      frames dropped for it, the picks, the round-robin cursor, and whether the
      batch may go out now. */
  datatype Forming = Forming(
    pads: map<int, Pad>, late: seq<Pick>, picks: seq<Pick>, rrPriority: nat, rrSource: nat, go: bool)

  function Blank(m: Mux): Forming {
    Forming(m.pads, [], [], m.rrPriority, m.rrSource, false)
  }

  ghost predicate PicksIn(pads: map<int, Pad>, picks: seq<Pick>) {
    forall k :: 0 <= k < |picks| ==> picks[k].pad in pads
  }

  // ------------------------------ legacy, files: first in, first out over all pads

  predicate Before(a: Pick, b: Pick) {
    || a.q.recv < b.q.recv
    || (a.q.recv == b.q.recv && a.pad < b.pad)
    || (a.q.recv == b.q.recv && a.pad == b.pad && a.q.seqNum < b.q.seqNum)
  }

  function Insert(s: seq<Pick>, x: Pick): seq<Pick> {
    if s == [] then [x]
    else
      var n := |s| - 1;
      if Before(x, s[n]) then Insert(s[..n], x) + [s[n]] else s + [x]
  }

  /** The call of Python's sorted() on (arrival, pad, sequence number). */
  function Sort(s: seq<Pick>): seq<Pick> {
    if s == [] then [] else Insert(Sort(s[..|s| - 1]), s[|s| - 1])
  }

  lemma {:induction false} InsertMembers(s: seq<Pick>, x: Pick)
    ensures forall y :: y in Insert(s, x) <==> y in s || y == x
  {
    if s != [] {
      assert s == s[..|s| - 1] + [s[|s| - 1]];
      InsertMembers(s[..|s| - 1], x);
    }
  }

  lemma {:induction false} SortMembers(s: seq<Pick>)
    ensures forall x :: x in Sort(s) <==> x in s
  {
    if s != [] {
      var n := |s| - 1;
      assert s == s[..n] + [s[n]];
      SortMembers(s[..n]);
      InsertMembers(Sort(s[..n]), s[n]);
    }
  }

  function Tagged(i: int, q: seq<Queued>): seq<Pick> {
    seq(|q|, k requires 0 <= k < |q| => Pick(i, q[k]))
  }

  function AllQueued(pads: map<int, Pad>, ids: seq<int>): (r: seq<Pick>)
    requires AllIn(ids, pads)
    ensures forall x :: x in r ==> x.pad in ids && x.pad in pads && x.q in pads[x.pad].queue
  {
    if ids == [] then []
    else
      var n := |ids| - 1;
      AllQueued(pads, ids[..n]) + Tagged(ids[n], pads[ids[n]].queue)
  }

  /** The frames that are among the first `cap` of their own pad. */
  function Eligible(items: seq<Pick>, cap: int): (r: seq<Pick>)
    ensures forall x :: x in r ==> x in items
  {
    if items == [] then []
    else
      var n := |items| - 1;
      Eligible(items[..n], cap) +
      (if |On(items[..n], items[n].pad)| < cap then [items[n]] else [])
  }

  function TakeUpTo(s: seq<Pick>, k: int): seq<Pick> {
    if k <= 0 then [] else s[..Min(k, |s|)]
  }

  /** The oldest `batchSize` queued frames, at most `cap` of them from one pad. */
  function FifoPicks(m: Mux, ids: seq<int>): (r: seq<Pick>)
    requires AllIn(ids, m.pads)
    ensures PicksIn(m.pads, r)
  {
    SortMembers(AllQueued(m.pads, ids));
    TakeUpTo(Eligible(Sort(AllQueued(m.pads, ids)), m.cfg.maxSameLegacy), m.cfg.batchSize)
  }

  // ------------------------------ legacy, live: the oldest frame of every pad

  /** One visit of a live pad: its oldest frame, if there is room. */
  function VisitLive(m: Mux, f: Forming, i: int, now: int): (r: Forming)
    requires i in f.pads && PicksIn(f.pads, f.picks)
    ensures r.pads.Keys == f.pads.Keys && PicksIn(r.pads, r.picks)
  {
    var p := f.pads[i];
    var s := if m.cfg.syncInputs then SyncFilter(m, p, |p.queue|, now) else Screened(p.queue, [], |p.queue|);
    f.(pads := f.pads[i := Thin(p, s)],
       late := f.late + Tagged(i, s.late),
       picks := if s.onTime != 0 && s.kept != [] && |f.picks| < m.cfg.batchSize
                then f.picks + Tagged(i, s.kept[..1]) else f.picks)
  }

  function FormLive(m: Mux, ids: seq<int>, now: int): (r: Forming)
    requires AllIn(ids, m.pads)
    ensures r.pads.Keys == m.pads.Keys && PicksIn(r.pads, r.picks)
    decreases |ids|
  {
    if ids == [] then Blank(m)
    else
      var n := |ids| - 1;
      VisitLive(m, FormLive(m, ids[..n], now), ids[n], now)
  }

  function FormLegacy(m: Mux, now: int): (r: Forming)
    requires AllIn(m.order, m.pads)
    ensures r.pads.Keys == m.pads.Keys && PicksIn(r.pads, r.picks)
  {
    var active := Active(m.pads, m.order);
    var bs := m.cfg.batchSize;
    if bs <= 0 || active == [] then Blank(m)
    else
      var timeout := m.cfg.TimeoutNs();
      var start := LegacyTimerStart(m);
      var due := start.Some? && timeout.Some? && now >= start.value + timeout.value;
      if m.cfg.liveSource then
        var f := FormLive(m, active, now);
        f.(go := |f.picks| >= Min(bs, |active|) || due)
      else
        var picks := FifoPicks(m, active);
        Blank(m).(picks := picks, go := |picks| >= bs || due)
  }

  // ------------------------------ new policy: priority groups, round robin

  function OpenPads(pads: map<int, Pad>, ids: seq<int>): nat
    requires AllIn(ids, pads)
  {
    if ids == [] then 0
    else
      var n := |ids| - 1;
      OpenPads(pads, ids[..n]) + (if pads[ids[n]].eos then 0 else 1)
  }

  function NewBatchSize(m: Mux): int
    requires AllIn(m.order, m.pads)
  {
    if m.cfg.adaptive then OpenPads(m.pads, m.order) else m.cfg.batchSize
  }

  function AllowedRepeats(cfg: MuxConfig, p: Pad, bs: int): int {
    Min(cfg.maxSameSource, Max(bs, p.cfg.maxFramesPerBatch))
  }

  /** Insertion of a priority into an increasing list of distinct ones. */
  function InsertPriority(s: seq<int>, x: int): seq<int> {
    if s == [] then [x]
    else if x < s[0] then [x] + s
    else if x == s[0] then s
    else [s[0]] + InsertPriority(s[1..], x)
  }

  function Priorities(pads: map<int, Pad>, ids: seq<int>): seq<int>
    requires AllIn(ids, pads)
  {
    if ids == [] then []
    else
      var n := |ids| - 1;
      InsertPriority(Priorities(pads, ids[..n]), pads[ids[n]].cfg.priority)
  }

  function Group(pads: map<int, Pad>, ids: seq<int>, priority: int): (r: seq<int>)
    requires AllIn(ids, pads)
    ensures AllIn(r, pads)
  {
    if ids == [] then []
    else
      var n := |ids| - 1;
      Group(pads, ids[..n], priority) + (if pads[ids[n]].cfg.priority == priority then [ids[n]] else [])
  }

  function RateAllowance(p: Pad, now: int): int
    requires p.lastPush.Some?
  {
    Truncate((now - p.lastPush.value) as real * p.cfg.maxFps / NS as real)
  }

  /** The queue after rate control and sync, and how much of it may go now. */
  function Screen(m: Mux, p: Pad, now: int): Screened {
    var avail := if m.cfg.rateControl && p.lastPush.Some?
                 then Min(|p.queue|, RateAllowance(p, now)) else |p.queue|;
    if m.cfg.syncInputs then SyncFilter(m, p, avail, now) else Screened(p.queue, [], avail)
  }

  /** One visit of a pad: screen it, then take what it may give. */
  function Visit(m: Mux, f: Forming, i: int, now: int, bs: int): (r: Forming)
    requires i in f.pads && PicksIn(f.pads, f.picks)
    ensures r.pads.Keys == f.pads.Keys && PicksIn(r.pads, r.picks)
  {
    var p := f.pads[i];
    if p.Done() then f
    else
      var s := Screen(m, p, now);
      var n := Min(Min(s.onTime, AllowedRepeats(m.cfg, p, bs)), bs - |f.picks|);
      f.(pads := f.pads[i := Thin(p, s)],
         late := f.late + Tagged(i, s.late),
         picks := f.picks + Tagged(i, s.kept[..Max(0, Min(n, |s.kept|))]))
  }

  /** A carried cursor in a list of `n`, whatever became of the list since. */
  function Remainder(c: nat, n: nat): (r: nat)
    requires n > 0
    ensures r < n && (c < n ==> r == c)
  {
    c % n
  }

  /** Position `k` of a list of `n` read cyclically from `start`. */
  function Turn(start: nat, k: nat, n: nat): (r: nat)
    requires start < n && k < n
    ensures r < n
  {
    if start + k < n then start + k else start + k - n
  }

  /** ... which is what the source's remainder computes. */
  lemma TurnIsRemainder(start: nat, k: nat, n: nat)
    requires start < n && k < n
    ensures Turn(start, k, n) == (start + k) % n
  {
  }

  function After(start: nat, k: nat, n: nat): (r: nat)
    requires start < n && k < n
    ensures r < n
  {
    if Turn(start, k, n) + 1 == n then 0 else Turn(start, k, n) + 1
  }

  /** One entry of the round: the pad to visit, and where the cursor goes if that
      visit fills the batch. */
  datatype Entry = Entry(pad: int, nextPriority: nat, nextSource: nat)

  ghost predicate EntriesIn(entries: seq<Entry>, pads: map<int, Pad>) {
    forall k :: 0 <= k < |entries| ==> entries[k].pad in pads
  }

  /** The round through one group, cyclically from `start`. */
  function GroupEntries(srcs: seq<int>, start: nat, priorityPos: nat): (r: seq<Entry>)
    requires srcs != [] ==> start < |srcs|
  {
    seq(|srcs|, si requires 0 <= si < |srcs| =>
      Entry(srcs[Turn(start, si, |srcs|)], priorityPos, After(start, si, |srcs|)))
  }

  /** The round through the groups from number `gi` on; only the first group
      starts at the carried cursor. */
  function RoundEntries(groups: seq<seq<int>>, pStart: nat, start: nat, gi: nat): seq<Entry>
    requires gi < |groups| ==> pStart < |groups| && (groups[pStart] != [] ==> start < |groups[pStart]|)
    decreases |groups| - gi
  {
    if gi >= |groups| then []
    else
      var pos := Turn(pStart, gi, |groups|);
      GroupEntries(groups[pos], if gi == 0 then start else 0, pos) + RoundEntries(groups, pStart, start, gi + 1)
  }

  /** Visits pad after pad until the batch is full; a full batch moves the cursor. */
  function Fill(m: Mux, f: Forming, entries: seq<Entry>, now: int, bs: int): (r: Forming)
    requires EntriesIn(entries, f.pads) && PicksIn(f.pads, f.picks)
    ensures r.pads.Keys == f.pads.Keys && PicksIn(r.pads, r.picks)
    decreases |entries|
  {
    if entries == [] then f
    else
      var g := Visit(m, f, entries[0].pad, now, bs);
      if |g.picks| >= bs then g.(rrPriority := entries[0].nextPriority, rrSource := entries[0].nextSource)
      else Fill(m, g, entries[1..], now, bs)
  }

  function Groups(m: Mux): (r: seq<seq<int>>)
    requires AllIn(m.order, m.pads)
    ensures forall g :: 0 <= g < |r| ==> AllIn(r[g], m.pads)
  {
    var ps := Priorities(m.pads, m.order);
    seq(|ps|, k requires 0 <= k < |ps| => Group(m.pads, m.order, ps[k]))
  }

  /** The whole round of this batch, from the carried cursor. */
  function Round(m: Mux): (r: seq<Entry>)
    requires AllIn(m.order, m.pads)
    ensures EntriesIn(r, m.pads)
  {
    var groups := Groups(m);
    if groups == [] then []
    else
      var pStart := if m.cfg.roundRobin then Remainder(m.rrPriority, |groups|) else 0;
      var first := groups[pStart];
      var start := if m.cfg.roundRobin && first != [] then Remainder(m.rrSource, |first|) else 0;
      EntriesAreIn(m.pads, groups, pStart, start, 0);
      RoundEntries(groups, pStart, start, 0)
  }

  lemma {:induction false} EntriesAreIn(pads: map<int, Pad>, groups: seq<seq<int>>, pStart: nat, start: nat, gi: nat)
    requires gi < |groups| ==> pStart < |groups| && (groups[pStart] != [] ==> start < |groups[pStart]|)
    requires forall g :: 0 <= g < |groups| ==> AllIn(groups[g], pads)
    ensures EntriesIn(RoundEntries(groups, pStart, start, gi), pads)
    decreases |groups| - gi
  {
    if gi < |groups| {
      EntriesAreIn(pads, groups, pStart, start, gi + 1);
    }
  }

  function FormNew(m: Mux, now: int): (r: Forming)
    requires m.cfg.overallMaxFps > 0.0 && AllIn(m.order, m.pads)
    ensures r.pads.Keys == m.pads.Keys && PicksIn(r.pads, r.picks)
  {
    var bs := NewBatchSize(m);
    if m.pads == map[] || bs <= 0 then Blank(m)
    else
      var f := Fill(m, Blank(m), Round(m), now, bs);
      var ready := |f.picks| >= bs;
      var maxDur := m.cfg.MinFpsDur();
      var due := m.lastBatch.Some? && maxDur.Some? && now >= m.lastBatch.value + maxDur.value;
      var throttled := m.cfg.maxFpsControl && m.lastBatch.Some? &&
                       now < m.lastBatch.value + m.cfg.MaxFpsDur();
      f.(go := (ready || due) && !throttled)
  }

  function Form(m: Mux, now: int): (r: Forming)
    requires m.cfg.overallMaxFps > 0.0 && AllIn(m.order, m.pads)
    ensures r.pads.Keys == m.pads.Keys && PicksIn(r.pads, r.picks)
  {
    if m.cfg.policy == Legacy then FormLegacy(m, now) else FormNew(m, now)
  }

  /** The mux with the queues and the cursor as batch formation left them. */
  function Formed(m: Mux, f: Forming): Mux {
    m.(pads := f.pads, rrPriority := f.rrPriority, rrSource := f.rrSource,
       stats := m.stats.(droppedLate := m.stats.droppedLate + |f.late|))
  }

  // ---------------------------------------------------------------- emission

  function TakeFrom(p: Pad, n: nat, now: int): Pad {
    if n == 0 then p
    else p.(queue := p.queue[Min(n, |p.queue|)..], frameCount := p.frameCount + n, lastPush := Some(now))
  }

  function Meta(m: Mux, picks: seq<Pick>, k: nat): FrameMeta
    requires k < |picks| && picks[k].pad in m.pads
  {
    var p := m.pads[picks[k].pad];
    var q := picks[k].q;
    FrameMeta(p.index, p.sourceId, k,
              if m.cfg.policy == Legacy then q.seqNum else p.frameCount + |On(picks[..k], picks[k].pad)|,
              q.pts, q.ntp, q.width, q.height, q.payload, q.recv)
  }

  function Metas(m: Mux, picks: seq<Pick>): seq<FrameMeta>
    requires forall k :: 0 <= k < |picks| ==> picks[k].pad in m.pads
  {
    seq(|picks|, k requires 0 <= k < |picks| => Meta(m, picks, k))
  }

  /** The first nonzero frame duration among the pads, in pad order. */
  function FirstKnownDuration(pads: map<int, Pad>, ids: seq<int>): int
    requires AllIn(ids, pads)
    decreases |ids|
  {
    if ids == [] then 0
    else if pads[ids[0]].frameDuration != 0 then pads[ids[0]].frameDuration
    else FirstKnownDuration(pads, ids[1..])
  }

  /** `_frame_duration_for_pts`, which remembers its first nonzero answer. */
  function FrameDuration(m: Mux): int
    requires AllIn(m.order, m.pads)
  {
    if m.firstDuration != 0 then m.firstDuration
    else if m.firstPad.Some? && m.firstPad.value in m.pads && m.pads[m.firstPad.value].frameDuration != 0
    then m.pads[m.firstPad.value].frameDuration
    else FirstKnownDuration(m.pads, m.order)
  }

  function PtsOffset(m: Mux): int {
    if m.cfg.policy == New
    then (match m.firstPush case None => 0 case Some(t) => t) - (match m.base case None => 0 case Some(t) => t)
    else 0
  }

  function LatestRunningTime(m: Mux, picks: seq<Pick>): int
    requires picks != []
    requires forall k :: 0 <= k < |picks| ==> picks[k].pad in m.pads
  {
    var n := |picks| - 1;
    var rt := m.pads[picks[n].pad].RunningTime(picks[n].q.pts);
    if n == 0 then rt else Max(LatestRunningTime(m, picks[..n]), rt)
  }

  predicate CountsBatches(cfg: MuxConfig) {
    !cfg.syncInputs && !(cfg.policy == Legacy && cfg.liveSource)
  }

  function BasePts(m: Mux, picks: seq<Pick>, now: int): int
    requires picks != []
    requires forall k :: 0 <= k < |picks| ==> picks[k].pad in m.pads
    requires AllIn(m.order, m.pads)
  {
    if m.cfg.syncInputs then LatestRunningTime(m, picks)
    else if m.cfg.policy == Legacy && m.cfg.liveSource then m.RunningTime(now)
    else m.batchIndex * FrameDuration(m) + PtsOffset(m)
  }

  function OutputPts(m: Mux, picks: seq<Pick>, now: int): int
    requires picks != []
    requires forall k :: 0 <= k < |picks| ==> picks[k].pad in m.pads
    requires AllIn(m.order, m.pads)
  {
    var pts := BasePts(m, picks, now);
    if m.prevPts == Some(pts) then pts + PTS_BUMP else pts
  }

  function MaxFramesInBatch(m: Mux): int {
    if m.cfg.policy == New && m.cfg.adaptive then Max(m.cfg.batchSize, |m.pads|) else m.cfg.batchSize
  }

  function EmitBatch(m: Mux, picks: seq<Pick>, now: int): Batch
    requires picks != []
    requires forall k :: 0 <= k < |picks| ==> picks[k].pad in m.pads
    requires AllIn(m.order, m.pads)
  {
    Batch(Metas(m, picks), OutputPts(m, picks, now), m.batchIndex, MaxFramesInBatch(m), now)
  }

  function EmitMux(m: Mux, picks: seq<Pick>, now: int): Mux
    requires picks != []
    requires forall k :: 0 <= k < |picks| ==> picks[k].pad in m.pads
    requires AllIn(m.order, m.pads)
  {
    m.(pads := map i | i in m.pads :: TakeFrom(m.pads[i], |On(picks, i)|, now),
       firstDuration := if CountsBatches(m.cfg) then FrameDuration(m) else m.firstDuration,
       prevPts := Some(OutputPts(m, picks, now)),
       batchIndex := m.batchIndex + 1,
       lastBatch := Some(now),
       stats := m.stats.(batches := m.stats.batches + 1, frames := m.stats.frames + |picks|))
  }

  // ---------------------------------------------------------------- poll

  /** What a call does: the new state, what comes out, the queued frames it
      closed, and the frames it moved into a batch. */
  datatype Effect = Effect(mux: Mux, outs: seq<Output>, lost: seq<Pick>, picks: seq<Pick>)

  function Notices(events: seq<Event>): seq<Output> {
    seq(|events|, k requires 0 <= k < |events| => Notice(events[k]))
  }

  function EosStage(m: Mux): (r: Effect)
    requires AllIn(m.order, m.pads)
    ensures r.mux.cfg == m.cfg && r.mux.order == m.order && r.mux.pads.Keys == m.pads.Keys
  {
    Effect(ForwardEos(m), Notices(EosNotices(m.pads, m.order)), [], [])
  }

  function BatchStage(m: Mux, now: int): (r: Effect)
    requires m.cfg.overallMaxFps > 0.0 && AllIn(m.order, m.pads)
    ensures r.mux.cfg == m.cfg && r.mux.order == m.order && r.mux.pads.Keys == m.pads.Keys
  {
    var f := Form(m, now);
    var m' := Formed(m, f);
    if f.picks != [] && f.go
    then Effect(EmitMux(m', f.picks, now), [Frames(EmitBatch(m', f.picks, now))], f.late, f.picks)
    else Effect(m', [], f.late, [])
  }

  function EndStage(m: Mux): Effect {
    if m.pads != map[] && !m.eosSent && m.AllEos()
    then Effect(m.(eosSent := true), [Notice(Eos)], [], [])
    else Effect(m, [], [], [])
  }

  /** The pads that are drained, at most one batch, the pads that this batch
      drained, and the end of the stream. */
  function PollBody(m: Mux, now: int): Effect
    requires m.cfg.overallMaxFps > 0.0 && AllIn(m.order, m.pads)
  {
    var e1 := EosStage(m);
    var e2 := BatchStage(e1.mux, now);
    var e3 := if e2.picks != [] then EosStage(e2.mux) else Effect(e2.mux, [], [], []);
    var e4 := EndStage(e3.mux);
    Effect(e4.mux, e1.outs + e2.outs + e3.outs + e4.outs, e2.lost, e2.picks)
  }

  function Poll(m: Mux, now: int): Effect
    requires m.cfg.overallMaxFps > 0.0 && AllIn(m.order, m.pads)
  {
    var e := PollBody(m.(pending := []), now);
    e.(outs := Notices(m.pending) + e.outs)
  }

  // ---------------------------------------------------------------- the other calls

  datatype Reply =
    | NoSuchPad             // KeyError
    | PadExists             // ValueError
    | Returned(ok: bool)
    | Blocked               // the producer waits inside push_frame

  function AddPad(m: Mux, i: int, sourceId: Option<int>, scfg: Option<SourceConfig>): (Mux, Reply) {
    if i in m.pads then (m, PadExists)
    else
      var p := NewPad(m.cfg, i, sourceId, scfg);
      (m.(pads := m.pads[i := p], order := m.order + [i], eosSent := false,
          pending := m.pending + [PadAdded(i, p.sourceId)]),
       Returned(true))
  }

  /** list.remove: the first occurrence goes. */
  function Without(s: seq<int>, x: int): seq<int> {
    if s == [] then [] else if s[0] == x then s[1..] else [s[0]] + Without(s[1..], x)
  }

  /** `lost` are the frames still queued on the pad, which are closed. */
  function RemovePad(m: Mux, i: int): (Effect, Reply) {
    if i !in m.pads then (Effect(m, [], [], []), NoSuchPad)
    else
      var p := m.pads[i];
      (Effect(m.(pads := m.pads - {i}, order := Without(m.order, i),
                 stats := m.stats.(droppedOverflow := m.stats.droppedOverflow + |p.queue|),
                 pending := m.pending + [PadDeleted(i, p.sourceId)]),
              [], Tagged(i, p.queue), []),
       Returned(true))
  }

  /** Everything push_frame records before it looks at the queue. */
  function RecordPad(p: Pad, pts: int, duration: int): Pad {
    p.(frameDuration := if duration != 0 then duration
                        else if p.lastPts.Some? && pts > p.lastPts.value && p.frameDuration == 0
                        then pts - p.lastPts.value else p.frameDuration,
       lastPts := Some(pts),
       segmentStart := if p.segmentStart.None? then Some(pts) else p.segmentStart,
       segmentSent := true)
  }

  function Append(p: Pad, a: Arrival, now: int): Pad {
    p.(queue := p.queue + [Queued(a.payload, a.pts, a.width, a.height, a.ntp, now, p.received)],
       received := p.received + 1)
  }

  datatype Pushed = Pushed(pad: Pad, lost: seq<Queued>, reply: Reply)

  /** One pad in push_frame: the frame is queued, or its producer waits, or the
      oldest frame makes room for it. */
  function PushPad(cfg: MuxConfig, p: Pad, a: Arrival, duration: int, now: int): Pushed
    requires p.depth >= 1
  {
    var r := RecordPad(p, a.pts, duration);
    if |r.queue| < r.depth then Pushed(Append(r, a, now), [], Returned(true))
    else if cfg.BlocksWhenFull() then Pushed(r.(blocked := Some(a)), [], Blocked)
    else
      Pushed(Append(r.(queue := r.queue[1..], dropped := r.dropped + 1), a, now), [r.queue[0]], Returned(false))
  }

  predicate Refuses(p: Pad) { p.eosPending || p.eos }

  /** The arrival stamp of push_frame: the wall clock unless the caller gives one. */
  function StampNtp(cfg: MuxConfig, ntp: Option<int>, wall: int): int {
    match ntp case Some(t) => t case None => if cfg.attachSysTs then wall else 0
  }

  /** The first frame of all starts the clocks. */
  function Noted(m: Mux, i: int, now: int): Mux {
    m.(base := if m.base.None? then Some(now) else m.base,
       firstPush := if m.firstPush.None? then Some(now) else m.firstPush,
       firstPad := if m.firstPush.None? then Some(i) else m.firstPad,
       lastBatch := if m.firstPush.None? then Some(now) else m.lastBatch)
  }

  /** push_frame on a pad that takes frames. */
  function PushOpen(m: Mux, i: int, a: Arrival, duration: int, now: int): (Effect, Reply)
    requires m.WellFormed() && i in m.pads
  {
    var p := m.pads[i];
    var r := PushPad(m.cfg, p, a, duration, now);
    (Effect(m.(pads := m.pads[i := r.pad],
               pending := if p.segmentSent then m.pending else m.pending + [StreamSegment(i, p.sourceId, a.pts)],
               stats := m.stats.(droppedOverflow := m.stats.droppedOverflow + |r.lost|)),
            [], Tagged(i, r.lost), []),
     r.reply)
  }

  /** push_frame up to the point where it returns or starts to wait. A refused
      payload is closed at once; `duration` is 0 when none is given. */
  function Push(m: Mux, i: int, a: Arrival, duration: int, now: int): (Effect, Reply)
    requires m.WellFormed()
  {
    if i !in m.pads then (Effect(m, [], [], []), NoSuchPad)
    else if Refuses(m.pads[i]) then (Effect(m, [], [], []), Returned(false))
    else PushOpen(Noted(m, i, now), i, a, duration, now)
  }

  /** The condition under which a waiting producer leaves the wait loop. Its own
      end of stream comes after its last frame, so `eosPending` plays no part. */
  predicate CanResume(m: Mux, i: int) {
    i in m.pads && m.pads[i].blocked.Some? && (m.stopping || |m.pads[i].queue| < m.pads[i].depth)
  }

  /** The rest of push_frame after the wait: refused when stopping, queued otherwise. */
  function Resume(m: Mux, i: int, now: int): (Mux, Reply)
    requires CanResume(m, i)
  {
    var p := m.pads[i].(blocked := None);
    if m.stopping then (m.(pads := m.pads[i := p]), Returned(false))
    else (m.(pads := m.pads[i := Append(p, m.pads[i].blocked.value, now)]), Returned(true))
  }

  function PushEos(m: Mux, i: int): (Mux, Reply) {
    if i !in m.pads then (m, NoSuchPad)
    else
      var p := m.pads[i];
      if !p.eos && !p.eosPending
      then (m.(pads := m.pads[i := p.(eosPending := true)]), Returned(true))
      else (m, Returned(true))
  }

  function Start(m: Mux, now: int): Mux {
    m.(base := Some(now), stopping := false)
  }

  function Stop(m: Mux): Mux {
    m.(stopping := true)
  }
}
