/** The sync filter splits a queue in three: late frames are dropped, on-time
    frames are counted, early frames wait. */
module SyncSplit {
  import opened MuxTypes
  import opened MuxSpec

  /** The window of one scan, on the running time line of the pad. */
  datatype Window = Window(seg: int, cur: int, minDur: int, maxLatency: int)
  {
    predicate Early(q: Queued) { q.pts - seg > cur - minDur }

    predicate Late(q: Queued) { !Early(q) && q.pts - seg + maxLatency < cur - minDur }

    predicate OnTime(q: Queued) { !Early(q) && !Late(q) }
  }

  function Scan(w: Window, q: seq<Queued>): Screened {
    SyncScan(q, |q|, w.seg, w.cur, w.minDur, w.maxLatency)
  }

  lemma ScanStep(w: Window, q: seq<Queued>)
    requires q != []
    ensures var r := Scan(w, q[1..]);
            Scan(w, q) == if w.Early(q[0]) then Screened(q, [], 0)
                          else if w.Late(q[0]) then Screened(r.kept, [q[0]] + r.late, r.onTime)
                          else Screened([q[0]] + r.kept, r.late, r.onTime + 1)
  {
  }

  /** Presentation times as a decoder delivers them. */
  ghost predicate InPtsOrder(q: seq<Queued>) {
    forall a, b :: 0 <= a < b < |q| ==> q[a].pts <= q[b].pts
  }

  /** Up to the first early frame, the late frames are dropped and the others counted. */
  function BeforeEarly(w: Window, q: seq<Queued>): nat
    ensures BeforeEarly(w, q) <= |q|
    ensures BeforeEarly(w, q) < |q| ==> w.Early(q[BeforeEarly(w, q)])
    ensures forall k :: 0 <= k < BeforeEarly(w, q) ==> !w.Early(q[k])
  {
    if q == [] || w.Early(q[0]) then 0 else 1 + BeforeEarly(w, q[1..])
  }

  function Keep(w: Window, q: seq<Queued>, late: bool): seq<Queued> {
    if q == [] then []
    else (if w.Late(q[0]) == late then [q[0]] else []) + Keep(w, q[1..], late)
  }

  /** Of the frames before the first early one, the late are dropped and the others
      counted; everything from the early one on stays. */
  function Exact(w: Window, q: seq<Queued>): Screened {
    var n := BeforeEarly(w, q);
    Screened(Keep(w, q[..n], false) + q[n..], Keep(w, q[..n], true), |Keep(w, q[..n], false)|)
  }

  lemma ExactStep(w: Window, q: seq<Queued>)
    requires q != [] && !w.Early(q[0])
    ensures var r := Exact(w, q[1..]);
            Exact(w, q) == if w.Late(q[0]) then Screened(r.kept, [q[0]] + r.late, r.onTime)
                           else Screened([q[0]] + r.kept, r.late, r.onTime + 1)
  {
    var n, t := BeforeEarly(w, q), q[1..];
    KeepCons(w, q, n, true);
    KeepCons(w, q, n, false);
    assert q[n..] == t[n - 1..];
    hide Keep;
    var kept := Keep(w, t[..n - 1], false);
    assert ([q[0]] + kept) + t[n - 1..] == [q[0]] + (kept + t[n - 1..]);
  }

  /** What the scan does to any queue, in whatever order its timestamps come. */
  lemma {:induction false} ScanExactly(w: Window, q: seq<Queued>)
    ensures Scan(w, q) == Exact(w, q)
  {
    if q != [] && !w.Early(q[0]) {
      ScanStep(w, q);
      ExactStep(w, q);
      ScanExactly(w, q[1..]);
      hide Scan, Exact;
    } else {
      assert q[..0] == [] && q[0..] == q;
    }
  }

  lemma KeepCons(w: Window, q: seq<Queued>, n: nat, late: bool)
    requires 0 < n <= |q|
    ensures Keep(w, q[..n], late) ==
            if w.Late(q[0]) == late then [q[0]] + Keep(w, q[1..][..n - 1], late) else Keep(w, q[1..][..n - 1], late)
  {
    assert q[..n][1..] == q[1..][..n - 1];
  }

  lemma {:induction false} KeepOnTime(w: Window, q: seq<Queued>)
    requires forall k :: 0 <= k < |q| ==> !w.Early(q[k])
    ensures forall k :: 0 <= k < |Keep(w, q, false)| ==> w.OnTime(Keep(w, q, false)[k])
  {
    if q != [] {
      KeepOnTime(w, q[1..]);
    }
  }

  /** Repeating the call at the same time drops nothing and counts the same frames. */
  lemma {:induction false} ScanAgain(w: Window, q: seq<Queued>)
    ensures Scan(w, Scan(w, q).kept) == Screened(Scan(w, q).kept, [], Scan(w, q).onTime)
  {
    if q != [] && !w.Early(q[0]) {
      ScanAgain(w, q[1..]);
      if !w.Late(q[0]) {
        assert ([q[0]] + Scan(w, q[1..]).kept)[1..] == Scan(w, q[1..]).kept;
      }
    }
  }

  /** Late frames first, then `onTime` frames in the window, then early ones. */
  ghost predicate ThreeWay(w: Window, q: seq<Queued>, r: Screened) {
    && q == r.late + r.kept && 0 <= r.onTime <= |r.kept|
    && (forall k :: 0 <= k < |r.late| ==> w.Late(r.late[k]))
    && (forall k :: 0 <= k < r.onTime ==> w.OnTime(r.kept[k]))
    && (forall k :: r.onTime <= k < |r.kept| ==> w.Early(r.kept[k]))
  }

  /** Late is 0, on-time 1, early 2. */
  function Class(w: Window, x: Queued): nat {
    if w.Early(x) then 2 else if w.Late(x) then 0 else 1
  }

  ghost predicate NeverFalls(w: Window, q: seq<Queued>) {
    forall a, b :: 0 <= a < b < |q| ==> Class(w, q[a]) <= Class(w, q[b])
  }

  /** The scan splits a queue in three exactly when no frame stands behind one of a
      later class. */
  lemma ThreeWayExactly(w: Window, q: seq<Queued>)
    ensures ThreeWay(w, q, Scan(w, q)) <==> NeverFalls(w, q)
  {
    if NeverFalls(w, q) {
      NeverFallsSplits(w, q);
    } else if ThreeWay(w, q, Scan(w, q)) {
      SplitNeverFalls(w, q, Scan(w, q));
    }
  }

  lemma SplitNeverFalls(w: Window, q: seq<Queued>, r: Screened)
    requires ThreeWay(w, q, r)
    ensures NeverFalls(w, q)
  {
    var n, k := |r.late|, r.onTime;
    forall j | 0 <= j < |q| ensures Class(w, q[j]) == if j < n then 0 else if j < n + k then 1 else 2 {
      assert q[j] == if j < n then r.late[j] else r.kept[j - n];
    }
  }

  lemma {:induction false} NeverFallsSplits(w: Window, q: seq<Queued>)
    requires NeverFalls(w, q)
    ensures ThreeWay(w, q, Scan(w, q))
  {
    if q != [] {
      var t := q[1..];
      ScanStep(w, q);
      if w.Early(q[0]) {
        assert forall k :: 0 < k < |q| ==> Class(w, q[0]) <= Class(w, q[k]);
      } else {
        NeverFallsSplits(w, t);
        if w.OnTime(q[0]) {
          NothingLater(w, q);
        }
        hide Scan;
        ThreeWayStep(w, q, Scan(w, t));
      }
    }
  }

  lemma ThreeWayStep(w: Window, q: seq<Queued>, r: Screened)
    requires q != [] && ThreeWay(w, q[1..], r)
    ensures w.Late(q[0]) ==> ThreeWay(w, q, Screened(r.kept, [q[0]] + r.late, r.onTime))
    ensures w.OnTime(q[0]) && r.late == [] ==> ThreeWay(w, q, Screened([q[0]] + r.kept, r.late, r.onTime + 1))
  {
    assert q == [q[0]] + q[1..];
  }

  /** Behind an on-time frame no frame is late, if the classes never fall. */
  lemma {:induction false} NothingLater(w: Window, q: seq<Queued>)
    requires NeverFalls(w, q) && q != [] && w.OnTime(q[0])
    ensures Scan(w, q[1..]).late == []
    decreases |q|
  {
    var t := q[1..];
    if t != [] && !w.Early(t[0]) {
      assert Class(w, q[0]) <= Class(w, q[1]);
      NothingLater(w, t);
    }
  }

  /** With timestamps in order, the split is late frames, then on-time frames,
      then early frames, and exactly the late prefix is gone. */
  lemma ScanThreeWay(w: Window, q: seq<Queued>)
    requires InPtsOrder(q)
    ensures ThreeWay(w, q, Scan(w, q))
  {
    assert NeverFalls(w, q);
    ThreeWayExactly(w, q);
  }

  /** The window in which `_sync_filter` looks at pad `p` of `m`. */
  function WindowOf(m: Mux, p: Pad, now: int): Window {
    Window(-p.RunningTime(0), m.RunningTime(now), m.cfg.MinFpsDurOrZero(), m.cfg.maxLatency)
  }

  /** `_sync_filter` on a whole queue is the scan in that window, once the clock has run one minimum period. */
  lemma FilterScans(m: Mux, p: Pad, now: int)
    ensures SyncFilter(m, p, |p.queue|, now) ==
            if m.RunningTime(now) < m.cfg.MinFpsDurOrZero() then Screened(p.queue, [], |p.queue|)
            else Scan(WindowOf(m, p, now), p.queue)
  {
  }

  /** When a frame is early and when it is late, in time since the start of the mux and
      since the first frame of its pad. */
  lemma WindowMeans(m: Mux, p: Pad, now: int, q: Queued)
    requires m.base.Some? && p.segmentStart.Some?
    ensures var (w, elapsed, age) := (WindowOf(m, p, now), Max(0, now - m.base.value), q.pts - p.segmentStart.value);
            var period := if m.cfg.timeoutUs > 0 then m.cfg.timeoutUs * 1000 else 0;
            && (w.Early(q) <==> age > elapsed - period)
            && (w.Late(q) <==> age <= elapsed - period && age + m.cfg.maxLatency < elapsed - period)
            && (w.OnTime(q) <==> elapsed - period - m.cfg.maxLatency <= age <= elapsed - period)
  {
  }

  /** Until the clock has run one period everything queued may go; from then on the frames
      before the first early one do, unless they are late. */
  lemma FilterIs(m: Mux, p: Pad, now: int)
    requires m.base.Some?
    ensures var period := if m.cfg.timeoutUs > 0 then m.cfg.timeoutUs * 1000 else 0;
            SyncFilter(m, p, |p.queue|, now) ==
            if Max(0, now - m.base.value) < period then Screened(p.queue, [], |p.queue|) else Exact(WindowOf(m, p, now), p.queue)
  {
    FilterScans(m, p, now);
    ScanExactly(WindowOf(m, p, now), p.queue);
    hide Exact, Scan, SyncScan;
  }
}
