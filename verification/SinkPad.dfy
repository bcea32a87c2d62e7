/** A pad of the batch former: an object that every call updates in place. */
module SinkPads {
  import opened Shared
  import opened MuxTypes
  import opened MuxSpec

  /** A scan that so far kept `kept`, closed `late` and counted `n` on time. */
  ghost function Joined(kept: seq<Queued>, late: seq<Queued>, n: int, rest: Screened): Screened {
    Screened(kept + rest.kept, late + rest.late, n + rest.onTime)
  }

  lemma ScanStarts(q: seq<Queued>, avail: int, seg: int, cur: int, minDur: int, maxLatency: int)
    ensures SyncScan(q, avail, seg, cur, minDur, maxLatency) ==
            Joined(q[..0], [], 0, SyncScan(q[0..], avail, seg, cur, minDur, maxLatency))
  {
    hide SyncScan;
    assert q[0..] == q;
    var s := SyncScan(q, avail, seg, cur, minDur, maxLatency);
    assert [] + s.kept == s.kept && [] + s.late == s.late;
  }

  lemma DeleteAt(q: seq<Queued>, i: nat)
    requires i < |q|
    ensures (q[..i] + q[i + 1..])[..i] == q[..i] && (q[..i] + q[i + 1..])[i..] == q[i + 1..]
  {
  }

  lemma ScanEnds(kept: seq<Queued>, late: seq<Queued>, n: int, q: seq<Queued>, avail: int,
                 seg: int, cur: int, minDur: int, maxLatency: int)
    requires q == [] || avail <= 0 || q[0].pts - seg > cur - minDur
    ensures Joined(kept, late, n, SyncScan(q, avail, seg, cur, minDur, maxLatency)) == Screened(kept + q, late, n)
  {
    assert late + [] == late;
  }

  lemma ScanGoesOn(kept: seq<Queued>, late: seq<Queued>, n: int, q: seq<Queued>, avail: int,
                   seg: int, cur: int, minDur: int, maxLatency: int)
    requires q != [] && avail > 0 && q[0].pts - seg <= cur - minDur
    ensures var rest := SyncScan(q[1..], avail - 1, seg, cur, minDur, maxLatency);
            Joined(kept, late, n, SyncScan(q, avail, seg, cur, minDur, maxLatency)) ==
            if q[0].pts - seg + maxLatency < cur - minDur then Joined(kept, late + [q[0]], n, rest)
            else Joined(kept + [q[0]], late, n + 1, rest)
  {
  }

  /** Per-source input queue. */
  class SinkPad {
    const padIndex: int
    const sourceId: int
    const cfg: SourceConfig
    const queueDepth: int
    var queue: seq<Queued>
    var frameCount: nat
    var received: nat
    var dropped: nat
    var eosPending: bool
    var eos: bool
    var segmentSent: bool
    var frameDuration: int
    var lastPts: Option<int>
    var segmentStart: Option<int>
    var lastPush: Option<int>
    var blocked: Option<Arrival>

    constructor (padIndex: int, sourceId: Option<int>, scfg: Option<SourceConfig>, muxCfg: MuxConfig)
      ensures Value() == NewPad(muxCfg, padIndex, sourceId, scfg)
    {
      this.padIndex := padIndex;
      this.sourceId := if sourceId.None? then padIndex else sourceId.value;
      this.cfg := match scfg
        case Some(s) => s
        case None => if padIndex in muxCfg.sources then muxCfg.sources[padIndex] else DEFAULT_SOURCE;
      this.queueDepth := muxCfg.queueDepth;
      queue, frameCount, received, dropped := [], 0, 0, 0;
      eosPending, eos, segmentSent, frameDuration := false, false, false, 0;
      lastPts, segmentStart, lastPush, blocked := None, None, None, None;
    }

    function Value(): Pad
      reads this
    {
      Pad(padIndex, sourceId, cfg, queue, queueDepth, frameCount, received, dropped, eosPending, eos, segmentSent,
          frameDuration, lastPts, segmentStart, lastPush, blocked)
    }

    method ResetFrameCount()
      modifies this
      ensures Value() == old(Value()).(frameCount := 0, received := 0)
    {
      frameCount, received := 0, 0;
    }

    /** The end of stream goes downstream once the queue is drained. */
    method CloseIfDrained(muxCfg: MuxConfig) returns (events: seq<Event>)
      modifies this
      ensures Value() == ClosePad(muxCfg, old(Value()))
      ensures events == if old(Closing(Value())) then [StreamEos(padIndex, sourceId)] else []
    {
      events := [];
      if eosPending && queue == [] && !eos {
        eos, eosPending := true, false;
        if muxCfg.resetOnEos {
          ResetFrameCount();
        }
        events := [StreamEos(padIndex, sourceId)];
      }
    }

    /** What push_frame records before it looks at the queue. */
    method Record(pts: int, duration: int)
      modifies this`frameDuration, this`lastPts, this`segmentStart, this`segmentSent
      ensures Value() == RecordPad(old(Value()), pts, duration)
    {
      if duration != 0 {
        frameDuration := duration;
      } else if lastPts.Some? && pts > lastPts.value && frameDuration == 0 {
        frameDuration := pts - lastPts.value;
      }
      lastPts := Some(pts);
      if segmentStart.None? {
        segmentStart := Some(pts);
      }
      segmentSent := true;
    }

    method Enqueue(a: Arrival, now: int)
      modifies this`queue, this`received
      ensures Value() == Append(old(Value()), a, now)
    {
      var number := received;
      received := received + 1;
      queue := queue + [Queued(a.payload, a.pts, a.width, a.height, a.ntp, now, number)];
    }

    /** The frame is queued, or its producer waits, or the oldest frame goes. */
    method Accept(muxCfg: MuxConfig, a: Arrival, duration: int, now: int) returns (reply: Reply, lost: seq<Queued>)
      requires queueDepth >= 1
      modifies this
      ensures Pushed(Value(), lost, reply) == PushPad(muxCfg, old(Value()), a, duration, now)
    {
      Record(a.pts, duration);
      reply, lost := Returned(true), [];
      if |queue| >= queueDepth {
        if muxCfg.BlocksWhenFull() {
          blocked := Some(a);
          return Blocked, [];
        }
        reply, lost := Returned(false), [queue[0]];
        queue := queue[1..];
        dropped := dropped + 1;
      }
      Enqueue(a, now);
    }

    /** A waiting producer goes on: refused when the mux stops, queued otherwise. */
    method LeaveWait(stopping: bool, now: int) returns (taken: bool)
      requires blocked.Some?
      modifies this
      ensures taken == !stopping
      ensures var p := old(Value()).(blocked := None);
              Value() == if stopping then p else Append(p, old(blocked).value, now)
    {
      var a := blocked.value;
      blocked := None;
      if !stopping {
        Enqueue(a, now);
      }
      return !stopping;
    }

    /** The frame at the head of the queue goes into a batch. */
    method Give(q: Queued) returns (number: nat)
      requires queue != [] && queue[0] == q
      modifies this`queue, this`frameCount
      ensures Value() == old(Value()).(queue := old(queue)[1..], frameCount := old(frameCount) + 1)
      ensures number == old(frameCount)
    {
      RemoveFrame(q);
      number := frameCount;
      frameCount := frameCount + 1;
    }

    /** Drops late frames among the first `avail`, stops at the first early one and
        counts those on time. */
    method ScanLate(avail: int, cur: int, minDur: int, maxLatency: int) returns (onTime: int, late: seq<Queued>)
      modifies this`queue, this`dropped
      ensures var s := SyncScan(old(queue), avail, -old(Value()).RunningTime(0), cur, minDur, maxLatency);
              Value() == Thin(old(Value()), s) && onTime == s.onTime && late == s.late
    {
      ghost var q0, p0, seg := queue, Value(), -Value().RunningTime(0);
      hide SyncScan, Joined;
      var i, left := 0, avail;
      late, onTime := [], 0;
      ScanStarts(q0, left, seg, cur, minDur, maxLatency);
      while i < |queue| && i < left
        invariant 0 <= i <= |queue| && onTime == i
        invariant dropped == p0.dropped + |late|
        invariant SyncScan(q0, avail, seg, cur, minDur, maxLatency) ==
                  Joined(queue[..i], late, i, SyncScan(queue[i..], left - i, seg, cur, minDur, maxLatency))
        decreases |queue| - i
      {
        var q := queue[i];
        var rt := q.pts - (match segmentStart case None => 0 case Some(s) => s);
        if rt > cur - minDur {
          break;
        }
        ScanGoesOn(queue[..i], late, i, queue[i..], left - i, seg, cur, minDur, maxLatency);
        assert queue[i..][1..] == queue[i + 1..];
        if rt + maxLatency < cur - minDur {
          DeleteAt(queue, i);
          queue := queue[..i] + queue[i + 1..];
          late := late + [q];
          dropped := dropped + 1;
          left := left - 1;
        } else {
          assert queue[..i] + [q] == queue[..i + 1];
          onTime := onTime + 1;
          i := i + 1;
        }
      }
      ScanEnds(queue[..i], late, i, queue[i..], left - i, seg, cur, minDur, maxLatency);
      assert queue[..i] + queue[i..] == queue;
    }

    /** deque.remove: the first frame equal to `q` goes. */
    method RemoveFrame(q: Queued)
      requires q in queue
      modifies this`queue
      ensures exists k :: 0 <= k < |old(queue)| && old(queue)[k] == q && q !in old(queue)[..k] &&
                          queue == old(queue)[..k] + old(queue)[k + 1..]
    {
      var k := 0;
      while queue[k] != q
        invariant 0 <= k < |queue| && q !in queue[..k] && q in queue[k..]
        decreases |queue| - k
      {
        k := k + 1;
      }
      queue := queue[..k] + queue[k + 1..];
    }
  }
}