/** The ledger of one pad: what its queue, its counters and its history agree on,
    and that every elementary change of the pad keeps them in agreement. */
module PadLedger {
  import opened Shared
  import opened MuxTypes
  import opened MuxSpec
  import opened BatchSplit
  import opened MuxRuns

  function UpTo(n: nat): (r: seq<nat>) { seq(n, k requires 0 <= k < n => k) }

  ghost predicate Rising(s: seq<nat>) {
    forall a, b :: 0 <= a < b < |s| ==> s[a] < s[b]
  }

  /** Every accepted frame is in exactly one of three places. */
  ghost predicate Partition(h: History, queued: seq<nat>) {
    multiset(h.emittedAt) + multiset(h.lostAt) + multiset(queued) == multiset(UpTo(|h.pushed|))
  }

  /** What left, and then what is queued, is in the order it was pushed. */
  ghost predicate InOrder(h: History, queued: seq<nat>) {
    Rising(h.emittedAt + queued)
  }

  ghost predicate ContentsMatch(h: History, q: seq<Queued>) {
    && |h.emitted| == |h.emittedAt|
    && (forall k :: 0 <= k < |h.emittedAt| ==>
          h.emittedAt[k] < |h.pushed| && h.emitted[k].Carried() == h.pushed[h.emittedAt[k]])
    && (forall k :: 0 <= k < |q| ==> q[k].seqNum < |h.pushed| && q[k].Carried() == h.pushed[q[k].seqNum])
  }

  /** Legacy numbers count the frames received, new numbers the frames batched. */
  ghost predicate Numbered(cfg: MuxConfig, i: int, h: History) {
    && |h.emitted| == |h.emittedAt|
    && (forall k :: 0 <= k < |h.emitted| ==>
          && h.emitted[k].padIndex == i
          && h.emitted[k].frameNum == if cfg.policy == Legacy then h.emittedAt[k] else k)
  }

  /** The counters, up to the reset that the end of stream may bring. */
  ghost predicate Counted(cfg: MuxConfig, p: Pad, h: History) {
    && p.dropped == |h.lostAt|
    && if cfg.resetOnEos && p.eos then p.received == p.frameCount == 0
       else p.received == |h.pushed| && p.frameCount == |h.emitted|
  }

  /** Without the sync filter a queue has no holes: it is the latest frames. */
  ghost predicate Gapless(h: History, q: seq<Queued>) {
    forall k :: 0 <= k < |q| ==> q[k].seqNum == |h.pushed| - |q| + k
  }

  ghost predicate ArrivedBy(q: seq<Queued>, clock: int) {
    && (forall k :: 0 <= k < |q| ==> q[k].recv <= clock)
    && (forall a, b :: 0 <= a < b < |q| ==> q[a].recv <= q[b].recv)
  }

  ghost predicate PadFlags(cfg: MuxConfig, p: Pad) {
    && |p.queue| <= p.depth == cfg.queueDepth
    && (p.eos ==> p.queue == [] && !p.eosPending)
    && (p.queue != [] ==> p.segmentSent)
    && (p.blocked.Some? ==> p.segmentSent && !p.eos && !p.eosPending)
    && (p.segmentSent <==> p.segmentStart.Some?)
  }

  ghost predicate PadOk(cfg: MuxConfig, p: Pad, h: History, clock: int) {
    && PadFlags(cfg, p)
    && Partition(h, Seqs(p.queue))
    && InOrder(h, Seqs(p.queue))
    && ContentsMatch(h, p.queue)
    && Numbered(cfg, p.index, h)
    && Counted(cfg, p, h)
    && (!cfg.syncInputs ==> Gapless(h, p.queue))
    && ArrivedBy(p.queue, clock)
    && (h.emitted != [] ==> p.segmentSent)
  }

  lemma PadOkOrdered(cfg: MuxConfig, p: Pad, h: History, clock: int)
    requires PadOk(cfg, p, h, clock)
    ensures Ordered(p.queue)
  {
    var s := h.emittedAt + Seqs(p.queue);
    forall a, b | 0 <= a < b < |p.queue| ensures p.queue[a].seqNum < p.queue[b].seqNum {
      assert s[|h.emittedAt| + a] == p.queue[a].seqNum && s[|h.emittedAt| + b] == p.queue[b].seqNum;
    }
  }

  /** The sizes of the three places add up to what was accepted. */
  lemma PartitionSizes(h: History, queued: seq<nat>)
    requires Partition(h, queued)
    ensures |h.emittedAt| + |h.lostAt| + |queued| == |h.pushed|
  {
    assert |multiset(h.emittedAt) + multiset(h.lostAt) + multiset(queued)| == |multiset(UpTo(|h.pushed|))|;
  }

  // ---------------------------------------------------------------- a frame is accepted

  lemma AppendPartition(h: History, queued: seq<nat>, c: Content)
    requires Partition(h, queued)
    ensures Partition(h.(pushed := h.pushed + [c]), queued + [|h.pushed|])
  {
    assert UpTo(|h.pushed| + 1) == UpTo(|h.pushed|) + [|h.pushed|];
  }

  lemma AppendInOrder(h: History, q: seq<Queued>, c: Content)
    requires InOrder(h, Seqs(q)) && ContentsMatch(h, q)
    ensures InOrder(h.(pushed := h.pushed + [c]), Seqs(q) + [|h.pushed|])
  {
    var s := h.emittedAt + Seqs(q);
    assert h.emittedAt + (Seqs(q) + [|h.pushed|]) == s + [|h.pushed|];
    forall k | 0 <= k < |s| ensures s[k] < |h.pushed| {
      assert k >= |h.emittedAt| ==> s[k] == q[k - |h.emittedAt|].seqNum;
    }
  }

  lemma AppendOk(cfg: MuxConfig, p: Pad, h: History, a: Arrival, now: int, clock: int)
    requires PadOk(cfg, p, h, clock) && clock <= now
    requires !p.eos && p.segmentSent && |p.queue| < p.depth
    ensures PadOk(cfg, Append(p, a, now), h.(pushed := h.pushed + [Accept(a, now)]), now)
  {
    hide Partition, InOrder;
    var p' := Append(p, a, now);
    assert Seqs(p'.queue) == Seqs(p.queue) + [|h.pushed|];
    AppendPartition(h, Seqs(p.queue), Accept(a, now));
    AppendInOrder(h, p.queue, Accept(a, now));
  }

  /** Bookkeeping before the queue is looked at, and the marks of a waiting producer. */
  lemma RecordOk(cfg: MuxConfig, p: Pad, h: History, pts: int, duration: int, clock: int)
    requires PadOk(cfg, p, h, clock)
    ensures PadOk(cfg, RecordPad(p, pts, duration), h, clock)
  {
  }

  // ---------------------------------------------------------------- the oldest frame is dropped

  lemma DropInOrder(h: History, q: seq<Queued>)
    requires InOrder(h, Seqs(q)) && q != []
    ensures InOrder(h.(lostAt := h.lostAt + [q[0].seqNum]), Seqs(q[1..]))
  {
    var s, s', m := h.emittedAt + Seqs(q), h.emittedAt + Seqs(q[1..]), |h.emittedAt|;
    forall a, b | 0 <= a < b < |s'| ensures s'[a] < s'[b] {
      assert s'[a] == if a < m then s[a] else s[a + 1];
      assert s'[b] == if b < m then s[b] else s[b + 1];
    }
  }

  lemma DropPartition(h: History, q: seq<Queued>)
    requires Partition(h, Seqs(q)) && q != []
    ensures Partition(h.(lostAt := h.lostAt + [q[0].seqNum]), Seqs(q[1..]))
  {
    assert Seqs(q) == [q[0].seqNum] + Seqs(q[1..]);
  }

  lemma DropOldestOk(cfg: MuxConfig, p: Pad, h: History, clock: int)
    requires PadOk(cfg, p, h, clock) && p.queue != [] && !p.eos
    ensures PadOk(cfg, p.(queue := p.queue[1..], dropped := p.dropped + 1),
                  h.(lostAt := h.lostAt + [p.queue[0].seqNum]), clock)
  {
    hide InOrder, Partition;
    DropInOrder(h, p.queue);
    DropPartition(h, p.queue);
  }

  // ---------------------------------------------------------------- late frames are dropped

  lemma {:induction false} ThinnedSeqs(q: seq<Queued>, kept: seq<Queued>, late: seq<Queued>)
    requires Thinned(q, kept, late)
    ensures multiset(Seqs(q)) == multiset(Seqs(kept)) + multiset(Seqs(late))
    ensures |q| == |kept| + |late|
  {
    if q != [] {
      assert Seqs(q) == [q[0].seqNum] + Seqs(q[1..]);
      if kept != [] && kept[0] == q[0] && Thinned(q[1..], kept[1..], late) {
        assert Seqs(kept) == [kept[0].seqNum] + Seqs(kept[1..]);
        ThinnedSeqs(q[1..], kept[1..], late);
      } else {
        assert Seqs(late) == [late[0].seqNum] + Seqs(late[1..]);
        ThinnedSeqs(q[1..], kept, late[1..]);
      }
    }
  }

  lemma ThinnedKeepsOrder(h: History, q: seq<Queued>, kept: seq<Queued>, late: seq<Queued>)
    requires Thinned(q, kept, late) && InOrder(h, Seqs(q)) && Ordered(q)
    ensures InOrder(h, Seqs(kept))
  {
    ThinnedOrdered(q, kept, late);
    ThinnedMembers(q, kept, late);
    var m := |h.emittedAt|;
    var s, s' := h.emittedAt + Seqs(q), h.emittedAt + Seqs(kept);
    forall a, b | 0 <= a < b < |s'| ensures s'[a] < s'[b] {
      if b < m {
        assert s[a] < s[b];
      } else {
        assert kept[b - m] in kept;
        var c :| 0 <= c < |q| && q[c] == kept[b - m];
        assert s[m + c] == s'[b];
        assert a < m ==> s[a] < s[m + c];
      }
    }
  }

  lemma ThinnedContents(cfg: MuxConfig, h: History, q: seq<Queued>, kept: seq<Queued>, late: seq<Queued>, clock: int)
    requires Thinned(q, kept, late) && Ordered(q) && ContentsMatch(h, q) && ArrivedBy(q, clock)
    ensures ContentsMatch(h.(lostAt := h.lostAt + Seqs(late)), kept) && ArrivedBy(kept, clock)
  {
    ThinnedOrdered(q, kept, late);
    ThinnedMembers(q, kept, late);
    assert forall k :: 0 <= k < |kept| ==> kept[k] in kept;
  }

  lemma ThinnedPartition(h: History, q: seq<Queued>, kept: seq<Queued>, late: seq<Queued>)
    requires Thinned(q, kept, late) && Partition(h, Seqs(q))
    ensures Partition(h.(lostAt := h.lostAt + Seqs(late)), Seqs(kept))
  {
    ThinnedSeqs(q, kept, late);
  }

  lemma SplitOk(cfg: MuxConfig, p: Pad, p': Pad, h: History, late: seq<Queued>, taken: seq<Queued>, clock: int)
    requires PadOk(cfg, p, h, clock) && Split(cfg.syncInputs, p, p', late, taken)
    ensures PadOk(cfg, p', h.(lostAt := h.lostAt + Seqs(late)), clock)
  {
    if late == [] {
      ThinnedAll(p.queue, p'.queue);
      assert h.(lostAt := h.lostAt + Seqs(late)) == h;
    } else {
      PadOkOrdered(cfg, p, h, clock);
      hide Partition, InOrder, Thinned, ContentsMatch, ArrivedBy, Gapless;
      ThinnedSeqs(p.queue, p'.queue, late);
      ThinnedPartition(h, p.queue, p'.queue, late);
      ThinnedKeepsOrder(h, p.queue, p'.queue, late);
      ThinnedContents(cfg, h, p.queue, p'.queue, late, clock);
    }
  }

  // ---------------------------------------------------------------- frames leave in a batch

  /** The frames `out` are those of `taken`, numbered after the policy. */
  ghost predicate Carries(cfg: MuxConfig, p: Pad, taken: seq<Queued>, out: seq<FrameMeta>) {
    && |out| == |taken|
    && (forall k :: 0 <= k < |out| ==>
          && out[k].Carried() == taken[k].Carried()
          && out[k].padIndex == p.index
          && out[k].frameNum == if cfg.policy == Legacy then taken[k].seqNum else p.frameCount + k)
  }

  lemma TakePlaces(h: History, q: seq<Queued>, k: nat, out: seq<FrameMeta>)
    requires Partition(h, Seqs(q)) && InOrder(h, Seqs(q)) && k <= |q|
    ensures var h' := h.(emitted := h.emitted + out, emittedAt := h.emittedAt + Seqs(q[..k]));
            Partition(h', Seqs(q[k..])) && InOrder(h', Seqs(q[k..]))
  {
    assert Seqs(q) == Seqs(q[..k]) + Seqs(q[k..]);
    assert h.emittedAt + Seqs(q) == (h.emittedAt + Seqs(q[..k])) + Seqs(q[k..]);
  }

  lemma TakeOk(cfg: MuxConfig, p: Pad, h: History, taken: seq<Queued>, out: seq<FrameMeta>, now: int)
    requires PadOk(cfg, p, h, now) && taken <= p.queue && Carries(cfg, p, taken, out)
    ensures PadOk(cfg, TakeFrom(p, |taken|, now),
                  h.(emitted := h.emitted + out, emittedAt := h.emittedAt + Seqs(taken)), now)
  {
    var h' := h.(emitted := h.emitted + out, emittedAt := h.emittedAt + Seqs(taken));
    if taken == [] {
      assert h' == h;
    } else {
      assert taken == p.queue[..|taken|];
      TakePlaces(h, p.queue, |taken|, out);
      TakeMatches(cfg, p, h, taken, out, now);
      assert |h'.emitted| == |h.emitted| + |taken|;
      hide Partition, InOrder, ContentsMatch, Numbered, Carries;
    }
  }

  lemma TakeMatches(cfg: MuxConfig, p: Pad, h: History, taken: seq<Queued>, out: seq<FrameMeta>, now: int)
    requires PadOk(cfg, p, h, now) && taken != [] && taken <= p.queue && Carries(cfg, p, taken, out)
    ensures var h' := h.(emitted := h.emitted + out, emittedAt := h.emittedAt + Seqs(taken));
            ContentsMatch(h', p.queue[|taken|..]) && Numbered(cfg, p.index, h')
  {
    var h' := h.(emitted := h.emitted + out, emittedAt := h.emittedAt + Seqs(taken));
    forall k | 0 <= k < |h'.emittedAt|
      ensures h'.emittedAt[k] < |h.pushed| && h'.emitted[k].Carried() == h.pushed[h'.emittedAt[k]]
    {
      if k >= |h.emittedAt| {
        assert taken[k - |h.emittedAt|] == p.queue[k - |h.emittedAt|];
      }
    }
  }

  // ---------------------------------------------------------------- end of stream

  lemma CloseOk(cfg: MuxConfig, p: Pad, h: History, clock: int)
    requires PadOk(cfg, p, h, clock)
    ensures PadOk(cfg, ClosePad(cfg, p), h, clock)
  {
  }

  lemma LaterOk(cfg: MuxConfig, p: Pad, h: History, clock: int, now: int)
    requires PadOk(cfg, p, h, clock) && clock <= now
    ensures PadOk(cfg, p, h, now)
  {
  }

  // ---------------------------------------------------------------- what the ledger says

  lemma NothingLostPlaces(h: History, q: seq<Queued>)
    requires Partition(h, Seqs(q)) && InOrder(h, Seqs(q)) && ContentsMatch(h, q) && h.lostAt == []
    ensures h.emittedAt + Seqs(q) == UpTo(|h.pushed|)
  {
    var s := h.emittedAt + Seqs(q);
    PartitionSizes(h, Seqs(q));
    hide Partition;
    assert |s| == |h.pushed|;
    forall k | 0 <= k < |s| ensures s[k] < |s| {
      assert k >= |h.emittedAt| ==> s[k] == q[k - |h.emittedAt|].seqNum;
    }
    RisingFills(s);
  }

  lemma PlacesInOrder(a: seq<nat>, b: seq<nat>, n: nat)
    requires a + b == UpTo(n)
    ensures forall k :: 0 <= k < |a| ==> a[k] == k
    ensures forall k :: 0 <= k < |b| ==> b[k] == |a| + k
  {
    assert forall k :: 0 <= k < |a| ==> (a + b)[k] == a[k];
    assert forall k :: 0 <= k < |b| ==> (a + b)[|a| + k] == b[k];
  }

  /** If nothing was lost, then what left followed by what is queued is exactly
      what was pushed, in order, with no frame missing and none repeated. */
  lemma NothingLost(cfg: MuxConfig, p: Pad, h: History, clock: int)
    requires PadOk(cfg, p, h, clock) && h.lostAt == []
    ensures forall k :: 0 <= k < |h.emitted| ==> k < |h.pushed| && h.emitted[k].Carried() == h.pushed[k]
    ensures forall k :: 0 <= k < |p.queue| ==>
              |h.emitted| + k < |h.pushed| && p.queue[k].Carried() == h.pushed[|h.emitted| + k]
  {
    NothingLostPlaces(h, p.queue);
    hide Partition, InOrder, Numbered, Counted, PadFlags, Gapless, ArrivedBy;
    PlacesInOrder(h.emittedAt, Seqs(p.queue), |h.pushed|);
    assert forall k :: 0 <= k < |p.queue| ==> Seqs(p.queue)[k] == p.queue[k].seqNum;
  }

  lemma {:induction false} RisingFrom(s: seq<nat>, k: nat)
    requires Rising(s) && k < |s|
    ensures s[k] >= k
  {
    if k > 0 {
      RisingFrom(s, k - 1);
    }
  }

  lemma {:induction false} RisingBelow(s: seq<nat>, k: nat)
    requires Rising(s) && k < |s|
    ensures s[k] + (|s| - 1 - k) <= s[|s| - 1]
    decreases |s| - k
  {
    if k + 1 < |s| {
      RisingBelow(s, k + 1);
    }
  }

  /** A rising sequence of n numbers below n is 0, 1, ..., n - 1. */
  lemma RisingFills(s: seq<nat>)
    requires Rising(s) && (forall k :: 0 <= k < |s| ==> s[k] < |s|)
    ensures s == UpTo(|s|)
  {
    forall k | 0 <= k < |s| ensures s[k] == k {
      RisingFrom(s, k);
      RisingBelow(s, k);
    }
  }

  /** A number between two neighbours of a rising sequence is not in it. */
  lemma RisingGap(s: seq<nat>, k: nat, j: nat)
    requires Rising(s) && 0 < k < |s| && s[k - 1] < j < s[k]
    ensures j !in s
  {
    forall t | 0 <= t < |s| ensures s[t] != j {
      if t < k - 1 {
        assert s[t] < s[k - 1];
      } else if t > k {
        assert s[k] < s[t];
      }
    }
  }

  lemma GapIsLost(h: History, queued: seq<nat>, k: nat, j: nat)
    requires Partition(h, queued) && InOrder(h, queued) && 0 < k < |h.emittedAt|
    requires h.emittedAt[k - 1] < j < h.emittedAt[k] && h.emittedAt[k] < |h.pushed|
    ensures j in h.lostAt
  {
    var s := h.emittedAt + queued;
    RisingGap(s, k, j);
    assert UpTo(|h.pushed|)[j] == j;
    assert j in multiset(UpTo(|h.pushed|));
    assert j !in h.emittedAt && j !in queued;
  }

  /** Legacy frame numbers point back at the frame pushed, so their gaps are the
      frames lost; new frame numbers have no gaps. */
  lemma FrameNumbers(cfg: MuxConfig, p: Pad, h: History, clock: int, k: nat)
    requires PadOk(cfg, p, h, clock) && k < |h.emitted|
    ensures cfg.policy == New ==> h.emitted[k].frameNum == k
    ensures cfg.policy == Legacy ==>
              && h.emitted[k].frameNum < |h.pushed|
              && h.emitted[k].Carried() == h.pushed[h.emitted[k].frameNum]
              && (k > 0 ==> h.emitted[k - 1].frameNum < h.emitted[k].frameNum)
              && (k > 0 ==> forall j :: h.emitted[k - 1].frameNum < j < h.emitted[k].frameNum ==> j in h.lostAt)
  {
    if cfg.policy == Legacy && k > 0 {
      var s := h.emittedAt + Seqs(p.queue);
      assert s[k - 1] < s[k];
      forall j | h.emitted[k - 1].frameNum < j < h.emitted[k].frameNum ensures j in h.lostAt {
        GapIsLost(h, Seqs(p.queue), k, j);
      }
    }
  }
}
