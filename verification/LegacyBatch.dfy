/** The legacy batch for files: the sort / cap / break loop picks the oldest
    frames, limited per pad, and nothing else. */
module LegacyBatch {
  import opened MuxTypes
  import opened MuxSpec
  import opened BatchSplit

  ghost predicate Strict(s: seq<Pick>) {
    forall a, b :: 0 <= a < b < |s| ==> Before(s[a], s[b])
  }

  /** Older frames first, at equal times by pad, on one pad by number. */
  ghost predicate InArrivalOrder(s: seq<Pick>) {
    forall a, b :: 0 <= a < b < |s| ==>
      && s[a].q.recv <= s[b].q.recv
      && (s[a].q.recv == s[b].q.recv ==> s[a].pad <= s[b].pad && (s[a].pad == s[b].pad ==> s[a].q.seqNum < s[b].q.seqNum))
  }

  lemma StrictIsArrivalOrder(s: seq<Pick>)
    ensures Strict(s) <==> InArrivalOrder(s)
  {
  }

  /** Frames of one pad appear oldest first. */
  ghost predicate PadOrdered(s: seq<Pick>) {
    forall a, b :: 0 <= a < b < |s| && s[a].pad == s[b].pad ==> Before(s[a], s[b])
  }

  // ---------------------------------------------------------------- sorting

  lemma OnPush(s: seq<Pick>, x: Pick, i: int)
    ensures On(s + [x], i) == if x.pad == i then On(s, i) + [x.q] else On(s, i)
  {
    assert (s + [x])[..|s|] == s;
  }

  lemma {:induction false} InsertOn(s: seq<Pick>, x: Pick, i: int)
    requires forall y :: y in s && y.pad == x.pad ==> Before(y, x)
    ensures On(Insert(s, x), i) == if x.pad == i then On(s, i) + [x.q] else On(s, i)
  {
    OnPush(s, x, i);
    if s != [] && Before(x, s[|s| - 1]) {
      var n := |s| - 1;
      assert s[n] in s && s[n].pad != x.pad;
      assert s == s[..n] + [s[n]];
      InsertOn(s[..n], x, i);
      OnPush(Insert(s[..n], x), s[n], i);
      OnPush(s[..n], s[n], i);
    }
  }

  lemma {:induction false} InsertStrict(s: seq<Pick>, x: Pick)
    requires Strict(s) && (forall y :: y in s && y.pad == x.pad ==> Before(y, x))
    ensures Strict(Insert(s, x))
  {
    if s != [] {
      var n := |s| - 1;
      assert s[n] in s;
      if Before(x, s[n]) {
        var r := Insert(s[..n], x);
        InsertStrict(s[..n], x);
        InsertMembers(s[..n], x);
        forall k | 0 <= k < |r| ensures Before(r[k], s[n]) {
          assert r[k] in r;
          assert r[k] == x || r[k] in s[..n];
        }
      } else {
        forall k | 0 <= k < n ensures Before(s[k], x) {
          assert s[k] in s;
        }
      }
    }
  }

  lemma {:induction false} SortPadOrdered(s: seq<Pick>)
    requires PadOrdered(s)
    ensures Strict(Sort(s))
    ensures forall i :: On(Sort(s), i) == On(s, i)
  {
    if s != [] {
      var n := |s| - 1;
      SortPadOrdered(s[..n]);
      SortMembers(s[..n]);
      InsertStrict(Sort(s[..n]), s[n]);
      forall i ensures On(Sort(s), i) == On(s, i) {
        InsertOn(Sort(s[..n]), s[n], i);
      }
    }
  }

  // ---------------------------------------------------------------- all queued frames

  lemma {:induction false} AllQueuedOn(pads: map<int, Pad>, ids: seq<int>, i: int)
    requires AllIn(ids, pads) && Distinct(ids)
    ensures On(AllQueued(pads, ids), i) == if i in ids && i in pads then pads[i].queue else []
  {
    if ids != [] {
      var n := |ids| - 1;
      AllQueuedOn(pads, ids[..n], i);
      OnMore(AllQueued(pads, ids[..n]), ids[n], pads[ids[n]].queue, i);
      if i == ids[n] {
        assert i !in ids[..n];
      } else if i in ids {
        var k :| 0 <= k < |ids| && ids[k] == i;
        assert ids[..n][k] == i;
      }
    }
  }

  lemma {:induction false} AllQueuedPadOrdered(pads: map<int, Pad>, ids: seq<int>)
    requires AllIn(ids, pads) && Distinct(ids)
    requires forall i :: i in pads ==> Ordered(pads[i].queue)
    ensures PadOrdered(AllQueued(pads, ids))
  {
    if ids != [] {
      var n := |ids| - 1;
      var front, back := AllQueued(pads, ids[..n]), Tagged(ids[n], pads[ids[n]].queue);
      AllQueuedPadOrdered(pads, ids[..n]);
      assert Ordered(pads[ids[n]].queue);
      forall a | 0 <= a < |front| ensures front[a].pad != ids[n] {
        assert front[a] in front;
      }
    }
  }

  // ---------------------------------------------------------------- the cap

  function Quota(cap: int, available: nat): nat { Min(Max(cap, 0), available) }

  lemma {:induction false} EligibleOn(items: seq<Pick>, cap: int, i: int)
    ensures On(Eligible(items, cap), i) == On(items, i)[..Quota(cap, |On(items, i)|)]
  {
    if items != [] {
      var n := |items| - 1;
      var e, before := Eligible(items[..n], cap), On(items[..n], i);
      EligibleOn(items[..n], cap, i);
      OnPush(e, items[n], i);
      if items[n].pad == i {
        assert (before + [items[n].q])[..Quota(cap, |before|)] == before[..Quota(cap, |before|)];
        assert Eligible(items, cap) == if |before| < cap then e + [items[n]] else e;
      } else {
        assert On(items, i) == before;
        assert Eligible(items, cap) == e + [items[n]] || Eligible(items, cap) == e;
      }
    }
  }

  lemma {:induction false} EligiblePrefix(items: seq<Pick>, cap: int, k: nat)
    requires k <= |items|
    ensures Eligible(items[..k], cap) <= Eligible(items, cap)
  {
    if k < |items| {
      var n := |items| - 1;
      assert items[..n][..k] == items[..k];
      EligiblePrefix(items[..n], cap, k);
    } else {
      assert items[..k] == items;
    }
  }

  lemma {:induction false} EligibleStrict(items: seq<Pick>, cap: int)
    requires Strict(items)
    ensures Strict(Eligible(items, cap))
  {
    if items != [] {
      var n := |items| - 1;
      EligibleStrict(items[..n], cap);
      var e := Eligible(items[..n], cap);
      forall k | 0 <= k < |e| ensures Before(e[k], items[n]) {
        assert e[k] in e && e[k] in items[..n];
      }
    }
  }

  // ---------------------------------------------------------------- counting

  function CountOn(s: seq<Pick>, ids: seq<int>): nat {
    if ids == [] then 0
    else
      var n := |ids| - 1;
      CountOn(s, ids[..n]) + |On(s, ids[n])|
  }

  lemma {:induction false} CountOneMore(s: seq<Pick>, x: Pick, ids: seq<int>)
    requires Distinct(ids)
    ensures CountOn(s + [x], ids) == CountOn(s, ids) + (if x.pad in ids then 1 else 0)
  {
    if ids != [] {
      var n := |ids| - 1;
      CountOneMore(s, x, ids[..n]);
      assert ids == ids[..n] + [ids[n]];
      assert (s + [x])[..|s|] == s;
    }
  }

  lemma {:induction false} CountNothing(ids: seq<int>)
    ensures CountOn([], ids) == 0
  {
    if ids != [] {
      CountNothing(ids[..|ids| - 1]);
    }
  }

  /** A list of picks is as long as its shares on the pads together. */
  lemma {:induction false} CountIsLength(s: seq<Pick>, ids: seq<int>)
    requires Distinct(ids) && (forall x :: x in s ==> x.pad in ids)
    ensures CountOn(s, ids) == |s|
  {
    if s == [] {
      CountNothing(ids);
    } else {
      var n := |s| - 1;
      CountIsLength(s[..n], ids);
      assert s == s[..n] + [s[n]];
      CountOneMore(s[..n], s[n], ids);
    }
  }

  /** What the pads may contribute to one batch together. */
  function Supply(pads: map<int, Pad>, ids: seq<int>, cap: int): nat
    requires AllIn(ids, pads)
  {
    if ids == [] then 0
    else
      var n := |ids| - 1;
      Supply(pads, ids[..n], cap) + Quota(cap, |pads[ids[n]].queue|)
  }

  lemma {:induction false} CountIsSupply(pads: map<int, Pad>, ids: seq<int>, cap: int, s: seq<Pick>)
    requires AllIn(ids, pads)
    requires forall k :: 0 <= k < |ids| ==> |On(s, ids[k])| == Quota(cap, |pads[ids[k]].queue|)
    ensures CountOn(s, ids) == Supply(pads, ids, cap)
  {
    if ids != [] {
      var n := |ids| - 1;
      forall k | 0 <= k < n ensures |On(s, ids[..n][k])| == Quota(cap, |pads[ids[..n][k]].queue|) {
        assert ids[..n][k] == ids[k];
      }
      CountIsSupply(pads, ids[..n], cap, s);
    }
  }

  // ---------------------------------------------------------------- the batch

  lemma {:induction false} ActiveDistinct(pads: map<int, Pad>, ids: seq<int>)
    requires AllIn(ids, pads) && Distinct(ids)
    ensures Distinct(Active(pads, ids))
  {
    if ids != [] {
      var n := |ids| - 1;
      ActiveDistinct(pads, ids[..n]);
      forall k | 0 <= k < |Active(pads, ids[..n])| ensures Active(pads, ids[..n])[k] != ids[n] {
        assert Active(pads, ids[..n])[k] in ids[..n];
      }
    }
  }

  /** All frames of the active pads, oldest first. */
  function Items(m: Mux, ids: seq<int>): seq<Pick>
    requires AllIn(ids, m.pads)
  {
    Sort(AllQueued(m.pads, ids))
  }

  lemma ItemsOrder(m: Mux, ids: seq<int>)
    requires AllIn(ids, m.pads) && Distinct(ids) && OrderedQueues(m)
    ensures Strict(Items(m, ids))
    ensures forall i :: On(Items(m, ids), i) == if i in ids && i in m.pads then m.pads[i].queue else []
  {
    AllQueuedPadOrdered(m.pads, ids);
    SortPadOrdered(AllQueued(m.pads, ids));
    forall i ensures On(Items(m, ids), i) == if i in ids && i in m.pads then m.pads[i].queue else [] {
      AllQueuedOn(m.pads, ids, i);
    }
  }

  lemma EligibleShares(m: Mux, ids: seq<int>, e: seq<Pick>)
    requires AllIn(ids, m.pads) && Distinct(ids) && OrderedQueues(m)
    requires e == Eligible(Items(m, ids), m.cfg.maxSameLegacy)
    ensures Strict(e)
    ensures forall i :: On(e, i) == if i in ids && i in m.pads
                                    then m.pads[i].queue[..Quota(m.cfg.maxSameLegacy, |m.pads[i].queue|)] else []
  {
    var items, cap := Items(m, ids), m.cfg.maxSameLegacy;
    ItemsOrder(m, ids);
    EligibleStrict(items, cap);
    forall i ensures On(e, i) == On(items, i)[..Quota(cap, |On(items, i)|)] {
      EligibleOn(items, cap, i);
    }
  }

  lemma EligibleSupply(m: Mux, ids: seq<int>, e: seq<Pick>)
    requires AllIn(ids, m.pads) && Distinct(ids) && OrderedQueues(m)
    requires e == Eligible(Items(m, ids), m.cfg.maxSameLegacy)
    ensures |e| == Supply(m.pads, ids, m.cfg.maxSameLegacy)
  {
    EligibleShares(m, ids, e);
    SortMembers(AllQueued(m.pads, ids));
    CountIsLength(e, ids);
    CountIsSupply(m.pads, ids, m.cfg.maxSameLegacy, e);
  }

  /** Size, order and fair share of the batch. `full` in the source is
      |picks| >= batchSize, so a batch is full exactly if the pads together may
      contribute that much. */
  lemma FifoBatch(m: Mux, ids: seq<int>)
    requires AllIn(ids, m.pads) && Distinct(ids) && OrderedQueues(m)
    ensures var picks := FifoPicks(m, ids);
            && |picks| == Min(Max(m.cfg.batchSize, 0), Supply(m.pads, ids, m.cfg.maxSameLegacy))
            && Strict(picks) && InArrivalOrder(picks)
            && (forall i :: i in ids && i in m.pads ==>
                  On(picks, i) <= m.pads[i].queue && |On(picks, i)| <= Max(m.cfg.maxSameLegacy, 0))
            && (forall i :: i !in ids ==> On(picks, i) == [])
  {
    var e := Eligible(Items(m, ids), m.cfg.maxSameLegacy);
    EligibleShares(m, ids, e);
    EligibleSupply(m, ids, e);
    var k := Min(Max(m.cfg.batchSize, 0), |e|);
    assert FifoPicks(m, ids) == e[..k];
    StrictIsArrivalOrder(e[..k]);
    hide InArrivalOrder;
    forall i ensures On(e[..k], i) <= On(e, i) {
      OnTakePrefix(e, k, i);
    }
  }

  lemma FirstEligible(items: seq<Pick>, cap: int)
    requires items != [] && cap >= 1
    ensures Eligible(items, cap) != [] && Eligible(items, cap)[0] == items[0]
  {
    assert items[..1][..0] == [];
    assert Eligible(items[..1], cap) == [items[0]];
    EligiblePrefix(items, cap, 1);
  }

  /** The oldest queued frame goes out first whenever anything may go out. */
  lemma FifoTakesOldest(m: Mux, ids: seq<int>, x: Pick)
    requires AllIn(ids, m.pads) && Distinct(ids) && OrderedQueues(m)
    requires m.cfg.batchSize >= 1 && m.cfg.maxSameLegacy >= 1 && x in AllQueued(m.pads, ids)
    ensures FifoPicks(m, ids) != []
    ensures x == FifoPicks(m, ids)[0] || Before(FifoPicks(m, ids)[0], x)
  {
    hide Before, Eligible, AllQueued, Sort;
    var items := Items(m, ids);
    ItemsOrder(m, ids);
    SortMembers(AllQueued(m.pads, ids));
    FirstEligible(items, m.cfg.maxSameLegacy);
    var a :| 0 <= a < |items| && items[a] == x;
  }

  /** All that is eligible before a picked frame is picked, in front of it. */
  lemma PickedPrefix(items: seq<Pick>, cap: int, k: nat, b: nat)
    requires Strict(items) && b < |items| && k <= |Eligible(items, cap)|
    requires items[b] in Eligible(items, cap)[..k]
    ensures Eligible(items[..b], cap) <= Eligible(items, cap)[..k]
  {
    var e, before := Eligible(items, cap), Eligible(items[..b], cap);
    EligiblePrefix(items, cap, b);
    var t :| 0 <= t < k && e[t] == items[b];
    forall j | 0 <= j < |before| ensures Before(e[j], items[b]) {
      assert before[j] in before;
      var a :| 0 <= a < b && items[..b][a] == before[j];
    }
  }

  /** An item that is not eligible comes after its pad's full share. */
  lemma ShareBefore(items: seq<Pick>, cap: int, a: nat, b: nat)
    requires a < b <= |items| && items[a] !in Eligible(items[..b], cap)
    ensures |On(Eligible(items[..b], cap), items[a].pad)| == Max(cap, 0)
  {
    var x := items[a];
    EligibleOn(items[..b], cap, x.pad);
    assert items[..b][a] == x;
    OnMember(items[..b], x.pad, x.q);
    OnMember(Eligible(items[..b], cap), x.pad, x.q);
  }

  lemma SkippedAtCap(items: seq<Pick>, cap: int, k: nat, a: nat, b: nat)
    requires Strict(items) && a < b < |items| && k <= |Eligible(items, cap)|
    requires items[b] in Eligible(items, cap)[..k] && items[a] !in Eligible(items, cap)[..k]
    ensures |On(Eligible(items, cap)[..k], items[a].pad)| >= cap
  {
    var before, picks := Eligible(items[..b], cap), Eligible(items, cap)[..k];
    PickedPrefix(items, cap, k, b);
    assert before == picks[..|before|];
    assert items[a] !in before;
    ShareBefore(items, cap, a, b);
    OnTakePrefix(picks, |before|, items[a].pad);
  }

  lemma StrictIndices(s: seq<Pick>, a: nat, b: nat)
    requires Strict(s) && a < |s| && b < |s| && Before(s[a], s[b])
    ensures a < b
  {
  }

  lemma FifoPicksFrom(m: Mux, ids: seq<int>)
    requires AllIn(ids, m.pads)
    ensures var e, k := Eligible(Items(m, ids), m.cfg.maxSameLegacy), |FifoPicks(m, ids)|;
            k <= |e| && FifoPicks(m, ids) == e[..k]
    ensures forall x :: x in FifoPicks(m, ids) ==> x in Items(m, ids)
  {
  }

  /** A frame is passed over for a younger one only if its pad has its full share. */
  lemma FifoSkipsOnlyAtCap(m: Mux, ids: seq<int>, x: Pick, y: Pick)
    requires AllIn(ids, m.pads) && Distinct(ids) && OrderedQueues(m)
    requires x in AllQueued(m.pads, ids) && x !in FifoPicks(m, ids)
    requires y in FifoPicks(m, ids) && Before(x, y)
    ensures |On(FifoPicks(m, ids), x.pad)| == Max(m.cfg.maxSameLegacy, 0)
  {
    hide Before, Eligible, AllQueued, Sort;
    var items := Items(m, ids);
    ItemsOrder(m, ids);
    FifoBatch(m, ids);
    SortMembers(AllQueued(m.pads, ids));
    FifoPicksFrom(m, ids);
    assert y in items && x in items;
    var a :| 0 <= a < |items| && items[a] == x;
    var b :| 0 <= b < |items| && items[b] == y;
    StrictIndices(items, a, b);
    SkippedAtCap(items, m.cfg.maxSameLegacy, |FifoPicks(m, ids)|, a, b);
  }

  lemma FormLegacySplits(m: Mux, now: int)
    requires m.WellFormed() && OrderedQueues(m)
    ensures AllSplit(m, FormLegacy(m, now))
  {
    NothingYet(m);
    var ids := Active(m.pads, m.order);
    ActiveDistinct(m.pads, m.order);
    if m.cfg.batchSize > 0 && ids != [] {
      if m.cfg.liveSource {
        FormLiveSplits(m, ids, now);
        CursorSplits(m, FormLive(m, ids, now), FormLegacy(m, now));
      } else {
        FifoBatch(m, ids);
        var f := FormLegacy(m, now);
        forall i | i in m.pads ensures SplitAt(m, f, i) {
          ThinnedNothing(m.pads[i].queue);
        }
      }
    }
  }

  lemma FormSplits(m: Mux, now: int)
    requires m.WellFormed() && OrderedQueues(m)
    ensures AllSplit(m, Form(m, now))
  {
    if m.cfg.policy == Legacy {
      FormLegacySplits(m, now);
    } else {
      FormNewSplits(m, now);
    }
  }
}
