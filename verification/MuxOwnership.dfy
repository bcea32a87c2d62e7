/** Every payload ever handed to push_frame has exactly one owner: it was refused and
    closed, its producer still waits with it, or it was accepted on one pad. What was
    accepted is in turn in a batch, closed or queued, once each. */
module MuxOwnership {
  import opened Shared
  import opened MuxTypes
  import opened MuxSpec
  import opened BatchSplit
  import opened LegacyBatch
  import opened MuxRuns
  import opened PadLedger
  import opened MuxInvariant
  import opened MuxSafety
  import opened MuxDelivery
  import opened MuxDrain
  import opened MuxLiveness
  import opened MuxSteps

  function Payloads(cs: seq<Content>): multiset<int> {
    if cs == [] then multiset{} else Payloads(cs[..|cs| - 1]) + multiset{cs[|cs| - 1].payload}
  }

  function Held(p: Pad): multiset<int> {
    match p.blocked case None => multiset{} case Some(a) => multiset{a.payload}
  }

  /** What came to the mux by one pad: accepted, or in the hands of its waiting producer. */
  function Brought(p: Pad, h: History): multiset<int> { Payloads(h.pushed) + Held(p) }

  function BroughtByAll(pads: map<int, Pad>, hist: map<int, History>, ids: seq<int>): multiset<int>
    requires AllIn(ids, pads) && hist.Keys == pads.Keys
  {
    if ids == [] then multiset{}
    else
      var n := |ids| - 1;
      BroughtByAll(pads, hist, ids[..n]) + Brought(pads[ids[n]], hist[ids[n]])
  }

  function OfRetired(hs: seq<History>): multiset<int> {
    if hs == [] then multiset{} else OfRetired(hs[..|hs| - 1]) + Payloads(hs[|hs| - 1].pushed)
  }

  function OfOrphans(os: seq<Orphan>): multiset<int> {
    if os == [] then multiset{} else OfOrphans(os[..|os| - 1]) + multiset{os[|os| - 1].arrival.payload}
  }

  /** What came by pads that are no longer there. */
  function Gone(w: World): multiset<int> { OfOrphans(w.orphans) + OfRetired(w.retired) }

  /** All payloads handed over, by who has them now. */
  ghost predicate OneOwner(w: World)
    requires AllIn(w.mux.order, w.mux.pads) && w.hist.Keys == w.mux.pads.Keys
  {
    multiset(w.handed) ==
    multiset(w.refused) + Gone(w) + BroughtByAll(w.mux.pads, w.hist, w.mux.order)
  }

  // ---------------------------------------------------------------- sums over the pads

  lemma {:induction false} SameBrought(pads: map<int, Pad>, hist: map<int, History>, pads': map<int, Pad>,
                                       hist': map<int, History>, ids: seq<int>)
    requires AllIn(ids, pads) && hist.Keys == pads.Keys && AllIn(ids, pads') && hist'.Keys == pads'.Keys
    requires forall k :: 0 <= k < |ids| ==> Brought(pads'[ids[k]], hist'[ids[k]]) == Brought(pads[ids[k]], hist[ids[k]])
    ensures BroughtByAll(pads', hist', ids) == BroughtByAll(pads, hist, ids)
  {
    hide Brought;
    if ids != [] {
      var n := |ids| - 1;
      assert forall k :: 0 <= k < n ==> ids[..n][k] == ids[k];
      SameBrought(pads, hist, pads', hist', ids[..n]);
    }
  }

  /** One pad brings more or less, the others the same. */
  lemma {:induction false} OneBrings(pads: map<int, Pad>, hist: map<int, History>, pads': map<int, Pad>,
                                     hist': map<int, History>, ids: seq<int>, i: int)
    requires AllIn(ids, pads) && hist.Keys == pads.Keys && AllIn(ids, pads') && hist'.Keys == pads'.Keys
    requires Distinct(ids) && i in ids
    requires forall k :: 0 <= k < |ids| && ids[k] != i ==>
               Brought(pads'[ids[k]], hist'[ids[k]]) == Brought(pads[ids[k]], hist[ids[k]])
    ensures i in pads && i in pads'
    ensures BroughtByAll(pads', hist', ids) + Brought(pads[i], hist[i]) ==
            BroughtByAll(pads, hist, ids) + Brought(pads'[i], hist'[i])
  {
    hide Brought;
    var n := |ids| - 1;
    assert forall k :: 0 <= k < n ==> ids[..n][k] == ids[k];
    if ids[n] == i {
      SameBrought(pads, hist, pads', hist', ids[..n]);
    } else {
      assert ids == ids[..n] + [ids[n]];
      OneBrings(pads, hist, pads', hist', ids[..n], i);
      Rebalance(BroughtByAll(pads', hist', ids[..n]), BroughtByAll(pads, hist, ids[..n]),
              Brought(pads[i], hist[i]), Brought(pads'[i], hist'[i]), Brought(pads[ids[n]], hist[ids[n]]));
    }
  }

  lemma Rebalance(a': multiset<int>, a: multiset<int>, x: multiset<int>, x': multiset<int>, b: multiset<int>)
    requires a' + x == a + x'
    ensures (a' + b) + x == (a + b) + x'
  {
    assert (a' + b) + x == (a' + x) + b;
    assert (a + b) + x' == (a + x') + b;
  }

  lemma {:induction false} FirstBrings(pads: map<int, Pad>, hist: map<int, History>, i: int, ids: seq<int>)
    requires AllIn([i] + ids, pads) && AllIn(ids, pads) && hist.Keys == pads.Keys && i in pads
    ensures BroughtByAll(pads, hist, [i] + ids) == Brought(pads[i], hist[i]) + BroughtByAll(pads, hist, ids)
  {
    hide Brought;
    var all := [i] + ids;
    if ids == [] {
      assert all[..0] == [];
    } else {
      var n := |ids| - 1;
      assert all[..n + 1] == [i] + ids[..n];
      assert AllIn(ids[..n], pads);
      FirstBrings(pads, hist, i, ids[..n]);
    }
  }

  /** Striking a pad off the list takes away what it brought. */
  lemma {:induction false} WithoutBrings(pads: map<int, Pad>, hist: map<int, History>, ids: seq<int>, i: int)
    requires AllIn(ids, pads) && hist.Keys == pads.Keys && i in ids
    ensures i in pads && AllIn(Without(ids, i), pads)
    ensures BroughtByAll(pads, hist, ids) == BroughtByAll(pads, hist, Without(ids, i)) + Brought(pads[i], hist[i])
  {
    hide Brought;
    assert ids == [ids[0]] + ids[1..];
    assert AllIn(ids[1..], pads) by {
      forall k | 0 <= k < |ids[1..]| ensures ids[1..][k] in pads {
        assert ids[1..][k] == ids[k + 1];
      }
    }
    FirstBrings(pads, hist, ids[0], ids[1..]);
    if ids[0] != i {
      WithoutBrings(pads, hist, ids[1..], i);
      var rest := Without(ids[1..], i);
      assert ids[0] in pads;
      assert AllIn([ids[0]] + rest, pads);
      FirstBrings(pads, hist, ids[0], rest);
    }
  }

  lemma RetiredMore(hs: seq<History>, h: History)
    ensures OfRetired(hs + [h]) == OfRetired(hs) + Payloads(h.pushed)
  {
    assert (hs + [h])[..|hs|] == hs;
  }

  lemma OrphansMore(os: seq<Orphan>, o: Orphan)
    ensures OfOrphans(os + [o]) == OfOrphans(os) + multiset{o.arrival.payload}
  {
    assert (os + [o])[..|os|] == os;
  }

  lemma Exchange(a: multiset<int>, b: multiset<int>, c: multiset<int>)
    ensures (a + b) + c == (a + c) + b
  {
  }

  lemma SplitLast(os: seq<Orphan>, k: nat)
    requires k < |os| - 1
    ensures var n := |os| - 1;
            os[..k] + os[k + 1..] == os[..n][..k] + os[..n][k + 1..] + [os[n]] && os[..n][k] == os[k]
  {
  }

  lemma {:induction false} OrphanLess(os: seq<Orphan>, k: nat)
    requires k < |os|
    ensures OfOrphans(os) == OfOrphans(os[..k] + os[k + 1..]) + multiset{os[k].arrival.payload}
  {
    var n := |os| - 1;
    if k == n {
      assert os[..k] + os[k + 1..] == os[..n];
    } else {
      OrphanLess(os[..n], k);
      SplitLast(os, k);
      var front := os[..n][..k] + os[..n][k + 1..];
      OrphansMore(front, os[n]);
      assert OfOrphans(os) == OfOrphans(os[..n]) + multiset{os[n].arrival.payload};
      hide *;
      Exchange(OfOrphans(front), multiset{os[k].arrival.payload}, multiset{os[n].arrival.payload});
    }
  }

  lemma PushedMore(cs: seq<Content>, c: Content)
    ensures Payloads(cs + [c]) == Payloads(cs) + multiset{c.payload}
  {
    assert (cs + [c])[..|cs|] == cs;
  }

  // ---------------------------------------------------------------- steps

  lemma NewPadBrings(pads: map<int, Pad>, hist: map<int, History>, ids: seq<int>, i: int, p: Pad, h: History)
    requires AllIn(ids, pads) && hist.Keys == pads.Keys && i !in pads && Brought(p, h) == multiset{}
    ensures AllIn(ids + [i], pads[i := p]) && hist[i := h].Keys == pads[i := p].Keys
    ensures BroughtByAll(pads[i := p], hist[i := h], ids + [i]) == BroughtByAll(pads, hist, ids)
  {
    hide Brought;
    var pads', hist' := pads[i := p], hist[i := h];
    forall k | 0 <= k < |ids| ensures ids[k] in pads && ids[k] != i {
    }
    assert (ids + [i])[..|ids|] == ids;
    SameBrought(pads, hist, pads', hist', ids);
  }

  lemma PadLeaves(pads: map<int, Pad>, hist: map<int, History>, ids: seq<int>, i: int)
    requires AllIn(ids, pads) && hist.Keys == pads.Keys && i in pads && Distinct(ids)
    requires AllIn(ids, pads - {i})
    ensures BroughtByAll(pads - {i}, hist - {i}, ids) == BroughtByAll(pads, hist, ids)
  {
    hide Brought;
    assert (hist - {i}).Keys == (pads - {i}).Keys;
    SameBrought(pads, hist, pads - {i}, hist - {i}, ids);
  }

  /** An invariant world's sums are defined. */
  lemma Listed(w: World)
    requires Inv(w)
    ensures w.mux.WellFormed() && AllIn(w.mux.order, w.mux.pads) && w.hist.Keys == w.mux.pads.Keys && Distinct(w.mux.order)
  {
  }

  /** What removing a pad leaves of the world. */
  lemma RemoveShape(w: World, i: int)
    requires w.hist.Keys == w.mux.pads.Keys && i in w.mux.pads
    ensures var (w', p) := (NextRemove(w, i), w.mux.pads[i]);
            && w'.mux.pads == w.mux.pads - {i} && w'.mux.order == Without(w.mux.order, i) && w'.hist == w.hist - {i}
            && w'.retired == w.retired + [Absorb(w.hist[i], i, [], Tagged(i, p.queue), [])]
            && w'.orphans == (if p.blocked.None? then w.orphans else w.orphans + [Orphan(i, p.blocked.value)])
            && w'.handed == w.handed && w'.refused == w.refused
  {
    hide Absorb, Tagged, Without;
  }

  lemma AbsorbPushes(h: History, i: int, outs: seq<Output>, lost: seq<Pick>, picks: seq<Pick>)
    ensures Absorb(h, i, outs, lost, picks).pushed == h.pushed
  {
    hide On, FramesOn, FramesIn;
  }

  lemma RemoveOwner(w: World, i: int)
    requires Inv(w) && AllIn(w.mux.order, w.mux.pads) && w.hist.Keys == w.mux.pads.Keys && OneOwner(w)
    ensures Inv(NextRemove(w, i))
    ensures var w' := NextRemove(w, i);
            AllIn(w'.mux.order, w'.mux.pads) && w'.hist.Keys == w'.mux.pads.Keys && OneOwner(w')
  {
    hide *;
    RemoveOk(w, i);
    Listed(w);
    Listed(NextRemove(w, i));
    if i in w.mux.pads {
      RemoveShape(w, i);
      OrderLists(w, i);
      RemovedSums(w, NextRemove(w, i), i);
    } else {
      NothingToRemove(w, i);
    }
  }

  lemma NothingToRemove(w: World, i: int)
    requires w.hist.Keys == w.mux.pads.Keys && i !in w.mux.pads
    ensures NextRemove(w, i) == w
  {
  }

  lemma RemovedSums(w: World, w': World, i: int)
    requires AllIn(w.mux.order, w.mux.pads) && w.hist.Keys == w.mux.pads.Keys && OneOwner(w) && Distinct(w.mux.order)
    requires AllIn(w'.mux.order, w'.mux.pads) && w'.hist.Keys == w'.mux.pads.Keys && i in w.mux.pads && i in w.mux.order
    requires w'.mux.pads == w.mux.pads - {i} && w'.mux.order == Without(w.mux.order, i) && w'.hist == w.hist - {i}
    requires w'.retired == w.retired + [Absorb(w.hist[i], i, [], Tagged(i, w.mux.pads[i].queue), [])]
    requires w'.orphans == if w.mux.pads[i].blocked.None? then w.orphans else w.orphans + [Orphan(i, w.mux.pads[i].blocked.value)]
    requires Distinct(w'.mux.order) && w'.handed == w.handed && w'.refused == w.refused
    ensures OneOwner(w')
  {
    var p, h := w.mux.pads[i], w.hist[i];
    WithoutBrings(w.mux.pads, w.hist, w.mux.order, i);
    PadLeaves(w.mux.pads, w.hist, w'.mux.order, i);
    RetiredMore(w.retired, Absorb(h, i, [], Tagged(i, p.queue), []));
    AbsorbPushes(h, i, [], Tagged(i, p.queue), []);
    hide Payloads, OfRetired, OfOrphans, BroughtByAll, Without, Tagged, Distinct, Absorb, AllIn;
    if p.blocked.Some? {
      OrphansMore(w.orphans, Orphan(i, p.blocked.value));
    }
    Move(multiset(w.refused), OfOrphans(w.orphans), OfRetired(w.retired),
         BroughtByAll(w'.mux.pads, w'.hist, w'.mux.order), Held(p), Payloads(h.pushed));
  }

  lemma OrderLists(w: World, i: int)
    requires Inv(w) && i in w.mux.pads
    ensures i in w.mux.order && AllIn(Without(w.mux.order, i), w.mux.pads - {i}) && Distinct(Without(w.mux.order, i))
  {
    WithoutRemoves(w.mux.order, i);
    var rest := Without(w.mux.order, i);
    forall k | 0 <= k < |rest| ensures rest[k] in w.mux.pads - {i} {
      assert rest[k] in rest;
    }
  }

  lemma Move(refused: multiset<int>, orphans: multiset<int>, retired: multiset<int>, rest: multiset<int>,
             held: multiset<int>, pushed: multiset<int>)
    ensures refused + (orphans + retired) + (rest + (pushed + held)) == refused + ((orphans + held) + (retired + pushed)) + rest
  {
  }

  /** A step that changes what pad `i` brought, and nothing the others did. */
  ghost predicate OnlyBrings(w: World, w': World, i: int) {
    && AllIn(w.mux.order, w.mux.pads) && w.hist.Keys == w.mux.pads.Keys
    && AllIn(w'.mux.order, w'.mux.pads) && w'.hist.Keys == w'.mux.pads.Keys
    && w'.mux.order == w.mux.order && Distinct(w.mux.order) && i in w.mux.order
    && i in w.mux.pads && i in w'.mux.pads && i in w.hist && i in w'.hist
    && (forall j :: j in w.mux.pads && j != i ==>
          j in w'.mux.pads && Brought(w'.mux.pads[j], w'.hist[j]) == Brought(w.mux.pads[j], w.hist[j]))
    && Gone(w') == Gone(w)
  }

  lemma OthersBring(w: World, w': World, i: int)
    requires OnlyBrings(w, w', i)
    ensures BroughtByAll(w'.mux.pads, w'.hist, w'.mux.order) + Brought(w.mux.pads[i], w.hist[i]) ==
            BroughtByAll(w.mux.pads, w.hist, w.mux.order) + Brought(w'.mux.pads[i], w'.hist[i])
  {
    hide Brought, BroughtByAll, Gone;
    forall k | 0 <= k < |w.mux.order| && w.mux.order[k] != i
      ensures Brought(w'.mux.pads[w.mux.order[k]], w'.hist[w.mux.order[k]]) ==
              Brought(w.mux.pads[w.mux.order[k]], w.hist[w.mux.order[k]])
    {
      assert w.mux.order[k] in w.mux.pads;
    }
    OneBrings(w.mux.pads, w.hist, w'.mux.pads, w'.hist, w.mux.order, i);
  }

  lemma OnePadOwner(w: World, w': World, i: int)
    requires OnlyBrings(w, w', i) && OneOwner(w)
    requires multiset(w'.handed) + Brought(w.mux.pads[i], w.hist[i]) + multiset(w.refused) ==
             multiset(w.handed) + Brought(w'.mux.pads[i], w'.hist[i]) + multiset(w'.refused)
    ensures OneOwner(w')
  {
    OthersBring(w, w', i);
    assert OneOwner(w') == (multiset(w'.handed) == multiset(w'.refused) + Gone(w') + BroughtByAll(w'.mux.pads, w'.hist, w'.mux.order));
    assert multiset(w.handed) == multiset(w.refused) + Gone(w) + BroughtByAll(w.mux.pads, w.hist, w.mux.order);
    assert Gone(w') == Gone(w);
    hide *;
    Balance(multiset(w.handed), multiset(w'.handed), multiset(w.refused), multiset(w'.refused), Gone(w),
            BroughtByAll(w.mux.pads, w.hist, w.mux.order), BroughtByAll(w'.mux.pads, w'.hist, w'.mux.order),
            Brought(w.mux.pads[i], w.hist[i]), Brought(w'.mux.pads[i], w'.hist[i]));
  }

  lemma Balance(h: multiset<int>, h': multiset<int>, r: multiset<int>, r': multiset<int>, o: multiset<int>,
                b: multiset<int>, b': multiset<int>, x: multiset<int>, x': multiset<int>)
    requires h == r + o + b && b' + x == b + x' && h' + x + r == h + x' + r'
    ensures h' == r' + o + b'
  {
    forall k: int ensures h'[k] == (r' + o + b')[k] {
      assert (h' + x + r)[k] == (h + x' + r')[k];
      assert (b' + x)[k] == (b + x')[k];
    }
  }

  lemma PushBrings(cfg: MuxConfig, p: Pad, h: History, a: Arrival, duration: int, now: int)
    requires p.depth >= 1 && p.blocked.None?
    ensures Brought(PushPad(cfg, p, a, duration, now).pad, PushHistory(cfg, p, h, a, duration, now)) ==
            Brought(p, h) + multiset{a.payload}
  {
    PushedMore(h.pushed, Accept(a, now));
    hide Payloads;
    assert Held(p) == multiset{};
  }

  /** A step that replaces one pad and its history. */
  ghost predicate Replaces(w: World, w': World, i: int, p: Pad, h: History) {
    && i in w.mux.pads && i in w.hist
    && w'.mux.pads == w.mux.pads[i := p] && w'.hist == w.hist[i := h] && w'.mux.order == w.mux.order
    && w'.retired == w.retired && w'.orphans == w.orphans
  }

  ghost predicate Defined(w: World) {
    && AllIn(w.mux.order, w.mux.pads) && w.hist.Keys == w.mux.pads.Keys
    && Distinct(w.mux.order) && (forall i :: i in w.mux.pads ==> i in w.mux.order)
  }

  lemma ReplacesOnly(w: World, w': World, i: int, p: Pad, h: History)
    requires Defined(w) && Replaces(w, w', i, p, h)
    ensures Defined(w') && OnlyBrings(w, w', i)
  {
    hide Brought, OfOrphans, OfRetired;
  }

  lemma ReplaceOwner(w: World, w': World, i: int, p: Pad, h: History)
    requires Defined(w) && Replaces(w, w', i, p, h) && OneOwner(w)
    requires multiset(w'.handed) + Brought(w.mux.pads[i], w.hist[i]) + multiset(w.refused) ==
             multiset(w.handed) + Brought(p, h) + multiset(w'.refused)
    ensures Defined(w') && OneOwner(w')
  {
    ReplacesOnly(w, w', i, p, h);
    hide Defined, OnlyBrings, OneOwner, Brought;
    OnePadOwner(w, w', i);
  }

  lemma InvDefined(w: World)
    requires Inv(w)
    ensures Defined(w) && AllIn(w.mux.order, w.mux.pads) && w.hist.Keys == w.mux.pads.Keys && w.mux.WellFormed()
  {
  }

  /** push_frame on a pad that takes frames. */
  lemma PushReplaces(w: World, i: int, a: Arrival, duration: int, now: int)
    requires w.mux.WellFormed() && w.hist.Keys == w.mux.pads.Keys && i in w.mux.pads && !Refuses(w.mux.pads[i])
    ensures var w' := NextPush(w, i, a, duration, now);
            && w'.handed == w.handed + [a.payload] && w'.refused == w.refused
            && Replaces(w, w', i, PushPad(w.mux.cfg, w.mux.pads[i], a, duration, now).pad,
                        PushHistory(w.mux.cfg, w.mux.pads[i], w.hist[i], a, duration, now))
  {
    hide PushPad, PushHistory, Tagged;
  }

  /** push_frame on a pad that is gone or has ended. */
  lemma PushPasses(w: World, i: int, a: Arrival, duration: int, now: int)
    requires w.mux.WellFormed() && w.hist.Keys == w.mux.pads.Keys && (i in w.mux.pads ==> Refuses(w.mux.pads[i]))
    requires AllIn(w.mux.order, w.mux.pads) && OneOwner(w)
    ensures var w' := NextPush(w, i, a, duration, now);
            AllIn(w'.mux.order, w'.mux.pads) && w'.hist.Keys == w'.mux.pads.Keys && OneOwner(w')
  {
    hide BroughtByAll, OfOrphans, OfRetired, PushHistory;
    if i in w.mux.pads {
      Both(multiset(w.handed), multiset(w.refused), Gone(w), BroughtByAll(w.mux.pads, w.hist, w.mux.order), multiset{a.payload});
      hide Gone;
    }
  }

  lemma PushOwner(w: World, i: int, a: Arrival, duration: int, now: int)
    requires Inv(w) && Enabled(w, PushAt(i, a, duration, now)) && AllIn(w.mux.order, w.mux.pads)
    requires w.hist.Keys == w.mux.pads.Keys && OneOwner(w)
    ensures var w' := NextPush(w, i, a, duration, now);
            AllIn(w'.mux.order, w'.mux.pads) && w'.hist.Keys == w'.mux.pads.Keys && OneOwner(w')
  {
    var w' := NextPush(w, i, a, duration, now);
    InvDefined(w);
    if i in w.mux.pads && !Refuses(w.mux.pads[i]) {
      PushReplaces(w, i, a, duration, now);
      PushBrings(w.mux.cfg, w.mux.pads[i], w.hist[i], a, duration, now);
      var p, h := PushPad(w.mux.cfg, w.mux.pads[i], a, duration, now).pad,
                  PushHistory(w.mux.cfg, w.mux.pads[i], w.hist[i], a, duration, now);
      hide Inv, NextPush, PushPad, PushHistory, Brought, OneOwner, Mux.WellFormed, Replaces;
      OneMoreHanded(multiset(w.handed), Brought(w.mux.pads[i], w.hist[i]), multiset(w.refused), multiset{a.payload});
      ReplaceOwner(w, w', i, p, h);
    } else {
      hide Inv, NextPush, OneOwner;
      PushPasses(w, i, a, duration, now);
    }
  }

  lemma OneMoreHanded(h: multiset<int>, b: multiset<int>, r: multiset<int>, one: multiset<int>)
    ensures (h + one) + b + r == h + (b + one) + r
  {
    Exchange(h, one, b);
    assert h + (b + one) == (h + b) + one;
  }

  lemma Both(h: multiset<int>, r: multiset<int>, g: multiset<int>, b: multiset<int>, one: multiset<int>)
    requires h == r + g + b
    ensures h + one == (r + one) + g + b
  {
    Exchange(r, one, g);
    Exchange(r + g, one, b);
  }

  lemma ResumeBrings(p: Pad, h: History, now: int)
    requires p.blocked.Some?
    ensures Brought(Append(p.(blocked := None), p.blocked.value, now), h.(pushed := h.pushed + [Accept(p.blocked.value, now)])) ==
            Brought(p, h)
    ensures Brought(p.(blocked := None), h) + multiset{p.blocked.value.payload} == Brought(p, h)
  {
    PushedMore(h.pushed, Accept(p.blocked.value, now));
    hide Payloads;
  }

  lemma ResumeReplaces(w: World, i: int, now: int)
    requires CanResume(w.mux, i) && w.hist.Keys == w.mux.pads.Keys
    ensures var w', p := NextResume(w, i, now), w.mux.pads[i];
            && w'.handed == w.handed
            && w'.refused == (if w.mux.stopping then w.refused + [p.blocked.value.payload] else w.refused)
            && if w.mux.stopping then Replaces(w, w', i, p.(blocked := None), w.hist[i])
               else Replaces(w, w', i, Append(p.(blocked := None), p.blocked.value, now),
                             w.hist[i].(pushed := w.hist[i].pushed + [Accept(p.blocked.value, now)]))
  {
    hide Append;
  }

  lemma ResumeOwner(w: World, i: int, now: int)
    requires Inv(w) && Enabled(w, ResumeAt(i, now)) && AllIn(w.mux.order, w.mux.pads)
    requires w.hist.Keys == w.mux.pads.Keys && OneOwner(w)
    ensures var w' := NextResume(w, i, now);
            AllIn(w'.mux.order, w'.mux.pads) && w'.hist.Keys == w'.mux.pads.Keys && OneOwner(w')
  {
    var w', p, h := NextResume(w, i, now), w.mux.pads[i], w.hist[i];
    InvDefined(w);
    ResumeReplaces(w, i, now);
    ResumeBrings(p, h, now);
    hide Inv, NextResume, Append, Brought, OneOwner, Mux.WellFormed, Replaces;
    if w.mux.stopping {
      OneMoreRefused(multiset(w.handed), Brought(p.(blocked := None), h), multiset(w.refused), multiset{p.blocked.value.payload});
      ReplaceOwner(w, w', i, p.(blocked := None), h);
    } else {
      ReplaceOwner(w, w', i, Append(p.(blocked := None), p.blocked.value, now),
                   h.(pushed := h.pushed + [Accept(p.blocked.value, now)]));
    }
  }

  lemma OneMoreRefused(h: multiset<int>, b: multiset<int>, r: multiset<int>, one: multiset<int>)
    ensures h + (b + one) + r == h + b + (r + one)
  {
    assert h + (b + one) == (h + b) + one;
  }

  lemma PollKeepsHeld(m: Mux, now: int, i: int)
    requires Sound(m) && i in m.pads
    ensures AllIn(m.order, m.pads) && m.cfg.overallMaxFps > 0.0
    ensures i in Poll(m, now).mux.pads && Poll(m, now).mux.pads[i].blocked == m.pads[i].blocked
  {
    hide *;
    PollStages(m, now);
    var m0 := m.(pending := []);
    var e1 := EosStage(m0);
    SoundParts(m);
    SoundParts(e1.mux);
    StageKeepsHeld(m0, now, i);
    var e2 := BatchStage(e1.mux, now);
    BatchKeepsHeld(e1.mux, now, i);
    StageKeepsHeld(e2.mux, now, i);
    EndKeepsPads(if e2.picks != [] then EosStage(e2.mux).mux else e2.mux);
  }

  lemma EndKeepsPads(m: Mux)
    ensures EndStage(m).mux.pads == m.pads && EndStage(m).mux.order == m.order
  {
  }

  lemma StageKeepsHeld(m: Mux, now: int, i: int)
    requires AllIn(m.order, m.pads) && i in m.pads
    ensures i in EosStage(m).mux.pads && EosStage(m).mux.pads[i].blocked == m.pads[i].blocked
  {
    hide EosNotices;
  }

  lemma BatchKeepsHeld(m: Mux, now: int, i: int)
    requires m.WellFormed() && OrderedQueues(m) && i in m.pads
    ensures m.cfg.overallMaxFps > 0.0 && AllIn(m.order, m.pads)
    ensures i in BatchStage(m, now).mux.pads && BatchStage(m, now).mux.pads[i].blocked == m.pads[i].blocked
  {
    FormSplits(m, now);
    hide Form, On, Thinned, OutputPts, FrameDuration, EmitBatch, Ordered;
    assert SplitAt(m, Form(m, now), i);
  }

  lemma AbsorbKeepsPushed(hist: map<int, History>, e: Effect)
    ensures AbsorbAll(hist, e).Keys == hist.Keys
    ensures forall i :: i in hist ==> i in AbsorbAll(hist, e) && AbsorbAll(hist, e)[i].pushed == hist[i].pushed
  {
    hide FramesIn, FramesOn, On, Seqs;
  }

  lemma PollListed(m: Mux, now: int)
    requires Sound(m)
    ensures AllIn(m.order, m.pads) && m.cfg.overallMaxFps > 0.0 && m.WellFormed()
    ensures Poll(m, now).mux.order == m.order
  {
    SoundParts(m);
    PollStages(m, now);
    hide Poll, BatchStage, Form, EosNotices, Sound, Mux.WellFormed;
  }

  lemma PollOwner(w: World, now: int)
    requires Inv(w) && AllIn(w.mux.order, w.mux.pads) && w.hist.Keys == w.mux.pads.Keys && OneOwner(w) && w.clock <= now
    ensures w.mux.WellFormed()
    ensures var w' := NextPoll(w, now);
            AllIn(w'.mux.order, w'.mux.pads) && w'.hist.Keys == w'.mux.pads.Keys && OneOwner(w')
  {
    InvIsSound(w);
    PollListed(w.mux, now);
    PollOk(w, now);
    InvDefined(NextPoll(w, now));
    var e := Poll(w.mux, now);
    var w' := NextPoll(w, now);
    hide Inv, Sound, Poll, AbsorbAll, Mux.WellFormed, BroughtByAll, Gone, Payloads;
    AbsorbKeepsPushed(w.hist, e);
    forall k | 0 <= k < |w.mux.order|
      ensures w.mux.order[k] in w'.mux.pads
      ensures Brought(w'.mux.pads[w.mux.order[k]], w'.hist[w.mux.order[k]]) ==
              Brought(w.mux.pads[w.mux.order[k]], w.hist[w.mux.order[k]])
    {
      PollKeepsHeld(w.mux, now, w.mux.order[k]);
    }
    hide Brought, AllIn;
    SameBrought(w.mux.pads, w.hist, w'.mux.pads, w'.hist, w.mux.order);
    assert Gone(w') == Gone(w) by {
      SameGone(w, w');
    }
  }

  lemma SameGone(w: World, w': World)
    requires w'.orphans == w.orphans && w'.retired == w.retired
    ensures Gone(w') == Gone(w)
  {
    hide OfOrphans, OfRetired;
  }

  lemma FreshBrings(cfg: MuxConfig, i: int, source: Option<int>, scfg: Option<SourceConfig>, since: nat)
    ensures Brought(NewPad(cfg, i, source, scfg), EmptyHistory(since)) == multiset{}
  {
  }

  lemma AddShape(w: World, i: int, source: Option<int>, scfg: Option<SourceConfig>)
    requires w.mux.WellFormed() && w.hist.Keys == w.mux.pads.Keys
    ensures Enabled(w, Add(i, source, scfg))
    ensures var w' := Next(w, Add(i, source, scfg));
            && w'.handed == w.handed && w'.refused == w.refused && w'.orphans == w.orphans && w'.retired == w.retired
            && if i in w.mux.pads then w' == w
               else
                 && w'.mux.pads == w.mux.pads[i := NewPad(w.mux.cfg, i, source, scfg)]
                 && w'.hist == w.hist[i := EmptyHistory(|w.trace|)] && w'.mux.order == w.mux.order + [i]
  {
    hide NewPad, EmptyHistory;
  }

  lemma AddOwner(w: World, i: int, source: Option<int>, scfg: Option<SourceConfig>)
    requires Inv(w) && AllIn(w.mux.order, w.mux.pads) && w.hist.Keys == w.mux.pads.Keys && OneOwner(w)
    ensures w.mux.WellFormed()
    ensures var w' := Next(w, Add(i, source, scfg));
            AllIn(w'.mux.order, w'.mux.pads) && w'.hist.Keys == w'.mux.pads.Keys && OneOwner(w')
  {
    hide *;
    InvDefined(w);
    AddShape(w, i, source, scfg);
    if i !in w.mux.pads {
      FreshBrings(w.mux.cfg, i, source, scfg, |w.trace|);
      NewPadBrings(w.mux.pads, w.hist, w.mux.order, i, NewPad(w.mux.cfg, i, source, scfg), EmptyHistory(|w.trace|));
      QuietOwner(w, Next(w, Add(i, source, scfg)));
    }
  }

  lemma AbandonShape(w: World, k: nat)
    requires w.mux.WellFormed() && w.hist.Keys == w.mux.pads.Keys && Enabled(w, Abandon(k))
    ensures k < |w.orphans|
    ensures Next(w, Abandon(k)) == w.(refused := w.refused + [w.orphans[k].arrival.payload],
                                      orphans := w.orphans[..k] + w.orphans[k + 1..])
  {
    hide Mux.WellFormed;
  }

  lemma AbandonOwner(w: World, k: nat)
    requires Inv(w) && Enabled(w, Abandon(k)) && AllIn(w.mux.order, w.mux.pads) && w.hist.Keys == w.mux.pads.Keys && OneOwner(w)
    ensures w.mux.WellFormed()
    ensures var w' := Next(w, Abandon(k));
            AllIn(w'.mux.order, w'.mux.pads) && w'.hist.Keys == w'.mux.pads.Keys && OneOwner(w')
  {
    hide *;
    InvDefined(w);
    AbandonShape(w, k);
    AbandonedSums(w, k, Next(w, Abandon(k)));
  }

  lemma AbandonedSums(w: World, k: nat, w': World)
    requires AllIn(w.mux.order, w.mux.pads) && w.hist.Keys == w.mux.pads.Keys && OneOwner(w) && k < |w.orphans|
    requires w' == w.(refused := w.refused + [w.orphans[k].arrival.payload], orphans := w.orphans[..k] + w.orphans[k + 1..])
    ensures OneOwner(w')
  {
    OrphanLess(w.orphans, k);
    hide BroughtByAll, OfOrphans, OfRetired, AllIn;
    Handover(multiset(w.refused), OfOrphans(w'.orphans), multiset{w.orphans[k].arrival.payload}, OfRetired(w.retired),
             BroughtByAll(w.mux.pads, w.hist, w.mux.order));
  }

  lemma Handover(r: multiset<int>, o: multiset<int>, one: multiset<int>, t: multiset<int>, b: multiset<int>)
    ensures r + ((o + one) + t) + b == (r + one) + (o + t) + b
  {
  }

  lemma EndReplaces(w: World, i: int)
    requires w.mux.WellFormed() && w.hist.Keys == w.mux.pads.Keys && Enabled(w, End(i))
    ensures var w' := Next(w, End(i));
            && w'.handed == w.handed && w'.refused == w.refused
            && (w' == w || (i in w.mux.pads && Replaces(w, w', i, w.mux.pads[i].(eosPending := true), w.hist[i])))
  {
    hide Mux.WellFormed;
  }

  lemma EndOwner(w: World, i: int)
    requires Inv(w) && Enabled(w, End(i)) && AllIn(w.mux.order, w.mux.pads) && w.hist.Keys == w.mux.pads.Keys && OneOwner(w)
    ensures w.mux.WellFormed()
    ensures var w' := Next(w, End(i));
            AllIn(w'.mux.order, w'.mux.pads) && w'.hist.Keys == w'.mux.pads.Keys && OneOwner(w')
  {
    InvDefined(w);
    EndReplaces(w, i);
    var w' := Next(w, End(i));
    hide Inv, Mux.WellFormed, Next, OneOwner, Replaces, Payloads;
    if w' != w {
      var p := w.mux.pads[i];
      assert Brought(p.(eosPending := true), w.hist[i]) == Brought(p, w.hist[i]);
      hide Brought;
      ReplaceOwner(w, w', i, p.(eosPending := true), w.hist[i]);
    }
  }

  /** A step that hands over nothing, closes nothing, and leaves the sum over the pads. */
  lemma QuietOwner(w: World, w': World)
    requires AllIn(w.mux.order, w.mux.pads) && w.hist.Keys == w.mux.pads.Keys && OneOwner(w)
    requires AllIn(w'.mux.order, w'.mux.pads) && w'.hist.Keys == w'.mux.pads.Keys
    requires BroughtByAll(w'.mux.pads, w'.hist, w'.mux.order) == BroughtByAll(w.mux.pads, w.hist, w.mux.order)
    requires w'.handed == w.handed && w'.refused == w.refused && w'.orphans == w.orphans && w'.retired == w.retired
    ensures OneOwner(w')
  {
    hide BroughtByAll, Gone, AllIn;
    SameGone(w, w');
  }

  lemma StepOwner(w: World, s: Step, w': World)
    requires Inv(w) && Follows(w, s, w') && AllIn(w.mux.order, w.mux.pads) && w.hist.Keys == w.mux.pads.Keys && OneOwner(w)
    ensures AllIn(w'.mux.order, w'.mux.pads) && w'.hist.Keys == w'.mux.pads.Keys && OneOwner(w')
  {
    InvDefined(w);
    hide Inv, OneOwner, Mux.WellFormed, NextPush, NextRemove, NextResume, NextPoll, AllIn;
    match s
    case StartAt(now) =>
      QuietOwner(w, w');
    case StopNow =>
      QuietOwner(w, w');
    case Add(i, source, scfg) =>
      AddOwner(w, i, source, scfg);
    case Remove(i) =>
      RemoveOwner(w, i);
    case PushAt(i, a, duration, now) =>
      PushOwner(w, i, a, duration, now);
    case ResumeAt(i, now) =>
      ResumeOwner(w, i, now);
    case Abandon(k) =>
      AbandonOwner(w, k);
    case End(i) =>
      EndOwner(w, i);
    case PollAt(now) =>
      PollOwner(w, now);
  }

  lemma {:induction false} RunOwner(ws: seq<World>, steps: seq<Step>, k: nat)
    requires Run(ws, steps) && k < |ws| && Inv(ws[0])
    requires AllIn(ws[0].mux.order, ws[0].mux.pads) && ws[0].hist.Keys == ws[0].mux.pads.Keys && OneOwner(ws[0])
    ensures AllIn(ws[k].mux.order, ws[k].mux.pads) && ws[k].hist.Keys == ws[k].mux.pads.Keys && OneOwner(ws[k])
  {
    hide Inv, Follows, OneOwner, AllIn;
    if k > 0 {
      RunOwner(ws, steps, k - 1);
      RunKeepsInv(ws, steps, k - 1);
      StepOwner(ws[k - 1], steps[k - 1], ws[k]);
    }
  }

  lemma StartOwner(cfg: MuxConfig, clock: int)
    ensures var w := NewWorld(cfg, clock);
            AllIn(w.mux.order, w.mux.pads) && w.hist.Keys == w.mux.pads.Keys && OneOwner(w)
  {
  }

  /** In every world of every run. */
  lemma EveryPayloadHasOneOwner(cfg: MuxConfig, ws: seq<World>, steps: seq<Step>, k: nat)
    requires RunFrom(cfg, ws, steps) && k < |ws|
    ensures AllIn(ws[k].mux.order, ws[k].mux.pads) && ws[k].hist.Keys == ws[k].mux.pads.Keys && OneOwner(ws[k])
  {
    hide Inv, Follows, OneOwner, AllIn, NewWorld;
    var clock :| ws[0] == NewWorld(cfg, clock);
    NewWorldOk(cfg, clock);
    StartOwner(cfg, clock);
    RunOwner(ws, steps, k);
  }
}
