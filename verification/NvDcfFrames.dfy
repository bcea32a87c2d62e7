/** What comes out of a frame: each detection worth looking at exactly once, no id
    twice, and an id only for a target past its probation. */
module NvDcfFrames {
  import opened Shared
  import opened NvDcf
  import opened NvDcfSafety

  /** The detections in an output. */
  function OutDets(outs: seq<Out>): seq<nat> {
    if outs == [] then []
    else
      var n := |outs| - 1;
      if outs[n].Detection? then OutDets(outs[..n]) + [outs[n].det] else OutDets(outs[..n])
  }

  /** The id an output shows. */
  function IdOf(out: Out): Option<nat> {
    match out case Detection(_, shown) => shown case Bridge(id) => Some(id)
  }

  /** The ids in an output. */
  function OutIds(outs: seq<Out>): seq<nat> {
    if outs == [] then []
    else
      var n := |outs| - 1;
      if IdOf(outs[n]).Some? then OutIds(outs[..n]) + [IdOf(outs[n]).value] else OutIds(outs[..n])
  }

  lemma {:induction false} DetsAppend(a: seq<Out>, b: seq<Out>)
    ensures OutDets(a + b) == OutDets(a) + OutDets(b)
  {
    if b == [] {
      assert a + b == a;
    } else {
      var n := |b| - 1;
      assert (a + b)[..|a| + n] == a + b[..n];
      DetsAppend(a, b[..n]);
    }
  }

  lemma {:induction false} IdsAppend(a: seq<Out>, b: seq<Out>)
    ensures OutIds(a + b) == OutIds(a) + OutIds(b)
  {
    hide IdOf;
    if b == [] {
      assert a + b == a;
    } else {
      var n := |b| - 1;
      assert (a + b)[..|a| + n] == a + b[..n];
      IdsAppend(a, b[..n]);
    }
  }

  lemma OutAppend(a: seq<Out>, b: seq<Out>)
    ensures OutDets(a + b) == OutDets(a) + OutDets(b) && OutIds(a + b) == OutIds(a) + OutIds(b)
  {
    DetsAppend(a, b);
    IdsAppend(a, b);
  }

  lemma OutPush(a: seq<Out>, out: Out)
    ensures OutDets(a + [out]) == if out.Detection? then OutDets(a) + [out.det] else OutDets(a)
    ensures OutIds(a + [out]) == if IdOf(out).Some? then OutIds(a) + [IdOf(out).value] else OutIds(a)
  {
    hide IdOf;
    assert (a + [out])[..|a|] == a;
  }

  // ---------------------------------------------------------------- every detection once

  function DetsOf(ms: seq<Match>): (r: seq<nat>)
    ensures |r| == |ms|
  {
    seq(|ms|, k requires 0 <= k < |ms| => ms[k].det)
  }

  /** The detections at the given places. */
  function Picked(dets: seq<nat>, places: seq<nat>): (r: seq<nat>)
    requires forall k :: 0 <= k < |places| ==> places[k] < |dets|
    ensures |r| == |places|
  {
    seq(|places|, k requires 0 <= k < |places| => dets[places[k]])
  }

  lemma PickedLast(ms: seq<Match>, dets: seq<nat>)
    requires ms != [] && forall k :: 0 <= k < |ms| ==> ms[k].det < |dets|
    ensures Picked(dets, DetsOf(ms)) == Picked(dets, DetsOf(ms[..|ms| - 1])) + [dets[ms[|ms| - 1].det]]
  {
  }

  lemma {:induction false} MatchedDets(ts: seq<Target>, ms: seq<Match>, dets: seq<nat>)
    requires InRange(ms, |dets|, |ts|)
    ensures OutDets(MatchedOuts(ts, ms, dets)) == Picked(dets, DetsOf(ms))
  {
    if ms != [] {
      var n := |ms| - 1;
      MatchedDets(ts, ms[..n], dets);
      hide OutDets, OutIds, Shown, IdOf;
      OutPush(MatchedOuts(ts, ms[..n], dets), Detection(dets[ms[n].det], Shown(ts[ms[n].target])));
      PickedLast(ms, dets);
      hide Picked, DetsOf;
    }
  }

  lemma {:induction false} BridgeDets(cfg: Config, ts: seq<Target>, ms: seq<Match>, k: nat)
    requires k <= |ts|
    ensures OutDets(BridgeOuts(cfg, ts, ms, k)) == []
  {
    if k > 0 {
      BridgeDets(cfg, ts, ms, k - 1);
      hide OutDets, OutIds, HasTarget, Bridges, IdOf;
      OutPush(BridgeOuts(cfg, ts, ms, k - 1), Bridge(ts[k - 1].id));
    }
  }

  lemma {:induction false} LooseIds(dets: seq<nat>, ms: seq<Match>, k: nat)
    requires k <= |dets|
    ensures OutIds(LooseOuts(dets, ms, k)) == []
  {
    if k > 0 {
      LooseIds(dets, ms, k - 1);
      OutPush(LooseOuts(dets, ms, k - 1), Detection(dets[k - 1], None));
      assert IdOf(Detection(dets[k - 1], None)) == None;
      hide OutDets, OutIds, HasDet, IdOf;
    }
  }

  lemma FreePlaces(n: nat, m: nat, ms: seq<Match>)
    requires n <= m
    ensures forall j :: 0 <= j < |FreeDets(n, ms)| ==> FreeDets(n, ms)[j] < m
  {
  }

  lemma PickedOne(dets: seq<nat>, before: seq<nat>, p: nat)
    requires p < |dets| && forall k :: 0 <= k < |before| ==> before[k] < |dets|
    ensures Picked(dets, before + [p]) == Picked(dets, before) + [dets[p]]
  {
  }

  lemma {:induction false} LooseDets(dets: seq<nat>, ms: seq<Match>, k: nat)
    requires k <= |dets|
    ensures forall j :: 0 <= j < |FreeDets(k, ms)| ==> FreeDets(k, ms)[j] < |dets|
    ensures OutDets(LooseOuts(dets, ms, k)) == Picked(dets, FreeDets(k, ms))
  {
    FreePlaces(k, |dets|, ms);
    if k > 0 {
      LooseDets(dets, ms, k - 1);
      OutPush(LooseOuts(dets, ms, k - 1), Detection(dets[k - 1], None));
      hide OutDets, OutIds, HasDet, IdOf, Picked;
      PickedOne(dets, FreeDets(k - 1, ms), k - 1);
    }
  }

  lemma {:induction false} CountDet(ms: seq<Match>, d: nat)
    requires Injective(ms)
    ensures multiset(DetsOf(ms))[d] == if HasDet(ms, d) then 1 else 0
  {
    if ms != [] {
      var n := |ms| - 1;
      CountDet(ms[..n], d);
      assert DetsOf(ms) == DetsOf(ms[..n]) + [ms[n].det];
      assert HasDet(ms, d) <==> HasDet(ms[..n], d) || ms[n].det == d by {
        if HasDet(ms, d) {
          var k :| 0 <= k < |ms| && ms[k].det == d;
          assert k < n ==> ms[..n][k].det == d;
        }
      }
    } else {
      assert DetsOf(ms) == [];
    }
  }

  lemma {:induction false} FreeMembers(n: nat, ms: seq<Match>, d: nat)
    ensures d in FreeDets(n, ms) <==> d < n && !HasDet(ms, d)
  {
    hide HasDet;
    if n > 0 {
      FreeMembers(n - 1, ms, d);
    }
  }

  lemma {:induction false} DistinctCount(s: seq<nat>, d: nat)
    requires Distinct(s)
    ensures multiset(s)[d] == if d in s then 1 else 0
  {
    if s != [] {
      var n := |s| - 1;
      DistinctCount(s[..n], d);
      assert s == s[..n] + [s[n]];
    }
  }

  lemma CountFree(n: nat, ms: seq<Match>, d: nat)
    ensures multiset(FreeDets(n, ms))[d] == if d < n && !HasDet(ms, d) then 1 else 0
  {
    FreeMembers(n, ms, d);
    FreeDetsRising(n, ms);
    hide FreeDets, HasDet;
    DistinctCount(FreeDets(n, ms), d);
  }

  /** The places matched and the places left over are all places. */
  lemma PlacesShared(ms: seq<Match>, n: nat)
    requires Injective(ms) && forall k :: 0 <= k < |ms| ==> ms[k].det < n
    ensures multiset(DetsOf(ms)) + multiset(FreeDets(n, ms)) == multiset(UpTo(n))
  {
    var a: multiset<nat>, b: multiset<nat>, c: multiset<nat> := multiset(DetsOf(ms)), multiset(FreeDets(n, ms)), multiset(UpTo(n));
    forall d: nat ensures (a + b)[d] == c[d] {
      CountDet(ms, d);
      CountFree(n, ms, d);
      UpToOnce(n, d);
    }
  }

  lemma DropFrom(s: seq<nat>, j: nat)
    requires j < |s|
    ensures multiset(s) == multiset(s[..j] + s[j + 1..]) + multiset{s[j]}
  {
    assert s == s[..j] + [s[j]] + s[j + 1..];
  }

  lemma DropOne(dets: seq<nat>, b: seq<nat>, j: nat)
    requires j < |b| && forall k :: 0 <= k < |b| ==> b[k] < |dets|
    ensures var rest := b[..j] + b[j + 1..];
            && multiset(b) == multiset(rest) + multiset{b[j]}
            && (forall k :: 0 <= k < |rest| ==> rest[k] < |dets|)
            && multiset(Picked(dets, b)) == multiset(Picked(dets, rest)) + multiset{dets[b[j]]}
  {
    var p := Picked(dets, b);
    assert Picked(dets, b[..j] + b[j + 1..]) == p[..j] + p[j + 1..];
    DropFrom(b, j);
    DropFrom(p, j);
    hide Picked;
  }

  lemma SameRest(a: multiset<nat>, b: multiset<nat>, one: multiset<nat>)
    requires a + one == b + one
    ensures a == b
  {
    assert a == (a + one) - one && b == (b + one) - one;
  }

  lemma {:induction false} PickedMultiset(dets: seq<nat>, a: seq<nat>, b: seq<nat>)
    requires forall k :: 0 <= k < |a| ==> a[k] < |dets|
    requires forall k :: 0 <= k < |b| ==> b[k] < |dets|
    requires multiset(a) == multiset(b)
    ensures multiset(Picked(dets, a)) == multiset(Picked(dets, b))
  {
    if a == [] {
      assert |multiset(b)| == 0;
      assert Picked(dets, a) == Picked(dets, b);
    } else {
      var n := |a| - 1;
      assert a[n] in multiset(a);
      var j :| 0 <= j < |b| && b[j] == a[n];
      DropOne(dets, a, n);
      DropOne(dets, b, j);
      hide Picked;
      assert a[..n] + a[n + 1..] == a[..n];
      SameRest(multiset(a[..n]), multiset(b[..j] + b[j + 1..]), multiset{a[n]});
      PickedMultiset(dets, a[..n], b[..j] + b[j + 1..]);
    }
  }

  lemma DetsOut(cfg: Config, ts: seq<Target>, after: seq<Target>, ms: seq<Match>, dets: seq<nat>)
    requires Injective(ms) && InRange(ms, |dets|, |after|) && |ts| == |after|
    ensures multiset(OutDets(MatchedOuts(after, ms, dets) + BridgeOuts(cfg, ts, ms, |ts|) + LooseOuts(dets, ms, |dets|))) ==
            multiset(dets)
  {
    hide OutDets, OutIds, Picked, MatchedOuts, BridgeOuts, LooseOuts, Injective, FreeDets;
    var n := |dets|;
    var a, b, c := MatchedOuts(after, ms, dets), BridgeOuts(cfg, ts, ms, |ts|), LooseOuts(dets, ms, n);
    MatchedDets(after, ms, dets);
    BridgeDets(cfg, ts, ms, |ts|);
    LooseDets(dets, ms, n);
    OutAppend(a, b);
    OutAppend(a + b, c);
    PlacesShared(ms, n);
    var places := DetsOf(ms) + FreeDets(n, ms);
    assert multiset(places) == multiset(UpTo(n));
    PickedMultiset(dets, places, UpTo(n));
    PickedAppend(dets, DetsOf(ms), FreeDets(n, ms));
    PickedAll(dets);
  }

  /** Each detection the settings let through comes out exactly once, no other does. */
  lemma EveryDetectionOnce(cfg: Config, tr: Tracker, f: Frame)
    requires SolverOk(f)
    ensures var dets := Full(cfg, f) + Weak(cfg, f);
            && multiset(OutDets(Outs(cfg, tr, f))) == multiset(dets) && Distinct(dets)
            && forall d: nat :: d in dets <==> d < |f.confidences| && f.confidences[d] >= cfg.minDetectorConfidence
  {
    var ts := Predicted(tr.targets, f);
    AssociationIsInjective(cfg, f, ts);
    DetsWorth(cfg, f);
    hide Associated, Predicted, Measured, Full, Weak, OutDets, MatchedOuts, BridgeOuts, LooseOuts, Injective, InRange, Distinct;
    DetsOut(cfg, ts, Measured(cfg, ts, Matches(cfg, tr, f)), Matches(cfg, tr, f), Full(cfg, f) + Weak(cfg, f));
  }

  lemma DetsWorth(cfg: Config, f: Frame)
    ensures var dets := Full(cfg, f) + Weak(cfg, f);
            && |dets| == |Full(cfg, f)| + |Weak(cfg, f)| && Distinct(dets)
            && forall d: nat :: d in dets <==> d < |f.confidences| && f.confidences[d] >= cfg.minDetectorConfidence
  {
    KindRising(cfg, f.confidences, true);
    KindRising(cfg, f.confidences, false);
    hide Kind;
    var a, b := Full(cfg, f), Weak(cfg, f);
    forall i, j | 0 <= i < |a| && 0 <= j < |b| ensures a[i] != b[j] {
      assert a[i] in a && b[j] in b;
    }
  }

  lemma PickedAppend(dets: seq<nat>, a: seq<nat>, b: seq<nat>)
    requires forall k :: 0 <= k < |a| ==> a[k] < |dets|
    requires forall k :: 0 <= k < |b| ==> b[k] < |dets|
    ensures Picked(dets, a + b) == Picked(dets, a) + Picked(dets, b)
  {
  }

  lemma PickedAll(dets: seq<nat>)
    ensures Picked(dets, UpTo(|dets|)) == dets
  {
  }

  // ---------------------------------------------------------------- no id twice

  /** `x` is the id of a target that is, or is not, among the matched ones. */
  ghost predicate IdFrom(ts: seq<Target>, ms: seq<Match>, matched: bool, x: nat) {
    exists i :: 0 <= i < |ts| && HasTarget(ms, i) == matched && ts[i].id == x
  }

  ghost predicate DifferentIds(ts: seq<Target>) {
    forall a, b :: 0 <= a < b < |ts| ==> ts[a].id != ts[b].id
  }

  /** The id of a new match is not among those before. */
  lemma NewId(ts: seq<Target>, ms: seq<Match>, x: nat)
    requires ms != [] && Injective(ms) && DifferentIds(ts) && ms[|ms| - 1].target < |ts|
    requires IdFrom(ts, ms[..|ms| - 1], true, x)
    ensures x != ts[ms[|ms| - 1].target].id && IdFrom(ts, ms, true, x)
  {
    var n := |ms| - 1;
    var j :| 0 <= j < |ts| && HasTarget(ms[..n], j) && ts[j].id == x;
    var k :| 0 <= k < n && ms[..n][k].target == j;
    assert ms[k].target == j;
    assert HasTarget(ms, j);
  }

  lemma {:induction false} MatchedIds(ts: seq<Target>, ms: seq<Match>, dets: seq<nat>)
    requires InRange(ms, |dets|, |ts|) && Injective(ms) && DifferentIds(ts)
    ensures Distinct(OutIds(MatchedOuts(ts, ms, dets)))
    ensures forall x :: x in OutIds(MatchedOuts(ts, ms, dets)) ==> IdFrom(ts, ms, true, x)
    ensures forall x :: x in OutIds(MatchedOuts(ts, ms, dets)) ==> ShownOne(ts, x)
  {
    if ms != [] {
      var n := |ms| - 1;
      var before, t := MatchedOuts(ts, ms[..n], dets), ts[ms[n].target];
      MatchedIds(ts, ms[..n], dets);
      OutPush(before, Detection(dets[ms[n].det], Shown(t)));
      assert IdOf(Detection(dets[ms[n].det], Shown(t))) == if t.state == Tentative then None else Some(t.id);
      hide OutIds, OutDets, IdOf;
      forall x | x in OutIds(before) ensures x != t.id && IdFrom(ts, ms, true, x) {
        NewId(ts, ms, x);
      }
      assert HasTarget(ms, ms[n].target);
      assert IdFrom(ts, ms, true, t.id);
      hide IdFrom, Injective, DifferentIds;
    }
  }

  /** `x` is the id of a target that is not tentative. */
  ghost predicate ShownOne(ts: seq<Target>, x: nat) {
    exists i :: 0 <= i < |ts| && ts[i].id == x && ts[i].state != Tentative
  }

  ghost predicate BridgedOne(cfg: Config, ts: seq<Target>, ms: seq<Match>, k: nat, x: nat)
    requires k <= |ts|
  {
    exists i :: 0 <= i < k && !HasTarget(ms, i) && ts[i].id == x && Bridges(cfg, ts[i])
  }

  lemma BridgedMore(cfg: Config, ts: seq<Target>, ms: seq<Match>, k: nat, x: nat)
    requires k < |ts| && BridgedOne(cfg, ts, ms, k, x) && DifferentIds(ts)
    ensures BridgedOne(cfg, ts, ms, k + 1, x) && x != ts[k].id
  {
    hide HasTarget, Bridges;
  }

  lemma BridgedHere(cfg: Config, ts: seq<Target>, ms: seq<Match>, k: nat)
    requires k < |ts| && !HasTarget(ms, k) && Bridges(cfg, ts[k])
    ensures BridgedOne(cfg, ts, ms, k + 1, ts[k].id)
  {
  }

  lemma {:induction false} BridgeIds(cfg: Config, ts: seq<Target>, ms: seq<Match>, k: nat)
    requires k <= |ts| && DifferentIds(ts)
    ensures Distinct(OutIds(BridgeOuts(cfg, ts, ms, k)))
    ensures forall x :: x in OutIds(BridgeOuts(cfg, ts, ms, k)) ==> BridgedOne(cfg, ts, ms, k, x)
  {
    if k > 0 {
      var before, t := BridgeOuts(cfg, ts, ms, k - 1), ts[k - 1];
      BridgeIds(cfg, ts, ms, k - 1);
      OutPush(before, Bridge(t.id));
      assert IdOf(Bridge(t.id)) == Some(t.id);
      hide OutIds, OutDets, HasTarget, Bridges, IdOf, BridgedOne;
      forall x | x in OutIds(before) ensures BridgedOne(cfg, ts, ms, k, x) && x != t.id {
        BridgedMore(cfg, ts, ms, k - 1, x);
      }
      if !HasTarget(ms, k - 1) && Bridges(cfg, t) {
        BridgedHere(cfg, ts, ms, k - 1);
      }
      hide DifferentIds;
    }
  }

  lemma BridgesShown(cfg: Config, ts: seq<Target>, ms: seq<Match>, x: nat)
    requires BridgedOne(cfg, ts, ms, |ts|, x)
    ensures IdFrom(ts, ms, false, x) && ShownOne(Measured(cfg, ts, ms), x)
  {
    hide HasTarget;
    var i :| 0 <= i < |ts| && !HasTarget(ms, i) && ts[i].id == x && Bridges(cfg, ts[i]);
    assert Measured(cfg, ts, ms)[i].id == x && Measured(cfg, ts, ms)[i].state != Tentative;
  }

  lemma IdsApart(a: seq<nat>, b: seq<nat>, ts: seq<Target>, ms: seq<Match>)
    requires Distinct(a) && Distinct(b) && DifferentIds(ts)
    requires forall x :: x in a ==> IdFrom(ts, ms, true, x)
    requires forall x :: x in b ==> IdFrom(ts, ms, false, x)
    ensures Distinct(a + b)
  {
    hide HasTarget;
    forall i, j | 0 <= i < |a| && 0 <= j < |b| ensures a[i] != b[j] {
      assert a[i] in a && b[j] in b;
      var p :| 0 <= p < |ts| && HasTarget(ms, p) && ts[p].id == a[i];
      var q :| 0 <= q < |ts| && !HasTarget(ms, q) && ts[q].id == b[j];
    }
  }

  lemma SameIds(a: seq<Target>, b: seq<Target>, ms: seq<Match>, matched: bool, x: nat)
    requires |a| == |b| && (forall i :: 0 <= i < |a| ==> a[i].id == b[i].id) && IdFrom(a, ms, matched, x)
    ensures IdFrom(b, ms, matched, x)
  {
    hide HasTarget;
    var i :| 0 <= i < |a| && HasTarget(ms, i) == matched && a[i].id == x;
    assert b[i].id == x;
  }

  lemma IdsOut(cfg: Config, ts: seq<Target>, ms: seq<Match>, dets: seq<nat>)
    requires Injective(ms) && InRange(ms, |dets|, |ts|) && DifferentIds(ts)
    ensures var after := Measured(cfg, ts, ms);
            var ids := OutIds(MatchedOuts(after, ms, dets) + BridgeOuts(cfg, ts, ms, |ts|) + LooseOuts(dets, ms, |dets|));
            Distinct(ids) && forall x :: x in ids ==> ShownOne(after, x)
  {
    var after := Measured(cfg, ts, ms);
    assert forall i :: 0 <= i < |ts| ==> after[i].id == ts[i].id;
    assert DifferentIds(after);
    hide OutDets, OutIds, MatchedOuts, BridgeOuts, LooseOuts, Injective, HasTarget, Bridges, Measured;
    var a, b, c := MatchedOuts(after, ms, dets), BridgeOuts(cfg, ts, ms, |ts|), LooseOuts(dets, ms, |dets|);
    MatchedIds(after, ms, dets);
    BridgeIds(cfg, ts, ms, |ts|);
    LooseIds(dets, ms, |dets|);
    OutAppend(a, b);
    OutAppend(a + b, c);
    forall x | x in OutIds(a) ensures IdFrom(ts, ms, true, x) {
      SameIds(after, ts, ms, true, x);
    }
    forall x | x in OutIds(b) ensures IdFrom(ts, ms, false, x) && ShownOne(after, x) {
      BridgesShown(cfg, ts, ms, x);
    }
    hide IdFrom, ShownOne, DifferentIds, InRange;
    IdsApart(OutIds(a), OutIds(b), ts, ms);
    assert OutIds(a + b + c) == OutIds(a) + OutIds(b);
  }

  lemma PredictedIds(targets: seq<Target>, f: Frame)
    ensures DifferentIds(targets) ==> DifferentIds(Predicted(targets, f))
  {
    var ts := Predicted(targets, f);
    forall i | 0 <= i < |ts| ensures ts[i].id == targets[i].id {
      var a := Aged(targets[i]);
      assert ts[i] == if f.visual then Localized(a, f.looks(i)) else a;
    }
  }

  /** An id comes out at most once a frame, and only that of a target that was there
      before, whose probation is over. */
  lemma ShownIdsAreSeasoned(cfg: Config, tr: Tracker, f: Frame)
    requires Inv(cfg, tr) && SolverOk(f)
    ensures Distinct(OutIds(Outs(cfg, tr, f)))
    ensures forall x :: x in OutIds(Outs(cfg, tr, f)) ==> SeasonedOne(cfg, tr, f, x)
  {
    var ts := Predicted(tr.targets, f);
    AssociationIsInjective(cfg, f, ts);
    DetsWorth(cfg, f);
    PredictedIds(tr.targets, f);
    assert DifferentIds(tr.targets);
    hide Associated, Predicted, Measured, Full, Weak, OutIds, MatchedOuts, BridgeOuts, LooseOuts, Injective, Inv, Distinct;
    IdsOut(cfg, ts, Matches(cfg, tr, f), Full(cfg, f) + Weak(cfg, f));
    hide DifferentIds, InRange;
    forall x | x in OutIds(Outs(cfg, tr, f)) ensures SeasonedOne(cfg, tr, f, x) {
      ShownIsSeasoned(cfg, tr, f, x);
    }
  }

  ghost predicate SeasonedOne(cfg: Config, tr: Tracker, f: Frame, x: nat) {
    exists i :: 0 <= i < |tr.targets| && tr.targets[i].id == x && tr.targets[i].age + 1 > cfg.probationAge &&
                AfterMeasurement(cfg, tr, f).targets[i].state != Tentative
  }

  lemma ShownIsSeasoned(cfg: Config, tr: Tracker, f: Frame, x: nat)
    requires Inv(cfg, tr) && ShownOne(AfterMeasurement(cfg, tr, f).targets, x)
    ensures SeasonedOne(cfg, tr, f, x)
  {
    hide AfterMeasurement;
    MeasurementSound(cfg, tr, f);
    var after := AfterMeasurement(cfg, tr, f).targets;
    var i :| 0 <= i < |after| && after[i].id == x && after[i].state != Tentative;
    assert OneFrameOn(cfg, tr.targets[i], after[i]) && Seasoned(cfg, tr.targets[i]);
  }
}
