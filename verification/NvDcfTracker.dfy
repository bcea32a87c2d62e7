/** The tracker object: lists and counters updated frame by frame, each loop proved to
    do what NvDcf says. */
module NvDcfTracker {
  import opened Shared
  import opened Greedy
  import opened NvDcf
  import opened NvDcfSafety

  // ---------------------------------------------------------------- one round of each loop

  lemma TakenOneMore(pairs: seq<Cell>, rows: seq<nat>, cols: seq<nat>, good: (nat, nat) -> bool, k: nat)
    requires k < |pairs|
    ensures var before, c := Taken(pairs[..k], rows, cols, good), pairs[k];
            Taken(pairs[..k + 1], rows, cols, good) ==
            if c.row < |rows| && c.col < |cols| && good(rows[c.row], cols[c.col])
            then before + [Match(rows[c.row], cols[c.col])] else before
  {
    assert pairs[..k + 1][..k] == pairs[..k];
  }

  lemma HasOneMore(ms: seq<Match>, k: nat, t: nat)
    requires k < |ms|
    ensures HasTarget(ms[..k + 1], t) <==> HasTarget(ms[..k], t) || ms[k].target == t
  {
    if HasTarget(ms[..k + 1], t) {
      var j :| 0 <= j < k + 1 && ms[..k + 1][j].target == t;
      assert j < k ==> ms[..k][j].target == t;
    }
    if HasTarget(ms[..k], t) {
      var j :| 0 <= j < k && ms[..k][j].target == t;
      assert ms[..k + 1][j].target == t;
    }
    assert ms[..k + 1][k] == ms[k];
  }

  lemma NotYet(ms: seq<Match>, k: nat)
    requires k < |ms| && Injective(ms)
    ensures !HasTarget(ms[..k], ms[k].target)
  {
  }

  lemma MeasuredAt(cfg: Config, ts: seq<Target>, ms: seq<Match>, k: nat)
    requires k < |ms| && ms[k].target < |ts|
    ensures Measured(cfg, ts, ms)[ms[k].target] == Matched(cfg, ts[ms[k].target])
  {
    assert HasTarget(ms, ms[k].target);
  }

  lemma MatchedOutsOneMore(ts: seq<Target>, ms: seq<Match>, dets: seq<nat>, k: nat)
    requires k < |ms|
    ensures MatchedOuts(ts, ms[..k + 1], dets) ==
            if ms[k].det < |dets| && ms[k].target < |ts|
            then MatchedOuts(ts, ms[..k], dets) + [Detection(dets[ms[k].det], Shown(ts[ms[k].target]))]
            else MatchedOuts(ts, ms[..k], dets)
  {
    assert ms[..k + 1][..k] == ms[..k];
  }

  lemma OwnersOneMore(owners: map<nat, nat>, ts: seq<Target>, k: nat)
    requires k < |ts|
    ensures Owners(owners, ts[..k + 1]) ==
            if ts[k].needsInit then Owners(owners, ts[..k])[ts[k].slot := ts[k].id] else Owners(owners, ts[..k])
  {
    assert ts[..k + 1][..k] == ts[..k];
  }

  /** The targets of the first `k` matches measured, the others as they were. */
  ghost predicate MatchedUpTo(cfg: Config, ts: seq<Target>, ms: seq<Match>, now: seq<Target>, k: nat) {
    && k <= |ms| && |now| == |ts|
    && (forall i :: 0 <= i < |ts| ==> now[i] == if HasTarget(ms[..k], i) then Matched(cfg, ts[i]) else ts[i])
  }

  lemma MatchStart(cfg: Config, ts: seq<Target>, ms: seq<Match>, dets: seq<nat>)
    ensures MatchedUpTo(cfg, ts, ms, ts, 0) && MatchedOuts(Measured(cfg, ts, ms), ms[..0], dets) == []
  {
  }

  lemma MatchEnd(cfg: Config, ts: seq<Target>, ms: seq<Match>, now: seq<Target>)
    requires MatchedUpTo(cfg, ts, ms, now, |ms|)
    ensures |now| == |ts|
    ensures forall i :: 0 <= i < |ts| ==> now[i] == if HasTarget(ms, i) then Matched(cfg, ts[i]) else ts[i]
  {
    assert ms[..|ms|] == ms;
    hide HasTarget, Matched;
  }

  lemma MatchOneMore(cfg: Config, ts: seq<Target>, ms: seq<Match>, now: seq<Target>, dets: seq<nat>, k: nat)
    requires Injective(ms) && InRange(ms, |dets|, |ts|) && k < |ms| && MatchedUpTo(cfg, ts, ms, now, k)
    ensures var d, i := ms[k].det, ms[k].target;
            && d < |dets| && i < |now|
            && MatchedUpTo(cfg, ts, ms, now[i := Matched(cfg, now[i])], k + 1)
            && MatchedOuts(Measured(cfg, ts, ms), ms[..k + 1], dets) ==
               MatchedOuts(Measured(cfg, ts, ms), ms[..k], dets) + [Detection(dets[d], Shown(Matched(cfg, now[i])))]
  {
    var after, i := Measured(cfg, ts, ms), ms[k].target;
    NotYet(ms, k);
    MatchedOutsOneMore(after, ms, dets, k);
    MeasuredAt(cfg, ts, ms, k);
    hide HasTarget, Matched, MatchedOuts, Injective, Measured;
    forall j | 0 <= j < |ts| ensures HasTarget(ms[..k + 1], j) <==> HasTarget(ms[..k], j) || i == j {
      HasOneMore(ms, k, j);
    }
  }

  class NvDcfTracker {
    const cfg: Config
    var targets: seq<Target>
    var free: seq<nat>
    var nextId: nat
    var created: nat
    var terminated: nat
    var bridged: nat
    var owners: map<nat, nat>

    function Now(): Tracker
      reads this
    {
      Tracker(targets, free, nextId, created, terminated, bridged, owners)
    }

    ghost predicate Valid()
      reads this
    {
      Inv(cfg, Now())
    }

    constructor (cfg: Config)
      ensures Valid() && Now() == NewTracker(cfg) && this.cfg == cfg
    {
      this.cfg := cfg;
      targets, free, nextId := [], seq(cfg.maxTargets, k requires 0 <= k < cfg.maxTargets => k), 1;
      created, terminated, bridged, owners := 0, 0, 0, map[];
      new;
      assert SlotsOf([]) == [];
      assert NewTracker(cfg).free == UpTo(cfg.maxTargets);
    }

    /** Predicts every target, then asks the filters. */
    method PredictAll(f: Frame)
      modifies this`targets
      ensures targets == Predicted(old(targets), f)
    {
      ghost var ts := targets;
      for i := 0 to |targets|
        invariant |targets| == |ts|
        invariant forall j :: 0 <= j < |ts| ==> targets[j] == if j < i then Aged(ts[j]) else ts[j]
      {
        targets := targets[i := Aged(targets[i])];
      }
      if f.visual {
        for i := 0 to |targets|
          invariant |targets| == |ts|
          invariant forall j :: 0 <= j < |ts| ==>
                      targets[j] == if j < i then Localized(Aged(ts[j]), f.looks(j)) else Aged(ts[j])
        {
          targets := targets[i := Localized(targets[i], f.looks(i))];
        }
      }
    }

    method TakePairs(pairs: seq<Cell>, rows: seq<nat>, cols: seq<nat>, good: (nat, nat) -> bool) returns (ms: seq<Match>)
      ensures ms == Taken(pairs, rows, cols, good)
    {
      ms := [];
      for k := 0 to |pairs|
        invariant ms == Taken(pairs[..k], rows, cols, good)
      {
        TakenOneMore(pairs, rows, cols, good, k);
        var c := pairs[k];
        if c.row < |rows| && c.col < |cols| && good(rows[c.row], cols[c.col]) {
          ms := ms + [Match(rows[c.row], cols[c.col])];
        }
      }
      assert pairs[..|pairs|] == pairs;
    }

    /** Confirmed targets, tentative targets, then tentative detections. */
    method Associate(f: Frame) returns (ms: seq<Match>)
      ensures ms == Associated(cfg, f, targets)
    {
      hide Taken, FreeDets, FreeTargets, Group, GoodScore, GoodOverlap;
      var nf, nw := |Full(cfg, f)|, |Weak(cfg, f)|;
      ms := TakePairs(Pairs(f, 0), FreeDets(nf, []), Group(targets, false), GoodScore(f, targets));
      var more := TakePairs(Pairs(f, 1), FreeDets(nf, ms), Group(targets, true), GoodScore(f, targets));
      ms := ms + more;
      more := TakePairs(Pairs(f, 2), seq(nw, k requires 0 <= k < nw => nf + k), FreeTargets(|targets|, ms), GoodOverlap(cfg, f));
      ms := ms + more;
    }

    /** Matched targets take the measurement and are put out. */
    method MeasureMatched(ms: seq<Match>, dets: seq<nat>) returns (outs: seq<Out>)
      requires Injective(ms) && InRange(ms, |dets|, |targets|)
      modifies this`targets
      ensures |targets| == |old(targets)|
      ensures forall i :: 0 <= i < |targets| ==>
                targets[i] == if HasTarget(ms, i) then Matched(cfg, old(targets)[i]) else old(targets)[i]
      ensures outs == MatchedOuts(Measured(cfg, old(targets), ms), ms, dets)
    {
      hide *;
      ghost var ts := targets;
      MatchStart(cfg, ts, ms, dets);
      outs := [];
      for k := 0 to |ms|
        invariant MatchedUpTo(cfg, ts, ms, targets, k)
        invariant outs == MatchedOuts(Measured(cfg, ts, ms), ms[..k], dets)
      {
        MatchOneMore(cfg, ts, ms, targets, dets, k);
        var d, i := ms[k].det, ms[k].target;
        var t := Matched(cfg, targets[i]);
        targets := targets[i := t];
        outs := outs + [Detection(dets[d], Shown(t))];
      }
      MatchEnd(cfg, ts, ms, targets);
      assert ms[..|ms|] == ms;
    }

    /** The other targets go on by their filter alone, or fade. */
    method ContinueUnmatched(ms: seq<Match>, ghost ts: seq<Target>) returns (outs: seq<Out>)
      requires |targets| == |ts|
      requires forall i :: 0 <= i < |ts| ==> targets[i] == if HasTarget(ms, i) then Matched(cfg, ts[i]) else ts[i]
      modifies this`targets, this`bridged
      ensures targets == Measured(cfg, ts, ms)
      ensures outs == BridgeOuts(cfg, ts, ms, |ts|) && bridged == old(bridged) + |outs|
    {
      hide Matched, Missed, Bridges, HasTarget;
      outs := [];
      for k := 0 to |targets|
        invariant |targets| == |ts| && outs == BridgeOuts(cfg, ts, ms, k) && bridged == old(bridged) + |outs|
        invariant forall i :: 0 <= i < |ts| ==>
                    targets[i] == if HasTarget(ms, i) then Matched(cfg, ts[i]) else if i < k then Missed(cfg, ts[i]) else ts[i]
      {
        if HasTarget(ms, k) {
          continue;
        }
        if Bridges(cfg, targets[k]) {
          bridged := bridged + 1;
          outs := outs + [Bridge(targets[k].id)];
        }
        targets := targets[k := Missed(cfg, targets[k])];
      }
    }

    method CreateTargets(f: Frame, ms: seq<Match>, full: nat)
      modifies this`targets, this`free, this`nextId, this`created
      ensures Now() == Created(f, old(Now()), ms, full)
    {
      hide HasDet;
      for k := 0 to full
        invariant Now() == Created(f, old(Now()), ms, k)
      {
        if HasDet(ms, k) || (targets != [] && f.covered(k, |targets|)) || free == [] {
          continue;
        }
        targets := targets + [NewTarget(nextId, free[0])];
        free, nextId, created := free[1..], nextId + 1, created + 1;
      }
    }

    method LooseDetections(dets: seq<nat>, ms: seq<Match>) returns (outs: seq<Out>)
      ensures outs == LooseOuts(dets, ms, |dets|)
    {
      outs := [];
      for k := 0 to |dets|
        invariant outs == LooseOuts(dets, ms, k)
      {
        if !HasDet(ms, k) {
          outs := outs + [Detection(dets[k], None)];
        }
      }
    }

    /** The dead give back their slots and lose their filters. */
    method Terminate()
      modifies this`targets, this`free, this`terminated, this`owners
      ensures Now() == Reaped(cfg, old(Now()), |old(Now()).targets|)
    {
      hide Dead;
      var keep: seq<Target> := [];
      for k := 0 to |targets|
        invariant targets == old(targets)
        invariant Now().(targets := keep) == Reaped(cfg, old(Now()), k)
      {
        var t := targets[k];
        if Dead(cfg, t) {
          owners := owners - {t.slot};
          free := free + [t.slot];
          terminated := terminated + 1;
        } else {
          keep := keep + [t];
        }
      }
      targets := keep;
    }

    /** The filters of active and new targets learn from the image. */
    method LearnFilters(f: Frame)
      modifies this`targets, this`owners
      ensures Now() == Taught(old(Now()), f)
    {
      if !f.visual {
        return;
      }
      ghost var ts := targets;
      for k := 0 to |targets|
        invariant |targets| == |ts| && owners == Owners(old(owners), ts[..k])
        invariant forall i :: 0 <= i < |ts| ==> targets[i] == if i < k then Learned(ts[i]) else ts[i]
      {
        OwnersOneMore(old(owners), ts, k);
        if targets[k].needsInit {
          owners := owners[targets[k].slot := targets[k].id];
        }
        targets := targets[k := Learned(targets[k])];
      }
      assert ts[..|ts|] == ts;
      assert targets == Taught(old(Now()), f).targets;
    }

    /** From prediction to the last measured or missed target. */
    method MeasureAll(f: Frame) returns (ms: seq<Match>, outs: seq<Out>)
      requires SolverOk(f)
      modifies this`targets, this`bridged
      ensures Now() == AfterMeasurement(cfg, old(Now()), f) && ms == Matches(cfg, old(Now()), f)
      ensures var ts := Predicted(old(targets), f);
              outs == MatchedOuts(Measured(cfg, ts, ms), ms, Full(cfg, f) + Weak(cfg, f)) + BridgeOuts(cfg, ts, ms, |ts|)
    {
      AssociationIsInjective(cfg, f, Predicted(targets, f));
      hide Predicted, Associated, Measured, MatchedOuts, BridgeOuts, Injective, InRange, HasTarget, Full, Weak, Matched;
      PredictAll(f);
      ghost var ts := targets;
      ms := Associate(f);
      outs := MeasureMatched(ms, Full(cfg, f) + Weak(cfg, f));
      var bridges := ContinueUnmatched(ms, ts);
      outs := outs + bridges;
    }

    /** One frame. */
    method UpdateFrame(f: Frame) returns (outs: seq<Out>)
      requires Valid() && SolverOk(f)
      modifies this
      ensures Valid()
      ensures Now() == Update(cfg, old(Now()), f).tracker && outs == Update(cfg, old(Now()), f).outs
    {
      hide *;
      ghost var tr := Now();
      Kept(f);
      Stages(cfg, tr, f);
      var ms, found := MeasureAll(f);
      CreateTargets(f, ms, |Full(cfg, f)|);
      var loose := LooseDetections(Full(cfg, f) + Weak(cfg, f), ms);
      Terminate();
      LearnFilters(f);
      KeptNow();
      outs := found + loose;
    }

    lemma Kept(f: Frame)
      requires Valid()
      ensures Inv(cfg, Update(cfg, Now(), f).tracker) && targets == Now().targets
    {
      UpdateKeepsInv(cfg, Now(), f);
      hide Inv, Update;
    }

    lemma KeptNow()
      requires Inv(cfg, Now())
      ensures Valid()
    {
    }
  }

  /** A frame, stage by stage. */
  lemma Stages(cfg: Config, tr: Tracker, f: Frame)
    ensures var a, ms, ts := AfterMeasurement(cfg, tr, f), Matches(cfg, tr, f), Predicted(tr.targets, f);
            var c := Created(f, a, ms, |Full(cfg, f)|);
            var dets := Full(cfg, f) + Weak(cfg, f);
            && Update(cfg, tr, f).tracker == Taught(Reaped(cfg, c, |c.targets|), f)
            && Update(cfg, tr, f).outs ==
               MatchedOuts(Measured(cfg, ts, ms), ms, dets) + BridgeOuts(cfg, ts, ms, |ts|) + LooseOuts(dets, ms, |dets|)
  {
    hide Taught, Reaped, Created, AfterMeasurement, Matches, Predicted, Full, Weak, MatchedOuts, BridgeOuts, LooseOuts, Measured;
  }
}
