/** The bound on the life of an unmatched target is reached in a run of a new tracker. */
module NvDcfBound {
  import opened Greedy
  import opened NvDcf
  import opened NvDcfSafety
  import opened NvDcfLife

  /** A tracker with room for a target that does not give it up at once. */
  predicate CanTrack(cfg: Config) { cfg.maxTargets >= 1 && cfg.earlyTerminationAge >= 1 }

  /** One confident detection that the solver gives to the first tentative target. */
  function Seen(cfg: Config): Frame {
    Frame([if cfg.minDetectorConfidence >= cfg.tentativeConfidence then cfg.minDetectorConfidence else cfg.tentativeConfidence],
          true, (i: nat) => Look(false, 0.0), (d: nat, i: nat, v: bool, l: bool) => 0.0, (d: nat, i: nat) => 0.0,
          [[], [Cell(0, 0)], []], (d: nat, n: nat) => false)
  }

  lemma SeenOk(cfg: Config)
    ensures SolverOk(Seen(cfg)) && Full(cfg, Seen(cfg)) == [0] && Weak(cfg, Seen(cfg)) == []
  {
    var f := Seen(cfg);
    assert f.confidences[..0] == [];
    assert Kind(cfg, f.confidences, true) == [0];
    assert Kind(cfg, f.confidences, false) == [];
    assert OneToOne([]) && OneToOne([Cell(0, 0)]);
  }

  /** A tentative target that was found in every frame so far. */
  predicate Young(t: Target, age: nat) {
    && t.id == 1 && t.state == Tentative && t.age == age && t.shadowAge == 0 && t.visualOnlyAge == 0 && !t.needsInit
  }

  /** The same, confirmed. */
  predicate Fresh(t: Target) {
    t.id == 1 && t.state == Active && t.shadowAge == 0 && t.visualOnlyAge == 0 && !t.needsInit
  }

  lemma SeenNobody(cfg: Config, tr: Tracker)
    requires tr.targets == []
    ensures Matches(cfg, tr, Seen(cfg)) == [] && Predicted(tr.targets, Seen(cfg)) == []
  {
    var f := Seen(cfg);
    SeenOk(cfg);
    hide Full, Weak;
    assert Predicted(tr.targets, f) == [];
    assert [Cell(0, 0)][..0] == [];
    assert Pass(f, [], 1, [], false, 0) == [];
    assert Pass(f, [], 1, [], true, 1) == [];
    assert LastPass(cfg, f, 0, 1, 0, []) == [];
  }

  function Found(t: Target): Target { Localized(Aged(t), Look(false, 0.0)) }

  lemma SeenOne(cfg: Config, tr: Tracker, t: Target)
    requires tr.targets == [t] && t.state == Tentative
    ensures Matches(cfg, tr, Seen(cfg)) == [Match(0, 0)] && Predicted(tr.targets, Seen(cfg)) == [Found(t)]
  {
    var f := Seen(cfg);
    SeenOk(cfg);
    hide Full, Weak;
    var ts := Predicted(tr.targets, f);
    assert ts == [Found(t)] && Found(t).state == Tentative;
    hide Found;
    assert [Found(t)][..0] == [] && [Cell(0, 0)][..0] == [];
    assert Pass(f, ts, 1, [], false, 0) == [];
    OneTentative(f, ts);
    assert LastPass(cfg, f, 1, 1, 0, [Match(0, 0)]) == [];
    assert [] + [Match(0, 0)] == [Match(0, 0)] && [Match(0, 0)] + [] == [Match(0, 0)];
  }

  lemma OneTentative(f: Frame, ts: seq<Target>)
    requires |ts| == 1 && ts[0].state == Tentative && Pairs(f, 1) == [Cell(0, 0)]
    requires forall d: nat, i: nat, v: bool, l: bool :: f.score(d, i, v, l) == 0.0
    ensures Pass(f, ts, 1, [], true, 1) == [Match(0, 0)]
  {
    assert FreeDets(1, []) == [] + [0];
    assert ts[..0] == [] && [Cell(0, 0)][..0] == [];
    assert Group(ts, true) == [0];
    assert Taken([], [0], [0], GoodScore(f, ts)) == [];
  }

  lemma FirstMeasured(cfg: Config)
    ensures var (tr, a) := (NewTracker(cfg), AfterMeasurement(cfg, NewTracker(cfg), Seen(cfg)));
            a.targets == [] && a.free == tr.free && a.nextId == 1
  {
    SeenNobody(cfg, NewTracker(cfg));
    hide Matches, Predicted, BridgeOuts, Seen;
  }

  lemma FirstCreated(cfg: Config, a: Tracker)
    requires cfg.maxTargets >= 1 && a.targets == [] && a.free == NewTracker(cfg).free && a.nextId == 1
    ensures Created(Seen(cfg), a, [], 1).targets == [NewTarget(1, 0)]
  {
    assert !HasDet([], 0);
    assert a.free[0] == 0;
  }

  lemma FirstReaped(cfg: Config, c: Tracker)
    requires c.targets == [NewTarget(1, 0)] && cfg.earlyTerminationAge >= 1
    ensures Reaped(cfg, c, 1).targets == c.targets
  {
    assert !Dead(cfg, NewTarget(1, 0));
  }

  lemma TaughtOne(d: Tracker, f: Frame, n: Target)
    requires d.targets == [n] && f.visual
    ensures Taught(d, f).targets == [Learned(n)]
  {
    hide Learned;
  }

  lemma UpdateIs(cfg: Config, tr: Tracker, f: Frame)
    ensures Update(cfg, tr, f).tracker ==
            var c := Created(f, AfterMeasurement(cfg, tr, f), Matches(cfg, tr, f), |Full(cfg, f)|);
            Taught(Reaped(cfg, c, |c.targets|), f)
  {
    hide Taught, Reaped, Created, AfterMeasurement, Outs, Matches, Full;
  }

  lemma SeenVisual(cfg: Config)
    ensures Seen(cfg).visual
  {
  }

  /** The first frame brings the target. */
  lemma FirstFrame(cfg: Config) returns (t: Target)
    requires CanTrack(cfg)
    ensures Update(cfg, NewTracker(cfg), Seen(cfg)).tracker.targets == [t] && Young(t, 1)
  {
    t := Learned(NewTarget(1, 0));
    assert Young(t, 1) && cfg.maxTargets >= 1 && cfg.earlyTerminationAge >= 1;
    assert NewTracker(cfg).targets == [];
    hide *;
    var f, tr := Seen(cfg), NewTracker(cfg);
    SeenOk(cfg);
    SeenVisual(cfg);
    SeenNobody(cfg, tr);
    FirstMeasured(cfg);
    var a := AfterMeasurement(cfg, tr, f);
    FirstCreated(cfg, a);
    var c := Created(f, a, [], 1);
    FirstReaped(cfg, c);
    TaughtOne(Reaped(cfg, c, 1), f, NewTarget(1, 0));
    UpdateIs(cfg, tr, f);
  }

  /** A target found again, one frame older. */
  function Older(cfg: Config, t: Target): Target { Matched(cfg, Found(t)) }

  lemma OlderIs(cfg: Config, t: Target, age: nat)
    requires CanTrack(cfg) && Young(t, age)
    ensures !Dead(cfg, Older(cfg, t))
    ensures if age + 1 > cfg.probationAge then Fresh(Learned(Older(cfg, t))) else Young(Learned(Older(cfg, t)), age + 1)
  {
  }

  lemma NobodyNew(cfg: Config, a: Tracker)
    ensures Created(Seen(cfg), a, [Match(0, 0)], 1) == a
  {
    assert [Match(0, 0)][0].det == 0 && HasDet([Match(0, 0)], 0);
  }

  lemma NobodyGone(cfg: Config, a: Tracker, n: Target)
    requires a.targets == [n] && !Dead(cfg, n)
    ensures Reaped(cfg, a, 1).targets == [n]
  {
    hide Dead;
  }

  lemma YoungIsTentative(t: Target, age: nat)
    requires Young(t, age)
    ensures t.state == Tentative
  {
  }

  /** A later frame finds it again, one frame older. */
  lemma NextFrame(cfg: Config, tr: Tracker, t: Target, age: nat) returns (t': Target)
    requires CanTrack(cfg) && tr.targets == [t] && Young(t, age)
    ensures Update(cfg, tr, Seen(cfg)).tracker.targets == [t']
    ensures if age + 1 > cfg.probationAge then Fresh(t') else Young(t', age + 1)
  {
    hide *;
    var f, n := Seen(cfg), Older(cfg, t);
    SeenOk(cfg);
    SeenVisual(cfg);
    YoungIsTentative(t, age);
    SeenOne(cfg, tr, t);
    OlderIs(cfg, t, age);
    MeasuredOne(cfg, tr, f, t);
    var a := AfterMeasurement(cfg, tr, f);
    NobodyNew(cfg, a);
    NobodyGone(cfg, a, n);
    TaughtOne(Reaped(cfg, a, 1), f, n);
    UpdateIs(cfg, tr, f);
    t' := Learned(n);
  }

  lemma MeasuredOne(cfg: Config, tr: Tracker, f: Frame, t: Target)
    requires Predicted(tr.targets, f) == [Found(t)] && Matches(cfg, tr, f) == [Match(0, 0)]
    ensures AfterMeasurement(cfg, tr, f).targets == [Older(cfg, t)]
  {
    assert [Match(0, 0)][0].target == 0 && HasTarget([Match(0, 0)], 0);
    hide Matched, Found, Matches, Predicted, BridgeOuts;
    assert Measured(cfg, [Found(t)], [Match(0, 0)]) == [Older(cfg, t)];
  }

  /** The frames that pass before it is confirmed. */
  function Probation(cfg: Config): nat { if cfg.probationAge >= 1 then cfg.probationAge + 1 else 2 }

  lemma {:induction false} GrowsUp(cfg: Config, k: nat) returns (trs: seq<Tracker>, fs: seq<Frame>, t: Target)
    requires CanTrack(cfg) && 1 <= k <= Probation(cfg)
    ensures Run(cfg, trs, fs) && |fs| == k && |trs| == k + 1 && trs[k].targets == [t]
    ensures if k == Probation(cfg) then Fresh(t) else Young(t, k)
  {
    hide Update, NewTracker, SolverOk, Seen;
    SeenOk(cfg);
    if k == 1 {
      t := FirstFrame(cfg);
      trs, fs := [NewTracker(cfg), Update(cfg, NewTracker(cfg), Seen(cfg)).tracker], [Seen(cfg)];
    } else {
      var trs0, fs0, t0 := GrowsUp(cfg, k - 1);
      t := NextFrame(cfg, trs0[k - 1], t0, k - 1);
      trs, fs := trs0 + [Update(cfg, trs0[k - 1], Seen(cfg)).tracker], fs0 + [Seen(cfg)];
      hide Full, Weak;
      assert trs[..k] == trs0 && fs[..k - 1] == fs0;
      forall x | 0 <= x < |fs| ensures SolverOk(fs[x]) && trs[x + 1] == Update(cfg, trs[x], fs[x]).tracker {
        if x < k - 1 {
          assert fs[x] == fs0[x] && trs[x] == trs0[x] && trs[x + 1] == trs0[x + 1];
        }
      }
    }
  }

  /** Frame `f` takes tracker `a` to `b`. */
  ghost predicate Steps(cfg: Config, a: Tracker, f: Frame, b: Tracker) {
    SolverOk(f) && b == Update(cfg, a, f).tracker
  }

  lemma RunOn(cfg: Config, trs0: seq<Tracker>, fs0: seq<Frame>, trs1: seq<Tracker>, fs1: seq<Frame>)
    requires Run(cfg, trs0, fs0) && |trs1| == |fs1| + 1 && trs1[0] == trs0[|fs0|]
    requires forall k :: 0 <= k < |fs1| ==> Steps(cfg, trs1[k], fs1[k], trs1[k + 1])
    ensures Run(cfg, trs0 + trs1[1..], fs0 + fs1) && |trs0| == |fs0| + 1
    ensures forall k :: 0 <= k < |trs1| ==> (trs0 + trs1[1..])[|fs0| + k] == trs1[k]
  {
    hide SolverOk, Update, NewTracker;
    var trs, fs := trs0 + trs1[1..], fs0 + fs1;
    forall k | 0 <= k < |fs| ensures SolverOk(fs[k]) && trs[k + 1] == Update(cfg, trs[k], fs[k]).tracker {
      if k >= |fs0| {
        assert Steps(cfg, trs1[k - |fs0|], fs1[k - |fs0|], trs1[k - |fs0| + 1]);
      }
    }
  }

  /** In a run of a new tracker a target is found until it is confirmed and then never
      again, and lasts all but the last of (V + 1)(M + 1) frames. */
  lemma BoundIsReachedByRun(cfg: Config) returns (trs: seq<Tracker>, fs: seq<Frame>, j: nat)
    requires CanTrack(cfg)
    ensures Run(cfg, trs, fs) && |trs| == |fs| + 1 && j == Probation(cfg)
    ensures |fs| == j + (cfg.maxVisualOnlyAge + 1) * (cfg.maxShadowAge + 1) - 1 >= j
    ensures exists t :: t in trs[j].targets && Fresh(t)
    ensures forall k :: j <= k < |fs| ==> Unmatched(cfg, trs[k], fs[k], 1)
    ensures Live(trs[|fs|], 1)
  {
    hide *;
    j := Probation(cfg);
    ProbationLasts(cfg);
    var trs0, fs0, t := GrowsUp(cfg, j);
    RunKeepsInv(cfg, trs0, fs0, j);
    FreshIs(t);
    var trs1, fs1 := BoundIsReached(cfg, trs0[j], t);
    forall k | 0 <= k < |fs1| ensures Steps(cfg, trs1[k], fs1[k], trs1[k + 1]) {
      MakesStep(cfg, trs1[k], fs1[k], trs1[k + 1]);
    }
    trs, fs := trs0 + trs1[1..], fs0 + fs1;
    RunOn(cfg, trs0, fs0, trs1, fs1);
    assert trs[j] == trs1[0] && t in trs[j].targets;
    forall k | j <= k < |fs| ensures Unmatched(cfg, trs[k], fs[k], 1) {
      assert fs[k] == fs1[k - j] && trs[j + (k - j)] == trs1[k - j];
    }
    assert trs[j + |fs1|] == trs1[|fs1|];
  }

  lemma ProbationLasts(cfg: Config)
    ensures Probation(cfg) >= 1
  {
  }

  lemma FreshIs(t: Target)
    requires Fresh(t)
    ensures t.id == 1 && t.state == Active && t.shadowAge == 0 && t.visualOnlyAge == 0 && !t.needsInit
  {
  }

  lemma MakesStep(cfg: Config, a: Tracker, f: Frame, b: Tracker)
    requires SolverOk(f) && b == Update(cfg, a, f).tracker
    ensures Steps(cfg, a, f, b)
  {
    hide SolverOk, Update;
  }
}
