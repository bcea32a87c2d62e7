/** Whole runs of the tracker: who descends from whom, ids that never come back, and
    how long a target can live that no detection matches any more. */
module NvDcfLife {
  import opened NvDcf
  import opened NvDcfSafety
  import opened NvDcfFrames

  /** The same target, but for its filter having been learned. */
  ghost predicate SameButTaught(t: Target, t': Target) {
    t' == t.(needsInit := t'.needsInit) && (t'.needsInit ==> t.needsInit)
  }

  /** `t'` is target `i` one frame later. */
  ghost predicate Continues(cfg: Config, tr: Tracker, f: Frame, i: nat, t': Target) {
    && i < |tr.targets| && tr.targets[i].id == t'.id
    && SameButTaught(AfterMeasurement(cfg, tr, f).targets[i], t')
  }

  lemma TaughtFrom(tr: Tracker, f: Frame, t': Target)
    requires t' in Taught(tr, f).targets
    ensures exists t :: t in tr.targets && SameButTaught(t, t')
  {
    var ts := Taught(tr, f).targets;
    var k :| 0 <= k < |ts| && ts[k] == t';
    assert tr.targets[k] in tr.targets;
    assert SameButTaught(tr.targets[k], t');
  }

  lemma TaughtStill(tr: Tracker, f: Frame, t: Target)
    requires t in tr.targets
    ensures exists t' :: t' in Taught(tr, f).targets && SameButTaught(t, t')
  {
    var k :| 0 <= k < |tr.targets| && tr.targets[k] == t;
    var t' := Taught(tr, f).targets[k];
    assert t' in Taught(tr, f).targets && SameButTaught(t, t');
  }

  /** A target after a frame is new, under an id not given out before, or continues one
      that was there. */
  lemma Descends(cfg: Config, tr: Tracker, f: Frame, t': Target)
    requires Inv(cfg, tr) && t' in Update(cfg, tr, f).tracker.targets
    ensures if t'.id >= tr.nextId then t'.state == Tentative && t'.age == 1
            else exists i: nat :: Continues(cfg, tr, f, i, t')
  {
    hide AfterMeasurement, Taught, Sound, Dead, IdsRising, SlotsMoved, OneFrameOn, Full, Outs, Created, Reaped;
    var a, c, d := AfterMeasurement(cfg, tr, f), AfterCreation(cfg, tr, f), AfterTermination(cfg, tr, f);
    MeasurementSound(cfg, tr, f);
    CreatedSound(cfg, f, a, Matches(cfg, tr, f), |Full(cfg, f)|);
    ReapedInv(cfg, c);
    TaughtFrom(d, f, t');
    assert |tr.targets| == |a.targets| && a.nextId == tr.nextId && OnlyNew(a, c);
    hide AfterCreation, AfterTermination;
    var t :| t in d.targets && SameButTaught(t, t');
    assert c.targets[..|c.targets|] == c.targets;
    assert t in c.targets;
    var i: nat :| i < |c.targets| && c.targets[i] == t;
    if i < |a.targets| {
      assert a.targets[i] == t;
      SameId(cfg, tr, f, i);
      assert Continues(cfg, tr, f, i, t');
    } else {
      assert t == NewTarget(t.id, t.slot);
    }
  }

  lemma SameId(cfg: Config, tr: Tracker, f: Frame, i: nat)
    requires Inv(cfg, tr) && i < |tr.targets|
    ensures |AfterMeasurement(cfg, tr, f).targets| == |tr.targets|
    ensures AfterMeasurement(cfg, tr, f).targets[i].id == tr.targets[i].id < tr.nextId
    ensures OneFrameOn(cfg, tr.targets[i], AfterMeasurement(cfg, tr, f).targets[i])
  {
    MeasurementSound(cfg, tr, f);
    hide AfterMeasurement, SlotsShared, Owned, Counts, Seasoned;
  }

  /** A target is dropped exactly if it is due: the others are all still there. */
  lemma Remains(cfg: Config, tr: Tracker, f: Frame, i: nat)
    requires Inv(cfg, tr) && i < |tr.targets| && |AfterMeasurement(cfg, tr, f).targets| == |tr.targets|
    requires !Dead(cfg, AfterMeasurement(cfg, tr, f).targets[i])
    ensures exists t' :: t' in Update(cfg, tr, f).tracker.targets && Continues(cfg, tr, f, i, t')
  {
    var a, c, d := AfterMeasurement(cfg, tr, f), AfterCreation(cfg, tr, f), AfterTermination(cfg, tr, f);
    MeasurementSound(cfg, tr, f);
    CreatedSound(cfg, f, a, Matches(cfg, tr, f), |Full(cfg, f)|);
    ReapedInv(cfg, c);
    SameId(cfg, tr, f, i);
    assert OnlyNew(a, c);
    hide AfterMeasurement, AfterCreation, AfterTermination, Taught, Sound, Dead, IdsRising, SlotsMoved, OneFrameOn, Full, Outs;
    assert c.targets[..|c.targets|] == c.targets;
    assert c.targets[i] == a.targets[i];
    assert a.targets[i] in d.targets;
    TaughtStill(d, f, a.targets[i]);
    var t' :| t' in Taught(d, f).targets && SameButTaught(a.targets[i], t');
    assert Continues(cfg, tr, f, i, t');
  }

  // ---------------------------------------------------------------- runs

  ghost predicate Run(cfg: Config, trs: seq<Tracker>, fs: seq<Frame>) {
    && |trs| == |fs| + 1 && trs[0] == NewTracker(cfg)
    && (forall k :: 0 <= k < |fs| ==> SolverOk(fs[k]) && trs[k + 1] == Update(cfg, trs[k], fs[k]).tracker)
  }

  lemma {:induction false} RunKeepsInv(cfg: Config, trs: seq<Tracker>, fs: seq<Frame>, k: nat)
    requires Run(cfg, trs, fs) && k < |trs|
    ensures Inv(cfg, trs[k])
  {
    hide Update;
    if k == 0 {
      assert SlotsOf([]) == [];
      assert NewTracker(cfg).free == UpTo(cfg.maxTargets);
    } else {
      RunKeepsInv(cfg, trs, fs, k - 1);
      hide Inv;
      UpdateKeepsInv(cfg, trs[k - 1], fs[k - 1]);
    }
  }

  ghost predicate Live(tr: Tracker, id: nat) {
    exists i :: 0 <= i < |tr.targets| && tr.targets[i].id == id
  }

  lemma IdsGrow(cfg: Config, tr: Tracker, f: Frame)
    requires Inv(cfg, tr)
    ensures tr.nextId <= Update(cfg, tr, f).tracker.nextId
  {
    var a, c := AfterMeasurement(cfg, tr, f), AfterCreation(cfg, tr, f);
    MeasurementSound(cfg, tr, f);
    CreatedSound(cfg, f, a, Matches(cfg, tr, f), |Full(cfg, f)|);
    ReapedInv(cfg, c);
    hide AfterMeasurement, Created, Reaped, Sound, Dead, IdsRising, SlotsMoved, OneFrameOn, Full, Outs, Owners;
  }

  /** An id given out and gone stays gone. */
  lemma GoneStaysGone(cfg: Config, tr: Tracker, f: Frame, id: nat)
    requires Inv(cfg, tr) && id < tr.nextId && !Live(tr, id)
    ensures !Live(Update(cfg, tr, f).tracker, id)
  {
    hide Update, Inv, Live;
    if Live(Update(cfg, tr, f).tracker, id) {
      LiveBefore(cfg, tr, f, id);
    }
  }

  lemma LiveBefore(cfg: Config, tr: Tracker, f: Frame, id: nat)
    requires Inv(cfg, tr) && id < tr.nextId && Live(Update(cfg, tr, f).tracker, id)
    ensures Live(tr, id)
  {
    hide Update, Inv, AfterMeasurement;
    var tr' := Update(cfg, tr, f).tracker;
    var k :| 0 <= k < |tr'.targets| && tr'.targets[k].id == id;
    Descends(cfg, tr, f, tr'.targets[k]);
    var i: nat :| Continues(cfg, tr, f, i, tr'.targets[k]);
    assert tr.targets[i].id == id;
  }

  /** No id is used twice in a run: once its target is gone it names nothing and is
      shown by no frame again. */
  lemma {:induction false} IdsAreNeverReused(cfg: Config, trs: seq<Tracker>, fs: seq<Frame>, j: nat, k: nat, id: nat)
    requires Run(cfg, trs, fs) && j <= k < |trs| && id < trs[j].nextId && !Live(trs[j], id)
    ensures id < trs[k].nextId && !Live(trs[k], id)
    ensures k < |fs| ==> id !in OutIds(Update(cfg, trs[k], fs[k]).outs)
  {
    hide Inv, Update, Live, OutIds;
    RunKeepsInv(cfg, trs, fs, k);
    if k > j {
      RunKeepsInv(cfg, trs, fs, k - 1);
      IdsAreNeverReused(cfg, trs, fs, j, k - 1, id);
      IdsGrow(cfg, trs[k - 1], fs[k - 1]);
      GoneStaysGone(cfg, trs[k - 1], fs[k - 1], id);
    }
    if k < |fs| {
      GoneIsNotShown(cfg, trs[k], fs[k], id);
    }
  }

  lemma GoneIsNotShown(cfg: Config, tr: Tracker, f: Frame, id: nat)
    requires Inv(cfg, tr) && SolverOk(f) && !Live(tr, id)
    ensures id !in OutIds(Update(cfg, tr, f).outs)
  {
    hide Inv, Update, SolverOk, OutIds, Live;
    if id in OutIds(Update(cfg, tr, f).outs) {
      ShownIsLive(cfg, tr, f, id);
    }
  }

  lemma ShownIsLive(cfg: Config, tr: Tracker, f: Frame, id: nat)
    requires Inv(cfg, tr) && SolverOk(f) && id in OutIds(Update(cfg, tr, f).outs)
    ensures Live(tr, id)
  {
    hide Inv, Taught, Outs, AfterTermination, Matches, SolverOk, AfterMeasurement, OutIds, Distinct;
    ShownIdsAreSeasoned(cfg, tr, f);
    assert SeasonedOne(cfg, tr, f, id);
  }

  /** In every frame of every run each detection comes out once and no id twice, and
      an id is shown only for a target older than the probation. */
  lemma EveryFrameIsInOrder(cfg: Config, trs: seq<Tracker>, fs: seq<Frame>, k: nat)
    requires Run(cfg, trs, fs) && k < |fs|
    ensures var dets := Full(cfg, fs[k]) + Weak(cfg, fs[k]);
            var outs := Update(cfg, trs[k], fs[k]).outs;
            && multiset(OutDets(outs)) == multiset(dets) && Distinct(dets)
            && (forall d: nat :: d in dets <==> d < |fs[k].confidences| && fs[k].confidences[d] >= cfg.minDetectorConfidence)
            && Distinct(OutIds(outs))
            && (forall x :: x in OutIds(outs) ==> SeasonedOne(cfg, trs[k], fs[k], x))
  {
    RunKeepsInv(cfg, trs, fs, k);
    hide Inv, Taught, AfterTermination, Matches, Full, Weak, Distinct, SeasonedOne, OutDets, OutIds;
    EveryDetectionOnce(cfg, trs[k], fs[k]);
    ShownIdsAreSeasoned(cfg, trs[k], fs[k]);
    hide Outs;
  }

  /** In every run the slots are shared out exactly, and a filter answer is only
      listened to if the filter in that slot was learned for that very target. */
  lemma FiltersBelongToTheirTargets(cfg: Config, trs: seq<Tracker>, fs: seq<Frame>, k: nat, i: nat)
    requires Run(cfg, trs, fs) && k < |fs| && i < |trs[k].targets|
    ensures Distinct(SlotsOf(trs[k].targets)) && Distinct(trs[k].free)
    ensures forall s: nat :: s < cfg.maxTargets <==> s in SlotsOf(trs[k].targets) || s in trs[k].free
    ensures forall s: nat :: !(s in SlotsOf(trs[k].targets) && s in trs[k].free)
    ensures trs[k].created - trs[k].terminated == |trs[k].targets|
    ensures var t := Predicted(trs[k].targets, fs[k])[i];
            t.localized || t.Visual() ==> t.slot in trs[k].owners && trs[k].owners[t.slot] == t.id
  {
    RunKeepsInv(cfg, trs, fs, k);
    SlotsArePartition(cfg, trs[k]);
    ListensToOwn(trs[k].targets, trs[k].owners, fs[k], i);
    hide Predicted, Run, SlotsShared, IdsRising, Seasoned, Distinct, SlotsOf, Dead;
  }

  lemma ListensToOwn(targets: seq<Target>, owners: map<nat, nat>, f: Frame, i: nat)
    requires Owned(targets, owners) && i < |targets|
    ensures var t := Predicted(targets, f)[i];
            t.localized || t.Visual() ==> t.slot in owners && owners[t.slot] == t.id
  {
    var a := Aged(targets[i]);
    assert Predicted(targets, f)[i] == if f.visual then Localized(a, f.looks(i)) else a;
  }

  // ---------------------------------------------------------------- life without detections

  /** How many more frames a target can live unmatched. */
  function Budget(cfg: Config, t: Target): int {
    (cfg.maxVisualOnlyAge - t.visualOnlyAge) * (cfg.maxShadowAge + 1) + (cfg.maxShadowAge + 1 - t.shadowAge)
  }

  lemma BudgetBounds(cfg: Config, t: Target)
    requires t.visualOnlyAge <= cfg.maxVisualOnlyAge && t.shadowAge <= cfg.maxShadowAge
    ensures 1 <= Budget(cfg, t) <= (cfg.maxVisualOnlyAge + 1) * (cfg.maxShadowAge + 1)
  {
    var m, u := cfg.maxShadowAge + 1, cfg.maxVisualOnlyAge - t.visualOnlyAge;
    Product(u, m);
    Product(t.visualOnlyAge, m);
    assert (cfg.maxVisualOnlyAge + 1) * m == u * m + t.visualOnlyAge * m + m;
  }

  lemma Product(a: nat, b: nat)
    ensures a * b >= 0
  {
  }

  /** A missed frame costs at least one, bridged or not: bridging resets the shadow age
      but spends one of the bridges. */
  lemma MissCosts(cfg: Config, t: Target, f: Frame, i: nat)
    requires t.shadowAge <= cfg.maxShadowAge && t.visualOnlyAge <= cfg.maxVisualOnlyAge
    ensures var p := if f.visual then Localized(Aged(t), f.looks(i)) else Aged(t);
            Budget(cfg, Missed(cfg, p)) <= Budget(cfg, t) - 1
  {
    var m, u := cfg.maxShadowAge + 1, cfg.maxVisualOnlyAge - t.visualOnlyAge;
    assert (u - 1) * m == u * m - m;
  }

  /** Target `id` is not matched by the frame. */
  ghost predicate Unmatched(cfg: Config, tr: Tracker, f: Frame, id: nat) {
    forall i :: 0 <= i < |tr.targets| && tr.targets[i].id == id ==> !HasTarget(Matches(cfg, tr, f), i)
  }

  /** The target under an id. */
  ghost predicate Holds(tr: Tracker, id: nat, t: Target) {
    t in tr.targets && t.id == id
  }

  lemma UnmatchedStep(cfg: Config, tr: Tracker, f: Frame, id: nat, t': Target) returns (t: Target)
    requires Inv(cfg, tr) && SolverOk(f) && id < tr.nextId && Unmatched(cfg, tr, f, id)
    requires Holds(Update(cfg, tr, f).tracker, id, t')
    ensures Holds(tr, id, t) && Budget(cfg, t') <= Budget(cfg, t) - 1
  {
    hide Update, Inv, Matches, AfterMeasurement, HasTarget, Budget;
    Descends(cfg, tr, f, t');
    var i: nat :| Continues(cfg, tr, f, i, t');
    t := tr.targets[i];
    assert !HasTarget(Matches(cfg, tr, f), i);
    MissedAt(cfg, tr, f, i);
    YoungOne(cfg, tr, i);
    MissCosts(cfg, t, f, i);
    TaughtBudget(cfg, AfterMeasurement(cfg, tr, f).targets[i], t');
    hide Missed, Localized, Aged;
  }

  lemma YoungOne(cfg: Config, tr: Tracker, i: nat)
    requires Inv(cfg, tr) && i < |tr.targets|
    ensures tr.targets[i].shadowAge <= cfg.maxShadowAge && tr.targets[i].visualOnlyAge <= cfg.maxVisualOnlyAge
  {
    assert Seasoned(cfg, tr.targets[i]) && !Dead(cfg, tr.targets[i]);
  }

  lemma TaughtBudget(cfg: Config, t: Target, t': Target)
    requires SameButTaught(t, t')
    ensures Budget(cfg, t') == Budget(cfg, t)
  {
  }

  lemma MissedAt(cfg: Config, tr: Tracker, f: Frame, i: nat)
    requires i < |tr.targets| && !HasTarget(Matches(cfg, tr, f), i)
    ensures |AfterMeasurement(cfg, tr, f).targets| == |tr.targets|
    ensures var t := tr.targets[i];
            AfterMeasurement(cfg, tr, f).targets[i] ==
            Missed(cfg, if f.visual then Localized(Aged(t), f.looks(i)) else Aged(t))
  {
    hide Matches, HasTarget, Missed, Localized, Aged, BridgeOuts;
  }

  /** From frame `j` on unmatched for `k - j` frames. */
  ghost predicate Forsaken(cfg: Config, trs: seq<Tracker>, fs: seq<Frame>, j: nat, k: nat, id: nat) {
    k <= |fs| && |trs| == |fs| + 1 && forall h :: j <= h < k ==> Unmatched(cfg, trs[h], fs[h], id)
  }

  lemma {:induction false} ForsakenSpends(cfg: Config, trs: seq<Tracker>, fs: seq<Frame>, j: nat, k: nat, id: nat, t': Target)
    returns (t: Target)
    requires Run(cfg, trs, fs) && j <= k < |trs| && id < trs[j].nextId && Forsaken(cfg, trs, fs, j, k, id)
    requires Holds(trs[k], id, t')
    ensures Holds(trs[j], id, t) && Budget(cfg, t') <= Budget(cfg, t) - (k - j)
  {
    hide Inv, Update, Unmatched, Holds;
    t := t';
    if k > j {
      RunKeepsInv(cfg, trs, fs, k - 1);
      IdsStay(cfg, trs, fs, j, k - 1);
      var s := UnmatchedStep(cfg, trs[k - 1], fs[k - 1], id, t');
      t := ForsakenSpends(cfg, trs, fs, j, k - 1, id, s);
    }
  }

  lemma {:induction false} IdsStay(cfg: Config, trs: seq<Tracker>, fs: seq<Frame>, j: nat, k: nat)
    requires Run(cfg, trs, fs) && j <= k < |trs|
    ensures trs[j].nextId <= trs[k].nextId
  {
    hide Inv, Update;
    if k > j {
      IdsStay(cfg, trs, fs, j, k - 1);
      RunKeepsInv(cfg, trs, fs, k - 1);
      IdsGrow(cfg, trs[k - 1], fs[k - 1]);
    }
  }

  /** A target nobody detects any more is gone after (V + 1) (M + 1) frames, whatever its
      filter says, V and M being the greatest visual-only and shadow ages. */
  lemma UnmatchedTargetsDie(cfg: Config, trs: seq<Tracker>, fs: seq<Frame>, j: nat, k: nat, id: nat)
    requires Run(cfg, trs, fs) && j <= k < |trs| && id < trs[j].nextId && Forsaken(cfg, trs, fs, j, k, id)
    requires k - j >= (cfg.maxVisualOnlyAge + 1) * (cfg.maxShadowAge + 1)
    ensures !Live(trs[k], id)
  {
    if Live(trs[k], id) {
      var i :| 0 <= i < |trs[k].targets| && trs[k].targets[i].id == id;
      var t' := trs[k].targets[i];
      RunKeepsInv(cfg, trs, fs, k);
      RunKeepsInv(cfg, trs, fs, j);
      var t := ForsakenSpends(cfg, trs, fs, j, k, id, t');
      HeldBudget(cfg, trs[j], t);
      HeldBudget(cfg, trs[k], t');
      assert false;
    }
  }

  lemma HeldBudget(cfg: Config, tr: Tracker, t: Target)
    requires Inv(cfg, tr) && t in tr.targets
    ensures 1 <= Budget(cfg, t) <= (cfg.maxVisualOnlyAge + 1) * (cfg.maxShadowAge + 1)
  {
    var i :| 0 <= i < |tr.targets| && tr.targets[i] == t;
    assert Seasoned(cfg, tr.targets[i]) && !Dead(cfg, tr.targets[i]);
    hide Budget, Sound;
    BudgetBounds(cfg, t);
  }

  /** A confirmed target never turns tentative again. */
  lemma {:induction false} ConfirmedStaysConfirmed(cfg: Config, trs: seq<Tracker>, fs: seq<Frame>, j: nat, k: nat, t: Target, t': Target)
    requires Run(cfg, trs, fs) && j <= k < |trs| && Holds(trs[j], t.id, t) && Holds(trs[k], t.id, t')
    requires t.state != Tentative
    ensures t'.state != Tentative && t'.age == t.age + (k - j) && t'.slot == t.slot
  {
    hide Inv, Update, IdsRising;
    RunKeepsInv(cfg, trs, fs, j);
    RunKeepsInv(cfg, trs, fs, k);
    if j == k {
      SameTarget(cfg, trs[k], t, t');
    } else {
      HeldId(cfg, trs[j], t);
      IdsStay(cfg, trs, fs, j, k - 1);
      RunKeepsInv(cfg, trs, fs, k - 1);
      var s := Ancestor(cfg, trs[k - 1], fs[k - 1], t');
      ConfirmedStaysConfirmed(cfg, trs, fs, j, k - 1, t, s);
    }
  }

  lemma SameTarget(cfg: Config, tr: Tracker, t: Target, t': Target)
    requires Inv(cfg, tr) && t in tr.targets && t' in tr.targets && t.id == t'.id
    ensures t == t'
  {
    hide Seasoned, Dead, Owned, SlotsShared;
    var i :| 0 <= i < |tr.targets| && tr.targets[i] == t;
    var j :| 0 <= j < |tr.targets| && tr.targets[j] == t';
  }

  lemma HeldId(cfg: Config, tr: Tracker, t: Target)
    requires Inv(cfg, tr) && t in tr.targets
    ensures t.id < tr.nextId
  {
    hide Seasoned, Dead, Owned, SlotsShared;
  }

  /** What a target was one frame before. */
  lemma Ancestor(cfg: Config, tr: Tracker, f: Frame, t': Target) returns (t: Target)
    requires Inv(cfg, tr) && t' in Update(cfg, tr, f).tracker.targets && t'.id < tr.nextId
    ensures Holds(tr, t'.id, t) && t'.age == t.age + 1 && t'.slot == t.slot
    ensures t.state != Tentative ==> t'.state != Tentative
  {
    hide Update, Inv, AfterMeasurement, Seasoned;
    Descends(cfg, tr, f, t');
    var i: nat :| Continues(cfg, tr, f, i, t');
    t := tr.targets[i];
    SameId(cfg, tr, f, i);
  }

  // ---------------------------------------------------------------- the bound is reached

  /** An image without detections; the filters are believed or not. */
  function Quiet(cfg: Config, jump: bool): Frame {
    Frame([], true, (i: nat) => Look(jump, cfg.minTrackerConfidence), (d: nat, i: nat, v: bool, l: bool) => 0.0,
          (d: nat, i: nat) => 0.0, [], (d: nat, n: nat) => false)
  }

  lemma QuietMatchesNothing(cfg: Config, tr: Tracker, jump: bool)
    ensures Matches(cfg, tr, Quiet(cfg, jump)) == [] && SolverOk(Quiet(cfg, jump))
  {
    var f := Quiet(cfg, jump);
    assert Pairs(f, 0) == [] && Pairs(f, 1) == [] && Pairs(f, 2) == [];
    hide GoodScore, GoodOverlap, Group, FreeDets, FreeTargets, Predicted;
  }

  /** One frame that takes exactly one from the budget. */
  lemma SpendOne(cfg: Config, t: Target)
    requires t.state != Tentative && !t.needsInit && Budget(cfg, t) > 1
    requires t.visualOnlyAge <= cfg.maxVisualOnlyAge && t.shadowAge <= cfg.maxShadowAge
    ensures var jump := t.shadowAge < cfg.maxShadowAge;
            var t' := Missed(cfg, Localized(Aged(t), Look(jump, cfg.minTrackerConfidence)));
            && t'.state != Tentative && !t'.needsInit && !Dead(cfg, t') && Budget(cfg, t') == Budget(cfg, t) - 1
  {
    var m, u := cfg.maxShadowAge + 1, cfg.maxVisualOnlyAge - t.visualOnlyAge;
    assert (u - 1) * m == u * m - m;
    if u == 0 {
      assert u * m == 0;
    }
  }

  lemma QuietFrame(cfg: Config, tr: Tracker, id: nat, t: Target) returns (f: Frame, t': Target)
    requires Inv(cfg, tr) && Holds(tr, id, t) && t.state != Tentative && !t.needsInit && Budget(cfg, t) > 1
    ensures SolverOk(f) && Unmatched(cfg, tr, f, id)
    ensures Holds(Update(cfg, tr, f).tracker, id, t')
    ensures t'.state != Tentative && !t'.needsInit && Budget(cfg, t') == Budget(cfg, t) - 1
  {
    var jump := t.shadowAge < cfg.maxShadowAge;
    f := Quiet(cfg, jump);
    QuietMatchesNothing(cfg, tr, jump);
    assert f.visual && f.looks == Quiet(cfg, jump).looks;
    var i: nat :| i < |tr.targets| && tr.targets[i] == t;
    assert f.looks(i) == Look(jump, cfg.minTrackerConfidence);
    YoungOne(cfg, tr, i);
    SpendOne(cfg, t);
    assert !HasTarget([], i);
    hide Quiet, Matches, AfterMeasurement, Update, Inv, Budget, Missed, Localized, Aged;
    MissedAt(cfg, tr, f, i);
    Remains(cfg, tr, f, i);
    t' :| t' in Update(cfg, tr, f).tracker.targets && Continues(cfg, tr, f, i, t');
    TaughtBudget(cfg, AfterMeasurement(cfg, tr, f).targets[i], t');
  }

  /** While there is budget left a target can be kept alive without any detection. */
  lemma {:induction false} LifeCanLast(cfg: Config, tr: Tracker, id: nat, t: Target, n: nat)
    returns (trs: seq<Tracker>, fs: seq<Frame>)
    requires Inv(cfg, tr) && Holds(tr, id, t) && t.state != Tentative && !t.needsInit && Budget(cfg, t) > n
    ensures |fs| == n && |trs| == n + 1 && trs[0] == tr
    ensures forall k :: 0 <= k < n ==>
              SolverOk(fs[k]) && trs[k + 1] == Update(cfg, trs[k], fs[k]).tracker && Unmatched(cfg, trs[k], fs[k], id)
    ensures Live(trs[n], id)
    decreases n
  {
    hide Inv, Update, Unmatched, Budget, SolverOk;
    if n == 0 {
      trs, fs := [tr], [];
      var i: nat :| i < |tr.targets| && tr.targets[i] == t;
      assert tr.targets[i].id == id;
    } else {
      hide Live;
      var f, t' := QuietFrame(cfg, tr, id, t);
      UpdateKeepsInv(cfg, tr, f);
      var next := Update(cfg, tr, f).tracker;
      var trs', fs' := LifeCanLast(cfg, next, id, t', n - 1);
      trs, fs := [tr] + trs', [f] + fs';
      forall k | 0 <= k < n
        ensures SolverOk(fs[k]) && trs[k + 1] == Update(cfg, trs[k], fs[k]).tracker && Unmatched(cfg, trs[k], fs[k], id)
      {
        if k > 0 {
          assert fs[k] == fs'[k - 1] && trs[k] == trs'[k - 1] && trs[k + 1] == trs'[k];
        }
      }
    }
  }

  /** The bound on an unmatched life cannot be lowered: a confirmed target just matched,
      its filter learned, can last all but the last of those frames. */
  lemma BoundIsReached(cfg: Config, tr: Tracker, t: Target) returns (trs: seq<Tracker>, fs: seq<Frame>)
    requires Inv(cfg, tr) && t in tr.targets && t.state != Tentative && !t.needsInit
    requires t.shadowAge == 0 && t.visualOnlyAge == 0
    ensures |fs| == (cfg.maxVisualOnlyAge + 1) * (cfg.maxShadowAge + 1) - 1 && |trs| == |fs| + 1 && trs[0] == tr
    ensures forall k :: 0 <= k < |fs| ==>
              SolverOk(fs[k]) && trs[k + 1] == Update(cfg, trs[k], fs[k]).tracker && Unmatched(cfg, trs[k], fs[k], t.id)
    ensures Live(trs[|fs|], t.id)
  {
    HeldBudget(cfg, tr, t);
    assert Budget(cfg, t) == (cfg.maxVisualOnlyAge + 1) * (cfg.maxShadowAge + 1);
    hide Inv, Update, Unmatched, Budget, SolverOk, Live;
    trs, fs := LifeCanLast(cfg, tr, t.id, t, (cfg.maxVisualOnlyAge + 1) * (cfg.maxShadowAge + 1) - 1);
  }
}
