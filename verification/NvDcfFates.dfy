/** What one frame does to every target, and how long a tentative one lives. All of it in
    terms of the target before, the frame and the configuration. */
module NvDcfFates {
  import opened Shared
  import opened Greedy
  import opened NvDcf
  import opened NvDcfSafety
  import opened NvDcfFrames
  import opened NvDcfLife

  // ---------------------------------------------------------------- one target, one frame

  predicate IsMatched(cfg: Config, tr: Tracker, f: Frame, i: nat) { HasTarget(Matches(cfg, tr, f), i) }

  /** The filter of the target found it this frame. */
  predicate FilterFound(t: Target, f: Frame, i: nat) { f.visual && !t.needsInit && !f.looks(i).jump }

  /** No detection, but its filter carries it on. */
  predicate CarriedOn(cfg: Config, tr: Tracker, f: Frame, i: nat)
    requires i < |tr.targets|
  {
    var t := tr.targets[i];
    && !IsMatched(cfg, tr, f, i) && FilterFound(t, f, i) && f.looks(i).conf >= cfg.minTrackerConfidence
    && t.visualOnlyAge < cfg.maxVisualOnlyAge && t.state != Tentative
  }

  /** For how many frames in a row it is then not seen at all. */
  function UnseenFor(cfg: Config, tr: Tracker, f: Frame, i: nat): nat
    requires i < |tr.targets|
  {
    if IsMatched(cfg, tr, f, i) || CarriedOn(cfg, tr, f, i) then 0 else tr.targets[i].shadowAge + 1
  }

  /** It is still on probation. */
  predicate OnProbation(cfg: Config, tr: Tracker, f: Frame, i: nat)
    requires i < |tr.targets|
  {
    var t := tr.targets[i];
    t.state == Tentative && !(IsMatched(cfg, tr, f, i) && t.age + 1 > cfg.probationAge)
  }

  /** A target goes if it was unseen for too long, and on probation sooner. */
  predicate Gives(cfg: Config, tr: Tracker, f: Frame, i: nat)
    requires i < |tr.targets|
  {
    || UnseenFor(cfg, tr, f, i) > cfg.maxShadowAge
    || (OnProbation(cfg, tr, f, i) && UnseenFor(cfg, tr, f, i) >= cfg.earlyTerminationAge)
  }

  /** The target after the frame. */
  function Later(cfg: Config, tr: Tracker, f: Frame, i: nat): Target
    requires i < |tr.targets|
  {
    var t := tr.targets[i];
    var matched, carried := IsMatched(cfg, tr, f, i), CarriedOn(cfg, tr, f, i);
    Target(
      t.id, t.slot, t.age + 1, t.hits + (if matched then 1 else 0), UnseenFor(cfg, tr, f, i),
      if matched then 0 else if carried then t.visualOnlyAge + 1 else t.visualOnlyAge,
      if OnProbation(cfg, tr, f, i) then Tentative else if matched || carried then Active else Shadow,
      if f.visual && !t.needsInit then (if f.looks(i).jump then 0.0 else f.looks(i).conf) else t.conf,
      f.visual, FilterFound(t, f, i), t.needsInit && !f.visual)
  }

  function Foreseen(t: Target, f: Frame, i: nat): Target {
    if f.visual then Localized(Aged(t), f.looks(i)) else Aged(t)
  }

  lemma MeasuredOne(cfg: Config, tr: Tracker, f: Frame, i: nat)
    requires i < |tr.targets|
    ensures |AfterMeasurement(cfg, tr, f).targets| == |tr.targets|
    ensures var p := Foreseen(tr.targets[i], f, i);
            AfterMeasurement(cfg, tr, f).targets[i] == if IsMatched(cfg, tr, f, i) then Matched(cfg, p) else Missed(cfg, p)
  {
    hide HasTarget, Matched, Missed, Localized, Aged, BridgeOuts, Associated;
  }

  lemma MatchedIs(cfg: Config, tr: Tracker, f: Frame, i: nat)
    requires i < |tr.targets| && IsMatched(cfg, tr, f, i)
    ensures Matched(cfg, Foreseen(tr.targets[i], f, i)) == Later(cfg, tr, f, i).(needsInit := tr.targets[i].needsInit)
  {
    hide IsMatched;
  }

  lemma MissedIs(cfg: Config, tr: Tracker, f: Frame, i: nat)
    requires i < |tr.targets| && !IsMatched(cfg, tr, f, i)
    ensures Missed(cfg, Foreseen(tr.targets[i], f, i)) == Later(cfg, tr, f, i).(needsInit := tr.targets[i].needsInit)
  {
    hide IsMatched;
  }

  lemma DeathIs(cfg: Config, tr: Tracker, f: Frame, i: nat, b: bool)
    requires i < |tr.targets|
    ensures Dead(cfg, Later(cfg, tr, f, i).(needsInit := b)) <==> Gives(cfg, tr, f, i)
  {
    hide IsMatched, CarriedOn, OnProbation, FilterFound, UnseenFor;
  }

  lemma MeasuredIs(cfg: Config, tr: Tracker, f: Frame, i: nat)
    requires i < |tr.targets|
    ensures |AfterMeasurement(cfg, tr, f).targets| == |tr.targets|
    ensures AfterMeasurement(cfg, tr, f).targets[i] ==
            Later(cfg, tr, f, i).(needsInit := tr.targets[i].needsInit)
    ensures Dead(cfg, AfterMeasurement(cfg, tr, f).targets[i]) <==> Gives(cfg, tr, f, i)
  {
    hide *;
    MeasuredOne(cfg, tr, f, i);
    if IsMatched(cfg, tr, f, i) {
      MatchedIs(cfg, tr, f, i);
    } else {
      MissedIs(cfg, tr, f, i);
    }
    DeathIs(cfg, tr, f, i, tr.targets[i].needsInit);
  }

  lemma TaughtNeeds(tr: Tracker, f: Frame, t': Target)
    requires t' in Taught(tr, f).targets && f.visual
    ensures !t'.needsInit
  {
  }

  lemma TaughtSame(tr: Tracker, f: Frame, t': Target)
    requires t' in Taught(tr, f).targets && !f.visual
    ensures t' in tr.targets
  {
  }

  lemma UpdatedNeeds(cfg: Config, tr: Tracker, f: Frame, t': Target)
    requires t' in Update(cfg, tr, f).tracker.targets && f.visual
    ensures !t'.needsInit
  {
    hide Taught, AfterTermination, Outs, Matches;
    TaughtNeeds(AfterTermination(cfg, tr, f), f, t');
  }

  /** Without an image nothing is learned. */
  lemma UpdatedSame(cfg: Config, tr: Tracker, f: Frame, i: nat, t': Target)
    requires Inv(cfg, tr) && !f.visual && t' in Update(cfg, tr, f).tracker.targets && Continues(cfg, tr, f, i, t')
    ensures t'.needsInit == tr.targets[i].needsInit
  {
    var a, c, d := AfterMeasurement(cfg, tr, f), AfterCreation(cfg, tr, f), AfterTermination(cfg, tr, f);
    MeasurementSound(cfg, tr, f);
    CreatedSound(cfg, f, a, Matches(cfg, tr, f), |Full(cfg, f)|);
    ReapedInv(cfg, c);
    SameId(cfg, tr, f, i);
    assert OnlyNew(a, c) && t' in d.targets;
    hide AfterMeasurement, AfterCreation, AfterTermination, Taught, Sound, Dead, SlotsMoved, Full, Outs, Update;
    assert c.targets[..|c.targets|] == c.targets;
    assert t' in c.targets;
    var k: nat :| k < |c.targets| && c.targets[k] == t';
    assert c.targets[i] == a.targets[i];
    OneOfId(cfg, c, k, i);
  }

  lemma OneOfId(cfg: Config, c: Tracker, k: nat, i: nat)
    requires Sound(cfg, c) && k < |c.targets| && i < |c.targets| && c.targets[k].id == c.targets[i].id
    ensures k == i
  {
    hide SlotsShared, Owned, Counts, Seasoned;
  }

  /** A frame in full: a target is there afterwards exactly if it does not give up, and
      then it is the target that `Later` says. */
  lemma FrameDecides(cfg: Config, tr: Tracker, f: Frame, i: nat)
    requires Inv(cfg, tr) && i < |tr.targets|
    ensures var tr' := Update(cfg, tr, f).tracker;
            && (Live(tr', tr.targets[i].id) <==> !Gives(cfg, tr, f, i))
            && (!Gives(cfg, tr, f, i) ==> Later(cfg, tr, f, i) in tr'.targets)
  {
    MeasuredIs(cfg, tr, f, i);
    hide *;
    var id := tr.targets[i].id;
    if Gives(cfg, tr, f, i) {
      if Live(Update(cfg, tr, f).tracker, id) {
        GoneFor(cfg, tr, f, i);
      }
    } else {
      Remains(cfg, tr, f, i);
      var t' :| t' in Update(cfg, tr, f).tracker.targets && Continues(cfg, tr, f, i, t');
      ThereAs(cfg, tr, f, i, t');
      MakesLive(Update(cfg, tr, f).tracker, t');
    }
  }

  lemma MakesLive(tr: Tracker, t: Target)
    requires t in tr.targets
    ensures Live(tr, t.id)
  {
    var k: nat :| k < |tr.targets| && tr.targets[k] == t;
    assert tr.targets[k].id == t.id;
  }

  lemma ThereAs(cfg: Config, tr: Tracker, f: Frame, i: nat, t': Target)
    requires Inv(cfg, tr) && i < |tr.targets| && t' in Update(cfg, tr, f).tracker.targets && Continues(cfg, tr, f, i, t')
    ensures t' == Later(cfg, tr, f, i) && t'.id == tr.targets[i].id
  {
    MeasuredIs(cfg, tr, f, i);
    if f.visual {
      UpdatedNeeds(cfg, tr, f, t');
    } else {
      UpdatedSame(cfg, tr, f, i, t');
    }
    assert SameButTaught(AfterMeasurement(cfg, tr, f).targets[i], t');
    LaterNeeds(cfg, tr, f, i);
    hide Update, Inv, AfterMeasurement, Later, Gives, Dead;
  }

  lemma LaterNeeds(cfg: Config, tr: Tracker, f: Frame, i: nat)
    requires i < |tr.targets|
    ensures Later(cfg, tr, f, i).needsInit == (tr.targets[i].needsInit && !f.visual)
  {
    hide IsMatched, CarriedOn, UnseenFor, OnProbation, FilterFound;
  }

  lemma GoneFor(cfg: Config, tr: Tracker, f: Frame, i: nat)
    requires Inv(cfg, tr) && i < |tr.targets| && Gives(cfg, tr, f, i)
    ensures !Live(Update(cfg, tr, f).tracker, tr.targets[i].id)
  {
    MeasuredIs(cfg, tr, f, i);
    UpdateKeepsInv(cfg, tr, f);
    IdsBelow(cfg, tr, i);
    hide Update, AfterMeasurement, Gives, Dead, Sound, Later;
    var tr' := Update(cfg, tr, f).tracker;
    if k :| 0 <= k < |tr'.targets| && tr'.targets[k].id == tr.targets[i].id {
      var t' := tr'.targets[k];
      Descends(cfg, tr, f, t');
      var j: nat :| Continues(cfg, tr, f, j, t');
      OneOfId(cfg, tr, j, i);
      SameDeath(cfg, AfterMeasurement(cfg, tr, f).targets[i], t');
      assert false;
    }
  }

  lemma SameDeath(cfg: Config, t: Target, t': Target)
    requires SameButTaught(t, t')
    ensures Dead(cfg, t') == Dead(cfg, t)
  {
  }

  lemma IdsBelow(cfg: Config, tr: Tracker, i: nat)
    requires Inv(cfg, tr) && i < |tr.targets|
    ensures tr.targets[i].id < tr.nextId && Sound(cfg, tr)
  {
    hide SlotsShared, Owned, Counts, Seasoned, Dead;
  }

  // ---------------------------------------------------------------- life on probation

  /** A tentative target, unseen for `s` frames. */
  ghost predicate Hopeful(tr: Tracker, id: nat, s: nat) {
    exists i :: 0 <= i < |tr.targets| && tr.targets[i].id == id && tr.targets[i].state == Tentative && tr.targets[i].shadowAge == s
  }

  lemma HopefulStep(cfg: Config, tr: Tracker, f: Frame, id: nat, s: nat)
    requires Inv(cfg, tr) && Hopeful(tr, id, s) && Unmatched(cfg, tr, f, id)
    ensures var tr' := Update(cfg, tr, f).tracker;
            if s + 1 < cfg.earlyTerminationAge && s + 1 <= cfg.maxShadowAge then Hopeful(tr', id, s + 1) else !Live(tr', id)
  {
    hide Update, Inv, Matches, HasTarget;
    var i: nat :| i < |tr.targets| && tr.targets[i].id == id && tr.targets[i].state == Tentative && tr.targets[i].shadowAge == s;
    FrameDecides(cfg, tr, f, i);
    assert !IsMatched(cfg, tr, f, i);
    assert UnseenFor(cfg, tr, f, i) == s + 1 && OnProbation(cfg, tr, f, i);
    if !Gives(cfg, tr, f, i) {
      var tr' := Update(cfg, tr, f).tracker;
      var k: nat :| k < |tr'.targets| && tr'.targets[k] == Later(cfg, tr, f, i);
      assert tr'.targets[k].id == id && tr'.targets[k].state == Tentative && tr'.targets[k].shadowAge == s + 1;
    }
  }

  lemma {:induction false} HopeLasts(cfg: Config, trs: seq<Tracker>, fs: seq<Frame>, j: nat, k: nat, id: nat, s: nat)
    requires Run(cfg, trs, fs) && j <= k && Forsaken(cfg, trs, fs, j, k, id) && Hopeful(trs[j], id, s)
    requires s < cfg.earlyTerminationAge && s <= cfg.maxShadowAge
    ensures Live(trs[k], id) <==> s + (k - j) < cfg.earlyTerminationAge && s + (k - j) <= cfg.maxShadowAge
    ensures Live(trs[k], id) ==> Hopeful(trs[k], id, s + (k - j))
  {
    hide Update, Inv, Unmatched, SolverOk, NewTracker;
    if k == j {
      HopefulIsLive(trs[j], id, s);
    } else {
      HopeLasts(cfg, trs, fs, j, k - 1, id, s);
      RunKeepsInv(cfg, trs, fs, j);
      RunKeepsInv(cfg, trs, fs, k - 1);
      hide Hopeful, Live;
      if Live(trs[k - 1], id) {
        HopefulStep(cfg, trs[k - 1], fs[k - 1], id, s + (k - 1 - j));
        if s + (k - j) < cfg.earlyTerminationAge && s + (k - j) <= cfg.maxShadowAge {
          HopefulIsLive(trs[k], id, s + (k - j));
        }
      } else {
        KnownFrom(cfg, trs, fs, j, k - 1, id, s);
        GoneStaysGone(cfg, trs[k - 1], fs[k - 1], id);
      }
    }
  }

  /** In every run: a target on probation that no detection matches any more is given up
      after the early termination age, counted from when it was last seen, or after the
      greatest shadow age if that is shorter, and not before. */
  lemma TentativeFate(cfg: Config, trs: seq<Tracker>, fs: seq<Frame>, j: nat, k: nat, id: nat, s: nat)
    requires Run(cfg, trs, fs) && j <= k && Forsaken(cfg, trs, fs, j, k, id) && Hopeful(trs[j], id, s)
    ensures Live(trs[k], id) <==> s + (k - j) < cfg.earlyTerminationAge && s + (k - j) <= cfg.maxShadowAge
    ensures Live(trs[k], id) ==> Hopeful(trs[k], id, s + (k - j))
  {
    HopefulYoung(cfg, trs, fs, j, id, s);
    hide Run, Live, Hopeful, Forsaken;
    HopeLasts(cfg, trs, fs, j, k, id, s);
  }

  lemma HopefulIsLive(tr: Tracker, id: nat, s: nat)
    requires Hopeful(tr, id, s)
    ensures Live(tr, id)
  {
    var i: nat :| i < |tr.targets| && tr.targets[i].id == id && tr.targets[i].state == Tentative && tr.targets[i].shadowAge == s;
  }

  lemma {:induction false} KnownFrom(cfg: Config, trs: seq<Tracker>, fs: seq<Frame>, j: nat, k: nat, id: nat, s: nat)
    requires Run(cfg, trs, fs) && j <= k < |trs| && Hopeful(trs[j], id, s)
    ensures id < trs[k].nextId
  {
    hide Update, SolverOk, NewTracker;
    RunKeepsInv(cfg, trs, fs, k);
    if k == j {
      var i: nat :| i < |trs[j].targets| && trs[j].targets[i].id == id;
      IdsBelow(cfg, trs[j], i);
    } else {
      KnownFrom(cfg, trs, fs, j, k - 1, id, s);
      RunKeepsInv(cfg, trs, fs, k - 1);
      hide Inv;
      IdsGrow(cfg, trs[k - 1], fs[k - 1]);
    }
  }

  /** In a run every target on probation has been unseen for less than that. */
  lemma HopefulYoung(cfg: Config, trs: seq<Tracker>, fs: seq<Frame>, j: nat, id: nat, s: nat)
    requires Run(cfg, trs, fs) && j < |trs| && Hopeful(trs[j], id, s)
    ensures s < cfg.earlyTerminationAge && s <= cfg.maxShadowAge
  {
    RunKeepsInv(cfg, trs, fs, j);
    hide Run, Sound;
    var i: nat :| i < |trs[j].targets| && trs[j].targets[i].id == id && trs[j].targets[i].state == Tentative && trs[j].targets[i].shadowAge == s;
    assert !Dead(cfg, trs[j].targets[i]);
  }

  // ---------------------------------------------------------------- which pairs are matches

  /** The pairs that are in range and good enough, and no others. */
  lemma {:induction false} TakenExactly(pairs: seq<Cell>, rows: seq<nat>, cols: seq<nat>, good: (nat, nat) -> bool, m: Match)
    ensures m in Taken(pairs, rows, cols, good) <==>
              exists k :: 0 <= k < |pairs| && pairs[k].row < |rows| && pairs[k].col < |cols| &&
                          rows[pairs[k].row] == m.det && cols[pairs[k].col] == m.target && good(m.det, m.target)
  {
    if pairs != [] {
      var n := |pairs| - 1;
      TakenExactly(pairs[..n], rows, cols, good, m);
      if k :| 0 <= k < n && pairs[..n][k].row < |rows| && pairs[..n][k].col < |cols| &&
              rows[pairs[..n][k].row] == m.det && cols[pairs[..n][k].col] == m.target && good(m.det, m.target) {
        assert pairs[k] == pairs[..n][k];
      }
      if k :| 0 <= k < |pairs| && pairs[k].row < |rows| && pairs[k].col < |cols| &&
              rows[pairs[k].row] == m.det && cols[pairs[k].col] == m.target && good(m.det, m.target) {
        assert k < n ==> pairs[..n][k] == pairs[k];
      }
    }
  }

  /** A pair of the solver by its places in the lists of rows and columns of its pass. */
  ghost predicate Answered(f: Frame, pass: nat, rows: seq<nat>, cols: seq<nat>, m: Match) {
    exists k :: 0 <= k < |Pairs(f, pass)| && Pairs(f, pass)[k].row < |rows| && Pairs(f, pass)[k].col < |cols| &&
                rows[Pairs(f, pass)[k].row] == m.det && cols[Pairs(f, pass)[k].col] == m.target
  }

  /** How good a pair is in the cascade, from what the target is after its prediction. */
  predicate Admissible(tr: Tracker, f: Frame, m: Match) {
    && m.target < |tr.targets|
    && var t := tr.targets[m.target];
       f.score(m.det, m.target, f.visual && !t.needsInit, FilterFound(t, f, m.target)) >= 0.0
  }

  lemma ForeseenAt(tr: Tracker, f: Frame, i: nat)
    requires i < |tr.targets|
    ensures |Predicted(tr.targets, f)| == |tr.targets| && Predicted(tr.targets, f)[i] == Foreseen(tr.targets[i], f, i)
  {
    hide Localized, Aged;
  }

  lemma ForeseenIs(t: Target, f: Frame, i: nat)
    ensures var p := Foreseen(t, f, i);
            && p.id == t.id && p.state == t.state && p.localized == FilterFound(t, f, i)
            && p.Visual() == (f.visual && !t.needsInit)
  {
  }

  lemma ScoreIs(tr: Tracker, f: Frame, m: Match)
    ensures GoodScore(f, Predicted(tr.targets, f))(m.det, m.target) <==> Admissible(tr, f, m)
  {
    hide FilterFound, Foreseen, Target.Visual, Predicted;
    PredictedLength(tr, f);
    if m.target < |tr.targets| {
      ForeseenAt(tr, f, m.target);
      ForeseenIs(tr.targets[m.target], f, m.target);
    }
  }

  lemma PredictedLength(tr: Tracker, f: Frame)
    ensures |Predicted(tr.targets, f)| == |tr.targets|
  {
    hide Localized, Aged;
  }

  /** `list` has exactly the places of `p`, in order. */
  ghost predicate Lists(list: seq<nat>, p: nat -> bool) {
    Rising(list) && forall x: nat :: x in list <==> p(x)
  }

  lemma {:induction false} GroupMembers(ts: seq<Target>, tentative: bool, i: nat)
    ensures i in Group(ts, tentative) <==> i < |ts| && (ts[i].state == Tentative) == tentative
  {
    if ts != [] {
      GroupMembers(ts[..|ts| - 1], tentative, i);
    }
  }

  lemma {:induction false} FreeTargetMembers(n: nat, ms: seq<Match>, i: nat)
    ensures i in FreeTargets(n, ms) <==> i < n && !HasTarget(ms, i)
  {
    hide HasTarget;
    if n > 0 {
      FreeTargetMembers(n - 1, ms, i);
    }
  }

  lemma FreeDetsList(n: nat, ms: seq<Match>)
    ensures Lists(FreeDets(n, ms), (d: nat) => d < n && !HasDet(ms, d))
  {
    FreeDetsRising(n, ms);
    hide HasDet, FreeDets;
    forall d: nat ensures d in FreeDets(n, ms) <==> d < n && !HasDet(ms, d) {
      FreeMembers(n, ms, d);
    }
  }

  lemma FreeTargetsList(n: nat, ms: seq<Match>)
    ensures Lists(FreeTargets(n, ms), (i: nat) => i < n && !HasTarget(ms, i))
  {
    FreeTargetsRising(n, ms);
    hide HasTarget, FreeTargets;
    forall i: nat ensures i in FreeTargets(n, ms) <==> i < n && !HasTarget(ms, i) {
      FreeTargetMembers(n, ms, i);
    }
  }

  /** Prediction leaves a target tentative or confirmed. */
  lemma GroupList(tr: Tracker, f: Frame, tentative: bool)
    ensures Lists(Group(Predicted(tr.targets, f), tentative), (i: nat) => i < |tr.targets| && (tr.targets[i].state == Tentative) == tentative)
  {
    var ts := Predicted(tr.targets, f);
    GroupRising(ts, tentative);
    forall i | 0 <= i < |ts| ensures ts[i].state == tr.targets[i].state {
      assert ts[i] == if f.visual then Localized(Aged(tr.targets[i]), f.looks(i)) else Aged(tr.targets[i]);
    }
    hide Group, Predicted;
    forall i: nat ensures i in Group(ts, tentative) <==> i < |tr.targets| && (tr.targets[i].state == Tentative) == tentative {
      GroupMembers(ts, tentative, i);
    }
  }

  /** The three passes of a frame: confirmed targets, then tentative ones for what is left
      of the confident detections, on their score; then the targets left over for the
      others, on overlap. Each takes the solver's pairs that are good enough, all of them
      and no others. */
  lemma MatchesExactly(cfg: Config, tr: Tracker, f: Frame)
    returns (m1: seq<Match>, m2: seq<Match>, m3: seq<Match>, r: seq<seq<nat>>, c: seq<seq<nat>>)
    ensures Matches(cfg, tr, f) == m1 + m2 + m3 && |r| == |c| == 3
    ensures Lists(r[0], (d: nat) => d < |Full(cfg, f)|)
    ensures Lists(r[1], (d: nat) => d < |Full(cfg, f)| && !HasDet(m1, d))
    ensures Lists(r[2], (d: nat) => |Full(cfg, f)| <= d < |Full(cfg, f)| + |Weak(cfg, f)|)
    ensures Lists(c[0], (i: nat) => i < |tr.targets| && tr.targets[i].state != Tentative)
    ensures Lists(c[1], (i: nat) => i < |tr.targets| && tr.targets[i].state == Tentative)
    ensures Lists(c[2], (i: nat) => i < |tr.targets| && !HasTarget(m1 + m2, i))
    ensures forall m :: m in m1 <==> Answered(f, 0, r[0], c[0], m) && Admissible(tr, f, m)
    ensures forall m :: m in m2 <==> Answered(f, 1, r[1], c[1], m) && Admissible(tr, f, m)
    ensures forall m :: m in m3 <==> Answered(f, 2, r[2], c[2], m) && f.iou(m.det, m.target) >= cfg.minTentativeIou
  {
    var ts, nf, nw := Predicted(tr.targets, f), |Full(cfg, f)|, |Weak(cfg, f)|;
    hide Predicted, Full, Weak, Taken, Group, FreeDets, FreeTargets, HasDet, HasTarget, Admissible, Answered;
    m1 := Pass(f, ts, nf, [], false, 0);
    m2 := Pass(f, ts, nf, m1, true, 1);
    m3 := LastPass(cfg, f, |ts|, nf, nw, m1 + m2);
    var others := seq(nw, k requires 0 <= k < nw => nf + k);
    r := [FreeDets(nf, []), FreeDets(nf, m1), others];
    c := [Group(ts, false), Group(ts, true), FreeTargets(|ts|, m1 + m2)];
    AllFree(nf);
    FreeDetsList(nf, m1);
    FollowingList(nf, nw, others);
    GroupList(tr, f, false);
    GroupList(tr, f, true);
    FreeTargetsList(|ts|, m1 + m2);
    hide Lists;
    forall m ensures m in m1 <==> Answered(f, 0, r[0], c[0], m) && Admissible(tr, f, m) {
      TakenAnswers(tr, f, 0, r[0], c[0], m);
    }
    forall m ensures m in m2 <==> Answered(f, 1, r[1], c[1], m) && Admissible(tr, f, m) {
      TakenAnswers(tr, f, 1, r[1], c[1], m);
    }
    forall m ensures m in m3 <==> Answered(f, 2, r[2], c[2], m) && f.iou(m.det, m.target) >= cfg.minTentativeIou {
      OverlapAnswers(cfg, f, r[2], c[2], m);
    }
  }

  lemma AllFree(n: nat)
    ensures Lists(FreeDets(n, []), (d: nat) => d < n)
  {
    FreeDetsList(n, []);
    forall d: nat ensures !HasDet([], d) {
    }
  }

  lemma FollowingList(nf: nat, nw: nat, s: seq<nat>)
    requires s == seq(nw, k requires 0 <= k < nw => nf + k)
    ensures Lists(s, (d: nat) => nf <= d < nf + nw)
  {
    forall d: nat | nf <= d < nf + nw ensures d in s {
      assert s[d - nf] == d;
    }
  }

  lemma TakenAnswers(tr: Tracker, f: Frame, pass: nat, rows: seq<nat>, cols: seq<nat>, m: Match)
    ensures m in Taken(Pairs(f, pass), rows, cols, GoodScore(f, Predicted(tr.targets, f))) <==>
              Answered(f, pass, rows, cols, m) && Admissible(tr, f, m)
  {
    TakenExactly(Pairs(f, pass), rows, cols, GoodScore(f, Predicted(tr.targets, f)), m);
    ScoreIs(tr, f, m);
    hide Taken, GoodScore, Predicted, Admissible, Pairs;
  }

  lemma OverlapAnswers(cfg: Config, f: Frame, rows: seq<nat>, cols: seq<nat>, m: Match)
    ensures m in Taken(Pairs(f, 2), rows, cols, GoodOverlap(cfg, f)) <==>
              Answered(f, 2, rows, cols, m) && f.iou(m.det, m.target) >= cfg.minTentativeIou
  {
    TakenExactly(Pairs(f, 2), rows, cols, GoodOverlap(cfg, f), m);
    hide Taken, Pairs;
  }

  // ---------------------------------------------------------------- what comes out

  lemma {:induction false} MatchedOutsTell(ts: seq<Target>, ms: seq<Match>, dets: seq<nat>, out: Out)
    ensures out in MatchedOuts(ts, ms, dets) <==>
              exists k :: 0 <= k < |ms| && ms[k].det < |dets| && ms[k].target < |ts| &&
                          out == Detection(dets[ms[k].det], if ts[ms[k].target].state == Tentative then None else Some(ts[ms[k].target].id))
  {
    if ms != [] {
      var n := |ms| - 1;
      MatchedOutsTell(ts, ms[..n], dets, out);
      if k :| 0 <= k < n && ms[..n][k].det < |dets| && ms[..n][k].target < |ts| &&
              out == Detection(dets[ms[..n][k].det], if ts[ms[..n][k].target].state == Tentative then None else Some(ts[ms[..n][k].target].id)) {
        assert ms[k] == ms[..n][k];
      }
      if k :| 0 <= k < |ms| && ms[k].det < |dets| && ms[k].target < |ts| &&
              out == Detection(dets[ms[k].det], if ts[ms[k].target].state == Tentative then None else Some(ts[ms[k].target].id)) {
        assert k < n ==> ms[..n][k] == ms[k];
      }
    }
  }

  lemma {:induction false} BridgeOutsTell(cfg: Config, ts: seq<Target>, ms: seq<Match>, n: nat, out: Out)
    requires n <= |ts|
    ensures out in BridgeOuts(cfg, ts, ms, n) <==>
              exists i :: 0 <= i < n && !HasTarget(ms, i) && Bridges(cfg, ts[i]) && out == Bridge(ts[i].id)
  {
    hide HasTarget, Bridges;
    if n > 0 {
      BridgeOutsTell(cfg, ts, ms, n - 1, out);
    }
  }

  lemma {:induction false} LooseOutsTell(dets: seq<nat>, ms: seq<Match>, n: nat, out: Out)
    requires n <= |dets|
    ensures out in LooseOuts(dets, ms, n) <==>
              exists d :: 0 <= d < n && !HasDet(ms, d) && out == Detection(dets[d], None)
  {
    hide HasDet;
    if n > 0 {
      LooseOutsTell(dets, ms, n - 1, out);
    }
  }

  lemma BridgesIs(cfg: Config, tr: Tracker, f: Frame, i: nat)
    requires i < |tr.targets|
    ensures |Predicted(tr.targets, f)| == |tr.targets| && Predicted(tr.targets, f)[i].id == tr.targets[i].id
    ensures !IsMatched(cfg, tr, f, i) && Bridges(cfg, Predicted(tr.targets, f)[i]) <==> CarriedOn(cfg, tr, f, i)
  {
    ForeseenAt(tr, f, i);
    ForeseenIs(tr.targets[i], f, i);
    assert FilterFound(tr.targets[i], f, i) ==> Foreseen(tr.targets[i], f, i).conf == f.looks(i).conf;
    assert Foreseen(tr.targets[i], f, i).visualOnlyAge == tr.targets[i].visualOnlyAge;
    hide IsMatched, Predicted, Foreseen, FilterFound;
  }

  /** A detection and its target, shown as they are known by now. */
  ghost predicate ShownMatch(cfg: Config, tr: Tracker, f: Frame, dets: seq<nat>, m: Match, out: Out) {
    && m.det < |dets| && m.target < |tr.targets|
    && out == Detection(dets[m.det], if OnProbation(cfg, tr, f, m.target) then None else Some(tr.targets[m.target].id))
  }

  ghost predicate Paired(cfg: Config, tr: Tracker, f: Frame, dets: seq<nat>, ms: seq<Match>, out: Out) {
    exists m :: m in ms && ShownMatch(cfg, tr, f, dets, m, out)
  }

  /** A target that its filter carries on. */
  ghost predicate Carried(cfg: Config, tr: Tracker, f: Frame, out: Out) {
    exists i: nat :: i < |tr.targets| && CarriedOn(cfg, tr, f, i) && out == Bridge(tr.targets[i].id)
  }

  /** A detection that nobody took. */
  ghost predicate Loose(dets: seq<nat>, ms: seq<Match>, out: Out) {
    exists d :: 0 <= d < |dets| && !HasDet(ms, d) && out == Detection(dets[d], None)
  }

  lemma MatchedTell(cfg: Config, tr: Tracker, f: Frame, ms: seq<Match>, dets: seq<nat>, out: Out)
    ensures out in MatchedOuts(AfterMeasurement(cfg, tr, f).targets, ms, dets) <==> Paired(cfg, tr, f, dets, ms, out)
  {
    var after := AfterMeasurement(cfg, tr, f).targets;
    MatchedOutsTell(after, ms, dets, out);
    MeasuredLength(cfg, tr, f);
    hide MatchedOuts, AfterMeasurement, OnProbation;
    forall m: Match | m.target < |tr.targets| && m.det < |dets|
      ensures ShownMatch(cfg, tr, f, dets, m, out) <==>
                out == Detection(dets[m.det], if after[m.target].state == Tentative then None else Some(after[m.target].id))
    {
      StateIs(cfg, tr, f, m.target);
    }
    if out in MatchedOuts(after, ms, dets) {
      var k :| 0 <= k < |ms| && ms[k].det < |dets| && ms[k].target < |after| &&
               out == Detection(dets[ms[k].det], if after[ms[k].target].state == Tentative then None else Some(after[ms[k].target].id));
      assert ms[k] in ms && ShownMatch(cfg, tr, f, dets, ms[k], out);
    }
    if m :| m in ms && ShownMatch(cfg, tr, f, dets, m, out) {
      var k :| 0 <= k < |ms| && ms[k] == m;
    }
  }

  lemma CarriedTell(cfg: Config, tr: Tracker, f: Frame, out: Out)
    ensures var ts := Predicted(tr.targets, f);
            out in BridgeOuts(cfg, ts, Matches(cfg, tr, f), |ts|) <==> Carried(cfg, tr, f, out)
  {
    var ts, ms := Predicted(tr.targets, f), Matches(cfg, tr, f);
    BridgeOutsTell(cfg, ts, ms, |ts|, out);
    PredictedLength(tr, f);
    hide BridgeOuts, Predicted, Matches, CarriedOn, Bridges, HasTarget;
    forall i: nat | i < |tr.targets|
      ensures ts[i].id == tr.targets[i].id && (!HasTarget(ms, i) && Bridges(cfg, ts[i]) <==> CarriedOn(cfg, tr, f, i))
    {
      BridgesIs(cfg, tr, f, i);
    }
    if out in BridgeOuts(cfg, ts, ms, |ts|) {
      var i :| 0 <= i < |ts| && !HasTarget(ms, i) && Bridges(cfg, ts[i]) && out == Bridge(ts[i].id);
      assert CarriedOn(cfg, tr, f, i);
    }
    if i: nat :| i < |tr.targets| && CarriedOn(cfg, tr, f, i) && out == Bridge(tr.targets[i].id) {
      assert !HasTarget(ms, i) && Bridges(cfg, ts[i]);
    }
  }

  lemma OutsAre(cfg: Config, tr: Tracker, f: Frame)
    ensures var (ts, ms, dets) := (Predicted(tr.targets, f), Matches(cfg, tr, f), Full(cfg, f) + Weak(cfg, f));
            Outs(cfg, tr, f) ==
            MatchedOuts(AfterMeasurement(cfg, tr, f).targets, ms, dets) + BridgeOuts(cfg, ts, ms, |ts|) + LooseOuts(dets, ms, |dets|)
  {
    hide Measured, Predicted, Matches, BridgeOuts, MatchedOuts, LooseOuts, Full, Weak;
  }

  /** What an output says: a detection comes with the id of the target it is matched to, if
      that is confirmed by now, and without one otherwise; an id without a detection is that
      of a target its filter carries on, and each of those comes out. */
  lemma OutsTell(cfg: Config, tr: Tracker, f: Frame, out: Out)
    ensures var (dets, ms) := (Full(cfg, f) + Weak(cfg, f), Matches(cfg, tr, f));
            out in Outs(cfg, tr, f) <==>
            Paired(cfg, tr, f, dets, ms, out) || Carried(cfg, tr, f, out) || Loose(dets, ms, out)
  {
    hide *;
    var ms, dets := Matches(cfg, tr, f), Full(cfg, f) + Weak(cfg, f);
    OutsAre(cfg, tr, f);
    MatchedTell(cfg, tr, f, ms, dets, out);
    CarriedTell(cfg, tr, f, out);
    LooseTell(dets, ms, out);
  }

  lemma LooseTell(dets: seq<nat>, ms: seq<Match>, out: Out)
    ensures out in LooseOuts(dets, ms, |dets|) <==> Loose(dets, ms, out)
  {
    hide LooseOuts, HasDet;
    LooseOutsTell(dets, ms, |dets|, out);
  }

  lemma StateIs(cfg: Config, tr: Tracker, f: Frame, i: nat)
    requires i < |tr.targets|
    ensures var after := AfterMeasurement(cfg, tr, f).targets;
            |after| == |tr.targets| && after[i].id == tr.targets[i].id && (after[i].state == Tentative) == OnProbation(cfg, tr, f, i)
  {
    MeasuredIs(cfg, tr, f, i);
    hide AfterMeasurement, IsMatched, CarriedOn, UnseenFor, OnProbation, FilterFound;
  }

  /** The two kinds of detections, in the order they came. */
  lemma KindsAre(cfg: Config, f: Frame)
    ensures Rising(Full(cfg, f)) && Rising(Weak(cfg, f))
    ensures forall d: nat :: d in Full(cfg, f) <==>
              d < |f.confidences| && f.confidences[d] >= cfg.minDetectorConfidence && f.confidences[d] >= cfg.tentativeConfidence
    ensures forall d: nat :: d in Weak(cfg, f) <==>
              d < |f.confidences| && f.confidences[d] >= cfg.minDetectorConfidence && f.confidences[d] < cfg.tentativeConfidence
  {
    KindRising(cfg, f.confidences, true);
    KindRising(cfg, f.confidences, false);
    hide Kind;
  }

  // ---------------------------------------------------------------- newcomers

  /** Of the confident detections in turn, each that nobody took and nothing there covers
      gets a target as long as there is a slot, and no other does. */
  lemma CreationDecides(cfg: Config, tr: Tracker, f: Frame, k: nat)
    requires Inv(cfg, tr) && k < |Full(cfg, f)|
    ensures var (a, ms) := (AfterMeasurement(cfg, tr, f), Matches(cfg, tr, f));
            var n := |Created(f, a, ms, k).targets|;
            |Created(f, a, ms, k + 1).targets| ==
            if !HasDet(ms, k) && (n == 0 || !f.covered(k, n)) && n < cfg.maxTargets then n + 1 else n
    ensures Created(f, AfterMeasurement(cfg, tr, f), Matches(cfg, tr, f), 0).targets == AfterMeasurement(cfg, tr, f).targets
  {
    var a, ms := AfterMeasurement(cfg, tr, f), Matches(cfg, tr, f);
    MeasurementSound(cfg, tr, f);
    hide AfterMeasurement, Matches, Full, HasDet;
    CreatedSound(cfg, f, a, ms, k);
    var c := Created(f, a, ms, k);
    SlotsArePartition(cfg, c);
    hide Sound, SlotsShared, SlotsOf, Distinct;
  }

  /** A target under a new id is new in every way. */
  lemma NewcomerIs(cfg: Config, tr: Tracker, f: Frame, t': Target)
    requires Inv(cfg, tr) && t' in Update(cfg, tr, f).tracker.targets && t'.id >= tr.nextId
    ensures t' == Target(t'.id, t'.slot, 1, 1, 0, 0, Tentative, 1.0, false, false, !f.visual)
  {
    var a, c, d := AfterMeasurement(cfg, tr, f), AfterCreation(cfg, tr, f), AfterTermination(cfg, tr, f);
    MeasurementSound(cfg, tr, f);
    CreatedSound(cfg, f, a, Matches(cfg, tr, f), |Full(cfg, f)|);
    ReapedInv(cfg, c);
    assert OnlyNew(a, c) && |tr.targets| == |a.targets|;
    if f.visual {
      UpdatedNeeds(cfg, tr, f, t');
    } else {
      TaughtSame(d, f, t');
    }
    TaughtFrom(d, f, t');
    hide AfterMeasurement, AfterCreation, AfterTermination, Taught, Sound, Dead, SlotsMoved, Full, Outs, Update;
    var t :| t in d.targets && SameButTaught(t, t');
    assert c.targets[..|c.targets|] == c.targets;
    assert t in c.targets && (!f.visual ==> t' in c.targets);
    NewFrom(cfg, tr, a, c, f, t);
    if !f.visual {
      NewFrom(cfg, tr, a, c, f, t');
    }
  }

  lemma NewFrom(cfg: Config, tr: Tracker, a: Tracker, c: Tracker, f: Frame, t: Target)
    requires Inv(cfg, tr) && a == AfterMeasurement(cfg, tr, f) && OnlyNew(a, c) && t in c.targets && t.id >= tr.nextId
    ensures t == NewTarget(t.id, t.slot)
  {
    hide AfterMeasurement, Inv;
    var i: nat :| i < |c.targets| && c.targets[i] == t;
    MeasuredLength(cfg, tr, f);
    if i < |tr.targets| {
      assert c.targets[i] == a.targets[i];
      SameId(cfg, tr, f, i);
      assert false;
    }
  }

  lemma MeasuredLength(cfg: Config, tr: Tracker, f: Frame)
    ensures |AfterMeasurement(cfg, tr, f).targets| == |tr.targets|
  {
    hide Matches, BridgeOuts;
  }

  // ---------------------------------------------------------------- the count of bridges

  /** The targets in an output that their filters carried on. */
  function CarriedIn(outs: seq<Out>): nat {
    if outs == [] then 0
    else
      var n := |outs| - 1;
      if outs[n].Bridge? then CarriedIn(outs[..n]) + 1 else CarriedIn(outs[..n])
  }

  lemma {:induction false} CarriedAppend(a: seq<Out>, b: seq<Out>)
    ensures CarriedIn(a + b) == CarriedIn(a) + CarriedIn(b)
  {
    if b == [] {
      assert a + b == a;
    } else {
      var n := |b| - 1;
      assert (a + b)[..|a| + n] == a + b[..n];
      CarriedAppend(a, b[..n]);
    }
  }

  lemma CarriedMore(a: seq<Out>, out: Out)
    ensures CarriedIn(a + [out]) == if out.Bridge? then CarriedIn(a) + 1 else CarriedIn(a)
  {
    assert (a + [out])[..|a|] == a;
  }

  lemma {:induction false} MatchedCarryNone(ts: seq<Target>, ms: seq<Match>, dets: seq<nat>)
    ensures CarriedIn(MatchedOuts(ts, ms, dets)) == 0
  {
    if ms != [] {
      var n := |ms| - 1;
      MatchedCarryNone(ts, ms[..n], dets);
      if ms[n].det < |dets| && ms[n].target < |ts| {
        CarriedMore(MatchedOuts(ts, ms[..n], dets), Detection(dets[ms[n].det], Shown(ts[ms[n].target])));
      }
      hide CarriedIn, Shown;
    }
  }

  lemma {:induction false} LooseCarryNone(dets: seq<nat>, ms: seq<Match>, k: nat)
    requires k <= |dets|
    ensures CarriedIn(LooseOuts(dets, ms, k)) == 0
  {
    if k > 0 {
      LooseCarryNone(dets, ms, k - 1);
      CarriedMore(LooseOuts(dets, ms, k - 1), Detection(dets[k - 1], None));
      hide CarriedIn, HasDet;
    }
  }

  lemma {:induction false} BridgesCarry(cfg: Config, ts: seq<Target>, ms: seq<Match>, k: nat)
    requires k <= |ts|
    ensures CarriedIn(BridgeOuts(cfg, ts, ms, k)) == |BridgeOuts(cfg, ts, ms, k)|
  {
    if k > 0 {
      BridgesCarry(cfg, ts, ms, k - 1);
      CarriedMore(BridgeOuts(cfg, ts, ms, k - 1), Bridge(ts[k - 1].id));
      hide CarriedIn, HasTarget, Bridges;
    }
  }

  /** The statistic counts the targets put out on their filter's word. */
  lemma BridgesAreCounted(cfg: Config, tr: Tracker, f: Frame)
    requires Inv(cfg, tr)
    ensures Update(cfg, tr, f).tracker.bridged == tr.bridged + CarriedIn(Update(cfg, tr, f).outs)
  {
    var ts, ms, dets := Predicted(tr.targets, f), Matches(cfg, tr, f), Full(cfg, f) + Weak(cfg, f);
    var x, y, z := MatchedOuts(Measured(cfg, ts, ms), ms, dets), BridgeOuts(cfg, ts, ms, |ts|), LooseOuts(dets, ms, |dets|);
    MatchedCarryNone(Measured(cfg, ts, ms), ms, dets);
    BridgesCarry(cfg, ts, ms, |ts|);
    LooseCarryNone(dets, ms, |dets|);
    CarriedAppend(x, y);
    CarriedAppend(x + y, z);
    var a, c := AfterMeasurement(cfg, tr, f), AfterCreation(cfg, tr, f);
    assert a.bridged == tr.bridged + |y|;
    MeasurementSound(cfg, tr, f);
    CreatedSound(cfg, f, a, ms, |Full(cfg, f)|);
    assert OnlyNew(a, c);
    ReapedBridges(cfg, c, |c.targets|);
    hide Measured, Predicted, Matches, Full, Weak, MatchedOuts, BridgeOuts, LooseOuts, CarriedIn, AfterMeasurement, AfterCreation, Reaped, Sound;
  }

  lemma {:induction false} ReapedBridges(cfg: Config, tr: Tracker, k: nat)
    requires k <= |tr.targets|
    ensures Reaped(cfg, tr, k).bridged == tr.bridged
  {
    if k > 0 {
      ReapedBridges(cfg, tr, k - 1);
    }
  }
}
