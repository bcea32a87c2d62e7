/** The NvDCF tracker of one source: targets with a filter slot each, and what one
    frame does to them. Overlaps, sizes and filter responses come in from outside. */
module NvDcf {
  import opened Shared
  import opened Greedy

  datatype Config = Config(
    maxTargets: nat,
    probationAge: nat,
    earlyTerminationAge: nat,
    maxShadowAge: nat,
    maxVisualOnlyAge: nat,
    minDetectorConfidence: real,
    tentativeConfidence: real,
    minTrackerConfidence: real,
    minTentativeIou: real)

  datatype TargetState = Tentative | Active | Shadow

  datatype Target = Target(
    id: nat,
    slot: nat,
    age: nat,
    hits: nat,
    shadowAge: nat,
    visualOnlyAge: nat,
    state: TargetState,
    conf: real,
    searched: bool,
    localized: bool,
    needsInit: bool)
  {
    /** Its filter's answer may be looked at. */
    predicate Visual() { searched && !needsInit }
  }

  /** `owners` says which target a filter slot was learned for. */
  datatype Tracker = Tracker(
    targets: seq<Target>, free: seq<nat>, nextId: nat, created: nat, terminated: nat, bridged: nat,
    owners: map<nat, nat>)

  function NewTracker(cfg: Config): Tracker {
    Tracker([], seq(cfg.maxTargets, k requires 0 <= k < cfg.maxTargets => k), 1, 0, 0, 0, map[])
  }

  /** What the filter of a target says this frame. */
  datatype Look = Look(jump: bool, conf: real)

  /** One frame: the detections by confidence, whether there is an image, and all that
      is computed from pixels and boxes. `score` and `iou` rate a detection against a
      target, `pairs` are the answers of the assignment solver, `covered` tells whether
      a detection lies on an existing target too much to start a new one. */
  datatype Frame = Frame(
    confidences: seq<real>,
    visual: bool,
    looks: nat -> Look,
    score: (nat, nat, bool, bool) -> real,
    iou: (nat, nat) -> real,
    pairs: seq<seq<Cell>>,
    covered: (nat, nat) -> bool)

  // ---------------------------------------------------------------- 1. prediction and localization

  function Aged(t: Target): Target {
    t.(age := t.age + 1, searched := false, localized := false)
  }

  /** A filter not learned yet is not listened to; a jump too far is not believed. */
  function Localized(t: Target, l: Look): Target {
    if t.needsInit then t.(searched := true)
    else if l.jump then t.(searched := true, conf := 0.0)
    else t.(searched := true, localized := true, conf := l.conf)
  }

  function Predicted(targets: seq<Target>, f: Frame): (r: seq<Target>)
    ensures |r| == |targets|
  {
    seq(|targets|, i requires 0 <= i < |targets| =>
      if f.visual then Localized(Aged(targets[i]), f.looks(i)) else Aged(targets[i]))
  }

  // ---------------------------------------------------------------- 2. association

  /** Detections worth looking at come in two kinds. */
  predicate IsKind(cfg: Config, conf: real, full: bool) {
    conf >= cfg.minDetectorConfidence && (conf >= cfg.tentativeConfidence) == full
  }

  /** The detections of a kind, in the order given. */
  function Kind(cfg: Config, confidences: seq<real>, full: bool): (r: seq<nat>)
    ensures forall k :: 0 <= k < |r| ==> r[k] < |confidences| && IsKind(cfg, confidences[r[k]], full)
  {
    if confidences == [] then []
    else
      var n := |confidences| - 1;
      var before := Kind(cfg, confidences[..n], full);
      if IsKind(cfg, confidences[n], full) then before + [n] else before
  }

  function Full(cfg: Config, f: Frame): seq<nat> { Kind(cfg, f.confidences, true) }

  function Weak(cfg: Config, f: Frame): seq<nat> { Kind(cfg, f.confidences, false) }

  /** A detection, by its place among all that take part, and its target. */
  datatype Match = Match(det: nat, target: nat)

  /** The pairs of the solver that are good enough, translated to detections and targets. */
  function Taken(pairs: seq<Cell>, rows: seq<nat>, cols: seq<nat>, good: (nat, nat) -> bool): seq<Match> {
    if pairs == [] then []
    else
      var n := |pairs| - 1;
      var before := Taken(pairs[..n], rows, cols, good);
      var c := pairs[n];
      if c.row < |rows| && c.col < |cols| && good(rows[c.row], cols[c.col])
      then before + [Match(rows[c.row], cols[c.col])] else before
  }

  /** The targets from the list that are tentative, or that are not. */
  function Group(targets: seq<Target>, tentative: bool): (r: seq<nat>)
    ensures forall k :: 0 <= k < |r| ==> r[k] < |targets| && (targets[r[k]].state == Tentative) == tentative
  {
    if targets == [] then []
    else
      var n := |targets| - 1;
      var before := Group(targets[..n], tentative);
      if (targets[n].state == Tentative) == tentative then before + [n] else before
  }

  predicate HasDet(ms: seq<Match>, d: nat) { exists k :: 0 <= k < |ms| && ms[k].det == d }

  predicate HasTarget(ms: seq<Match>, t: nat) { exists k :: 0 <= k < |ms| && ms[k].target == t }

  function FreeDets(n: nat, ms: seq<Match>): (r: seq<nat>)
    ensures forall k :: 0 <= k < |r| ==> r[k] < n && !HasDet(ms, r[k])
  {
    if n == 0 then []
    else if HasDet(ms, n - 1) then FreeDets(n - 1, ms)
    else FreeDets(n - 1, ms) + [n - 1]
  }

  function FreeTargets(n: nat, ms: seq<Match>): (r: seq<nat>)
    ensures forall k :: 0 <= k < |r| ==> r[k] < n && !HasTarget(ms, r[k])
  {
    if n == 0 then []
    else if HasTarget(ms, n - 1) then FreeTargets(n - 1, ms)
    else FreeTargets(n - 1, ms) + [n - 1]
  }

  function Pairs(f: Frame, k: nat): seq<Cell> { if k < |f.pairs| then f.pairs[k] else [] }

  function GoodScore(f: Frame, ts: seq<Target>): (nat, nat) -> bool {
    (d: nat, i: nat) => i < |ts| && f.score(d, i, ts[i].Visual(), ts[i].localized) >= 0.0
  }

  function GoodOverlap(cfg: Config, f: Frame): (nat, nat) -> bool {
    (d: nat, i: nat) => f.iou(d, i) >= cfg.minTentativeIou
  }

  /** One pass of the cascade over the detections still free. */
  function Pass(f: Frame, ts: seq<Target>, nf: nat, before: seq<Match>, tentative: bool, k: nat): seq<Match> {
    Taken(Pairs(f, k), FreeDets(nf, before), Group(ts, tentative), GoodScore(f, ts))
  }

  /** The tentative detections against the targets left over, on overlap alone. */
  function LastPass(cfg: Config, f: Frame, n: nat, nf: nat, nw: nat, before: seq<Match>): seq<Match> {
    Taken(Pairs(f, 2), seq(nw, k requires 0 <= k < nw => nf + k), FreeTargets(n, before), GoodOverlap(cfg, f))
  }

  /** Confirmed targets first, then tentative ones, then what is left on overlap. */
  function Associated(cfg: Config, f: Frame, ts: seq<Target>): seq<Match> {
    var nf, nw := |Full(cfg, f)|, |Weak(cfg, f)|;
    var m1 := Pass(f, ts, nf, [], false, 0);
    var m2 := m1 + Pass(f, ts, nf, m1, true, 1);
    m2 + LastPass(cfg, f, |ts|, nf, nw, m2)
  }

  // ---------------------------------------------------------------- 3. and 4. matched and unmatched targets

  function Matched(cfg: Config, t: Target): Target {
    t.(hits := t.hits + 1, shadowAge := 0, visualOnlyAge := 0,
       state := if t.state != Tentative || t.age > cfg.probationAge then Active else t.state)
  }

  /** The filter may carry the target on alone. */
  predicate Bridges(cfg: Config, t: Target) {
    t.localized && t.conf >= cfg.minTrackerConfidence && t.visualOnlyAge < cfg.maxVisualOnlyAge && t.state != Tentative
  }

  function Missed(cfg: Config, t: Target): Target {
    if Bridges(cfg, t) then t.(visualOnlyAge := t.visualOnlyAge + 1, shadowAge := 0, state := Active)
    else t.(shadowAge := t.shadowAge + 1, state := if t.state != Tentative then Shadow else t.state)
  }

  function Measured(cfg: Config, ts: seq<Target>, ms: seq<Match>): (r: seq<Target>)
    ensures |r| == |ts|
  {
    seq(|ts|, i requires 0 <= i < |ts| => if HasTarget(ms, i) then Matched(cfg, ts[i]) else Missed(cfg, ts[i]))
  }

  /** What comes out: a detection with the id of its target if there is one to show,
      or a target its filter carried on. */
  datatype Out = Detection(det: nat, shown: Option<nat>) | Bridge(id: nat)

  function Shown(t: Target): Option<nat> {
    if t.state == Tentative then None else Some(t.id)
  }

  function MatchedOuts(ts: seq<Target>, ms: seq<Match>, dets: seq<nat>): seq<Out> {
    if ms == [] then []
    else
      var n := |ms| - 1;
      var m, before := ms[n], MatchedOuts(ts, ms[..n], dets);
      if m.det < |dets| && m.target < |ts|
      then before + [Detection(dets[m.det], Shown(ts[m.target]))] else before
  }

  function BridgeOuts(cfg: Config, ts: seq<Target>, ms: seq<Match>, k: nat): seq<Out>
    requires k <= |ts|
  {
    if k == 0 then []
    else
      var before := BridgeOuts(cfg, ts, ms, k - 1);
      if !HasTarget(ms, k - 1) && Bridges(cfg, ts[k - 1]) then before + [Bridge(ts[k - 1].id)] else before
  }

  // ---------------------------------------------------------------- 5. creation

  function NewTarget(id: nat, slot: nat): Target {
    Target(id, slot, 1, 1, 0, 0, Tentative, 1.0, false, false, true)
  }

  function Create(tr: Tracker): Tracker
    requires tr.free != []
  {
    tr.(targets := tr.targets + [NewTarget(tr.nextId, tr.free[0])], free := tr.free[1..],
        nextId := tr.nextId + 1, created := tr.created + 1)
  }

  /** The first `k` confident detections: one nobody took and nothing covers gets a target. */
  function Created(f: Frame, tr: Tracker, ms: seq<Match>, k: nat): Tracker {
    if k == 0 then tr
    else
      var t := Created(f, tr, ms, k - 1);
      if HasDet(ms, k - 1) || (t.targets != [] && f.covered(k - 1, |t.targets|)) || t.free == [] then t else Create(t)
  }

  /** All detections nobody took come out without an id. */
  function LooseOuts(dets: seq<nat>, ms: seq<Match>, k: nat): seq<Out>
    requires k <= |dets|
  {
    if k == 0 then []
    else if HasDet(ms, k - 1) then LooseOuts(dets, ms, k - 1)
    else LooseOuts(dets, ms, k - 1) + [Detection(dets[k - 1], None)]
  }

  // ---------------------------------------------------------------- 6. termination

  predicate Dead(cfg: Config, t: Target) {
    t.shadowAge > cfg.maxShadowAge || (t.state == Tentative && t.shadowAge >= cfg.earlyTerminationAge)
  }

  /** The first `k` targets are looked at; the dead give back their slots. */
  function Reaped(cfg: Config, tr: Tracker, k: nat): (r: Tracker)
    requires k <= |tr.targets|
  {
    if k == 0 then tr.(targets := [])
    else
      var r := Reaped(cfg, tr, k - 1);
      var t := tr.targets[k - 1];
      if Dead(cfg, t)
      then r.(free := r.free + [t.slot], terminated := r.terminated + 1, owners := r.owners - {t.slot})
      else r.(targets := r.targets + [t])
  }

  // ---------------------------------------------------------------- 7. filter learning

  predicate Learns(t: Target) { t.state == Active || t.needsInit }

  function Learned(t: Target): Target { if Learns(t) then t.(needsInit := false) else t }

  /** A new filter belongs to its target; an old one is only adapted. */
  function Owners(owners: map<nat, nat>, ts: seq<Target>): map<nat, nat> {
    if ts == [] then owners
    else
      var n := |ts| - 1;
      var o := Owners(owners, ts[..n]);
      if ts[n].needsInit then o[ts[n].slot := ts[n].id] else o
  }

  function Taught(tr: Tracker, f: Frame): Tracker {
    if f.visual
    then tr.(targets := seq(|tr.targets|, i requires 0 <= i < |tr.targets| => Learned(tr.targets[i])),
             owners := Owners(tr.owners, tr.targets))
    else tr
  }

  // ---------------------------------------------------------------- the frame

  datatype Result = Result(tracker: Tracker, outs: seq<Out>, matches: seq<Match>)

  function Matches(cfg: Config, tr: Tracker, f: Frame): seq<Match> {
    Associated(cfg, f, Predicted(tr.targets, f))
  }

  /** The targets as they are when measured or missed. */
  function AfterMeasurement(cfg: Config, tr: Tracker, f: Frame): Tracker {
    var ts := Predicted(tr.targets, f);
    var ms := Matches(cfg, tr, f);
    tr.(targets := Measured(cfg, ts, ms), bridged := tr.bridged + |BridgeOuts(cfg, ts, ms, |ts|)|)
  }

  function AfterCreation(cfg: Config, tr: Tracker, f: Frame): Tracker {
    Created(f, AfterMeasurement(cfg, tr, f), Matches(cfg, tr, f), |Full(cfg, f)|)
  }

  function AfterTermination(cfg: Config, tr: Tracker, f: Frame): Tracker {
    var t := AfterCreation(cfg, tr, f);
    Reaped(cfg, t, |t.targets|)
  }

  function Outs(cfg: Config, tr: Tracker, f: Frame): seq<Out> {
    var ts := Predicted(tr.targets, f);
    var ms := Matches(cfg, tr, f);
    var dets := Full(cfg, f) + Weak(cfg, f);
    MatchedOuts(Measured(cfg, ts, ms), ms, dets) + BridgeOuts(cfg, ts, ms, |ts|) + LooseOuts(dets, ms, |dets|)
  }

  function Update(cfg: Config, tr: Tracker, f: Frame): Result {
    Result(Taught(AfterTermination(cfg, tr, f), f), Outs(cfg, tr, f), Matches(cfg, tr, f))
  }
}
