/** What every frame keeps: the slots are shared out exactly, ids are fresh, filters
    belong to their targets, and the association pairs each detection and each
    target at most once. */
module NvDcfSafety {
  import opened Greedy
  import opened NvDcf

  // ---------------------------------------------------------------- association

  ghost predicate Distinct(s: seq<nat>) {
    forall a, b :: 0 <= a < b < |s| ==> s[a] != s[b]
  }

  /** No detection and no target in two matches. */
  ghost predicate Injective(ms: seq<Match>) {
    forall a, b :: 0 <= a < b < |ms| ==> ms[a].det != ms[b].det && ms[a].target != ms[b].target
  }

  /** The assignment solver uses no row and no column twice. */
  ghost predicate SolverOk(f: Frame) {
    forall k :: 0 <= k < |f.pairs| ==> OneToOne(f.pairs[k])
  }

  lemma {:induction false} TakenMembers(pairs: seq<Cell>, rows: seq<nat>, cols: seq<nat>, good: (nat, nat) -> bool)
    ensures forall m :: m in Taken(pairs, rows, cols, good) ==>
              exists k :: 0 <= k < |pairs| && pairs[k].row < |rows| && pairs[k].col < |cols| &&
                          m == Match(rows[pairs[k].row], cols[pairs[k].col]) && good(m.det, m.target)
  {
    if pairs != [] {
      TakenMembers(pairs[..|pairs| - 1], rows, cols, good);
    }
  }

  lemma {:induction false} TakenInjective(pairs: seq<Cell>, rows: seq<nat>, cols: seq<nat>, good: (nat, nat) -> bool)
    requires OneToOne(pairs) && Distinct(rows) && Distinct(cols)
    ensures Injective(Taken(pairs, rows, cols, good))
    ensures forall m :: m in Taken(pairs, rows, cols, good) ==> m.det in rows && m.target in cols && good(m.det, m.target)
  {
    TakenMembers(pairs, rows, cols, good);
    if pairs != [] {
      var n := |pairs| - 1;
      TakenInjective(pairs[..n], rows, cols, good);
      TakenMembers(pairs[..n], rows, cols, good);
      var before, c := Taken(pairs[..n], rows, cols, good), pairs[n];
      if c.row < |rows| && c.col < |cols| {
        forall j | 0 <= j < |before| ensures before[j].det != rows[c.row] && before[j].target != cols[c.col] {
          assert before[j] in before;
          var k :| 0 <= k < |pairs[..n]| && pairs[k].row < |rows| && pairs[k].col < |cols| &&
                   before[j] == Match(rows[pairs[k].row], cols[pairs[k].col]);
          assert !Clash(pairs[k], c);
        }
      }
    }
  }

  ghost predicate Rising(s: seq<nat>) {
    forall a, b :: 0 <= a < b < |s| ==> s[a] < s[b]
  }

  lemma {:induction false} FreeDetsRising(n: nat, ms: seq<Match>)
    ensures Rising(FreeDets(n, ms))
  {
    if n > 0 {
      FreeDetsRising(n - 1, ms);
    }
  }

  lemma {:induction false} FreeTargetsRising(n: nat, ms: seq<Match>)
    ensures Rising(FreeTargets(n, ms))
  {
    if n > 0 {
      FreeTargetsRising(n - 1, ms);
    }
  }

  lemma {:induction false} GroupRising(ts: seq<Target>, tentative: bool)
    ensures Rising(Group(ts, tentative))
  {
    if ts != [] {
      GroupRising(ts[..|ts| - 1], tentative);
    }
  }

  lemma {:induction false} KindRising(cfg: Config, confidences: seq<real>, full: bool)
    ensures Rising(Kind(cfg, confidences, full))
    ensures forall d: nat :: d in Kind(cfg, confidences, full) <==> d < |confidences| && IsKind(cfg, confidences[d], full)
  {
    if confidences != [] {
      KindRising(cfg, confidences[..|confidences| - 1], full);
    }
  }

  lemma InjectiveAppend(a: seq<Match>, b: seq<Match>)
    requires Injective(a) && Injective(b)
    requires forall m :: m in b ==> !HasDet(a, m.det) && !HasTarget(a, m.target)
    ensures Injective(a + b)
  {
    forall i, j | 0 <= i < |a| && 0 <= j < |b| ensures a[i].det != b[j].det && a[i].target != b[j].target {
      assert b[j] in b;
    }
  }

  /** Every match is of a detection below `nd` and one of the `nt` targets. */
  ghost predicate InRange(ms: seq<Match>, nd: nat, nt: nat) {
    forall k :: 0 <= k < |ms| ==> ms[k].det < nd && ms[k].target < nt
  }

  lemma PassOk(f: Frame, ts: seq<Target>, nf: nat, before: seq<Match>, tentative: bool, k: nat)
    requires SolverOk(f)
    ensures var ms := Pass(f, ts, nf, before, tentative, k);
            Injective(ms) && forall m :: m in ms ==>
              && m.det < nf && m.target < |ts| && !HasDet(before, m.det)
              && (ts[m.target].state == Tentative) == tentative && GoodScore(f, ts)(m.det, m.target)
  {
    FreeDetsRising(nf, before);
    GroupRising(ts, tentative);
    hide Clash;
    TakenInjective(Pairs(f, k), FreeDets(nf, before), Group(ts, tentative), GoodScore(f, ts));
    hide Taken, FreeDets, Group, HasDet, GoodScore, Injective;
  }

  lemma LastPassOk(cfg: Config, f: Frame, n: nat, nf: nat, nw: nat, before: seq<Match>)
    requires SolverOk(f)
    ensures var ms := LastPass(cfg, f, n, nf, nw, before);
            Injective(ms) && forall m :: m in ms ==>
              && nf <= m.det < nf + nw && m.target < n && !HasTarget(before, m.target)
              && GoodOverlap(cfg, f)(m.det, m.target)
  {
    FreeTargetsRising(n, before);
    hide Clash;
    TakenInjective(Pairs(f, 2), seq(nw, k requires 0 <= k < nw => nf + k), FreeTargets(n, before), GoodOverlap(cfg, f));
    hide Taken, FreeTargets, HasTarget, GoodOverlap, Injective;
  }

  /** Over all three passes no detection and no target is matched twice. */
  lemma AssociationIsInjective(cfg: Config, f: Frame, ts: seq<Target>)
    requires SolverOk(f)
    ensures var ms := Associated(cfg, f, ts);
            Injective(ms) && InRange(ms, |Full(cfg, f)| + |Weak(cfg, f)|, |ts|)
  {
    var nf, nw := |Full(cfg, f)|, |Weak(cfg, f)|;
    hide Pass, LastPass, GoodScore, GoodOverlap, SolverOk;
    var m1 := Pass(f, ts, nf, [], false, 0);
    PassOk(f, ts, nf, [], false, 0);
    var p2 := Pass(f, ts, nf, m1, true, 1);
    PassOk(f, ts, nf, m1, true, 1);
    forall m | m in p2 ensures !HasTarget(m1, m.target) {
      forall k | 0 <= k < |m1| ensures m1[k].target != m.target {
        assert m1[k] in m1;
      }
    }
    InjectiveAppend(m1, p2);
    var m2 := m1 + p2;
    var p3 := LastPass(cfg, f, |ts|, nf, nw, m2);
    LastPassOk(cfg, f, |ts|, nf, nw, m2);
    forall m | m in p3 ensures !HasDet(m2, m.det) {
      forall k | 0 <= k < |m2| ensures m2[k].det != m.det {
        assert m2[k] in m1 || m2[k] in p2;
      }
    }
    InjectiveAppend(m2, p3);
    forall k | 0 <= k < |m2 + p3| ensures (m2 + p3)[k].det < nf + nw && (m2 + p3)[k].target < |ts| {
      assert (m2 + p3)[k] in m1 || (m2 + p3)[k] in p2 || (m2 + p3)[k] in p3;
    }
  }

  // ---------------------------------------------------------------- the invariant

  function SlotsOf(ts: seq<Target>): (r: seq<nat>)
    ensures |r| == |ts|
  {
    seq(|ts|, i requires 0 <= i < |ts| => ts[i].slot)
  }

  function UpTo(n: nat): seq<nat> { seq(n, k requires 0 <= k < n => k) }

  /** Every slot is either free or has exactly one target. */
  ghost predicate SlotsShared(cfg: Config, tr: Tracker) {
    multiset(SlotsOf(tr.targets)) + multiset(tr.free) == multiset(UpTo(cfg.maxTargets))
  }

  /** Targets stand in the order of their creation, under ids given out before. */
  ghost predicate IdsRising(ts: seq<Target>, next: nat) {
    && (forall a, b :: 0 <= a < b < |ts| ==> ts[a].id < ts[b].id)
    && (forall a :: 0 <= a < |ts| ==> 1 <= ts[a].id < next)
  }

  ghost predicate Owned(ts: seq<Target>, owners: map<nat, nat>) {
    forall k :: 0 <= k < |ts| && !ts[k].needsInit ==> ts[k].slot in owners && owners[ts[k].slot] == ts[k].id
  }

  /** No target is shown before its probation is over. */
  predicate Seasoned(cfg: Config, t: Target) {
    && (t.state != Tentative ==> t.age > cfg.probationAge)
    && t.visualOnlyAge <= cfg.maxVisualOnlyAge
  }

  ghost predicate Counts(tr: Tracker) {
    tr.created == tr.terminated + |tr.targets| && tr.created + 1 == tr.nextId
  }

  /** What also holds in the middle of a frame. */
  ghost predicate Sound(cfg: Config, tr: Tracker) {
    && SlotsShared(cfg, tr) && IdsRising(tr.targets, tr.nextId) && Counts(tr)
    && Owned(tr.targets, tr.owners)
    && (forall k :: 0 <= k < |tr.targets| ==> Seasoned(cfg, tr.targets[k]))
  }

  ghost predicate Inv(cfg: Config, tr: Tracker) {
    && Sound(cfg, tr)
    && (forall k :: 0 <= k < |tr.targets| ==> !Dead(cfg, tr.targets[k]))
  }

  lemma {:induction false} UpToOnce(n: nat, k: nat)
    ensures multiset(UpTo(n))[k] == if k < n then 1 else 0
  {
    if n > 0 {
      UpToOnce(n - 1, k);
      assert UpTo(n) == UpTo(n - 1) + [n - 1];
    } else {
      assert UpTo(0) == [];
    }
  }

  lemma OnceIsDistinct(s: seq<nat>)
    requires forall x :: x in s ==> multiset(s)[x] == 1
    ensures Distinct(s)
  {
    forall a, b | 0 <= a < b < |s| ensures s[a] != s[b] {
      if s[a] == s[b] {
        CountedTwice(s, a, b);
      }
    }
  }

  lemma CountedTwice(s: seq<nat>, a: nat, b: nat)
    requires a < b < |s| && s[a] == s[b]
    ensures multiset(s)[s[a]] >= 2
  {
    assert s == s[..a] + [s[a]] + s[a + 1..b] + [s[b]] + s[b + 1..];
  }

  /** The slots partition 0 .. maxTargets - 1. */
  lemma SlotsArePartition(cfg: Config, tr: Tracker)
    requires SlotsShared(cfg, tr)
    ensures Distinct(SlotsOf(tr.targets)) && Distinct(tr.free)
    ensures |tr.targets| + |tr.free| == cfg.maxTargets
    ensures forall s: nat :: s < cfg.maxTargets <==> s in SlotsOf(tr.targets) || s in tr.free
    ensures forall s: nat :: !(s in SlotsOf(tr.targets) && s in tr.free)
  {
    var a, b := SlotsOf(tr.targets), tr.free;
    var ma: multiset<nat>, mb: multiset<nat> := multiset(a), multiset(b);
    forall s: nat ensures ma[s] + mb[s] == if s < cfg.maxTargets then 1 else 0 {
      UpToOnce(cfg.maxTargets, s);
      assert (ma + mb)[s] == ma[s] + mb[s];
    }
    forall s | s in a ensures multiset(a)[s] == 1 {
      assert s in ma;
    }
    forall s | s in b ensures multiset(b)[s] == 1 {
      assert s in mb;
    }
    OnceIsDistinct(a);
    OnceIsDistinct(b);
    assert |ma| + |mb| == |ma + mb|;
    forall s: nat ensures (s in a <==> ma[s] > 0) && (s in b <==> mb[s] > 0) {
      assert s in a <==> s in ma;
      assert s in b <==> s in mb;
    }
  }

  // ---------------------------------------------------------------- stages 1 to 4

  /** The same target one frame later, its filter untouched. */
  ghost predicate OneFrameOn(cfg: Config, t: Target, t': Target) {
    && t'.id == t.id && t'.slot == t.slot && t'.needsInit == t.needsInit && t'.age == t.age + 1
    && (t.state != Tentative ==> t'.state != Tentative)
    && (Seasoned(cfg, t) ==> Seasoned(cfg, t'))
  }

  lemma TargetStep(cfg: Config, t: Target, f: Frame, i: nat, matched: bool)
    ensures var p := if f.visual then Localized(Aged(t), f.looks(i)) else Aged(t);
            OneFrameOn(cfg, t, if matched then Matched(cfg, p) else Missed(cfg, p))
  {
  }

  lemma MeasuredStep(cfg: Config, tr: Tracker, f: Frame, ms: seq<Match>, i: nat)
    requires i < |tr.targets|
    ensures OneFrameOn(cfg, tr.targets[i], Measured(cfg, Predicted(tr.targets, f), ms)[i])
  {
    TargetStep(cfg, tr.targets[i], f, i, HasTarget(ms, i));
    hide OneFrameOn, HasTarget, Matched, Missed;
  }

  lemma MeasuredSound(cfg: Config, tr: Tracker, tr': Tracker)
    requires Sound(cfg, tr) && |tr'.targets| == |tr.targets|
    requires forall i :: 0 <= i < |tr.targets| ==> OneFrameOn(cfg, tr.targets[i], tr'.targets[i])
    requires tr' == tr.(targets := tr'.targets, bridged := tr'.bridged)
    ensures Sound(cfg, tr')
  {
    assert SlotsOf(tr'.targets) == SlotsOf(tr.targets);
    hide Seasoned;
  }

  // ---------------------------------------------------------------- stage 5

  lemma CreateSlots(cfg: Config, tr: Tracker)
    requires SlotsShared(cfg, tr) && tr.free != []
    ensures SlotsShared(cfg, Create(tr))
  {
    var tr' := Create(tr);
    var one: multiset<nat> := multiset{tr.free[0]};
    assert SlotsOf(tr'.targets) == SlotsOf(tr.targets) + [tr.free[0]];
    assert multiset(SlotsOf(tr'.targets)) == multiset(SlotsOf(tr.targets)) + one;
    assert tr.free == [tr.free[0]] + tr.free[1..];
    assert multiset(tr.free) == one + multiset(tr'.free);
    assert multiset(SlotsOf(tr'.targets)) + multiset(tr'.free) == multiset(SlotsOf(tr.targets)) + (one + multiset(tr'.free));
  }

  lemma CreateSound(cfg: Config, tr: Tracker)
    requires Sound(cfg, tr) && tr.free != []
    ensures Sound(cfg, Create(tr))
  {
    CreateSlots(cfg, tr);
    hide SlotsShared;
  }

  /** The old targets stay in front, what follows is newly made under new ids. */
  ghost predicate OnlyNew(tr: Tracker, r: Tracker) {
    && tr.targets <= r.targets && r.bridged == tr.bridged && tr.nextId <= r.nextId
    && (forall i :: |tr.targets| <= i < |r.targets| ==>
          r.targets[i] == NewTarget(r.targets[i].id, r.targets[i].slot) && tr.nextId <= r.targets[i].id)
  }

  lemma {:induction false} CreatedSound(cfg: Config, f: Frame, tr: Tracker, ms: seq<Match>, k: nat)
    requires Sound(cfg, tr)
    ensures Sound(cfg, Created(f, tr, ms, k)) && OnlyNew(tr, Created(f, tr, ms, k))
  {
    if k > 0 {
      CreatedSound(cfg, f, tr, ms, k - 1);
      var t := Created(f, tr, ms, k - 1);
      hide Sound, HasDet, Create, OnlyNew;
      if Created(f, tr, ms, k) != t {
        CreateSound(cfg, t);
        CreateNew(tr, t);
      }
    }
  }

  lemma CreateNew(tr: Tracker, t: Tracker)
    requires OnlyNew(tr, t) && t.free != []
    ensures OnlyNew(tr, Create(t))
  {
  }

  // ---------------------------------------------------------------- stage 6

  /** Those among the first `k` targets that live on. */
  ghost predicate Survivors(cfg: Config, tr: Tracker, r: Tracker, k: nat)
    requires k <= |tr.targets|
  {
    && (forall t :: t in r.targets <==> t in tr.targets[..k] && !Dead(cfg, t))
    && IdsRising(r.targets, if k < |tr.targets| then tr.targets[k].id else tr.nextId)
    && SlotsMoved(tr, r, k)
    && r.created == tr.created && r.nextId == tr.nextId && r.bridged == tr.bridged
    && r.terminated + |r.targets| == tr.terminated + k
  }

  ghost predicate SlotsMoved(tr: Tracker, r: Tracker, k: nat)
    requires k <= |tr.targets|
  {
    multiset(SlotsOf(r.targets)) + multiset(r.free) == multiset(SlotsOf(tr.targets[..k])) + multiset(tr.free)
  }

  function ReapOne(cfg: Config, r: Tracker, t: Target): Tracker {
    if Dead(cfg, t)
    then r.(free := r.free + [t.slot], terminated := r.terminated + 1, owners := r.owners - {t.slot})
    else r.(targets := r.targets + [t])
  }

  lemma BothMore(a: multiset<nat>, b: multiset<nat>, c: multiset<nat>, d: multiset<nat>, one: multiset<nat>)
    requires a + b == c + d
    ensures (a + one) + b == (c + one) + d && a + (b + one) == (c + one) + d
  {
    assert a + (b + one) == (a + b) + one;
    assert (a + one) + b == (a + b) + one;
    assert (c + one) + d == (c + d) + one;
  }

  lemma MoveOne(cfg: Config, tr: Tracker, r0: Tracker, k: nat)
    requires k < |tr.targets| && SlotsMoved(tr, r0, k)
    ensures SlotsMoved(tr, ReapOne(cfg, r0, tr.targets[k]), k + 1)
  {
    var t := tr.targets[k];
    assert tr.targets[..k + 1] == tr.targets[..k] + [t];
    assert SlotsOf(tr.targets[..k + 1]) == SlotsOf(tr.targets[..k]) + [t.slot];
    hide Dead;
    BothMore(multiset(SlotsOf(r0.targets)), multiset(r0.free), multiset(SlotsOf(tr.targets[..k])), multiset(tr.free),
             multiset{t.slot});
    var r := ReapOne(cfg, r0, t);
    var one: multiset<nat> := multiset{t.slot};
    assert multiset(SlotsOf(tr.targets[..k + 1])) == multiset(SlotsOf(tr.targets[..k])) + one;
    if !Dead(cfg, t) {
      assert r.targets == r0.targets + [t] && r.free == r0.free;
      assert SlotsOf(r.targets) == SlotsOf(r0.targets) + [t.slot];
      assert multiset(SlotsOf(r.targets)) == multiset(SlotsOf(r0.targets)) + one;
    } else {
      assert multiset(r.free) == multiset(r0.free) + one;
    }
  }

  lemma SurvivorsMore(cfg: Config, tr: Tracker, r0: Tracker, k: nat)
    requires k < |tr.targets| && IdsRising(tr.targets, tr.nextId) && Survivors(cfg, tr, r0, k)
    ensures Survivors(cfg, tr, ReapOne(cfg, r0, tr.targets[k]), k + 1)
  {
    var t := tr.targets[k];
    MoveOne(cfg, tr, r0, k);
    hide Dead, SlotsMoved;
    assert tr.targets[..k + 1] == tr.targets[..k] + [t];
    var next := if k + 1 < |tr.targets| then tr.targets[k + 1].id else tr.nextId;
    assert t.id < next;
    assert IdsRising(r0.targets, t.id);
    IdsMore(r0.targets, t, next);
    hide IdsRising;
  }

  lemma IdsMore(ts: seq<Target>, t: Target, next: nat)
    requires IdsRising(ts, t.id) && 1 <= t.id < next
    ensures IdsRising(ts, next) && IdsRising(ts + [t], next)
  {
  }

  lemma ReapedOne(cfg: Config, tr: Tracker, k: nat)
    requires 0 < k <= |tr.targets|
    ensures Reaped(cfg, tr, k) == ReapOne(cfg, Reaped(cfg, tr, k - 1), tr.targets[k - 1])
  {
    hide Dead;
  }

  lemma NoneReaped(cfg: Config, tr: Tracker)
    requires IdsRising(tr.targets, tr.nextId)
    ensures Survivors(cfg, tr, Reaped(cfg, tr, 0), 0)
  {
    hide Dead;
    assert SlotsOf([]) == [];
    assert tr.targets[..0] == [];
  }

  lemma {:induction false} ReapedSurvivors(cfg: Config, tr: Tracker, k: nat)
    requires k <= |tr.targets| && IdsRising(tr.targets, tr.nextId)
    ensures Survivors(cfg, tr, Reaped(cfg, tr, k), k)
  {
    hide *;
    if k == 0 {
      NoneReaped(cfg, tr);
    } else {
      ReapedSurvivors(cfg, tr, k - 1);
      ReapedOne(cfg, tr, k);
      SurvivorsMore(cfg, tr, Reaped(cfg, tr, k - 1), k - 1);
    }
  }

  /** The filters of the living are kept: no two targets share a slot. */
  lemma {:induction false} ReapedOwners(cfg: Config, tr: Tracker, k: nat, j: nat)
    requires k <= |tr.targets| && Distinct(SlotsOf(tr.targets)) && j < |tr.targets| && !Dead(cfg, tr.targets[j])
    ensures var s := tr.targets[j].slot;
            var r := Reaped(cfg, tr, k);
            (s in r.owners <==> s in tr.owners) && (s in tr.owners ==> r.owners[s] == tr.owners[s])
  {
    if k > 0 {
      ReapedOwners(cfg, tr, k - 1, j);
      assert SlotsOf(tr.targets)[k - 1] == tr.targets[k - 1].slot;
      assert SlotsOf(tr.targets)[j] == tr.targets[j].slot;
    }
  }

  lemma ReapedInv(cfg: Config, tr: Tracker)
    requires Sound(cfg, tr)
    ensures Inv(cfg, Reaped(cfg, tr, |tr.targets|))
    ensures Survivors(cfg, tr, Reaped(cfg, tr, |tr.targets|), |tr.targets|)
  {
    var n, r := |tr.targets|, Reaped(cfg, tr, |tr.targets|);
    ReapedSurvivors(cfg, tr, n);
    SlotsArePartition(cfg, tr);
    assert tr.targets[..n] == tr.targets;
    hide Reaped, Dead, Seasoned;
    forall k | 0 <= k < |r.targets|
      ensures !Dead(cfg, r.targets[k]) && Seasoned(cfg, r.targets[k])
      ensures !r.targets[k].needsInit ==> r.targets[k].slot in r.owners && r.owners[r.targets[k].slot] == r.targets[k].id
    {
      var t := r.targets[k];
      assert t in r.targets;
      var j :| 0 <= j < n && tr.targets[j] == t;
      ReapedOwners(cfg, tr, n, j);
    }
  }

  // ---------------------------------------------------------------- stage 7

  lemma {:induction false} OwnersOf(owners: map<nat, nat>, ts: seq<Target>, j: nat)
    requires Distinct(SlotsOf(ts)) && j < |ts|
    ensures var s, o := ts[j].slot, Owners(owners, ts);
            if ts[j].needsInit then s in o && o[s] == ts[j].id
            else (s in o <==> s in owners) && (s in owners ==> o[s] == owners[s])
  {
    var n := |ts| - 1;
    assert forall k :: 0 <= k < n ==> SlotsOf(ts)[k] == SlotsOf(ts[..n])[k];
    assert SlotsOf(ts)[n] == ts[n].slot && SlotsOf(ts)[j] == ts[j].slot;
    if j < n {
      OwnersOf(owners, ts[..n], j);
    } else {
      OwnersElsewhere(owners, ts[..n], ts[n].slot);
    }
  }

  lemma {:induction false} OwnersElsewhere(owners: map<nat, nat>, ts: seq<Target>, s: nat)
    requires s !in SlotsOf(ts)
    ensures var o := Owners(owners, ts); (s in o <==> s in owners) && (s in owners ==> o[s] == owners[s])
  {
    if ts != [] {
      var n := |ts| - 1;
      assert SlotsOf(ts)[n] == ts[n].slot;
      forall k | 0 <= k < n ensures SlotsOf(ts[..n])[k] != s {
        assert SlotsOf(ts)[k] == SlotsOf(ts[..n])[k];
      }
      OwnersElsewhere(owners, ts[..n], s);
    }
  }

  lemma TaughtInv(cfg: Config, tr: Tracker, f: Frame)
    requires Inv(cfg, tr)
    ensures Inv(cfg, Taught(tr, f))
  {
    if f.visual {
      var tr' := Taught(tr, f);
      SlotsArePartition(cfg, tr);
      assert SlotsOf(tr'.targets) == SlotsOf(tr.targets);
      hide Owners, Distinct;
      forall k | 0 <= k < |tr'.targets|
        ensures !tr'.targets[k].needsInit ==>
                  tr'.targets[k].slot in tr'.owners && tr'.owners[tr'.targets[k].slot] == tr'.targets[k].id
      {
        OwnersOf(tr.owners, tr.targets, k);
      }
    }
  }

  lemma MeasurementSound(cfg: Config, tr: Tracker, f: Frame)
    requires Sound(cfg, tr)
    ensures var r := AfterMeasurement(cfg, tr, f);
            Sound(cfg, r) && |r.targets| == |tr.targets| && r.nextId == tr.nextId &&
            forall i :: 0 <= i < |tr.targets| ==> OneFrameOn(cfg, tr.targets[i], r.targets[i])
  {
    hide Sound, OneFrameOn, Measured, Matches, Predicted, BridgeOuts;
    var r, ms := AfterMeasurement(cfg, tr, f), Matches(cfg, tr, f);
    forall i | 0 <= i < |tr.targets| ensures OneFrameOn(cfg, tr.targets[i], r.targets[i]) {
      MeasuredStep(cfg, tr, f, ms, i);
    }
    MeasuredSound(cfg, tr, r);
  }

  /** Every frame keeps the invariant. */
  lemma UpdateKeepsInv(cfg: Config, tr: Tracker, f: Frame)
    requires Inv(cfg, tr)
    ensures Inv(cfg, Update(cfg, tr, f).tracker)
  {
    hide Sound, Dead, AfterMeasurement, Created, Reaped, Taught, Outs, Matches;
    MeasurementSound(cfg, tr, f);
    CreatedSound(cfg, f, AfterMeasurement(cfg, tr, f), Matches(cfg, tr, f), |Full(cfg, f)|);
    ReapedInv(cfg, AfterCreation(cfg, tr, f));
    TaughtInv(cfg, AfterTermination(cfg, tr, f), f);
  }
}
