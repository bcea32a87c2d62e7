/** Whatever the policy, forming a batch splits the queue of each pad: some late
    frames are closed, the frames picked are the front of what is left. */
module BatchSplit {
  import opened Shared
  import opened MuxTypes
  import opened MuxSpec

  /** Arrival order: what one producer under a monotone clock puts in a queue. */
  ghost predicate Ordered(q: seq<Queued>) {
    forall a, b :: 0 <= a < b < |q| ==> q[a].recv <= q[b].recv && q[a].seqNum < q[b].seqNum
  }

  ghost predicate OrderedQueues(m: Mux) {
    forall i :: i in m.pads ==> Ordered(m.pads[i].queue)
  }

  /** `kept` and `late` are a queue split in two, both parts in queue order. */
  ghost predicate Thinned(q: seq<Queued>, kept: seq<Queued>, late: seq<Queued>) {
    if q == [] then kept == [] && late == []
    else
      || (kept != [] && kept[0] == q[0] && Thinned(q[1..], kept[1..], late))
      || (late != [] && late[0] == q[0] && Thinned(q[1..], kept, late[1..]))
  }

  lemma {:induction false} ThinnedNothing(q: seq<Queued>)
    ensures Thinned(q, q, [])
  {
    if q != [] {
      ThinnedNothing(q[1..]);
    }
  }

  lemma {:induction false} ThinnedMultiset(q: seq<Queued>, kept: seq<Queued>, late: seq<Queued>)
    requires Thinned(q, kept, late)
    ensures multiset(q) == multiset(kept) + multiset(late)
  {
    if q != [] {
      assert q == [q[0]] + q[1..];
      if kept != [] && kept[0] == q[0] && Thinned(q[1..], kept[1..], late) {
        assert kept == [kept[0]] + kept[1..];
        ThinnedMultiset(q[1..], kept[1..], late);
      } else {
        assert late == [late[0]] + late[1..];
        ThinnedMultiset(q[1..], kept, late[1..]);
      }
    }
  }

  lemma {:induction false} ThinnedAll(q: seq<Queued>, kept: seq<Queued>)
    requires Thinned(q, kept, [])
    ensures q == kept
  {
    if q != [] {
      ThinnedAll(q[1..], kept[1..]);
      assert kept == [kept[0]] + kept[1..] && q == [q[0]] + q[1..];
    }
  }

  lemma {:induction false} ThinnedMembers(q: seq<Queued>, kept: seq<Queued>, late: seq<Queued>)
    requires Thinned(q, kept, late)
    ensures forall x :: x in kept ==> x in q
  {
    ThinnedMultiset(q, kept, late);
    forall x | x in kept ensures x in q {
      assert x in multiset(kept);
      assert x in multiset(q);
    }
  }

  lemma {:induction false} ThinnedOrdered(q: seq<Queued>, kept: seq<Queued>, late: seq<Queued>)
    requires Thinned(q, kept, late) && Ordered(q)
    ensures Ordered(kept)
  {
    if q != [] {
      assert Ordered(q[1..]);
      if kept != [] && kept[0] == q[0] && Thinned(q[1..], kept[1..], late) {
        ThinnedOrdered(q[1..], kept[1..], late);
        ThinnedMembers(q[1..], kept[1..], late);
        assert forall k :: 0 < k < |kept| ==> kept[k] == kept[1..][k - 1] && kept[1..][k - 1] in q[1..];
      } else {
        ThinnedOrdered(q[1..], kept, late[1..]);
      }
    }
  }

  /** What happens to one pad: late frames go, the picks are the front of the rest. */
  ghost predicate Split(sync: bool, p: Pad, p': Pad, late: seq<Queued>, taken: seq<Queued>) {
    && Thinned(p.queue, p'.queue, late)
    && p' == p.(queue := p'.queue, dropped := p.dropped + |late|)
    && taken <= p'.queue
    && (!sync ==> late == [])
  }

  ghost predicate Untouched(p: Pad, p': Pad, late: seq<Queued>, taken: seq<Queued>) {
    p' == p && late == [] && taken == []
  }

  ghost predicate SplitAt(m: Mux, f: Forming, i: int)
    requires i in m.pads && i in f.pads
  {
    Split(m.cfg.syncInputs, m.pads[i], f.pads[i], On(f.late, i), On(f.picks, i))
  }

  ghost predicate UntouchedAt(m: Mux, f: Forming, i: int)
    requires i in m.pads && i in f.pads
  {
    Untouched(m.pads[i], f.pads[i], On(f.late, i), On(f.picks, i))
  }

  ghost predicate AllSplit(m: Mux, f: Forming) {
    && f.pads.Keys == m.pads.Keys
    && (forall i :: i in m.pads ==> SplitAt(m, f, i))
  }

  // ---------------------------------------------------------------- tagged sequences

  lemma {:induction false} OnTagged(i: int, q: seq<Queued>, j: int)
    ensures On(Tagged(i, q), j) == if i == j then q else []
  {
    if q != [] {
      var n := |q| - 1;
      assert Tagged(i, q)[..n] == Tagged(i, q[..n]);
      OnTagged(i, q[..n], j);
      assert q == q[..n] + [q[n]];
    }
  }

  /** Appending frames of pad `i` shows on pad `i` only. */
  lemma OnMore(s: seq<Pick>, i: int, q: seq<Queued>, j: int)
    ensures On(s + Tagged(i, q), j) == if i == j then On(s, j) + q else On(s, j)
  {
    OnAppend(s, Tagged(i, q), j);
    OnTagged(i, q, j);
  }

  // ---------------------------------------------------------------- sync filter

  lemma {:induction false} SyncScanThins(q: seq<Queued>, avail: int, seg: int, cur: int, minDur: int, maxLatency: int)
    ensures Thinned(q, SyncScan(q, avail, seg, cur, minDur, maxLatency).kept,
                       SyncScan(q, avail, seg, cur, minDur, maxLatency).late)
  {
    if q != [] && avail > 0 && q[0].pts - seg <= cur - minDur {
      SyncScanThins(q[1..], avail - 1, seg, cur, minDur, maxLatency);
    } else {
      ThinnedNothing(q);
    }
  }

  lemma SyncFilterThins(m: Mux, p: Pad, avail: int, now: int)
    ensures Thinned(p.queue, SyncFilter(m, p, avail, now).kept, SyncFilter(m, p, avail, now).late)
  {
    if m.RunningTime(now) < m.cfg.MinFpsDurOrZero() {
      ThinnedNothing(p.queue);
    } else {
      SyncScanThins(p.queue, avail, -p.RunningTime(0), m.RunningTime(now), m.cfg.MinFpsDurOrZero(), m.cfg.maxLatency);
    }
  }

  // ---------------------------------------------------------------- one visit

  /** A step of batch formation that concerns pad `i` alone. */
  ghost predicate VisitsOnly(sync: bool, i: int, a: Forming, b: Forming, late: seq<Queued>, taken: seq<Queued>) {
    && a.pads.Keys == b.pads.Keys && i in a.pads
    && b.late == a.late + Tagged(i, late)
    && b.picks == a.picks + Tagged(i, taken)
    && Split(sync, a.pads[i], b.pads[i], late, taken)
    && (forall j :: j in a.pads && j != i ==> b.pads[j] == a.pads[j])
  }

  /** Screening pad `i` and taking the first `k` frames left concerns pad `i` alone. */
  lemma TakingIsOnly(sync: bool, f: Forming, g: Forming, i: int, s: Screened, k: nat)
    requires i in f.pads && k <= |s.kept| && Thinned(f.pads[i].queue, s.kept, s.late) && (!sync ==> s.late == [])
    requires g.pads == f.pads[i := Thin(f.pads[i], s)] && g.late == f.late + Tagged(i, s.late)
    requires g.picks == f.picks + Tagged(i, s.kept[..k])
    ensures VisitsOnly(sync, i, f, g, s.late, s.kept[..k])
  {
    hide Thinned, Tagged;
  }

  lemma VisitIsOnly(m: Mux, f: Forming, i: int, now: int, bs: int) returns (late: seq<Queued>, taken: seq<Queued>)
    requires i in f.pads && PicksIn(f.pads, f.picks)
    ensures VisitsOnly(m.cfg.syncInputs, i, f, Visit(m, f, i, now, bs), late, taken)
  {
    var p := f.pads[i];
    late, taken := [], [];
    if p.Done() {
      DoneIsOnly(m.cfg.syncInputs, f, i);
    } else {
      var s := Screen(m, p, now);
      var n := Min(Min(s.onTime, AllowedRepeats(m.cfg, p, bs)), bs - |f.picks|);
      var k := Max(0, Min(n, |s.kept|));
      ScreenThins(m, p, now);
      hide Screen, Thinned, Tagged, AllowedRepeats, VisitsOnly;
      TakingIsOnly(m.cfg.syncInputs, f, Visit(m, f, i, now, bs), i, s, k);
      late, taken := s.late, s.kept[..k];
    }
  }

  lemma DoneIsOnly(sync: bool, f: Forming, i: int)
    requires i in f.pads
    ensures VisitsOnly(sync, i, f, f, [], [])
  {
    ThinnedNothing(f.pads[i].queue);
    assert Tagged(i, []) == [];
  }

  lemma ScreenThins(m: Mux, p: Pad, now: int)
    ensures var s := Screen(m, p, now); Thinned(p.queue, s.kept, s.late) && (!m.cfg.syncInputs ==> s.late == [])
  {
    var avail := if m.cfg.rateControl && p.lastPush.Some?
                 then Min(|p.queue|, RateAllowance(p, now)) else |p.queue|;
    SyncFilterThins(m, p, avail, now);
    ThinnedNothing(p.queue);
    hide SyncFilter, RateAllowance, Thinned;
  }

  lemma VisitLiveIsOnly(m: Mux, f: Forming, i: int, now: int) returns (late: seq<Queued>, taken: seq<Queued>)
    requires i in f.pads && PicksIn(f.pads, f.picks)
    ensures VisitsOnly(m.cfg.syncInputs, i, f, VisitLive(m, f, i, now), late, taken)
  {
    var p := f.pads[i];
    var s := if m.cfg.syncInputs then SyncFilter(m, p, |p.queue|, now) else Screened(p.queue, [], |p.queue|);
    SyncFilterThins(m, p, |p.queue|, now);
    ThinnedNothing(p.queue);
    var k := if s.onTime != 0 && s.kept != [] && |f.picks| < m.cfg.batchSize then 1 else 0;
    assert Tagged(i, s.kept[..0]) == [];
    hide SyncFilter, Thinned, Tagged, VisitsOnly;
    TakingIsOnly(m.cfg.syncInputs, f, VisitLive(m, f, i, now), i, s, k);
    late, taken := s.late, s.kept[..k];
  }

  /** A visit of an untouched pad splits it and leaves the others as they were. */
  lemma VisitSplits(m: Mux, f: Forming, g: Forming, i: int, late: seq<Queued>, taken: seq<Queued>)
    requires AllSplit(m, f) && i in m.pads && UntouchedAt(m, f, i)
    requires VisitsOnly(m.cfg.syncInputs, i, f, g, late, taken)
    ensures AllSplit(m, g)
    ensures forall j :: j in m.pads && j != i && UntouchedAt(m, f, j) ==> UntouchedAt(m, g, j)
  {
    forall j | j in m.pads
      ensures On(g.late, j) == if i == j then late else On(f.late, j)
      ensures On(g.picks, j) == if i == j then taken else On(f.picks, j)
    {
      OnMore(f.late, i, late, j);
      OnMore(f.picks, i, taken, j);
    }
    forall j | j in m.pads ensures SplitAt(m, g, j) {
      assert SplitAt(m, f, j);
    }
  }

  lemma NothingYet(m: Mux)
    ensures AllSplit(m, Blank(m))
    ensures forall i :: i in m.pads ==> UntouchedAt(m, Blank(m), i)
  {
    forall i | i in m.pads ensures SplitAt(m, Blank(m), i) {
      ThinnedNothing(m.pads[i].queue);
    }
  }

  // ---------------------------------------------------------------- whole batches

  ghost predicate Distinct(ids: seq<int>) {
    forall a, b :: 0 <= a < b < |ids| ==> ids[a] != ids[b]
  }

  lemma {:induction false} FormLiveSplits(m: Mux, ids: seq<int>, now: int)
    requires AllIn(ids, m.pads) && Distinct(ids)
    ensures AllSplit(m, FormLive(m, ids, now))
    ensures forall i :: i in m.pads && i !in ids ==> UntouchedAt(m, FormLive(m, ids, now), i)
  {
    NothingYet(m);
    if ids != [] {
      var n := |ids| - 1;
      FormLiveSplits(m, ids[..n], now);
      assert ids == ids[..n] + [ids[n]];
      var f := FormLive(m, ids[..n], now);
      var late, taken := VisitLiveIsOnly(m, f, ids[n], now);
      VisitSplits(m, f, VisitLive(m, f, ids[n], now), ids[n], late, taken);
    }
  }

  /** Moving the cursor changes no pad. */
  lemma CursorSplits(m: Mux, f: Forming, g: Forming)
    requires AllSplit(m, f) && g.pads == f.pads && g.late == f.late && g.picks == f.picks
    ensures AllSplit(m, g)
  {
    forall i | i in m.pads ensures SplitAt(m, g, i) {
      assert SplitAt(m, f, i);
    }
  }

  /** A round that visits no pad twice. */
  ghost predicate VisitsOnce(entries: seq<Entry>) {
    forall a, b :: 0 <= a < b < |entries| ==> entries[a].pad != entries[b].pad
  }

  lemma {:induction false} FillSplits(m: Mux, f: Forming, entries: seq<Entry>, now: int, bs: int)
    requires AllSplit(m, f) && PicksIn(f.pads, f.picks) && EntriesIn(entries, m.pads) && VisitsOnce(entries)
    requires forall k :: 0 <= k < |entries| ==> UntouchedAt(m, f, entries[k].pad)
    ensures EntriesIn(entries, f.pads) && AllSplit(m, Fill(m, f, entries, now, bs))
    decreases |entries|
  {
    hide SplitAt, UntouchedAt;
    assert EntriesIn(entries, f.pads);
    if entries != [] {
      var i := entries[0].pad;
      var g := Visit(m, f, i, now, bs);
      var late, taken := VisitIsOnly(m, f, i, now, bs);
      VisitSplits(m, f, g, i, late, taken);
      if |g.picks| < bs {
        FillSplits(m, g, entries[1..], now, bs);
      } else {
        CursorSplits(m, g, g.(rrPriority := entries[0].nextPriority, rrSource := entries[0].nextSource));
      }
    }
  }

  ghost predicate Disjoint(groups: seq<seq<int>>) {
    forall a, b, i :: 0 <= a < b < |groups| && i in groups[a] ==> i !in groups[b]
  }

  // ---------------------------------------------------------------- priority groups

  ghost predicate Increasing(s: seq<int>) {
    forall a, b :: 0 <= a < b < |s| ==> s[a] < s[b]
  }

  lemma {:induction false} InsertPriorityIncreases(s: seq<int>, x: int)
    requires Increasing(s)
    ensures Increasing(InsertPriority(s, x))
    ensures forall y :: y in InsertPriority(s, x) <==> y in s || y == x
  {
    if s != [] {
      assert s == [s[0]] + s[1..];
      if x > s[0] {
        InsertPriorityIncreases(s[1..], x);
        var r := InsertPriority(s[1..], x);
        forall k | 0 <= k < |r| ensures s[0] < r[k] {
          assert r[k] in r;
        }
      }
    }
  }

  lemma {:induction false} PrioritiesSorted(pads: map<int, Pad>, ids: seq<int>)
    requires AllIn(ids, pads)
    ensures Increasing(Priorities(pads, ids))
    ensures forall y :: y in Priorities(pads, ids) <==> exists k :: 0 <= k < |ids| && pads[ids[k]].cfg.priority == y
  {
    if ids != [] {
      var n := |ids| - 1;
      PrioritiesSorted(pads, ids[..n]);
      InsertPriorityIncreases(Priorities(pads, ids[..n]), pads[ids[n]].cfg.priority);
      forall y
        ensures y in Priorities(pads, ids) <==> exists k :: 0 <= k < |ids| && pads[ids[k]].cfg.priority == y
      {
        if k :| 0 <= k < n && pads[ids[..n][k]].cfg.priority == y {
          assert pads[ids[k]].cfg.priority == y;
        }
        if k :| 0 <= k < |ids| && pads[ids[k]].cfg.priority == y {
          assert k < n ==> pads[ids[..n][k]].cfg.priority == y;
        }
      }
    }
  }

  lemma {:induction false} GroupDistinct(pads: map<int, Pad>, ids: seq<int>, priority: int)
    requires AllIn(ids, pads) && Distinct(ids)
    ensures Distinct(Group(pads, ids, priority))
    ensures forall i :: i in Group(pads, ids, priority) <==> i in ids && i in pads && pads[i].cfg.priority == priority
  {
    if ids != [] {
      var n := |ids| - 1;
      GroupDistinct(pads, ids[..n], priority);
      assert ids == ids[..n] + [ids[n]];
      assert forall i :: i in Group(pads, ids[..n], priority) ==> i in ids[..n] && i != ids[n];
    }
  }

  /** The priority groups are a partition of the pads. */
  lemma GroupsPartition(m: Mux)
    requires m.WellFormed()
    ensures Disjoint(Groups(m))
    ensures forall g :: 0 <= g < |Groups(m)| ==> Distinct(Groups(m)[g]) && Groups(m)[g] != []
    ensures forall i :: i in m.pads ==> exists g :: 0 <= g < |Groups(m)| && i in Groups(m)[g]
  {
    var ps := Priorities(m.pads, m.order);
    PrioritiesSorted(m.pads, m.order);
    forall g | 0 <= g < |ps| ensures Distinct(Groups(m)[g]) && Groups(m)[g] != [] {
      GroupDistinct(m.pads, m.order, ps[g]);
      assert ps[g] in ps;
      var k :| 0 <= k < |m.order| && m.pads[m.order[k]].cfg.priority == ps[g];
      assert m.order[k] in Group(m.pads, m.order, ps[g]);
    }
    forall a, b, i | 0 <= a < b < |ps| && i in Groups(m)[a] ensures i !in Groups(m)[b] {
      GroupDistinct(m.pads, m.order, ps[a]);
      GroupDistinct(m.pads, m.order, ps[b]);
    }
    forall i | i in m.pads ensures exists g :: 0 <= g < |ps| && i in Groups(m)[g] {
      var k :| 0 <= k < |m.order| && m.order[k] == i;
      assert m.pads[m.order[k]].cfg.priority in ps;
      var g :| 0 <= g < |ps| && ps[g] == m.pads[i].cfg.priority;
      GroupDistinct(m.pads, m.order, ps[g]);
      assert i in Groups(m)[g];
    }
  }

  lemma GroupEntriesOnce(srcs: seq<int>, start: nat, pos: nat)
    requires Distinct(srcs) && (srcs != [] ==> start < |srcs|)
    ensures VisitsOnce(GroupEntries(srcs, start, pos))
    ensures forall k :: 0 <= k < |srcs| ==> GroupEntries(srcs, start, pos)[k].pad in srcs
  {
  }

  /** The pad of every entry belongs to one of the groups from number `gi` on. */
  ghost predicate FromGroups(entries: seq<Entry>, groups: seq<seq<int>>, pStart: nat, gi: nat)
    requires pStart < |groups|
  {
    forall k :: 0 <= k < |entries| ==> InLaterGroup(entries[k].pad, groups, pStart, gi)
  }

  ghost predicate InLaterGroup(i: int, groups: seq<seq<int>>, pStart: nat, gi: nat)
    requires pStart < |groups|
  {
    exists g :: gi <= g < |groups| && i in groups[Turn(pStart, g, |groups|)]
  }

  /** Two parts of a round without a common pad. */
  lemma OnceTogether(here: seq<Entry>, rest: seq<Entry>)
    requires VisitsOnce(here) && VisitsOnce(rest)
    requires forall a, b :: 0 <= a < |here| && 0 <= b < |rest| ==> here[a].pad != rest[b].pad
    ensures VisitsOnce(here + rest)
  {
  }

  /** The pads of a group do not come up in the later ones. */
  lemma GroupApart(groups: seq<seq<int>>, pStart: nat, gi: nat, i: int)
    requires Disjoint(groups) && gi < |groups| && pStart < |groups| && i in groups[Turn(pStart, gi, |groups|)]
    ensures !InLaterGroup(i, groups, pStart, gi + 1)
  {
    forall g | gi + 1 <= g < |groups| ensures i !in groups[Turn(pStart, g, |groups|)] {
      var a, b := Turn(pStart, gi, |groups|), Turn(pStart, g, |groups|);
      assert a != b;
    }
  }

  lemma LaterGroups(entries: seq<Entry>, groups: seq<seq<int>>, pStart: nat, gi: nat)
    requires pStart < |groups| && FromGroups(entries, groups, pStart, gi + 1)
    ensures FromGroups(entries, groups, pStart, gi)
  {
    forall k | 0 <= k < |entries| ensures InLaterGroup(entries[k].pad, groups, pStart, gi) {
      assert InLaterGroup(entries[k].pad, groups, pStart, gi + 1);
      var g :| gi + 1 <= g < |groups| && entries[k].pad in groups[Turn(pStart, g, |groups|)];
      assert entries[k].pad in groups[Turn(pStart, g, |groups|)];
    }
  }

  lemma ThisGroup(groups: seq<seq<int>>, pStart: nat, start: nat, gi: nat, pos: nat)
    requires gi < |groups| && pStart < |groups| && pos == Turn(pStart, gi, |groups|)
    requires Distinct(groups[pos]) && (groups[pos] != [] ==> start < |groups[pos]|)
    ensures VisitsOnce(GroupEntries(groups[pos], start, pos))
    ensures FromGroups(GroupEntries(groups[pos], start, pos), groups, pStart, gi)
    ensures forall k :: 0 <= k < |groups[pos]| ==> GroupEntries(groups[pos], start, pos)[k].pad in groups[pos]
  {
    GroupEntriesOnce(groups[pos], start, pos);
    var here := GroupEntries(groups[pos], start, pos);
    hide GroupEntries;
    forall k | 0 <= k < |here| ensures InLaterGroup(here[k].pad, groups, pStart, gi) {
      assert here[k].pad in groups[Turn(pStart, gi, |groups|)];
    }
  }

  lemma FromBoth(here: seq<Entry>, rest: seq<Entry>, groups: seq<seq<int>>, pStart: nat, gi: nat)
    requires pStart < |groups| && FromGroups(here, groups, pStart, gi) && FromGroups(rest, groups, pStart, gi)
    ensures FromGroups(here + rest, groups, pStart, gi)
  {
    hide InLaterGroup;
  }

  /** The pads of the groups from number `gi` on come up once each. */
  lemma {:induction false} RoundEntriesOnce(groups: seq<seq<int>>, pStart: nat, start: nat, gi: nat)
    requires Disjoint(groups) && (forall g :: 0 <= g < |groups| ==> Distinct(groups[g]))
    requires pStart < |groups| && (groups[pStart] != [] ==> start < |groups[pStart]|)
    ensures VisitsOnce(RoundEntries(groups, pStart, start, gi))
    ensures FromGroups(RoundEntries(groups, pStart, start, gi), groups, pStart, gi)
    decreases |groups| - gi
  {
    if gi < |groups| {
      var pos := Turn(pStart, gi, |groups|);
      var s := if gi == 0 then start else 0;
      var here := GroupEntries(groups[pos], s, pos);
      var rest := RoundEntries(groups, pStart, start, gi + 1);
      ThisGroup(groups, pStart, s, gi, pos);
      RoundEntriesOnce(groups, pStart, start, gi + 1);
      hide GroupEntries, InLaterGroup, Distinct, Disjoint, VisitsOnce;
      forall a, b | 0 <= a < |here| && 0 <= b < |rest| ensures here[a].pad != rest[b].pad {
        assert here[a].pad in groups[pos];
        GroupApart(groups, pStart, gi, here[a].pad);
      }
      OnceTogether(here, rest);
      LaterGroups(rest, groups, pStart, gi);
      FromBoth(here, rest, groups, pStart, gi);
    }
  }

  lemma RoundOnce(m: Mux)
    requires m.WellFormed()
    ensures VisitsOnce(Round(m))
  {
    GroupsPartition(m);
    var groups := Groups(m);
    if groups != [] {
      var pStart := if m.cfg.roundRobin then Remainder(m.rrPriority, |groups|) else 0;
      var first := groups[pStart];
      var start := if m.cfg.roundRobin && first != [] then Remainder(m.rrSource, |first|) else 0;
      RoundEntriesOnce(groups, pStart, start, 0);
    }
  }

  lemma FormNewSplits(m: Mux, now: int)
    requires m.WellFormed()
    ensures AllSplit(m, FormNew(m, now))
  {
    NothingYet(m);
    RoundOnce(m);
    var bs := NewBatchSize(m);
    if !(m.pads == map[] || bs <= 0) {
      FillSplits(m, Blank(m), Round(m), now, bs);
      CursorSplits(m, Fill(m, Blank(m), Round(m), now, bs), FormNew(m, now));
    }
  }
}
