/** The order of a round: groups by priority from the carried group on, and in each the
    pads in pad order, in the first group from the carried place on. */
module MuxRound {
  import opened Shared
  import opened MuxTypes
  import opened MuxSpec
  import opened BatchSplit
  import opened MuxFairness

  /** Where the round starts: at the carried places, cut to what there is now, or at the front. */
  function StartGroup(m: Mux, n: nat): nat
    requires n > 0
  {
    if m.cfg.roundRobin then m.rrPriority % n else 0
  }

  function StartPlace(m: Mux, d: nat, size: nat): nat
    requires size > 0
  {
    if d == 0 && m.cfg.roundRobin then m.rrSource % size else 0
  }

  /** Place `k` places on from `start` in a ring of `n`. */
  function OnRing(start: nat, k: nat, n: nat): nat
    requires n > 0
  {
    (start + k) % n
  }

  /** Entry `e` is place `o` of the group that is `d` groups on. */
  ghost predicate StandsAt(m: Mux, e: Entry, d: nat, o: nat)
    requires AllIn(m.order, m.pads)
  {
    var groups := Groups(m);
    && d < |groups|
    && var g := OnRing(StartGroup(m, |groups|), d, |groups|);
       && o < |groups[g]|
       && var place := OnRing(StartPlace(m, d, |groups[g]|), o, |groups[g]|);
          e == Entry(groups[g][place], g, (place + 1) % |groups[g]|)
  }

  ghost predicate Lexicographic(keys: seq<(nat, nat)>) {
    forall a, b :: 0 <= a < b < |keys| ==> keys[a].0 < keys[b].0 || (keys[a].0 == keys[b].0 && keys[a].1 < keys[b].1)
  }

  lemma TurnOnRing(start: nat, k: nat, n: nat)
    requires start < n && k < n
    ensures Turn(start, k, n) == OnRing(start, k, n) && After(start, k, n) == (OnRing(start, k, n) + 1) % n
  {
    TurnIsRemainder(start, k, n);
    var t := Turn(start, k, n);
    if t + 1 == n {
      assert n % n == 0;
    } else {
      assert (t + 1) % n == t + 1;
    }
  }

  /** The round from group number `gi` on, with the keys of its entries. */
  lemma {:induction false} RoundKeys(m: Mux, groups: seq<seq<int>>, pStart: nat, start: nat, gi: nat) returns (keys: seq<(nat, nat)>)
    requires AllIn(m.order, m.pads) && groups == Groups(m) && groups != [] && pStart == StartGroup(m, |groups|)
    requires (forall g :: 0 <= g < |groups| ==> groups[g] != []) && pStart < |groups|
    requires start == (if m.cfg.roundRobin then m.rrSource % |groups[pStart]| else 0) && start < |groups[pStart]|
    ensures |keys| == |RoundEntries(groups, pStart, start, gi)| && Lexicographic(keys)
    ensures forall k :: 0 <= k < |keys| ==> keys[k].0 >= gi
    ensures forall k :: 0 <= k < |keys| ==> StandsAt(m, RoundEntries(groups, pStart, start, gi)[k], keys[k].0, keys[k].1)
    decreases |groups| - gi
  {
    keys := [];
    if gi < |groups| {
      var pos := Turn(pStart, gi, |groups|);
      var s := if gi == 0 then start else 0;
      var here := GroupEntries(groups[pos], s, pos);
      var rest := RoundKeys(m, groups, pStart, start, gi + 1);
      TurnOnRing(pStart, gi, |groups|);
      var size := |groups[pos]|;
      var mine := seq(size, o requires 0 <= o < size => (gi, o));
      assert RoundEntries(groups, pStart, start, gi) == here + RoundEntries(groups, pStart, start, gi + 1);
      forall o: nat | o < size ensures StandsAt(m, here[o], gi, o) {
        EntryStands(m, groups, pStart, start, gi, pos, o);
      }
      hide RoundEntries, GroupEntries, StandsAt, Groups;
      keys := mine + rest;
      KeysJoin(m, here, RoundEntries(groups, pStart, start, gi + 1), mine, rest, gi);
    }
  }

  lemma KeysJoin(m: Mux, here: seq<Entry>, there: seq<Entry>, mine: seq<(nat, nat)>, rest: seq<(nat, nat)>, gi: nat)
    requires AllIn(m.order, m.pads) && |here| == |mine| && |there| == |rest| && Lexicographic(rest)
    requires forall o: nat :: o < |mine| ==> mine[o] == (gi, o) && StandsAt(m, here[o], gi, o)
    requires forall k :: 0 <= k < |rest| ==> rest[k].0 > gi && StandsAt(m, there[k], rest[k].0, rest[k].1)
    ensures Lexicographic(mine + rest) && forall k :: 0 <= k < |mine + rest| ==> (mine + rest)[k].0 >= gi
    ensures forall k :: 0 <= k < |mine + rest| ==> StandsAt(m, (here + there)[k], (mine + rest)[k].0, (mine + rest)[k].1)
  {
    hide StandsAt, AllIn;
    forall k | 0 <= k < |mine + rest| ensures StandsAt(m, (here + there)[k], (mine + rest)[k].0, (mine + rest)[k].1) {
      if k < |mine| {
        assert (here + there)[k] == here[k] && (mine + rest)[k] == (gi, k);
      } else {
        assert (here + there)[k] == there[k - |mine|] && (mine + rest)[k] == rest[k - |mine|];
      }
    }
  }

  lemma EntryStands(m: Mux, groups: seq<seq<int>>, pStart: nat, start: nat, gi: nat, pos: nat, o: nat)
    requires AllIn(m.order, m.pads) && groups == Groups(m) && groups != [] && pStart == StartGroup(m, |groups|) < |groups|
    requires gi < |groups| && pos == Turn(pStart, gi, |groups|) && o < |groups[pos]| && groups[pStart] != []
    requires start == (if m.cfg.roundRobin then m.rrSource % |groups[pStart]| else 0) && start < |groups[pStart]|
    ensures (if gi == 0 then start else 0) < |groups[pos]|
    ensures StandsAt(m, GroupEntries(groups[pos], if gi == 0 then start else 0, pos)[o], gi, o)
  {
    TurnOnRing(pStart, gi, |groups|);
    if gi == 0 {
      assert Turn(pStart, 0, |groups|) == pStart;
    }
    var s := if gi == 0 then start else 0;
    TurnOnRing(s, o, |groups[pos]|);
    assert s == StartPlace(m, gi, |groups[pos]|);
    hide Turn, After, OnRing, Groups;
  }

  /** A round in full: its entries in order of their group and their place in it, counted
      from where the round starts; each knows the place behind its own. With the groups
      disjoint, all pads in them, and none visited twice, nothing else can be a round. */
  lemma RoundInOrder(m: Mux) returns (keys: seq<(nat, nat)>)
    requires m.WellFormed()
    ensures AllIn(m.order, m.pads) && |keys| == |Round(m)| && Lexicographic(keys)
    ensures forall k :: 0 <= k < |keys| ==> StandsAt(m, Round(m)[k], keys[k].0, keys[k].1)
  {
    GroupsPartition(m);
    var groups := Groups(m);
    keys := [];
    if groups != [] {
      var pStart := if m.cfg.roundRobin then Remainder(m.rrPriority, |groups|) else 0;
      var first := groups[pStart];
      var start := if m.cfg.roundRobin && first != [] then Remainder(m.rrSource, |first|) else 0;
      hide Groups, RoundEntries, StandsAt;
      keys := RoundKeys(m, groups, pStart, start, 0);
    }
  }

  /** The groups stand in the order of their priorities, and in each the pads in pad order. */
  lemma GroupsInOrder(m: Mux)
    requires m.WellFormed()
    ensures |Groups(m)| == |Priorities(m.pads, m.order)| && Increasing(Priorities(m.pads, m.order))
    ensures forall g :: 0 <= g < |Groups(m)| ==> InPadOrder(m, Groups(m)[g])
    ensures forall g, i :: 0 <= g < |Groups(m)| ==>
              (i in Groups(m)[g] <==> i in m.pads && m.pads[i].cfg.priority == Priorities(m.pads, m.order)[g])
  {
    var ps := Priorities(m.pads, m.order);
    PrioritiesSorted(m.pads, m.order);
    forall g | 0 <= g < |ps|
      ensures InPadOrder(m, Groups(m)[g])
      ensures forall i :: i in Groups(m)[g] <==> i in m.pads && m.pads[i].cfg.priority == ps[g]
    {
      GroupDistinct(m.pads, m.order, ps[g]);
      GroupPlaces(m.pads, m.order, ps[g]);
    }
  }

  /** Further on in the list means further on in pad order. */
  ghost predicate InPadOrder(m: Mux, ids: seq<int>) {
    Subsequence(ids, m.order)
  }

  ghost predicate Subsequence(a: seq<int>, b: seq<int>) {
    if a == [] then true
    else if b == [] then false
    else (a[|a| - 1] == b[|b| - 1] && Subsequence(a[..|a| - 1], b[..|b| - 1])) || Subsequence(a, b[..|b| - 1])
  }

  lemma {:induction false} GroupPlaces(pads: map<int, Pad>, ids: seq<int>, priority: int)
    requires AllIn(ids, pads)
    ensures Subsequence(Group(pads, ids, priority), ids)
  {
    if ids != [] {
      var n := |ids| - 1;
      GroupPlaces(pads, ids[..n], priority);
      var g := Group(pads, ids[..n], priority);
      if pads[ids[n]].cfg.priority == priority {
        assert (g + [ids[n]])[..|g|] == g;
      } else {
        assert Group(pads, ids, priority) == g;
      }
    }
  }
}
