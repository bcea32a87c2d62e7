/** Tracklet stitching: a track is chained with the nearest track that starts soon
    after it ends. Tracks are numbered by their place in the order of their starts. */
module Stitch {
  import opened Shared

  datatype Point = Point(x: real, y: real)

  datatype Track = Track(first: int, last: int, fpos: Point, lpos: Point, len: int)

  /** The greatest gap, the distance to stay below, and how distances are measured. */
  datatype Rule = Rule(gapMax: int, distMax: real, dist: (Point, Point) -> real) {
    function Distance(cur: Track, b: Track): real { dist(b.fpos, cur.lpos) }

    predicate Timely(cur: Track, b: Track) { 0 < b.first - cur.last <= gapMax }

    predicate Joins(cur: Track, b: Track) { Timely(cur, b) && Distance(cur, b) < distMax }
  }

  /** The order stitching works in, on tracks that do not end before they start. */
  ghost predicate InOrder(ts: seq<Track>) {
    && (forall a, b :: 0 <= a < b < |ts| ==> ts[a].first <= ts[b].first)
    && (forall a :: 0 <= a < |ts| ==> ts[a].first <= ts[a].last)
  }

  function Extend(cur: Track, b: Track): Track {
    cur.(last := b.last, lpos := b.lpos, len := cur.len + b.len)
  }

  /** The track a chain is merged into. */
  function Merge(ts: seq<Track>, chain: seq<nat>): Track
    requires chain != [] && forall k :: 0 <= k < |chain| ==> chain[k] < |ts|
  {
    var n := |chain| - 1;
    if n == 0 then ts[chain[0]] else Extend(Merge(ts, chain[..n]), ts[chain[n]])
  }

  // ---------------------------------------------------------------- the search

  /** A track still to be had. */
  predicate Open(consumed: set<nat>, head: nat, b: nat) { b !in consumed && b != head }

  /** `best` is, among the first `k` open tracks that join `cur`, the nearest one, and
      the first of equally near ones. */
  ghost predicate Nearest(r: Rule, ts: seq<Track>, consumed: set<nat>, head: nat, cur: Track, k: nat, best: Option<nat>)
    requires k <= |ts|
  {
    match best
    case None => forall b: nat :: b < k && Open(consumed, head, b) ==> !r.Joins(cur, ts[b])
    case Some(x) =>
      && x < k && Open(consumed, head, x) && r.Joins(cur, ts[x])
      && (forall b: nat :: b < k && Open(consumed, head, b) && r.Joins(cur, ts[b]) ==>
            r.Distance(cur, ts[x]) <= r.Distance(cur, ts[b]))
      && (forall b: nat :: b < x && Open(consumed, head, b) && r.Joins(cur, ts[b]) ==>
            r.Distance(cur, ts[x]) < r.Distance(cur, ts[b]))
  }

  method FindNearest(r: Rule, ts: seq<Track>, consumed: set<nat>, head: nat, cur: Track) returns (best: Option<nat>)
    ensures Nearest(r, ts, consumed, head, cur, |ts|, best)
  {
    best := None;
    var bestD := r.distMax;
    for b := 0 to |ts|
      invariant Nearest(r, ts, consumed, head, cur, b, best)
      invariant bestD == match best case None => r.distMax case Some(x) => r.Distance(cur, ts[x])
      invariant bestD <= r.distMax
    {
      if b in consumed || b == head {
        continue;
      }
      var gap := ts[b].first - cur.last;
      if gap <= 0 || gap > r.gapMax {
        continue;
      }
      var d := r.Distance(cur, ts[b]);
      if d < bestD {
        best, bestD := Some(b), d;
      }
    }
  }

  // ---------------------------------------------------------------- chains

  function Flat(chains: seq<seq<nat>>): seq<nat> {
    if chains == [] then [] else Flat(chains[..|chains| - 1]) + chains[|chains| - 1]
  }

  ghost predicate Distinct(s: seq<nat>) {
    forall a, b :: 0 <= a < b < |s| ==> s[a] != s[b]
  }

  /** All members of the chains but their heads: what stitching marks as consumed. */
  function Consumed(chains: seq<seq<nat>>): set<nat> {
    if chains == [] then {} else Consumed(chains[..|chains| - 1]) + Joined(chains[|chains| - 1])
  }

  function Joined(chain: seq<nat>): set<nat> {
    if chain == [] then {} else set x | x in chain[1..]
  }

  ghost predicate Numbers(chain: seq<nat>, n: nat) {
    chain != [] && forall k :: 0 <= k < |chain| ==> chain[k] < n
  }

  /** Each next member of the chain was the nearest one open at that time. */
  ghost predicate Grown(r: Rule, ts: seq<Track>, consumed: set<nat>, chain: seq<nat>) {
    && Numbers(chain, |ts|)
    && (forall i :: 0 < i < |chain| ==>
          Nearest(r, ts, consumed + Joined(chain[..i]), chain[0], Merge(ts, chain[..i]), |ts|, Some(chain[i])))
  }

  /** ... and in the end none was left to join. */
  ghost predicate Finished(r: Rule, ts: seq<Track>, consumed: set<nat>, chain: seq<nat>) {
    && Grown(r, ts, consumed, chain)
    && Nearest(r, ts, consumed + Joined(chain), chain[0], Merge(ts, chain), |ts|, None)
  }

  /** What stitching makes of the first `t` tracks and those chained to them. */
  ghost predicate Stitched(r: Rule, ts: seq<Track>, chains: seq<seq<nat>>, t: nat) {
    && (forall c :: 0 <= c < |chains| ==> Finished(r, ts, Consumed(chains[..c]), chains[c]))
    && Distinct(Flat(chains))
    && (forall p: nat :: p in Flat(chains) <==> p < t || p in Consumed(chains))
    && (forall c :: 0 <= c < |chains| ==> chains[c][0] < t)
  }

  ghost predicate IsHead(chains: seq<seq<nat>>, h: nat) {
    exists c :: 0 <= c < |chains| && chains[c] != [] && chains[c][0] == h
  }

  /** The merged tracks, under the number of the head of their chain. */
  ghost predicate MergedInto(ts: seq<Track>, chains: seq<seq<nat>>, merged: map<nat, Track>) {
    && (forall c :: 0 <= c < |chains| ==>
          && Numbers(chains[c], |ts|) && chains[c][0] in merged
          && merged[chains[c][0]] == Merge(ts, chains[c]))
    && (forall h :: h in merged ==> IsHead(chains, h))
  }

  lemma {:induction false} MergeSpan(ts: seq<Track>, chain: seq<nat>, r: Rule, consumed: set<nat>)
    requires InOrder(ts) && Grown(r, ts, consumed, chain)
    ensures Merge(ts, chain).first == ts[chain[0]].first <= Merge(ts, chain).last
    ensures Merge(ts, chain).last == ts[chain[|chain| - 1]].last && Merge(ts, chain).lpos == ts[chain[|chain| - 1]].lpos
    ensures Merge(ts, chain).fpos == ts[chain[0]].fpos
  {
    var n := |chain| - 1;
    if n > 0 {
      GrownPrefix(r, ts, consumed, chain, n);
      MergeSpan(ts, chain[..n], r, consumed);
      assert r.Joins(Merge(ts, chain[..n]), ts[chain[n]]);
    }
  }

  lemma GrownPrefix(r: Rule, ts: seq<Track>, consumed: set<nat>, chain: seq<nat>, n: nat)
    requires Grown(r, ts, consumed, chain) && 0 < n <= |chain|
    ensures Grown(r, ts, consumed, chain[..n])
  {
    forall i | 0 < i < n
      ensures Nearest(r, ts, consumed + Joined(chain[..n][..i]), chain[0], Merge(ts, chain[..n][..i]), |ts|, Some(chain[i]))
    {
      assert chain[..n][..i] == chain[..i];
    }
  }

  /** A finished head is never chosen again: it starts no later than the chain at hand. */
  lemma LaterStart(r: Rule, ts: seq<Track>, consumed: set<nat>, chain: seq<nat>, x: nat)
    requires InOrder(ts) && Grown(r, ts, consumed, chain) && x < |ts|
    requires r.Joins(Merge(ts, chain), ts[x])
    ensures chain[0] < x
  {
    MergeSpan(ts, chain, r, consumed);
  }

  lemma MergeMore(ts: seq<Track>, chain: seq<nat>, x: nat)
    requires Numbers(chain, |ts|) && x < |ts|
    ensures Numbers(chain + [x], |ts|) && Merge(ts, chain + [x]) == Extend(Merge(ts, chain), ts[x])
  {
    assert (chain + [x])[..|chain|] == chain;
  }

  lemma JoinedMore(chain: seq<nat>, x: nat)
    requires chain != []
    ensures Joined(chain + [x]) == Joined(chain) + {x}
  {
    assert (chain + [x])[1..] == chain[1..] + [x];
  }

  lemma GrownMore(r: Rule, ts: seq<Track>, consumed: set<nat>, chain: seq<nat>, x: nat)
    requires Grown(r, ts, consumed, chain)
    requires Nearest(r, ts, consumed + Joined(chain), chain[0], Merge(ts, chain), |ts|, Some(x))
    ensures Grown(r, ts, consumed, chain + [x])
    ensures Merge(ts, chain + [x]) == Extend(Merge(ts, chain), ts[x])
    ensures Joined(chain + [x]) == Joined(chain) + {x}
  {
    assert x < |ts|;
    MergeMore(ts, chain, x);
    JoinedMore(chain, x);
    var more := chain + [x];
    forall i | 0 < i < |more|
      ensures Nearest(r, ts, consumed + Joined(more[..i]), more[0], Merge(ts, more[..i]), |ts|, Some(more[i]))
    {
      LinkMore(r, ts, consumed, chain, x, i);
    }
    hide Nearest, Merge, Joined;
  }

  lemma LinkMore(r: Rule, ts: seq<Track>, consumed: set<nat>, chain: seq<nat>, x: nat, i: nat)
    requires Grown(r, ts, consumed, chain) && 0 < i <= |chain| && Numbers(chain + [x], |ts|)
    requires Nearest(r, ts, consumed + Joined(chain), chain[0], Merge(ts, chain), |ts|, Some(x))
    ensures var more := chain + [x];
            Nearest(r, ts, consumed + Joined(more[..i]), more[0], Merge(ts, more[..i]), |ts|, Some(more[i]))
  {
    hide Nearest, Merge, Joined;
    var more := chain + [x];
    if i < |chain| {
      assert more[..i] == chain[..i] && more[i] == chain[i] && more[0] == chain[0];
    } else {
      assert more[..i] == chain && more[i] == x && more[0] == chain[0];
    }
  }

  function Numbered(n: nat): (r: set<nat>)
    ensures forall k: nat :: k in r <==> k < n
  {
    if n == 0 then {} else Numbered(n - 1) + {n - 1}
  }

  /** The chain from `t` so far, and what the loop keeps of it. */
  ghost predicate ChainSoFar(r: Rule, ts: seq<Track>, before: set<nat>, t: nat, consumed: set<nat>, cur: Track, chain: seq<nat>) {
    && Grown(r, ts, before, chain) && chain[0] == t && cur == Merge(ts, chain)
    && consumed == before + Joined(chain)
    && Apart(before, t, chain)
  }

  /** No member twice, none taken before, none in front of the head. */
  ghost predicate Apart(before: set<nat>, t: nat, chain: seq<nat>) {
    Distinct(chain) && forall k :: 0 < k < |chain| ==> t < chain[k] && chain[k] !in before
  }

  lemma ApartMore(before: set<nat>, t: nat, chain: seq<nat>, x: nat)
    requires chain != [] && chain[0] == t && Apart(before, t, chain)
    requires x !in before + Joined(chain) && t < x
    ensures Apart(before, t, chain + [x])
  {
    forall k | 0 <= k < |chain| ensures chain[k] != x {
      assert k > 0 ==> chain[1..][k - 1] == chain[k];
    }
  }

  lemma ChosenJoins(r: Rule, ts: seq<Track>, consumed: set<nat>, head: nat, cur: Track, x: nat)
    requires Nearest(r, ts, consumed, head, cur, |ts|, Some(x))
    ensures x < |ts| && x !in consumed && x != head && r.Joins(cur, ts[x])
  {
  }

  lemma ChainGoesOn(r: Rule, ts: seq<Track>, before: set<nat>, t: nat, consumed: set<nat>, cur: Track, chain: seq<nat>, x: nat)
    requires InOrder(ts) && ChainSoFar(r, ts, before, t, consumed, cur, chain)
    requires Nearest(r, ts, consumed, t, cur, |ts|, Some(x))
    ensures x < |ts| && x !in consumed
    ensures ChainSoFar(r, ts, before, t, consumed + {x}, Extend(cur, ts[x]), chain + [x])
  {
    hide Grown, Merge, Apart, Joined, Nearest, InOrder, Rule.Joins;
    ChosenJoins(r, ts, consumed, t, cur, x);
    GrownNumbers(r, ts, before, chain);
    LaterStart(r, ts, before, chain, x);
    GrownMore(r, ts, before, chain, x);
    ApartMore(before, t, chain, x);
    assert before + (Joined(chain) + {x}) == consumed + {x};
  }

  /** One chain, from its head to its end. */
  method GrowChain(r: Rule, ts: seq<Track>, before: set<nat>, t: nat)
    returns (consumed: set<nat>, cur: Track, ghost chain: seq<nat>)
    requires InOrder(ts) && t < |ts| && t !in before && forall x :: x in before ==> x < |ts|
    ensures ChainSoFar(r, ts, before, t, consumed, cur, chain) && Finished(r, ts, before, chain)
    ensures forall x :: x in consumed ==> x < |ts|
  {
    consumed, cur, chain := before, ts[t], [t];
    assert before + Joined([t]) == before;
    hide Apart, Joined;
    while true
      invariant ChainSoFar(r, ts, before, t, consumed, cur, chain)
      invariant forall x :: x in consumed ==> x < |ts|
      decreases Numbered(|ts|) - consumed
    {
      var best := FindNearest(r, ts, consumed, t, cur);
      if best.None? {
        break;
      }
      var x := best.value;
      ChainGoesOn(r, ts, before, t, consumed, cur, chain, x);
      hide ChainSoFar, Nearest;
      assert x in Numbered(|ts|);
      consumed := consumed + {x};
      cur := Extend(cur, ts[x]);
      chain := chain + [x];
    }
  }

  lemma FinishedMore(r: Rule, ts: seq<Track>, chains: seq<seq<nat>>, chain: seq<nat>, c: nat)
    requires c <= |chains|
    requires forall k :: 0 <= k < |chains| ==> Finished(r, ts, Consumed(chains[..k]), chains[k])
    requires Finished(r, ts, Consumed(chains), chain)
    ensures Finished(r, ts, Consumed((chains + [chain])[..c]), (chains + [chain])[c])
  {
    hide Finished, Consumed;
    if c < |chains| {
      assert (chains + [chain])[..c] == chains[..c];
    } else {
      assert (chains + [chain])[..c] == chains;
    }
  }

  lemma InChain(chain: seq<nat>, p: nat)
    requires chain != []
    ensures p in chain <==> p == chain[0] || p in Joined(chain)
  {
    assert chain == [chain[0]] + chain[1..];
  }

  lemma DistinctMore(flat: seq<nat>, chain: seq<nat>, consumed: set<nat>, t: nat)
    requires Distinct(flat) && (forall p: nat :: p in flat <==> p < t || p in consumed)
    requires chain != [] && chain[0] == t && t !in consumed && Apart(consumed, t, chain)
    ensures Distinct(flat + chain)
    ensures forall p: nat :: p in flat + chain <==> p < t + 1 || p in consumed + Joined(chain)
  {
    forall k | 0 <= k < |chain| ensures chain[k] !in flat {
    }
    forall a, b | 0 <= a < |flat| && 0 <= b < |chain| ensures flat[a] != chain[b] {
      assert flat[a] in flat;
    }
    forall p: nat ensures p in flat + chain <==> p < t + 1 || p in consumed + Joined(chain) {
      InChain(chain, p);
    }
  }

  lemma StitchedMore(r: Rule, ts: seq<Track>, chains: seq<seq<nat>>, t: nat, chain: seq<nat>)
    requires Stitched(r, ts, chains, t) && t < |ts| && t !in Consumed(chains)
    requires Finished(r, ts, Consumed(chains), chain) && chain[0] == t && Apart(Consumed(chains), t, chain)
    ensures Stitched(r, ts, chains + [chain], t + 1)
    ensures Consumed(chains + [chain]) == Consumed(chains) + Joined(chain)
  {
    var more := chains + [chain];
    assert chain != [];
    FlatMore(chains, chain);
    ConsumedMore(chains, chain);
    DistinctMore(Flat(chains), chain, Consumed(chains), t);
    forall c | 0 <= c < |more| ensures Finished(r, ts, Consumed(more[..c]), more[c]) && more[c][0] < t + 1 {
      FinishedMore(r, ts, chains, chain, c);
    }
    hide Finished, Flat, Consumed, Distinct, Apart, Joined;
  }

  lemma FlatMore(chains: seq<seq<nat>>, chain: seq<nat>)
    ensures Flat(chains + [chain]) == Flat(chains) + chain
  {
    assert (chains + [chain])[..|chains|] == chains;
  }

  lemma ConsumedMore(chains: seq<seq<nat>>, chain: seq<nat>)
    ensures Consumed(chains + [chain]) == Consumed(chains) + Joined(chain)
  {
    assert (chains + [chain])[..|chains|] == chains;
  }

  lemma SkipConsumed(r: Rule, ts: seq<Track>, chains: seq<seq<nat>>, t: nat)
    requires Stitched(r, ts, chains, t) && t in Consumed(chains)
    ensures Stitched(r, ts, chains, t + 1)
  {
    hide Finished, Flat, Consumed, Distinct;
  }

  lemma MergedMore(r: Rule, ts: seq<Track>, chains: seq<seq<nat>>, merged: map<nat, Track>, t: nat, chain: seq<nat>)
    requires Stitched(r, ts, chains, t) && MergedInto(ts, chains, merged) && Numbers(chain, |ts|) && chain[0] == t
    ensures MergedInto(ts, chains + [chain], merged[t := Merge(ts, chain)])
  {
    var more := chains + [chain];
    hide Merge, Finished, Flat, Consumed;
    assert more[|chains|] == chain;
    forall h | h in merged[t := Merge(ts, chain)] ensures IsHead(more, h) {
      if h != t {
        assert IsHead(chains, h);
        var c :| 0 <= c < |chains| && chains[c] != [] && chains[c][0] == h;
        assert more[c] == chains[c];
      }
    }
  }

  // ---------------------------------------------------------------- what a stitched result means

  lemma {:induction false} FlatMembers(chains: seq<seq<nat>>, p: nat)
    ensures p in Flat(chains) <==> exists c :: 0 <= c < |chains| && p in chains[c]
  {
    if chains != [] {
      FlatMembers(chains[..|chains| - 1], p);
    }
  }

  /** Members of different chains are different tracks. */
  lemma {:induction false} ChainsDisjoint(chains: seq<seq<nat>>, c: nat, d: nat, p: nat)
    requires Distinct(Flat(chains)) && c < d < |chains| && p in chains[c]
    ensures p !in chains[d]
  {
    var n := |chains| - 1;
    var front, last := Flat(chains[..n]), chains[n];
    assert Flat(chains) == front + last;
    forall a, b | 0 <= a < b < |front| ensures front[a] != front[b] {
      assert (front + last)[a] != (front + last)[b];
    }
    if d < n {
      ChainsDisjoint(chains[..n], c, d, p);
    } else {
      FlatMembers(chains[..n], p);
      assert chains[..n][c] == chains[c];
      InFrontOnly(front, last, p);
    }
  }

  lemma InFrontOnly(front: seq<nat>, last: seq<nat>, p: nat)
    requires Distinct(front + last) && p in front
    ensures p !in last
  {
    var a :| 0 <= a < |front| && front[a] == p;
    assert (front + last)[a] == p;
    forall b | 0 <= b < |last| ensures last[b] != p {
      assert (front + last)[|front| + b] == last[b];
    }
  }

  lemma {:induction false} ChainDistinct(chains: seq<seq<nat>>, c: nat)
    requires Distinct(Flat(chains)) && c < |chains|
    ensures Distinct(chains[c])
  {
    var n := |chains| - 1;
    var front, last := Flat(chains[..n]), chains[n];
    assert Flat(chains) == front + last;
    if c < n {
      forall a, b | 0 <= a < b < |front| ensures front[a] != front[b] {
        assert (front + last)[a] != (front + last)[b];
      }
      ChainDistinct(chains[..n], c);
    } else {
      forall a, b | 0 <= a < b < |last| ensures last[a] != last[b] {
        assert (front + last)[|front| + a] != (front + last)[|front| + b];
      }
    }
  }

  lemma {:induction false} ConsumedMembers(chains: seq<seq<nat>>, p: nat)
    ensures p in Consumed(chains) <==> exists c :: 0 <= c < |chains| && p in Joined(chains[c])
  {
    if chains != [] {
      ConsumedMembers(chains[..|chains| - 1], p);
    }
  }

  /** A head is in no chain but its own, and there only in front. */
  lemma HeadIsNotJoined(chains: seq<seq<nat>>, c: nat, d: nat)
    requires Distinct(Flat(chains)) && c < |chains| && d < |chains| && chains[d] != []
    ensures chains[d][0] !in Joined(chains[c])
  {
    var h := chains[d][0];
    assert h in chains[d];
    if h in Joined(chains[c]) {
      assert chains[c] != [];
      InChain(chains[c], h);
      if c < d {
        ChainsDisjoint(chains, c, d, h);
      } else if d < c {
        ChainsDisjoint(chains, d, c, h);
      } else {
        ChainDistinct(chains, c);
        NotInTail(chains[c]);
      }
    }
  }

  lemma NotInTail(chain: seq<nat>)
    requires chain != [] && Distinct(chain)
    ensures chain[0] !in Joined(chain)
  {
    forall k | 0 <= k < |chain[1..]| ensures chain[1..][k] != chain[0] {
      assert chain[1..][k] == chain[k + 1];
    }
  }

  /** The members of a chain follow each other in time, each starting within the gap and
      close to where the one before ended. */
  lemma ChainsAreInTime(r: Rule, ts: seq<Track>, chains: seq<seq<nat>>, t: nat, c: nat, a: nat, b: nat)
    requires InOrder(ts) && Stitched(r, ts, chains, t) && c < |chains| && a < b < |chains[c]|
    ensures Follow(r, ts, chains[c], a, b)
  {
    assert Finished(r, ts, Consumed(chains[..c]), chains[c]);
    hide Stitched, Consumed, Grown, InOrder, Follow;
    ChainInTime(r, ts, Consumed(chains[..c]), chains[c], a, b);
  }

  /** Member `b` starts after member `a` has ended; if it is the next one, within the gap
      and nearer than the limit. */
  predicate Follow(r: Rule, ts: seq<Track>, chain: seq<nat>, a: nat, b: nat) {
    && a < |chain| && b < |chain| && chain[a] < |ts| && chain[b] < |ts|
    && var (x, y) := (ts[chain[a]], ts[chain[b]]);
    && x.last < y.first
    && (b == a + 1 ==> y.first - x.last <= r.gapMax && r.dist(y.fpos, x.lpos) < r.distMax)
  }

  lemma ChainInTime(r: Rule, ts: seq<Track>, consumed: set<nat>, chain: seq<nat>, a: nat, b: nat)
    requires InOrder(ts) && Grown(r, ts, consumed, chain) && a < b < |chain|
    ensures Follow(r, ts, chain, a, b)
  {
    GrownNumbers(r, ts, consumed, chain);
    hide Grown, InOrder;
    forall k | 0 < k < |chain| ensures ts[chain[k - 1]].last < ts[chain[k]].first {
      LinkIsShort(r, ts, consumed, chain, k);
    }
    InTime(ts, chain, a, b);
    LinkIsShort(r, ts, consumed, chain, b);
  }

  lemma GrownNumbers(r: Rule, ts: seq<Track>, consumed: set<nat>, chain: seq<nat>)
    requires Grown(r, ts, consumed, chain)
    ensures Numbers(chain, |ts|) && forall k :: 0 <= k < |chain| ==> chain[k] < |ts|
  {
    hide Nearest;
  }

  /** One link of a chain. */
  lemma LinkIsShort(r: Rule, ts: seq<Track>, consumed: set<nat>, chain: seq<nat>, b: nat)
    requires InOrder(ts) && Grown(r, ts, consumed, chain) && 0 < b < |chain|
    ensures chain[b] < |ts| && chain[b - 1] < |ts|
    ensures 0 < ts[chain[b]].first - ts[chain[b - 1]].last <= r.gapMax
    ensures r.dist(ts[chain[b]].fpos, ts[chain[b - 1]].lpos) < r.distMax
  {
    hide *;
    GrownPrefix(r, ts, consumed, chain, b);
    MergeSpan(ts, chain[..b], r, consumed);
    assert chain[..b][|chain[..b]| - 1] == chain[b - 1];
    GrownNumbers(r, ts, consumed, chain);
    LinkJoins(r, ts, consumed, chain, b);
  }

  lemma LinkJoins(r: Rule, ts: seq<Track>, consumed: set<nat>, chain: seq<nat>, b: nat)
    requires Grown(r, ts, consumed, chain) && 0 < b < |chain|
    ensures Numbers(chain, |ts|) && Numbers(chain[..b], |ts|)
    ensures var cur, x := Merge(ts, chain[..b]), ts[chain[b]];
            0 < x.first - cur.last <= r.gapMax && r.dist(x.fpos, cur.lpos) < r.distMax
  {
    assert r.Joins(Merge(ts, chain[..b]), ts[chain[b]]);
    hide Merge;
  }

  lemma {:induction false} InTime(ts: seq<Track>, chain: seq<nat>, a: nat, b: nat)
    requires InOrder(ts) && Numbers(chain, |ts|) && a < b < |chain|
    requires forall k :: 0 < k < |chain| ==> ts[chain[k - 1]].last < ts[chain[k]].first
    ensures ts[chain[a]].last < ts[chain[b]].first
    decreases b
  {
    if a < b - 1 {
      InTime(ts, chain, a, b - 1);
      assert ts[chain[b - 1]].first <= ts[chain[b - 1]].last;
    }
  }

  lemma HeadIsOpen(chains: seq<seq<nat>>, c: nat, d: nat)
    requires Distinct(Flat(chains)) && c < |chains| && d < |chains| && c != d && chains[c] != [] && chains[d] != []
    ensures Open(Consumed(chains[..c]) + Joined(chains[c]), chains[c][0], chains[d][0])
  {
    var h := chains[d][0];
    hide Flat, Distinct, Consumed, Joined;
    ConsumedMembers(chains[..c], h);
    if h in Consumed(chains[..c]) {
      var e :| 0 <= e < |chains[..c]| && h in Joined(chains[..c][e]);
      HeadIsNotJoined(chains, e, d);
    }
    HeadIsNotJoined(chains, c, d);
    SameHead(chains, c, d);
  }

  lemma JoinsByStart(r: Rule, cur: Track, a: Track, b: Track)
    requires a.first == b.first && a.fpos == b.fpos
    ensures r.Joins(cur, a) == r.Joins(cur, b)
  {
  }

  /** Stitching is finished: no merged track begins soon enough behind another and near
      enough to where that one ended. */
  lemma NothingLeftToStitch(r: Rule, ts: seq<Track>, chains: seq<seq<nat>>, c: nat, d: nat)
    requires InOrder(ts) && Stitched(r, ts, chains, |ts|) && c < |chains| && d < |chains|
    ensures Numbers(chains[c], |ts|) && Numbers(chains[d], |ts|)
    ensures TooFar(r, Merge(ts, chains[c]), Merge(ts, chains[d]))
  {
    hide InOrder, Stitched, Merge, Rule.Joins, TooFar;
    NeverJoins(r, ts, chains, c, d);
    TooFarIs(r, Merge(ts, chains[c]), Merge(ts, chains[d]));
  }

  predicate TooFar(r: Rule, a: Track, b: Track) {
    b.first <= a.last || b.first > a.last + r.gapMax || r.dist(b.fpos, a.lpos) >= r.distMax
  }

  lemma TooFarIs(r: Rule, a: Track, b: Track)
    ensures TooFar(r, a, b) <==> !r.Joins(a, b)
  {
  }

  lemma NeverJoins(r: Rule, ts: seq<Track>, chains: seq<seq<nat>>, c: nat, d: nat)
    requires InOrder(ts) && Stitched(r, ts, chains, |ts|) && c < |chains| && d < |chains|
    ensures Numbers(chains[c], |ts|) && Numbers(chains[d], |ts|)
    ensures !r.Joins(Merge(ts, chains[c]), Merge(ts, chains[d]))
  {
    var before := Consumed(chains[..c]);
    assert Finished(r, ts, before, chains[c]) && Finished(r, ts, Consumed(chains[..d]), chains[d]);
    MergeSpan(ts, chains[c], r, before);
    MergeSpan(ts, chains[d], r, Consumed(chains[..d]));
    var cur, h := Merge(ts, chains[c]), chains[d][0];
    if c != d {
      HeadIsOpen(chains, c, d);
      assert !r.Joins(cur, ts[h]);
      hide Rule.Joins, Stitched, Grown, Consumed, Merge;
      JoinsByStart(r, cur, Merge(ts, chains[d]), ts[h]);
    } else {
      hide Stitched, Grown, Consumed, Merge, Nearest;
    }
  }

  lemma SameHead(chains: seq<seq<nat>>, c: nat, d: nat)
    requires Distinct(Flat(chains)) && c < |chains| && d < |chains| && c != d && chains[c] != [] && chains[d] != []
    ensures chains[c][0] != chains[d][0]
  {
    if c < d {
      ChainsDisjoint(chains, c, d, chains[c][0]);
    } else {
      ChainsDisjoint(chains, d, c, chains[d][0]);
    }
  }

  // ---------------------------------------------------------------- total length

  function Length(ts: seq<Track>, s: seq<nat>): int
    requires forall k :: 0 <= k < |s| ==> s[k] < |ts|
  {
    if s == [] then 0 else Length(ts, s[..|s| - 1]) + ts[s[|s| - 1]].len
  }

  function Everyone(n: nat): seq<nat> { seq(n, k requires 0 <= k < n => k) }

  /** The length of all merged tracks together. */
  function MergedLength(ts: seq<Track>, chains: seq<seq<nat>>): int
    requires forall c :: 0 <= c < |chains| ==> Numbers(chains[c], |ts|)
  {
    if chains == [] then 0
    else
      var n := |chains| - 1;
      assert Numbers(chains[n], |ts|);
      MergedLength(ts, chains[..n]) + Merge(ts, chains[n]).len
  }

  lemma {:induction false} MergeLength(ts: seq<Track>, chain: seq<nat>)
    requires Numbers(chain, |ts|)
    ensures Merge(ts, chain).len == Length(ts, chain)
  {
    var n := |chain| - 1;
    if n > 0 {
      MergeLength(ts, chain[..n]);
    } else {
      assert chain[..0] == [];
    }
  }

  lemma {:induction false} LengthAppend(ts: seq<Track>, a: seq<nat>, b: seq<nat>)
    requires forall k :: 0 <= k < |a| ==> a[k] < |ts|
    requires forall k :: 0 <= k < |b| ==> b[k] < |ts|
    ensures Length(ts, a + b) == Length(ts, a) + Length(ts, b)
  {
    if b == [] {
      assert a + b == a;
    } else {
      var n := |b| - 1;
      assert (a + b)[..|a| + n] == a + b[..n];
      LengthAppend(ts, a, b[..n]);
    }
  }

  lemma {:induction false} FlatLength(ts: seq<Track>, chains: seq<seq<nat>>)
    requires forall c :: 0 <= c < |chains| ==> Numbers(chains[c], |ts|)
    ensures forall k :: 0 <= k < |Flat(chains)| ==> Flat(chains)[k] < |ts|
    ensures MergedLength(ts, chains) == Length(ts, Flat(chains))
  {
    if chains != [] {
      var n := |chains| - 1;
      FlatLength(ts, chains[..n]);
      MergeLength(ts, chains[n]);
      LengthAppend(ts, Flat(chains[..n]), chains[n]);
    }
  }

  lemma LengthDrop(ts: seq<Track>, b: seq<nat>, j: nat)
    requires j < |b| && forall k :: 0 <= k < |b| ==> b[k] < |ts|
    ensures var rest := b[..j] + b[j + 1..];
            && (forall k :: 0 <= k < |rest| ==> rest[k] < |ts|)
            && Length(ts, b) == Length(ts, rest) + ts[b[j]].len
  {
    assert b == b[..j] + ([b[j]] + b[j + 1..]);
    LengthAppend(ts, b[..j], [b[j]] + b[j + 1..]);
    LengthAppend(ts, [b[j]], b[j + 1..]);
    LengthAppend(ts, b[..j], b[j + 1..]);
    assert [b[j]][..0] == [];
    assert Length(ts, [b[j]]) == ts[b[j]].len;
    hide Length;
  }

  lemma FirstIsIn(s: seq<nat>)
    requires s != []
    ensures s[0] in s
  {
  }

  lemma {:induction false} LengthPermuted(ts: seq<Track>, a: seq<nat>, b: seq<nat>)
    requires forall k :: 0 <= k < |a| ==> a[k] < |ts|
    requires forall k :: 0 <= k < |b| ==> b[k] < |ts|
    requires Distinct(a) && Distinct(b) && forall p: nat :: p in a <==> p in b
    ensures Length(ts, a) == Length(ts, b)
  {
    if a == [] {
      if b != [] {
        FirstIsIn(b);
      }
    } else {
      var n := |a| - 1;
      assert a[n] in b;
      var j :| 0 <= j < |b| && b[j] == a[n];
      WithoutOne(a, n);
      WithoutOne(b, j);
      LengthDrop(ts, a, n);
      LengthDrop(ts, b, j);
      hide Length, Distinct;
      LengthPermuted(ts, a[..n] + a[n + 1..], b[..j] + b[j + 1..]);
    }
  }

  lemma WithoutOne(s: seq<nat>, j: nat)
    requires Distinct(s) && j < |s|
    ensures var rest := s[..j] + s[j + 1..];
            Distinct(rest) && forall p: nat :: p in rest <==> p in s && p != s[j]
  {
    var rest := s[..j] + s[j + 1..];
    forall p: nat ensures p in rest <==> p in s && p != s[j] {
      if p in s && p != s[j] {
        var k :| 0 <= k < |s| && s[k] == p;
        assert rest[if k < j then k else k - 1] == p;
      }
      if p in rest {
        var k :| 0 <= k < |rest| && rest[k] == p;
        assert s[if k < j then k else k + 1] == p;
      }
    }
  }

  /** No frame is lost or counted twice: the merged tracks are as long as the tracks. */
  lemma LengthIsConserved(r: Rule, ts: seq<Track>, chains: seq<seq<nat>>)
    requires Stitched(r, ts, chains, |ts|) && forall p: nat :: p in Flat(chains) <==> p < |ts|
    ensures forall c :: 0 <= c < |chains| ==> Numbers(chains[c], |ts|)
    ensures MergedLength(ts, chains) == Length(ts, Everyone(|ts|))
  {
    forall c | 0 <= c < |chains| ensures Numbers(chains[c], |ts|) {
      assert Finished(r, ts, Consumed(chains[..c]), chains[c]);
    }
    hide Finished, Consumed, Flat, Length, MergedLength, Numbers;
    FlatLength(ts, chains);
    forall p: nat ensures p in Everyone(|ts|) <==> p < |ts| {
      assert p < |ts| ==> Everyone(|ts|)[p] == p;
    }
    LengthPermuted(ts, Flat(chains), Everyone(|ts|));
  }

  // ---------------------------------------------------------------- the whole of it

  lemma MergedTooFar(r: Rule, ts: seq<Track>, chains: seq<seq<nat>>, merged: map<nat, Track>, a: nat, b: nat)
    requires InOrder(ts) && Stitched(r, ts, chains, |ts|) && MergedInto(ts, chains, merged) && a in merged && b in merged
    ensures TooFar(r, merged[a], merged[b])
  {
    assert IsHead(chains, a) && IsHead(chains, b);
    var c :| 0 <= c < |chains| && chains[c] != [] && chains[c][0] == a;
    var d :| 0 <= d < |chains| && chains[d] != [] && chains[d][0] == b;
    assert merged[a] == Merge(ts, chains[c]) && merged[b] == Merge(ts, chains[d]);
    hide Stitched, MergedInto, InOrder, TooFar, Merge;
    NothingLeftToStitch(r, ts, chains, c, d);
  }

  /** Every track lands in exactly one chain, although the heads are never marked. */
  method StitchTracks(r: Rule, ts: seq<Track>) returns (merged: map<nat, Track>, ghost chains: seq<seq<nat>>)
    requires InOrder(ts)
    ensures Stitched(r, ts, chains, |ts|) && MergedInto(ts, chains, merged)
    ensures Distinct(Flat(chains)) && forall p: nat :: p in Flat(chains) <==> p < |ts|
    ensures forall a, b :: a in merged && b in merged ==> TooFar(r, merged[a], merged[b])
  {
    var consumed: set<nat> := {};
    merged, chains := map[], [];
    for t := 0 to |ts|
      invariant Stitched(r, ts, chains, t) && consumed == Consumed(chains)
      invariant MergedInto(ts, chains, merged)
      invariant forall x :: x in consumed ==> x < |ts|
    {
      if t in consumed {
        SkipConsumed(r, ts, chains, t);
        continue;
      }
      var cur;
      ghost var chain;
      consumed, cur, chain := GrowChain(r, ts, consumed, t);
      StitchedMore(r, ts, chains, t, chain);
      MergedMore(r, ts, chains, merged, t, chain);
      merged, chains := merged[t := cur], chains + [chain];
    }
    hide Stitched, MergedInto, InOrder, TooFar;
    forall a, b | a in merged && b in merged ensures TooFar(r, merged[a], merged[b]) {
      MergedTooFar(r, ts, chains, merged, a, b);
    }
  }
}
