/** The greedy assignment both trackers fall back to: all cells of a score matrix
    from the best down, each taken if its row and column are still free. The order
    among equal scores is any the sort may produce. */
module Greedy {
  import opened Shared

  datatype Cell = Cell(row: nat, col: nat)

  type Score = Cell -> real

  predicate Within(c: Cell, rows: nat, cols: nat) { c.row < rows && c.col < cols }

  /** `order` lists every cell of the matrix and nothing else, best score first. */
  ghost predicate Ranked(order: seq<Cell>, rows: nat, cols: nat, score: Score) {
    && (forall k :: 0 <= k < |order| ==> Within(order[k], rows, cols))
    && (forall c :: Within(c, rows, cols) ==> c in order)
    && Descending(order, score)
  }

  ghost predicate Descending(order: seq<Cell>, score: Score) {
    forall a, b :: 0 <= a < b < |order| ==> score(order[a]) >= score(order[b])
  }

  predicate Clash(a: Cell, b: Cell) { a.row == b.row || a.col == b.col }

  predicate Free(chosen: seq<Cell>, c: Cell) {
    forall k :: 0 <= k < |chosen| ==> !Clash(chosen[k], c)
  }

  /** The cells taken on the way through `order`. */
  function Greedy(order: seq<Cell>): seq<Cell> {
    if order == [] then []
    else
      var n := |order| - 1;
      var g := Greedy(order[..n]);
      if Free(g, order[n]) then g + [order[n]] else g
  }

  /** The cells that reach the threshold. */
  function Gated(cells: seq<Cell>, score: Score, threshold: real): seq<Cell> {
    if cells == [] then []
    else
      var n := |cells| - 1;
      Gated(cells[..n], score, threshold) + (if score(cells[n]) >= threshold then [cells[n]] else [])
  }

  // ---------------------------------------------------------------- a matching

  ghost predicate OneToOne(cells: seq<Cell>) {
    forall a, b :: 0 <= a < b < |cells| ==> !Clash(cells[a], cells[b])
  }

  /** `c` is taken, or loses to a chosen cell that is at least as good and shares its
      row or column. */
  ghost predicate Settled(chosen: seq<Cell>, c: Cell, score: Score) {
    exists k :: 0 <= k < |chosen| && Clash(chosen[k], c) && score(chosen[k]) >= score(c)
  }

  ghost predicate Stable(order: seq<Cell>, chosen: seq<Cell>, score: Score) {
    forall c :: c in order ==> Settled(chosen, c, score)
  }

  lemma {:induction false} GreedyMatches(order: seq<Cell>)
    ensures OneToOne(Greedy(order))
    ensures forall c :: c in Greedy(order) ==> c in order
  {
    if order != [] {
      GreedyMatches(order[..|order| - 1]);
    }
  }

  lemma SettledLater(chosen: seq<Cell>, x: Cell, c: Cell, score: Score)
    requires Settled(chosen, c, score)
    ensures Settled(chosen + [x], c, score)
  {
    var k :| 0 <= k < |chosen| && Clash(chosen[k], c) && score(chosen[k]) >= score(c);
    assert (chosen + [x])[k] == chosen[k];
  }

  lemma SettledNow(chosen: seq<Cell>, c: Cell, score: Score)
    requires forall k :: 0 <= k < |chosen| ==> score(chosen[k]) >= score(c)
    ensures Settled(if Free(chosen, c) then chosen + [c] else chosen, c, score)
  {
    if Free(chosen, c) {
      assert (chosen + [c])[|chosen|] == c;
    }
  }

  lemma {:induction false} GreedyStable(order: seq<Cell>, score: Score)
    requires Descending(order, score)
    ensures Stable(order, Greedy(order), score)
  {
    if order != [] {
      var n := |order| - 1;
      var g := Greedy(order[..n]);
      GreedyStable(order[..n], score);
      GreedyMatches(order[..n]);
      forall k | 0 <= k < |g| ensures score(g[k]) >= score(order[n]) {
        assert g[k] in order[..n];
      }
      SettledNow(g, order[n], score);
      hide Free, Settled;
      forall c | c in order ensures Settled(Greedy(order), c, score) {
        if c != order[n] {
          assert c in order[..n];
          SettledLater(g, order[n], c, score);
        }
      }
    }
  }

  // ---------------------------------------------------------------- the threshold

  lemma {:induction false} GatedMembers(cells: seq<Cell>, score: Score, threshold: real)
    ensures forall c :: c in Gated(cells, score, threshold) <==> c in cells && score(c) >= threshold
  {
    if cells != [] {
      var n := |cells| - 1;
      GatedMembers(cells[..n], score, threshold);
      assert cells == cells[..n] + [cells[n]];
    }
  }

  lemma {:induction false} GatedNone(cells: seq<Cell>, score: Score, threshold: real)
    requires forall k :: 0 <= k < |cells| ==> score(cells[k]) < threshold
    ensures Gated(cells, score, threshold) == []
  {
    if cells != [] {
      GatedNone(cells[..|cells| - 1], score, threshold);
    }
  }

  lemma {:induction false} GatedAll(cells: seq<Cell>, score: Score, threshold: real)
    requires forall k :: 0 <= k < |cells| ==> score(cells[k]) >= threshold
    ensures Gated(cells, score, threshold) == cells
  {
    if cells != [] {
      var n := |cells| - 1;
      GatedAll(cells[..n], score, threshold);
      assert cells == cells[..n] + [cells[n]];
    }
  }

  lemma {:induction false} GatedAppend(a: seq<Cell>, b: seq<Cell>, score: Score, threshold: real)
    ensures Gated(a + b, score, threshold) == Gated(a, score, threshold) + Gated(b, score, threshold)
  {
    if b == [] {
      assert a + b == a;
    } else {
      var n := |b| - 1;
      assert (a + b)[..|a| + n] == a + b[..n];
      GatedAppend(a, b[..n], score, threshold);
    }
  }

  /** In a descending list the cells that reach the threshold come first. */
  lemma GatedPrefix(order: seq<Cell>, score: Score, threshold: real, k: nat)
    requires Descending(order, score) && k <= |order|
    requires forall j :: 0 <= j < k ==> score(order[j]) >= threshold
    requires k < |order| ==> score(order[k]) < threshold
    ensures Gated(order, score, threshold) == order[..k]
  {
    hide Gated;
    assert order == order[..k] + order[k..];
    GatedAppend(order[..k], order[k..], score, threshold);
    GatedAll(order[..k], score, threshold);
    GatedNone(order[k..], score, threshold);
  }

  lemma {:induction false} GreedyGrows(a: seq<Cell>, b: seq<Cell>)
    ensures Greedy(a) <= Greedy(a + b)
    ensures forall c :: c in Greedy(a + b)[|Greedy(a)|..] ==> c in b
  {
    if b == [] {
      assert a + b == a;
    } else {
      var n := |b| - 1;
      assert (a + b)[..|a| + n] == a + b[..n] && (a + b)[|a| + n] == b[n];
      GreedyGrows(a, b[..n]);
      var g, k := Greedy(a + b[..n]), |Greedy(a)|;
      hide Free;
      assert Greedy(a + b) == g || Greedy(a + b) == g + [b[n]];
      forall c | c in Greedy(a + b)[k..] ensures c in b {
        assert (g + [b[n]])[k..] == g[k..] + [b[n]];
        assert c in g[k..] || c == b[n];
      }
    }
  }

  lemma {:induction false} FirstBelow(order: seq<Cell>, score: Score, threshold: real) returns (k: nat)
    requires Descending(order, score)
    ensures k <= |order| && (forall j :: 0 <= j < k ==> score(order[j]) >= threshold)
    ensures k < |order| ==> score(order[k]) < threshold
  {
    k := 0;
    while k < |order| && score(order[k]) >= threshold
      invariant k <= |order| && forall j :: 0 <= j < k ==> score(order[j]) >= threshold
    {
      k := k + 1;
    }
  }

  /** Dropping the poor pairs afterwards gives what stopping at the first poor cell gives. */
  lemma GateLateOrEarly(order: seq<Cell>, score: Score, threshold: real)
    requires Descending(order, score)
    ensures Gated(Greedy(order), score, threshold) == Greedy(Gated(order, score, threshold))
  {
    hide Greedy, Gated;
    var k := FirstBelow(order, score, threshold);
    GatedPrefix(order, score, threshold, k);
    var a, b := order[..k], order[k..];
    assert order == a + b;
    GreedyGrows(a, b);
    GreedyMatches(a);
    var g := Greedy(order);
    var n := |Greedy(a)|;
    assert g == g[..n] + g[n..];
    GatedAppend(g[..n], g[n..], score, threshold);
    forall j | 0 <= j < n ensures score(g[..n][j]) >= threshold {
      assert g[..n][j] in a;
    }
    GatedAll(g[..n], score, threshold);
    forall j | 0 <= j < |g[n..]| ensures score(g[n..][j]) < threshold {
      assert g[n..][j] in b;
    }
    GatedNone(g[n..], score, threshold);
  }

  /** What the assignment is for: one to one, every pair good enough, and nothing
      admissible left over or done worse than a pair that displaced it. */
  ghost predicate GoodMatching(chosen: seq<Cell>, rows: nat, cols: nat, score: Score, threshold: real) {
    && OneToOne(chosen)
    && (forall k :: 0 <= k < |chosen| ==> Within(chosen[k], rows, cols) && score(chosen[k]) >= threshold)
    && (forall c :: Within(c, rows, cols) && score(c) >= threshold ==> Settled(chosen, c, score))
  }

  /** Exactly the admissible cells come before the first poor one. */
  lemma GatedAdmissible(order: seq<Cell>, rows: nat, cols: nat, score: Score, threshold: real, c: Cell)
    requires Ranked(order, rows, cols, score)
    ensures c in Gated(order, score, threshold) <==> Within(c, rows, cols) && score(c) >= threshold
  {
    hide Descending;
    GatedMembers(order, score, threshold);
  }

  lemma GatedDescending(order: seq<Cell>, score: Score, threshold: real)
    requires Descending(order, score)
    ensures Descending(Gated(order, score, threshold), score)
  {
    var k := FirstBelow(order, score, threshold);
    GatedPrefix(order, score, threshold, k);
  }

  lemma GreedyIsGood(order: seq<Cell>, rows: nat, cols: nat, score: Score, threshold: real)
    requires Ranked(order, rows, cols, score)
    ensures GoodMatching(Greedy(Gated(order, score, threshold)), rows, cols, score, threshold)
  {
    var gated := Gated(order, score, threshold);
    var g := Greedy(gated);
    GatedDescending(order, score, threshold);
    GreedyMatches(gated);
    GreedyStable(gated, score);
    hide Greedy, Gated, Clash, Within, Descending, OneToOne;
    forall j | 0 <= j < |g| ensures Within(g[j], rows, cols) && score(g[j]) >= threshold {
      GatedAdmissible(order, rows, cols, score, threshold, g[j]);
    }
    hide Ranked;
    forall c | Within(c, rows, cols) && score(c) >= threshold ensures Settled(g, c, score) {
      GatedAdmissible(order, rows, cols, score, threshold, c);
    }
  }

  // ---------------------------------------------------------------- at least half the best total

  function Total(cells: seq<Cell>, score: Score): real {
    if cells == [] then 0.0 else Total(cells[..|cells| - 1], score) + score(cells[|cells| - 1])
  }

  function Line(c: Cell, byRow: bool): nat { if byRow then c.row else c.col }

  ghost predicate DistinctLines(cells: seq<Cell>, byRow: bool) {
    forall a, b :: 0 <= a < b < |cells| ==> Line(cells[a], byRow) != Line(cells[b], byRow)
  }

  /** `k` is a chosen cell on the line of `c` that is at least as good. */
  predicate Beats(chosen: seq<Cell>, k: nat, c: Cell, byRow: bool, score: Score) {
    k < |chosen| && Line(chosen[k], byRow) == Line(c, byRow) && score(chosen[k]) >= score(c)
  }

  ghost predicate Beaten(chosen: seq<Cell>, c: Cell, byRow: bool, score: Score) {
    exists k: nat :: Beats(chosen, k, c, byRow, score)
  }

  lemma {:induction false} TotalDrop(cells: seq<Cell>, score: Score, k: nat)
    requires k < |cells|
    ensures Total(cells, score) == Total(cells[..k] + cells[k + 1..], score) + score(cells[k])
  {
    var n := |cells| - 1;
    if k == n {
      assert cells[..k] + cells[k + 1..] == cells[..n];
    } else {
      TotalDrop(cells[..n], score, k);
      var r := cells[..k] + cells[k + 1..];
      assert r[..|r| - 1] == cells[..n][..k] + cells[..n][k + 1..];
    }
  }

  lemma {:induction false} TotalPositive(cells: seq<Cell>, score: Score)
    requires forall k :: 0 <= k < |cells| ==> score(cells[k]) >= 0.0
    ensures Total(cells, score) >= 0.0
  {
    if cells != [] {
      TotalPositive(cells[..|cells| - 1], score);
    }
  }

  /** Cells on distinct lines, each beaten on its line, are beaten in total. */
  lemma {:induction false} BeatenInTotal(other: seq<Cell>, chosen: seq<Cell>, byRow: bool, score: Score)
    requires DistinctLines(other, byRow)
    requires forall k :: 0 <= k < |chosen| ==> score(chosen[k]) >= 0.0
    requires forall k :: 0 <= k < |other| ==> Beaten(chosen, other[k], byRow, score)
    ensures Total(other, score) <= Total(chosen, score)
  {
    if other == [] {
      TotalPositive(chosen, score);
    } else {
      var n := |other| - 1;
      assert Beaten(chosen, other[n], byRow, score);
      var k: nat :| Beats(chosen, k, other[n], byRow, score);
      var rest := chosen[..k] + chosen[k + 1..];
      forall j | 0 <= j < n ensures Beaten(rest, other[..n][j], byRow, score) {
        assert Beaten(chosen, other[j], byRow, score);
        var h: nat :| Beats(chosen, h, other[j], byRow, score);
        assert h != k;
        assert Beats(rest, if h < k then h else h - 1, other[j], byRow, score);
      }
      TotalDrop(chosen, score, k);
      BeatenInTotal(other[..n], rest, byRow, score);
    }
  }

  /** The last cell of a matching stands on a line of its own. */
  lemma JoinsLines(a: seq<Cell>, other: seq<Cell>, byRow: bool)
    requires OneToOne(other) && other != [] && DistinctLines(a, byRow)
    requires forall k :: 0 <= k < |a| ==> a[k] in other[..|other| - 1]
    ensures DistinctLines(a + [other[|other| - 1]], byRow)
  {
  }

  lemma StaysOneToOne(other: seq<Cell>)
    requires OneToOne(other) && other != []
    ensures OneToOne(other[..|other| - 1])
  {
  }

  /** The cells of a matching split into those beaten by row and the others. */
  lemma {:induction false} SplitByRow(other: seq<Cell>, chosen: seq<Cell>, score: Score)
    returns (a: seq<Cell>, b: seq<Cell>)
    requires OneToOne(other)
    requires forall k :: 0 <= k < |other| ==> Beaten(chosen, other[k], true, score) || Beaten(chosen, other[k], false, score)
    ensures Total(other, score) == Total(a, score) + Total(b, score)
    ensures DistinctLines(a, true) && DistinctLines(b, false)
    ensures forall k :: 0 <= k < |a| ==> a[k] in other && Beaten(chosen, a[k], true, score)
    ensures forall k :: 0 <= k < |b| ==> b[k] in other && Beaten(chosen, b[k], false, score)
  {
    hide Beaten;
    a, b := [], [];
    if other != [] {
      var n := |other| - 1;
      StaysOneToOne(other);
      a, b := SplitByRow(other[..n], chosen, score);
      hide OneToOne, DistinctLines, Total;
      var c := other[n];
      assert other == other[..n] + [c];
      TotalNext(other[..n], c, score);
      if Beaten(chosen, c, true, score) {
        TotalNext(a, c, score);
        JoinsLines(a, other, true);
        a := a + [c];
      } else {
        TotalNext(b, c, score);
        JoinsLines(b, other, false);
        b := b + [c];
      }
    }
  }

  lemma GoodBeats(chosen: seq<Cell>, rows: nat, cols: nat, score: Score, threshold: real, c: Cell)
    requires GoodMatching(chosen, rows, cols, score, threshold) && Within(c, rows, cols) && score(c) >= threshold
    ensures Beaten(chosen, c, true, score) || Beaten(chosen, c, false, score)
  {
    assert Settled(chosen, c, score);
    var j :| 0 <= j < |chosen| && Clash(chosen[j], c) && score(chosen[j]) >= score(c);
    assert Beats(chosen, j, c, true, score) || Beats(chosen, j, c, false, score);
  }

  /** Where the cells chosen have no negative score, no admissible matching is worth
      more than twice what the greedy one is, whatever the threshold. */
  lemma HalfOfTheBest(chosen: seq<Cell>, other: seq<Cell>, rows: nat, cols: nat, score: Score, threshold: real)
    requires GoodMatching(chosen, rows, cols, score, threshold)
    requires forall k :: 0 <= k < |chosen| ==> score(chosen[k]) >= 0.0
    requires OneToOne(other)
    requires forall k :: 0 <= k < |other| ==> Within(other[k], rows, cols) && score(other[k]) >= threshold
    ensures Total(other, score) <= 2.0 * Total(chosen, score)
  {
    forall k | 0 <= k < |other|
      ensures Beaten(chosen, other[k], true, score) || Beaten(chosen, other[k], false, score)
    {
      GoodBeats(chosen, rows, cols, score, threshold, other[k]);
    }
    hide Beaten, Total, DistinctLines, GoodMatching;
    var a, b := SplitByRow(other, chosen, score);
    BeatenInTotal(a, chosen, true, score);
    BeatenInTotal(b, chosen, false, score);
  }

  // ---------------------------------------------------------------- overlaps

  function Larger(a: real, b: real): real { if a >= b then a else b }

  function Smaller(a: real, b: real): real { if a <= b then a else b }

  /** The common area of two boxes, none if they do not meet. */
  function Common(a: Box, b: Box): real {
    Larger(Smaller(a.x2, b.x2) - Larger(a.x1, b.x1), 0.0) * Larger(Smaller(a.y2, b.y2) - Larger(a.y1, b.y1), 0.0)
  }

  /** Intersection over union, with the union kept away from zero. */
  function Iou(a: Box, b: Box): real {
    Common(a, b) / Larger(a.Area() + b.Area() - Common(a, b), 0.000001)
  }

  /** An overlap is never negative, whatever the corners of the boxes. */
  lemma IouNotNegative(a: Box, b: Box)
    ensures Iou(a, b) >= 0.0
  {
    var x := Larger(Smaller(a.x2, b.x2) - Larger(a.x1, b.x1), 0.0);
    var y := Larger(Smaller(a.y2, b.y2) - Larger(a.y1, b.y1), 0.0);
    assert x * y >= 0.0;
    Quotient(x * y, Larger(a.Area() + b.Area() - Common(a, b), 0.000001));
  }

  lemma Quotient(x: real, y: real)
    requires x >= 0.0 && y > 0.0
    ensures x / y >= 0.0
  {
  }

  /** Corners in order. */
  predicate Proper(b: Box) { b.x1 <= b.x2 && b.y1 <= b.y2 }

  predicate Inside(c: Box, a: Box) {
    a.x1 <= c.x1 && c.x2 <= a.x2 && a.y1 <= c.y1 && c.y2 <= a.y2
  }

  /** The greatest box inside both, if there is one. */
  function Meet(a: Box, b: Box): Box {
    Box(Larger(a.x1, b.x1), Larger(a.y1, b.y1), Smaller(a.x2, b.x2), Smaller(a.y2, b.y2))
  }

  lemma LargerProduct(x: real, y: real, u: real, v: real)
    requires 0.0 <= x <= u && 0.0 <= y <= v
    ensures x * y <= u * v
  {
    LargerFactor(x, u, v);
    LargerFactor(y, v, x);
  }

  lemma LargerFactor(x: real, u: real, v: real)
    requires x <= u && 0.0 <= v
    ensures x * v <= u * v
  {
    assert (u - x) * v == u * v - x * v;
  }

  /** The common area is that of the greatest box inside both, and zero if there is none. */
  lemma CommonIsGreatest(a: Box, b: Box, c: Box)
    requires Proper(c) && Inside(c, a) && Inside(c, b)
    ensures c.Area() <= Common(a, b)
    ensures Proper(Meet(a, b)) && Inside(Meet(a, b), a) && Inside(Meet(a, b), b) && Meet(a, b).Area() == Common(a, b)
  {
    var m := Meet(a, b);
    LargerProduct(c.x2 - c.x1, c.y2 - c.y1, m.x2 - m.x1, m.y2 - m.y1);
  }

  lemma NothingCommon(a: Box, b: Box)
    requires !Proper(Meet(a, b))
    ensures Common(a, b) == 0.0
  {
  }

  lemma CommonBothWays(a: Box, b: Box)
    ensures Common(a, b) == Common(b, a)
  {
    assert Larger(a.x1, b.x1) == Larger(b.x1, a.x1) && Smaller(a.x2, b.x2) == Smaller(b.x2, a.x2);
    assert Larger(a.y1, b.y1) == Larger(b.y1, a.y1) && Smaller(a.y2, b.y2) == Smaller(b.y2, a.y2);
    hide Larger, Smaller;
  }

  lemma CommonInFirst(a: Box, b: Box)
    requires Proper(a)
    ensures 0.0 <= Common(a, b) <= a.Area()
  {
    var x := Larger(Smaller(a.x2, b.x2) - Larger(a.x1, b.x1), 0.0);
    var y := Larger(Smaller(a.y2, b.y2) - Larger(a.y1, b.y1), 0.0);
    assert 0.0 <= x <= a.x2 - a.x1 && 0.0 <= y <= a.y2 - a.y1;
    hide Larger, Smaller;
    LargerProduct(x, y, a.x2 - a.x1, a.y2 - a.y1);
    LargerProduct(0.0, 0.0, x, y);
  }

  lemma CommonWithin(a: Box, b: Box)
    requires Proper(a) && Proper(b)
    ensures 0.0 <= Common(a, b) <= a.Area() && Common(a, b) <= b.Area() && Common(a, b) == Common(b, a)
  {
    hide *;
    CommonBothWays(a, b);
    CommonInFirst(a, b);
    CommonInFirst(b, a);
  }

  lemma CommonWithItself(a: Box)
    requires Proper(a)
    ensures Common(a, a) == a.Area()
  {
  }

  /** An overlap is the share of the common area in the area covered by either: between
      0 and 1, the same both ways, 0 only without a common area, and 1 for a box and itself. */
  lemma IouIsShare(a: Box, b: Box)
    requires Proper(a) && Proper(b)
    ensures 0.0 <= Iou(a, b) <= 1.0 && Iou(a, b) == Iou(b, a)
    ensures Iou(a, b) == 0.0 <==> Common(a, b) == 0.0
    ensures var union := a.Area() + b.Area() - Common(a, b); union >= 0.000001 ==> Iou(a, b) * union == Common(a, b)
    ensures a.Area() >= 0.000001 ==> Iou(a, a) == 1.0
  {
    CommonWithin(a, b);
    CommonWithItself(a);
    hide Common, Box.Area, Proper;
    Share(Common(a, b), Larger(a.Area() + b.Area() - Common(a, b), 0.000001));
  }

  lemma Share(x: real, y: real)
    requires 0.0 <= x <= y && y > 0.0
    ensures 0.0 <= x / y <= 1.0 && (x / y) * y == x && (x / y == 0.0 <==> x == 0.0)
  {
    assert (x / y) * y == x;
  }

  /** The score matrix of tracks against detections. */
  function IouScore(tracks: seq<Box>, detections: seq<Box>): Score {
    (c: Cell) => if 0 <= c.row < |tracks| && 0 <= c.col < |detections| then Iou(tracks[c.row], detections[c.col]) else 0.0
  }

  /** So for overlaps the factor two holds for every threshold, negative ones included. */
  lemma HalfOfTheBestOverlap(tracks: seq<Box>, detections: seq<Box>, chosen: seq<Cell>, other: seq<Cell>, threshold: real)
    requires var score := IouScore(tracks, detections);
             && GoodMatching(chosen, |tracks|, |detections|, score, threshold) && OneToOne(other)
             && forall k :: 0 <= k < |other| ==> Within(other[k], |tracks|, |detections|) && score(other[k]) >= threshold
    ensures Total(other, IouScore(tracks, detections)) <= 2.0 * Total(chosen, IouScore(tracks, detections))
  {
    var score := IouScore(tracks, detections);
    forall k | 0 <= k < |chosen| ensures score(chosen[k]) >= 0.0 {
      var c := chosen[k];
      if 0 <= c.row < |tracks| && 0 <= c.col < |detections| {
        IouNotNegative(tracks[c.row], detections[c.col]);
      }
    }
    hide GoodMatching, Iou, Total;
    HalfOfTheBest(chosen, other, |tracks|, |detections|, score, threshold);
  }

  /** Three cells of worth one in a corner of two by two. */
  function Corner(c: Cell): real { if c.row == 1 && c.col == 1 then 0.0 else 1.0 }

  const CORNER := [Cell(0, 0), Cell(0, 1), Cell(1, 0), Cell(1, 1)]

  lemma CornerRanked()
    ensures Ranked(CORNER, 2, 2, Corner)
  {
    forall x: Cell | Within(x, 2, 2) ensures x in CORNER {
      assert x == CORNER[2 * x.row + x.col];
    }
  }

  lemma GreedyNext(order: seq<Cell>, c: Cell)
    ensures Greedy(order + [c]) == if Free(Greedy(order), c) then Greedy(order) + [c] else Greedy(order)
  {
    assert (order + [c])[..|order|] == order;
  }

  lemma TotalNext(cells: seq<Cell>, c: Cell, score: Score)
    ensures Total(cells + [c], score) == Total(cells, score) + score(c)
  {
    assert (cells + [c])[..|cells|] == cells;
  }

  lemma CornerGreedy()
    ensures Greedy(Gated(CORNER, Corner, 1.0)) == [Cell(0, 0)]
  {
    var a, b, c := Cell(0, 0), Cell(0, 1), Cell(1, 0);
    CornerRanked();
    GatedPrefix(CORNER, Corner, 1.0, 3);
    assert CORNER[..3] == [] + [a] + [b] + [c];
    GreedyNext([], a);
    GreedyNext([] + [a], b);
    GreedyNext([] + [a] + [b], c);
    assert Clash([a][0], b) && Clash([a][0], c);
    hide Greedy, Gated, Ranked;
    assert [] + [a] == [a];
  }

  /** Twice is sometimes needed: taking the corner first shuts out both its neighbours. */
  lemma HalfIsReached()
    ensures var chosen, other := Greedy(Gated(CORNER, Corner, 1.0)), [Cell(0, 1), Cell(1, 0)];
            && Ranked(CORNER, 2, 2, Corner) && OneToOne(other)
            && Total(other, Corner) == 2.0 * Total(chosen, Corner) && Total(chosen, Corner) > 0.0
  {
    var a, b, c := Cell(0, 0), Cell(0, 1), Cell(1, 0);
    CornerRanked();
    CornerGreedy();
    TotalNext([], a, Corner);
    TotalNext([], b, Corner);
    TotalNext([b], c, Corner);
    hide Greedy, Gated, Ranked;
    assert [] + [a] == [a] && [] + [b] == [b] && [b] + [c] == [b, c];
  }

  // ---------------------------------------------------------------- the loops

  /** `matches` sends the row of every cell to its column, and no other row anywhere. */
  ghost predicate Lists(cells: seq<Cell>, matches: map<nat, nat>) {
    && (forall k :: 0 <= k < |cells| ==> cells[k].row in matches && matches[cells[k].row] == cells[k].col)
    && (forall r :: r in matches ==> Cell(r, matches[r]) in cells)
  }

  ghost predicate Uses(cells: seq<Cell>, cols: set<nat>) {
    forall c :: c in cols <==> exists k :: 0 <= k < |cells| && cells[k].col == c
  }

  lemma FreeMeans(cells: seq<Cell>, matches: map<nat, nat>, cols: set<nat>, c: Cell)
    requires Lists(cells, matches) && Uses(cells, cols)
    ensures Free(cells, c) <==> c.row !in matches && c.col !in cols
  {
    if c.row in matches {
      var k :| 0 <= k < |cells| && cells[k] == Cell(c.row, matches[c.row]);
      assert Clash(cells[k], c);
    }
    if c.col in cols {
      var k :| 0 <= k < |cells| && cells[k].col == c.col;
      assert Clash(cells[k], c);
    }
  }

  /** The same as GoodMatching, of a map from rows to columns. */
  ghost predicate GoodMap(matches: map<nat, nat>, rows: nat, cols: nat, score: Score, threshold: real) {
    && (forall r :: r in matches ==> Within(Cell(r, matches[r]), rows, cols) && score(Cell(r, matches[r])) >= threshold)
    && (forall r, s :: r in matches && s in matches && r != s ==> matches[r] != matches[s])
    && (forall c :: Within(c, rows, cols) && score(c) >= threshold ==> SettledIn(matches, c, score))
  }

  ghost predicate SettledIn(matches: map<nat, nat>, c: Cell, score: Score) {
    || (c.row in matches && score(Cell(c.row, matches[c.row])) >= score(c))
    || exists r :: r in matches && matches[r] == c.col && score(Cell(r, c.col)) >= score(c)
  }

  lemma SettledInMap(chosen: seq<Cell>, matches: map<nat, nat>, c: Cell, score: Score)
    requires Lists(chosen, matches) && Settled(chosen, c, score)
    ensures SettledIn(matches, c, score)
  {
    var k :| 0 <= k < |chosen| && Clash(chosen[k], c) && score(chosen[k]) >= score(c);
    assert chosen[k] == Cell(chosen[k].row, matches[chosen[k].row]);
  }

  lemma GoodListIsGoodMap(chosen: seq<Cell>, matches: map<nat, nat>, rows: nat, cols: nat, score: Score, threshold: real)
    requires GoodMatching(chosen, rows, cols, score, threshold) && Lists(chosen, matches)
    ensures GoodMap(matches, rows, cols, score, threshold)
  {
    hide Settled, SettledIn;
    forall r, s | r in matches && s in matches && r != s ensures matches[r] != matches[s] {
      var a :| 0 <= a < |chosen| && chosen[a] == Cell(r, matches[r]);
      var b :| 0 <= b < |chosen| && chosen[b] == Cell(s, matches[s]);
      assert !Clash(chosen[if a < b then a else b], chosen[if a < b then b else a]);
    }
    forall c | Within(c, rows, cols) && score(c) >= threshold ensures SettledIn(matches, c, score) {
      SettledInMap(chosen, matches, c, score);
    }
  }

  /** SortTracker: stops at the first cell below the threshold. */
  method Assign(order: seq<Cell>, rows: nat, cols: nat, score: Score, threshold: real) returns (matches: map<nat, nat>)
    requires Ranked(order, rows, cols, score)
    ensures Lists(Greedy(Gated(order, score, threshold)), matches)
    ensures GoodMap(matches, rows, cols, score, threshold)
  {
    ghost var chosen := [];
    matches := map[];
    var usedCols: set<nat> := {};
    var k := 0;
    while k < |order|
      invariant k <= |order| && forall j :: 0 <= j < k ==> score(order[j]) >= threshold
      invariant chosen == Greedy(order[..k]) && Lists(chosen, matches) && Uses(chosen, usedCols)
    {
      var c := order[k];
      if score(c) < threshold {
        break;
      }
      FreeMeans(chosen, matches, usedCols, c);
      assert order[..k + 1][..k] == order[..k];
      if c.row in matches || c.col in usedCols {
        k := k + 1;
        continue;
      }
      ListsMore(chosen, matches, usedCols, c);
      matches := matches[c.row := c.col];
      usedCols := usedCols + {c.col};
      chosen := chosen + [c];
      k := k + 1;
    }
    GatedPrefix(order, score, threshold, k);
    GreedyIsGood(order, rows, cols, score, threshold);
    hide Greedy, Gated, Ranked, GoodMatching;
    GoodListIsGoodMap(chosen, matches, rows, cols, score, threshold);
  }

  lemma ListsMore(cells: seq<Cell>, matches: map<nat, nat>, cols: set<nat>, c: Cell)
    requires Lists(cells, matches) && Uses(cells, cols) && c.row !in matches
    ensures Lists(cells + [c], matches[c.row := c.col]) && Uses(cells + [c], cols + {c.col})
  {
    var more := cells + [c];
    assert more[|cells|] == c;
    forall j | j in cols + {c.col} ensures exists k :: 0 <= k < |more| && more[k].col == j {
      if j in cols {
        var k :| 0 <= k < |cells| && cells[k].col == j;
        assert more[k].col == j;
      }
    }
  }

  /** NvDcfTracker: goes through all cells; its callers drop the poor pairs. */
  method MaxScoreAssignment(order: seq<Cell>, rows: nat, cols: nat, score: Score) returns (pairs: seq<Cell>)
    requires Ranked(order, rows, cols, score)
    ensures pairs == Greedy(order) && OneToOne(pairs)
    ensures forall threshold: real ::
              GoodMatching(Gated(pairs, score, threshold), rows, cols, score, threshold)
  {
    var usedRows: set<nat>, usedCols: set<nat> := {}, {};
    pairs := [];
    for k := 0 to |order|
      invariant pairs == Greedy(order[..k])
      invariant forall r :: r in usedRows <==> exists j :: 0 <= j < |pairs| && pairs[j].row == r
      invariant Uses(pairs, usedCols)
    {
      var c := order[k];
      assert order[..k + 1][..k] == order[..k];
      if c.row in usedRows || c.col in usedCols {
        assert !Free(pairs, c) by {
          var j :| 0 <= j < |pairs| && (pairs[j].row == c.row || pairs[j].col == c.col);
          assert Clash(pairs[j], c);
        }
        continue;
      }
      var more := pairs + [c];
      assert more[|pairs|] == c && forall j :: 0 <= j < |pairs| ==> more[j] == pairs[j];
      usedRows, usedCols, pairs := usedRows + {c.row}, usedCols + {c.col}, more;
    }
    assert order[..|order|] == order;
    GreedyMatches(order);
    forall threshold: real ensures GoodMatching(Gated(pairs, score, threshold), rows, cols, score, threshold) {
      GateLateOrEarly(order, score, threshold);
      GreedyIsGood(order, rows, cols, score, threshold);
    }
  }
}
