/** Where a frame lands on the canvas and how canvas pixels map back to it, in exact
    arithmetic. */
module Letterbox {
  import opened Shared

  function Min(a: real, b: real): real { if a <= b then a else b }

  function Max(a: int, b: int): int { if a >= b then a else b }

  function Clip(x: real, hi: real): real { Min(if x >= 0.0 then x else 0.0, hi) }

  datatype Placement = Placement(x: int, y: int, w: int, h: int)

  /** How much the frame is scaled to fit. */
  function Scale(srcW: int, srcH: int, canvasW: int, canvasH: int): real
    requires srcW > 0 && srcH > 0
  {
    Min(canvasW as real / srcW as real, canvasH as real / srcH as real)
  }

  /** A side of the frame, scaled. */
  function Side(n: int, scale: real): real { n as real * scale }

  function Product(x: real, y: real): real { x * y }

  function Times(x: real, n: int): real { Product(x, n as real) }

  function Geometry(srcW: int, srcH: int, canvasW: int, canvasH: int, padding: bool): Placement
    requires srcW > 0 && srcH > 0
  {
    if !padding then Placement(0, 0, canvasW, canvasH)
    else
      var scale := Scale(srcW, srcH, canvasW, canvasH);
      var w, h := Max(1, Side(srcW, scale).Floor), Max(1, Side(srcH, scale).Floor);
      Placement((canvasW - w) / 2, (canvasH - h) / 2, w, h)
  }

  /** Scaled sides keep the aspect ratio, stay inside, and one of them fills its side. */
  lemma ScaledSides(srcW: int, srcH: int, canvasW: int, canvasH: int)
    requires srcW > 0 && srcH > 0 && canvasW > 0 && canvasH > 0
    ensures var s := Scale(srcW, srcH, canvasW, canvasH);
            var x, y := Side(srcW, s), Side(srcH, s);
            && Times(x, srcH) == Times(y, srcW)
            && 0.0 < x <= canvasW as real && 0.0 < y <= canvasH as real
            && (x == canvasW as real || y == canvasH as real)
  {
    var w, h, cw, ch := srcW as real, srcH as real, canvasW as real, canvasH as real;
    Fits(w, cw, Scale(srcW, srcH, canvasW, canvasH));
    Fits(h, ch, Scale(srcW, srcH, canvasW, canvasH));
    assert cw / w > 0.0 && ch / h > 0.0 by {
      Ratio(cw, w);
      Ratio(ch, h);
    }
    Commute(w, h, Scale(srcW, srcH, canvasW, canvasH));
  }

  lemma Ratio(a: real, b: real)
    requires a > 0.0 && b > 0.0
    ensures a / b > 0.0
  {
    assert a / b * b == a;
    PositiveFactor(a / b, b);
  }

  lemma PositiveFactor(x: real, y: real)
    requires y > 0.0 && x * y > 0.0
    ensures x > 0.0
  {
  }

  lemma Fits(w: real, cw: real, s: real)
    requires w > 0.0
    ensures s <= cw / w ==> w * s <= cw
    ensures s == cw / w ==> w * s == cw
    ensures s > 0.0 ==> w * s > 0.0
  {
    assert w * (cw / w) == cw;
    if s <= cw / w {
      assert w * (cw / w - s) >= 0.0;
      assert w * (cw / w - s) == cw - w * s;
    }
  }

  lemma Commute(w: real, h: real, s: real)
    ensures (w * s) * h == (h * s) * w
  {
  }

  /** The placed frame lies inside the canvas, fills it in one direction, and is centred
      to within a pixel. */
  lemma PlacedInside(srcW: int, srcH: int, canvasW: int, canvasH: int, padding: bool)
    requires srcW > 0 && srcH > 0 && canvasW > 0 && canvasH > 0
    ensures var p := Geometry(srcW, srcH, canvasW, canvasH, padding);
            && 1 <= p.w && 0 <= p.x && p.x + p.w <= canvasW
            && 1 <= p.h && 0 <= p.y && p.y + p.h <= canvasH
            && (p.w == canvasW || p.h == canvasH)
            && 0 <= (canvasW - p.w - p.x) - p.x <= 1
            && 0 <= (canvasH - p.h - p.y) - p.y <= 1
            && (!padding ==> p == Placement(0, 0, canvasW, canvasH))
  {
    ScaledSides(srcW, srcH, canvasW, canvasH);
    var s := Scale(srcW, srcH, canvasW, canvasH);
    hide Scale, Side;
    Whole(Side(srcW, s), canvasW);
    Whole(Side(srcH, s), canvasH);
  }

  lemma Whole(x: real, c: int)
    requires x <= c as real
    ensures x.Floor <= c && (x == c as real ==> x.Floor == c)
  {
  }

  /** Unless a side had to be widened to one pixel, rounding bends the aspect ratio by
      less than one pixel of either side. */
  lemma AspectError(srcW: int, srcH: int, canvasW: int, canvasH: int)
    requires srcW > 0 && srcH > 0 && canvasW > 0 && canvasH > 0
    requires var s := Scale(srcW, srcH, canvasW, canvasH); Side(srcW, s) >= 1.0 && Side(srcH, s) >= 1.0
    ensures var p := Geometry(srcW, srcH, canvasW, canvasH, true);
            -srcH < p.w * srcH - p.h * srcW < srcW
  {
    ScaledSides(srcW, srcH, canvasW, canvasH);
    var s := Scale(srcW, srcH, canvasW, canvasH);
    hide Scale;
    UnwidenedSides(srcW, srcH, canvasW, canvasH);
    hide Geometry, Side, Times;
    RoundedAspect(Side(srcW, s), Side(srcH, s), srcW, srcH);
  }

  lemma UnwidenedSides(srcW: int, srcH: int, canvasW: int, canvasH: int)
    requires srcW > 0 && srcH > 0
    requires var s := Scale(srcW, srcH, canvasW, canvasH); Side(srcW, s) >= 1.0 && Side(srcH, s) >= 1.0
    ensures var s, p := Scale(srcW, srcH, canvasW, canvasH), Geometry(srcW, srcH, canvasW, canvasH, true);
            p.w == Side(srcW, s).Floor && p.h == Side(srcH, s).Floor
  {
    hide Scale, Side;
    WholeAtLeast(Side(srcW, Scale(srcW, srcH, canvasW, canvasH)));
    WholeAtLeast(Side(srcH, Scale(srcW, srcH, canvasW, canvasH)));
  }

  lemma RoundedAspect(x: real, y: real, srcW: int, srcH: int)
    requires srcW > 0 && srcH > 0 && Times(x, srcH) == Times(y, srcW)
    ensures -srcH < x.Floor * srcH - y.Floor * srcW < srcW
  {
    RoundedProduct(x, srcH);
    RoundedProduct(y, srcW);
    Between(x.Floor * srcH, y.Floor * srcW, Times(x, srcH), srcW, srcH);
  }

  lemma WholeAtLeast(x: real)
    requires x >= 1.0
    ensures x.Floor >= 1
  {
  }

  lemma Between(a: int, b: int, p: real, w: int, h: int)
    requires p - h as real < a as real <= p && p - w as real < b as real <= p
    ensures -h < a - b < w
  {
  }

  lemma RoundedProduct(x: real, n: int)
    requires n > 0
    ensures Times(x, n) - n as real < (x.Floor * n) as real <= Times(x, n)
  {
    var f, m := x.Floor as real, n as real;
    ProductOf(x.Floor, n, f, m);
    Spread(x, f, m);
    hide Product;
  }

  /** (a * b) as real, with the real factors named. */
  lemma {:induction false} ProductOf(a: int, b: nat, p: real, q: real)
    requires p == a as real && q == b as real
    ensures (a * b) as real == Product(p, q)
  {
    if b == 0 {
      assert a * b == 0;
    } else {
      ProductOf(a, b - 1, p, q - 1.0);
      assert a * b == a * (b - 1) + a;
      OneLess(p, q);
    }
  }

  lemma OneLess(p: real, q: real)
    ensures p * (q - 1.0) == p * q - p
  {
  }

  lemma Spread(x: real, f: real, m: real)
    requires f <= x < f + 1.0 && m > 0.0
    ensures Product(x, m) - m < Product(f, m) <= Product(x, m)
  {
    hide Product;
    Part(x - f, m);
    Apart(x, f, m);
  }

  lemma Apart(x: real, f: real, m: real)
    ensures Product(x - f, m) == Product(x, m) - Product(f, m)
  {
  }

  lemma Part(u: real, m: real)
    requires 0.0 <= u < 1.0 && m > 0.0
    ensures 0.0 <= Product(u, m) < m
  {
    var rest := (1.0 - u) * m;
    assert rest > 0.0;
    assert rest == m - u * m;
  }

  // ---------------------------------------------------------------- canvas and source

  datatype Transform = Transform(
    dstX: int, dstY: int, dstW: int, dstH: int,
    srcX: int, srcY: int, srcW: int, srcH: int,
    frameW: int, frameH: int)
  {
    predicate Valid() { dstW > 0 && dstH > 0 && srcW > 0 && srcH > 0 }

    function ScaleX(): real
      requires Valid()
    {
      srcW as real / dstW as real
    }

    function ScaleY(): real
      requires Valid()
    {
      srcH as real / dstH as real
    }

    function Unproject(b: Box): Box
      requires Valid()
    {
      Box(UnprojectX(this, b.x1), UnprojectY(this, b.y1), UnprojectX(this, b.x2), UnprojectY(this, b.y2))
    }

    function UnprojectClipped(b: Box): Box
      requires Valid()
    {
      var u := Unproject(b);
      Box(Clip(u.x1, frameW as real), Clip(u.y1, frameH as real), Clip(u.x2, frameW as real), Clip(u.y2, frameH as real))
    }
  }

  function Map(x: real, s: real, o: real): real { x * s + o }

  /** The source-to-canvas map the visual trackers are given. */
  datatype Affine = Affine(sx: real, sy: real, ox: real, oy: real) {
    function Apply(b: Box): Box {
      Box(Map(b.x1, sx, ox), Map(b.y1, sy, oy), Map(b.x2, sx, ox), Map(b.y2, sy, oy))
    }
  }

  function ToCanvas(t: Transform): Affine
    requires t.Valid()
  {
    var sx, sy := t.dstW as real / t.srcW as real, t.dstH as real / t.srcH as real;
    Affine(sx, sy, t.dstX as real - t.srcX as real * sx, t.dstY as real - t.srcY as real * sy)
  }

  lemma BackAndForth(x: real, d: real, s: real, dw: real, sw: real)
    requires dw > 0.0 && sw > 0.0
    ensures (s + (x - d) * (sw / dw)) * (dw / sw) + (d - s * (dw / sw)) == x
    ensures s + ((x * (dw / sw) + (d - s * (dw / sw))) - d) * (sw / dw) == x
  {
    var a, b := sw / dw, dw / sw;
    Inverse(sw, dw);
    assert (s + (x - d) * a) * b == s * b + (x - d) * (a * b);
    assert ((x * b + (d - s * b)) - d) * a == (x - s) * (b * a);
  }

  lemma Inverse(a: real, b: real)
    requires a > 0.0 && b > 0.0
    ensures (a / b) * (b / a) == 1.0
  {
    assert (a / b) * b == a && (b / a) * a == b;
    UndoEachOther(a / b, b / a, a, b);
  }

  lemma UndoEachOther(p: real, q: real, a: real, b: real)
    requires p * b == a && q * a == b && a > 0.0
    ensures p * q == 1.0
  {
    Associate(p, q, a);
    Cancel(p * q, a);
  }

  lemma Associate(p: real, q: real, a: real)
    ensures (p * q) * a == p * (q * a)
  {
  }

  lemma Cancel(x: real, a: real)
    requires x * a == a && a > 0.0
    ensures x == 1.0
  {
    assert (x - 1.0) * a == 0.0;
  }

  /** The two maps undo each other, for any region of interest. */
  lemma MapsAreInverse(t: Transform, b: Box)
    requires t.Valid()
    ensures ToCanvas(t).Apply(t.Unproject(b)) == b
    ensures t.Unproject(ToCanvas(t).Apply(b)) == b
  {
    hide UnprojectX, UnprojectY, ToCanvas, Map;
    OneSide(t, b.x1, b.y1);
    OneSide(t, b.x2, b.y2);
  }

  function UnprojectX(t: Transform, x: real): real
    requires t.Valid()
  {
    t.srcX as real + (x - t.dstX as real) * t.ScaleX()
  }

  function UnprojectY(t: Transform, y: real): real
    requires t.Valid()
  {
    t.srcY as real + (y - t.dstY as real) * t.ScaleY()
  }

  lemma OneSide(t: Transform, x: real, y: real)
    requires t.Valid()
    ensures var m := ToCanvas(t);
            && Map(UnprojectX(t, x), m.sx, m.ox) == x && UnprojectX(t, Map(x, m.sx, m.ox)) == x
            && Map(UnprojectY(t, y), m.sy, m.oy) == y && UnprojectY(t, Map(y, m.sy, m.oy)) == y
  {
    BackAndForth(x, t.dstX as real, t.srcX as real, t.dstW as real, t.srcW as real);
    BackAndForth(y, t.dstY as real, t.srcY as real, t.dstH as real, t.srcH as real);
  }

  /** The placed rectangle maps back to exactly the region of interest. */
  lemma PlacementMapsToRegion(t: Transform)
    requires t.Valid()
    ensures t.Unproject(Box(t.dstX as real, t.dstY as real, (t.dstX + t.dstW) as real, (t.dstY + t.dstH) as real)) ==
            Box(t.srcX as real, t.srcY as real, (t.srcX + t.srcW) as real, (t.srcY + t.srcH) as real)
  {
    assert t.dstW as real * t.ScaleX() == t.srcW as real;
    assert t.dstH as real * t.ScaleY() == t.srcH as real;
  }

  predicate InFrame(t: Transform, b: Box) {
    && 0.0 <= b.x1 <= t.frameW as real && 0.0 <= b.x2 <= t.frameW as real
    && 0.0 <= b.y1 <= t.frameH as real && 0.0 <= b.y2 <= t.frameH as real
  }

  /** Clipped boxes lie in the frame; a box of the frame survives the trip to the canvas
      and back unclipped. */
  lemma ClippedInFrame(t: Transform, b: Box)
    requires t.Valid() && t.frameW >= 0 && t.frameH >= 0
    ensures InFrame(t, t.UnprojectClipped(b))
    ensures InFrame(t, b) ==> t.UnprojectClipped(ToCanvas(t).Apply(b)) == b
  {
    MapsAreInverse(t, b);
    hide ToCanvas, Transform.Unproject, Affine.Apply;
  }

  function Gap(x: real, y: real): real { if x <= y then y - x else x - y }

  lemma ClipIsNearest(x: real, hi: real, p: real)
    requires 0.0 <= p <= hi
    ensures 0.0 <= Clip(x, hi) <= hi && Gap(Clip(x, hi), x) <= Gap(p, x)
  {
  }

  /** Clipping moves a box as little as it can: each coordinate goes to the point of the
      frame that is nearest to it. */
  lemma ClippedIsNearest(t: Transform, b: Box, p: real, q: real)
    requires t.Valid() && 0.0 <= p <= t.frameW as real && 0.0 <= q <= t.frameH as real
    ensures var (u, c) := (t.Unproject(b), t.UnprojectClipped(b));
            && InFrame(t, c)
            && Gap(c.x1, u.x1) <= Gap(p, u.x1) && Gap(c.x2, u.x2) <= Gap(p, u.x2)
            && Gap(c.y1, u.y1) <= Gap(q, u.y1) && Gap(c.y2, u.y2) <= Gap(q, u.y2)
  {
    hide Transform.Unproject, Clip, Gap;
    var u, w, h := t.Unproject(b), t.frameW as real, t.frameH as real;
    ClipIsNearest(u.x1, w, p);
    ClipIsNearest(u.x2, w, p);
    ClipIsNearest(u.y1, h, q);
    ClipIsNearest(u.y2, h, q);
  }

  /** The nearest points of a larger and a smaller coordinate are in the same order. */
  lemma NearestInOrder(x: real, y: real, hi: real)
    requires x <= y && 0.0 <= hi
    ensures Clip(x, hi) <= Clip(y, hi)
  {
    ClipIsNearest(x, hi, Clip(x, hi));
  }

  lemma UnprojectKeepsOrder(t: Transform, x: real, y: real)
    requires t.Valid() && x <= y
    ensures UnprojectX(t, x) <= UnprojectX(t, y) && UnprojectY(t, x) <= UnprojectY(t, y)
  {
    ScaledApart(y - x, t.srcW as real, t.dstW as real);
    ScaledApart(y - x, t.srcH as real, t.dstH as real);
    SpreadBy(x - t.dstX as real, y - t.dstX as real, t.ScaleX());
    SpreadBy(x - t.dstY as real, y - t.dstY as real, t.ScaleY());
  }

  lemma ScaledApart(d: real, a: real, b: real)
    requires d >= 0.0 && a > 0.0 && b > 0.0
    ensures d * (a / b) >= 0.0
  {
    Ratio(a, b);
  }

  lemma SpreadBy(x: real, y: real, s: real)
    ensures y * s - x * s == (y - x) * s
  {
  }

  /** A box with its corners in order keeps them so on the way to the frame. */
  lemma ClippedKeepsOrder(t: Transform, b: Box)
    requires t.Valid() && t.frameW >= 0 && t.frameH >= 0
    ensures var c := t.UnprojectClipped(b); (b.x1 <= b.x2 ==> c.x1 <= c.x2) && (b.y1 <= b.y2 ==> c.y1 <= c.y2)
  {
    hide UnprojectX, UnprojectY, Clip;
    if b.x1 <= b.x2 {
      UnprojectKeepsOrder(t, b.x1, b.x2);
      NearestInOrder(UnprojectX(t, b.x1), UnprojectX(t, b.x2), t.frameW as real);
    }
    if b.y1 <= b.y2 {
      UnprojectKeepsOrder(t, b.y1, b.y2);
      NearestInOrder(UnprojectY(t, b.y1), UnprojectY(t, b.y2), t.frameH as real);
    }
  }
}
