/** The two box filters over runs of predictions and measurements. */
module BoxFilters {
  import opened Shared
  import opened Matrices
  import opened Kalman
  import opened ZeroNoise

  function Max(a: real, b: real): real { if a >= b then a else b }

  /** What a filter carries from frame to frame. */
  datatype State = State(x: seq<real>, p: Matrix)

  ghost predicate Fit(s: State, v: nat) {
    |s.x| == 4 + v && Definite(s.p, v)
  }

  /** A measurement, whatever inverse of S is used: there is only one. */
  function Measured(m: Model, s: State, z: seq<real>): State {
    var inverse := DiagonalInverse(m.S(s.p));
    State(m.UpdateX(s.x, z, s.p, inverse), m.UpdateP(s.p, inverse))
  }

  lemma InverseExists(m: Model, p: Matrix)
    requires m.Valid() && Definite(p, m.v)
    ensures Sensed(m, p) && Inverts(m.S(p), DiagonalInverse(m.S(p)))
  {
    DefiniteSensed(m, p);
    InverseIsDiagonal(m, p, DiagonalInverse(m.S(p)));
  }

  lemma MeasuredFits(m: Model, s: State, z: seq<real>)
    requires m.Noisy() && Fit(s, m.v) && |z| == 4
    ensures Fit(Measured(m, s, z), m.v)
    ensures forall i :: 0 <= i < 4 ==> Amid(s.x[i], Measured(m, s, z).x[i], z[i])
  {
    var inverse := DiagonalInverse(m.S(s.p));
    InverseExists(m, s.p);
    UpdateDefinite(m, s.p, inverse);
    UpdateXEntry(m, s.x, z, s.p, inverse, 0);
    hide Definite, Sensed, Inverts, DiagonalInverse, Model.S, Model.UpdateX, Model.UpdateP, Amid;
    forall i | 0 <= i < 4 ensures Amid(s.x[i], Measured(m, s, z).x[i], z[i]) {
      MeasuredMovesToward(m, s.x, z, s.p, inverse, i);
    }
  }

  /** The part of the residual that entry `i` takes over: the covariance of the entry with
      the quantity it belongs to, over the innovation variance of that quantity. */
  function Correction(m: Model, s: State, z: seq<real>, i: nat): real {
    var b := Quantity(i);
    if b < |z| && b < |s.x| then Times(Share(At(s.p, i, b), Innovation(m, s.p, b)), z[b] - s.x[b]) else 0.0
  }

  lemma CorrectionIs(m: Model, s: State, z: seq<real>, i: nat)
    requires Quantity(i) < |z| && Quantity(i) < |s.x|
    ensures var b := Quantity(i); Correction(m, s, z, i) == Times(Share(At(s.p, i, b), Innovation(m, s.p, b)), z[b] - s.x[b])
  {
    hide Times, Share, Innovation, Quantity;
  }

  lemma MeasuredEntry(m: Model, s: State, z: seq<real>, i: nat)
    requires m.Noisy() && Fit(s, m.v) && |z| == 4 && i < m.N()
    ensures |Measured(m, s, z).x| == |s.x| == m.N()
    ensures Measured(m, s, z).x[i] == s.x[i] + Correction(m, s, z, i)
  {
    hide *;
    FitIs(m, s);
    MeasuredIs(m, s, z);
    InverseExists(m, s.p);
    InQuantities(m, i);
    UpdateXEntry(m, s.x, z, s.p, DiagonalInverse(m.S(s.p)), i);
    CorrectionIs(m, s, z, i);
  }

  lemma FitIs(m: Model, s: State)
    requires m.Noisy() && Fit(s, m.v)
    ensures m.Valid() && Definite(s.p, m.v) && |s.x| == m.N() >= 4
  {
    hide Definite;
  }

  lemma MeasuredIs(m: Model, s: State, z: seq<real>)
    ensures var t := DiagonalInverse(m.S(s.p));
            Measured(m, s, z) == State(m.UpdateX(s.x, z, s.p, t), m.UpdateP(s.p, t))
  {
    hide DiagonalInverse, Model.S, Model.UpdateX, Model.UpdateP;
  }

  lemma MeasuredEntries(m: Model, s: State, z: seq<real>)
    requires m.Noisy() && Fit(s, m.v) && |z| == 4
    ensures |Measured(m, s, z).x| == |s.x| == m.N()
    ensures forall i: nat :: i < m.N() ==> Measured(m, s, z).x[i] == s.x[i] + Correction(m, s, z, i)
  {
    hide *;
    FitIs(m, s);
    forall i: nat | i < m.N()
      ensures |Measured(m, s, z).x| == |s.x| && Measured(m, s, z).x[i] == s.x[i] + Correction(m, s, z, i)
    {
      MeasuredEntry(m, s, z, i);
    }
    MeasuredEntry(m, s, z, 0);
  }

  lemma DiagonalDefinite(d: seq<real>, v: nat)
    requires v <= 4 && |d| == 4 + v && forall i :: 0 <= i < |d| ==> d[i] > 0.0
    ensures Definite(Diagonal(d), v)
  {
    var p := Diagonal(d);
    forall i: nat | i < 4 ensures BlockAt(p, v, i) {
      assert At(p, i, i) == d[i];
      if i < v {
        assert At(p, i, i + 4) == 0.0 && At(p, i + 4, i + 4) == d[i + 4];
        Positive(d[i], d[i + 4]);
      }
    }
  }

  // ---------------------------------------------------------------- SORT

  const SORT_MODEL := Model(3, [1.0, 1.0, 1.0, 0.01, 0.01, 0.01, 0.0001], [1.0, 1.0, 10.0, 10.0])

  /** Centre, area and aspect ratio. */
  function CentreAreaAspect(b: Box): (z: seq<real>)
    ensures |z| == 4
    ensures b.x1 < b.x2 && b.y1 < b.y2 ==> z[2] > 0.0 && z[3] > 0.0
  {
    var w, h := b.x2 - b.x1, b.y2 - b.y1;
    if b.x1 < b.x2 && b.y1 < b.y2 then
      AspectPositive(w, h);
      [b.x1 + w / 2.0, b.y1 + h / 2.0, w * h, w / Max(h, 0.000001)]
    else
      [b.x1 + w / 2.0, b.y1 + h / 2.0, w * h, w / Max(h, 0.000001)]
  }

  lemma AspectPositive(w: real, h: real)
    requires w > 0.0 && h > 0.0
    ensures w * h > 0.0 && w / Max(h, 0.000001) > 0.0
  {
    Positive(w, h);
    var m := Max(h, 0.000001);
    assert w / m * m == w;
    PositiveFactor(w / m, m);
  }

  /** What is measured of a box gives it back: the centre lies between its corners, area
      times aspect ratio is the square of its width, and its height times the aspect
      ratio the width. */
  lemma MeasuresOfBox(b: Box)
    requires Proper(b) && b.y2 - b.y1 >= 0.000001
    ensures var (z, w, h) := (CentreAreaAspect(b), b.x2 - b.x1, b.y2 - b.y1);
            && b.x1 == z[0] - w / 2.0 && b.x2 == z[0] + w / 2.0 && b.y1 == z[1] - h / 2.0 && b.y2 == z[1] + h / 2.0
            && z[2] == w * h && z[3] * h == w && z[2] * z[3] == w * w
  {
    var w, h := b.x2 - b.x1, b.y2 - b.y1;
    assert w / h * h == w;
    assert w * h * (w / h) == w * (w / h * h);
  }

  function SortStart(b: Box): State {
    State(CentreAreaAspect(b) + [0.0, 0.0, 0.0], Diagonal([10.0, 10.0, 10.0, 10.0, 10000.0, 10000.0, 10000.0]))
  }

  /** The area velocity is dropped when it would take the area below zero. */
  function Held(x: seq<real>): seq<real>
    requires |x| == 7
  {
    if x[2] + x[6] <= 0.0 then x[6 := 0.0] else x
  }

  function SortPredict(s: State): State
    requires |s.x| == 7
  {
    State(SORT_MODEL.PredictX(Held(s.x)), SORT_MODEL.PredictP(s.p))
  }

  function SortUpdate(s: State, b: Box): State {
    Measured(SORT_MODEL, s, CentreAreaAspect(b))
  }

  datatype Step = Predict | Update(box: Box, fromDetector: bool)

  ghost predicate SortFit(s: State) {
    Fit(s, 3) && s.x[2] > 0.0 && s.x[3] > 0.0
  }

  predicate Proper(b: Box) { b.x1 < b.x2 && b.y1 < b.y2 }

  lemma SortStartFit(b: Box)
    ensures Fit(SortStart(b), 3)
    ensures Proper(b) ==> SortFit(SortStart(b))
  {
    DiagonalDefinite([10.0, 10.0, 10.0, 10.0, 10000.0, 10000.0, 10000.0], 3);
  }

  lemma SortPredictFit(s: State)
    requires Fit(s, 3)
    ensures Fit(SortPredict(s), 3)
    ensures s.x[2] > 0.0 ==> SortPredict(s).x[2] > 0.0
    ensures SortPredict(s).x[3] == s.x[3]
  {
    var x := Held(s.x);
    PredictDefinite(SORT_MODEL, s.p);
    PredictXEntry(SORT_MODEL, x, 2);
    PredictXEntry(SORT_MODEL, x, 3);
    hide Model.PredictX, Model.PredictP, Definite;
  }

  /** What a prediction does to the state, entry by entry. */
  lemma SortPredictEntries(s: State)
    requires |s.x| == 7
    ensures |Held(s.x)| == 7 && |SortPredict(s).x| == 7
    ensures var (x, y) := (s.x, SortPredict(s).x);
            && y[0] == x[0] + x[4] && y[1] == x[1] + x[5] && y[3] == x[3] && y[4] == x[4] && y[5] == x[5]
            && if x[2] + x[6] > 0.0 then y[2] == x[2] + x[6] && y[6] == x[6] else y[2] == x[2] && y[6] == 0.0
  {
    hide *;
    SortModelIs();
    HeldIs(s.x);
    SortPredictIs(s);
    var x := Held(s.x);
    PredictXEntry(SORT_MODEL, x, 0);
    PredictXEntry(SORT_MODEL, x, 1);
    PredictXEntry(SORT_MODEL, x, 2);
    PredictXEntry(SORT_MODEL, x, 3);
    PredictXEntry(SORT_MODEL, x, 4);
    PredictXEntry(SORT_MODEL, x, 5);
    PredictXEntry(SORT_MODEL, x, 6);
  }

  /** The covariance a new track has, and what the first prediction makes of it. */
  ghost predicate FreshCovariance(p: Matrix) {
    && Is(p, 7, 7)
    && forall i: nat, j: nat :: i < 7 && j < 7 ==> At(p, i, j) == if i != j then 0.0 else if i < 4 then 10.0 else 10000.0
  }

  ghost predicate OncePredicted(p: Matrix) {
    && At(p, 0, 0) == At(p, 1, 1) == At(p, 2, 2) == 10011.0 && At(p, 3, 3) == 10.01
    && At(p, 4, 0) == At(p, 5, 1) == At(p, 6, 2) == 10000.0
    && At(p, 4, 4) == At(p, 5, 5) == 10000.01 && At(p, 6, 6) == 10000.0001
  }

  lemma FirstPrediction(p: Matrix)
    requires FreshCovariance(p)
    ensures OncePredicted(SORT_MODEL.PredictP(p))
  {
    hide Model.PredictP, Is;
    SortModelIs();
    SortNoiseIs();
    PredictEntry(SORT_MODEL, p, 0, 0);
    PredictEntry(SORT_MODEL, p, 1, 1);
    PredictEntry(SORT_MODEL, p, 2, 2);
    PredictEntry(SORT_MODEL, p, 3, 3);
    PredictEntry(SORT_MODEL, p, 4, 0);
    PredictEntry(SORT_MODEL, p, 5, 1);
    PredictEntry(SORT_MODEL, p, 6, 2);
    PredictEntry(SORT_MODEL, p, 4, 4);
    PredictEntry(SORT_MODEL, p, 5, 5);
    PredictEntry(SORT_MODEL, p, 6, 6);
  }

  lemma SortNoiseIs()
    ensures SORT_MODEL.q == [1.0, 1.0, 1.0, 0.01, 0.01, 0.01, 0.0001] && SORT_MODEL.r == [1.0, 1.0, 10.0, 10.0]
  {
  }

  lemma SortStartIs(b: Box)
    ensures var s := SortStart(b);
            && |s.x| == 7 && s.x[..4] == CentreAreaAspect(b) && s.x[4..] == [0.0, 0.0, 0.0] && FreshCovariance(s.p)
  {
    SortStartFit(b);
  }

  lemma CorrectionWith(s: State, z: seq<real>, i: nat, g: real, n: real)
    requires i < 7 && |z| == 4 && |s.x| == 7 && |SORT_MODEL.r| == 4
    requires var b := Quantity(i); b < 4 && At(s.p, i, b) == g && At(s.p, b, b) + SORT_MODEL.r[b] == n && n > 0.0
    ensures Correction(SORT_MODEL, s, z, i) == g / n * (z[Quantity(i)] - s.x[Quantity(i)])
  {
  }

  /** How much of a second box a new track takes over: nearly all of its centre and area,
      half of its ratio, and what it has moved and grown by as velocity. */
  lemma SecondBox(b: Box, c: Box)
    ensures var (z, w, x) := (CentreAreaAspect(b), CentreAreaAspect(c), SortUpdate(SortPredict(SortStart(b)), c).x);
            && |x| == 7
            && x[0] == z[0] + 10011.0 / 10012.0 * (w[0] - z[0]) && x[1] == z[1] + 10011.0 / 10012.0 * (w[1] - z[1])
            && x[2] == z[2] + 10011.0 / 10021.0 * (w[2] - z[2]) && x[3] == z[3] + 10.01 / 20.01 * (w[3] - z[3])
            && x[4] == 10000.0 / 10012.0 * (w[0] - z[0]) && x[5] == 10000.0 / 10012.0 * (w[1] - z[1])
            && x[6] == 10000.0 / 10021.0 * (w[2] - z[2])
  {
    hide *;
    SortModelIs();
    SortNoiseIs();
    SortStartIs(b);
    SortStartFit(b);
    FirstPrediction(SortStart(b).p);
    SortPredictIs(SortStart(b));
    OnceMeans(SORT_MODEL.PredictP(SortStart(b).p));
    SortPredictFit(SortStart(b));
    SortPredictEntries(SortStart(b));
    QuantitiesAre();
    var s, w := SortPredict(SortStart(b)), CentreAreaAspect(c);
    SortUpdateIs(s, c);
    MeasuredEntries(SORT_MODEL, s, w);
    CorrectionWith(s, w, 0, 10011.0, 10012.0);
    CorrectionWith(s, w, 1, 10011.0, 10012.0);
    CorrectionWith(s, w, 2, 10011.0, 10021.0);
    CorrectionWith(s, w, 3, 10.01, 20.01);
    CorrectionWith(s, w, 4, 10000.0, 10012.0);
    CorrectionWith(s, w, 5, 10000.0, 10012.0);
    CorrectionWith(s, w, 6, 10000.0, 10021.0);
  }

  lemma OnceMeans(p: Matrix)
    requires OncePredicted(p)
    ensures At(p, 0, 0) == At(p, 1, 1) == At(p, 2, 2) == 10011.0 && At(p, 3, 3) == 10.01
    ensures At(p, 4, 0) == At(p, 5, 1) == At(p, 6, 2) == 10000.0
  {
  }

  lemma QuantitiesAre()
    ensures Quantity(0) == Quantity(4) == 0 && Quantity(1) == Quantity(5) == 1 && Quantity(2) == Quantity(6) == 2 && Quantity(3) == 3
  {
  }

  lemma SortUpdateIs(s: State, b: Box)
    ensures SortUpdate(s, b) == Measured(SORT_MODEL, s, CentreAreaAspect(b))
  {
    hide Measured;
  }

  lemma SortModelIs()
    ensures SORT_MODEL.Noisy() && SORT_MODEL.Valid() && SORT_MODEL.v == 3 && SORT_MODEL.N() == 7
  {
  }

  lemma HeldIs(x: seq<real>)
    requires |x| == 7
    ensures |Held(x)| == 7
    ensures Held(x)[6] == if x[2] + x[6] > 0.0 then x[6] else 0.0
    ensures forall i :: 0 <= i < 6 ==> Held(x)[i] == x[i]
  {
  }

  lemma SortPredictIs(s: State)
    requires |s.x| == 7
    ensures |Held(s.x)| == 7
    ensures SortPredict(s) == State(SORT_MODEL.PredictX(Held(s.x)), SORT_MODEL.PredictP(s.p))
  {
    HeldIs(s.x);
    hide Held, Model.PredictX, Model.PredictP;
  }

  lemma SortUpdateFit(s: State, b: Box)
    requires Fit(s, 3)
    ensures Fit(SortUpdate(s, b), 3)
    ensures Proper(b) && SortFit(s) ==> SortFit(SortUpdate(s, b))
  {
    MeasuredFits(SORT_MODEL, s, CentreAreaAspect(b));
    hide Definite, Measured, Inverts, CentreAreaAspect;
    assert Amid(s.x[2], SortUpdate(s, b).x[2], CentreAreaAspect(b)[2]);
    assert Amid(s.x[3], SortUpdate(s, b).x[3], CentreAreaAspect(b)[3]);
  }

  /** Any interleaving of predictions and measurements. */
  function SortRun(b: Box, steps: seq<Step>): State
    ensures Fit(SortRun(b, steps), 3)
  {
    if steps == [] then SortStartFit(b); SortStart(b)
    else
      var n := |steps| - 1;
      var s := SortRun(b, steps[..n]);
      match steps[n]
      case Predict => SortPredictFit(s); SortPredict(s)
      case Update(box, _) => SortUpdateFit(s, box); SortUpdate(s, box)
  }

  ghost predicate AllProper(steps: seq<Step>) {
    forall k :: 0 <= k < |steps| && steps[k].Update? ==> Proper(steps[k].box)
  }

  lemma {:induction false} SortRunPositive(b: Box, steps: seq<Step>)
    requires Proper(b) && AllProper(steps)
    ensures SortFit(SortRun(b, steps))
  {
    hide Fit, SortPredict, SortUpdate, SortStart;
    if steps == [] {
      SortStartFit(b);
    } else {
      var n := |steps| - 1;
      SortRunPositive(b, steps[..n]);
      var s := SortRun(b, steps[..n]);
      match steps[n]
      case Predict => SortPredictFit(s);
      case Update(box, _) => SortUpdateFit(s, box);
    }
  }

  /** In every run on boxes with an area the area and the aspect ratio stay positive,
      the innovation covariance has exactly one inverse, and every gain is inside (0, 1). */
  lemma SortStaysPositive(b: Box, steps: seq<Step>, t: Matrix)
    requires Proper(b) && AllProper(steps)
    ensures var s := SortRun(b, steps);
            && s.x[2] > 0.0 && s.x[3] > 0.0
            && Inverts(SORT_MODEL.S(s.p), DiagonalInverse(SORT_MODEL.S(s.p)))
            && (Inverts(SORT_MODEL.S(s.p), t) ==>
                  t == DiagonalInverse(SORT_MODEL.S(s.p)) &&
                  forall i: nat :: i < 4 ==> 0.0 < At(SORT_MODEL.K(s.p, t), i, i) < 1.0)
  {
    SortRunPositive(b, steps);
    hide Definite, Inverts, DiagonalInverse, Model.S, Model.K, SortRun;
    OneInverse(SORT_MODEL, SortRun(b, steps), t);
  }

  lemma OneInverse(m: Model, s: State, t: Matrix)
    requires m.Noisy() && Fit(s, m.v)
    ensures Inverts(m.S(s.p), DiagonalInverse(m.S(s.p)))
    ensures Inverts(m.S(s.p), t) ==>
              t == DiagonalInverse(m.S(s.p)) && forall i: nat :: i < 4 ==> 0.0 < At(m.K(s.p, t), i, i) < 1.0
  {
    InverseExists(m, s.p);
    if Inverts(m.S(s.p), t) {
      assert Is(t, 4, 4);
      InverseIsDiagonal(m, s.p, t);
      hide Definite, Sensed, Inverts, DiagonalInverse, Model.S, Model.K, Is, At, Amid;
      forall i: nat | i < 4 ensures 0.0 < At(m.K(s.p, t), i, i) < 1.0 {
        MeasuredMovesToward(m, s.x, [0.0, 0.0, 0.0, 0.0], s.p, t, i);
      }
    }
  }

  /** SORT's filter object. */
  class SortFilter {
    var x: seq<real>
    var p: Matrix

    function Now(): State
      reads this
    {
      State(x, p)
    }

    ghost predicate Valid()
      reads this
    {
      Fit(Now(), 3)
    }

    constructor (b: Box)
      ensures Valid() && Now() == SortStart(b) && |x| == 7 && x[..4] == CentreAreaAspect(b) && x[4..] == [0.0, 0.0, 0.0]
      ensures forall i: nat, j: nat :: i < 7 && j < 7 ==> At(p, i, j) == if i != j then 0.0 else if i < 4 then 10.0 else 10000.0
    {
      x := CentreAreaAspect(b) + [0.0, 0.0, 0.0];
      p := Diagonal([10.0, 10.0, 10.0, 10.0, 10000.0, 10000.0, 10000.0]);
      new;
      SortStartFit(b);
    }

    method HoldArea()
      requires |x| == 7
      modifies this`x
      ensures x == Held(old(x))
    {
      if x[2] + x[6] <= 0.0 {
        x := x[6 := 0.0];
      }
    }

    method PredictStep()
      requires Valid()
      modifies this
      ensures Valid() && Now() == SortPredict(old(Now())) && |x| == |old(x)| == 7
      ensures old(x)[2] > 0.0 ==> x[2] > 0.0
      ensures if old(x)[2] + old(x)[6] > 0.0 then x[2] == old(x)[2] + old(x)[6] && x[6] == old(x)[6]
              else x[2] == old(x)[2] && x[6] == 0.0
      ensures x[0] == old(x)[0] + old(x)[4] && x[1] == old(x)[1] + old(x)[5]
      ensures x[3] == old(x)[3] && x[4] == old(x)[4] && x[5] == old(x)[5]
    {
      hide *;
      Fields();
      SortPredictFit(Now());
      SortPredictEntries(Now());
      SortPredictIs(Now());
      HoldArea();
      x, p := SORT_MODEL.PredictX(x), SORT_MODEL.PredictP(p);
      Fields();
    }

    lemma Fields()
      ensures Now() == State(x, p) && (Valid() <==> Fit(Now(), 3))
      ensures Valid() ==> |x| == 7
    {
      hide Definite;
    }

    method UpdateStep(b: Box)
      requires Valid()
      modifies this
      ensures Valid() && Now() == SortUpdate(old(Now()), b)
      ensures |x| == |old(x)| == 7
      ensures forall i :: 0 <= i < 4 ==> Amid(old(x)[i], x[i], CentreAreaAspect(b)[i])
      ensures forall i: nat :: i < 7 ==> x[i] == old(x)[i] + Correction(SORT_MODEL, old(Now()), CentreAreaAspect(b), i)
    {
      MeasuredFits(SORT_MODEL, Now(), CentreAreaAspect(b));
      MeasuredEntries(SORT_MODEL, Now(), CentreAreaAspect(b));
      hide Definite, Model.UpdateX, Model.UpdateP, Model.S, DiagonalInverse, CentreAreaAspect;
      var inverse := DiagonalInverse(SORT_MODEL.S(p));
      x, p := SORT_MODEL.UpdateX(x, CentreAreaAspect(b), p, inverse), SORT_MODEL.UpdateP(p, inverse);
    }
  }

  // ---------------------------------------------------------------- NvDCF

  /** The noise variances of the configuration; any of them may be zero. */
  datatype Noise = Noise(location: real, size: real, velocity: real, detector: real, tracker: real) {
    predicate Valid() {
      location >= 0.0 && size >= 0.0 && velocity >= 0.0 && detector >= 0.0 && tracker >= 0.0
    }

    /** Nothing measured is certain. */
    predicate Measuring() {
      Valid() && detector > 0.0 && tracker > 0.0
    }

    function Model(fromDetector: bool): Kalman.Model {
      var r := if fromDetector then detector else tracker;
      Kalman.Model(2, [location, location, size, size, velocity, velocity], [r, r, r, r])
    }
  }

  /** Where a run leads; inverting a singular matrix raises an error. */
  datatype Outcome = Singular | Reached(state: State)

  /** Centre, width and height, the latter at least one pixel. */
  function CentreSize(b: Box): (z: seq<real>)
    ensures |z| == 4 && z[2] >= 1.0 && z[3] >= 1.0
  {
    [(b.x1 + b.x2) / 2.0, (b.y1 + b.y2) / 2.0, Max(b.x2 - b.x1, 1.0), Max(b.y2 - b.y1, 1.0)]
  }

  /** The box a state stands for. */
  function BoxOf(x: seq<real>): Box
    requires |x| >= 4
  {
    Box(x[0] - x[2] / 2.0, x[1] - x[3] / 2.0, x[0] + x[2] / 2.0, x[1] + x[3] / 2.0)
  }

  /** A box with sides of a pixel or more comes back from its measures; a thinner one is
      widened about its centre. */
  lemma SizeOfBox(b: Box)
    ensures var c := BoxOf(CentreSize(b));
            && c.x1 + c.x2 == b.x1 + b.x2 && c.y1 + c.y2 == b.y1 + b.y2
            && (if b.x2 - b.x1 >= 1.0 then c.x1 == b.x1 && c.x2 == b.x2 else c.x2 - c.x1 == 1.0)
            && (if b.y2 - b.y1 >= 1.0 then c.y1 == b.y1 && c.y2 == b.y2 else c.y2 - c.y1 == 1.0)
  {
  }

  /** The noise of a prediction and of the measurement at hand. */
  lemma NoiseOf(n: Noise, fromDetector: bool)
    ensures var m := n.Model(fromDetector);
            && m.v == 2 && |m.q| == 6 && |m.r| == 4
            && m.q[0] == m.q[1] == n.location && m.q[2] == m.q[3] == n.size && m.q[4] == m.q[5] == n.velocity
            && forall i :: 0 <= i < 4 ==> m.r[i] == if fromDetector then n.detector else n.tracker
  {
  }

  function DcfStart(n: Noise, b: Box): State {
    State(CentreSize(b) + [0.0, 0.0],
          Diagonal([n.detector, n.detector, n.detector, n.detector, n.velocity * 10.0, n.velocity * 10.0]))
  }

  function DcfPredict(n: Noise, s: State): State
    requires |s.x| == 6
  {
    var x := n.Model(true).PredictX(s.x);
    State(x[2 := Max(x[2], 1.0)][3 := Max(x[3], 1.0)], n.Model(true).PredictP(s.p))
  }

  /** Elimination on a diagonal matrix needs every entry of the diagonal. */
  predicate Solvable(s: Matrix) {
    At(s, 0, 0) != 0.0 && At(s, 1, 1) != 0.0 && At(s, 2, 2) != 0.0 && At(s, 3, 3) != 0.0
  }

  function DcfUpdate(n: Noise, s: State, b: Box, fromDetector: bool): Outcome {
    var m := n.Model(fromDetector);
    if Solvable(m.S(s.p)) then Reached(Measured(m, s, CentreSize(b))) else Singular
  }

  ghost predicate DcfFit(s: State) {
    |s.x| == 6 && Semidefinite(s.p, 2) && s.x[2] >= 1.0 && s.x[3] >= 1.0
  }

  lemma DiagonalSemidefinite(d: seq<real>, v: nat)
    requires v <= 4 && |d| == 4 + v && forall i :: 0 <= i < |d| ==> d[i] >= 0.0
    ensures Semidefinite(Diagonal(d), v)
  {
    var p := Diagonal(d);
    forall i: nat | i < 4 ensures SemiBlockAt(p, v, i) {
      assert At(p, i, i) == d[i];
      if i < v {
        assert At(p, i, i + 4) == 0.0 && At(p, i + 4, i + 4) == d[i + 4];
        NotNegative(d[i], d[i + 4]);
      }
    }
  }

  lemma DcfStartFit(n: Noise, b: Box)
    requires n.Valid()
    ensures DcfFit(DcfStart(n, b))
  {
    DiagonalSemidefinite([n.detector, n.detector, n.detector, n.detector, n.velocity * 10.0, n.velocity * 10.0], 2);
    hide Semidefinite, Diagonal;
  }

  lemma DcfPredictFit(n: Noise, s: State)
    requires n.Valid() && DcfFit(s)
    ensures DcfFit(DcfPredict(n, s)) && |n.Model(true).PredictX(s.x)| == 6
  {
    PredictSemidefinite(n.Model(true), s.p);
    PredictXEntry(n.Model(true), s.x, 2);
    hide Model.PredictX, Model.PredictP, Semidefinite;
  }

  lemma DcfModelIs(n: Noise)
    requires n.Valid()
    ensures n.Model(true).Valid() && n.Model(true).v == 2 && n.Model(true).N() == 6
  {
  }

  lemma DcfPredictIs(n: Noise, s: State)
    requires n.Valid() && |s.x| == 6
    ensures var x := n.Model(true).PredictX(s.x);
            |x| == 6 && DcfPredict(n, s) == State(x[2 := Max(x[2], 1.0)][3 := Max(x[3], 1.0)], n.Model(true).PredictP(s.p))
  {
    DcfModelIs(n);
    PredictXEntry(n.Model(true), s.x, 0);
    hide Model.PredictX, Model.PredictP, Max, Noise.Model;
  }

  /** What a prediction does to the state, entry by entry. */
  lemma DcfPredictEntries(n: Noise, s: State)
    requires n.Valid() && |s.x| == 6
    ensures |n.Model(true).PredictX(s.x)| == 6
    ensures var (x, y) := (s.x, DcfPredict(n, s).x);
            && |y| == 6 && y[0] == x[0] + x[4] && y[1] == x[1] + x[5]
            && y[2] == Max(x[2], 1.0) && y[3] == Max(x[3], 1.0) && y[4] == x[4] && y[5] == x[5]
  {
    hide *;
    var m := n.Model(true);
    DcfModelIs(n);
    DcfPredictIs(n, s);
    PredictXEntry(m, s.x, 0);
    PredictXEntry(m, s.x, 1);
    PredictXEntry(m, s.x, 2);
    PredictXEntry(m, s.x, 3);
    PredictXEntry(m, s.x, 4);
    PredictXEntry(m, s.x, 5);
  }

  /** S can be inverted exactly when every innovation has a variance. */
  lemma SolvableExactly(m: Model, p: Matrix)
    requires m.Valid() && Semidefinite(p, m.v)
    ensures Solvable(m.S(p)) <==> Sensed(m, p)
    ensures Solvable(m.S(p)) <==> Inverts(m.S(p), DiagonalInverse(m.S(p)))
    ensures Solvable(m.S(p)) <==> exists t :: Inverts(m.S(p), t)
  {
    InvertibleExactly(m, p);
    hide Inverts, DiagonalInverse;
    forall i: nat | i < 4 ensures At(m.S(p), i, i) == Innovation(m, p, i) >= 0.0 {
      Values(m, p, i);
      SEntry(m, p, i, i);
      hide Model.S, Semidefinite;
    }
    ByQuantity(m, p);
  }

  lemma ByQuantity(m: Model, p: Matrix)
    requires m.Valid() && Semidefinite(p, m.v)
    requires forall i: nat :: i < 4 ==> At(m.S(p), i, i) == Innovation(m, p, i) >= 0.0
    ensures Solvable(m.S(p)) <==> Sensed(m, p)
  {
    hide Model.S, Innovation;
    assert Blocky(p, m.N());
    if Solvable(m.S(p)) {
      forall i: nat | i < 4 ensures Innovation(m, p, i) > 0.0 {
        assert At(m.S(p), i, i) == Innovation(m, p, i);
        assert i == 0 || i == 1 || i == 2 || i == 3;
      }
    }
    if Sensed(m, p) {
      assert forall i: nat :: i < 4 ==> At(m.S(p), i, i) > 0.0;
      assert At(m.S(p), 0, 0) > 0.0;
    }
  }

  /** A measurement that succeeds, with the inverse it used. */
  lemma Reaches(n: Noise, s: State, b: Box, fromDetector: bool, m: Model, t: Matrix)
    requires n.Valid() && DcfFit(s) && DcfUpdate(n, s, b, fromDetector).Reached?
    requires m == n.Model(fromDetector) && t == DiagonalInverse(m.S(s.p))
    ensures m.Valid() && m.v == 2 && m.N() == 6 && |s.x| == 6 && Semidefinite(s.p, 2) && s.x[2] >= 1.0 && s.x[3] >= 1.0
    ensures Inverts(m.S(s.p), t) && Sensed(m, s.p)
    ensures DcfUpdate(n, s, b, fromDetector).state == State(m.UpdateX(s.x, CentreSize(b), s.p, t), m.UpdateP(s.p, t))
  {
    SolvableExactly(m, s.p);
    hide Semidefinite, CentreSize, Inverts, DiagonalInverse, Model.S, Model.UpdateX, Model.UpdateP, Solvable, Sensed;
  }

  lemma DcfUpdateFit(n: Noise, s: State, b: Box, fromDetector: bool)
    requires n.Valid() && DcfFit(s) && DcfUpdate(n, s, b, fromDetector).Reached?
    ensures DcfFit(DcfUpdate(n, s, b, fromDetector).state)
  {
    hide *;
    var m, z := n.Model(fromDetector), CentreSize(b);
    var t := DiagonalInverse(m.S(s.p));
    Reaches(n, s, b, fromDetector, m, t);
    UpdateSemidefinite(m, s.p, t);
    MeasuredWithin(m, s.x, z, s.p, t, 2);
    MeasuredWithin(m, s.x, z, s.p, t, 3);
    MakesFit(DcfUpdate(n, s, b, fromDetector).state, s.x, z);
  }

  lemma MakesFit(s: State, x: seq<real>, z: seq<real>)
    requires |s.x| == 6 && |x| == 6 && |z| == 4 && Semidefinite(s.p, 2)
    requires x[2] >= 1.0 && x[3] >= 1.0 && z[2] >= 1.0 && z[3] >= 1.0
    requires Within(x[2], s.x[2], z[2]) && Within(x[3], s.x[3], z[3])
    ensures DcfFit(s)
  {
    hide Semidefinite;
  }

  /** Any interleaving of predictions and measurements, up to a matrix that cannot be inverted. */
  function DcfRun(n: Noise, b: Box, steps: seq<Step>): Outcome
    requires n.Valid()
    ensures DcfRun(n, b, steps).Reached? ==> DcfFit(DcfRun(n, b, steps).state)
  {
    if steps == [] then DcfStartFit(n, b); Reached(DcfStart(n, b))
    else
      var k := |steps| - 1;
      match DcfRun(n, b, steps[..k])
      case Singular => Singular
      case Reached(s) =>
        match steps[k]
        case Predict => DcfPredictFit(n, s); Reached(DcfPredict(n, s))
        case Update(box, fromDetector) =>
          if DcfUpdate(n, s, box, fromDetector).Reached? then DcfUpdateFit(n, s, box, fromDetector); DcfUpdate(n, s, box, fromDetector)
          else Singular
  }

  lemma DcfFitMeans(n: Noise, s: State, fromDetector: bool)
    requires n.Valid() && DcfFit(s)
    ensures n.Model(fromDetector).Valid() && n.Model(fromDetector).v == 2 && Semidefinite(s.p, 2)
    ensures |s.x| == n.Model(fromDetector).N() == 6 && s.x[2] >= 1.0 && s.x[3] >= 1.0
  {
  }

  /** Whatever the noise: in every run that gets so far width and height are at least
      one pixel, S can be inverted if and only if every innovation has a variance, its
      inverse is one and diagonal, and every gain is inside [0, 1]. */
  lemma DcfStaysSane(n: Noise, b: Box, steps: seq<Step>, fromDetector: bool, t: Matrix)
    requires n.Valid() && DcfRun(n, b, steps).Reached?
    ensures var s := DcfRun(n, b, steps).state;
            var m := n.Model(fromDetector);
            && |s.x| == 6 && s.x[2] >= 1.0 && s.x[3] >= 1.0 && Semidefinite(s.p, 2)
            && ((exists u :: Inverts(m.S(s.p), u)) <==> forall i: nat :: i < 4 ==> Innovation(m, s.p, i) > 0.0)
            && (Inverts(m.S(s.p), t) ==>
                  t == DiagonalInverse(m.S(s.p)) && forall i: nat :: i < 4 ==> 0.0 <= At(m.K(s.p, t), i, i) <= 1.0)
  {
    hide *;
    var s, m := DcfRun(n, b, steps).state, n.Model(fromDetector);
    DcfFitMeans(n, s, fromDetector);
    InvertibleExactly(m, s.p);
    SensedMeans(m, s.p);
    if Inverts(m.S(s.p), t) {
      InvertsSensed(m, s.p, t);
      InvertsIs(m.S(s.p), t);
      InverseIsDiagonal(m, s.p, t);
      forall i: nat | i < 4 ensures 0.0 <= At(m.K(s.p, t), i, i) <= 1.0 {
        MeasuredWithin(m, s.x, [0.0, 0.0, 0.0, 0.0], s.p, t, i);
      }
    }
  }

  lemma SensedMeans(m: Model, p: Matrix)
    requires m.Valid() && Semidefinite(p, m.v)
    ensures Sensed(m, p) <==> forall i: nat :: i < 4 ==> Innovation(m, p, i) > 0.0
  {
    hide Innovation;
    assert Blocky(p, m.N());
  }

  lemma InvertsIs(s: Matrix, t: Matrix)
    requires Inverts(s, t)
    ensures Is(t, 4, 4)
  {
  }

  // ---------------------------------------------------------------- measurements with noise

  /** With noise in the measurement there is always something to divide by. */
  lemma MeasuringSolves(n: Noise, s: State, fromDetector: bool)
    requires n.Measuring() && DcfFit(s)
    ensures Solvable(n.Model(fromDetector).S(s.p))
  {
    var m := n.Model(fromDetector);
    SolvableExactly(m, s.p);
    forall i: nat | i < 4 ensures Innovation(m, s.p, i) > 0.0 {
      Values(m, s.p, i);
    }
    SensedMeans(m, s.p);
    hide Solvable, Sensed, Model.S, Semidefinite, Inverts;
  }

  lemma {:induction false} MeasuringReaches(n: Noise, b: Box, steps: seq<Step>)
    requires n.Measuring()
    ensures DcfRun(n, b, steps).Reached?
  {
    hide DcfFit, DcfStart, DcfPredict, Solvable, Noise.Model;
    if steps != [] {
      var k := |steps| - 1;
      MeasuringReaches(n, b, steps[..k]);
      var s := DcfRun(n, b, steps[..k]).state;
      if steps[k].Update? {
        MeasuringSolves(n, s, steps[k].fromDetector);
      }
    }
  }

  /** A quantity that is certain, measured with certainty. */
  lemma NothingToDivideBy(n: Noise, s: State, b: Box, fromDetector: bool)
    requires n.Valid() && DcfFit(s) && Innovation(n.Model(fromDetector), s.p, 0) == 0.0
    ensures DcfUpdate(n, s, b, fromDetector) == Singular
  {
    var m := n.Model(fromDetector);
    SolvableExactly(m, s.p);
    SensedMeans(m, s.p);
    hide Solvable, Sensed, Model.S, Semidefinite, Inverts, Innovation;
  }

  lemma OneMore(n: Noise, b: Box, steps: seq<Step>, s: Step)
    requires n.Valid() && s.Update?
    ensures DcfRun(n, b, steps + [s]) ==
            match DcfRun(n, b, steps)
            case Singular => Singular
            case Reached(r) => DcfUpdate(n, r, s.box, s.fromDetector)
  {
    assert (steps + [s])[..|steps|] == steps;
    hide DcfStart, DcfUpdate, DcfFit, DcfPredict;
  }

  lemma NoStep(n: Noise, b: Box)
    requires n.Valid()
    ensures DcfRun(n, b, []) == Reached(DcfStart(n, b))
  {
    hide DcfStart, DcfFit;
  }

  lemma OneStep(n: Noise, b: Box, s: Step)
    requires n.Valid() && s.Update?
    ensures DcfRun(n, b, [s]) == DcfUpdate(n, DcfStart(n, b), s.box, s.fromDetector)
    ensures DcfRun(n, b, [s, s]) ==
            match DcfRun(n, b, [s]) case Singular => Singular case Reached(r) => DcfUpdate(n, r, s.box, s.fromDetector)
  {
    hide *;
    NoStep(n, b);
    OneMore(n, b, [], s);
    OneMore(n, b, [s], s);
    assert [] + [s] == [s] && [s] + [s] == [s, s];
  }

  lemma StartVariance(n: Noise, b: Box)
    ensures At(DcfStart(n, b).p, 0, 0) == n.detector
  {
    assert At(Diagonal([n.detector, n.detector, n.detector, n.detector, n.velocity * 10.0, n.velocity * 10.0]), 0, 0) == n.detector;
  }

  lemma TrackerNoise(n: Noise)
    requires n.Valid() && n.tracker == 0.0
    ensures |n.Model(false).r| == 4 && n.Model(false).r[0] == 0.0
  {
  }

  /** What a measurement without noise leaves is certain. */
  lemma CertainAfter(n: Noise, s: State, b: Box)
    requires n.Valid() && n.tracker == 0.0 && DcfFit(s) && DcfUpdate(n, s, b, false).Reached?
    ensures At(DcfUpdate(n, s, b, false).state.p, 0, 0) == 0.0
  {
    hide *;
    var m := n.Model(false);
    var t := DiagonalInverse(m.S(s.p));
    Reaches(n, s, b, false, m, t);
    TrackerNoise(n);
    Values(m, s.p, 0);
    SensedAt(m, s.p, 0);
    UpdateEntry(m, s.p, t, 0, 0);
    Reduces(At(s.p, 0, 0), 0.0);
  }

  lemma ZeroInnovation(n: Noise, p: Matrix, fromDetector: bool)
    requires At(p, 0, 0) == 0.0 && (if fromDetector then n.detector else n.tracker) == 0.0
    ensures Innovation(n.Model(fromDetector), p, 0) == 0.0
  {
  }

  /** No run ever meets a matrix that cannot be inverted if and only if neither the
      detector nor the tracker measures without noise. */
  lemma NeverSingular(n: Noise)
    requires n.Valid()
    ensures (forall b: Box, steps: seq<Step> :: DcfRun(n, b, steps).Reached?) <==> n.detector > 0.0 && n.tracker > 0.0
  {
    var b := Box(0.0, 0.0, 1.0, 1.0);
    if n.detector == 0.0 {
      OneStep(n, b, Update(b, true));
      DcfStartFit(n, b);
      StartVariance(n, b);
      hide *;
      ZeroInnovation(n, DcfStart(n, b).p, true);
      NothingToDivideBy(n, DcfStart(n, b), b, true);
      assert !DcfRun(n, b, [Update(b, true)]).Reached?;
    } else if n.tracker == 0.0 {
      var s := Update(b, false);
      OneStep(n, b, s);
      DcfStartFit(n, b);
      hide *;
      if DcfRun(n, b, [s]).Reached? {
        CertainAfter(n, DcfStart(n, b), b);
        var r := DcfRun(n, b, [s]).state;
        ZeroInnovation(n, r.p, false);
        NothingToDivideBy(n, r, b, false);
        assert !DcfRun(n, b, [s, s]).Reached?;
      }
    } else {
      forall b: Box, steps: seq<Step> ensures DcfRun(n, b, steps).Reached? {
        MeasuringReaches(n, b, steps);
      }
      hide DcfRun;
    }
  }

  // ---------------------------------------------------------------- everything noisy

  lemma DcfStartDefinite(n: Noise, b: Box)
    requires n.Measuring() && n.velocity > 0.0
    ensures Definite(DcfStart(n, b).p, 2)
  {
    DiagonalDefinite([n.detector, n.detector, n.detector, n.detector, n.velocity * 10.0, n.velocity * 10.0], 2);
    hide Definite, Diagonal;
  }

  lemma DcfUpdateDefinite(n: Noise, s: State, b: Box, fromDetector: bool)
    requires n.Measuring() && |s.x| == 6 && Definite(s.p, 2)
    ensures DcfUpdate(n, s, b, fromDetector).Reached? ==> Definite(DcfUpdate(n, s, b, fromDetector).state.p, 2)
  {
    MeasuredFits(n.Model(fromDetector), s, CentreSize(b));
    hide Definite, Measured, CentreSize, Solvable, Amid;
  }

  lemma DcfPredictDefinite(n: Noise, s: State)
    requires n.Valid() && |s.x| == 6 && Definite(s.p, 2)
    ensures Definite(DcfPredict(n, s).p, 2)
  {
    PredictDefinite(n.Model(true), s.p);
    hide Definite, Model.PredictX, Model.PredictP;
  }

  lemma {:induction false} DcfRunDefinite(n: Noise, b: Box, steps: seq<Step>)
    requires n.Measuring() && n.velocity > 0.0
    ensures DcfRun(n, b, steps).Reached? && |DcfRun(n, b, steps).state.x| == 6 && Definite(DcfRun(n, b, steps).state.p, 2)
  {
    MeasuringReaches(n, b, steps);
    hide DcfStart, DcfPredict, DcfUpdate, Definite, Semidefinite;
    if steps == [] {
      DcfStartDefinite(n, b);
    } else {
      var k := |steps| - 1;
      DcfRunDefinite(n, b, steps[..k]);
      var s := DcfRun(n, b, steps[..k]).state;
      match steps[k]
      case Predict => DcfPredictDefinite(n, s);
      case Update(box, fromDetector) => DcfUpdateDefinite(n, s, box, fromDetector);
    }
  }

  /** With noise in both measurements and in the velocities no run fails, every
      covariance block stays definite, and gains are strictly inside (0, 1). */
  lemma DcfStaysDefinite(n: Noise, b: Box, steps: seq<Step>, fromDetector: bool, t: Matrix)
    requires n.Measuring() && n.velocity > 0.0
    ensures DcfRun(n, b, steps).Reached?
    ensures var s := DcfRun(n, b, steps).state;
            var m := n.Model(fromDetector);
            && Definite(s.p, 2) && Inverts(m.S(s.p), DiagonalInverse(m.S(s.p)))
            && (Inverts(m.S(s.p), t) ==>
                  t == DiagonalInverse(m.S(s.p)) && forall i: nat :: i < 4 ==> 0.0 < At(m.K(s.p, t), i, i) < 1.0)
  {
    hide *;
    MeasuringIsValid(n);
    DcfRunDefinite(n, b, steps);
    MeasuringMeans(n, DcfRun(n, b, steps).state, fromDetector);
    OneInverse(n.Model(fromDetector), DcfRun(n, b, steps).state, t);
  }

  lemma MeasuringIsValid(n: Noise)
    requires n.Measuring()
    ensures n.Valid()
  {
  }

  lemma MeasuringMeans(n: Noise, s: State, fromDetector: bool)
    requires n.Measuring() && |s.x| == 6 && Definite(s.p, 2)
    ensures n.Valid() && n.Model(fromDetector).Noisy() && Fit(s, n.Model(fromDetector).v)
  {
    hide Definite;
  }

  /** NvDCF's filter object. */
  class DcfFilter {
    const noise: Noise
    var x: seq<real>
    var p: Matrix

    function Now(): State
      reads this
    {
      State(x, p)
    }

    ghost predicate Valid()
      reads this
    {
      noise.Valid() && DcfFit(Now())
    }

    constructor (b: Box, noise: Noise)
      requires noise.Valid()
      ensures Valid() && Now() == DcfStart(noise, b) && this.noise == noise
      ensures |x| == 6 && x[..4] == CentreSize(b) && x[4..] == [0.0, 0.0]
      ensures forall i: nat, j: nat :: i < 6 && j < 6 ==>
                At(p, i, j) == if i != j then 0.0 else if i < 4 then noise.detector else 10.0 * noise.velocity
    {
      this.noise := noise;
      x := CentreSize(b) + [0.0, 0.0];
      p := Diagonal([noise.detector, noise.detector, noise.detector, noise.detector,
                     noise.velocity * 10.0, noise.velocity * 10.0]);
      new;
      DcfStartFit(noise, b);
    }

    method PredictStep()
      requires Valid()
      modifies this
      ensures Valid() && Now() == DcfPredict(noise, old(Now())) && |x| == |old(x)| == 6
      ensures x[0] == old(x)[0] + old(x)[4] && x[1] == old(x)[1] + old(x)[5]
      ensures x[2] == Max(old(x)[2], 1.0) && x[3] == Max(old(x)[3], 1.0) && x[4] == old(x)[4] && x[5] == old(x)[5]
    {
      DcfPredictFit(noise, Now());
      DcfPredictEntries(noise, Now());
      hide Semidefinite, Model.PredictX, Model.PredictP;
      x := noise.Model(true).PredictX(x);
      x := x[2 := Max(x[2], 1.0)][3 := Max(x[3], 1.0)];
      p := noise.Model(true).PredictP(p);
    }

    /** `ok` is false where inverting S raises an error; the filter is then as it was. */
    method UpdateStep(b: Box, fromDetector: bool) returns (ok: bool)
      requires Valid()
      modifies this
      ensures Valid()
      ensures (if ok then Reached(Now()) else Singular) == DcfUpdate(noise, old(Now()), b, fromDetector)
      ensures !ok ==> Now() == old(Now())
    {
      hide *;
      Fields();
      UpdateIs(b, fromDetector);
      var m := noise.Model(fromDetector);
      var s := m.S(p);
      ok := Solvable(s);
      if ok {
        DcfUpdateFit(noise, Now(), b, fromDetector);
        var inverse := DiagonalInverse(s);
        x, p := m.UpdateX(x, CentreSize(b), p, inverse), m.UpdateP(p, inverse);
        Fields();
      }
    }

    lemma UpdateIs(b: Box, fromDetector: bool)
      ensures var (s, m) := (Now(), noise.Model(fromDetector));
              var inverse := DiagonalInverse(m.S(s.p));
              DcfUpdate(noise, s, b, fromDetector) ==
              if Solvable(m.S(s.p)) then Reached(State(m.UpdateX(s.x, CentreSize(b), s.p, inverse), m.UpdateP(s.p, inverse))) else Singular
    {
      hide DiagonalInverse, Model.S, Model.UpdateX, Model.UpdateP, CentreSize, Solvable;
    }

    lemma Fields()
      ensures Now() == State(x, p) && (Valid() <==> noise.Valid() && DcfFit(Now()))
    {
    }
  }
}
