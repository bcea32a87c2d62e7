/** The constant-velocity box filters: four measured quantities, the first `v` of
    which carry a velocity (three in SORT, two in NvDCF). Exact reals throughout. */
module Kalman {
  import opened Matrices

  /** Predict and update as the programs write them, with dense matrices. */
  datatype Model = Model(v: nat, q: seq<real>, r: seq<real>) {
    predicate Valid() {
      && v <= 4 && |q| == 4 + v && |r| == 4
      && (forall i :: 0 <= i < |q| ==> q[i] >= 0.0)
      && (forall i :: 0 <= i < |r| ==> r[i] >= 0.0)
    }

    /** No measurement is perfect. */
    predicate Noisy() {
      Valid() && forall i :: 0 <= i < |r| ==> r[i] > 0.0
    }

    function N(): nat { 4 + v }

    function F(): Matrix {
      Build(N(), N(), (i: nat, j: nat) => if i == j || (i < v && j == i + 4) then 1.0 else 0.0)
    }

    function H(): Matrix {
      Build(4, N(), (i: nat, j: nat) => if i == j then 1.0 else 0.0)
    }

    /** F P F' + Q */
    function PredictP(p: Matrix): Matrix {
      Add(Mul(Mul(F(), p, N(), N(), N()), Transpose(F(), N(), N()), N(), N(), N()), Diagonal(q), N(), N())
    }

    /** F x */
    function PredictX(x: seq<real>): seq<real> {
      Entries(Mul(F(), Column(x), N(), N(), 1), N())
    }

    /** P H' */
    function PHt(p: Matrix): Matrix {
      Mul(p, Transpose(H(), 4, N()), N(), N(), 4)
    }

    /** H P H' + R */
    function S(p: Matrix): Matrix {
      Add(Mul(H(), PHt(p), 4, N(), 4), Diagonal(r), 4, 4)
    }

    /** P H' inv(S) */
    function K(p: Matrix, inverse: Matrix): Matrix {
      Mul(PHt(p), inverse, N(), 4, 4)
    }

    /** (I - K H) P */
    function UpdateP(p: Matrix, inverse: Matrix): Matrix {
      Mul(Sub(Identity(N()), Mul(K(p, inverse), H(), N(), 4, N()), N(), N()), p, N(), N(), N())
    }

    /** z - H x */
    function Residual(x: seq<real>, z: seq<real>): Matrix {
      Sub(Column(z), Mul(H(), Column(x), 4, N(), 1), 4, 1)
    }

    /** x + K (z - H x) */
    function UpdateX(x: seq<real>, z: seq<real>, p: Matrix, inverse: Matrix): seq<real> {
      Entries(Add(Column(x), Mul(K(p, inverse), Residual(x, z), N(), 4, 1), N(), 1), N())
    }
  }

  // ---------------------------------------------------------------- the structure of the covariance

  /** Two coordinates that may be correlated: a quantity and its own velocity. */
  predicate Paired(i: nat, j: nat) { i == j || j == i + 4 || i == j + 4 }

  /** Symmetric, and no correlation between different quantities. */
  ghost predicate Blocky(p: Matrix, n: nat) {
    && Is(p, n, n)
    && (forall i: nat, j: nat :: i < n && j < n ==> At(p, i, j) == At(p, j, i))
    && (forall i: nat, j: nat :: i < n && j < n && !Paired(i, j) ==> At(p, i, j) == 0.0)
  }

  /** A block [[a, b], [b, c]] with only positive directions. */
  predicate Block(a: real, b: real, c: real) { a > 0.0 && a * c - b * b > 0.0 }

  ghost predicate BlockAt(p: Matrix, v: nat, i: nat) {
    if i < v then Block(At(p, i, i), At(p, i, i + 4), At(p, i + 4, i + 4)) else At(p, i, i) > 0.0
  }

  /** Every block of the covariance is positive definite. */
  ghost predicate Definite(p: Matrix, v: nat) {
    Blocky(p, 4 + v) && forall i: nat :: i < 4 ==> BlockAt(p, v, i)
  }

  // ---------------------------------------------------------------- predict, entry by entry

  lemma FTimes(m: Model, a: Matrix, i: nat, j: nat)
    requires m.Valid() && i < m.N()
    ensures Dot(m.F(), a, i, j, m.N()) == At(a, i, j) + (if i < m.v then At(a, i + 4, j) else 0.0)
  {
    DotTwo(m.F(), a, i, j, m.N(), i, i + 4);
    hide Dot;
  }

  lemma TimesFt(m: Model, a: Matrix, i: nat, j: nat)
    requires m.Valid() && j < m.N()
    ensures Dot(a, Transpose(m.F(), m.N(), m.N()), i, j, m.N()) == At(a, i, j) + (if j < m.v then At(a, i, j + 4) else 0.0)
  {
    DotTwo(a, Transpose(m.F(), m.N(), m.N()), i, j, m.N(), j, j + 4);
    hide Dot;
  }

  lemma PredictEntry(m: Model, p: Matrix, i: nat, j: nat)
    requires m.Valid() && Is(p, m.N(), m.N()) && i < m.N() && j < m.N()
    ensures At(m.PredictP(p), i, j) ==
            At(p, i, j) + (if i < m.v then At(p, i + 4, j) else 0.0)
            + (if j < m.v then At(p, i, j + 4) + (if i < m.v then At(p, i + 4, j + 4) else 0.0) else 0.0)
            + (if i == j then m.q[i] else 0.0)
  {
    var fp := Mul(m.F(), p, m.N(), m.N(), m.N());
    FTimes(m, p, i, j);
    FTimes(m, p, i, j + 4);
    TimesFt(m, fp, i, j);
    hide Dot, Model.F;
  }

  // ---------------------------------------------------------------- scalar facts

  lemma Square(x: real)
    ensures x * x >= 0.0
  {
  }

  lemma PositiveFactor(x: real, y: real)
    requires y > 0.0 && x * y > 0.0
    ensures x > 0.0
  {
  }

  lemma BlockPositive(a: real, b: real, c: real)
    requires Block(a, b, c)
    ensures c > 0.0 && a + b + b + c > 0.0
  {
    Square(b);
    assert c * a > 0.0;
    PositiveFactor(c, a);
    var e := a + b + b + c;
    assert a * e == (a + b) * (a + b) + (a * c - b * b);
    Square(a + b);
    assert e * a > 0.0;
    PositiveFactor(e, a);
  }

  /** One step of constant velocity with noise added. */
  lemma PredictBlock(a: real, b: real, c: real, q: real, w: real)
    requires Block(a, b, c) && q >= 0.0 && w >= 0.0
    ensures Block(a + b + b + c + q, b + c, c + w)
  {
    BlockPositive(a, b, c);
    var e := a + b + b + c;
    assert (e + q) * (c + w) - (b + c) * (b + c) == (a * c - b * b) + e * w + q * c + q * w;
    assert e * w >= 0.0 && q * c >= 0.0 && q * w >= 0.0;
  }

  lemma GainInside(a: real, r: real)
    requires a > 0.0 && r > 0.0
    ensures 0.0 < a / (a + r) < 1.0
  {
    var k := a / (a + r);
    assert k * (a + r) == a;
    PositiveFactor(k, a + r);
    assert (1.0 - k) * (a + r) == r;
    PositiveFactor(1.0 - k, a + r);
  }

  /** A measurement scales the first row and the determinant by what is left of it. */
  lemma UpdateAlgebra(a: real, b: real, c: real, r: real)
    requires a + r > 0.0
    ensures var s := a + r;
            var u := 1.0 - a / s;
            && Less(a, a, s, a) == u * a && Less(b, a, s, b) == u * b
            && Less(a, a, s, a) * Less(c, b, s, b) - Less(b, a, s, b) * Less(b, a, s, b) == u * (a * c - b * b)
  {
    var s := a + r;
    var k := a / s;
    assert k * s == a;
    var d := c - b / s * b;
    assert a * (b / s * b) == k * (b * b) by {
      assert s * (b / s) == b;
      assert a * (b / s * b) == k * s * (b / s) * b;
    }
    assert a * d == a * c - k * (b * b);
    var u := 1.0 - k;
    assert u * a * d - (u * b) * (u * b) == u * (a * c - b * b) by {
      assert u * a * d == u * (a * c - k * (b * b));
      assert (u * b) * (u * b) == u * (u * (b * b));
    }
  }

  /** A measurement shrinks the block and keeps it definite. */
  lemma UpdateBlock(a: real, b: real, c: real, r: real)
    requires Block(a, b, c) && r > 0.0
    ensures var s := a + r; Block(Less(a, a, s, a), Less(b, a, s, b), Less(c, b, s, b))
  {
    UpdateAlgebra(a, b, c, r);
    GainInside(a, r);
    hide Less;
    Positive(1.0 - a / (a + r), a);
    Positive(1.0 - a / (a + r), a * c - b * b);
  }

  // ---------------------------------------------------------------- predict keeps the structure

  lemma PredictBlocky(m: Model, p: Matrix)
    requires m.Valid() && Blocky(p, m.N())
    ensures Blocky(m.PredictP(p), m.N())
  {
    forall i: nat, j: nat | i < m.N() && j < m.N()
      ensures At(m.PredictP(p), i, j) == At(m.PredictP(p), j, i)
      ensures !Paired(i, j) ==> At(m.PredictP(p), i, j) == 0.0
    {
      PredictEntry(m, p, i, j);
      PredictEntry(m, p, j, i);
      hide Model.PredictP;
    }
    assert Is(m.PredictP(p), m.N(), m.N());
  }

  lemma PredictDefinite(m: Model, p: Matrix)
    requires m.Valid() && Definite(p, m.v)
    ensures Definite(m.PredictP(p), m.v)
  {
    PredictBlocky(m, p);
    hide Model.PredictP, Blocky;
    forall i: nat | i < 4 ensures BlockAt(m.PredictP(p), m.v, i) {
      PredictAt(m, p, i);
    }
  }

  lemma NoiseValues(m: Model, p: Matrix, i: nat)
    requires m.Valid() && Definite(p, m.v) && i < 4
    ensures m.N() == 4 + m.v && Is(p, m.N(), m.N()) && |m.q| == m.N() && m.v <= 4
    ensures m.q[i] >= 0.0 && (i < m.v ==> m.q[i + 4] >= 0.0)
  {
  }

  lemma PredictAt(m: Model, p: Matrix, i: nat)
    requires m.Valid() && Definite(p, m.v) && i < 4
    ensures BlockAt(m.PredictP(p), m.v, i)
  {
    hide *;
    BlockValues(m, p, i);
    NoiseValues(m, p, i);
    MakesBlock(m.PredictP(p), m.v, i);
    PredictEntry(m, p, i, i);
    if i < m.v {
      PredictEntry(m, p, i, i + 4);
      PredictEntry(m, p, i + 4, i + 4);
      PredictBlock(At(p, i, i), At(p, i, i + 4), At(p, i + 4, i + 4), m.q[i], m.q[i + 4]);
    }
  }

  // ---------------------------------------------------------------- the gain

  /** The innovation variance of quantity `b`. */
  function Innovation(m: Model, p: Matrix, b: nat): real {
    At(p, b, b) + (if b < |m.r| then m.r[b] else 0.0)
  }

  /** A covariance with something to learn, or to distrust, about every quantity. */
  ghost predicate Sensed(m: Model, p: Matrix) {
    Blocky(p, m.N()) && forall b: nat :: b < 4 ==> Innovation(m, p, b) > 0.0
  }

  lemma DefiniteSensed(m: Model, p: Matrix)
    requires m.Valid() && Definite(p, m.v)
    ensures Sensed(m, p)
  {
    forall b: nat | b < 4 ensures Innovation(m, p, b) > 0.0 {
      assert BlockAt(p, m.v, b);
    }
  }

  lemma TimesHt(m: Model, p: Matrix, i: nat, j: nat)
    requires m.Valid() && Is(p, m.N(), m.N()) && i < m.N() && j < 4
    ensures At(m.PHt(p), i, j) == At(p, i, j)
  {
    DotOne(p, Transpose(m.H(), 4, m.N()), i, j, m.N(), j);
    hide Dot;
  }

  lemma SEntry(m: Model, p: Matrix, i: nat, j: nat)
    requires m.Valid() && Is(p, m.N(), m.N()) && i < 4 && j < 4
    ensures At(m.S(p), i, j) == At(p, i, j) + (if i == j then m.r[i] else 0.0)
  {
    DotOne(m.H(), m.PHt(p), i, j, m.N(), i);
    TimesHt(m, p, i, j);
    hide Dot, Model.PHt;
  }

  ghost predicate Inverts(s: Matrix, t: Matrix) {
    Is(t, 4, 4) && Mul(s, t, 4, 4, 4) == Identity(4)
  }

  /** The innovation covariance is diagonal with positive entries ... */
  lemma SDiagonal(m: Model, p: Matrix, i: nat, j: nat)
    requires m.Valid() && Sensed(m, p) && i < 4 && j < 4
    ensures At(m.S(p), i, j) == if i == j then At(p, i, i) + m.r[i] else 0.0
    ensures At(m.S(p), i, i) > 0.0
  {
    SEntry(m, p, i, j);
    SEntry(m, p, i, i);
    assert Innovation(m, p, i) > 0.0;
  }

  function DiagonalInverse(s: Matrix): Matrix {
    Build(4, 4, (i: nat, j: nat) => if i == j && At(s, i, i) != 0.0 then 1.0 / At(s, i, i) else 0.0)
  }

  ghost predicate PositiveDiagonal(s: Matrix) {
    && (forall i: nat, j: nat :: i < 4 && j < 4 && i != j ==> At(s, i, j) == 0.0)
    && (forall i: nat :: i < 4 ==> At(s, i, i) > 0.0)
  }

  lemma DiagonalTimes(s: Matrix, t: Matrix, i: nat, j: nat)
    requires PositiveDiagonal(s) && i < 4 && j < 4
    ensures At(Mul(s, t, 4, 4, 4), i, j) == At(s, i, i) * At(t, i, j)
  {
    assert Silent(s, t, i, j, 4, i, i);
    DotOne(s, t, i, j, 4, i);
    hide Dot, PositiveDiagonal;
  }

  /** One entry of S T is right exactly if that of T is. */
  lemma EntryDecides(s: Matrix, t: Matrix, i: nat, j: nat)
    requires PositiveDiagonal(s) && i < 4 && j < 4
    ensures At(Mul(s, t, 4, 4, 4), i, j) == At(Identity(4), i, j) <==> At(t, i, j) == At(DiagonalInverse(s), i, j)
  {
    DiagonalTimes(s, t, i, j);
    hide Mul;
    Reciprocal(At(s, i, i), At(t, i, j));
  }

  /** ... so it has exactly one inverse, the diagonal of the reciprocals. */
  lemma InverseIsDiagonal(m: Model, p: Matrix, t: Matrix)
    requires m.Valid() && Sensed(m, p) && Is(t, 4, 4)
    ensures PositiveDiagonal(m.S(p))
    ensures Inverts(m.S(p), t) <==> t == DiagonalInverse(m.S(p))
  {
    var s := m.S(p);
    forall i: nat, j: nat | i < 4 && j < 4
      ensures i != j ==> At(s, i, j) == 0.0
      ensures At(s, i, i) > 0.0
    {
      SDiagonal(m, p, i, j);
    }
    hide Model.S, Sensed, At;
    assert forall i: nat :: i < 4 ==> At(s, i, i) > 0.0 by {
      forall i: nat | i < 4 ensures At(s, i, i) > 0.0 {
        SDiagonal(m, p, i, i);
      }
    }
    forall i: nat, j: nat | i < 4 && j < 4
      ensures At(Mul(s, t, 4, 4, 4), i, j) == At(Identity(4), i, j) <==> At(t, i, j) == At(DiagonalInverse(s), i, j)
    {
      EntryDecides(s, t, i, j);
    }
    SameEntries(Mul(s, t, 4, 4, 4), Identity(4), 4, 4);
    SameEntries(t, DiagonalInverse(s), 4, 4);
    hide Dot, Mul, DiagonalInverse, Identity, Is;
  }

  lemma Reciprocal(s: real, t: real)
    requires s > 0.0
    ensures s * t == 1.0 <==> t == 1.0 / s
    ensures s * t == 0.0 <==> t == 0.0
  {
    assert s * (1.0 / s) == 1.0;
    if s * t == 1.0 {
      assert s * (t - 1.0 / s) == 0.0;
    }
  }

  lemma SameEntries(a: Matrix, b: Matrix, n: nat, m: nat)
    requires Is(a, n, m) && Is(b, n, m)
    ensures a == b <==> forall i: nat, j: nat :: i < n && j < m ==> At(a, i, j) == At(b, i, j)
  {
    if forall i: nat, j: nat :: i < n && j < m ==> At(a, i, j) == At(b, i, j) {
      forall i | 0 <= i < n ensures a[i] == b[i] {
        forall j | 0 <= j < m ensures a[i][j] == b[i][j] {
          assert At(a, i, j) == At(b, i, j);
        }
      }
    }
  }

  // ---------------------------------------------------------------- update, entry by entry

  /** The measured quantity a coordinate belongs to. */
  function Quantity(i: nat): nat { if i < 4 then i else i - 4 }

  /** What is left of `x` when the share g / s of `y` is taken off. */
  function Less(x: real, g: real, s: real, y: real): real {
    if s == 0.0 then x else x - g / s * y
  }

  /** `g` divided by `s`, and a product, kept closed where only their names matter. */
  function Share(g: real, s: real): real {
    if s == 0.0 then 0.0 else g * (1.0 / s)
  }

  function Times(x: real, y: real): real { x * y }

  lemma InverseEntry(m: Model, p: Matrix, t: Matrix, u: nat, j: nat)
    requires m.Valid() && Sensed(m, p) && Inverts(m.S(p), t) && u < 4 && j < 4
    ensures At(p, j, j) + m.r[j] > 0.0
    ensures At(t, u, j) == if u == j then 1.0 / (At(p, j, j) + m.r[j]) else 0.0
  {
    assert Is(t, 4, 4);
    InverseIsDiagonal(m, p, t);
    SDiagonal(m, p, u, u);
    SDiagonal(m, p, j, j);
    hide Model.S, Sensed, Inverts;
  }

  lemma ColumnOnly(a: Matrix, t: Matrix, n: nat, i: nat, j: nat)
    requires i < n && j < 4 && forall u: nat :: u < 4 && u != j ==> At(t, u, j) == 0.0
    ensures At(Mul(a, t, n, 4, 4), i, j) == At(a, i, j) * At(t, j, j)
  {
    DotOne(a, t, i, j, 4, j);
    hide Dot;
  }

  /** The gain used is P H' times any inverse of S, entry by entry. */
  lemma KEntry(m: Model, p: Matrix, t: Matrix, i: nat, j: nat)
    requires m.Valid() && Sensed(m, p) && Inverts(m.S(p), t) && i < m.N() && j < 4
    ensures Innovation(m, p, j) > 0.0 && At(m.K(p, t), i, j) == Share(At(p, i, j), Innovation(m, p, j))
  {
    forall u: nat | u < 4 ensures u != j ==> At(t, u, j) == 0.0 {
      InverseEntry(m, p, t, u, j);
    }
    InverseEntry(m, p, t, j, j);
    TimesHt(m, p, i, j);
    hide Model.PHt, Model.S, Sensed, Inverts, At;
    ColumnOnly(m.PHt(p), t, m.N(), i, j);
    hide Mul;
  }

  lemma KHEntry(m: Model, p: Matrix, t: Matrix, i: nat, u: nat)
    requires m.Valid() && i < m.N() && u < m.N()
    ensures At(Mul(m.K(p, t), m.H(), m.N(), 4, m.N()), i, u) == if u < 4 then At(m.K(p, t), i, u) else 0.0
  {
    hide Model.K;
    DotOne(m.K(p, t), m.H(), i, u, 4, u);
    hide Dot;
  }

  /** A coordinate is correlated with no quantity but its own. */
  lemma OwnQuantity(m: Model, p: Matrix, i: nat, u: nat)
    requires m.Valid() && Sensed(m, p) && i < m.N() && u < 4 && u != Quantity(i)
    ensures At(p, i, u) == 0.0
  {
    assert !Paired(i, u);
  }

  lemma OwnPositive(m: Model, p: Matrix, i: nat)
    requires m.Valid() && Sensed(m, p) && i < m.N()
    ensures Innovation(m, p, Quantity(i)) > 0.0
  {
  }

  function Rest(m: Model, p: Matrix, t: Matrix): Matrix {
    Sub(Identity(m.N()), Mul(m.K(p, t), m.H(), m.N(), 4, m.N()), m.N(), m.N())
  }

  /** I - K H touches, besides itself, only the quantity of a coordinate. */
  lemma RestEntry(m: Model, p: Matrix, t: Matrix, i: nat, u: nat)
    requires m.Valid() && Sensed(m, p) && Inverts(m.S(p), t) && i < m.N() && u < m.N()
    ensures var b := Quantity(i);
            && Innovation(m, p, b) > 0.0
            && At(Rest(m, p, t), i, u) ==
               (if i == u then 1.0 else 0.0) - (if u == b then Share(At(p, i, b), Innovation(m, p, b)) else 0.0)
  {
    OwnPositive(m, p, i);
    KHEntry(m, p, t, i, u);
    if u < 4 {
      KEntry(m, p, t, i, u);
      if u != Quantity(i) {
        OwnQuantity(m, p, i, u);
        ShareNothing(Innovation(m, p, u));
      }
    }
    hide Model.K, Sensed, Inverts, Model.S, Mul, Model.H, Share;
  }

  lemma ShareNothing(s: real)
    requires s > 0.0
    ensures Share(0.0, s) == 0.0
  {
  }

  /** The updated covariance: each row loses its share of what was measured. */
  lemma UpdateEntry(m: Model, p: Matrix, t: Matrix, i: nat, j: nat)
    requires m.Valid() && Sensed(m, p) && Inverts(m.S(p), t) && i < m.N() && j < m.N()
    ensures var b := Quantity(i);
            Innovation(m, p, b) > 0.0 && At(m.UpdateP(p, t), i, j) == Less(At(p, i, j), At(p, i, b), Innovation(m, p, b), At(p, b, j))
  {
    hide *;
    var b := Quantity(i);
    UpdateIsRest(m, p, t, i, j);
    RestEntry(m, p, t, i, i);
    RestEntry(m, p, t, i, b);
    LessIs(At(p, i, j), At(p, i, b), Innovation(m, p, b), At(p, b, j));
  }

  lemma UpdateIsRest(m: Model, p: Matrix, t: Matrix, i: nat, j: nat)
    requires m.Valid() && Sensed(m, p) && Inverts(m.S(p), t) && i < m.N() && j < m.N()
    ensures var b := Quantity(i);
            && b < m.N() && (b != i ==> i >= 4)
            && At(m.UpdateP(p, t), i, j) ==
               Times(At(Rest(m, p, t), i, i), At(p, i, j)) +
               (if i == b then 0.0 else Times(At(Rest(m, p, t), i, b), At(p, b, j)))
  {
    var n, b := m.N(), Quantity(i);
    assert m.UpdateP(p, t) == Mul(Rest(m, p, t), p, n, n, n);
    hide Model.UpdateP, Rest;
    forall u: nat | u < n ensures u != i && u != b ==> At(Rest(m, p, t), i, u) == 0.0 {
      RestEntry(m, p, t, i, u);
    }
    hide Sensed, Inverts, Model.S, At, Share, Less;
    RowOf(m, p, Rest(m, p, t), i, j);
  }

  lemma LessIs(x: real, g: real, s: real, y: real)
    requires s > 0.0
    ensures Less(x, g, s, y) == Times(1.0, x) + Times(0.0 - Share(g, s), y)
    ensures x == y ==> Less(x, g, s, y) == Times(1.0 - Share(g, s), x)
  {
    assert g / s == g * (1.0 / s);
  }

  lemma RowOf(m: Model, p: Matrix, rest: Matrix, i: nat, j: nat)
    requires m.Valid() && i < m.N() && j < m.N()
    requires forall u: nat :: u < m.N() && u != i && u != Quantity(i) ==> At(rest, i, u) == 0.0
    ensures At(Mul(rest, p, m.N(), m.N(), m.N()), i, j) ==
            Times(At(rest, i, i), At(p, i, j)) + (if i < 4 then 0.0 else Times(At(rest, i, i - 4), At(p, i - 4, j)))
  {
    hide At, Dot;
    if i < 4 {
      DotOne(rest, p, i, j, m.N(), i);
    } else {
      DotTwo(rest, p, i, j, m.N(), i, i - 4);
    }
    TermIs(rest, p, i, j, i);
    TermIs(rest, p, i, j, Quantity(i));
    hide Term, Times;
  }

  lemma TermIs(a: Matrix, b: Matrix, i: nat, j: nat, u: nat)
    ensures Term(a, b, i, j, u) == Times(At(a, i, u), At(b, u, j))
  {
  }

  // ---------------------------------------------------------------- update keeps the structure

  lemma UpdateBlocky(m: Model, p: Matrix, t: Matrix)
    requires m.Valid() && Sensed(m, p) && Inverts(m.S(p), t)
    ensures Blocky(m.UpdateP(p, t), m.N())
  {
    forall i: nat, j: nat | i < m.N() && j < m.N()
      ensures At(m.UpdateP(p, t), i, j) == At(m.UpdateP(p, t), j, i)
      ensures !Paired(i, j) ==> At(m.UpdateP(p, t), i, j) == 0.0
    {
      UpdateEntry(m, p, t, i, j);
      UpdateEntry(m, p, t, j, i);
      UpdateSymmetric(m, p, i, j);
      hide Model.UpdateP, Inverts, Sensed;
    }
    assert Is(m.UpdateP(p, t), m.N(), m.N());
  }

  lemma UpdateSymmetric(m: Model, p: Matrix, i: nat, j: nat)
    requires m.Valid() && Sensed(m, p) && i < m.N() && j < m.N()
    ensures var a, b := Quantity(i), Quantity(j);
            && Less(At(p, i, j), At(p, i, a), Innovation(m, p, a), At(p, a, j)) ==
               Less(At(p, j, i), At(p, j, b), Innovation(m, p, b), At(p, b, i))
            && (!Paired(i, j) ==> Less(At(p, i, j), At(p, i, a), Innovation(m, p, a), At(p, a, j)) == 0.0)
  {
    var a, b := Quantity(i), Quantity(j);
    OwnPositive(m, p, i);
    OwnPositive(m, p, j);
    assert At(p, i, j) == At(p, j, i) && At(p, i, a) == At(p, a, i) && At(p, j, b) == At(p, b, j);
    if a == b {
      LessSwap(At(p, i, j), At(p, i, a), Innovation(m, p, a), At(p, a, j));
    } else {
      assert !Paired(i, j) && !Paired(a, j) && !Paired(b, i);
      assert At(p, a, j) == 0.0 && At(p, b, i) == 0.0 && At(p, i, j) == 0.0;
    }
    hide Sensed;
  }

  lemma LessSwap(x: real, g: real, s: real, y: real)
    requires s > 0.0
    ensures Less(x, g, s, y) == Less(x, y, s, g)
  {
    assert g / s == g * (1.0 / s) && y / s == y * (1.0 / s);
  }

  lemma UpdateAt(m: Model, p: Matrix, t: Matrix, i: nat)
    requires m.Noisy() && Definite(p, m.v) && Inverts(m.S(p), t) && i < 4
    ensures BlockAt(m.UpdateP(p, t), m.v, i)
  {
    hide *;
    NoisyIsValid(m);
    BlockValues(m, p, i);
    DefiniteSensed(m, p);
    MakesBlock(m.UpdateP(p, t), m.v, i);
    UpdateEntry(m, p, t, i, i);
    if i < m.v {
      UpdateEntry(m, p, t, i, i + 4);
      UpdateEntry(m, p, t, i + 4, i + 4);
      UpdateBlock(At(p, i, i), At(p, i, i + 4), At(p, i + 4, i + 4), m.r[i]);
    } else {
      Shrinks(At(p, i, i), m.r[i]);
    }
  }

  lemma BlockValues(m: Model, p: Matrix, i: nat)
    requires m.Valid() && Definite(p, m.v) && i < 4
    ensures |m.r| == 4 && At(p, i, i) > 0.0 && Innovation(m, p, i) == At(p, i, i) + m.r[i] && (m.Noisy() ==> m.r[i] > 0.0)
    ensures Quantity(i) == i && i < m.N()
    ensures i < m.v ==>
              && Block(At(p, i, i), At(p, i, i + 4), At(p, i + 4, i + 4))
              && Quantity(i + 4) == i && At(p, i + 4, i) == At(p, i, i + 4) && i + 4 < m.N()
  {
    assert BlockAt(p, m.v, i);
  }

  lemma NoisyIsValid(m: Model)
    requires m.Noisy()
    ensures m.Valid()
  {
  }

  lemma MakesBlock(p: Matrix, v: nat, i: nat)
    ensures BlockAt(p, v, i) ==
            if i < v then Block(At(p, i, i), At(p, i, i + 4), At(p, i + 4, i + 4)) else At(p, i, i) > 0.0
  {
  }

  lemma Shrinks(a: real, r: real)
    requires a > 0.0 && r > 0.0
    ensures 0.0 < Less(a, a, a + r, a) < a && Less(a, a, a + r, a) < r
  {
    GainInside(a, r);
    var k := a / (a + r);
    assert k * (a + r) == a;
    Positive(k, a);
    Positive(k, r);
    Positive(1.0 - k, r);
    assert (1.0 - k) * r == r - k * r;
    Between(a, r, k * a, k * r, Less(a, a, a + r, a));
  }

  lemma Positive(x: real, y: real)
    requires x > 0.0 && y > 0.0
    ensures x * y > 0.0
  {
  }

  lemma Between(a: real, r: real, ka: real, kr: real, l: real)
    requires ka > 0.0 && kr > 0.0 && r - kr > 0.0 && ka + kr == a && l == a - ka
    ensures 0.0 < l < a && l < r
  {
  }

  /** A measurement keeps every block definite. */
  lemma UpdateDefinite(m: Model, p: Matrix, t: Matrix)
    requires m.Noisy() && Definite(p, m.v) && Inverts(m.S(p), t)
    ensures Definite(m.UpdateP(p, t), m.v)
  {
    DefiniteSensed(m, p);
    UpdateBlocky(m, p, t);
    hide Model.UpdateP, Blocky, Inverts, Model.S;
    forall i: nat | i < 4 ensures BlockAt(m.UpdateP(p, t), m.v, i) {
      UpdateAt(m, p, t, i);
    }
  }

  /** ... and leaves each quantity surer than both the prediction and the measurement. */
  lemma UpdateSurer(m: Model, p: Matrix, t: Matrix, i: nat)
    requires m.Noisy() && Definite(p, m.v) && Inverts(m.S(p), t) && i < 4
    ensures 0.0 < At(m.UpdateP(p, t), i, i) < At(p, i, i) && At(m.UpdateP(p, t), i, i) < m.r[i]
  {
    hide *;
    NoisyIsValid(m);
    BlockValues(m, p, i);
    DefiniteSensed(m, p);
    UpdateEntry(m, p, t, i, i);
    Shrinks(At(p, i, i), m.r[i]);
  }

  // ---------------------------------------------------------------- the state

  lemma PredictXEntry(m: Model, x: seq<real>, i: nat)
    requires m.Valid() && |x| == m.N() && i < m.N()
    ensures |m.PredictX(x)| == m.N()
    ensures m.PredictX(x)[i] == x[i] + (if i < m.v then x[i + 4] else 0.0)
  {
    FTimes(m, Column(x), i, 0);
    hide Dot, Model.F;
  }

  lemma ResidualEntry(m: Model, x: seq<real>, z: seq<real>, u: nat)
    requires m.Valid() && |x| == m.N() && |z| == 4 && u < 4
    ensures At(m.Residual(x, z), u, 0) == z[u] - x[u]
  {
    DotOne(m.H(), Column(x), u, 0, m.N(), u);
    hide Dot;
  }

  lemma CorrectionEntry(m: Model, x: seq<real>, z: seq<real>, p: Matrix, t: Matrix, i: nat)
    requires m.Valid() && Sensed(m, p) && Inverts(m.S(p), t) && |x| == m.N() && |z| == 4 && i < m.N()
    ensures var b := Quantity(i);
            Dot(m.K(p, t), m.Residual(x, z), i, 0, 4) == Times(Share(At(p, i, b), Innovation(m, p, b)), z[b] - x[b])
  {
    hide *;
    var b := Quantity(i);
    forall u: nat | u < 4 ensures u != b ==> At(m.K(p, t), i, u) == 0.0 {
      KElsewhere(m, p, t, i, u);
    }
    InQuantities(m, i);
    KEntry(m, p, t, i, b);
    ResidualEntry(m, x, z, b);
    OnlyTerm(m.K(p, t), m.Residual(x, z), i, b);
  }

  lemma KElsewhere(m: Model, p: Matrix, t: Matrix, i: nat, u: nat)
    requires m.Valid() && Sensed(m, p) && Inverts(m.S(p), t) && i < m.N() && u < 4
    ensures u != Quantity(i) ==> At(m.K(p, t), i, u) == 0.0
  {
    KEntry(m, p, t, i, u);
    if u != Quantity(i) {
      OwnQuantity(m, p, i, u);
      ShareNothing(Innovation(m, p, u));
    }
    hide Model.K, Sensed, Inverts, Model.S;
  }

  lemma InQuantities(m: Model, i: nat)
    requires m.Valid() && i < m.N()
    ensures Quantity(i) < 4 && |m.r| == 4 && |m.q| == m.N()
  {
  }

  lemma OnlyTerm(a: Matrix, y: Matrix, i: nat, b: nat)
    requires b < 4 && forall u: nat :: u < 4 ==> u != b ==> At(a, i, u) == 0.0
    ensures Dot(a, y, i, 0, 4) == Times(At(a, i, b), At(y, b, 0))
  {
    DotOne(a, y, i, 0, 4, b);
    hide Dot;
  }

  lemma UpdateXEntry(m: Model, x: seq<real>, z: seq<real>, p: Matrix, t: Matrix, i: nat)
    requires m.Valid() && Sensed(m, p) && Inverts(m.S(p), t) && |x| == m.N() && |z| == 4 && i < m.N()
    ensures |m.UpdateX(x, z, p, t)| == m.N()
    ensures var b := Quantity(i);
            m.UpdateX(x, z, p, t)[i] == x[i] + Times(Share(At(p, i, b), Innovation(m, p, b)), z[b] - x[b])
  {
    CorrectionEntry(m, x, z, p, t, i);
    hide Dot, Model.K, Model.Residual, Model.S, Sensed, Inverts, Share, Innovation, Times;
  }

  /** `y` lies strictly between `x` and `z`, or all three are the same. */
  predicate Amid(x: real, y: real, z: real) {
    x < y < z || z < y < x || x == y == z
  }

  /** A measured quantity moves part of the way to the measurement, never past it. */
  lemma MeasuredMovesToward(m: Model, x: seq<real>, z: seq<real>, p: Matrix, t: Matrix, i: nat)
    requires m.Noisy() && Definite(p, m.v) && Inverts(m.S(p), t) && |x| == m.N() && |z| == 4 && i < 4
    ensures |m.UpdateX(x, z, p, t)| == m.N()
    ensures Amid(x[i], m.UpdateX(x, z, p, t)[i], z[i])
    ensures 0.0 < At(m.K(p, t), i, i) < 1.0
  {
    hide *;
    NoisyIsValid(m);
    BlockValues(m, p, i);
    DefiniteSensed(m, p);
    UpdateXEntry(m, x, z, p, t, i);
    KEntry(m, p, t, i, i);
    ShareInside(At(p, i, i), m.r[i]);
    PartWay(x[i], z[i], Share(At(p, i, i), Innovation(m, p, i)));
  }

  lemma ShareInside(a: real, r: real)
    requires a > 0.0 && r > 0.0
    ensures 0.0 < Share(a, a + r) < 1.0
  {
    GainInside(a, r);
    assert a / (a + r) == a * (1.0 / (a + r));
  }

  lemma PartWay(x: real, z: real, k: real)
    requires 0.0 < k < 1.0
    ensures Amid(x, x + Times(k, z - x), z)
  {
    var d := z - x;
    assert Times(k, d) == k * d && d - k * d == (1.0 - k) * d;
    if d > 0.0 {
      Positive(k, d);
      Positive(1.0 - k, d);
    } else if d < 0.0 {
      Positive(k, -d);
      Positive(1.0 - k, -d);
      assert k * -d == -(k * d) && (1.0 - k) * -d == -((1.0 - k) * d);
    }
  }
}
