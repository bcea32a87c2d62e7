/** The filters without assuming that anything is noisy: covariances that are only
    positive semidefinite, and when there is an innovation covariance to invert. */
module ZeroNoise {
  import opened Matrices
  import opened Kalman

  /** A block [[a, b], [b, c]] without negative directions. */
  predicate SemiBlock(a: real, b: real, c: real) { a >= 0.0 && c >= 0.0 && a * c - b * b >= 0.0 }

  ghost predicate SemiBlockAt(p: Matrix, v: nat, i: nat) {
    if i < v then SemiBlock(At(p, i, i), At(p, i, i + 4), At(p, i + 4, i + 4)) else At(p, i, i) >= 0.0
  }

  ghost predicate Semidefinite(p: Matrix, v: nat) {
    Blocky(p, 4 + v) && forall i: nat :: i < 4 ==> SemiBlockAt(p, v, i)
  }

  // ---------------------------------------------------------------- blocks

  lemma NotNegative(x: real, y: real)
    requires x >= 0.0 && y >= 0.0
    ensures x * y >= 0.0
  {
  }

  lemma NotNegativeFactor(x: real, y: real)
    requires y > 0.0 && x * y >= 0.0
    ensures x >= 0.0
  {
  }

  /** The variance of position plus velocity. */
  lemma SumNotNegative(a: real, b: real, c: real)
    requires SemiBlock(a, b, c)
    ensures a + b + b + c >= 0.0
  {
    var e, f := a + b + b + c, a + c - b - b;
    Square(a - c);
    assert e * f == (a - c) * (a - c) + 4.0 * (a * c - b * b);
    if f > 0.0 {
      NotNegativeFactor(e, f);
    }
  }

  lemma PredictSemiBlock(a: real, b: real, c: real, q: real, w: real)
    requires SemiBlock(a, b, c) && q >= 0.0 && w >= 0.0
    ensures SemiBlock(a + b + b + c + q, b + c, c + w)
  {
    SumNotNegative(a, b, c);
    var e := a + b + b + c;
    assert (e + q) * (c + w) - (b + c) * (b + c) == (a * c - b * b) + e * w + q * c + q * w;
    NotNegative(e, w);
    NotNegative(q, c);
    NotNegative(q, w);
  }

  /** The share of the prediction's variance in the innovation's. */
  lemma ShareWithin(a: real, r: real)
    requires a >= 0.0 && r >= 0.0 && a + r > 0.0
    ensures 0.0 <= a / (a + r) <= 1.0 && Share(a, a + r) == a / (a + r)
  {
    var k := a / (a + r);
    assert k * (a + r) == a;
    NotNegativeFactor(k, a + r);
    assert (1.0 - k) * (a + r) == r;
    NotNegativeFactor(1.0 - k, a + r);
    assert a / (a + r) == a * (1.0 / (a + r));
  }

  lemma UpdateSemiBlock(a: real, b: real, c: real, r: real)
    requires SemiBlock(a, b, c) && r >= 0.0 && a + r > 0.0
    ensures var s := a + r; SemiBlock(Less(a, a, s, a), Less(b, a, s, b), Less(c, b, s, b))
  {
    var s := a + r;
    UpdateAlgebra(a, b, c, r);
    ShareWithin(a, r);
    NotNegative(1.0 - a / s, a);
    NotNegative(1.0 - a / s, a * c - b * b);
    NotNegative(r, c);
    VelocityLeft(a, b, c, r);
    hide Less;
  }

  lemma VelocityLeft(a: real, b: real, c: real, r: real)
    requires a + r > 0.0 && a * c - b * b + r * c >= 0.0
    ensures Less(c, b, a + r, b) >= 0.0
  {
    var s := a + r;
    var d := c - b / s * b;
    assert s * (b / s) == b;
    assert d * s == s * c - b * b;
    NotNegativeFactor(d, s);
  }

  // ---------------------------------------------------------------- predict

  lemma PredictSemidefinite(m: Model, p: Matrix)
    requires m.Valid() && Semidefinite(p, m.v)
    ensures Semidefinite(m.PredictP(p), m.v)
  {
    PredictBlocky(m, p);
    hide Model.PredictP, Blocky;
    forall i: nat | i < 4 ensures SemiBlockAt(m.PredictP(p), m.v, i) {
      PredictSemiAt(m, p, i);
    }
  }

  lemma Values(m: Model, p: Matrix, i: nat)
    requires m.Valid() && Semidefinite(p, m.v) && i < 4
    ensures m.N() == 4 + m.v && m.v <= 4 && Is(p, m.N(), m.N()) && Blocky(p, m.N()) && |m.q| == m.N() && |m.r| == 4
    ensures At(p, i, i) >= 0.0 && m.r[i] >= 0.0 && m.q[i] >= 0.0 && Innovation(m, p, i) == At(p, i, i) + m.r[i]
    ensures Quantity(i) == i
    ensures i < m.v ==>
              && SemiBlock(At(p, i, i), At(p, i, i + 4), At(p, i + 4, i + 4)) && m.q[i + 4] >= 0.0
              && Quantity(i + 4) == i && At(p, i + 4, i) == At(p, i, i + 4)
  {
    assert SemiBlockAt(p, m.v, i);
  }

  lemma MakesSemiBlock(p: Matrix, v: nat, i: nat)
    ensures SemiBlockAt(p, v, i) ==
            if i < v then SemiBlock(At(p, i, i), At(p, i, i + 4), At(p, i + 4, i + 4)) else At(p, i, i) >= 0.0
  {
  }

  lemma PredictSemiAt(m: Model, p: Matrix, i: nat)
    requires m.Valid() && Semidefinite(p, m.v) && i < 4
    ensures SemiBlockAt(m.PredictP(p), m.v, i)
  {
    hide *;
    Values(m, p, i);
    MakesSemiBlock(m.PredictP(p), m.v, i);
    PredictEntry(m, p, i, i);
    if i < m.v {
      PredictEntry(m, p, i, i + 4);
      PredictEntry(m, p, i + 4, i + 4);
      PredictSemiBlock(At(p, i, i), At(p, i, i + 4), At(p, i + 4, i + 4), m.q[i], m.q[i + 4]);
    }
  }

  // ---------------------------------------------------------------- when S can be inverted

  /** A quantity whose innovation has no variance makes a row of S vanish. */
  lemma NoInverse(m: Model, p: Matrix, t: Matrix, b: nat)
    requires m.Valid() && Blocky(p, m.N()) && b < 4 && Innovation(m, p, b) == 0.0
    ensures !Inverts(m.S(p), t)
  {
    var s := m.S(p);
    forall u: nat | u < 4 ensures At(s, b, u) == 0.0 {
      SEntry(m, p, b, u);
      assert u != b ==> !Paired(b, u);
    }
    hide Model.S, Blocky;
    DotOne(s, t, b, b, 4, b);
    assert At(Mul(s, t, 4, 4, 4), b, b) == 0.0;
    assert At(Identity(4), b, b) == 1.0;
  }

  /** S can be inverted exactly when every innovation has a variance. */
  lemma InvertibleExactly(m: Model, p: Matrix)
    requires m.Valid() && Semidefinite(p, m.v)
    ensures Sensed(m, p) <==> Inverts(m.S(p), DiagonalInverse(m.S(p)))
    ensures Sensed(m, p) <==> exists t :: Inverts(m.S(p), t)
  {
    var t0 := DiagonalInverse(m.S(p));
    if Sensed(m, p) {
      InverseIsDiagonal(m, p, t0);
    }
    hide Inverts, DiagonalInverse, Model.S;
    if t :| Inverts(m.S(p), t) {
      InvertsSensed(m, p, t);
    }
  }

  lemma InvertsSensed(m: Model, p: Matrix, t: Matrix)
    requires m.Valid() && Semidefinite(p, m.v) && Inverts(m.S(p), t)
    ensures Sensed(m, p)
  {
    forall b: nat | b < 4 ensures Innovation(m, p, b) > 0.0 {
      Values(m, p, b);
      hide Inverts, Model.S, Semidefinite, At;
      if Innovation(m, p, b) == 0.0 {
        NoInverse(m, p, t, b);
      }
    }
  }

  // ---------------------------------------------------------------- update

  lemma UpdateSemiAt(m: Model, p: Matrix, t: Matrix, i: nat)
    requires m.Valid() && Semidefinite(p, m.v) && Inverts(m.S(p), t) && Sensed(m, p) && i < 4
    ensures SemiBlockAt(m.UpdateP(p, t), m.v, i)
  {
    hide *;
    Values(m, p, i);
    SensedAt(m, p, i);
    MakesSemiBlock(m.UpdateP(p, t), m.v, i);
    UpdateEntry(m, p, t, i, i);
    if i < m.v {
      UpdateEntry(m, p, t, i, i + 4);
      UpdateEntry(m, p, t, i + 4, i + 4);
      UpdateSemiBlock(At(p, i, i), At(p, i, i + 4), At(p, i + 4, i + 4), m.r[i]);
    } else {
      Reduces(At(p, i, i), m.r[i]);
    }
  }

  lemma SensedAt(m: Model, p: Matrix, i: nat)
    requires Sensed(m, p) && i < 4
    ensures Innovation(m, p, i) > 0.0
  {
  }

  lemma Reduces(a: real, r: real)
    requires a >= 0.0 && r >= 0.0 && a + r > 0.0
    ensures 0.0 <= Less(a, a, a + r, a) <= a && Less(a, a, a + r, a) <= r
  {
    UpdateAlgebra(a, 0.0, 0.0, r);
    ShareWithin(a, r);
    hide Less;
    var k := a / (a + r);
    assert k * (a + r) == a;
    NotNegative(k, a);
    NotNegative(k, r);
    NotNegative(1.0 - k, a);
    NotNegative(1.0 - k, r);
    assert (1.0 - k) * a == a - k * a && (1.0 - k) * r == r - k * r;
    assert k * a + k * r == a;
  }

  /** A measurement keeps every block semidefinite ... */
  lemma UpdateSemidefinite(m: Model, p: Matrix, t: Matrix)
    requires m.Valid() && Semidefinite(p, m.v) && Inverts(m.S(p), t)
    ensures Semidefinite(m.UpdateP(p, t), m.v)
  {
    InvertsSensed(m, p, t);
    UpdateBlocky(m, p, t);
    hide Model.UpdateP, Blocky, Inverts, Model.S, Sensed;
    forall i: nat | i < 4 ensures SemiBlockAt(m.UpdateP(p, t), m.v, i) {
      UpdateSemiAt(m, p, t, i);
    }
  }

  predicate Within(x: real, y: real, z: real) {
    x <= y <= z || z <= y <= x
  }

  /** ... moves each quantity towards the measurement, at most up to it, and leaves it
      no less sure than prediction and measurement. */
  lemma MeasuredWithin(m: Model, x: seq<real>, z: seq<real>, p: Matrix, t: Matrix, i: nat)
    requires m.Valid() && Semidefinite(p, m.v) && Inverts(m.S(p), t) && |x| == m.N() && |z| == 4 && i < 4
    ensures |m.UpdateX(x, z, p, t)| == m.N()
    ensures Within(x[i], m.UpdateX(x, z, p, t)[i], z[i])
    ensures 0.0 <= At(m.K(p, t), i, i) <= 1.0
    ensures At(m.UpdateP(p, t), i, i) <= At(p, i, i) && At(m.UpdateP(p, t), i, i) <= m.r[i]
  {
    hide *;
    Values(m, p, i);
    InvertsSensed(m, p, t);
    SensedAt(m, p, i);
    UpdateXEntry(m, x, z, p, t, i);
    KEntry(m, p, t, i, i);
    UpdateEntry(m, p, t, i, i);
    ShareWithin(At(p, i, i), m.r[i]);
    Reduces(At(p, i, i), m.r[i]);
    UpToIt(x[i], z[i], Share(At(p, i, i), Innovation(m, p, i)));
  }

  lemma UpToIt(x: real, z: real, k: real)
    requires 0.0 <= k <= 1.0
    ensures Within(x, x + Times(k, z - x), z)
  {
    var d := z - x;
    assert Times(k, d) == k * d && d - k * d == (1.0 - k) * d;
    if d >= 0.0 {
      NotNegative(k, d);
      NotNegative(1.0 - k, d);
    } else {
      NotNegative(k, -d);
      NotNegative(1.0 - k, -d);
      assert k * -d == -(k * d) && (1.0 - k) * -d == -((1.0 - k) * d);
    }
  }
}
