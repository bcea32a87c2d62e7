/** Dense matrices over the reals, as the filters write their equations. */
module Matrices {

  type Matrix = seq<seq<real>>

  predicate Is(a: Matrix, n: nat, m: nat) {
    |a| == n && forall i :: 0 <= i < n ==> |a[i]| == m
  }

  /** The entry, and zero outside. */
  function At(a: Matrix, i: nat, j: nat): real {
    if i < |a| && j < |a[i]| then a[i][j] else 0.0
  }

  function Build(n: nat, m: nat, f: (nat, nat) -> real): (r: Matrix)
    ensures Is(r, n, m)
    ensures forall i: nat, j: nat :: i < n && j < m ==> At(r, i, j) == f(i, j)
  {
    seq(n, i requires 0 <= i < n => seq(m, j requires 0 <= j < m => f(i, j)))
  }

  function Identity(n: nat): Matrix {
    Build(n, n, (i: nat, j: nat) => if i == j then 1.0 else 0.0)
  }

  function Diagonal(d: seq<real>): Matrix {
    Build(|d|, |d|, (i: nat, j: nat) => if i == j && i < |d| then d[i] else 0.0)
  }

  function Transpose(a: Matrix, n: nat, m: nat): Matrix {
    Build(m, n, (i: nat, j: nat) => At(a, j, i))
  }

  function Add(a: Matrix, b: Matrix, n: nat, m: nat): Matrix {
    Build(n, m, (i: nat, j: nat) => At(a, i, j) + At(b, i, j))
  }

  function Sub(a: Matrix, b: Matrix, n: nat, m: nat): Matrix {
    Build(n, m, (i: nat, j: nat) => At(a, i, j) - At(b, i, j))
  }

  /** The sum of the first `k` products of row `i` of `a` with column `j` of `b`. */
  function Dot(a: Matrix, b: Matrix, i: nat, j: nat, k: nat): real {
    if k == 0 then 0.0 else Dot(a, b, i, j, k - 1) + At(a, i, k - 1) * At(b, k - 1, j)
  }

  /** An n by p matrix times a p by m one. */
  function Mul(a: Matrix, b: Matrix, n: nat, p: nat, m: nat): Matrix {
    Build(n, m, (i: nat, j: nat) => Dot(a, b, i, j, p))
  }

  /** A column vector as a matrix. */
  function Column(x: seq<real>): Matrix {
    Build(|x|, 1, (i: nat, j: nat) => if i < |x| then x[i] else 0.0)
  }

  function Entries(a: Matrix, n: nat): (r: seq<real>) {
    seq(n, i requires 0 <= i < n => At(a, i, 0))
  }

  predicate Silent(a: Matrix, b: Matrix, i: nat, j: nat, k: nat, s: nat, t: nat) {
    forall u: nat :: u < k && u != s && u != t ==> At(a, i, u) == 0.0 || At(b, u, j) == 0.0
  }

  function Term(a: Matrix, b: Matrix, i: nat, j: nat, u: nat): real {
    At(a, i, u) * At(b, u, j)
  }

  /** A product of which only two terms can be nonzero. */
  lemma {:induction false} DotTwo(a: Matrix, b: Matrix, i: nat, j: nat, k: nat, s: nat, t: nat)
    requires Silent(a, b, i, j, k, s, t) && s != t
    ensures Dot(a, b, i, j, k) ==
            (if s < k then Term(a, b, i, j, s) else 0.0) + (if t < k then Term(a, b, i, j, t) else 0.0)
  {
    if k > 0 {
      DotTwo(a, b, i, j, k - 1, s, t);
    }
  }

  lemma {:induction false} DotOne(a: Matrix, b: Matrix, i: nat, j: nat, k: nat, s: nat)
    requires Silent(a, b, i, j, k, s, s)
    ensures Dot(a, b, i, j, k) == if s < k then Term(a, b, i, j, s) else 0.0
  {
    if k > 0 {
      DotOne(a, b, i, j, k - 1, s);
    }
  }
}
