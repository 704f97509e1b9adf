/** Real vectors and square systems of linear equations. */
module Vectors {

  type Vector = seq<real>

  /** Sum of u[j] * v[j] over j >= i. */
  function Tail(u: Vector, v: Vector, i: nat): real
    requires |u| == |v| && i <= |u|
    decreases |u| - i
  {
    if i == |u| then 0.0 else u[i] * v[i] + Tail(u, v, i + 1)
  }

  function Dot(u: Vector, v: Vector): real
    requires |u| == |v|
  {
    Tail(u, v, 0)
  }

  /** u + s * x */
  function Plus(u: Vector, s: real, x: Vector): (r: Vector)
    requires |u| == |x|
    ensures |r| == |u| && forall i :: 0 <= i < |u| ==> r[i] == u[i] + s * x[i]
  {
    seq(|u|, i requires 0 <= i < |u| => u[i] + s * x[i])
  }

  function Zero(n: nat): (r: Vector)
    ensures |r| == n && forall i :: 0 <= i < n ==> r[i] == 0.0
  {
    seq(n, i => 0.0)
  }

  lemma {:induction false} Distributes(a: real, s: real, x: real, v: real)
    ensures (a + s * x) * v == a * v + s * (x * v)
  {
  }

  lemma {:induction false} TailPlus(u: Vector, s: real, x: Vector, v: Vector, i: nat)
    requires |u| == |x| == |v| && i <= |u|
    ensures Tail(Plus(u, s, x), v, i) == Tail(u, v, i) + s * Tail(x, v, i)
    decreases |u| - i
  {
    if i < |u| {
      TailPlus(u, s, x, v, i + 1);
      Distributes(u[i], s, x[i], v[i]);
      assert s * (x[i] * v[i] + Tail(x, v, i + 1)) == s * (x[i] * v[i]) + s * Tail(x, v, i + 1);
    }
  }

  lemma {:induction false} TailCommutes(u: Vector, v: Vector, i: nat)
    requires |u| == |v| && i <= |u|
    ensures Tail(u, v, i) == Tail(v, u, i)
    decreases |u| - i
  {
    if i < |u| { TailCommutes(u, v, i + 1); }
  }

  lemma {:induction false} DotPlusRight(u: Vector, v: Vector, s: real, x: Vector)
    requires |u| == |x| == |v|
    ensures Dot(u, Plus(v, s, x)) == Dot(u, v) + s * Dot(u, x)
  {
    TailCommutes(u, Plus(v, s, x), 0);
    TailPlus(v, s, x, u, 0);
    TailCommutes(v, u, 0);
    TailCommutes(x, u, 0);
  }

  /** Leading zeros of u contribute nothing. */
  lemma {:induction false} TailSkipsZeros(u: Vector, v: Vector, i: nat, m: nat)
    requires |u| == |v| && i <= m <= |u|
    requires forall j :: i <= j < m ==> u[j] == 0.0
    ensures Tail(u, v, i) == Tail(u, v, m)
    decreases m - i
  {
    if i < m {
      TailSkipsZeros(u, v, i + 1, m);
      assert u[i] * v[i] == 0.0;
    }
  }

  lemma {:induction false} TailOfZero(v: Vector, i: nat)
    requires i <= |v|
    ensures Tail(Zero(|v|), v, i) == 0.0
  {
    TailSkipsZeros(Zero(|v|), v, i, |v|);
  }

  /** Only the entries from i on matter. */
  lemma {:induction false} TailAgrees(u: Vector, v: Vector, w: Vector, i: nat)
    requires |u| == |v| == |w| && i <= |u|
    requires forall j :: i <= j < |u| ==> v[j] == w[j]
    ensures Tail(u, v, i) == Tail(u, w, i)
    decreases |u| - i
  {
    if i < |u| { TailAgrees(u, v, w, i + 1); }
  }

  // ---------- Systems ----------

  type Matrix = seq<Vector>

  predicate Square(a: Matrix, n: nat) {
    |a| == n && forall i :: 0 <= i < n ==> |a[i]| == n
  }

  /** c satisfies every equation of a * c = b. */
  ghost predicate Solves(a: Matrix, b: Vector, c: Vector)
    requires Square(a, |b|)
  {
    |c| == |b| && forall i :: 0 <= i < |b| ==> Dot(a[i], c) == b[i]
  }

  /** Two systems with the same solutions. */
  ghost predicate Equivalent(a: Matrix, b: Vector, a': Matrix, b': Vector)
    requires Square(a, |b|) && Square(a', |b'|)
  {
    |b| == |b'| && forall c :: Solves(a, b, c) <==> Solves(a', b', c)
  }

  /** Below the diagonal, the first i columns are zero. */
  ghost predicate Triangular(a: Matrix, i: nat) {
    forall k, j :: 0 <= k < |a| && 0 <= j < k && j < i && j < |a[k]| ==> a[k][j] == 0.0
  }
}
