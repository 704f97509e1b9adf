/** Weighted least squares: what a solution of the normal equations means. */
module LeastSquares {
  import opened Vectors

  /** One observation: target explained by the mixture x, with its weight. */
  datatype Sample = Sample(weight: real, target: real, x: Vector)

  predicate Samples(s: seq<Sample>, n: nat) {
    forall k :: 0 <= k < |s| ==> s[k].weight > 0.0 && |s[k].x| == n
  }

  function Weighted(p: Sample, i: nat): real
    requires i < |p.x|
  {
    p.weight * p.x[i]
  }

  /** Row i of the normal matrix after the first count samples. */
  function NormalRow(s: seq<Sample>, n: nat, i: nat, count: nat): (r: Vector)
    requires Samples(s, n) && i < n && count <= |s|
    ensures |r| == n
  {
    if count == 0 then Zero(n)
    else Plus(NormalRow(s, n, i, count - 1), Weighted(s[count - 1], i), s[count - 1].x)
  }

  function NormalEntry(s: seq<Sample>, n: nat, i: nat, count: nat): real
    requires Samples(s, n) && i < n && count <= |s|
  {
    if count == 0 then 0.0
    else NormalEntry(s, n, i, count - 1) + Weighted(s[count - 1], i) * s[count - 1].target
  }

  function NormalMatrix(s: seq<Sample>, n: nat): (a: Matrix)
    requires Samples(s, n)
    ensures Square(a, n)
  {
    seq(n, i requires 0 <= i < n => NormalRow(s, n, i, |s|))
  }

  function NormalRhs(s: seq<Sample>, n: nat): (b: Vector)
    requires Samples(s, n)
    ensures |b| == n
  {
    seq(n, i requires 0 <= i < n => NormalEntry(s, n, i, |s|))
  }

  function Residual(p: Sample, c: Vector): real
    requires |p.x| == |c|
  {
    p.target - Dot(p.x, c)
  }

  function Squared(r: real): real { r * r }

  function Cost(w: real, r: real): real { w * Squared(r) }

  /** Weighted squared error of the first count samples. */
  function Error(s: seq<Sample>, c: Vector, count: nat): real
    requires Samples(s, |c|) && count <= |s|
  {
    if count == 0 then 0.0 else Error(s, c, count - 1) + Cost(s[count - 1].weight, Residual(s[count - 1], c))
  }

  /** c has the least weighted squared error among all vectors. */
  ghost predicate Minimises(s: seq<Sample>, c: Vector)
    requires Samples(s, |c|)
  {
    forall other: Vector :: |other| == |c| ==> Error(s, c, |s|) <= Error(s, other, |s|)
  }

  ghost predicate SolvesNormal(s: seq<Sample>, c: Vector)
    requires Samples(s, |c|)
  {
    Solves(NormalMatrix(s, |c|), NormalRhs(s, |c|), c)
  }

  // ---------- The quadratic expansion ----------

  /** Half the downhill direction of the error at c. */
  function Gradient(s: seq<Sample>, c: Vector, count: nat): (r: Vector)
    requires Samples(s, |c|) && count <= |s|
    ensures |r| == |c|
  {
    if count == 0 then Zero(|c|)
    else Plus(Gradient(s, c, count - 1), s[count - 1].weight * Residual(s[count - 1], c), s[count - 1].x)
  }

  function CrossTerm(p: Sample, c: Vector, d: Vector): real
    requires |p.x| == |c| == |d|
  {
    p.weight * Residual(p, c) * Dot(p.x, d)
  }

  function Cross(s: seq<Sample>, c: Vector, d: Vector, count: nat): real
    requires Samples(s, |c|) && count <= |s| && |d| == |c|
  {
    if count == 0 then 0.0
    else Cross(s, c, d, count - 1) + CrossTerm(s[count - 1], c, d)
  }

  function Spread(s: seq<Sample>, d: Vector, count: nat): real
    requires Samples(s, |d|) && count <= |s|
  {
    if count == 0 then 0.0 else Spread(s, d, count - 1) + Cost(s[count - 1].weight, Dot(s[count - 1].x, d))
  }

  /** The error after a step, from its value, slope and spread before it. */
  function Expanded(error: real, cross: real, spread: real, step: real): real {
    error - 2.0 * step * cross + step * step * spread
  }

  lemma {:induction false} SquareExpands(w: real, r: real, step: real, u: real)
    ensures Cost(w, r - step * u) == Expanded(Cost(w, r), w * r * u, Cost(w, u), step)
  {
  }

  lemma {:induction false} ExpandedAdds(e: real, x: real, y: real, e': real, x': real, y': real, step: real)
    ensures Expanded(e + e', x + x', y + y', step) == Expanded(e, x, y, step) + Expanded(e', x', y', step)
  {
  }

  lemma {:induction false} TermExpands(p: Sample, c: Vector, step: real, d: Vector)
    requires |p.x| == |c| == |d|
    ensures Cost(p.weight, Residual(p, Plus(c, step, d)))
      == Expanded(Cost(p.weight, Residual(p, c)), CrossTerm(p, c, d), Cost(p.weight, Dot(p.x, d)), step)
  {
    DotPlusRight(p.x, c, step, d);
    SquareExpands(p.weight, Residual(p, c), step, Dot(p.x, d));
  }

  lemma {:induction false} ErrorExpands(s: seq<Sample>, c: Vector, step: real, d: Vector, count: nat)
    requires Samples(s, |c|) && count <= |s| && |d| == |c|
    ensures Error(s, Plus(c, step, d), count)
      == Expanded(Error(s, c, count), Cross(s, c, d, count), Spread(s, d, count), step)
  {
    if count > 0 {
      var p := s[count - 1];
      ErrorExpands(s, c, step, d, count - 1);
      TermExpands(p, c, step, d);
      ExpandedAdds(Error(s, c, count - 1), Cross(s, c, d, count - 1), Spread(s, d, count - 1),
                   Cost(p.weight, Residual(p, c)), CrossTerm(p, c, d), Cost(p.weight, Dot(p.x, d)), step);
    }
  }

  lemma {:induction false} CrossIsSlope(s: seq<Sample>, c: Vector, d: Vector, count: nat)
    requires Samples(s, |c|) && count <= |s| && |d| == |c|
    ensures Cross(s, c, d, count) == Dot(Gradient(s, c, count), d)
  {
    if count == 0 {
      TailOfZero(d, 0);
    } else {
      CrossIsSlope(s, c, d, count - 1);
      TailPlus(Gradient(s, c, count - 1), s[count - 1].weight * Residual(s[count - 1], c), s[count - 1].x, d, 0);
    }
  }

  lemma {:induction false} EntryGap(w: real, xi: real, y: real, dot: real)
    ensures w * xi * y - w * xi * dot == w * (y - dot) * xi
  {
  }

  lemma {:induction false} EntryStep(s: seq<Sample>, c: Vector, i: nat, count: nat)
    requires Samples(s, |c|) && i < |c| && 0 < count <= |s|
    ensures Gradient(s, c, count)[i] - Gradient(s, c, count - 1)[i]
      == NormalEntry(s, |c|, i, count) - NormalEntry(s, |c|, i, count - 1)
         - Weighted(s[count - 1], i) * Dot(s[count - 1].x, c)
  {
    var p := s[count - 1];
    EntryGap(p.weight, p.x[i], p.target, Dot(p.x, c));
  }

  lemma {:induction false} RowStep(s: seq<Sample>, c: Vector, i: nat, count: nat)
    requires Samples(s, |c|) && i < |c| && 0 < count <= |s|
    ensures Dot(NormalRow(s, |c|, i, count), c)
      == Dot(NormalRow(s, |c|, i, count - 1), c) + Weighted(s[count - 1], i) * Dot(s[count - 1].x, c)
  {
    TailPlus(NormalRow(s, |c|, i, count - 1), Weighted(s[count - 1], i), s[count - 1].x, c, 0);
  }

  /** The gradient is what the normal equations leave over. */
  lemma {:induction false} GradientIsGap(s: seq<Sample>, c: Vector, i: nat, count: nat)
    requires Samples(s, |c|) && i < |c| && count <= |s|
    ensures Gradient(s, c, count)[i] == NormalEntry(s, |c|, i, count) - Dot(NormalRow(s, |c|, i, count), c)
  {
    if count == 0 {
      TailOfZero(c, 0);
    } else {
      GradientIsGap(s, c, i, count - 1);
      RowStep(s, c, i, count);
      EntryStep(s, c, i, count);
    }
  }

  lemma {:induction false} SolvesMeansFlat(s: seq<Sample>, c: Vector)
    requires Samples(s, |c|)
    ensures SolvesNormal(s, c) <==> Gradient(s, c, |s|) == Zero(|c|)
  {
    var a, b := NormalMatrix(s, |c|), NormalRhs(s, |c|);
    forall i | 0 <= i < |c| ensures Dot(a[i], c) == b[i] <==> Gradient(s, c, |s|)[i] == 0.0 {
      GradientIsGap(s, c, i, |s|);
    }
    if SolvesNormal(s, c) {
      assert forall i :: 0 <= i < |c| ==> Gradient(s, c, |s|)[i] == Zero(|c|)[i];
    }
  }

  lemma {:induction false} ProductPositive(x: real, y: real, product: real)
    requires (x > 0.0 && y > 0.0) || (x < 0.0 && y < 0.0)
    requires product == x * y
    ensures product > 0.0
  {
  }

  lemma {:induction false} CostNotNegative(w: real, r: real)
    requires w > 0.0
    ensures Cost(w, r) >= 0.0 && (Cost(w, r) == 0.0 <==> r == 0.0)
  {
    if r != 0.0 {
      ProductPositive(r, r, Squared(r));
      ProductPositive(w, Squared(r), Cost(w, r));
    }
  }

  lemma {:induction false} SpreadNotNegative(s: seq<Sample>, d: Vector, count: nat)
    requires Samples(s, |d|) && count <= |s|
    ensures Spread(s, d, count) >= 0.0
    ensures Spread(s, d, count) == 0.0 ==> forall k :: 0 <= k < count ==> Dot(s[k].x, d) == 0.0
  {
    if count > 0 {
      SpreadNotNegative(s, d, count - 1);
      CostNotNegative(s[count - 1].weight, Dot(s[count - 1].x, d));
    }
  }

  // ---------- Minimisers ----------

  function Difference(u: Vector, v: Vector): (d: Vector)
    requires |u| == |v|
    ensures |d| == |u| && Plus(v, 1.0, d) == u
  {
    Plus(u, -1.0, v)
  }

  lemma {:induction false} SolutionMinimises(s: seq<Sample>, c: Vector)
    requires Samples(s, |c|) && SolvesNormal(s, c)
    ensures Minimises(s, c)
  {
    SolvesMeansFlat(s, c);
    forall other: Vector | |other| == |c| ensures Error(s, c, |s|) <= Error(s, other, |s|) {
      var d := Difference(other, c);
      ErrorExpands(s, c, 1.0, d, |s|);
      CrossIsSlope(s, c, d, |s|);
      TailOfZero(d, 0);
      SpreadNotNegative(s, d, |s|);
    }
  }

  lemma {:induction false} DotSelf(g: Vector, i: nat)
    requires i <= |g|
    ensures Tail(g, g, i) >= 0.0
    ensures Tail(g, g, i) == 0.0 ==> forall j :: i <= j < |g| ==> g[j] == 0.0
    decreases |g| - i
  {
    if i < |g| {
      DotSelf(g, i + 1);
      CostNotNegative(1.0, g[i]);
    }
  }

  /** A step short enough goes downhill. */
  lemma {:induction false} DownhillStep(slope: real, spread: real) returns (step: real)
    requires slope > 0.0 && spread >= 0.0
    ensures Expanded(0.0, slope, spread, step) < 0.0
  {
    if spread == 0.0 {
      step := 1.0;
    } else {
      step := slope / spread;
      assert step > 0.0;
      assert step * spread == slope;
      assert step * step * spread == step * slope;
      assert step * slope > 0.0;
    }
  }

  lemma {:induction false} MinimiserSolves(s: seq<Sample>, c: Vector)
    requires Samples(s, |c|) && Minimises(s, c)
    ensures SolvesNormal(s, c)
  {
    var g := Gradient(s, c, |s|);
    DotSelf(g, 0);
    SolvesMeansFlat(s, c);
    if Dot(g, g) == 0.0 {
      assert g == Zero(|c|);
    } else {
      SpreadNotNegative(s, g, |s|);
      CrossIsSlope(s, c, g, |s|);
      var step := DownhillStep(Dot(g, g), Spread(s, g, |s|));
      ErrorExpands(s, c, step, g, |s|);
      ExpandedAdds(Error(s, c, |s|), 0.0, 0.0, 0.0, Dot(g, g), Spread(s, g, |s|), step);
      assert Error(s, Plus(c, step, g), |s|) < Error(s, c, |s|);
    }
  }

  /** The normal equations hold at exactly the vectors of least weighted squared error. */
  lemma {:induction false} NormalEquationsCharacterise(s: seq<Sample>, c: Vector)
    requires Samples(s, |c|)
    ensures SolvesNormal(s, c) <==> Minimises(s, c)
  {
    if SolvesNormal(s, c) { SolutionMinimises(s, c); }
    if Minimises(s, c) { MinimiserSolves(s, c); }
  }
}
