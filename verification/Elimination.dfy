/** Gaussian elimination as category_fit of bench/harness_call_attrib.py performs it, on values: what each step keeps. */
module Elimination {
  import opened Common
  import opened Vectors

  /** Exchanging two equations. */
  function Swapped<T>(s: seq<T>, i: nat, p: nat): (r: seq<T>)
    requires i < |s| && p < |s|
    ensures |r| == |s| && r[i] == s[p] && r[p] == s[i]
    ensures forall k :: 0 <= k < |s| && k != i && k != p ==> r[k] == s[k]
  {
    s[i := s[p]][p := s[i]]
  }

  /** The multiple of row i that is subtracted from row k. */
  function Factor(a: Matrix, i: nat, k: nat): real
    requires Square(a, |a|) && i < |a| && k < |a| && a[i][i] != 0.0
  {
    a[k][i] / a[i][i]
  }

  function ReducedRow(a: Matrix, i: nat, k: nat): (r: Vector)
    requires Square(a, |a|) && i < |a| && k < |a| && a[i][i] != 0.0
    ensures |r| == |a|
  {
    if k <= i then a[k] else Plus(a[k], -Factor(a, i, k), a[i])
  }

  /** Every row below i with a multiple of row i subtracted. */
  function Reduced(a: Matrix, i: nat): (r: Matrix)
    requires Square(a, |a|) && i < |a| && a[i][i] != 0.0
    ensures Square(r, |a|)
  {
    seq(|a|, k requires 0 <= k < |a| => ReducedRow(a, i, k))
  }

  function ReducedEntry(a: Matrix, b: Vector, i: nat, k: nat): real
    requires Square(a, |b|) && i < |a| && k < |b| && a[i][i] != 0.0
  {
    if k <= i then b[k] else b[k] + -Factor(a, i, k) * b[i]
  }

  function ReducedRhs(a: Matrix, b: Vector, i: nat): (r: Vector)
    requires Square(a, |b|) && i < |a| && a[i][i] != 0.0
    ensures |r| == |b|
  {
    seq(|b|, k requires 0 <= k < |b| => ReducedEntry(a, b, i, k))
  }

  lemma {:induction false} SwapKeepsSolutions(a: Matrix, b: Vector, i: nat, p: nat)
    requires Square(a, |b|) && i < |b| && p < |b|
    ensures Equivalent(a, b, Swapped(a, i, p), Swapped(b, i, p))
  {
    var a', b' := Swapped(a, i, p), Swapped(b, i, p);
    forall c ensures Solves(a, b, c) <==> Solves(a', b', c) {
      if Solves(a', b', c) {
        forall k | 0 <= k < |b| ensures Dot(a[k], c) == b[k] {
          var k' := if k == i then p else if k == p then i else k;
          assert a[k] == a'[k'] && b[k] == b'[k'];
        }
      }
    }
  }

  lemma {:induction false} CancelScaled(x: real, y: real, f: real, u: real, v: real)
    requires u == v
    ensures x + f * u == y + f * v <==> x == y
  {
  }

  /** Where the pivot equation holds, a reduced equation holds exactly when the given one does. */
  lemma {:induction false} RowKeepsSolution(a: Matrix, b: Vector, i: nat, k: nat, c: Vector)
    requires Square(a, |b|) && i < |b| && k < |b| && a[i][i] != 0.0 && |c| == |b| && Dot(a[i], c) == b[i]
    ensures Dot(ReducedRow(a, i, k), c) == ReducedEntry(a, b, i, k) <==> Dot(a[k], c) == b[k]
  {
    if k > i {
      var f := -Factor(a, i, k);
      TailPlus(a[k], f, a[i], c, 0);
      CancelScaled(Dot(a[k], c), b[k], f, Dot(a[i], c), b[i]);
    }
  }

  lemma {:induction false} ReductionKeepsSolution(a: Matrix, b: Vector, i: nat, c: Vector)
    requires Square(a, |b|) && i < |b| && a[i][i] != 0.0 && |c| == |b|
    ensures Solves(a, b, c) <==> Solves(Reduced(a, i), ReducedRhs(a, b, i), c)
  {
    var a', b' := Reduced(a, i), ReducedRhs(a, b, i);
    assert a'[i] == a[i] && b'[i] == b[i];
    if Dot(a[i], c) == b[i] {
      forall k | 0 <= k < |b| ensures Dot(a'[k], c) == b'[k] <==> Dot(a[k], c) == b[k] {
        RowKeepsSolution(a, b, i, k, c);
      }
    }
  }

  lemma {:induction false} ReductionKeepsSolutions(a: Matrix, b: Vector, i: nat)
    requires Square(a, |b|) && i < |b| && a[i][i] != 0.0
    ensures Equivalent(a, b, Reduced(a, i), ReducedRhs(a, b, i))
  {
    forall c | |c| == |b| ensures Solves(a, b, c) <==> Solves(Reduced(a, i), ReducedRhs(a, b, i), c) {
      ReductionKeepsSolution(a, b, i, c);
    }
  }

  lemma {:induction false} FactorClears(x: real, pivot: real)
    requires pivot != 0.0
    ensures x + -(x / pivot) * pivot == 0.0
  {
  }

  lemma {:induction false} ZeroStays(x: real, f: real, y: real)
    requires x == 0.0 && y == 0.0
    ensures x + f * y == 0.0
  {
  }

  lemma {:induction false} RowIsCleared(a: Matrix, i: nat, k: nat, j: nat)
    requires Square(a, |a|) && i < k < |a| && a[i][i] != 0.0 && j <= i
    requires j < i ==> a[k][j] == 0.0 && a[i][j] == 0.0
    ensures ReducedRow(a, i, k)[j] == 0.0
  {
    if j == i {
      FactorClears(a[k][i], a[i][i]);
    } else {
      ZeroStays(a[k][j], -Factor(a, i, k), a[i][j]);
    }
  }

  /** Column i becomes zero below the diagonal and earlier columns stay so. */
  lemma {:induction false} ReductionClearsColumn(a: Matrix, i: nat)
    requires Square(a, |a|) && i < |a| && a[i][i] != 0.0 && Triangular(a, i)
    ensures Triangular(Reduced(a, i), i + 1)
  {
    var a' := Reduced(a, i);
    forall k, j | 0 <= k < |a| && 0 <= j < k && j < i + 1 ensures a'[k][j] == 0.0 {
      assert a'[k] == ReducedRow(a, i, k);
      if k > i {
        RowIsCleared(a, i, k, j);
      } else {
        assert a[k][j] == 0.0;
      }
    }
  }

  lemma {:induction false} EquivalentChain(a: Matrix, b: Vector, a': Matrix, b': Vector, a'': Matrix, b'': Vector)
    requires Square(a, |b|) && Square(a', |b'|) && Square(a'', |b''|)
    requires Equivalent(a, b, a', b') && Equivalent(a', b', a'', b'')
    ensures Equivalent(a, b, a'', b'')
  {
  }

  // ---------- The whole elimination ----------

  /** Among rows i to k - 1, the first with the largest entry in column i. */
  function FirstLargest(a: Matrix, i: nat, k: nat): (p: nat)
    requires Square(a, |a|) && i < k <= |a|
    ensures i <= p < k
  {
    if k == i + 1 then i
    else
      var p := FirstLargest(a, i, k - 1);
      if Abs(a[k - 1][i]) > Abs(a[p][i]) then k - 1 else p
  }

  /** Row p has the largest entry of column i among rows i to k - 1, and no row before it has. */
  ghost predicate Leads(a: Matrix, i: nat, k: nat, p: nat)
    requires Square(a, |a|) && k <= |a|
  {
    && i <= p < k
    && (forall l :: i <= l < k ==> Abs(a[l][i]) <= Abs(a[p][i]))
    && forall l :: i <= l < p ==> Abs(a[l][i]) < Abs(a[p][i])
  }

  lemma {:induction false} FirstLargestLeads(a: Matrix, i: nat, k: nat)
    requires Square(a, |a|) && i < k <= |a|
    ensures Leads(a, i, k, FirstLargest(a, i, k))
  {
    if k > i + 1 { FirstLargestLeads(a, i, k - 1); }
  }

  lemma {:induction false} LeaderIsUnique(a: Matrix, i: nat, k: nat, p: nat)
    requires Square(a, |a|) && i < k <= |a| && Leads(a, i, k, p)
    ensures p == FirstLargest(a, i, k)
  {
    FirstLargestLeads(a, i, k);
  }

  /** Column i's largest entry moved to the diagonal. */
  function Exchanged<T>(a: Matrix, s: seq<T>, i: nat): (r: seq<T>)
    requires Square(a, |s|) && i < |s|
    ensures |r| == |s|
  {
    Swapped(s, i, FirstLargest(a, i, |a|))
  }

  datatype Outcome = NoPivot(column: nat) | Reached(a: Matrix, b: Vector)

  /** Columns i on: where the elimination meets an unusable pivot, or the system it ends with. */
  function Eliminated(a: Matrix, b: Vector, i: nat, tolerance: real): Outcome
    requires Square(a, |b|) && i <= |b| && tolerance >= 0.0
    decreases |b| - i
  {
    if i == |b| then Reached(a, b)
    else
      var a', b' := Exchanged(a, a, i), Exchanged(a, b, i);
      if Abs(a'[i][i]) <= tolerance then NoPivot(i)
      else Eliminated(Reduced(a', i), ReducedRhs(a', b', i), i + 1, tolerance)
  }

  lemma {:induction false} ExchangeKeeps(a: Matrix, b: Vector, i: nat)
    requires Square(a, |b|) && i < |b| && Triangular(a, i)
    ensures Square(Exchanged(a, a, i), |b|) && Triangular(Exchanged(a, a, i), i)
    ensures Equivalent(a, b, Exchanged(a, a, i), Exchanged(a, b, i))
    ensures forall k :: 0 <= k < i ==> Exchanged(a, a, i)[k] == a[k]
  {
    SwapKeepsSolutions(a, b, i, FirstLargest(a, i, |a|));
  }

  /** The systems of one column: as given, after the exchange, and with the column cleared. */
  lemma {:induction false} ColumnKeeps(a: Matrix, b: Vector, i: nat)
    requires Square(a, |b|) && i < |b| && Triangular(a, i) && Exchanged(a, a, i)[i][i] != 0.0
    ensures var a', b' := Exchanged(a, a, i), Exchanged(a, b, i);
      && Equivalent(a, b, Reduced(a', i), ReducedRhs(a', b', i))
      && Triangular(Reduced(a', i), i + 1)
      && (forall k :: 0 <= k < i ==> Reduced(a', i)[k] == a[k])
      && Reduced(a', i)[i] == a'[i]
  {
    var a', b' := Exchanged(a, a, i), Exchanged(a, b, i);
    ExchangeKeeps(a, b, i);
    ReductionKeepsSolutions(a', b', i);
    ReductionClearsColumn(a', i);
    EquivalentChain(a, b, a', b', Reduced(a', i), ReducedRhs(a', b', i));
  }

  /** What an elimination that reaches its end leaves. */
  ghost predicate Echelon(a: Matrix, b: Vector, a': Matrix, b': Vector, tolerance: real)
    requires Square(a, |b|)
  {
    && Square(a', |b'|) && Equivalent(a, b, a', b') && Triangular(a', |b'|)
    && forall k :: 0 <= k < |b'| ==> Abs(a'[k][k]) > tolerance
  }

  lemma {:induction false} EchelonChain(a: Matrix, b: Vector, next: Matrix, rhs: Vector, r: Outcome, tolerance: real)
    requires Square(a, |b|) && Square(next, |rhs|) && Equivalent(a, b, next, rhs)
    requires r.Reached? ==> Echelon(next, rhs, r.a, r.b, tolerance)
    ensures r.Reached? ==> Echelon(a, b, r.a, r.b, tolerance)
  {
    if r.Reached? { EquivalentChain(a, b, next, rhs, r.a, r.b); }
  }

  /** The column of an elimination, and where it leads. */
  lemma {:induction false} EliminatedStep(a: Matrix, b: Vector, i: nat, tolerance: real) returns (next: Matrix, rhs: Vector)
    requires Square(a, |b|) && i < |b| && tolerance >= 0.0 && Triangular(a, i)
    requires (forall k :: 0 <= k < i ==> Abs(a[k][k]) > tolerance) && Abs(Exchanged(a, a, i)[i][i]) > tolerance
    ensures |rhs| == |b| && Square(next, |rhs|) && Triangular(next, i + 1) && Equivalent(a, b, next, rhs)
    ensures forall k :: 0 <= k <= i ==> Abs(next[k][k]) > tolerance
    ensures Eliminated(a, b, i, tolerance) == Eliminated(next, rhs, i + 1, tolerance)
  {
    var a', b' := Exchanged(a, a, i), Exchanged(a, b, i);
    ColumnKeeps(a, b, i);
    next, rhs := Reduced(a', i), ReducedRhs(a', b', i);
  }

  /** No column is left, or no pivot is usable. */
  lemma {:induction false} EliminatedHere(a: Matrix, b: Vector, i: nat, tolerance: real) returns (r: Outcome)
    requires Square(a, |b|) && i <= |b| && tolerance >= 0.0 && Triangular(a, i)
    requires forall k :: 0 <= k < i ==> Abs(a[k][k]) > tolerance
    requires i == |b| || Abs(Exchanged(a, a, i)[i][i]) <= tolerance
    ensures r == Eliminated(a, b, i, tolerance) && (r.Reached? ==> Echelon(a, b, r.a, r.b, tolerance))
  {
    r := if i == |b| then Reached(a, b) else NoPivot(i);
  }

  lemma {:induction false} EliminatedEnd(a: Matrix, b: Vector, i: nat, tolerance: real) returns (r: Outcome)
    requires Square(a, |b|) && i <= |b| && tolerance >= 0.0 && Triangular(a, i)
    requires forall k :: 0 <= k < i ==> Abs(a[k][k]) > tolerance
    ensures r == Eliminated(a, b, i, tolerance) && (r.Reached? ==> Echelon(a, b, r.a, r.b, tolerance))
    decreases |b| - i
  {
    if i < |b| && Abs(Exchanged(a, a, i)[i][i]) > tolerance {
      var next, rhs := EliminatedStep(a, b, i, tolerance);
      r := EliminatedEnd(next, rhs, i + 1, tolerance);
      EchelonChain(a, b, next, rhs, r, tolerance);
    } else {
      r := EliminatedHere(a, b, i, tolerance);
    }
  }

  /** An elimination that reaches its end keeps all solutions, and leaves a triangle with usable pivots. */
  lemma {:induction false} EliminatedKeeps(a: Matrix, b: Vector, i: nat, tolerance: real)
    requires Square(a, |b|) && i <= |b| && tolerance >= 0.0 && Triangular(a, i)
    requires forall k :: 0 <= k < i ==> Abs(a[k][k]) > tolerance
    ensures var r := Eliminated(a, b, i, tolerance); r.Reached? ==> Echelon(a, b, r.a, r.b, tolerance)
  {
    var r := EliminatedEnd(a, b, i, tolerance);
  }

  /** The pivot is the largest entry of its column from its row on. */
  lemma {:induction false} PivotIsLargest(a: Matrix, i: nat)
    requires Square(a, |a|) && i < |a|
    ensures forall k :: i <= k < |a| ==> Abs(a[k][i]) <= Abs(Exchanged(a, a, i)[i][i])
  {
    FirstLargestLeads(a, i, |a|);
  }

  /** An elimination up to column i: a system with the same solutions, with i usable pivots and zeros below them. */
  ghost predicate Partway(a: Matrix, b: Vector, m: Matrix, v: Vector, i: nat, tolerance: real)
    requires Square(a, |b|)
  {
    && Square(m, |v|) && Equivalent(a, b, m, v) && Triangular(m, i)
    && i <= |v| && forall k :: 0 <= k < i ==> Abs(m[k][k]) > tolerance
  }

  lemma {:induction false} PartwayChain(a: Matrix, b: Vector, next: Matrix, rhs: Vector, m: Matrix, v: Vector, i: nat, tolerance: real)
    requires Square(a, |b|) && Square(next, |rhs|) && Equivalent(a, b, next, rhs) && Partway(next, rhs, m, v, i, tolerance)
    ensures Partway(a, b, m, v, i, tolerance)
  {
    EquivalentChain(a, b, next, rhs, m, v);
  }

  /** From row c on, column c has nothing larger than the tolerance. */
  ghost predicate Negligible(m: Matrix, c: nat, tolerance: real)
    requires Square(m, |m|)
  {
    c < |m| && forall k :: c <= k < |m| ==> Abs(m[k][c]) <= tolerance
  }

  lemma {:induction false} StopsHere(a: Matrix, b: Vector, i: nat, tolerance: real)
    requires Square(a, |b|) && i < |b| && tolerance >= 0.0 && Triangular(a, i)
    requires (forall k :: 0 <= k < i ==> Abs(a[k][k]) > tolerance) && Abs(Exchanged(a, a, i)[i][i]) <= tolerance
    ensures Eliminated(a, b, i, tolerance) == NoPivot(i) && Partway(a, b, a, b, i, tolerance) && Negligible(a, i, tolerance)
  {
    PivotIsLargest(a, i);
  }

  /** An elimination that stops has come to a column whose remaining entries are all too small. */
  lemma {:induction false} EliminatedStops(a: Matrix, b: Vector, i: nat, tolerance: real) returns (m: Matrix, v: Vector, c: nat)
    requires Square(a, |b|) && i <= |b| && tolerance >= 0.0 && Triangular(a, i)
    requires forall k :: 0 <= k < i ==> Abs(a[k][k]) > tolerance
    requires Eliminated(a, b, i, tolerance).NoPivot?
    ensures Eliminated(a, b, i, tolerance) == NoPivot(c)
    ensures Partway(a, b, m, v, c, tolerance) && Negligible(m, c, tolerance)
    decreases |b| - i
  {
    if Abs(Exchanged(a, a, i)[i][i]) <= tolerance {
      StopsHere(a, b, i, tolerance);
      return a, b, i;
    }
    var next, rhs := EliminatedStep(a, b, i, tolerance);
    m, v, c := EliminatedStops(next, rhs, i + 1, tolerance);
    PartwayChain(a, b, next, rhs, m, v, c, tolerance);
  }

  // ---------- Back substitution ----------

  /** Equations i.. hold for c, and determine its entries i... */
  ghost predicate SolvedFrom(a: Matrix, b: Vector, c: Vector, i: nat)
    requires Square(a, |b|)
  {
    && |c| == |b|
    && (forall k :: i <= k < |b| ==> Tail(a[k], c, k) == b[k])
    && (forall other, k :: Solves(a, b, other) && i <= k < |b| ==> other[k] == c[k])
  }

  lemma {:induction false} QuotientSolves(pivot: real, rest: real, rhs: real, x: real)
    requires pivot != 0.0
    ensures pivot * x + rest == rhs <==> x == (rhs - rest) / pivot
  {
  }

  lemma {:induction false} RowHolds(row: Vector, c: Vector, i: nat, rhs: real, x: real)
    requires |row| == |c| && i < |row| && row[i] != 0.0 && x == (rhs - Tail(row, c, i + 1)) / row[i]
    ensures Tail(row, c[i := x], i) == rhs
  {
    TailAgrees(row, c, c[i := x], i + 1);
    QuotientSolves(row[i], Tail(row, c, i + 1), rhs, x);
  }

  lemma {:induction false} RowForces(row: Vector, c: Vector, i: nat, rhs: real, x: real, other: Vector)
    requires |row| == |c| == |other| && i < |row| && row[i] != 0.0 && x == (rhs - Tail(row, c, i + 1)) / row[i]
    requires forall j :: 0 <= j < i ==> row[j] == 0.0
    requires forall j :: i + 1 <= j < |row| ==> other[j] == c[j]
    requires Dot(row, other) == rhs
    ensures other[i] == x
  {
    TailSkipsZeros(row, other, 0, i);
    TailAgrees(row, c, other, i + 1);
    QuotientSolves(row[i], Tail(row, c, i + 1), rhs, other[i]);
  }

  /** One more entry, computed from the ones after it. */
  lemma {:induction false} SubstituteOne(a: Matrix, b: Vector, c: Vector, i: nat, x: real)
    requires Square(a, |b|) && Triangular(a, |b|) && i < |b| && a[i][i] != 0.0
    requires SolvedFrom(a, b, c, i + 1)
    requires x == (b[i] - Tail(a[i], c, i + 1)) / a[i][i]
    ensures SolvedFrom(a, b, c[i := x], i)
  {
    var c' := c[i := x];
    RowHolds(a[i], c, i, b[i], x);
    forall k | i + 1 <= k < |b| ensures Tail(a[k], c', k) == b[k] {
      TailAgrees(a[k], c, c', k);
    }
    forall other | Solves(a, b, other) ensures other[i] == x {
      RowForces(a[i], c, i, b[i], x, other);
    }
  }

  /** A vector solved from the first equation on is the one solution of the system. */
  lemma {:induction false} SolvedIsUnique(a: Matrix, b: Vector, c: Vector)
    requires Square(a, |b|) && Triangular(a, |b|) && SolvedFrom(a, b, c, 0)
    ensures forall other :: Solves(a, b, other) <==> other == c
  {
    forall k | 0 <= k < |b| ensures Dot(a[k], c) == b[k] { TailSkipsZeros(a[k], c, 0, k); }
    forall other | Solves(a, b, other) ensures other == c { }
  }

  lemma {:induction false} SolutionFrom(a: Matrix, b: Vector, i: nat) returns (c: Vector)
    requires Square(a, |b|) && Triangular(a, |b|) && i <= |b|
    requires forall k :: 0 <= k < |b| ==> a[k][k] != 0.0
    ensures SolvedFrom(a, b, c, i)
    decreases |b| - i
  {
    if i == |b| {
      c := Zero(|b|);
    } else {
      var later := SolutionFrom(a, b, i + 1);
      var x := (b[i] - Tail(a[i], later, i + 1)) / a[i][i];
      SubstituteOne(a, b, later, i, x);
      c := later[i := x];
    }
  }

  /** A system whose elimination reaches its end has exactly one solution. */
  lemma {:induction false} ReachedMeansOneSolution(a: Matrix, b: Vector, tolerance: real) returns (c: Vector)
    requires Square(a, |b|) && tolerance >= 0.0 && Eliminated(a, b, 0, tolerance).Reached?
    ensures forall other :: Solves(a, b, other) <==> other == c
  {
    EliminatedKeeps(a, b, 0, tolerance);
    var r := Eliminated(a, b, 0, tolerance);
    c := SolutionFrom(r.a, r.b, 0);
    SolvedIsUnique(r.a, r.b, c);
  }
}
