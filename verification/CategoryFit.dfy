/**
 category_fit of bench/harness_call_attrib.py: the normal equations are
 accumulated row by row, reduced in place with partial pivoting, and solved
 backwards. Floating-point numbers are real numbers here.
 */
module CategoryFit {
  import opened Common
  import opened Vectors
  import opened Elimination
  import opened LeastSquares

  /** The two counters of a captured call that the fit reads (zero when absent). */
  datatype Call = Call(drafts: nat, accepted: nat)

  datatype Fit =
    | Unidentified(calls: nat)
    | Estimated(calls: nat, estimates: seq<Option<real>>, pivotRatio: real)

  function SumFrom(x: Vector, i: nat): real
    requires i <= |x|
    decreases |x| - i
  {
    if i == |x| then 0.0 else x[i] + SumFrom(x, i + 1)
  }

  predicate Skipped(call: Call, x: Vector) { call.drafts < 5 || SumFrom(x, 0) == 0.0 }

  function SampleOf(call: Call, x: Vector): Sample
    requires call.drafts >= 5
  {
    var weight := (call.drafts + call.accepted) as real;
    Sample(weight, call.drafts as real / weight, x)
  }

  /** What a captured call says: drafts per emitted token, weighted by the tokens emitted. */
  lemma {:induction false} SampleMeans(call: Call, x: Vector)
    requires call.drafts >= 5
    ensures var p := SampleOf(call, x);
      && p.weight == call.drafts as real + call.accepted as real
      && p.target * p.weight == call.drafts as real && 0.0 < p.target <= 1.0 && p.x == x
  {
    ShareOfWhole(call.drafts as real, (call.drafts + call.accepted) as real);
  }

  lemma {:induction false} Quotient(part: real, whole: real) returns (ratio: real)
    requires 0.0 < part <= whole
    ensures ratio == part / whole && ratio * whole == part && 0.0 < ratio <= 1.0
  {
    ratio := part / whole;
    ShareOfWhole(part, whole);
  }

  lemma {:induction false} ShareOfWhole(part: real, whole: real)
    requires 0.0 < part <= whole
    ensures part / whole * whole == part && 0.0 < part / whole <= 1.0
  {
  }

  /** A mixture of no negative shares adds up to nothing exactly when it has none. */
  lemma {:induction false} SumIsZeroIff(x: Vector, i: nat)
    requires i <= |x| && forall j :: i <= j < |x| ==> x[j] >= 0.0
    ensures SumFrom(x, i) >= 0.0
    ensures SumFrom(x, i) == 0.0 <==> forall j :: i <= j < |x| ==> x[j] == 0.0
    decreases |x| - i
  {
    if i < |x| { SumIsZeroIff(x, i + 1); }
  }

  predicate Shares(shares: seq<Vector>, n: nat) { forall k :: 0 <= k < |shares| ==> |shares[k]| == n }

  /** The observations among the first count rows that enter the fit. */
  function Kept(rows: seq<Call>, shares: seq<Vector>, n: nat, count: nat): (s: seq<Sample>)
    requires Shares(shares, n) && count <= |rows| && count <= |shares|
    ensures Samples(s, n)
  {
    if count == 0 then []
    else if Skipped(rows[count - 1], shares[count - 1]) then Kept(rows, shares, n, count - 1)
    else Kept(rows, shares, n, count - 1) + [SampleOf(rows[count - 1], shares[count - 1])]
  }

  /** Sample k of the kept ones is that of row from[k]. */
  ghost predicate Picked(rows: seq<Call>, shares: seq<Vector>, samples: seq<Sample>, from: seq<nat>, count: nat)
    requires count <= |rows| && count <= |shares|
  {
    && |from| == |samples|
    && (forall k :: 0 <= k < |from| ==> from[k] < count && StandsFor(rows[from[k]], shares[from[k]], samples[k]))
    && (forall k, l :: 0 <= k < l < |from| ==> from[k] < from[l])
  }

  /** The sample is what a call of at least five drafts says about its mixture. */
  predicate StandsFor(call: Call, x: Vector, p: Sample) {
    && call.drafts >= 5 && p.x == x
    && p.weight == call.drafts as real + call.accepted as real && p.target * p.weight == call.drafts as real
  }

  /** The picked rows are those of at least five drafts whose mixture has a sum. */
  ghost predicate PickedAll(rows: seq<Call>, shares: seq<Vector>, from: seq<nat>, count: nat)
    requires count <= |rows| && count <= |shares|
  {
    forall i :: 0 <= i < count ==> (i in from <==> rows[i].drafts >= 5 && SumFrom(shares[i], 0) != 0.0)
  }

  lemma {:induction false} PickedAdds(rows: seq<Call>, shares: seq<Vector>, samples: seq<Sample>, from: seq<nat>, count: nat, p: Sample)
    requires count < |rows| && count < |shares| && Picked(rows, shares, samples, from, count)
    requires StandsFor(rows[count], shares[count], p)
    ensures Picked(rows, shares, samples + [p], from + [count], count + 1)
  {
    var all, more := samples + [p], from + [count];
    forall k | 0 <= k < |more| ensures more[k] < count + 1 && StandsFor(rows[more[k]], shares[more[k]], all[k]) {
      assert k < |from| ==> more[k] == from[k] && all[k] == samples[k];
    }
  }

  lemma {:induction false} PickedAllAdds(rows: seq<Call>, shares: seq<Vector>, from: seq<nat>, count: nat)
    requires count < |rows| && count < |shares| && PickedAll(rows, shares, from, count)
    requires rows[count].drafts >= 5 && SumFrom(shares[count], 0) != 0.0
    ensures PickedAll(rows, shares, from + [count], count + 1)
  {
    var more := from + [count];
    assert more[|from|] == count;
    forall i | 0 <= i < count ensures i in more <==> i in from { InMore(from, count, i); }
  }

  lemma {:induction false} InMore(from: seq<nat>, last: nat, i: nat)
    ensures i in from + [last] <==> i in from || i == last
  {
  }

  lemma {:induction false} PickedSkips(rows: seq<Call>, shares: seq<Vector>, samples: seq<Sample>, from: seq<nat>, count: nat)
    requires count < |rows| && count < |shares|
    requires Picked(rows, shares, samples, from, count) && PickedAll(rows, shares, from, count)
    requires rows[count].drafts < 5 || SumFrom(shares[count], 0) == 0.0
    ensures Picked(rows, shares, samples, from, count + 1) && PickedAll(rows, shares, from, count + 1)
  {
    assert count !in from by { assert forall k :: 0 <= k < |from| ==> from[k] < count; }
  }

  lemma {:induction false} SampleStands(call: Call, x: Vector)
    requires call.drafts >= 5
    ensures StandsFor(call, x, SampleOf(call, x))
  {
    SampleMeans(call, x);
  }

  lemma {:induction false} KeptStep(rows: seq<Call>, shares: seq<Vector>, n: nat, count: nat, before: seq<nat>)
    returns (samples: seq<Sample>, from: seq<nat>)
    requires Shares(shares, n) && 1 <= count <= |rows| && count <= |shares|
    requires Picked(rows, shares, Kept(rows, shares, n, count - 1), before, count - 1) && PickedAll(rows, shares, before, count - 1)
    ensures samples == Kept(rows, shares, n, count)
    ensures Picked(rows, shares, samples, from, count) && PickedAll(rows, shares, from, count)
  {
    samples, from := Kept(rows, shares, n, count - 1), before;
    if Skipped(rows[count - 1], shares[count - 1]) {
      PickedSkips(rows, shares, samples, before, count - 1);
      return;
    }
    var p := SampleOf(rows[count - 1], shares[count - 1]);
    SampleStands(rows[count - 1], shares[count - 1]);
    PickedAdds(rows, shares, samples, before, count - 1, p);
    PickedAllAdds(rows, shares, before, count - 1);
    samples, from := samples + [p], before + [count - 1];
  }

  lemma {:induction false} NoneKept(rows: seq<Call>, shares: seq<Vector>, n: nat)
    requires Shares(shares, n)
    ensures Picked(rows, shares, Kept(rows, shares, n, 0), [], 0) && PickedAll(rows, shares, [], 0)
  {
  }

  /** The kept samples are, in order, those of all calls of at least five drafts whose mixture has a sum. */
  lemma {:induction false} KeptAre(rows: seq<Call>, shares: seq<Vector>, n: nat, count: nat) returns (from: seq<nat>)
    requires Shares(shares, n) && count <= |rows| && count <= |shares|
    ensures Picked(rows, shares, Kept(rows, shares, n, count), from, count) && PickedAll(rows, shares, from, count)
  {
    if count == 0 {
      from := [];
      NoneKept(rows, shares, n);
      return;
    }
    from := KeptAre(rows, shares, n, count - 1);
    var samples;
    samples, from := KeptStep(rows, shares, n, count, from);
  }

  lemma {:induction false} KeptGrows(rows: seq<Call>, shares: seq<Vector>, n: nat, early: nat, count: nat)
    requires Shares(shares, n) && early <= count <= |rows| && count <= |shares|
    ensures Kept(rows, shares, n, early) <= Kept(rows, shares, n, count)
    decreases count
  {
    if early < count { KeptGrows(rows, shares, n, early, count - 1); }
  }

  // ---------- Accumulating the normal equations ----------

  function AddedRow(row: Vector, p: Sample, i: nat): (r: Vector)
    requires |row| == |p.x| && i < |row|
    ensures |r| == |row|
  {
    Plus(row, Weighted(p, i), p.x)
  }

  function AddedEntry(entry: real, p: Sample, i: nat): real
    requires i < |p.x|
  {
    entry + Weighted(p, i) * p.target
  }

  method AddToRow(row: Vector, p: Sample, i: nat) returns (r: Vector)
    requires |row| == |p.x| && i < |row|
    ensures r == AddedRow(row, p, i)
  {
    r := row;
    for j := 0 to |row|
      invariant |r| == |row|
      invariant forall k :: 0 <= k < j ==> r[k] == AddedRow(row, p, i)[k]
      invariant forall k :: j <= k < |row| ==> r[k] == row[k]
    {
      r := r[j := r[j] + p.weight * p.x[i] * p.x[j]];
    }
  }

  /** The equations hold the sums over the first count samples. */
  ghost predicate Accumulated(a: Matrix, b: Vector, s: seq<Sample>, n: nat, count: nat)
    requires Samples(s, n) && count <= |s|
  {
    |a| == |b| == n && forall i :: 0 <= i < n ==> a[i] == NormalRow(s, n, i, count) && b[i] == NormalEntry(s, n, i, count)
  }

  lemma {:induction false} AddedIsAccumulated(a: Matrix, b: Vector, s: seq<Sample>, n: nat, count: nat, a': Matrix, b': Vector)
    requires Samples(s, n) && count < |s| && Accumulated(a, b, s, n, count) && |a'| == |b'| == n
    requires forall k :: 0 <= k < n ==> a'[k] == AddedRow(a[k], s[count], k) && b'[k] == AddedEntry(b[k], s[count], k)
    ensures Accumulated(a', b', s, n, count + 1)
  {
  }

  method AddToEquation(a: array<Vector>, b: array<real>, p: Sample, i: nat)
    requires i < a.Length == b.Length && |a[i]| == |p.x| && i < |p.x|
    modifies a, b
    ensures a[..] == old(a[..])[i := AddedRow(old(a[i]), p, i)] && b[..] == old(b[..])[i := AddedEntry(old(b[i]), p, i)]
  {
    b[i] := b[i] + p.weight * p.x[i] * p.target;
    a[i] := AddToRow(a[i], p, i);
  }

  method AddSample(a: array<Vector>, b: array<real>, p: Sample, n: nat, ghost s: seq<Sample>, ghost count: nat)
    requires Samples(s, n) && count < |s| && s[count] == p
    requires a.Length == b.Length == n && Accumulated(a[..], b[..], s, n, count)
    modifies a, b
    ensures Accumulated(a[..], b[..], s, n, count + 1)
  {
    ghost var m, v := a[..], b[..];
    for i := 0 to n
      invariant forall k :: 0 <= k < i ==> a[..][k] == AddedRow(m[k], p, k) && b[..][k] == AddedEntry(v[k], p, k)
      invariant forall k :: i <= k < n ==> a[..][k] == m[k] && b[..][k] == v[k]
    {
      assert a[i] == a[..][i] == m[i] && |m[i]| == n;
      AddToEquation(a, b, p, i);
    }
    AddedIsAccumulated(m, v, s, n, count, a[..], b[..]);
  }

  lemma {:induction false} NextKept(rows: seq<Call>, shares: seq<Vector>, n: nat, k: nat, m: nat)
    requires Shares(shares, n) && k < m <= |rows| && m <= |shares|
    ensures var s, used := Kept(rows, shares, n, m), |Kept(rows, shares, n, k)|;
      if Skipped(rows[k], shares[k]) then |Kept(rows, shares, n, k + 1)| == used
      else |Kept(rows, shares, n, k + 1)| == used + 1 <= |s| && s[used] == SampleOf(rows[k], shares[k])
  {
    KeptGrows(rows, shares, n, k + 1, m);
  }

  method BuildNormal(rows: seq<Call>, shares: seq<Vector>, n: nat) returns (a: array<Vector>, b: array<real>, used: nat)
    requires Shares(shares, n)
    ensures fresh(a) && fresh(b) && a.Length == b.Length == n
    ensures var s := Kept(rows, shares, n, Min(|rows|, |shares|));
      used == |s| && Accumulated(a[..], b[..], s, n, used)
  {
    var m := Min(|rows|, |shares|);
    ghost var s := Kept(rows, shares, n, m);
    a := new Vector[n](_ => Zero(n));
    b := new real[n](_ => 0.0);
    used := 0;
    for k := 0 to m
      invariant used == |Kept(rows, shares, n, k)| && used <= |s|
      invariant Accumulated(a[..], b[..], s, n, used)
    {
      NextKept(rows, shares, n, k, m);
      if !Skipped(rows[k], shares[k]) {
        AddSample(a, b, SampleOf(rows[k], shares[k]), n, s, used);
        used := used + 1;
      }
    }
  }

  // ---------- Elimination in place ----------

  function MaxReal(x: real, y: real): real { if x >= y then x else y }

  /** Largest absolute entry of a row, and of a matrix; zero for none. */
  function RowScale(row: Vector): (m: real)
    ensures m >= 0.0 && forall j :: 0 <= j < |row| ==> Abs(row[j]) <= m
  {
    if row == [] then 0.0
    else
      var rest := RowScale(row[1..]);
      assert forall j :: 0 < j < |row| ==> row[j] == row[1..][j - 1];
      MaxReal(Abs(row[0]), rest)
  }

  function Scale(a: Matrix): (m: real)
    ensures m >= 0.0 && forall i, j :: 0 <= i < |a| && 0 <= j < |a[i]| ==> Abs(a[i][j]) <= m
  {
    if a == [] then 0.0
    else
      var rest := Scale(a[1..]);
      assert forall i :: 0 < i < |a| ==> a[i] == a[1..][i - 1];
      MaxReal(RowScale(a[0]), rest)
  }

  /** Pivots no larger than this count as zero. */
  function Tolerance(a: Matrix): real {
    MaxReal(0.000000000001, Scale(a) * 0.0000000001)
  }

  lemma {:induction false} RowScaleIsMet(row: Vector)
    ensures RowScale(row) == 0.0 || exists j :: 0 <= j < |row| && Abs(row[j]) == RowScale(row)
  {
    if row != [] {
      RowScaleIsMet(row[1..]);
      if RowScale(row) != Abs(row[0]) && RowScale(row) != 0.0 {
        var j :| 0 <= j < |row[1..]| && Abs(row[1..][j]) == RowScale(row[1..]);
        assert Abs(row[j + 1]) == RowScale(row);
      }
    }
  }

  lemma {:induction false} ScaleIsMet(a: Matrix)
    ensures Scale(a) == 0.0 || exists i, j :: 0 <= i < |a| && 0 <= j < |a[i]| && Abs(a[i][j]) == Scale(a)
  {
    if a != [] && Scale(a) != 0.0 {
      if Scale(a) == RowScale(a[0]) {
        RowScaleIsMet(a[0]);
        var j :| 0 <= j < |a[0]| && Abs(a[0][j]) == RowScale(a[0]);
        assert Abs(a[0][j]) == Scale(a);
      } else {
        ScaleIsMet(a[1..]);
        var i, j :| 0 <= i < |a[1..]| && 0 <= j < |a[1..][i]| && Abs(a[1..][i][j]) == Scale(a[1..]);
        assert a[i + 1] == a[1..][i] && Abs(a[i + 1][j]) == Scale(a);
      }
    }
  }

  /** The tolerance is 1e-12 or 1e-10 of the largest entry, whichever is larger. */
  lemma {:induction false} ToleranceIs(a: Matrix)
    ensures Tolerance(a) >= 0.000000000001
    ensures forall i, j :: 0 <= i < |a| && 0 <= j < |a[i]| ==> Tolerance(a) * 10000000000.0 >= Abs(a[i][j])
    ensures Tolerance(a) == 0.000000000001
      || exists i, j :: 0 <= i < |a| && 0 <= j < |a[i]| && Tolerance(a) * 10000000000.0 == Abs(a[i][j])
  {
    ScaleIsMet(a);
    if Tolerance(a) != 0.000000000001 {
      var i, j :| 0 <= i < |a| && 0 <= j < |a[i]| && Abs(a[i][j]) == Scale(a);
      assert Tolerance(a) * 10000000000.0 == Abs(a[i][j]);
    }
  }

  /** The first row from i on whose entry in column i is largest in absolute value. */
  method SelectPivot(a: array<Vector>, i: nat) returns (p: nat)
    requires Square(a[..], a.Length) && i < a.Length
    ensures Leads(a[..], i, a.Length, p)
  {
    p := i;
    ghost var m := a[..];
    for k := i + 1 to a.Length
      invariant Leads(m, i, k, p)
    {
      assert a[k] == m[k] && a[p] == m[p];
      if Abs(a[k][i]) > Abs(a[p][i]) { p := k; }
    }
  }

  method SubtractRow(row: Vector, f: real, pivot: Vector, i: nat) returns (r: Vector)
    requires |row| == |pivot| && i <= |row|
    requires forall j :: 0 <= j < i ==> pivot[j] == 0.0
    ensures r == Plus(row, -f, pivot)
  {
    r := row;
    for j := i to |row|
      invariant |r| == |row|
      invariant forall k :: 0 <= k < j ==> r[k] == row[k] + -f * pivot[k]
      invariant forall k :: j <= k < |row| ==> r[k] == row[k]
    {
      r := r[j := r[j] - f * pivot[j]];
    }
  }

  method EliminateBelow(a: array<Vector>, b: array<real>, i: nat)
    requires a.Length == b.Length && Square(a[..], a.Length) && i < a.Length
    requires a[..][i][i] != 0.0 && Triangular(a[..], i)
    modifies a, b
    ensures a[..] == Reduced(old(a[..]), i)
    ensures b[..] == ReducedRhs(old(a[..]), old(b[..]), i)
  {
    ghost var m, v := a[..], b[..];
    for k := i + 1 to a.Length
      invariant forall l :: 0 <= l < k ==> a[l] == ReducedRow(m, i, l) && b[l] == ReducedEntry(m, v, i, l)
      invariant forall l :: k <= l < a.Length ==> a[l] == m[l] && b[l] == v[l]
    {
      assert a[i] == m[i] && b[i] == v[i] && a[k] == m[k];
      var f := a[k][i] / a[i][i];
      a[k] := SubtractRow(a[k], f, a[i], i);
      b[k] := b[k] - f * b[i];
    }
  }

  /** The pivots met so far, and that all but the last are usable. */
  ghost predicate Met(a: Matrix, pivots: seq<real>, tolerance: real) {
    |pivots| <= |a| && Square(a, |a|) &&
    (forall k :: 0 <= k < |pivots| ==> pivots[k] == Abs(a[k][k])) &&
    forall k :: 0 <= k < |pivots| - 1 ==> pivots[k] > tolerance
  }

  /** One column: choose the pivot, exchange, and clear below it, unless the pivot is too small. */
  method PivotStep(a: array<Vector>, b: array<real>, i: nat, tolerance: real, ghost outcome: Outcome) returns (pivot: real)
    requires a.Length == b.Length && Square(a[..], a.Length) && i < a.Length
    requires Triangular(a[..], i) && tolerance >= 0.0 && outcome == Eliminated(a[..], b[..], i, tolerance)
    modifies a, b
    ensures Square(a[..], a.Length) && (pivot > tolerance ==> Triangular(a[..], i + 1))
    ensures forall k :: 0 <= k < i ==> a[k] == old(a[k])
    ensures pivot == Abs(a[..][i][i])
    ensures outcome == if pivot <= tolerance then NoPivot(i) else Eliminated(a[..], b[..], i + 1, tolerance)
  {
    ghost var m, v := a[..], b[..];
    var p := SelectPivot(a, i);
    LeaderIsUnique(m, i, a.Length, p);
    a[i], a[p] := a[p], a[i];
    b[i], b[p] := b[p], b[i];
    assert a[..] == Exchanged(m, m, i) && b[..] == Exchanged(m, v, i);
    ExchangeKeeps(m, v, i);
    pivot := Abs(a[i][i]);
    if pivot > tolerance {
      ColumnKeeps(m, v, i);
      EliminateBelow(a, b, i);
    }
  }

  lemma {:induction false} MetGrows(a: Matrix, a': Matrix, pivots: seq<real>, pivot: real, tolerance: real)
    requires Met(a, pivots, tolerance) && |pivots| < |a| && Square(a', |a|)
    requires pivots != [] ==> pivots[|pivots| - 1] > tolerance
    requires forall k :: 0 <= k < |pivots| ==> a'[k] == a[k]
    requires pivot == Abs(a'[|pivots|][|pivots|])
    ensures Met(a', pivots + [pivot], tolerance)
  {
  }

  /** The first i columns are done and their pivots are usable; outcome is where the elimination ends. */
  ghost predicate Done(a: Matrix, b: Vector, pivots: seq<real>, i: nat, tolerance: real, outcome: Outcome)
    requires tolerance >= 0.0
  {
    && Square(a, |b|) && i <= |b| && Triangular(a, i)
    && |pivots| == i && Met(a, pivots, tolerance) && (pivots != [] ==> pivots[|pivots| - 1] > tolerance)
    && outcome == Eliminated(a, b, i, tolerance)
  }

  /** How the loop over the columns ends, and with which pivots. */
  ghost predicate Ended(a: Matrix, b: Vector, pivots: seq<real>, ok: bool, tolerance: real, outcome: Outcome) {
    && Met(a, pivots, tolerance)
    && (if ok then |pivots| == |a| && (pivots != [] ==> pivots[|pivots| - 1] > tolerance)
        else pivots != [] && pivots[|pivots| - 1] <= tolerance)
    && outcome == if ok then Reached(a, b) else NoPivot(|pivots| - 1)
  }

  lemma {:induction false} NoneDone(a: Matrix, b: Vector, tolerance: real)
    requires Square(a, |b|) && tolerance >= 0.0
    ensures Done(a, b, [], 0, tolerance, Eliminated(a, b, 0, tolerance))
  {
  }

  lemma {:induction false} AllDone(a: Matrix, b: Vector, pivots: seq<real>, tolerance: real, outcome: Outcome)
    requires tolerance >= 0.0 && Done(a, b, pivots, |b|, tolerance, outcome)
    ensures Ended(a, b, pivots, true, tolerance, outcome)
  {
  }

  /** One column more, or the end. */
  lemma {:induction false} DoneGrows(a: Matrix, b: Vector, a': Matrix, b': Vector, pivots: seq<real>, pivot: real,
                                     i: nat, tolerance: real, outcome: Outcome)
    requires tolerance >= 0.0 && Done(a, b, pivots, i, tolerance, outcome) && i < |a| && Square(a', |a|) && |b'| == |b|
    requires (forall k :: 0 <= k < i ==> a'[k] == a[k]) && pivot == Abs(a'[i][i])
    requires pivot > tolerance ==> Triangular(a', i + 1)
    requires outcome == if pivot <= tolerance then NoPivot(i) else Eliminated(a', b', i + 1, tolerance)
    ensures if pivot > tolerance then Done(a', b', pivots + [pivot], i + 1, tolerance, outcome)
            else Ended(a', b', pivots + [pivot], false, tolerance, outcome)
  {
    MetGrows(a, a', pivots, pivot, tolerance);
  }

  method NextColumn(a: array<Vector>, b: array<real>, pivots: seq<real>, i: nat, tolerance: real, ghost outcome: Outcome)
    returns (more: seq<real>, usable: bool)
    requires a.Length == b.Length && i < a.Length && tolerance >= 0.0 && Done(a[..], b[..], pivots, i, tolerance, outcome)
    modifies a, b
    ensures if usable then Done(a[..], b[..], more, i + 1, tolerance, outcome)
            else Ended(a[..], b[..], more, false, tolerance, outcome)
  {
    ghost var m, v := a[..], b[..];
    var pivot := PivotStep(a, b, i, tolerance, outcome);
    DoneGrows(m, v, a[..], b[..], pivots, pivot, i, tolerance, outcome);
    more, usable := pivots + [pivot], pivot > tolerance;
  }

  method Eliminate(a: array<Vector>, b: array<real>, tolerance: real) returns (pivots: seq<real>, ok: bool)
    requires a.Length == b.Length && Square(a[..], a.Length) && tolerance >= 0.0
    modifies a, b
    ensures Ended(a[..], b[..], pivots, ok, tolerance, Eliminated(old(a[..]), old(b[..]), 0, tolerance))
  {
    ghost var outcome := Eliminated(a[..], b[..], 0, tolerance);
    NoneDone(a[..], b[..], tolerance);
    pivots := [];
    for i := 0 to a.Length
      invariant Done(a[..], b[..], pivots, i, tolerance, outcome)
    {
      pivots, ok := NextColumn(a, b, pivots, i, tolerance, outcome);
      if !ok { return; }
    }
    AllDone(a[..], b[..], pivots, tolerance, outcome);
    ok := true;
  }

  /** The coefficients, filled in from the last to the first. */
  method BackSubstitute(a: array<Vector>, b: array<real>) returns (cost: Vector)
    requires a.Length == b.Length && Square(a[..], a.Length) && Triangular(a[..], a.Length)
    requires forall k :: 0 <= k < a.Length ==> a[..][k][k] != 0.0
    ensures |cost| == a.Length
    ensures forall other :: Solves(a[..], b[..], other) <==> other == cost
  {
    var n := a.Length;
    cost := Zero(n);
    for i := n downto 0
      invariant |cost| == n && SolvedFrom(a[..], b[..], cost, i)
    {
      var x := (b[i] - Tail(a[i], cost, i + 1)) / a[i][i];
      SubstituteOne(a[..], b[..], cost, i, x);
      cost := cost[i := x];
    }
    SolvedIsUnique(a[..], b[..], cost);
  }

  // ---------- The fit ----------

  function Smallest(s: seq<real>): (m: real)
    requires s != []
    ensures m in s && forall k :: 0 <= k < |s| ==> m <= s[k]
  {
    if |s| == 1 then s[0]
    else
      var rest := Smallest(s[1..]);
      assert forall k :: 0 < k < |s| ==> s[k] == s[1..][k - 1];
      if s[0] <= rest then s[0] else rest
  }

  function Largest(s: seq<real>): (m: real)
    requires s != []
    ensures m in s && forall k :: 0 <= k < |s| ==> s[k] <= m
  {
    if |s| == 1 then s[0]
    else
      var rest := Largest(s[1..]);
      assert forall k :: 0 < k < |s| ==> s[k] == s[1..][k - 1];
      if s[0] >= rest then s[0] else rest
  }

  lemma {:induction false} RatioBound(x: real, y: real)
    requires 0.0 < x <= y
    ensures 0.0 < x / y <= 1.0
  {
  }

  function PivotRatio(pivots: seq<real>): (r: real)
    requires pivots != [] && forall k :: 0 <= k < |pivots| ==> pivots[k] > 0.0
    ensures 0.0 < r <= 1.0
  {
    RatioBound(Smallest(pivots), Largest(pivots));
    Smallest(pivots) / Largest(pivots)
  }

  /** Accepted tokens per cycle, when the cost is physically possible. */
  function Estimates(cost: Vector): seq<Option<real>> {
    seq(|cost|, i requires 0 <= i < |cost| => if 1.0 / 8.0 <= cost[i] <= 1.0 then Some(1.0 / cost[i]) else None)
  }

  /** Each estimate is the inverse of its cost, for costs between an eighth and one, and missing for all others. */
  ghost predicate Inverse(cost: Vector, estimates: seq<Option<real>>) {
    |estimates| == |cost| && forall i :: 0 <= i < |cost| ==>
      if 1.0 / 8.0 <= cost[i] <= 1.0
      then estimates[i].Some? && estimates[i].value * cost[i] == 1.0 && 1.0 <= estimates[i].value <= 8.0
      else estimates[i] == None
  }

  lemma {:induction false} CancelFactor(x: real, y: real, v: real)
    requires v > 0.0 && x * v <= y * v
    ensures x <= y
  {
  }

  lemma {:induction false} InverseBounds(v: real)
    requires 1.0 / 8.0 <= v <= 1.0
    ensures 1.0 / v * v == 1.0 && 1.0 <= 1.0 / v <= 8.0
  {
    var e := 1.0 / v;
    assert e * v == 1.0;
    CancelFactor(1.0, e, v);
    CancelFactor(e, 8.0, v);
  }

  lemma {:induction false} EstimatesInvert(cost: Vector)
    ensures Inverse(cost, Estimates(cost))
  {
    forall i | 0 <= i < |cost| && 1.0 / 8.0 <= cost[i] <= 1.0
      ensures Estimates(cost)[i].value * cost[i] == 1.0 && 1.0 <= Estimates(cost)[i].value <= 8.0
    {
      InverseBounds(cost[i]);
    }
  }

  /** c alone has the least weighted squared error. */
  ghost predicate OnlyMinimiser(s: seq<Sample>, n: nat, c: Vector)
    requires Samples(s, n)
  {
    |c| == n && forall other: Vector :: |other| == n ==> (Minimises(s, other) <==> other == c)
  }

  lemma {:induction false} OnlySolutionIsOnlyMinimiser(s: seq<Sample>, n: nat, c: Vector)
    requires Samples(s, n) && |c| == n
    requires forall other :: Solves(NormalMatrix(s, n), NormalRhs(s, n), other) <==> other == c
    ensures OnlyMinimiser(s, n, c)
  {
    forall other: Vector | |other| == n ensures Minimises(s, other) <==> other == c {
      NormalEquationsCharacterise(s, other);
    }
  }

  lemma {:induction false} AccumulatedAll(s: seq<Sample>, n: nat, a: Matrix, b: Vector)
    requires Samples(s, n) && Accumulated(a, b, s, n, |s|)
    ensures a == NormalMatrix(s, n) && b == NormalRhs(s, n)
  {
  }

  /** How the elimination of the normal equations of the observations ends. */
  function Outcomes(s: seq<Sample>, n: nat): Outcome
    requires Samples(s, n)
  {
    Eliminated(NormalMatrix(s, n), NormalRhs(s, n), 0, Tolerance(NormalMatrix(s, n)))
  }

  /**
   No estimate is given only when the normal equations have been brought, without
   changing their solutions, to a column all of whose remaining entries count as zero.
   */
  lemma {:induction false} UnidentifiedMeans(s: seq<Sample>, n: nat) returns (m: Matrix, v: Vector, c: nat)
    requires Samples(s, n) && Outcomes(s, n).NoPivot?
    ensures c < n && Partway(NormalMatrix(s, n), NormalRhs(s, n), m, v, c, Tolerance(NormalMatrix(s, n)))
    ensures Square(m, n) && Negligible(m, c, Tolerance(NormalMatrix(s, n)))
  {
    m, v, c := EliminatedStops(NormalMatrix(s, n), NormalRhs(s, n), 0, Tolerance(NormalMatrix(s, n)));
  }

  /** When every pivot is usable, one vector alone has the least weighted squared error. */
  lemma {:induction false} ReachedMeansOneMinimiser(s: seq<Sample>, n: nat) returns (c: Vector)
    requires Samples(s, n) && Outcomes(s, n).Reached?
    ensures OnlyMinimiser(s, n, c)
  {
    var a, b := NormalMatrix(s, n), NormalRhs(s, n);
    c := ReachedMeansOneSolution(a, b, Tolerance(a));
    assert Solves(a, b, c);
    OnlySolutionIsOnlyMinimiser(s, n, c);
  }

  lemma {:induction false} MinimiserIsOnly(s: seq<Sample>, n: nat, only: Vector, c: Vector)
    requires Samples(s, n) && OnlyMinimiser(s, n, only) && |c| == n && Minimises(s, c)
    ensures c == only
  {
  }

  /** Whenever two different vectors have the least error, some pivot is unusable. */
  lemma {:induction false} TwoMinimisersAreUnidentified(s: seq<Sample>, n: nat, c: Vector, other: Vector)
    requires Samples(s, n) && |c| == |other| == n && c != other && Minimises(s, c) && Minimises(s, other)
    ensures Outcomes(s, n).NoPivot?
  {
    if Outcomes(s, n).Reached? {
      var only := ReachedMeansOneMinimiser(s, n);
      MinimiserIsOnly(s, n, only, c);
      MinimiserIsOnly(s, n, only, other);
    }
  }

  lemma {:induction false} SameResiduals(s: seq<Sample>, c: Vector, d: Vector, count: nat)
    requires Samples(s, |c|) && |d| == |c| && count <= |s|
    requires forall k :: 0 <= k < |s| ==> Dot(s[k].x, d) == 0.0
    ensures Error(s, Plus(c, 1.0, d), count) == Error(s, c, count)
  {
    if count > 0 {
      SameResiduals(s, c, d, count - 1);
      DotPlusRight(s[count - 1].x, c, 1.0, d);
    }
  }

  lemma {:induction false} SameErrorMinimises(s: seq<Sample>, c: Vector, moved: Vector)
    requires Samples(s, |c|) && |moved| == |c| && Minimises(s, c) && Error(s, moved, |s|) == Error(s, c, |s|)
    ensures Minimises(s, moved)
  {
  }

  lemma {:induction false} StepMoves(c: Vector, d: Vector)
    requires |c| == |d| && d != Zero(|c|)
    ensures Plus(c, 1.0, d) != c
  {
    var i :| 0 <= i < |d| && d[i] != Zero(|c|)[i];
    assert Plus(c, 1.0, d)[i] == c[i] + 1.0 * d[i];
  }

  lemma {:induction false} MinimiserExists(s: seq<Sample>, n: nat, only: Vector)
    requires Samples(s, n) && OnlyMinimiser(s, n, only)
    ensures |only| == n && Minimises(s, only)
  {
  }

  /** Observations whose mixtures are not independent never give an estimate. */
  lemma {:induction false} DependentMixturesAreUnidentified(s: seq<Sample>, n: nat, d: Vector)
    requires Samples(s, n) && |d| == n && d != Zero(n)
    requires forall k :: 0 <= k < |s| ==> Dot(s[k].x, d) == 0.0
    ensures Outcomes(s, n).NoPivot?
  {
    if Outcomes(s, n).Reached? {
      var c := ReachedMeansOneMinimiser(s, n);
      MinimiserExists(s, n, c);
      SameResiduals(s, c, d, |s|);
      SameErrorMinimises(s, c, Plus(c, 1.0, d));
      MinimiserIsOnly(s, n, c, Plus(c, 1.0, d));
      StepMoves(c, d);
    }
  }

  /** The diagonal, without its signs. */
  function Pivots(a: Matrix): seq<real> {
    seq(|a|, k requires 0 <= k < |a| => if k < |a[k]| then Abs(a[k][k]) else 0.0)
  }

  ghost predicate PivotsMet(a: Matrix, pivots: seq<real>, n: nat) {
    Square(a, n) && pivots == Pivots(a) && forall k :: 0 <= k < n ==> pivots[k] > 0.0
  }

  /** The ratio of the smallest to the largest diagonal entry in absolute value. */
  ghost predicate RatioMet(a: Matrix, n: nat, ratio: real) {
    Square(a, n) && exists i: nat, j: nat :: Between(a, n, i, j) && ratio * Abs(a[j][j]) == Abs(a[i][i]) && 0.0 < ratio <= 1.0
  }

  ghost predicate Between(a: Matrix, n: nat, i: nat, j: nat)
    requires Square(a, n)
  {
    i < n && j < n && forall k :: 0 <= k < n ==> 0.0 < Abs(a[i][i]) <= Abs(a[k][k]) <= Abs(a[j][j])
  }

  lemma {:induction false} PivotsBetween(a: Matrix, n: nat, pivots: seq<real>, i: nat, j: nat)
    requires PivotsMet(a, pivots, n) && i < n && j < n && pivots[i] == Smallest(pivots) && pivots[j] == Largest(pivots)
    ensures Between(a, n, i, j) && Abs(a[i][i]) == pivots[i] && Abs(a[j][j]) == pivots[j]
  {
    forall k | 0 <= k < n ensures pivots[i] <= Abs(a[k][k]) <= pivots[j] {
      assert pivots[k] == Abs(a[k][k]);
    }
  }

  lemma {:induction false} RatioShown(a: Matrix, n: nat, i: nat, j: nat, ratio: real, lo: real, hi: real)
    requires Square(a, n) && Between(a, n, i, j) && lo == Abs(a[i][i]) && hi == Abs(a[j][j])
    requires ratio * hi == lo && 0.0 < ratio <= 1.0
    ensures RatioMet(a, n, ratio)
  {
  }

  lemma {:induction false} RatioIsMet(a: Matrix, n: nat, pivots: seq<real>)
    requires n >= 1 && PivotsMet(a, pivots, n)
    ensures RatioMet(a, n, PivotRatio(pivots))
  {
    var lo, hi := Smallest(pivots), Largest(pivots);
    var i :| 0 <= i < n && pivots[i] == lo;
    var j :| 0 <= j < n && pivots[j] == hi;
    PivotsBetween(a, n, pivots, i, j);
    var ratio := Quotient(lo, hi);
    RatioShown(a, n, i, j, ratio, lo, hi);
  }

  lemma {:induction false} ReachedIsEchelon(s: seq<Sample>, n: nat, a: Matrix, b: Vector, pivots: seq<real>)
    requires Samples(s, n) && Outcomes(s, n) == Reached(a, b)
    requires Met(a, pivots, Tolerance(NormalMatrix(s, n))) && |pivots| == n
    ensures |b| == n && Triangular(a, n) && PivotsMet(a, pivots, n)
    ensures Equivalent(NormalMatrix(s, n), NormalRhs(s, n), a, b)
    ensures forall k :: 0 <= k < n ==> a[k][k] != 0.0
  {
    EliminatedKeeps(NormalMatrix(s, n), NormalRhs(s, n), 0, Tolerance(NormalMatrix(s, n)));
    assert pivots == Pivots(a);
    assert forall k :: 0 <= k < n ==> Pivots(a)[k] == Abs(a[k][k]);
  }

  lemma {:induction false} ReducedSolution(s: seq<Sample>, n: nat, a: Matrix, b: Vector, c: Vector)
    requires Samples(s, n) && Square(a, |b|) && |b| == n && |c| == n
    requires Equivalent(NormalMatrix(s, n), NormalRhs(s, n), a, b)
    requires forall other :: Solves(a, b, other) <==> other == c
    ensures OnlyMinimiser(s, n, c)
  {
    OnlySolutionIsOnlyMinimiser(s, n, c);
  }

  /** The kept observations. */
  function Used(rows: seq<Call>, shares: seq<Vector>, n: nat): (s: seq<Sample>)
    requires Shares(shares, n)
    ensures Samples(s, n)
  {
    Kept(rows, shares, n, Min(|rows|, |shares|))
  }

  /**
   No estimate is given exactly when elimination meets an unusable pivot;
   otherwise the estimates are the inverses of the one coefficient vector of
   least weighted squared error, where that is physically possible.
   */
  method Fitted(rows: seq<Call>, shares: seq<Vector>, n: nat) returns (fit: Fit)
    requires n >= 1 && Shares(shares, n)
    ensures fit.calls == |Used(rows, shares, n)|
    ensures fit.Unidentified? <==> Outcomes(Used(rows, shares, n), n).NoPivot?
    ensures fit.Estimated? ==> exists c :: OnlyMinimiser(Used(rows, shares, n), n, c) && Inverse(c, fit.estimates)
    ensures fit.Estimated? ==> RatioMet(Outcomes(Used(rows, shares, n), n).a, n, fit.pivotRatio)
  {
    ghost var s := Used(rows, shares, n);
    var a, b, used := BuildNormal(rows, shares, n);
    AccumulatedAll(s, n, a[..], b[..]);
    var pivots, ok := Eliminate(a, b, Tolerance(a[..]));
    if !ok { return Unidentified(used); }
    ReachedIsEchelon(s, n, a[..], b[..], pivots);
    var cost := BackSubstitute(a, b);
    ReducedSolution(s, n, a[..], b[..], cost);
    EstimatesInvert(cost);
    RatioIsMet(a[..], n, pivots);
    return Estimated(used, Estimates(cost), PivotRatio(pivots));
  }
}
