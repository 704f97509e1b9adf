/**
 integrate of bench/spec_energy_report.py and device_energy of
 bench/analyze_adaptive_spec.py: a sweep over consecutive power samples, clipped
 to a window, is the exact integral of the piecewise-linear power curve.
 */
module DeviceEnergy {
  import opened Common

  /** A power reading, when the sensor gave one. */
  datatype Sample = Sample(at: real, power: Option<real>)

  const HOSTS := 4

  function MaxOf(x: real, y: real): real { if x >= y then x else y }

  function MinOf(x: real, y: real): real { if x <= y then x else y }

  ghost predicate Sorted(v: seq<Sample>) {
    forall i, j :: 0 <= i <= j < |v| ==> v[i].at <= v[j].at
  }

  // ---------- One pair of samples ----------

  predicate Overlaps(l: Sample, r: Sample, start: real, end: real) {
    MinOf(end, r.at) > MaxOf(start, l.at)
  }

  /** A gap that may be interpolated. */
  predicate Usable(l: Sample, r: Sample) {
    r.at - l.at <= 5.0 && l.power.Some? && r.power.Some?
  }

  /** Trapezoid of a line through (t0, p0) with the given slope, over lo to hi. */
  function Trapezoid(t0: real, p0: real, slope: real, lo: real, hi: real): real {
    (hi - lo) * (p0 + slope * ((lo + hi) / 2.0 - t0))
  }

  function SlopeOf(t0: real, p0: real, t1: real, p1: real): real
    requires t0 < t1
  {
    (p1 - p0) / (t1 - t0)
  }

  /** The straight line between two readings, at time x. */
  function Line(l: Sample, r: Sample, x: real): real {
    if l.at < r.at && l.power.Some? && r.power.Some?
    then l.power.value + SlopeOf(l.at, l.power.value, r.at, r.power.value) * (x - l.at)
    else 0.0
  }

  /** The line goes through both readings, and is as far along between them as the time is. */
  lemma {:induction false} LineInterpolates(l: Sample, r: Sample, x: real)
    requires l.at < r.at && l.power.Some? && r.power.Some?
    ensures Line(l, r, l.at) == l.power.value && Line(l, r, r.at) == r.power.value
    ensures (Line(l, r, x) - l.power.value) * (r.at - l.at) == (r.power.value - l.power.value) * (x - l.at)
  {
    var rise, run := r.power.value - l.power.value, r.at - l.at;
    var slope := SlopeOf(l.at, l.power.value, r.at, r.power.value);
    assert slope * run == rise;
    SwapFactors(slope, run, x - l.at, rise);
  }

  lemma {:induction false} SwapFactors(slope: real, run: real, d: real, rise: real)
    requires slope * run == rise
    ensures slope * d * run == rise * d
  {
    assert slope * d * run == slope * run * d;
  }

  /** What the sweep adds for one pair of samples. */
  function Piece(l: Sample, r: Sample, start: real, end: real): real {
    if Overlaps(l, r, start, end) && l.power.Some? && r.power.Some?
    then Trapezoid(l.at, l.power.value, SlopeOf(l.at, l.power.value, r.at, r.power.value), MaxOf(start, l.at), MinOf(end, r.at))
    else 0.0
  }

  function Overlap(l: Sample, r: Sample, start: real, end: real): real {
    if Overlaps(l, r, start, end) then MinOf(end, r.at) - MaxOf(start, l.at) else 0.0
  }

  // ---------- The curve and its antiderivative ----------

  /** x moved into the interval from t0 to t1. */
  function Clip(x: real, t0: real, t1: real): real { MaxOf(t0, MinOf(x, t1)) }

  /** Energy of the line through (t0, p0) from t0 to x. */
  function Area(t0: real, p0: real, slope: real, x: real): real {
    p0 * (x - t0) + slope * ((x - t0) * (x - t0)) / 2.0
  }

  /** Energy of one pair of samples up to time x. */
  function AreaTo(l: Sample, r: Sample, x: real): real {
    if l.at < r.at && l.power.Some? && r.power.Some?
    then Area(l.at, l.power.value, SlopeOf(l.at, l.power.value, r.at, r.power.value), Clip(x, l.at, r.at))
    else 0.0
  }

  lemma {:induction false} HalfSquares(u: real, w: real)
    ensures (w - u) * ((u + w) / 2.0) == w * w / 2.0 - u * u / 2.0
  {
    assert (w - u) * (u + w) == w * w - u * u;
  }

  lemma {:induction false} TimesDifference(s: real, a: real, b: real)
    ensures s * (a - b) == s * a - s * b
  {
  }

  /** The trapezoid rule is exact on a line. */
  lemma {:induction false} TrapezoidIsExact(t0: real, p0: real, slope: real, lo: real, hi: real)
    ensures Trapezoid(t0, p0, slope, lo, hi) == Area(t0, p0, slope, hi) - Area(t0, p0, slope, lo)
  {
    var u, w := lo - t0, hi - t0;
    HalfSquares(u, w);
    var mid, h := (u + w) / 2.0, (w - u) * ((u + w) / 2.0);
    assert (lo + hi) / 2.0 - t0 == mid;
    assert Trapezoid(t0, p0, slope, lo, hi) == (w - u) * (p0 + slope * mid);
    Expand(w - u, p0, slope, mid);
    TimesDifference(slope, w * w / 2.0, u * u / 2.0);
    TimesDifference(p0, w, u);
    assert slope * (w * w / 2.0) == slope * (w * w) / 2.0 && slope * (u * u / 2.0) == slope * (u * u) / 2.0;
  }

  lemma {:induction false} Expand(d: real, p: real, s: real, m: real)
    ensures d * (p + s * m) == p * d + s * (d * m)
  {
  }

  lemma {:induction false} PieceIsArea(l: Sample, r: Sample, start: real, end: real)
    requires l.at <= r.at && start <= end
    ensures Piece(l, r, start, end) == AreaTo(l, r, end) - AreaTo(l, r, start)
  {
    if l.power.Some? && r.power.Some? && l.at < r.at {
      if Overlaps(l, r, start, end) {
        TrapezoidIsExact(l.at, l.power.value, SlopeOf(l.at, l.power.value, r.at, r.power.value), MaxOf(start, l.at), MinOf(end, r.at));
        assert Clip(end, l.at, r.at) == MinOf(end, r.at) && Clip(start, l.at, r.at) == MaxOf(start, l.at);
      } else {
        assert Clip(end, l.at, r.at) == Clip(start, l.at, r.at);
      }
    }
  }

  // ---------- One host ----------

  function EnergyOf(v: seq<Sample>, start: real, end: real, n: nat): real
    requires n <= |v|
  {
    if n < 2 then 0.0 else EnergyOf(v, start, end, n - 1) + Piece(v[n - 2], v[n - 1], start, end)
  }

  function CoveredOf(v: seq<Sample>, start: real, end: real, n: nat): real
    requires n <= |v|
  {
    if n < 2 then 0.0 else CoveredOf(v, start, end, n - 1) + Overlap(v[n - 2], v[n - 1], start, end)
  }

  /** The integral of the power curve from the first sample to time x. */
  function EnergyTo(v: seq<Sample>, x: real, n: nat): real
    requires n <= |v|
  {
    if n < 2 then 0.0 else EnergyTo(v, x, n - 1) + AreaTo(v[n - 2], v[n - 1], x)
  }

  /** Every overlapped gap can be interpolated. */
  ghost predicate Readable(v: seq<Sample>, start: real, end: real, n: nat)
    requires n <= |v|
  {
    forall i :: 1 <= i < n ==> Overlaps(v[i - 1], v[i], start, end) ==> Usable(v[i - 1], v[i])
  }

  /** The sweep is the exact integral over the window. */
  lemma {:induction false} SweepIsIntegral(v: seq<Sample>, start: real, end: real, n: nat)
    requires Sorted(v) && n <= |v| && start <= end
    ensures EnergyOf(v, start, end, n) == EnergyTo(v, end, n) - EnergyTo(v, start, n)
  {
    if n >= 2 {
      SweepIsIntegral(v, start, end, n - 1);
      PieceIsArea(v[n - 2], v[n - 1], start, end);
    }
  }

  /** Splitting the window anywhere splits the energy. */
  lemma {:induction false} SweepIsAdditive(v: seq<Sample>, start: real, mid: real, end: real)
    requires Sorted(v) && start <= mid <= end
    ensures EnergyOf(v, start, end, |v|) == EnergyOf(v, start, mid, |v|) + EnergyOf(v, mid, end, |v|)
  {
    SweepIsIntegral(v, start, end, |v|);
    SweepIsIntegral(v, start, mid, |v|);
    SweepIsIntegral(v, mid, end, |v|);
  }

  /** The covered time is the part of the window between the first and the last sample. */
  lemma {:induction false} CoverageTelescopes(v: seq<Sample>, start: real, end: real, n: nat)
    requires Sorted(v) && 1 <= n <= |v| && start <= end
    ensures CoveredOf(v, start, end, n) == Clip(end, v[0].at, v[n - 1].at) - Clip(start, v[0].at, v[n - 1].at)
  {
    if n >= 2 { CoverageTelescopes(v, start, end, n - 1); }
  }

  lemma {:induction false} CoverageBounds(v: seq<Sample>, start: real, end: real)
    requires Sorted(v) && start <= end
    ensures 0.0 <= CoveredOf(v, start, end, |v|) <= end - start
  {
    if v != [] { CoverageTelescopes(v, start, end, |v|); }
  }

  lemma {:induction false} CoverageSplits(v: seq<Sample>, start: real, mid: real, end: real)
    requires Sorted(v) && start <= mid <= end
    ensures CoveredOf(v, start, end, |v|) == CoveredOf(v, start, mid, |v|) + CoveredOf(v, mid, end, |v|)
  {
    if v != [] {
      CoverageTelescopes(v, start, end, |v|);
      CoverageTelescopes(v, start, mid, |v|);
      CoverageTelescopes(v, mid, end, |v|);
    }
  }

  // ---------- Bounds ----------

  lemma {:induction false} ProductNotNegative(x: real, y: real, product: real)
    requires x >= 0.0 && y >= 0.0 && product == x * y
    ensures product >= 0.0
  {
  }

  lemma {:induction false} ScaledBetween(x: real, y: real, f: real)
    requires 0.0 <= f <= 1.0
    ensures MinOf(x, y) <= x + (y - x) * f <= MaxOf(x, y)
  {
    var e := (y - x) * f;
    assert (x - y) * f == -e && (y - x) * (1.0 - f) == (y - x) - e && (x - y) * (1.0 - f) == (x - y) + e;
    if y >= x {
      ProductNotNegative(y - x, f, e);
      ProductNotNegative(y - x, 1.0 - f, (y - x) - e);
    } else {
      ProductNotNegative(x - y, f, -e);
      ProductNotNegative(x - y, 1.0 - f, (x - y) + e);
    }
  }

  lemma {:induction false} QuotientBetween(a: real, b: real)
    requires 0.0 <= a <= b && b > 0.0
    ensures 0.0 <= a / b <= 1.0
  {
  }

  lemma {:induction false} MoveQuotient(p: real, d: real, m: real)
    requires d != 0.0
    ensures (p / d) * m == p * (m / d)
  {
  }

  /** The line stays between its ends. */
  lemma {:induction false} LineBetween(l: Sample, r: Sample, x: real)
    requires l.at < r.at && l.power.Some? && r.power.Some? && l.at <= x <= r.at
    ensures MinOf(l.power.value, r.power.value) <= Line(l, r, x) <= MaxOf(l.power.value, r.power.value)
  {
    var p0, p1 := l.power.value, r.power.value;
    QuotientBetween(x - l.at, r.at - l.at);
    MoveQuotient(p1 - p0, r.at - l.at, x - l.at);
    ScaledBetween(p0, p1, (x - l.at) / (r.at - l.at));
  }

  lemma {:induction false} MiddleIsInside(lo: real, hi: real)
    requires lo < hi
    ensures lo < (lo + hi) / 2.0 < hi
  {
  }

  /** Energy e over duration d, at powers between low and high. */
  predicate Between(low: real, high: real, d: real, e: real) { low * d <= e <= high * d }

  /** The trapezoid over lo to hi has the height of the line in the middle. */
  lemma {:induction false} PieceAtMiddle(l: Sample, r: Sample, start: real, end: real, mid: real)
    requires Overlaps(l, r, start, end) && l.power.Some? && r.power.Some?
    requires mid == (MaxOf(start, l.at) + MinOf(end, r.at)) / 2.0
    ensures Piece(l, r, start, end) == Overlap(l, r, start, end) * Line(l, r, mid)
  {
  }

  lemma {:induction false} MiddleBounds(l: Sample, r: Sample, start: real, end: real, mid: real, low: real, high: real)
    requires Overlaps(l, r, start, end) && l.power.Some? && r.power.Some?
    requires mid == (MaxOf(start, l.at) + MinOf(end, r.at)) / 2.0 && low <= Line(l, r, mid) <= high
    ensures Between(low, high, Overlap(l, r, start, end), Piece(l, r, start, end))
  {
    PieceAtMiddle(l, r, start, end, mid);
    MeanBounds(Overlap(l, r, start, end), Line(l, r, mid), low, high);
  }

  lemma {:induction false} MeanBounds(d: real, value: real, low: real, high: real)
    requires d >= 0.0 && low <= value <= high
    ensures Between(low, high, d, d * value)
  {
    TimesAtMost(d, low, value);
    TimesAtMost(d, value, high);
  }

  lemma {:induction false} TimesAtMost(d: real, x: real, y: real)
    requires d >= 0.0 && x <= y
    ensures x * d <= y * d && d * x <= d * y
  {
    var gap := y - x;
    ProductNotNegative(gap, d, gap * d);
    assert gap * d == y * d - x * d;
  }

  lemma {:induction false} NothingBetween(low: real, high: real)
    ensures Between(low, high, 0.0, 0.0)
  {
  }

  lemma {:induction false} BetweenAdds(low: real, high: real, a: real, b: real, e: real, p: real)
    requires Between(low, high, a, e) && Between(low, high, b, p)
    ensures Between(low, high, a + b, e + p)
  {
  }

  ghost predicate Within(v: seq<Sample>, low: real, high: real) {
    forall i :: 0 <= i < |v| && v[i].power.Some? ==> low <= v[i].power.value <= high
  }

  lemma {:induction false} PieceBounds(l: Sample, r: Sample, start: real, end: real, low: real, high: real)
    requires l.at <= r.at && start <= end && (Overlaps(l, r, start, end) ==> Usable(l, r))
    requires l.power.Some? ==> low <= l.power.value <= high
    requires r.power.Some? ==> low <= r.power.value <= high
    ensures Between(low, high, Overlap(l, r, start, end), Piece(l, r, start, end))
  {
    if Overlaps(l, r, start, end) {
      var mid := (MaxOf(start, l.at) + MinOf(end, r.at)) / 2.0;
      MiddleIsInside(MaxOf(start, l.at), MinOf(end, r.at));
      LineBetween(l, r, mid);
      MiddleBounds(l, r, start, end, mid, low, high);
    } else {
      NothingBetween(low, high);
    }
  }

  /** A host's energy lies between its extreme powers times the covered time. */
  lemma {:induction false} EnergyBounds(v: seq<Sample>, start: real, end: real, low: real, high: real, n: nat)
    requires Sorted(v) && n <= |v| && start <= end && Readable(v, start, end, n) && Within(v, low, high)
    ensures Between(low, high, CoveredOf(v, start, end, n), EnergyOf(v, start, end, n))
  {
    if n >= 2 {
      EnergyBounds(v, start, end, low, high, n - 1);
      PieceBounds(v[n - 2], v[n - 1], start, end, low, high);
      BetweenAdds(low, high, CoveredOf(v, start, end, n - 1), Overlap(v[n - 2], v[n - 1], start, end),
                  EnergyOf(v, start, end, n - 1), Piece(v[n - 2], v[n - 1], start, end));
    } else {
      NothingBetween(low, high);
    }
  }

  // ---------- The power curve ----------

  /** Interpolated power at time x, between the two of the first n samples around it. */
  function PowerAt(v: seq<Sample>, x: real, n: nat): real
    requires n <= |v|
  {
    if n < 2 then 0.0
    else if v[n - 2].at <= x < v[n - 1].at then Line(v[n - 2], v[n - 1], x)
    else PowerAt(v, x, n - 1)
  }

  lemma {:induction false} PowerIsLine(v: seq<Sample>, x: real, k: nat, n: nat)
    requires Sorted(v) && 1 <= k < n <= |v| && v[k - 1].at <= x < v[k].at
    ensures PowerAt(v, x, n) == Line(v[k - 1], v[k], x)
    decreases n
  {
    if k < n - 1 {
      assert v[k].at <= v[n - 2].at;
      PowerIsLine(v, x, k, n - 1);
    }
  }

  /** Time x is in the window and between the first and the last sample. */
  predicate Seen(v: seq<Sample>, start: real, end: real, x: real) {
    v != [] && start <= x < end && v[0].at <= x < v[|v| - 1].at
  }

  /** The curve stays between low and high wherever the window sees it. */
  ghost predicate CurveWithin(v: seq<Sample>, start: real, end: real, low: real, high: real) {
    forall x :: Seen(v, start, end, x) ==> low <= PowerAt(v, x, |v|) <= high
  }

  lemma {:induction false} PieceOfCurve(v: seq<Sample>, start: real, end: real, low: real, high: real, k: nat)
    requires Sorted(v) && 1 <= k < |v| && CurveWithin(v, start, end, low, high)
    requires Overlaps(v[k - 1], v[k], start, end) ==> Usable(v[k - 1], v[k])
    ensures Between(low, high, Overlap(v[k - 1], v[k], start, end), Piece(v[k - 1], v[k], start, end))
  {
    var l, r := v[k - 1], v[k];
    if Overlaps(l, r, start, end) {
      var mid := (MaxOf(start, l.at) + MinOf(end, r.at)) / 2.0;
      MiddleIsInside(MaxOf(start, l.at), MinOf(end, r.at));
      PowerIsLine(v, mid, k, |v|);
      assert v[0].at <= l.at && r.at <= v[|v| - 1].at && Seen(v, start, end, mid);
      MiddleBounds(l, r, start, end, mid, low, high);
    } else {
      NothingBetween(low, high);
    }
  }

  /** Bounds on the curve bound the energy, over any window. */
  lemma {:induction false} CurveBoundsEnergy(v: seq<Sample>, start: real, end: real, low: real, high: real, n: nat)
    requires Sorted(v) && n <= |v| && Readable(v, start, end, |v|) && CurveWithin(v, start, end, low, high)
    ensures Between(low, high, CoveredOf(v, start, end, n), EnergyOf(v, start, end, n))
  {
    if n >= 2 {
      CurveBoundsEnergy(v, start, end, low, high, n - 1);
      PieceOfCurve(v, start, end, low, high, n - 1);
      BetweenAdds(low, high, CoveredOf(v, start, end, n - 1), Overlap(v[n - 2], v[n - 1], start, end),
                  EnergyOf(v, start, end, n - 1), Piece(v[n - 2], v[n - 1], start, end));
    } else {
      NothingBetween(low, high);
    }
  }

  /** The window lies between the first and the last sample. */
  predicate Spanned(v: seq<Sample>, start: real, end: real) {
    v != [] && v[0].at <= start <= end <= v[|v| - 1].at
  }

  lemma {:induction false} SpannedEnergy(v: seq<Sample>, start: real, end: real, low: real, high: real)
    requires Sorted(v) && Spanned(v, start, end) && Readable(v, start, end, |v|) && CurveWithin(v, start, end, low, high)
    ensures Between(low, high, end - start, EnergyOf(v, start, end, |v|))
  {
    CurveBoundsEnergy(v, start, end, low, high, |v|);
    CoverageTelescopes(v, start, end, |v|);
  }

  // ---------- Lower and upper sums ----------

  /** Consecutive cuts of the window, with bounds for the curve between each two of them. */
  ghost predicate Partition(v: seq<Sample>, cuts: seq<real>, lows: seq<real>, highs: seq<real>) {
    && |cuts| >= 1 && |lows| == |highs| == |cuts| - 1
    && (forall i, j :: 0 <= i <= j < |cuts| ==> cuts[i] <= cuts[j])
    && forall i :: 0 <= i < |lows| ==> CurveWithin(v, cuts[i], cuts[i + 1], lows[i], highs[i])
  }

  /** Sum of a value per part times the length of the part. */
  function PartSum(cuts: seq<real>, values: seq<real>, n: nat): real
    requires n <= |values| < |cuts|
  {
    if n == 0 then 0.0 else PartSum(cuts, values, n - 1) + values[n - 1] * (cuts[n] - cuts[n - 1])
  }

  lemma {:induction false} ReadablePart(v: seq<Sample>, start: real, end: real, from: real, to: real)
    requires Readable(v, start, end, |v|) && start <= from <= to <= end
    ensures Readable(v, from, to, |v|)
  {
  }

  lemma {:induction false} NoEnergy(v: seq<Sample>, x: real)
    requires Sorted(v)
    ensures EnergyOf(v, x, x, |v|) == 0.0
  {
    SweepIsIntegral(v, x, x, |v|);
  }

  lemma {:induction false} OnePart(v: seq<Sample>, cuts: seq<real>, lows: seq<real>, highs: seq<real>, n: nat)
    requires Sorted(v) && Partition(v, cuts, lows, highs) && n < |lows|
    requires Spanned(v, cuts[0], cuts[|cuts| - 1]) && Readable(v, cuts[0], cuts[|cuts| - 1], |v|)
    ensures Between(lows[n], highs[n], cuts[n + 1] - cuts[n], EnergyOf(v, cuts[n], cuts[n + 1], |v|))
  {
    assert cuts[0] <= cuts[n] <= cuts[n + 1] <= cuts[|cuts| - 1];
    ReadablePart(v, cuts[0], cuts[|cuts| - 1], cuts[n], cuts[n + 1]);
    SpannedEnergy(v, cuts[n], cuts[n + 1], lows[n], highs[n]);
  }

  lemma {:induction false} PartAdds(cuts: seq<real>, lows: seq<real>, highs: seq<real>, n: nat, before: real, e: real)
    requires n < |lows| == |highs| < |cuts| && PartSum(cuts, lows, n) <= before <= PartSum(cuts, highs, n)
    requires Between(lows[n], highs[n], cuts[n + 1] - cuts[n], e)
    ensures PartSum(cuts, lows, n + 1) <= before + e <= PartSum(cuts, highs, n + 1)
  {
  }

  lemma {:induction false} CutsInOrder(v: seq<Sample>, cuts: seq<real>, lows: seq<real>, highs: seq<real>, i: nat, j: nat)
    requires Partition(v, cuts, lows, highs) && i <= j < |cuts|
    ensures cuts[i] <= cuts[j]
  {
  }

  lemma {:induction false} PartsBound(v: seq<Sample>, cuts: seq<real>, lows: seq<real>, highs: seq<real>, n: nat)
    requires Sorted(v) && Partition(v, cuts, lows, highs) && n <= |lows|
    requires Spanned(v, cuts[0], cuts[|cuts| - 1]) && Readable(v, cuts[0], cuts[|cuts| - 1], |v|)
    ensures PartSum(cuts, lows, n) <= EnergyOf(v, cuts[0], cuts[n], |v|) <= PartSum(cuts, highs, n)
  {
    if n == 0 {
      NoEnergy(v, cuts[0]);
    } else {
      PartsBound(v, cuts, lows, highs, n - 1);
      OnePart(v, cuts, lows, highs, n - 1);
      CutsInOrder(v, cuts, lows, highs, 0, n - 1);
      CutsInOrder(v, cuts, lows, highs, n - 1, n);
      SweepIsAdditive(v, cuts[0], cuts[n - 1], cuts[n]);
      PartAdds(cuts, lows, highs, n - 1, EnergyOf(v, cuts[0], cuts[n - 1], |v|), EnergyOf(v, cuts[n - 1], cuts[n], |v|));
    }
  }

  /** However a window inside the samples is cut, the energy lies between the lower and the upper sum of the curve. */
  lemma {:induction false} EnergyIsIntegral(v: seq<Sample>, cuts: seq<real>, lows: seq<real>, highs: seq<real>)
    requires Sorted(v) && Partition(v, cuts, lows, highs)
    requires Spanned(v, cuts[0], cuts[|cuts| - 1]) && Readable(v, cuts[0], cuts[|cuts| - 1], |v|)
    ensures PartSum(cuts, lows, |lows|) <= EnergyOf(v, cuts[0], cuts[|cuts| - 1], |v|) <= PartSum(cuts, highs, |highs|)
  {
    PartsBound(v, cuts, lows, highs, |lows|);
  }

  // ---------- The sweeps ----------

  ghost predicate HostAccepted(v: seq<Sample>, start: real, end: real) {
    Readable(v, start, end, |v|) && Abs(CoveredOf(v, start, end, |v|) - (end - start)) <= 0.01
  }

  /** The loop body: a pair of samples that does not overlap the window is passed over. */
  method AddPiece(left: Sample, right: Sample, start: real, end: real, sum: real, covered: real)
    returns (ok: bool, sum': real, covered': real)
    ensures ok <==> (Overlaps(left, right, start, end) ==> Usable(left, right))
    ensures ok ==> sum' == sum + Piece(left, right, start, end) && covered' == covered + Overlap(left, right, start, end)
  {
    var lo, hi := MaxOf(start, left.at), MinOf(end, right.at);
    if hi <= lo { return true, sum, covered; }
    if right.at - left.at > 5.0 || left.power.None? || right.power.None? { return false, sum, covered; }
    var slope := (right.power.value - left.power.value) / (right.at - left.at);
    return true, sum + (hi - lo) * (left.power.value + slope * ((lo + hi) / 2.0 - left.at)), covered + (hi - lo);
  }

  /** One host's loop. */
  method SweepHost(v: seq<Sample>, start: real, end: real, total: real) returns (r: Option<real>)
    requires Sorted(v)
    ensures r.Some? <==> HostAccepted(v, start, end)
    ensures r.Some? ==> r.value == total + EnergyOf(v, start, end, |v|)
  {
    var sum, covered, n := total, 0.0, Min(1, |v|);
    while n < |v|
      invariant Min(1, |v|) <= n <= |v|
      invariant sum == total + EnergyOf(v, start, end, n) && covered == CoveredOf(v, start, end, n)
      invariant Readable(v, start, end, n)
    {
      var ok;
      ok, sum, covered := AddPiece(v[n - 1], v[n], start, end, sum, covered);
      if !ok {
        assert !Readable(v, start, end, n + 1);
        NotReadable(v, start, end, n + 1);
        return None;
      }
      n := n + 1;
    }
    if Abs(covered - (end - start)) > 0.01 { return None; }
    return Some(sum);
  }

  lemma {:induction false} NotReadable(v: seq<Sample>, start: real, end: real, n: nat)
    requires n <= |v| && !Readable(v, start, end, n)
    ensures !Readable(v, start, end, |v|)
  {
  }

  /** Energies of the first n hosts together. */
  function TotalOf(hosts: seq<seq<Sample>>, start: real, end: real, n: nat): real
    requires n <= |hosts|
  {
    if n == 0 then 0.0 else TotalOf(hosts, start, end, n - 1) + EnergyOf(hosts[n - 1], start, end, |hosts[n - 1]|)
  }

  function HostEnergy(v: seq<Sample>, start: real, end: real): real { EnergyOf(v, start, end, |v|) }

  /** The four hosts' energies together. */
  function FourEnergies(hosts: seq<seq<Sample>>, start: real, end: real): real
    requires |hosts| == 4
  {
    HostEnergy(hosts[0], start, end) + HostEnergy(hosts[1], start, end)
    + HostEnergy(hosts[2], start, end) + HostEnergy(hosts[3], start, end)
  }

  lemma {:induction false} TotalOfFour(hosts: seq<seq<Sample>>, start: real, end: real)
    requires |hosts| == 4
    ensures TotalOf(hosts, start, end, 4) == FourEnergies(hosts, start, end)
  {
    assert TotalOf(hosts, start, end, 1) == TotalOf(hosts, start, end, 0) + HostEnergy(hosts[0], start, end);
    assert TotalOf(hosts, start, end, 2) == TotalOf(hosts, start, end, 1) + HostEnergy(hosts[1], start, end);
    assert TotalOf(hosts, start, end, 3) == TotalOf(hosts, start, end, 2) + HostEnergy(hosts[2], start, end);
  }

  ghost predicate AllSorted(hosts: seq<seq<Sample>>) { forall h :: 0 <= h < |hosts| ==> Sorted(hosts[h]) }

  ghost predicate AllAccepted(hosts: seq<seq<Sample>>, start: real, end: real) {
    forall h :: 0 <= h < |hosts| ==> HostAccepted(hosts[h], start, end)
  }

  method SweepHosts(hosts: seq<seq<Sample>>, start: real, end: real) returns (r: Option<real>)
    requires AllSorted(hosts)
    ensures r.Some? <==> AllAccepted(hosts, start, end)
    ensures r.Some? ==> r.value == TotalOf(hosts, start, end, |hosts|)
  {
    var total := 0.0;
    for h := 0 to |hosts|
      invariant total == TotalOf(hosts, start, end, h)
      invariant forall g :: 0 <= g < h ==> HostAccepted(hosts[g], start, end)
    {
      var swept := SweepHost(hosts[h], start, end, total);
      if swept.None? { return None; }
      total := swept.value;
    }
    return Some(total);
  }

  /** Energy of all four hosts over a window, or nothing when the samples do not support it. */
  method Integrate(hosts: seq<seq<Sample>>, start: real, end: real) returns (r: Option<real>)
    requires AllSorted(hosts)
    ensures r.Some? <==> |hosts| == 4 && start < end && AllAccepted(hosts, start, end)
    ensures r.Some? ==> r.value == FourEnergies(hosts, start, end)
  {
    if |hosts| != HOSTS || end <= start { return None; }
    TotalOfFour(hosts, start, end);
    r := SweepHosts(hosts, start, end);
  }

  /** Energy over the tokens after the first chunk. */
  function PerTokenOf(energy: real, tokens: nat, firstChunk: nat): (v: real)
    requires tokens != firstChunk
    ensures v * (tokens as real - firstChunk as real) == energy
  {
    energy / (tokens as real - firstChunk as real)
  }

  datatype PerToken = Unsupported | DivisionByZero | JoulesPerToken(v: real)

  /** The same sweep between the first and the last chunk, per token after the first chunk. */
  method DecodeEnergy(hosts: seq<seq<Sample>>, window: Option<(real, real)>, tokens: nat, firstChunk: nat) returns (r: PerToken)
    requires AllSorted(hosts)
    ensures r.Unsupported? <==> window.None? || |hosts| != 4 || !AllAccepted(hosts, window.value.0, window.value.1)
    ensures !r.Unsupported? ==> (r.DivisionByZero? <==> tokens == firstChunk)
    ensures r.JoulesPerToken? ==> (tokens != firstChunk &&
      r.v == PerTokenOf(FourEnergies(hosts, window.value.0, window.value.1), tokens, firstChunk))
  {
    if window.None? || |hosts| != HOSTS { return Unsupported; }
    var swept := SweepHosts(hosts, window.value.0, window.value.1);
    if swept.None? { return Unsupported; }
    TotalOfFour(hosts, window.value.0, window.value.1);
    if tokens == firstChunk { return DivisionByZero; }
    return JoulesPerToken(PerTokenOf(swept.value, tokens, firstChunk));
  }

  // ---------- Splitting a window ----------

  /** Whatever supports a window supports each part of it. */
  lemma {:induction false} AcceptedPart(v: seq<Sample>, start: real, mid: real, end: real)
    requires Sorted(v) && start <= mid <= end && HostAccepted(v, start, end)
    ensures HostAccepted(v, start, mid) && HostAccepted(v, mid, end)
  {
    ReadablePart(v, start, end, start, mid);
    ReadablePart(v, start, end, mid, end);
    CoverageSplits(v, start, mid, end);
    CoverageBounds(v, start, mid);
    CoverageBounds(v, mid, end);
  }

  lemma {:induction false} TotalSplits(hosts: seq<seq<Sample>>, start: real, mid: real, end: real, n: nat)
    requires AllSorted(hosts) && n <= |hosts| && start <= mid <= end
    ensures TotalOf(hosts, start, end, n) == TotalOf(hosts, start, mid, n) + TotalOf(hosts, mid, end, n)
  {
    if n > 0 {
      TotalSplits(hosts, start, mid, end, n - 1);
      SweepIsAdditive(hosts[n - 1], start, mid, end);
    }
  }

  /** An integrable window may be split anywhere: both parts are integrable and their energies add up. */
  lemma {:induction false} IntegralIsAdditive(hosts: seq<seq<Sample>>, start: real, mid: real, end: real)
    requires AllSorted(hosts) && start <= mid <= end && AllAccepted(hosts, start, end)
    ensures AllAccepted(hosts, start, mid) && AllAccepted(hosts, mid, end)
    ensures TotalOf(hosts, start, end, |hosts|) == TotalOf(hosts, start, mid, |hosts|) + TotalOf(hosts, mid, end, |hosts|)
  {
    TotalSplits(hosts, start, mid, end, |hosts|);
    forall h | 0 <= h < |hosts| ensures HostAccepted(hosts[h], start, mid) && HostAccepted(hosts[h], mid, end) {
      AcceptedPart(hosts[h], start, mid, end);
    }
  }

  /** Samples are readable when no pair that overlaps the window is more than five seconds apart or lacks a reading. */
  lemma {:induction false} ReadableIff(v: seq<Sample>, start: real, end: real)
    requires Sorted(v) && start < end
    ensures Readable(v, start, end, |v|) <==>
      forall i :: 1 <= i < |v| && start < v[i].at && v[i - 1].at < end && v[i - 1].at < v[i].at ==>
        v[i].at <= v[i - 1].at + 5.0 && v[i - 1].power.Some? && v[i].power.Some?
  {
    forall i | 1 <= i < |v|
      ensures Overlaps(v[i - 1], v[i], start, end) <==> start < v[i].at && v[i - 1].at < end && v[i - 1].at < v[i].at
    {
    }
  }

  /** With readable samples, a host supports the window exactly when they span it to within a hundredth of a second. */
  lemma {:induction false} AcceptedIffSpanned(v: seq<Sample>, start: real, end: real)
    requires Sorted(v) && v != [] && start <= end && Readable(v, start, end, |v|)
    ensures HostAccepted(v, start, end) <==>
      (Clip(start, v[0].at, v[|v| - 1].at) - start) + (end - Clip(end, v[0].at, v[|v| - 1].at)) <= 0.01
  {
    CoverageTelescopes(v, start, end, |v|);
    CoverageBounds(v, start, end);
  }
}
