/**
 cycle_statistics and acceptance_curve of bench/spec_request_report.py: a cycle
 reports only how many of its accepted tokens were relaxed, and the bounds per
 position say exactly what that number leaves open.
 */
module CycleBounds {
  import opened Common

  const POSITIONS := 7

  datatype Cycle = Cycle(scheduled: nat, accepted: nat, relaxed: nat, terminal: bool, learned: bool)

  /** One entry of the per-position table. */
  datatype Point = Point(position: nat, cycles: nat, accepted: nat, lower: nat, upper: nat, relaxed: Option<nat>)

  predicate Usable(c: Cycle) { !c.terminal && c.learned }

  /** Cycles among the first n that scheduled, and that accepted, position i. */
  function ScheduledAt(rows: seq<Cycle>, i: nat, n: nat): nat
    requires n <= |rows|
  {
    if n == 0 then 0 else ScheduledAt(rows, i, n - 1) + One(rows[n - 1].scheduled > i)
  }

  function AcceptedAt(rows: seq<Cycle>, i: nat, n: nat): nat
    requires n <= |rows|
  {
    if n == 0 then 0 else AcceptedAt(rows, i, n - 1) + One(rows[n - 1].accepted > i)
  }

  /** Position i was accepted, and all, or some, accepted tokens were relaxed. */
  predicate Surely(c: Cycle, i: nat) { c.accepted > i && c.relaxed == c.accepted }

  predicate Possibly(c: Cycle, i: nat) { c.accepted > i && c.relaxed > 0 }

  function Lower(rows: seq<Cycle>, i: nat, n: nat): nat
    requires n <= |rows|
  {
    if n == 0 then 0 else Lower(rows, i, n - 1) + One(Surely(rows[n - 1], i))
  }

  function Upper(rows: seq<Cycle>, i: nat, n: nat): nat
    requires n <= |rows|
  {
    if n == 0 then 0 else Upper(rows, i, n - 1) + One(Possibly(rows[n - 1], i))
  }

  // ---------- Which positions could have been relaxed ----------

  /** A choice of relaxed positions for every cycle that fits its reported numbers. */
  ghost predicate Explains(rows: seq<Cycle>, choice: seq<set<nat>>) {
    |choice| == |rows| && forall k :: 0 <= k < |rows| ==> Fits(rows[k], choice[k])
  }

  ghost predicate Fits(c: Cycle, s: set<nat>) {
    |s| == c.relaxed && forall p :: p in s ==> p < c.accepted
  }

  /** Cycles among the first n whose choice has position i. */
  ghost function RelaxedAt(choice: seq<set<nat>>, i: nat, n: nat): nat
    requires n <= |choice|
  {
    if n == 0 then 0 else RelaxedAt(choice, i, n - 1) + One(i in choice[n - 1])
  }

  /** Telemetry a real run can produce. */
  ghost predicate Possible(rows: seq<Cycle>) {
    forall k :: 0 <= k < |rows| ==> rows[k].relaxed <= rows[k].accepted
  }

  ghost function Interval(lo: nat, hi: nat): (s: set<nat>)
    ensures forall p :: p in s <==> lo <= p < hi
    ensures |s| == Max(0, hi - lo)
    decreases hi - lo
  {
    if hi <= lo then {} else Interval(lo, hi - 1) + {hi - 1}
  }

  lemma {:induction false} FullChoice(c: Cycle, s: set<nat>, i: nat)
    requires Fits(c, s)
    ensures Surely(c, i) ==> i in s
    ensures i in s ==> Possibly(c, i)
  {
    var all := Interval(0, c.accepted);
    if Surely(c, i) && i !in s {
      NotAll(s, all, i);
    }
    if i in s { assert s != {}; }
  }

  lemma {:induction false} NotAll(s: set<nat>, all: set<nat>, i: nat)
    requires s <= all && i in all && i !in s
    ensures |s| < |all|
  {
    SubsetSize(s, all - {i});
  }

  /** Whatever was relaxed, the count per position lies within the reported bounds. */
  lemma {:induction false} BoundsHold(rows: seq<Cycle>, choice: seq<set<nat>>, i: nat, n: nat)
    requires Explains(rows, choice) && n <= |rows|
    ensures Lower(rows, i, n) <= RelaxedAt(choice, i, n) <= Upper(rows, i, n)
  {
    if n > 0 {
      BoundsHold(rows, choice, i, n - 1);
      FullChoice(rows[n - 1], choice[n - 1], i);
    }
  }

  /** Choices that have position i only when they must. */
  lemma {:induction false} Avoiding(c: Cycle, i: nat) returns (s: set<nat>)
    requires c.relaxed <= c.accepted
    ensures Fits(c, s) && (i in s <==> Surely(c, i))
  {
    if c.relaxed <= i {
      s := Interval(0, c.relaxed);
    } else if c.relaxed < c.accepted {
      s := Interval(0, i) + Interval(i + 1, c.relaxed + 1);
      assert Interval(0, i) !! Interval(i + 1, c.relaxed + 1);
    } else {
      s := Interval(0, c.accepted);
    }
  }

  /** Choices that have position i whenever they can. */
  lemma {:induction false} Including(c: Cycle, i: nat) returns (s: set<nat>)
    requires c.relaxed <= c.accepted
    ensures Fits(c, s) && (i in s <==> Possibly(c, i))
  {
    if c.relaxed == 0 || i < c.relaxed || i >= c.accepted {
      s := Interval(0, c.relaxed);
    } else {
      s := Interval(0, c.relaxed - 1) + {i};
    }
  }

  /** The lower bound is met by some choice, and so is the upper one. */
  lemma {:induction false} BoundsAreSharp(rows: seq<Cycle>, i: nat) returns (low: seq<set<nat>>, high: seq<set<nat>>)
    requires Possible(rows)
    ensures Explains(rows, low) && RelaxedAt(low, i, |rows|) == Lower(rows, i, |rows|)
    ensures Explains(rows, high) && RelaxedAt(high, i, |rows|) == Upper(rows, i, |rows|)
  {
    low, high := [], [];
    for n := 0 to |rows|
      invariant |low| == |high| == n
      invariant forall k :: 0 <= k < n ==> Fits(rows[k], low[k]) && (i in low[k] <==> Surely(rows[k], i))
      invariant forall k :: 0 <= k < n ==> Fits(rows[k], high[k]) && (i in high[k] <==> Possibly(rows[k], i))
    {
      var s := Avoiding(rows[n], i);
      var t := Including(rows[n], i);
      low, high := low + [s], high + [t];
    }
    CountsAgree(rows, low, high, i, |rows|);
  }

  lemma {:induction false} CountsAgree(rows: seq<Cycle>, low: seq<set<nat>>, high: seq<set<nat>>, i: nat, n: nat)
    requires |low| == |high| == |rows| && n <= |rows|
    requires forall k :: 0 <= k < |rows| ==> (i in low[k] <==> Surely(rows[k], i)) && (i in high[k] <==> Possibly(rows[k], i))
    ensures RelaxedAt(low, i, n) == Lower(rows, i, n) && RelaxedAt(high, i, n) == Upper(rows, i, n)
  {
    if n > 0 { CountsAgree(rows, low, high, i, n - 1); }
  }

  lemma {:induction false} LowerIsLower(rows: seq<Cycle>, i: nat, n: nat)
    requires Possible(rows) && n <= |rows|
    ensures Lower(rows, i, n) <= Upper(rows, i, n)
  {
    if n > 0 { LowerIsLower(rows, i, n - 1); }
  }

  /** Choices for the first n cycles with position i in v of them. */
  lemma {:induction false} Attained(rows: seq<Cycle>, i: nat, v: nat, n: nat) returns (choice: seq<set<nat>>)
    requires Possible(rows) && n <= |rows| && Lower(rows, i, n) <= v <= Upper(rows, i, n)
    ensures |choice| == n && forall k :: 0 <= k < n ==> Fits(rows[k], choice[k])
    ensures RelaxedAt(choice, i, n) == v
  {
    if n == 0 {
      choice := [];
    } else {
      var s;
      LowerIsLower(rows, i, n - 1);
      if v > Upper(rows, i, n - 1) { s := Including(rows[n - 1], i); } else { s := Avoiding(rows[n - 1], i); }
      var before := Attained(rows, i, v - One(i in s), n - 1);
      choice := before + [s];
      RelaxedBefore(before, s, i, n - 1);
    }
  }

  lemma {:induction false} RelaxedBefore(before: seq<set<nat>>, s: set<nat>, i: nat, n: nat)
    requires n <= |before|
    ensures RelaxedAt(before + [s], i, n) == RelaxedAt(before, i, n)
  {
    if n > 0 { RelaxedBefore(before, s, i, n - 1); }
  }

  /** Some choice that fits the reports has position i in v cycles. */
  ghost predicate CanBe(rows: seq<Cycle>, i: nat, v: nat) {
    exists choice :: Explains(rows, choice) && RelaxedAt(choice, i, |rows|) == v
  }

  /** The counts that choices give are the numbers between the bounds, all of them and no others. */
  lemma {:induction false} BoundsAreTheRange(rows: seq<Cycle>, i: nat, v: nat)
    requires Possible(rows)
    ensures CanBe(rows, i, v) <==> Lower(rows, i, |rows|) <= v <= Upper(rows, i, |rows|)
  {
    if Lower(rows, i, |rows|) <= v <= Upper(rows, i, |rows|) {
      var choice := Attained(rows, i, v, |rows|);
      assert Explains(rows, choice);
    }
    forall choice | Explains(rows, choice) ensures Lower(rows, i, |rows|) <= RelaxedAt(choice, i, |rows|) <= Upper(rows, i, |rows|) {
      BoundsHold(rows, choice, i, |rows|);
    }
  }

  /** Every choice that fits the reports has position i in v cycles. */
  ghost predicate Determined(rows: seq<Cycle>, i: nat, v: nat) {
    forall choice :: Explains(rows, choice) ==> RelaxedAt(choice, i, |rows|) == v
  }

  /** A single number is reported exactly when every choice gives that number. */
  lemma {:induction false} DeterminedIff(rows: seq<Cycle>, i: nat)
    requires Possible(rows)
    ensures Lower(rows, i, |rows|) == Upper(rows, i, |rows|) <==> exists v: nat :: Determined(rows, i, v)
    ensures Lower(rows, i, |rows|) == Upper(rows, i, |rows|) ==> Determined(rows, i, Lower(rows, i, |rows|))
  {
    var low, high := BoundsAreSharp(rows, i);
    if Lower(rows, i, |rows|) == Upper(rows, i, |rows|) {
      forall choice | Explains(rows, choice) ensures RelaxedAt(choice, i, |rows|) == Lower(rows, i, |rows|) {
        BoundsHold(rows, choice, i, |rows|);
      }
      assert Determined(rows, i, Lower(rows, i, |rows|));
    }
    if exists v: nat :: Determined(rows, i, v) {
      var v: nat :| Determined(rows, i, v);
      assert RelaxedAt(low, i, |rows|) == v == RelaxedAt(high, i, |rows|);
    }
  }

  // ---------- Sums over the positions ----------

  function TotalAccepted(rows: seq<Cycle>, n: nat): nat
    requires n <= |rows|
  {
    if n == 0 then 0 else TotalAccepted(rows, n - 1) + rows[n - 1].accepted
  }

  function SumPositions(rows: seq<Cycle>, positions: nat): nat {
    if positions == 0 then 0 else SumPositions(rows, positions - 1) + AcceptedAt(rows, positions - 1, |rows|)
  }

  /** Accepted tokens of the first n cycles in the first positions. */
  function Clipped(rows: seq<Cycle>, positions: nat, n: nat): nat
    requires n <= |rows|
  {
    if n == 0 then 0 else Clipped(rows, positions, n - 1) + Min(rows[n - 1].accepted, positions)
  }

  lemma {:induction false} OnePositionMore(rows: seq<Cycle>, positions: nat, n: nat)
    requires n <= |rows|
    ensures Clipped(rows, positions + 1, n) == Clipped(rows, positions, n) + AcceptedAt(rows, positions, n)
  {
    if n > 0 { OnePositionMore(rows, positions, n - 1); }
  }

  lemma {:induction false} NoPositions(rows: seq<Cycle>, n: nat)
    requires n <= |rows|
    ensures Clipped(rows, 0, n) == 0
  {
    if n > 0 { NoPositions(rows, n - 1); }
  }

  lemma {:induction false} PositionsSum(rows: seq<Cycle>, positions: nat)
    ensures SumPositions(rows, positions) == Clipped(rows, positions, |rows|)
  {
    if positions == 0 {
      NoPositions(rows, |rows|);
    } else {
      PositionsSum(rows, positions - 1);
      OnePositionMore(rows, positions - 1, |rows|);
    }
  }

  lemma {:induction false} ClippedBelowTotal(rows: seq<Cycle>, n: nat)
    requires n <= |rows|
    ensures Clipped(rows, POSITIONS, n) <= TotalAccepted(rows, n)
    ensures Clipped(rows, POSITIONS, n) == TotalAccepted(rows, n) <==> forall k :: 0 <= k < n ==> rows[k].accepted <= POSITIONS
  {
    if n > 0 { ClippedBelowTotal(rows, n - 1); }
  }

  /** The accepted column adds up to all accepted tokens exactly when no cycle accepted more than seven. */
  lemma {:induction false} AcceptedColumnSums(rows: seq<Cycle>)
    ensures SumPositions(rows, POSITIONS) == TotalAccepted(rows, |rows|) <==>
      forall k :: 0 <= k < |rows| ==> rows[k].accepted <= POSITIONS
  {
    PositionsSum(rows, POSITIONS);
    ClippedBelowTotal(rows, |rows|);
  }

  /** A cycle that accepted eight tokens: one of them is in no position of the column. */
  lemma {:induction false} TokenMissed()
    ensures var rows := [Cycle(8, 8, 0, false, true)];
      SumPositions(rows, POSITIONS) == 7 && TotalAccepted(rows, |rows|) == 8
  {
    var rows := [Cycle(8, 8, 0, false, true)];
    PositionsSum(rows, POSITIONS);
    assert Clipped(rows, POSITIONS, 1) == Clipped(rows, POSITIONS, 0) + 7;
    assert TotalAccepted(rows, 1) == TotalAccepted(rows, 0) + 8;
  }

  // ---------- The statistics ----------

  /** The usable cycles, in order. */
  function UsableOf(s: seq<Cycle>): seq<Cycle> {
    if s == [] then []
    else UsableOf(s[..|s| - 1]) + if Usable(s[|s| - 1]) then [s[|s| - 1]] else []
  }

  function AllUsable(sequences: seq<seq<Cycle>>): seq<Cycle> {
    if sequences == [] then []
    else AllUsable(sequences[..|sequences| - 1]) + UsableOf(sequences[|sequences| - 1])
  }

  /** Cycles of the first n that follow a cycle of the same request, relaxed or not, both usable. */
  function Following(s: seq<Cycle>, n: nat, afterRelaxed: bool): seq<Cycle>
    requires n <= |s|
  {
    if n < 2 then []
    else
      var before := Following(s, n - 1, afterRelaxed);
      if Usable(s[n - 2]) && Usable(s[n - 1]) && (s[n - 2].relaxed > 0) == afterRelaxed then before + [s[n - 1]] else before
  }

  function AllFollowing(sequences: seq<seq<Cycle>>, n: nat, afterRelaxed: bool): seq<Cycle>
    requires n <= |sequences|
  {
    if n == 0 then []
    else AllFollowing(sequences, n - 1, afterRelaxed) + Following(sequences[n - 1], |sequences[n - 1]|, afterRelaxed)
  }

  /** Adjacent usable pairs. */
  function Pairs(s: seq<Cycle>, n: nat): nat
    requires n <= |s|
  {
    if n < 2 then 0 else Pairs(s, n - 1) + One(Usable(s[n - 2]) && Usable(s[n - 1]))
  }

  /** Every adjacent usable pair is followed up once: after a relaxed cycle or after an exact one. */
  lemma {:induction false} FollowingPartitions(s: seq<Cycle>, n: nat)
    requires n <= |s|
    ensures |Following(s, n, true)| + |Following(s, n, false)| == Pairs(s, n)
  {
    if n >= 2 { FollowingPartitions(s, n - 1); }
  }

  // ---------- What is counted, and which cycles are meant ----------

  /** Places among the first n that a condition picks. */
  ghost function Places(keep: seq<bool>, n: nat): (p: set<nat>)
    requires n <= |keep|
    ensures forall k :: k in p <==> 0 <= k < n && keep[k]
  {
    set k: nat | 0 <= k < n && keep[k]
  }

  lemma {:induction false} PlacesNext(keep: seq<bool>, n: nat)
    requires n < |keep|
    ensures |Places(keep, n + 1)| == |Places(keep, n)| + One(keep[n])
  {
    if keep[n] {
      assert Places(keep, n + 1) == Places(keep, n) + {n};
    } else {
      assert Places(keep, n + 1) == Places(keep, n);
    }
  }

  /** Scheduled and accepted are the numbers of the cycles that scheduled, and that accepted, the position. */
  lemma {:induction false} CountsAre(rows: seq<Cycle>, i: nat, n: nat, scheduled: seq<bool>, accepted: seq<bool>)
    requires n <= |rows| == |scheduled| == |accepted|
    requires forall k :: 0 <= k < |rows| ==> scheduled[k] == (rows[k].scheduled > i) && accepted[k] == (rows[k].accepted > i)
    ensures ScheduledAt(rows, i, n) == |Places(scheduled, n)| && AcceptedAt(rows, i, n) == |Places(accepted, n)|
  {
    if n == 0 {
      assert Places(scheduled, 0) == Places(accepted, 0) == {};
    } else {
      CountsAre(rows, i, n - 1, scheduled, accepted);
      PlacesNext(scheduled, n - 1);
      PlacesNext(accepted, n - 1);
    }
  }

  /** The elements of s at the places that are kept, in order. */
  function Kept(s: seq<Cycle>, keep: seq<bool>, n: nat): seq<Cycle>
    requires n <= |s| && n <= |keep|
  {
    if n == 0 then [] else Kept(s, keep, n - 1) + if keep[n - 1] then [s[n - 1]] else []
  }

  /** The k-th kept element is the one with k kept places before it. */
  lemma {:induction false} KeptAt(s: seq<Cycle>, keep: seq<bool>, n: nat, p: nat)
    requires p < n <= |s| && n <= |keep| && keep[p]
    ensures |Kept(s, keep, n)| == |Places(keep, n)|
    ensures |Places(keep, p)| < |Kept(s, keep, n)| && Kept(s, keep, n)[|Places(keep, p)|] == s[p]
  {
    KeptSize(s, keep, n);
    KeptSize(s, keep, n - 1);
    if p < n - 1 { KeptAt(s, keep, n - 1, p); }
  }

  lemma {:induction false} KeptSize(s: seq<Cycle>, keep: seq<bool>, n: nat)
    requires n <= |s| && n <= |keep|
    ensures |Kept(s, keep, n)| == |Places(keep, n)|
  {
    if n == 0 {
      assert Places(keep, 0) == {};
    } else {
      KeptSize(s, keep, n - 1);
      PlacesNext(keep, n - 1);
    }
  }

  /** The usable cycles are those that are neither terminal nor unlearned. */
  lemma {:induction false} UsableAre(s: seq<Cycle>, keep: seq<bool>)
    requires |keep| == |s| && forall k :: 0 <= k < |s| ==> keep[k] == (!s[k].terminal && s[k].learned)
    ensures UsableOf(s) == Kept(s, keep, |s|)
  {
    if s != [] {
      UsableAre(s[..|s| - 1], keep[..|s| - 1]);
      KeptPrefix(s, keep, |s| - 1, |s| - 1);
    }
  }

  lemma {:induction false} KeptPrefix(s: seq<Cycle>, keep: seq<bool>, n: nat, m: nat)
    requires m <= n <= |s| && n <= |keep|
    ensures Kept(s[..n], keep[..n], m) == Kept(s, keep, m)
  {
    if m > 0 { KeptPrefix(s, keep, n, m - 1); }
  }

  /** A cycle is followed up when it and the one before it are usable; which list it is in depends on the one before. */
  lemma {:induction false} FollowingAre(s: seq<Cycle>, n: nat, afterRelaxed: bool, keep: seq<bool>)
    requires n <= |s| == |keep|
    requires forall k :: 0 <= k < |s| ==>
      keep[k] == (k > 0 && !s[k - 1].terminal && s[k - 1].learned && !s[k].terminal && s[k].learned
                  && (s[k - 1].relaxed > 0) == afterRelaxed)
    ensures Following(s, n, afterRelaxed) == Kept(s, keep, n)
  {
    if n >= 2 {
      FollowingAre(s, n - 1, afterRelaxed, keep);
    } else if n == 1 {
      assert Kept(s, keep, 1) == Kept(s, keep, 0) + [];
    }
  }

  lemma {:induction false} FlattenEnds(parts: seq<seq<Cycle>>, last: seq<Cycle>)
    ensures Flatten(parts + [last]) == Flatten(parts) + last
  {
    if parts == [] {
      assert [last][1..] == [];
    } else {
      FlattenEnds(parts[1..], last);
      assert (parts + [last])[1..] == parts[1..] + [last];
    }
  }

  /** All requests' lists, one after another. */
  lemma {:induction false} AllUsableAre(sequences: seq<seq<Cycle>>, parts: seq<seq<Cycle>>)
    requires |parts| == |sequences| && forall m :: 0 <= m < |sequences| ==> parts[m] == UsableOf(sequences[m])
    ensures AllUsable(sequences) == Flatten(parts)
  {
    if sequences != [] {
      var n := |sequences| - 1;
      AllUsableAre(sequences[..n], parts[..n]);
      FlattenEnds(parts[..n], parts[n]);
      assert parts == parts[..n] + [parts[n]];
    }
  }

  lemma {:induction false} AllFollowingAre(sequences: seq<seq<Cycle>>, n: nat, afterRelaxed: bool, parts: seq<seq<Cycle>>)
    requires |parts| == n <= |sequences|
    requires forall m :: 0 <= m < n ==> parts[m] == Following(sequences[m], |sequences[m]|, afterRelaxed)
    ensures AllFollowing(sequences, n, afterRelaxed) == Flatten(parts)
  {
    if n > 0 {
      AllFollowingAre(sequences, n - 1, afterRelaxed, parts[..n - 1]);
      FlattenEnds(parts[..n - 1], parts[n - 1]);
      assert parts == parts[..n - 1] + [parts[n - 1]];
    }
  }

  method Curve(rows: seq<Cycle>) returns (points: seq<Point>)
    ensures |points| == POSITIONS
    ensures forall i :: 0 <= i < POSITIONS ==>
      var low, high := Lower(rows, i, |rows|), Upper(rows, i, |rows|);
      points[i] == Point(i + 1, ScheduledAt(rows, i, |rows|), AcceptedAt(rows, i, |rows|), low, high,
                         if low == high then Some(low) else None)
  {
    points := [];
    for i := 0 to POSITIONS
      invariant |points| == i
      invariant forall j :: 0 <= j < i ==>
        var low, high := Lower(rows, j, |rows|), Upper(rows, j, |rows|);
        points[j] == Point(j + 1, ScheduledAt(rows, j, |rows|), AcceptedAt(rows, j, |rows|), low, high,
                           if low == high then Some(low) else None)
    {
      var cycles, accepted, low, high := 0, 0, 0, 0;
      for n := 0 to |rows|
        invariant cycles == ScheduledAt(rows, i, n) && accepted == AcceptedAt(rows, i, n)
        invariant low == Lower(rows, i, n) && high == Upper(rows, i, n)
      {
        var r := rows[n];
        if r.scheduled > i { cycles := cycles + 1; }
        if r.accepted > i { accepted := accepted + 1; }
        if r.accepted > i && r.relaxed == r.accepted { low := low + 1; }
        if r.accepted > i && r.relaxed > 0 { high := high + 1; }
      }
      points := points + [Point(i + 1, cycles, accepted, low, high, if low == high then Some(low) else None)];
    }
  }

  method Follow(sequences: seq<seq<Cycle>>) returns (relaxed: seq<Cycle>, exact: seq<Cycle>)
    ensures relaxed == AllFollowing(sequences, |sequences|, true)
    ensures exact == AllFollowing(sequences, |sequences|, false)
  {
    relaxed, exact := [], [];
    for m := 0 to |sequences|
      invariant relaxed == AllFollowing(sequences, m, true) && exact == AllFollowing(sequences, m, false)
    {
      var s := sequences[m];
      var r, e := [], [];
      for n := 1 to Max(1, |s|)
        invariant n <= |s| ==> r == Following(s, n, true) && e == Following(s, n, false)
        invariant n > |s| ==> r == [] && e == []
      {
        var previous, current := s[n - 1], s[n];
        if Usable(previous) && Usable(current) {
          if previous.relaxed > 0 { r := r + [current]; } else { e := e + [current]; }
        }
      }
      relaxed, exact := relaxed + r, exact + e;
    }
  }

  function LengthOf(sequences: seq<seq<Cycle>>): nat {
    if sequences == [] then 0 else LengthOf(sequences[..|sequences| - 1]) + |sequences[|sequences| - 1]|
  }

  lemma {:induction false} UsableIsPart(s: seq<Cycle>)
    ensures |UsableOf(s)| <= |s|
    ensures forall c :: c in UsableOf(s) ==> c in s && Usable(c)
  {
    if s != [] { UsableIsPart(s[..|s| - 1]); }
  }

  /** No more cycles are used than there are, so the number of excluded ones is not negative. */
  lemma {:induction false} UsedAreFew(sequences: seq<seq<Cycle>>)
    ensures |AllUsable(sequences)| <= LengthOf(sequences)
    ensures forall c :: c in AllUsable(sequences) ==> Usable(c)
  {
    if sequences != [] {
      UsedAreFew(sequences[..|sequences| - 1]);
      UsableIsPart(sequences[|sequences| - 1]);
    }
  }

  /** What is reported for the usable cycles of all requests. */
  datatype Statistics = Statistics(cycles: nat, excluded: nat, points: seq<Point>, relaxed: seq<Cycle>, exact: seq<Cycle>)

  method CollectUsable(sequences: seq<seq<Cycle>>) returns (rows: seq<Cycle>, total: nat)
    ensures rows == AllUsable(sequences) && total == LengthOf(sequences)
  {
    rows, total := [], 0;
    for m := 0 to |sequences|
      invariant rows == AllUsable(sequences[..m]) && total == LengthOf(sequences[..m])
    {
      var kept := [];
      for n := 0 to |sequences[m]|
        invariant kept == UsableOf(sequences[m][..n])
      {
        assert sequences[m][..n + 1][..n] == sequences[m][..n];
        if Usable(sequences[m][n]) { kept := kept + [sequences[m][n]]; }
      }
      assert sequences[m][..|sequences[m]|] == sequences[m] && sequences[..m + 1][..m] == sequences[..m];
      rows, total := rows + kept, total + |sequences[m]|;
    }
    assert sequences[..|sequences|] == sequences;
  }

  /** Terminal and unlearned cycles are left out of the table, and no pair reaches across one. */
  method CycleStatistics(sequences: seq<seq<Cycle>>) returns (s: Statistics)
    ensures var rows := AllUsable(sequences);
      && s.cycles == |rows| && s.cycles + s.excluded == LengthOf(sequences)
      && |s.points| == POSITIONS
      && (forall i :: 0 <= i < POSITIONS ==>
            s.points[i].lower == Lower(rows, i, |rows|) && s.points[i].upper == Upper(rows, i, |rows|) &&
            s.points[i].accepted == AcceptedAt(rows, i, |rows|) && s.points[i].cycles == ScheduledAt(rows, i, |rows|))
      && s.relaxed == AllFollowing(sequences, |sequences|, true)
      && s.exact == AllFollowing(sequences, |sequences|, false)
  {
    var rows, total := CollectUsable(sequences);
    UsedAreFew(sequences);
    var points := Curve(rows);
    var relaxed, exact := Follow(sequences);
    return Statistics(|rows|, total - |rows|, points, relaxed, exact);
  }
}
