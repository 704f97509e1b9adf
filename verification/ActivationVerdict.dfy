/** The audit of all rows, the exact meaning of its verdict, and where every row went. */
module ActivationVerdict {
  import opened Common
  import opened Activation
  import opened ActivationAudit
  import opened ActivationWindows

  // ---------- Totals over the first n rows ----------

  ghost function CountOf(s: Setup, events: seq<Row>, n: nat, c: Class): nat
    requires n <= |events|
  {
    if n == 0 then 0 else CountOf(s, events, n - 1, c) + One(ClassOf(s, events[n - 1]) == c)
  }

  /** Relaxed tokens of the rows counted for an arm. */
  ghost function RelaxedOf(s: Setup, events: seq<Row>, n: nat, a: Arm): real
    requires n <= |events|
  {
    if n == 0 then 0.0
    else RelaxedOf(s, events, n - 1, a) + if ClassOf(s, events[n - 1]) == Counted(a) then Relaxation(events[n - 1].relaxed) else 0.0
  }

  /** What each row is charged with, for an arm. */
  ghost function ChargesOf(s: Setup, events: seq<Row>, a: Arm): (charges: seq<multiset<Failure>>)
    requires SetupOk(s) && a in s.arms
    ensures |charges| == |events| && forall i :: 0 <= i < |events| ==> charges[i] == FailuresOf(s, events[i], a)
  {
    seq(|events|, i requires 0 <= i < |events| => FailuresOf(s, events[i], a))
  }

  ghost function Gathered(charges: seq<multiset<Failure>>, n: nat): multiset<Failure>
    requires n <= |charges|
  {
    if n == 0 then multiset{} else Gathered(charges, n - 1) + charges[n - 1]
  }

  /** All charges against an arm. */
  ghost function FailuresBefore(s: Setup, events: seq<Row>, n: nat, a: Arm): multiset<Failure>
    requires SetupOk(s) && a in s.arms && n <= |events|
  {
    Gathered(ChargesOf(s, events, a), n)
  }

  ghost function OverlapsOf(s: Setup, events: seq<Row>, n: nat): nat
    requires n <= |events|
  {
    if n == 0 then 0 else OverlapsOf(s, events, n - 1) + One(Overlapping(s, events[n - 1]))
  }

  ghost function ProbedOf(s: Setup, events: seq<Row>, n: nat, a: Arm): real
    requires n <= |events|
  {
    if n == 0 then 0.0
    else ProbedOf(s, events, n - 1, a) + if ClassOf(s, events[n - 1]) == ProbeOf(a) then Relaxation(events[n - 1].relaxed) else 0.0
  }

  ghost function ProofOf(s: Setup, events: seq<Row>, n: nat, a: Arm): Proof
    requires SetupOk(s) && a in s.arms && n <= |events|
  {
    Proof(CountOf(s, events, n, Counted(a)), RelaxedOf(s, events, n, a), FailuresBefore(s, events, n, a))
  }

  ghost function ProbesOf(s: Setup, events: seq<Row>, n: nat, a: Arm): Probe
    requires n <= |events|
  {
    Probe(CountOf(s, events, n, ProbeOf(a)), ProbedOf(s, events, n, a))
  }

  ghost predicate ProofTotals(s: Setup, events: seq<Row>, n: nat, proofs: map<Arm, Proof>)
    requires SetupOk(s) && n <= |events|
  {
    forall a :: a in s.arms ==> a in proofs && proofs[a] == ProofOf(s, events, n, a)
  }

  ghost predicate ProbeTotals(s: Setup, events: seq<Row>, n: nat, probes: map<Arm, Probe>)
    requires n <= |events|
  {
    forall a :: a in s.arms ==> a in probes && probes[a] == ProbesOf(s, events, n, a)
  }

  ghost predicate PlainTotals(s: Setup, events: seq<Row>, n: nat, t: Tally)
    requires n <= |events|
  {
    && t.other == CountOf(s, events, n, Other)
    && t.ignored == CountOf(s, events, n, Ignored)
    && t.invalidTime == CountOf(s, events, n, InvalidTime)
    && t.overlap == OverlapsOf(s, events, n)
  }

  /** t holds the totals of the first n rows. */
  ghost predicate Totals(s: Setup, events: seq<Row>, n: nat, t: Tally)
    requires SetupOk(s) && n <= |events|
  {
    ProofTotals(s, events, n, t.proofs) && ProbeTotals(s, events, n, t.probes) && PlainTotals(s, events, n, t)
  }

  lemma {:induction false} ProofStep(s: Setup, events: seq<Row>, n: nat, a: Arm)
    requires SetupOk(s) && a in s.arms && n < |events|
    ensures NextProof(s, events[n], a, ProofOf(s, events, n, a)) == ProofOf(s, events, n + 1, a)
  {
  }

  lemma {:induction false} ProofsStep(s: Setup, events: seq<Row>, n: nat, proofs: map<Arm, Proof>, proofs': map<Arm, Proof>)
    requires SetupOk(s) && n < |events| && ProofTotals(s, events, n, proofs) && ProofsObserved(s, events[n], proofs, proofs')
    ensures ProofTotals(s, events, n + 1, proofs')
  {
    forall a | a in s.arms ensures a in proofs' && proofs'[a] == ProofOf(s, events, n + 1, a) { ProofStep(s, events, n, a); }
  }

  lemma {:induction false} ProbesStep(s: Setup, events: seq<Row>, n: nat, probes: map<Arm, Probe>, probes': map<Arm, Probe>)
    requires n < |events| && ProbeTotals(s, events, n, probes) && ProbesObserved(s, events[n], probes, probes')
    ensures ProbeTotals(s, events, n + 1, probes')
  {
  }

  lemma {:induction false} PlainStep(s: Setup, events: seq<Row>, n: nat, t: Tally, t': Tally)
    requires n < |events| && PlainTotals(s, events, n, t) && CountsObserved(s, events[n], t, t')
    ensures PlainTotals(s, events, n + 1, t')
  {
  }

  lemma {:induction false} TotalsStep(s: Setup, events: seq<Row>, n: nat, t: Tally, t': Tally)
    requires SetupOk(s) && n < |events| && Totals(s, events, n, t) && Observed(s, events[n], t, t')
    ensures Totals(s, events, n + 1, t')
  {
    ProofsStep(s, events, n, t.proofs, t'.proofs);
    ProbesStep(s, events, n, t.probes, t'.probes);
    PlainStep(s, events, n, t, t');
  }

  function EmptyTally(s: Setup): Tally {
    Tally(map a | a in s.arms :: Proof(0, 0.0, multiset{}), map a | a in s.arms :: Probe(0, 0.0), 0, 0, 0, 0)
  }

  lemma {:induction false} NothingYet(s: Setup, events: seq<Row>)
    requires SetupOk(s)
    ensures Totals(s, events, 0, EmptyTally(s))
  {
  }

  lemma {:induction false} TotalsAreOk(s: Setup, events: seq<Row>, n: nat, t: Tally)
    requires SetupOk(s) && n <= |events| && Totals(s, events, n, t)
    ensures TallyOk(s, t)
  {
  }

  // ---------- The audit ----------

  datatype Report = Report(proven: bool, arms: map<Arm, Proof>, tally: Tally)

  predicate ScopeKnown(s: Setup) { s.scope == "think" || s.scope == "all" }

  function Final(a: Arm, p: Proof): Proof {
    Proof(p.rows, p.relaxed,
          p.failures + If(p.rows == 0, MissingLabelRows) + If(a != Control && p.relaxed <= 0.0, NoRelaxation))
  }

  ghost predicate SomeUnreadable(s: Setup, events: seq<Row>, n: nat)
    requires n <= |events|
  {
    n > 0 && (SomeUnreadable(s, events, n - 1) || Unreadable(s, events[n - 1]))
  }

  lemma {:induction false} SomeUnreadableIff(s: Setup, events: seq<Row>, n: nat)
    requires n <= |events|
    ensures SomeUnreadable(s, events, n) <==> exists i :: 0 <= i < n && Unreadable(s, events[i])
  {
    if n > 0 { SomeUnreadableIff(s, events, n - 1); }
  }

  lemma {:induction false} StaysUnreadable(s: Setup, events: seq<Row>, n: nat, m: nat)
    requires n <= m <= |events| && SomeUnreadable(s, events, n)
    ensures SomeUnreadable(s, events, m)
    decreases m
  {
    if n < m { StaysUnreadable(s, events, n, m - 1); }
  }

  method TallyNext(s: Setup, events: seq<Row>, n: nat, t: Tally) returns (r: Result<Tally, Error>)
    requires SetupOk(s) && n < |events| && TallyOk(s, t) && Totals(s, events, n, t)
    ensures r.Err? <==> Unreadable(s, events[n])
    ensures r.Ok? ==> TallyOk(s, r.value) && Totals(s, events, n + 1, r.value)
  {
    r := Observe(s, events[n], t);
    if r.Ok? {
      TotalsStep(s, events, n, t, r.value);
      TotalsAreOk(s, events, n + 1, r.value);
    }
  }

  method Tallied(s: Setup, events: seq<Row>) returns (r: Result<Tally, Error>)
    requires SetupOk(s)
    ensures r.Err? <==> SomeUnreadable(s, events, |events|)
    ensures r.Ok? ==> Totals(s, events, |events|, r.value)
  {
    var t := EmptyTally(s);
    NothingYet(s, events);
    for n := 0 to |events|
      invariant TallyOk(s, t) && Totals(s, events, n, t)
      invariant !SomeUnreadable(s, events, n)
    {
      var next := TallyNext(s, events, n, t);
      if next.Err? {
        StaysUnreadable(s, events, n + 1, |events|);
        return Err(InputError);
      }
      t := next.value;
    }
    return Ok(t);
  }

  /** The closing loop over the arms. */
  method Close(arms: set<Arm>, proofs: map<Arm, Proof>, invalidTime: nat) returns (closed: map<Arm, Proof>, proven: bool)
    requires arms <= proofs.Keys
    ensures closed.Keys == arms && forall a :: a in arms ==> closed[a] == Final(a, proofs[a])
    ensures proven <==> forall a :: a in arms ==> Final(a, proofs[a]).failures == multiset{} && invalidTime == 0
  {
    closed, proven := map[], true;
    var todo := arms;
    while todo != {}
      invariant todo <= arms && closed.Keys == arms - todo
      invariant forall a :: a in closed ==> closed[a] == Final(a, proofs[a])
      invariant proven <==> forall a :: a in arms - todo ==> Final(a, proofs[a]).failures == multiset{} && invalidTime == 0
    {
      var a :| a in todo;
      var p := proofs[a];
      if p.rows == 0 { p := Failed(p, multiset{MissingLabelRows}); }
      if a != Control && p.relaxed <= 0.0 { p := Failed(p, multiset{NoRelaxation}); }
      assert p == Final(a, proofs[a]) by {
        AddNothing(proofs[a].failures);
        AddNothing(proofs[a].failures + multiset{MissingLabelRows});
      }
      closed := closed[a := p];
      proven := proven && p.failures == multiset{} && invalidTime == 0;
      todo := todo - {a};
    }
  }

  method Audit(s: Setup, events: seq<Row>) returns (r: Result<Report, Error>)
    requires SetupOk(s)
    ensures r.Err? <==> (s.scope != "think" && s.scope != "all") || s.slack < 0.0 || exists i :: 0 <= i < |events| && Unreadable(s, events[i])
    ensures r.Ok? ==> Totals(s, events, |events|, r.value.tally)
    ensures r.Ok? ==> r.value.arms.Keys == s.arms && forall a :: a in s.arms ==> r.value.arms[a] == Final(a, r.value.tally.proofs[a])
    ensures r.Ok? ==> (r.value.proven <==> EveryArmShown(s, events))
  {
    SomeUnreadableIff(s, events, |events|);
    if !ScopeKnown(s) || s.slack < 0.0 { return Err(InputError); }
    var t := Tallied(s, events);
    if t.Err? { return Err(InputError); }
    var closed, proven := Close(s.arms, t.value.proofs, t.value.invalidTime);
    VerdictIff(s, events, t.value);
    ExercisedMeans(s, events);
    return Ok(Report(proven, closed, t.value));
  }

  /** One probe row with a null count, in an otherwise empty audit, is enough to raise. */
  lemma {:induction false} NullCountRaises() returns (s: Setup, r: Row)
    ensures SetupOk(s) && ScopeKnown(s) && s.slack >= 0.0 && r.verify && r.relaxed == Null && Unreadable(s, r)
  {
    s := Setup({Control}, map[], map[], "all", 0.0, [], [Window(Control, 0.0, 1.0)], []);
    r := Row(true, Number(0.5), Text(""), Null, Null, Absent, Absent, Absent, Absent, Absent);
    assert Window(Control, 0.0, 1.0) in s.extras && OwnersAt(s, s.extras, 0.5) == {Control};
    ClassIs(s, r, ProbeOf(Control));
  }

  // ---------- What the verdict means ----------

  /** Every verify row has a time and is clean; every arm has rows, and every treatment relaxed something. */
  ghost predicate Exercised(s: Setup, events: seq<Row>)
    requires SetupOk(s)
  {
    && (forall i :: 0 <= i < |events| ==> (events[i].verify ==> Measured(events[i].time)) && Clean(s, events[i]))
    && (forall a :: a in s.arms ==>
          CountOf(s, events, |events|, Counted(a)) > 0 && (a != Control ==> RelaxedOf(s, events, |events|, a) > 0.0))
  }

  /**
   Every row is in order, every arm has a row that counts for it, and every
   treatment one that relaxed tokens.
   */
  ghost predicate EveryArmShown(s: Setup, events: seq<Row>)
    requires SetupOk(s)
  {
    && (forall i :: 0 <= i < |events| ==> InOrder(s, events[i]))
    && (forall a :: a in s.arms ==> Shown(s, events, a) && (a != Control ==> Relaxes(s, events, a)))
  }

  ghost predicate Shown(s: Setup, events: seq<Row>, a: Arm) {
    exists i :: 0 <= i < |events| && CountsFor(s, events[i], a)
  }

  ghost predicate Relaxes(s: Setup, events: seq<Row>, a: Arm) {
    exists i :: 0 <= i < |events| && CountsFor(s, events[i], a) && events[i].relaxed.Number? && events[i].relaxed.v > 0.0
  }

  lemma {:induction false} SomeCounted(s: Setup, events: seq<Row>, a: Arm)
    requires SetupOk(s)
    ensures CountOf(s, events, |events|, Counted(a)) > 0 <==> Shown(s, events, a)
  {
    NoneOf(s, events, |events|, Counted(a));
    forall i | 0 <= i < |events| ensures ClassOf(s, events[i]) == Counted(a) <==> CountsFor(s, events[i], a) {
      CountedIff(s, events[i], a);
    }
  }

  /** One of the first n rows adds to the relaxed tokens of an arm. */
  ghost predicate AddsRelaxed(s: Setup, events: seq<Row>, n: nat, a: Arm)
    requires n <= |events|
  {
    exists i :: 0 <= i < n && ClassOf(s, events[i]) == Counted(a) && Relaxation(events[i].relaxed) > 0.0
  }

  lemma {:induction false} RelaxedIff(s: Setup, events: seq<Row>, n: nat, a: Arm)
    requires n <= |events|
    ensures RelaxedOf(s, events, n, a) >= 0.0 && (RelaxedOf(s, events, n, a) > 0.0 <==> AddsRelaxed(s, events, n, a))
  {
    if n > 0 {
      RelaxedIff(s, events, n - 1, a);
      if AddsRelaxed(s, events, n - 1, a) { assert AddsRelaxed(s, events, n, a); }
      if ClassOf(s, events[n - 1]) == Counted(a) && Relaxation(events[n - 1].relaxed) > 0.0 { assert AddsRelaxed(s, events, n, a); }
    }
  }

  lemma {:induction false} SomeRelaxed(s: Setup, events: seq<Row>, a: Arm)
    requires SetupOk(s)
    ensures RelaxedOf(s, events, |events|, a) > 0.0 <==> Relaxes(s, events, a)
  {
    RelaxedIff(s, events, |events|, a);
    forall i | 0 <= i < |events| ensures ClassOf(s, events[i]) == Counted(a) <==> CountsFor(s, events[i], a) {
      CountedIff(s, events[i], a);
    }
    if AddsRelaxed(s, events, |events|, a) {
      var i :| 0 <= i < |events| && ClassOf(s, events[i]) == Counted(a) && Relaxation(events[i].relaxed) > 0.0;
      assert CountsFor(s, events[i], a) && events[i].relaxed.v > 0.0;
    }
  }

  lemma {:induction false} ExercisedMeans(s: Setup, events: seq<Row>)
    requires SetupOk(s)
    ensures Exercised(s, events) <==> EveryArmShown(s, events)
  {
    forall i | 0 <= i < |events|
      ensures InOrder(s, events[i]) <==> (events[i].verify ==> Measured(events[i].time)) && Clean(s, events[i])
    {
      InOrderIff(s, events[i]);
    }
    forall a | a in s.arms
      ensures CountOf(s, events, |events|, Counted(a)) > 0 <==> Shown(s, events, a)
      ensures RelaxedOf(s, events, |events|, a) > 0.0 <==> Relaxes(s, events, a)
    {
      SomeCounted(s, events, a);
      SomeRelaxed(s, events, a);
    }
  }

  lemma {:induction false} NoneGathered(charges: seq<multiset<Failure>>, n: nat)
    requires n <= |charges|
    ensures Gathered(charges, n) == multiset{} <==> forall i :: 0 <= i < n ==> charges[i] == multiset{}
  {
    if n > 0 {
      NoneGathered(charges, n - 1);
      NoneInSum(Gathered(charges, n - 1), charges[n - 1]);
    }
  }

  lemma {:induction false} NoFailuresIff(s: Setup, events: seq<Row>, a: Arm)
    requires SetupOk(s) && a in s.arms
    ensures FailuresBefore(s, events, |events|, a) == multiset{} <==>
      forall i :: 0 <= i < |events| ==> FailuresOf(s, events[i], a) == multiset{}
  {
    NoneGathered(ChargesOf(s, events, a), |events|);
  }

  lemma {:induction false} NoneInSum(x: multiset<Failure>, y: multiset<Failure>)
    ensures x + y == multiset{} <==> x == multiset{} && y == multiset{}
  {
    if x + y == multiset{} {
      forall f ensures x[f] == 0 && y[f] == 0 { assert (x + y)[f] == 0; }
    }
  }

  lemma {:induction false} NoneOf(s: Setup, events: seq<Row>, n: nat, c: Class)
    requires n <= |events|
    ensures CountOf(s, events, n, c) == 0 <==> forall i :: 0 <= i < n ==> ClassOf(s, events[i]) != c
  {
    if n > 0 { NoneOf(s, events, n - 1, c); }
  }

  lemma {:induction false} FinalIsClean(a: Arm, p: Proof)
    ensures Final(a, p).failures == multiset{} <==>
      p.failures == multiset{} && p.rows > 0 && (a != Control ==> p.relaxed > 0.0)
  {
    var x, y := If(p.rows == 0, MissingLabelRows), If(a != Control && p.relaxed <= 0.0, NoRelaxation);
    NoneInSum(p.failures + x, y);
    NoneInSum(p.failures, x);
    assert multiset{MissingLabelRows} != multiset{} && multiset{NoRelaxation} != multiset{} by {
      assert multiset{MissingLabelRows}[MissingLabelRows] == 1 && multiset{NoRelaxation}[NoRelaxation] == 1;
    }
  }

  /** What one more row adds to an arm's totals, to its probes', and to the plain counts. */
  lemma {:induction false} TotalsGrow(s: Setup, events: seq<Row>, n: nat, a: Arm)
    requires SetupOk(s) && n < |events|
    ensures var r, amount := events[n], if Usable(events[n]) then events[n].relaxed.v else 0.0;
      && CountOf(s, events, n + 1, Counted(a)) == CountOf(s, events, n, Counted(a)) + One(CountsFor(s, r, a))
      && RelaxedOf(s, events, n + 1, a) == RelaxedOf(s, events, n, a) + (if CountsFor(s, r, a) then amount else 0.0)
      && CountOf(s, events, n + 1, ProbeOf(a)) == CountOf(s, events, n, ProbeOf(a)) + One(ProbesFor(s, r, a))
      && ProbedOf(s, events, n + 1, a) == ProbedOf(s, events, n, a) + (if ProbesFor(s, r, a) then amount else 0.0)
  {
    CountedIff(s, events[n], a);
    ProbeIff(s, events[n], a);
  }

  /** The row is seen by two arms at least. */
  ghost predicate SeenTwice(s: Setup, r: Row) {
    r.verify && Timed(r) && exists a, b :: a != b && Seen(s, s.calls, a, r.time.v) && Seen(s, s.calls, b, r.time.v)
  }

  lemma {:induction false} PlainTotalsGrow(s: Setup, events: seq<Row>, n: nat)
    requires SetupOk(s) && n < |events|
    ensures CountOf(s, events, n + 1, Ignored) == CountOf(s, events, n, Ignored) + One(!events[n].verify)
    ensures CountOf(s, events, n + 1, InvalidTime)
      == CountOf(s, events, n, InvalidTime) + One(events[n].verify && !Timed(events[n]))
    ensures CountOf(s, events, n + 1, Other) == CountOf(s, events, n, Other)
      + One(events[n].verify && Timed(events[n]) && !Evidence(s, events[n]) && forall a :: a in s.arms ==> !ProbesFor(s, events[n], a))
    ensures OverlapsOf(s, events, n + 1) == OverlapsOf(s, events, n) + One(SeenTwice(s, events[n]))
  {
    ClassBelongs(s, events[n]);
    OtherIff(s, events[n]);
    if events[n].verify && Measured(events[n].time) { OverlapIff(s, events[n].time.v); }
  }

  /** The closing failures, one by one. */
  lemma {:induction false} FinalCounts(a: Arm, p: Proof, f: Failure)
    ensures Final(a, p).rows == p.rows && Final(a, p).relaxed == p.relaxed
    ensures Final(a, p).failures[f] == p.failures[f] + One(f == MissingLabelRows && p.rows == 0)
      + One(f == NoRelaxation && a != Control && p.relaxed <= 0.0)
  {
    IfCounts(p.rows == 0, MissingLabelRows, f);
    IfCounts(a != Control && p.relaxed <= 0.0, NoRelaxation, f);
  }

  /** A probe row cannot be read when it has a count and the count is no number, or a negative one. */
  lemma {:induction false} UnreadableIff(s: Setup, r: Row)
    requires SetupOk(s)
    ensures Unreadable(s, r) <==>
      r.relaxed != Absent && !(r.relaxed.Number? && r.relaxed.v >= 0.0) && exists a :: a in s.arms && ProbesFor(s, r, a)
  {
    if ClassOf(s, r).ProbeOf? {
      var a := ClassOf(s, r).arm;
      ProbeIff(s, r, a);
      SeenInArms(s, s.extras, a, r.time.v);
    }
    forall a | ProbesFor(s, r, a) ensures ClassOf(s, r) == ProbeOf(a) { ProbeIff(s, r, a); }
  }

  lemma {:induction false} TimedIff(s: Setup, r: Row)
    ensures ClassOf(s, r) == InvalidTime <==> r.verify && !Measured(r.time)
  {
    ClassBelongs(s, r);
  }

  lemma {:induction false} AllClean(s: Setup, events: seq<Row>)
    requires SetupOk(s)
    ensures (forall i :: 0 <= i < |events| ==> Clean(s, events[i]))
      <==> forall a :: a in s.arms ==> FailuresBefore(s, events, |events|, a) == multiset{}
  {
    forall i | 0 <= i < |events|
      ensures Clean(s, events[i]) <==> forall a :: a in s.arms ==> FailuresOf(s, events[i], a) == multiset{}
    {
      CleanIff(s, events[i]);
    }
    forall a | a in s.arms
      ensures FailuresBefore(s, events, |events|, a) == multiset{} <==>
        forall i :: 0 <= i < |events| ==> FailuresOf(s, events[i], a) == multiset{}
    {
      NoFailuresIff(s, events, a);
    }
  }

  lemma {:induction false} AllTimed(s: Setup, events: seq<Row>)
    ensures CountOf(s, events, |events|, InvalidTime) == 0 <==>
      forall i :: 0 <= i < |events| ==> (events[i].verify ==> Measured(events[i].time))
  {
    NoneOf(s, events, |events|, InvalidTime);
    forall i | 0 <= i < |events| ensures ClassOf(s, events[i]) == InvalidTime <==> events[i].verify && !Measured(events[i].time) {
      TimedIff(s, events[i]);
    }
  }

  /** The arm's rows are clean, there are some, and a treatment relaxed something. */
  ghost predicate ArmFine(s: Setup, events: seq<Row>, a: Arm)
    requires SetupOk(s) && a in s.arms
  {
    && FailuresBefore(s, events, |events|, a) == multiset{}
    && CountOf(s, events, |events|, Counted(a)) > 0
    && (a != Control ==> RelaxedOf(s, events, |events|, a) > 0.0)
  }

  lemma {:induction false} ArmVerdict(s: Setup, events: seq<Row>, a: Arm, p: Proof)
    requires SetupOk(s) && a in s.arms && p == ProofOf(s, events, |events|, a)
    ensures Final(a, p).failures == multiset{} <==> ArmFine(s, events, a)
  {
    FinalIsClean(a, p);
  }

  lemma {:induction false} ExercisedIff(s: Setup, events: seq<Row>)
    requires SetupOk(s)
    ensures Exercised(s, events) <==>
      CountOf(s, events, |events|, InvalidTime) == 0 && forall a :: a in s.arms ==> ArmFine(s, events, a)
  {
    AllClean(s, events);
    AllTimed(s, events);
  }

  /** All arms end without failures and no time is missing exactly when every row is in order. */
  lemma {:induction false} VerdictIff(s: Setup, events: seq<Row>, t: Tally)
    requires SetupOk(s) && Totals(s, events, |events|, t)
    ensures Exercised(s, events) <==>
      forall a :: a in s.arms ==> Final(a, t.proofs[a]).failures == multiset{} && t.invalidTime == 0
  {
    ExercisedIff(s, events);
    assert Control in s.arms;
    forall a | a in s.arms ensures Final(a, t.proofs[a]).failures == multiset{} <==> ArmFine(s, events, a) {
      ArmVerdict(s, events, a, t.proofs[a]);
    }
  }

  // ---------- Where every row went ----------

  ghost function SumOver(arms: set<Arm>, m: map<Arm, nat>): nat
    requires arms <= m.Keys
  {
    if arms == {} then 0
    else
      var a :| a in arms;
      SumOver(arms - {a}, m) + m[a]
  }

  lemma {:induction false} SumRemove(arms: set<Arm>, b: Arm, m: map<Arm, nat>)
    requires arms <= m.Keys && b in arms
    ensures SumOver(arms, m) == SumOver(arms - {b}, m) + m[b]
    decreases |arms|
  {
    var a :| a in arms && SumOver(arms, m) == SumOver(arms - {a}, m) + m[a];
    if a != b {
      SumRemove(arms - {a}, b, m);
      SumRemove(arms - {b}, a, m);
      assert arms - {a} - {b} == arms - {b} - {a};
    }
  }

  lemma {:induction false} SumAgrees(arms: set<Arm>, m: map<Arm, nat>, m': map<Arm, nat>)
    requires arms <= m.Keys && arms <= m'.Keys && forall a :: a in arms ==> m[a] == m'[a]
    ensures SumOver(arms, m) == SumOver(arms, m')
    decreases |arms|
  {
    if arms != {} {
      var a :| a in arms;
      SumRemove(arms, a, m);
      SumRemove(arms, a, m');
      SumAgrees(arms - {a}, m, m');
    }
  }

  /** m' counts one more than m, for b, or nothing more. */
  lemma {:induction false} SumBumped(arms: set<Arm>, m: map<Arm, nat>, m': map<Arm, nat>, b: Option<Arm>)
    requires arms <= m.Keys && arms <= m'.Keys && (b.Some? ==> b.value in arms)
    requires forall a :: a in arms ==> m'[a] == m[a] + One(b == Some(a))
    ensures SumOver(arms, m') == SumOver(arms, m) + One(b.Some?)
  {
    if b.Some? {
      SumRemove(arms, b.value, m);
      SumRemove(arms, b.value, m');
      SumAgrees(arms - {b.value}, m, m');
    } else {
      SumAgrees(arms, m, m');
    }
  }

  ghost function RowCounts(s: Setup, events: seq<Row>, n: nat): map<Arm, nat>
    requires n <= |events|
  {
    map a | a in s.arms :: CountOf(s, events, n, Counted(a))
  }

  ghost function ProbeCounts(s: Setup, events: seq<Row>, n: nat): map<Arm, nat>
    requires n <= |events|
  {
    map a | a in s.arms :: CountOf(s, events, n, ProbeOf(a))
  }

  lemma {:induction false} ClassInArms(s: Setup, r: Row)
    requires SetupOk(s)
    ensures match ClassOf(s, r) case Counted(a) => a in s.arms case ProbeOf(a) => a in s.arms case _ => true
  {
    ClassBelongs(s, r);
    if LabelArm(s, r.tag).Some? { LabelledIsTreatment(s, r); }
    if ClassOf(s, r).ProbeOf? { assert ClassOf(s, r).arm in OwnersAt(s, s.extras, r.time.v); }
  }

  /** Rows of the four classes without an arm. */
  ghost function Armless(s: Setup, events: seq<Row>, n: nat): nat
    requires n <= |events|
  {
    CountOf(s, events, n, Ignored) + CountOf(s, events, n, InvalidTime) + CountOf(s, events, n, Other) + CountOf(s, events, n, Unattributed)
  }

  lemma {:induction false} ArmlessStep(s: Setup, events: seq<Row>, n: nat)
    requires n < |events|
    ensures var c := ClassOf(s, events[n]);
      Armless(s, events, n + 1) == Armless(s, events, n) + One(!c.Counted? && !c.ProbeOf?)
  {
  }

  lemma {:induction false} RowsStep(s: Setup, events: seq<Row>, n: nat)
    requires SetupOk(s) && n < |events|
    ensures SumOver(s.arms, RowCounts(s, events, n + 1)) == SumOver(s.arms, RowCounts(s, events, n)) + One(ClassOf(s, events[n]).Counted?)
  {
    var c := ClassOf(s, events[n]);
    ClassInArms(s, events[n]);
    SumBumped(s.arms, RowCounts(s, events, n), RowCounts(s, events, n + 1), if c.Counted? then Some(c.arm) else None);
  }

  lemma {:induction false} ProbeRowsStep(s: Setup, events: seq<Row>, n: nat)
    requires SetupOk(s) && n < |events|
    ensures SumOver(s.arms, ProbeCounts(s, events, n + 1)) == SumOver(s.arms, ProbeCounts(s, events, n)) + One(ClassOf(s, events[n]).ProbeOf?)
  {
    var c := ClassOf(s, events[n]);
    ClassInArms(s, events[n]);
    SumBumped(s.arms, ProbeCounts(s, events, n), ProbeCounts(s, events, n + 1), if c.ProbeOf? then Some(c.arm) else None);
  }

  /** All rows there are, by class. */
  ghost function Accounted(s: Setup, events: seq<Row>, n: nat): nat
    requires n <= |events|
  {
    Armless(s, events, n) + SumOver(s.arms, ProbeCounts(s, events, n)) + SumOver(s.arms, RowCounts(s, events, n))
  }

  lemma {:induction false} NothingAccounted(s: Setup, events: seq<Row>)
    ensures Accounted(s, events, 0) == 0
  {
    SumZero(s.arms, ProbeCounts(s, events, 0));
    SumZero(s.arms, RowCounts(s, events, 0));
  }

  lemma {:induction false} OneAccounted(s: Setup, events: seq<Row>, n: nat)
    requires SetupOk(s) && n < |events|
    ensures Accounted(s, events, n + 1) == Accounted(s, events, n) + 1
  {
    ArmlessStep(s, events, n);
    RowsStep(s, events, n);
    ProbeRowsStep(s, events, n);
  }

  /** A sequence that starts at zero and rises by one. */
  lemma {:induction false} Climbs(totals: seq<nat>, n: nat)
    requires n < |totals| && totals[0] == 0 && forall k :: 0 <= k < |totals| - 1 ==> totals[k + 1] == totals[k] + 1
    ensures totals[n] == n
  {
    if n > 0 {
      Climbs(totals, n - 1);
      assert totals[n - 1 + 1] == totals[n - 1] + 1;
    }
  }

  ghost function Accounts(s: Setup, events: seq<Row>): (totals: seq<nat>)
    ensures |totals| == |events| + 1
    ensures forall k :: 0 <= k <= |events| ==> totals[k] == Accounted(s, events, k)
  {
    seq(|events| + 1, k requires 0 <= k <= |events| => Accounted(s, events, k))
  }

  /** Every row is ignored, untimed, other traffic, a probe's, an arm's, or nobody's, and just one of these. */
  lemma {:induction false} EveryRowIsSomewhere(s: Setup, events: seq<Row>)
    requires SetupOk(s)
    ensures Accounted(s, events, |events|) == |events|
  {
    var totals := Accounts(s, events);
    NothingAccounted(s, events);
    forall k | 0 <= k < |events| ensures totals[k + 1] == totals[k] + 1 { OneAccounted(s, events, k); }
    Climbs(totals, |events|);
  }

  lemma {:induction false} SumZero(arms: set<Arm>, m: map<Arm, nat>)
    requires arms <= m.Keys && forall a :: a in arms ==> m[a] == 0
    ensures SumOver(arms, m) == 0
    decreases |arms|
  {
    if arms != {} {
      var a :| a in arms;
      SumRemove(arms, a, m);
      SumZero(arms - {a}, m);
    }
  }

  /** When every arm is proven, no row is nobody's and none lacks its time. */
  lemma {:induction false} ProvenLeavesNothing(s: Setup, events: seq<Row>)
    requires SetupOk(s) && Exercised(s, events)
    ensures CountOf(s, events, |events|, Ignored) + CountOf(s, events, |events|, Other)
      + SumOver(s.arms, ProbeCounts(s, events, |events|)) + SumOver(s.arms, RowCounts(s, events, |events|)) == |events|
  {
    EveryRowIsSomewhere(s, events);
    NoneOf(s, events, |events|, InvalidTime);
    NoneOf(s, events, |events|, Unattributed);
    forall i | 0 <= i < |events| ensures ClassOf(s, events[i]) != InvalidTime && ClassOf(s, events[i]) != Unattributed {
      ClassBelongs(s, events[i]);
    }
  }
}
