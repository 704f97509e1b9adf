/** The loop of activation over all rows, and what its verdict says about them. */
module ActivationAudit {
  import opened Common
  import opened Activation

  function Relaxation(f: Field): real { if Measured(f) then f.v else 0.0 }

  /** A probe row must carry a usable count, or none at all. */
  predicate ProbeReadable(r: Row) { r.relaxed == Absent || Measured(r.relaxed) }

  ghost predicate Unreadable(s: Setup, r: Row) {
    !ProbeReadable(r) && ClassOf(s, r).ProbeOf?
  }

  ghost function NextProof(s: Setup, r: Row, a: Arm, p: Proof): Proof
    requires SetupOk(s) && a in s.arms
  {
    Proof(p.rows + One(ClassOf(s, r) == Counted(a)),
          p.relaxed + (if ClassOf(s, r) == Counted(a) then Relaxation(r.relaxed) else 0.0),
          p.failures + FailuresOf(s, r, a))
  }

  ghost function NextProbe(s: Setup, r: Row, a: Arm, p: Probe): Probe {
    if ClassOf(s, r) == ProbeOf(a) then Probe(p.rows + 1, p.relaxed + Relaxation(r.relaxed)) else p
  }

  /** The windows decide, so the row counts as seen by more than one arm. */
  ghost predicate Overlapping(s: Setup, r: Row) {
    r.verify && Measured(r.time) && |OwnersAt(s, s.calls, r.time.v)| > 1
  }

  ghost predicate ProbesObserved(s: Setup, r: Row, probes: map<Arm, Probe>, probes': map<Arm, Probe>) {
    forall a :: a in s.arms ==> a in probes && a in probes' && probes'[a] == NextProbe(s, r, a, probes[a])
  }

  ghost predicate ProofsObserved(s: Setup, r: Row, proofs: map<Arm, Proof>, proofs': map<Arm, Proof>)
    requires SetupOk(s)
  {
    forall a :: a in s.arms ==> a in proofs && a in proofs' && proofs'[a] == NextProof(s, r, a, proofs[a])
  }

  ghost predicate CountsObserved(s: Setup, r: Row, t: Tally, t': Tally) {
    && t'.other == t.other + One(ClassOf(s, r) == Other)
    && t'.ignored == t.ignored + One(ClassOf(s, r) == Ignored)
    && t'.invalidTime == t.invalidTime + One(ClassOf(s, r) == InvalidTime)
    && t'.overlap == t.overlap + One(Overlapping(s, r))
  }

  /** t' is t with row r accounted for. */
  ghost predicate Observed(s: Setup, r: Row, t: Tally, t': Tally)
    requires SetupOk(s)
  {
    && ProofsObserved(s, r, t.proofs, t'.proofs)
    && ProbesObserved(s, r, t.probes, t'.probes)
    && CountsObserved(s, r, t, t')
  }

  ghost predicate TallyOk(s: Setup, t: Tally) {
    forall a :: a in s.arms ==> a in t.proofs && a in t.probes
  }

  // ---------- One row ----------

  function Failed(p: Proof, f: multiset<Failure>): Proof { p.(failures := p.failures + f) }

  function Credited(p: Proof, relaxed: real, f: multiset<Failure>): Proof {
    Proof(p.rows + 1, p.relaxed + relaxed, p.failures + f)
  }

  /** The control arm's charges for a labelled row in its window. */
  method ControlCharges(s: Setup, r: Row, owners: set<Arm>) returns (added: multiset<Failure>)
    ensures added == Contamination(s, r, owners, Control)
  {
    added := multiset{};
    if Control in owners && r.tag != Text("") {
      added := multiset{LabelOrArmWindowMismatch};
      added := added + If(LabelArm(s, r.tag).Some?, TreatmentLabelInControlWindow);
      added := added + RelaxedFailures(r);
      added := added + If(r.margin != Null, ControlMarginNotNull);
    }
  }

  /** The charges of the arm that owns the row, and the relaxation it is credited with. */
  method OwnerCharges(s: Setup, r: Row, owners: set<Arm>, a: Arm) returns (relaxed: real, added: multiset<Failure>)
    requires a == Control || a in s.margins
    ensures relaxed == Relaxation(r.relaxed) && added == OwnFailures(s, r, owners, a)
  {
    added := If(a !in owners, OutsideArmCallWindows);
    if !Measured(r.relaxed) { return 0.0, added + multiset{MissingOrInvalidRelaxed}; }
    relaxed := r.relaxed.v;
    var more := RelaxedFailures(r);
    if a == Control {
      more := more + If(r.margin != Null, ControlMarginNotNull);
    } else {
      more := If(!Equals(r.margin, s.margins[a]), MarginMismatch);
      more := more + If(r.scope != Text(s.scope), ScopeMismatch);
      more := more + If(r.enabled != Flag(true), LossyNotEnabled);
    }
    more := more + If(!Complete(r), IncompleteTelemetry);
    added := added + more;
  }

  /** A row nobody owns is charged to every treatment whose window it is in. */
  method ChargeAll(owners: set<Arm>, proofs: map<Arm, Proof>) returns (proofs': map<Arm, Proof>)
    requires owners <= proofs.Keys
    ensures proofs'.Keys == proofs.Keys
    ensures forall a :: a in proofs ==>
      proofs'[a] == if a in owners && a != Control then Failed(proofs[a], multiset{LabelOrArmWindowMismatch}) else proofs[a]
  {
    proofs' := proofs;
    var todo := owners - {Control};
    while todo != {}
      invariant todo <= owners - {Control} && proofs'.Keys == proofs.Keys
      invariant forall a :: a in proofs ==>
        proofs'[a] == if a in owners && a != Control && a !in todo then Failed(proofs[a], multiset{LabelOrArmWindowMismatch}) else proofs[a]
    {
      var a :| a in todo;
      proofs' := proofs'[a := Failed(proofs[a], multiset{LabelOrArmWindowMismatch})];
      todo := todo - {a};
    }
  }

  lemma {:induction false} AddNothing(m: multiset<Failure>)
    ensures m + multiset{} == m && multiset{} + m == m
  {
  }

  lemma {:induction false} AddTwice(m: multiset<Failure>, x: multiset<Failure>, y: multiset<Failure>)
    ensures m + x + y == m + (x + y)
  {
  }

  /** What the two branches leave for an arm is what the row is worth to it. */
  lemma {:induction false} UnownedProof(s: Setup, r: Row, owners: set<Arm>, a: Arm, p: Proof)
    requires SetupOk(s) && a in s.arms && r.verify && Measured(r.time) && owners == OwnersAt(s, s.calls, r.time.v)
    requires ClassOf(s, r) == Unattributed
    ensures NextProof(s, r, a, p) == Proof(p.rows, p.relaxed,
      p.failures + Contamination(s, r, owners, a) + If(a in owners && a != Control, LabelOrArmWindowMismatch))
  {
    var c, f := Contamination(s, r, owners, a), If(a in owners && a != Control, LabelOrArmWindowMismatch);
    AddNothing(c);
    AddTwice(p.failures, c, f);
  }

  lemma {:induction false} OwnedFailures(s: Setup, r: Row, owners: set<Arm>, a: Arm)
    requires SetupOk(s) && a in s.arms && r.verify && Measured(r.time) && owners == OwnersAt(s, s.calls, r.time.v)
    requires ClassOf(s, r) == Counted(a)
    ensures FailuresOf(s, r, a) == Contamination(s, r, owners, a) + OwnFailures(s, r, owners, a)
  {
    AddNothing(Contamination(s, r, owners, a) + OwnFailures(s, r, owners, a));
  }

  lemma {:induction false} OwnedProof(s: Setup, r: Row, owners: set<Arm>, a: Arm, p: Proof)
    requires SetupOk(s) && a in s.arms && r.verify && Measured(r.time) && owners == OwnersAt(s, s.calls, r.time.v)
    requires ClassOf(s, r) == Counted(a)
    ensures NextProof(s, r, a, p) ==
      Credited(Failed(p, Contamination(s, r, owners, a)), Relaxation(r.relaxed), OwnFailures(s, r, owners, a))
  {
    var c, o := Contamination(s, r, owners, a), OwnFailures(s, r, owners, a);
    OwnedFailures(s, r, owners, a);
    AddTwice(p.failures, c, o);
  }

  lemma {:induction false} OthersProof(s: Setup, r: Row, owners: set<Arm>, a: Arm, p: Proof)
    requires SetupOk(s) && a in s.arms && r.verify && Measured(r.time) && owners == OwnersAt(s, s.calls, r.time.v)
    requires ClassOf(s, r).Counted? && ClassOf(s, r) != Counted(a)
    ensures NextProof(s, r, a, p) == Failed(p, Contamination(s, r, owners, a))
  {
    AddNothing(Contamination(s, r, owners, a));
  }

  lemma {:induction false} OnlyControlIsContaminated(s: Setup, r: Row, owners: set<Arm>, a: Arm, p: Proof)
    requires a != Control
    ensures Failed(p, Contamination(s, r, owners, a)) == p
  {
    AddNothing(p.failures);
  }

  /** The part of the loop body for rows the call windows or a label decide about. */
  method Attribute(s: Setup, r: Row, owners: set<Arm>, proofs: map<Arm, Proof>) returns (proofs': map<Arm, Proof>)
    requires SetupOk(s) && r.verify && Measured(r.time) && owners == OwnersAt(s, s.calls, r.time.v)
    requires forall a :: a in s.arms ==> a in proofs
    requires owners != {} || (OwnersAt(s, s.extras, r.time.v) == {} && LabelArm(s, r.tag).Some? && InPass(s, r.time.v))
    ensures ProofsObserved(s, r, proofs, proofs')
  {
    var charges := ControlCharges(s, r, owners);
    proofs' := proofs[Control := Failed(proofs[Control], charges)];
    forall a | a in s.arms ensures proofs'[a] == Failed(proofs[a], Contamination(s, r, owners, a)) {
      if a != Control { OnlyControlIsContaminated(s, r, owners, a, proofs[a]); }
    }
    assert Contaminated(s, r, owners, proofs, proofs');
    var own := OwnArm(s, r, owners);
    if own.None? {
      ClassIs(s, r, Unattributed);
      proofs' := ChargeUnowned(s, r, owners, proofs, proofs');
    } else {
      ClassIs(s, r, Counted(own.value));
      proofs' := ChargeOwned(s, r, owners, own.value, proofs, proofs');
    }
  }

  /** The control arm has been charged for a label in its window, and nothing else has happened yet. */
  ghost predicate Contaminated(s: Setup, r: Row, owners: set<Arm>, proofs: map<Arm, Proof>, now: map<Arm, Proof>) {
    forall a :: a in s.arms ==> a in proofs && a in now && now[a] == Failed(proofs[a], Contamination(s, r, owners, a))
  }

  method ChargeOwned(s: Setup, r: Row, owners: set<Arm>, arm: Arm, ghost proofs: map<Arm, Proof>, now: map<Arm, Proof>)
    returns (proofs': map<Arm, Proof>)
    requires SetupOk(s) && r.verify && Measured(r.time) && owners == OwnersAt(s, s.calls, r.time.v)
    requires arm in s.arms && ClassOf(s, r) == Counted(arm) && Contaminated(s, r, owners, proofs, now)
    ensures ProofsObserved(s, r, proofs, proofs')
  {
    var relaxed, added := OwnerCharges(s, r, owners, arm);
    proofs' := now[arm := Credited(now[arm], relaxed, added)];
    forall a | a in s.arms ensures proofs'[a] == NextProof(s, r, a, proofs[a]) {
      if a == arm { OwnedProof(s, r, owners, a, proofs[a]); } else { OthersProof(s, r, owners, a, proofs[a]); }
    }
  }

  method ChargeUnowned(s: Setup, r: Row, owners: set<Arm>, ghost proofs: map<Arm, Proof>, now: map<Arm, Proof>)
    returns (proofs': map<Arm, Proof>)
    requires SetupOk(s) && r.verify && Measured(r.time) && owners == OwnersAt(s, s.calls, r.time.v)
    requires ClassOf(s, r) == Unattributed && Contaminated(s, r, owners, proofs, now)
    ensures ProofsObserved(s, r, proofs, proofs')
  {
    forall a | a in owners ensures a in now { }
    proofs' := ChargeAll(owners, now);
    forall a | a in s.arms ensures proofs'[a] == NextProof(s, r, a, proofs[a]) {
      UnownedProof(s, r, owners, a, proofs[a]);
      AddNothing(now[a].failures);
    }
  }

  /** The arm a probe row is charged to, if one can be named. */
  method ProbeArm(s: Setup, r: Row, extras: set<Arm>) returns (owner: Option<Arm>)
    ensures owner.Some? ==> ProbeOwner(s, r, extras, owner.value)
    ensures owner.None? ==> forall a :: !ProbeOwner(s, r, extras, a)
  {
    var l := LabelArm(s, r.tag);
    if l.Some? && l.value in extras { return l; }
    if |extras| == 1 {
      var a :| a in extras;
      assert |extras - {a}| == 0;
      assert extras == {a};
      return Some(a);
    }
    forall a ensures extras != {a} { }
    return None;
  }

  lemma {:induction false} NoFailures(s: Setup, r: Row, a: Arm)
    requires SetupOk(s) && a in s.arms && !ClassOf(s, r).Counted? && !ClassOf(s, r).Unattributed?
    requires r.verify && Measured(r.time) ==> OwnersAt(s, s.calls, r.time.v) == {}
    ensures FailuresOf(s, r, a) == multiset{}
  {
  }

  lemma {:induction false} SameProof(s: Setup, r: Row, a: Arm, p: Proof)
    requires SetupOk(s) && a in s.arms && !ClassOf(s, r).Counted? && !ClassOf(s, r).Unattributed?
    requires r.verify && Measured(r.time) ==> OwnersAt(s, s.calls, r.time.v) == {}
    ensures NextProof(s, r, a, p) == p
  {
    NoFailures(s, r, a);
    AddNothing(p.failures);
  }

  /** A row that no proof counts changes no proof. */
  lemma {:induction false} SameProofs(s: Setup, r: Row, t: Tally)
    requires SetupOk(s) && TallyOk(s, t)
    requires !ClassOf(s, r).Counted? && !ClassOf(s, r).Unattributed?
    requires r.verify && Measured(r.time) ==> OwnersAt(s, s.calls, r.time.v) == {}
    ensures ProofsObserved(s, r, t.proofs, t.proofs)
  {
    forall a | a in s.arms ensures NextProof(s, r, a, t.proofs[a]) == t.proofs[a] {
      SameProof(s, r, a, t.proofs[a]);
    }
  }

  function ProbedOnce(p: Probe, r: Row): Probe { Probe(p.rows + 1, p.relaxed + Relaxation(r.relaxed)) }

  function Probed(t: Tally, owner: Arm, r: Row): Tally
    requires owner in t.probes
  {
    t.(probes := t.probes[owner := ProbedOnce(t.probes[owner], r)])
  }

  lemma {:induction false} SameProbes(s: Setup, r: Row, probes: map<Arm, Probe>)
    requires (forall a :: a in s.arms ==> a in probes) && !ClassOf(s, r).ProbeOf?
    ensures ProbesObserved(s, r, probes, probes)
  {
  }

  lemma {:induction false} OneProbe(s: Setup, r: Row, probes: map<Arm, Probe>, owner: Arm)
    requires (forall a :: a in s.arms ==> a in probes) && owner in s.arms && ClassOf(s, r) == ProbeOf(owner)
    ensures ProbesObserved(s, r, probes, probes[owner := ProbedOnce(probes[owner], r)])
  {
  }

  lemma {:induction false} ProbeObserved(s: Setup, r: Row, t: Tally, owner: Arm)
    requires SetupOk(s) && TallyOk(s, t) && owner in s.arms && ClassOf(s, r) == ProbeOf(owner)
    requires r.verify && Measured(r.time) && OwnersAt(s, s.calls, r.time.v) == {}
    ensures Observed(s, r, t, Probed(t, owner, r))
  {
    SameProofs(s, r, t);
    OneProbe(s, r, t.probes, owner);
  }

  lemma {:induction false} OtherObserved(s: Setup, r: Row, t: Tally)
    requires SetupOk(s) && TallyOk(s, t) && ClassOf(s, r) == Other
    requires r.verify && Measured(r.time) && OwnersAt(s, s.calls, r.time.v) == {}
    ensures !Unreadable(s, r) && Observed(s, r, t, t.(other := t.other + 1))
  {
    SameProofs(s, r, t);
    SameProbes(s, r, t.probes);
  }

  lemma {:induction false} UntimedObserved(s: Setup, r: Row, t: Tally)
    requires SetupOk(s) && TallyOk(s, t) && !(r.verify && Measured(r.time))
    ensures !Unreadable(s, r)
    ensures Observed(s, r, t, if r.verify then t.(invalidTime := t.invalidTime + 1) else t.(ignored := t.ignored + 1))
  {
    ClassIs(s, r, if r.verify then InvalidTime else Ignored);
    SameProofs(s, r, t);
    SameProbes(s, r, t.probes);
  }

  lemma {:induction false} AttributedObserved(s: Setup, r: Row, t: Tally, proofs: map<Arm, Proof>, overlap: nat)
    requires SetupOk(s) && TallyOk(s, t) && r.verify && Measured(r.time)
    requires ClassOf(s, r).Counted? || ClassOf(s, r).Unattributed?
    requires ProofsObserved(s, r, t.proofs, proofs) && overlap == t.overlap + One(Overlapping(s, r))
    ensures !Unreadable(s, r) && Observed(s, r, t, t.(proofs := proofs, overlap := overlap))
  {
    SameProbes(s, r, t.probes);
  }

  method ProbeOwnerOf(s: Setup, r: Row, extras: set<Arm>) returns (owner: Option<Arm>)
    requires SetupOk(s) && r.verify && Measured(r.time)
    requires OwnersAt(s, s.calls, r.time.v) == {} && extras == OwnersAt(s, s.extras, r.time.v) != {}
    ensures owner.Some? ==> owner.value in s.arms && ClassOf(s, r) == ProbeOf(owner.value)
    ensures owner.None? ==> ClassOf(s, r) == Other
  {
    owner := ProbeArm(s, r, extras);
    if owner.Some? { assert owner.value in extras; }
    ClassIs(s, r, if owner.Some? then ProbeOf(owner.value) else Other);
  }

  /** A row outside all call windows but inside an excluded probe or trial call. */
  method ObserveProbe(s: Setup, r: Row, extras: set<Arm>, t: Tally) returns (res: Result<Tally, Error>)
    requires SetupOk(s) && TallyOk(s, t) && r.verify && Measured(r.time)
    requires OwnersAt(s, s.calls, r.time.v) == {} && extras == OwnersAt(s, s.extras, r.time.v) != {}
    ensures res.Err? <==> Unreadable(s, r)
    ensures res.Ok? ==> Observed(s, r, t, res.value)
  {
    var owner := ProbeOwnerOf(s, r, extras);
    if owner.None? {
      OtherObserved(s, r, t);
      return Ok(t.(other := t.other + 1));
    }
    if !ProbeReadable(r) { return Err(InputError); }
    ProbeObserved(s, r, t, owner.value);
    return Ok(Probed(t, owner.value, r));
  }

  /** The loop body. */
  method Observe(s: Setup, r: Row, t: Tally) returns (res: Result<Tally, Error>)
    requires SetupOk(s) && TallyOk(s, t)
    ensures res.Err? <==> Unreadable(s, r)
    ensures res.Ok? ==> Observed(s, r, t, res.value)
  {
    if !r.verify || !Measured(r.time) { UntimedObserved(s, r, t); }
    if !r.verify { return Ok(t.(ignored := t.ignored + 1)); }
    if !Measured(r.time) { return Ok(t.(invalidTime := t.invalidTime + 1)); }
    var time := r.time.v;
    var owners := OwnersAt(s, s.calls, time);
    if owners == {} {
      var extras := OwnersAt(s, s.extras, time);
      if extras != {} {
        res := ObserveProbe(s, r, extras, t);
        return;
      }
      if LabelArm(s, r.tag).None? || !InPass(s, time) {
        ClassIs(s, r, Other);
        OtherObserved(s, r, t);
        return Ok(t.(other := t.other + 1));
      }
    }
    var proofs := Attribute(s, r, owners, t.proofs);
    var own := OwnArm(s, r, owners);
    ClassIs(s, r, if own.Some? then Counted(own.value) else Unattributed);
    var overlap := t.overlap + if |owners| > 1 then 1 else 0;
    AttributedObserved(s, r, t, proofs, overlap);
    return Ok(t.(proofs := proofs, overlap := overlap));
  }
}
