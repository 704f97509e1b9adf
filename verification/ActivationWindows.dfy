/**
 What the audit's classes and its clean rows mean in terms of the setup alone:
 the call windows widened by the slack, the labels and the passes.
 */
module ActivationWindows {
  import opened Common
  import opened Activation

  /** At time t a window of arm a is open, slack included. */
  predicate Seen(s: Setup, windows: seq<Window>, a: Arm, t: real) {
    exists i :: 0 <= i < |windows| && windows[i].arm == a && windows[i].start - s.slack <= t <= windows[i].end + s.slack
  }

  /** At time t some window is. */
  predicate SeenAtAll(s: Setup, windows: seq<Window>, t: real) {
    exists i :: 0 <= i < |windows| && windows[i].start - s.slack <= t <= windows[i].end + s.slack
  }

  predicate Labelled(s: Setup, r: Row, a: Arm) {
    r.tag.Text? && r.tag.s in s.labelArms && s.labelArms[r.tag.s] == a
  }

  predicate Unlabelled(s: Setup, r: Row) { !r.tag.Text? || r.tag.s !in s.labelArms }

  predicate DuringPass(s: Setup, t: real) {
    exists i :: 0 <= i < |s.passes| && s.passes[i].0 <= t && t <= s.passes[i].1
  }

  predicate Timed(r: Row) { r.time.Number? && r.time.v >= 0.0 }

  /** The row is evidence: seen in a call window, or labelled for a treatment during a pass and in no extra window. */
  predicate Evidence(s: Setup, r: Row) {
    r.verify && Timed(r) &&
    (SeenAtAll(s, s.calls, r.time.v)
     || (!SeenAtAll(s, s.extras, r.time.v) && !Unlabelled(s, r) && DuringPass(s, r.time.v)))
  }

  /** The row counts for arm a: by its label, or, with an empty label, in a control window. */
  predicate CountsFor(s: Setup, r: Row, a: Arm) {
    Evidence(s, r) && (Labelled(s, r, a) || (a == Control && r.tag == Text("") && Seen(s, s.calls, Control, r.time.v)))
  }

  /** The row is a probe of arm a: outside all call windows, in an extra window of its label's arm, or of one arm only. */
  predicate ProbesFor(s: Setup, r: Row, a: Arm) {
    && r.verify && Timed(r) && !SeenAtAll(s, s.calls, r.time.v) && Seen(s, s.extras, a, r.time.v)
    && (Labelled(s, r, a)
        || ((forall b :: b in s.arms && Labelled(s, r, b) ==> !Seen(s, s.extras, b, r.time.v))
            && forall b :: b in s.arms && Seen(s, s.extras, b, r.time.v) ==> b == a))
  }

  /** Complete telemetry. */
  predicate Whole(r: Row) {
    && r.eligible == Flag(true) && (r.dropped == Number(0.0) || r.dropped == Flag(false))
    && (r.writerError == Absent || r.writerError == Null)
  }

  /** In a control window a row is unlabelled, unrelaxed, without a margin, and complete. */
  predicate ControlInOrder(r: Row) {
    r.tag == Text("") && r.relaxed == Number(0.0) && r.margin == Null && Whole(r)
  }

  /** A count of relaxed tokens. */
  predicate Usable(r: Row) { r.relaxed.Number? && r.relaxed.v >= 0.0 }

  predicate HasMargin(r: Row, v: real) {
    r.margin == Number(v) || (r.margin == Flag(true) && v == 1.0) || (r.margin == Flag(false) && v == 0.0)
  }

  /** A row counted for a treatment lies in one of its own windows and carries its settings. */
  predicate TreatmentInOrder(s: Setup, r: Row, a: Arm)
    requires a in s.margins && r.time.Number?
  {
    && Seen(s, s.calls, a, r.time.v)
    && Usable(r)
    && HasMargin(r, s.margins[a])
    && r.scope == Text(s.scope) && r.enabled == Flag(true) && Whole(r)
  }

  /** What an audit that proves every arm demands of a row. */
  ghost predicate InOrder(s: Setup, r: Row)
    requires SetupOk(s)
  {
    r.verify ==>
      && Timed(r)
      && (Seen(s, s.calls, Control, r.time.v) ==> ControlInOrder(r))
      && (forall a :: a in s.arms && Evidence(s, r) && Labelled(s, r, a) ==> a in s.margins && TreatmentInOrder(s, r, a))
      && (SeenAtAll(s, s.calls, r.time.v) && !Seen(s, s.calls, Control, r.time.v) ==> !Unlabelled(s, r))
  }

  lemma {:induction false} OwnersAreSeen(s: Setup, windows: seq<Window>, t: real)
    ensures forall a :: a in OwnersAt(s, windows, t) <==> Seen(s, windows, a, t)
    ensures OwnersAt(s, windows, t) != {} <==> SeenAtAll(s, windows, t)
  {
    forall a ensures a in OwnersAt(s, windows, t) <==> Seen(s, windows, a, t) {
      if Seen(s, windows, a, t) {
        var i :| 0 <= i < |windows| && windows[i].arm == a && windows[i].start - s.slack <= t <= windows[i].end + s.slack;
        assert windows[i] in windows && Near(s, windows[i], t);
      }
    }
    if SeenAtAll(s, windows, t) {
      var i :| 0 <= i < |windows| && windows[i].start - s.slack <= t <= windows[i].end + s.slack;
      assert Seen(s, windows, windows[i].arm, t);
    }
    if OwnersAt(s, windows, t) != {} {
      var a :| a in OwnersAt(s, windows, t);
      assert Seen(s, windows, a, t);
    }
  }

  lemma {:induction false} LabelIs(s: Setup, r: Row)
    ensures LabelArm(s, r.tag).Some? <==> !Unlabelled(s, r)
    ensures forall a :: Labelled(s, r, a) <==> LabelArm(s, r.tag) == Some(a)
  {
  }

  lemma {:induction false} EvidenceIff(s: Setup, r: Row)
    ensures Evidence(s, r) <==>
      (r.verify && Measured(r.time) &&
       (OwnersAt(s, s.calls, r.time.v) != {}
        || (OwnersAt(s, s.extras, r.time.v) == {} && LabelArm(s, r.tag).Some? && InPass(s, r.time.v))))
  {
    if r.verify && Measured(r.time) {
      OwnersAreSeen(s, s.calls, r.time.v);
      OwnersAreSeen(s, s.extras, r.time.v);
      LabelIs(s, r);
    }
  }

  /** The rows counted for an arm. */
  lemma {:induction false} CountedIff(s: Setup, r: Row, a: Arm)
    requires SetupOk(s)
    ensures ClassOf(s, r) == Counted(a) <==> CountsFor(s, r, a)
  {
    ClassBelongs(s, r);
    EvidenceIff(s, r);
    if r.verify && Measured(r.time) {
      OwnersAreSeen(s, s.calls, r.time.v);
      LabelIs(s, r);
      if LabelArm(s, r.tag).Some? { LabelledIsTreatment(s, r); }
    }
  }

  lemma {:induction false} ProbeOwnerIff(s: Setup, r: Row, extras: set<Arm>, a: Arm)
    requires SetupOk(s) && r.verify && Measured(r.time) && extras == OwnersAt(s, s.extras, r.time.v)
    requires !SeenAtAll(s, s.calls, r.time.v)
    ensures ProbeOwner(s, r, extras, a) <==> ProbesFor(s, r, a)
  {
    OwnersAreSeen(s, s.extras, r.time.v);
    LabelIs(s, r);
    assert forall b :: b in extras ==> b in s.arms;
    if LabelArm(s, r.tag).Some? { LabelledIsTreatment(s, r); }
    if ProbesFor(s, r, a) && extras != {a} {
      var b :| b in extras && b != a;
    }
  }

  /** The rows charged to an arm's probes. */
  lemma {:induction false} ProbeIff(s: Setup, r: Row, a: Arm)
    requires SetupOk(s)
    ensures ClassOf(s, r) == ProbeOf(a) <==> ProbesFor(s, r, a)
  {
    ClassBelongs(s, r);
    EvidenceIff(s, r);
    if r.verify && Measured(r.time) {
      OwnersAreSeen(s, s.calls, r.time.v);
      if !SeenAtAll(s, s.calls, r.time.v) { ProbeOwnerIff(s, r, OwnersAt(s, s.extras, r.time.v), a); }
    }
  }

  /** Other traffic: timed verify rows that are neither evidence nor any arm's probe. */
  lemma {:induction false} OtherIff(s: Setup, r: Row)
    requires SetupOk(s)
    ensures ClassOf(s, r) == Other <==> r.verify && Timed(r) && !Evidence(s, r) && forall a :: a in s.arms ==> !ProbesFor(s, r, a)
  {
    ClassBelongs(s, r);
    EvidenceIff(s, r);
    if r.verify && Measured(r.time) && !Evidence(s, r) {
      OwnersAreSeen(s, s.calls, r.time.v);
      if ClassOf(s, r).ProbeOf? {
        ProbeIff(s, r, ClassOf(s, r).arm);
        SeenInArms(s, s.extras, ClassOf(s, r).arm, r.time.v);
      }
      forall a | ProbesFor(s, r, a) ensures ClassOf(s, r) == ProbeOf(a) { ProbeIff(s, r, a); }
    }
  }

  lemma {:induction false} SeenInArms(s: Setup, windows: seq<Window>, a: Arm, t: real)
    requires SetupOk(s) && (windows == s.calls || windows == s.extras)
    ensures Seen(s, windows, a, t) ==> a in s.arms
  {
  }

  /** A verify row outside every widened window, and unlabelled or outside all passes, is other traffic. */
  lemma {:induction false} OutsideIsOther(s: Setup, r: Row)
    requires SetupOk(s) && r.verify && Timed(r)
    requires !SeenAtAll(s, s.calls, r.time.v) && !SeenAtAll(s, s.extras, r.time.v)
    requires Unlabelled(s, r) || !DuringPass(s, r.time.v)
    ensures ClassOf(s, r) == Other
  {
    OtherIff(s, r);
  }

  lemma {:induction false} TreatmentsIn(s: Setup, r: Row, a: Arm)
    requires SetupOk(s) && Labelled(s, r, a)
    ensures a in s.arms && a != Control && a in s.margins && !Unlabelled(s, r)
  {
  }

  /** A row that lacks no time is clean exactly when it is in order. */
  lemma {:induction false} InOrderIff(s: Setup, r: Row)
    requires SetupOk(s)
    ensures InOrder(s, r) <==> (r.verify ==> Measured(r.time)) && Clean(s, r)
  {
    if r.verify && Measured(r.time) {
      OwnersAreSeen(s, s.calls, r.time.v);
      LabelIs(s, r);
      if LabelArm(s, r.tag).Some? {
        var a := LabelArm(s, r.tag).value;
        TreatmentsIn(s, r, a);
        CountedIff(s, r, a);
      }
    }
  }

  // ---------- Which failures a row adds ----------

  /** The row carries some label although a control window is open. */
  predicate Spoils(s: Setup, r: Row) {
    r.verify && Timed(r) && Seen(s, s.calls, Control, r.time.v) && r.tag != Text("")
  }

  /** Evidence for no arm. */
  predicate Orphan(s: Setup, r: Row) {
    Evidence(s, r) && Unlabelled(s, r) && !(r.tag == Text("") && Seen(s, s.calls, Control, r.time.v))
  }

  lemma {:induction false} OrphanIff(s: Setup, r: Row)
    requires SetupOk(s)
    ensures ClassOf(s, r) == Unattributed <==> Orphan(s, r)
  {
    ClassBelongs(s, r);
    EvidenceIff(s, r);
    if r.verify && Measured(r.time) {
      OwnersAreSeen(s, s.calls, r.time.v);
      LabelIs(s, r);
    }
  }

  lemma {:induction false} IfCounts(condition: bool, f: Failure, g: Failure)
    ensures If(condition, f)[g] == One(condition && f == g) && multiset{f}[g] == One(f == g)
  {
  }

  /** The failures of a usable count in a control row. */
  lemma {:induction false} RelaxedCharges(r: Row, f: Failure)
    ensures RelaxedFailures(r)[f] ==
      if Usable(r) then One(r.relaxed.v > 0.0 && f == ControlRelaxed) else One(f == MissingOrInvalidRelaxed)
  {
    if Usable(r) { IfCounts(r.relaxed.v != 0.0, ControlRelaxed, f); } else { IfCounts(true, MissingOrInvalidRelaxed, f); }
  }

  lemma {:induction false} ContaminationSum(s: Setup, r: Row, owners: set<Arm>, f: Failure)
    requires Control in owners && r.tag != Text("")
    ensures Contamination(s, r, owners, Control)[f] ==
      One(f == LabelOrArmWindowMismatch) + One(LabelArm(s, r.tag).Some? && f == TreatmentLabelInControlWindow)
      + RelaxedFailures(r)[f] + One(r.margin != Null && f == ControlMarginNotNull)
  {
    IfCounts(true, LabelOrArmWindowMismatch, f);
    IfCounts(LabelArm(s, r.tag).Some?, TreatmentLabelInControlWindow, f);
    IfCounts(r.margin != Null, ControlMarginNotNull, f);
  }

  lemma {:induction false} MarginIs(r: Row, v: real)
    ensures Equals(r.margin, v) <==> HasMargin(r, v)
  {
  }

  lemma {:induction false} ControlSum(s: Setup, r: Row, f: Failure)
    requires Usable(r)
    ensures SettingFailures(s, r, Control)[f] ==
      One(r.relaxed.v > 0.0 && f == ControlRelaxed) + One(r.margin != Null && f == ControlMarginNotNull)
  {
    RelaxedCharges(r, f);
    IfCounts(r.margin != Null, ControlMarginNotNull, f);
  }

  lemma {:induction false} TreatmentSum(s: Setup, r: Row, a: Arm, f: Failure)
    requires a != Control && a in s.margins
    ensures SettingFailures(s, r, a)[f] ==
      One(!HasMargin(r, s.margins[a]) && f == MarginMismatch) + One(r.scope != Text(s.scope) && f == ScopeMismatch)
      + One(r.enabled != Flag(true) && f == LossyNotEnabled)
  {
    var x, y, z := !HasMargin(r, s.margins[a]), r.scope != Text(s.scope), r.enabled != Flag(true);
    MarginIs(r, s.margins[a]);
    IfCounts(x, MarginMismatch, f);
    IfCounts(y, ScopeMismatch, f);
    IfCounts(z, LossyNotEnabled, f);
    assert SettingFailures(s, r, a) == If(x, MarginMismatch) + If(y, ScopeMismatch) + If(z, LossyNotEnabled);
  }

  lemma {:induction false} OwnSum(s: Setup, r: Row, owners: set<Arm>, a: Arm, f: Failure)
    requires a == Control || a in s.margins
    ensures OwnFailures(s, r, owners, a)[f] == One(a !in owners && f == OutsideArmCallWindows)
      + if Usable(r) then SettingFailures(s, r, a)[f] + One(!Whole(r) && f == IncompleteTelemetry) else One(f == MissingOrInvalidRelaxed)
  {
    IfCounts(a !in owners, OutsideArmCallWindows, f);
    IfCounts(!Complete(r), IncompleteTelemetry, f);
    IfCounts(true, MissingOrInvalidRelaxed, f);
    assert Complete(r) <==> Whole(r);
  }

  /** What a spoiled control window adds to the control arm. */
  function SpoilCharge(s: Setup, r: Row, f: Failure): nat {
    match f
    case LabelOrArmWindowMismatch => 1
    case TreatmentLabelInControlWindow => One(!Unlabelled(s, r))
    case ControlRelaxed => One(Usable(r) && r.relaxed.v > 0.0)
    case MissingOrInvalidRelaxed => One(!Usable(r))
    case ControlMarginNotNull => One(r.margin != Null)
    case _ => 0
  }

  lemma {:induction false} SpoilsCharges(s: Setup, r: Row, owners: set<Arm>, f: Failure)
    requires Control in owners && r.tag != Text("")
    ensures Contamination(s, r, owners, Control)[f] == SpoilCharge(s, r, f)
  {
    ContaminationSum(s, r, owners, f);
    RelaxedCharges(r, f);
    LabelIs(s, r);
  }

  /** What a row that counts for an arm adds to it. */
  function OwnCharge(s: Setup, r: Row, seen: bool, a: Arm, f: Failure): nat
    requires a == Control || a in s.margins
  {
    match f
    case OutsideArmCallWindows => One(!seen)
    case MissingOrInvalidRelaxed => One(!Usable(r))
    case IncompleteTelemetry => One(Usable(r) && !Whole(r))
    case ControlRelaxed => One(a == Control && Usable(r) && r.relaxed.v > 0.0)
    case ControlMarginNotNull => One(a == Control && Usable(r) && r.margin != Null)
    case MarginMismatch => One(a != Control && Usable(r) && !HasMargin(r, s.margins[a]))
    case ScopeMismatch => One(a != Control && Usable(r) && r.scope != Text(s.scope))
    case LossyNotEnabled => One(a != Control && Usable(r) && r.enabled != Flag(true))
    case _ => 0
  }

  lemma {:induction false} OwnCharges(s: Setup, r: Row, owners: set<Arm>, a: Arm, f: Failure)
    requires a == Control || a in s.margins
    ensures OwnFailures(s, r, owners, a)[f] == OwnCharge(s, r, a in owners, a, f)
  {
    OwnSum(s, r, owners, a, f);
    if Usable(r) { UsableCharges(s, r, a in owners, a, f); }
  }

  lemma {:induction false} UsableCharges(s: Setup, r: Row, seen: bool, a: Arm, f: Failure)
    requires (a == Control || a in s.margins) && Usable(r)
    ensures OwnCharge(s, r, seen, a, f) ==
      One(!seen && f == OutsideArmCallWindows) + SettingFailures(s, r, a)[f] + One(!Whole(r) && f == IncompleteTelemetry)
  {
    if a == Control { UsableControl(s, r, seen, f); } else { UsableTreatment(s, r, seen, a, f); }
  }

  lemma {:induction false} UsableControl(s: Setup, r: Row, seen: bool, f: Failure)
    requires Usable(r)
    ensures OwnCharge(s, r, seen, Control, f) ==
      One(!seen && f == OutsideArmCallWindows) + SettingFailures(s, r, Control)[f] + One(!Whole(r) && f == IncompleteTelemetry)
  {
    ControlSum(s, r, f);
  }

  lemma {:induction false} UsableTreatment(s: Setup, r: Row, seen: bool, a: Arm, f: Failure)
    requires a != Control && a in s.margins && Usable(r)
    ensures OwnCharge(s, r, seen, a, f) ==
      One(!seen && f == OutsideArmCallWindows) + SettingFailures(s, r, a)[f] + One(!Whole(r) && f == IncompleteTelemetry)
  {
    TreatmentSum(s, r, a, f);
  }

  lemma {:induction false} FailuresSum(s: Setup, r: Row, owners: set<Arm>, a: Arm, f: Failure)
    requires SetupOk(s) && a in s.arms && r.verify && Measured(r.time) && owners == OwnersAt(s, s.calls, r.time.v)
    ensures FailuresOf(s, r, a)[f] ==
      Contamination(s, r, owners, a)[f] + (if ClassOf(s, r) == Counted(a) then OwnFailures(s, r, owners, a)[f] else 0)
      + One(ClassOf(s, r) == Unattributed && a in owners && a != Control && f == LabelOrArmWindowMismatch)
  {
    IfCounts(a in owners && a != Control, LabelOrArmWindowMismatch, f);
  }

  /**
   Every row charges an arm with exactly these failures: control for a label in
   its window, the arm it counts for with what is wrong about it, and, when it
   counts for none, the treatments whose window it is in.
   */
  lemma {:induction false} ChargesAre(s: Setup, r: Row, a: Arm, f: Failure)
    requires SetupOk(s) && a in s.arms
    ensures FailuresOf(s, r, a)[f] ==
      (if a == Control && Spoils(s, r) then SpoilCharge(s, r, f) else 0)
      + (if CountsFor(s, r, a) then OwnCharge(s, r, Seen(s, s.calls, a, r.time.v), a, f) else 0)
      + One(Orphan(s, r) && a != Control && Seen(s, s.calls, a, r.time.v) && f == LabelOrArmWindowMismatch)
  {
    CountedIff(s, r, a);
    OrphanIff(s, r);
    if r.verify && Measured(r.time) {
      var owners := OwnersAt(s, s.calls, r.time.v);
      OwnersAreSeen(s, s.calls, r.time.v);
      FailuresSum(s, r, owners, a, f);
      if a == Control && Spoils(s, r) { SpoilsCharges(s, r, owners, f); }
      OwnCharges(s, r, owners, a, f);
    }
  }

  lemma {:induction false} TwoMembers(arms: set<Arm>)
    ensures |arms| > 1 <==> exists a, b :: a in arms && b in arms && a != b
  {
    if a, b :| a in arms && b in arms && a != b {
      assert {a, b} <= arms;
      SubsetSize({a, b}, arms);
    }
    if |arms| > 1 {
      var a :| a in arms;
      assert |arms - {a}| == |arms| - 1;
      var b :| b in arms - {a};
    }
  }

  /** More than one arm is seen at a time exactly when two are. */
  lemma {:induction false} OverlapIff(s: Setup, t: real)
    ensures |OwnersAt(s, s.calls, t)| > 1 <==> exists a, b :: a != b && Seen(s, s.calls, a, t) && Seen(s, s.calls, b, t)
  {
    OwnersAreSeen(s, s.calls, t);
    TwoMembers(OwnersAt(s, s.calls, t));
    if a, b :| a != b && Seen(s, s.calls, a, t) && Seen(s, s.calls, b, t) {
      assert a in OwnersAt(s, s.calls, t) && b in OwnersAt(s, s.calls, t);
    }
  }
}
