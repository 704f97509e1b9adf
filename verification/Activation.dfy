/**
 activation of bench/spec_think_tasks_report.py: telemetry rows are attributed
 to the arm whose call windows and label they carry, and the verdict says
 whether every arm was exercised, and only as intended.
 */
module Activation {
  import opened Common

  datatype Arm = Control | Treatment(name: string)

  /** A scalar of a telemetry record. */
  datatype Field = Absent | Null | Number(v: real) | Text(s: string) | Flag(b: bool)

  datatype Row = Row(verify: bool, time: Field, tag: Field, relaxed: Field, margin: Field, scope: Field,
                     enabled: Field, eligible: Field, dropped: Field, writerError: Field)

  /** A call of one arm. */
  datatype Window = Window(arm: Arm, start: real, end: real)

  datatype Setup = Setup(arms: set<Arm>, margins: map<Arm, real>, labelArms: map<string, Arm>, scope: string,
                         slack: real, calls: seq<Window>, extras: seq<Window>, passes: seq<(real, real)>)

  datatype Failure =
    | LabelOrArmWindowMismatch
    | TreatmentLabelInControlWindow
    | ControlRelaxed
    | MissingOrInvalidRelaxed
    | ControlMarginNotNull
    | OutsideArmCallWindows
    | MarginMismatch
    | ScopeMismatch
    | LossyNotEnabled
    | IncompleteTelemetry
    | MissingLabelRows
    | NoRelaxation

  datatype Proof = Proof(rows: nat, relaxed: real, failures: multiset<Failure>)

  datatype Probe = Probe(rows: nat, relaxed: real)

  datatype Tally = Tally(proofs: map<Arm, Proof>, probes: map<Arm, Probe>, other: nat, ignored: nat, invalidTime: nat, overlap: nat)

  datatype Error = InputError

  /** What the report builder passes: selected arms with control, windows of selected arms, one label per treatment. */
  ghost predicate SetupOk(s: Setup) {
    && Control in s.arms
    && (forall a :: a in s.arms && a != Control ==> a in s.margins)
    && (forall w :: w in s.calls || w in s.extras ==> w.arm in s.arms)
    && (forall l :: l in s.labelArms ==> l != "" && s.labelArms[l] in s.arms && s.labelArms[l] != Control)
  }

  // ---------- Reading a row ----------

  /** A non-negative number, which a flag is not. */
  predicate Measured(f: Field) { f.Number? && f.v >= 0.0 }

  /** Equality with a number, where a flag counts as zero or one. */
  predicate Equals(f: Field, v: real) {
    match f
    case Number(x) => x == v
    case Flag(b) => v == if b then 1.0 else 0.0
    case _ => false
  }

  predicate Near(s: Setup, w: Window, t: real) { w.start - s.slack <= t <= w.end + s.slack }

  function OwnersAt(s: Setup, windows: seq<Window>, t: real): set<Arm> {
    set w | w in windows && Near(s, w, t) :: w.arm
  }

  function LabelArm(s: Setup, tag: Field): Option<Arm> {
    if tag.Text? && tag.s in s.labelArms then Some(s.labelArms[tag.s]) else None
  }

  predicate InPass(s: Setup, t: real) {
    exists i :: 0 <= i < |s.passes| && s.passes[i].0 <= t <= s.passes[i].1
  }

  // ---------- Where a row belongs ----------

  datatype Class = Ignored | InvalidTime | Other | ProbeOf(arm: Arm) | Counted(arm: Arm) | Unattributed

  /** The arm a probe row is charged to: its label's, or the only one there is. */
  ghost predicate ProbeOwner(s: Setup, r: Row, extras: set<Arm>, a: Arm) {
    var l := LabelArm(s, r.tag);
    if l.Some? && l.value in extras then a == l.value else extras == {a}
  }

  /** The arm that owns a row seen in call windows, or labelled during a pass. */
  function OwnArm(s: Setup, r: Row, owners: set<Arm>): Option<Arm> {
    var l := LabelArm(s, r.tag);
    if l.Some? then l else if r.tag == Text("") && Control in owners then Some(Control) else None
  }

  ghost predicate Belongs(s: Setup, r: Row, c: Class) {
    if !r.verify then c == Ignored
    else if !Measured(r.time) then c == InvalidTime
    else
      var t := r.time.v;
      var owners, extras, l := OwnersAt(s, s.calls, t), OwnersAt(s, s.extras, t), LabelArm(s, r.tag);
      if owners != {} || (extras == {} && l.Some? && InPass(s, t)) then
        match OwnArm(s, r, owners)
        case Some(a) => c == Counted(a)
        case None => c == Unattributed
      else
        match c
        case ProbeOf(a) => ProbeOwner(s, r, extras, a)
        case Other => forall a :: !ProbeOwner(s, r, extras, a)
        case _ => false
  }

  lemma {:induction false} OneClass(s: Setup, r: Row, c: Class, d: Class)
    requires Belongs(s, r, c) && Belongs(s, r, d)
    ensures c == d
  {
  }

  lemma {:induction false} SomeClass(s: Setup, r: Row)
    ensures exists c :: Belongs(s, r, c)
  {
    if !r.verify {
      assert Belongs(s, r, Ignored);
    } else if !Measured(r.time) {
      assert Belongs(s, r, InvalidTime);
    } else {
      var t := r.time.v;
      var owners, extras, l := OwnersAt(s, s.calls, t), OwnersAt(s, s.extras, t), LabelArm(s, r.tag);
      if owners != {} || (extras == {} && l.Some? && InPass(s, t)) {
        match OwnArm(s, r, owners)
        case Some(a) => assert Belongs(s, r, Counted(a));
        case None => assert Belongs(s, r, Unattributed);
      } else if exists a :: ProbeOwner(s, r, extras, a) {
        var a :| ProbeOwner(s, r, extras, a);
        assert Belongs(s, r, ProbeOf(a));
      } else {
        assert Belongs(s, r, Other);
      }
    }
  }

  /** The one class of a row. */
  ghost function ClassOf(s: Setup, r: Row): Class {
    SomeClass(s, r);
    var c :| Belongs(s, r, c);
    c
  }

  lemma {:induction false} ClassIs(s: Setup, r: Row, c: Class)
    requires Belongs(s, r, c)
    ensures ClassOf(s, r) == c
  {
    OneClass(s, r, c, ClassOf(s, r));
  }

  lemma {:induction false} ClassBelongs(s: Setup, r: Row)
    ensures Belongs(s, r, ClassOf(s, r))
  {
  }

  // ---------- What a row is charged with ----------

  function If(condition: bool, f: Failure): multiset<Failure> { if condition then multiset{f} else multiset{} }

  function RelaxedFailures(r: Row): multiset<Failure> {
    if Measured(r.relaxed) then If(r.relaxed.v != 0.0, ControlRelaxed) else multiset{MissingOrInvalidRelaxed}
  }

  /** A labelled row inside a control window spoils the control arm. */
  function Contamination(s: Setup, r: Row, owners: set<Arm>, a: Arm): multiset<Failure> {
    if a == Control && Control in owners && r.tag != Text("")
    then multiset{LabelOrArmWindowMismatch} + If(LabelArm(s, r.tag).Some?, TreatmentLabelInControlWindow)
         + RelaxedFailures(r) + If(r.margin != Null, ControlMarginNotNull)
    else multiset{}
  }

  predicate Complete(r: Row) {
    r.eligible == Flag(true) && Equals(r.dropped, 0.0) && (r.writerError == Absent || r.writerError == Null)
  }

  function SettingFailures(s: Setup, r: Row, a: Arm): multiset<Failure>
    requires a == Control || a in s.margins
  {
    if a == Control then RelaxedFailures(r) + If(r.margin != Null, ControlMarginNotNull)
    else If(!Equals(r.margin, s.margins[a]), MarginMismatch) + If(r.scope != Text(s.scope), ScopeMismatch)
         + If(r.enabled != Flag(true), LossyNotEnabled)
  }

  /** A row counted for its own arm. */
  function OwnFailures(s: Setup, r: Row, owners: set<Arm>, a: Arm): multiset<Failure>
    requires a == Control || a in s.margins
  {
    If(a !in owners, OutsideArmCallWindows) +
    if !Measured(r.relaxed) then multiset{MissingOrInvalidRelaxed}
    else SettingFailures(s, r, a) + If(!Complete(r), IncompleteTelemetry)
  }

  /** Everything row r adds to the failures of arm a. */
  ghost function FailuresOf(s: Setup, r: Row, a: Arm): multiset<Failure>
    requires SetupOk(s) && a in s.arms
  {
    if !r.verify || !Measured(r.time) then multiset{}
    else
      var owners := OwnersAt(s, s.calls, r.time.v);
      Contamination(s, r, owners, a) +
      (if ClassOf(s, r) == Counted(a) then OwnFailures(s, r, owners, a) else multiset{}) +
      (if ClassOf(s, r) == Unattributed then If(a in owners && a != Control, LabelOrArmWindowMismatch) else multiset{})
  }

  // ---------- What a clean row is ----------

  /** A row that speaks against no arm. */
  ghost predicate Clean(s: Setup, r: Row)
    requires SetupOk(s)
  {
    r.verify && Measured(r.time) ==>
      var owners, l := OwnersAt(s, s.calls, r.time.v), LabelArm(s, r.tag);
      // In a control window: unlabelled, unrelaxed, without a margin.
      && (Control in owners ==> r.tag == Text("") && Equals(r.relaxed, 0.0) && r.relaxed.Number? && r.margin == Null && Complete(r))
      // Counted for a treatment: in its windows, with its margin and scope.
      && (l.Some? && ClassOf(s, r) == Counted(l.value) ==>
            && l.value in owners && Measured(r.relaxed) && Equals(r.margin, s.margins[l.value])
            && r.scope == Text(s.scope) && r.enabled == Flag(true) && Complete(r))
      // In treatment windows only: labelled.
      && (owners != {} && Control !in owners ==> l.Some?)
  }

  lemma {:induction false} LabelledIsTreatment(s: Setup, r: Row)
    requires SetupOk(s) && LabelArm(s, r.tag).Some?
    ensures LabelArm(s, r.tag).value in s.arms && LabelArm(s, r.tag).value != Control && r.tag != Text("")
  {
  }

  /** A row adds no failure to any arm exactly when it is clean. */
  lemma {:induction false} CleanIff(s: Setup, r: Row)
    requires SetupOk(s)
    ensures Clean(s, r) <==> forall a :: a in s.arms ==> FailuresOf(s, r, a) == multiset{}
  {
    if r.verify && Measured(r.time) {
      var owners, l := OwnersAt(s, s.calls, r.time.v), LabelArm(s, r.tag);
      if l.Some? { LabelledIsTreatment(s, r); }
      if Clean(s, r) {
        forall a | a in s.arms ensures FailuresOf(s, r, a) == multiset{} { CleanAddsNothing(s, r, owners, a); }
      } else {
        var a := DirtyAddsSomething(s, r, owners);
        assert FailuresOf(s, r, a) != multiset{};
      }
    }
  }

  lemma {:induction false} CleanAddsNothing(s: Setup, r: Row, owners: set<Arm>, a: Arm)
    requires SetupOk(s) && Clean(s, r) && a in s.arms
    requires r.verify && Measured(r.time) && owners == OwnersAt(s, s.calls, r.time.v)
    ensures FailuresOf(s, r, a) == multiset{}
  {
    var l := LabelArm(s, r.tag);
    if l.Some? { LabelledIsTreatment(s, r); }
    assert Contamination(s, r, owners, a) == multiset{};
    if ClassOf(s, r) == Counted(a) { assert OwnFailures(s, r, owners, a) == multiset{}; }
  }

  lemma {:induction false} DirtyControl(s: Setup, r: Row, owners: set<Arm>)
    requires SetupOk(s) && !Clean(s, r) && Control in owners
    requires r.verify && Measured(r.time) && owners == OwnersAt(s, s.calls, r.time.v)
    ensures FailuresOf(s, r, Control) != multiset{}
  {
    if r.tag != Text("") {
      assert LabelOrArmWindowMismatch in Contamination(s, r, owners, Control);
    } else {
      ClassIs(s, r, Counted(Control));
      assert OwnFailures(s, r, owners, Control) != multiset{};
    }
  }

  lemma {:induction false} DirtyTreatment(s: Setup, r: Row, owners: set<Arm>) returns (a: Arm)
    requires SetupOk(s) && !Clean(s, r) && Control !in owners
    requires r.verify && Measured(r.time) && owners == OwnersAt(s, s.calls, r.time.v)
    ensures a in s.arms && FailuresOf(s, r, a) != multiset{}
  {
    var l := LabelArm(s, r.tag);
    if l.Some? {
      LabelledIsTreatment(s, r);
      a := l.value;
      ClassBelongs(s, r);
      assert ClassOf(s, r) == Counted(a);
      assert OwnFailures(s, r, owners, a) != multiset{};
    } else {
      a :| a in owners;
      ClassIs(s, r, Unattributed);
    }
  }

  lemma {:induction false} DirtyAddsSomething(s: Setup, r: Row, owners: set<Arm>) returns (a: Arm)
    requires SetupOk(s) && !Clean(s, r)
    requires r.verify && Measured(r.time) && owners == OwnersAt(s, s.calls, r.time.v)
    ensures a in s.arms && FailuresOf(s, r, a) != multiset{}
  {
    if Control in owners {
      a := Control;
      DirtyControl(s, r, owners);
    } else {
      a := DirtyTreatment(s, r, owners);
    }
  }
}
