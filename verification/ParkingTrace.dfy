/**
 The parking protocol seen from outside. What every call returns is determined
 by the calls and the answers before it: this file says how, without the
 state machine, and proves it of every run.
 */
module ParkingTrace {
  import opened Common
  import opened Parking
  import opened ParkingRing
  import opened ParkingRuns
  import opened ParkingSafety

  /** Calls with what they returned, oldest first. */
  type Past = seq<(Event, Output)>

  // ---------- What can be read off the past ----------

  /** A park or arm call that was not refused. */
  predicate Asks(p: (Event, Output)) { (p.0.DoPark? || p.0.DoArm?) && p.1 == Quiet }

  function Asked(past: Past): nat {
    if past == [] then 0 else Asked(past[..|past| - 1]) + One(Asks(past[|past| - 1]))
  }

  /** All steps issued, in order. */
  function IssuedSteps(past: Past): seq<Step> {
    if past == [] then []
    else IssuedSteps(past[..|past| - 1]) + match past[|past| - 1].1 case Issued(step) => [step] case _ => []
  }

  /** How many of them were taken off the queue. */
  function Taken(past: Past): nat {
    if past == [] then 0
    else Taken(past[..|past| - 1]) + One(past[|past| - 1].0.DoExecute? && past[|past| - 1].1 != Failed(NotFifo))
  }

  predicate Over(past: Past) { exists i :: 0 <= i < |past| && past[i].0 == DoCancel }

  predicate LastAsk(past: Past, i: int) {
    0 <= i < |past| && Asks(past[i]) && forall j :: i < j < |past| ==> !Asks(past[j])
  }

  ghost predicate LastAskIs(past: Past, e: Event) { exists i :: LastAsk(past, i) && past[i].0 == e }

  /** Nothing was asked for yet, or an arm was last, and an acknowledgement of it has been accepted since. */
  ghost predicate Drafting(past: Past) {
    (forall i :: 0 <= i < |past| ==> !Asks(past[i])) ||
    exists i, k :: LastAsk(past, i) && past[i].0 == DoArm && i < k < |past| && past[k].1 == Accepted(true)
  }

  /** The call committed rows. */
  predicate Committed(p: (Event, Output)) { p.0.DoExecute? && p.1.Acked? && p.1.ack.reason != Cancelled }

  function PositionAfter(computed: int, past: Past): int {
    if past == [] then computed
    else
      var p := past[|past| - 1];
      PositionAfter(computed, past[..|past| - 1]) + if Committed(p) then p.0.accepted + 1 else 0
  }

  /** Up to where prefixes may be published: the position after the last commit that maintained the context. */
  function BuiltTo(strategy: Strategy, computed: int, past: Past): int {
    if past == [] then computed
    else
      var p := past[|past| - 1];
      if Committed(p) && (strategy == Eager || p.0.step.action != ParkStep) then PositionAfter(computed, past)
      else BuiltTo(strategy, computed, past[..|past| - 1])
  }

  /** Commits that drafted. */
  function Passes(past: Past): nat {
    if past == [] then 0
    else Passes(past[..|past| - 1]) + One(Committed(past[|past| - 1]) && past[|past| - 1].0.step.action != ParkStep)
  }

  /** What the last committed step was for; a request begins active. */
  function ModeAfter(past: Past): WorkerMode {
    if past == [] then ModeActive
    else if Committed(past[|past| - 1]) then
      match past[|past| - 1].0.step.action
      case ParkStep => ModeParked
      case ArmStep => ModeArmed
      case ActiveStep => ModeActive
    else ModeAfter(past[..|past| - 1])
  }

  // ---------- What a call returns ----------

  /** The step that a schedule call issues. */
  ghost predicate StepAfter(owner: Owner, past: Past, cap: int, step: Step) {
    && step.owner == owner && step.sequence == |IssuedSteps(past)| && step.intent == Asked(past)
    && (step.action == ActiveStep <==> Drafting(past))
    && (step.action == ParkStep <==> LastAskIs(past, DoPark))
    && step.cap == if Drafting(past) then cap else 0
  }

  /** The answer to executing a step. */
  function ExecuteAfter(owner: Owner, computed: int, past: Past, step: Step, accepted: int, given: Option<seq<Row>>): Output {
    var n, at := Taken(past), PositionAfter(computed, past);
    if n >= |IssuedSteps(past)| || IssuedSteps(past)[n] != step then Failed(NotFifo)
    else if Over(past) then Acked(Ack(owner, n, step.intent, false, at, Cancelled))
    else if !(0 <= accepted <= step.cap) then Failed(InvalidArgument)
    else if given.Some? && |given.value| != step.cap + 1 then Failed(WrongRowCount)
    else Acked(Ack(owner, n, step.intent, step.action != ParkStep, at + accepted + 1, NoReason))
  }

  ghost predicate Explained(config: Config, computed: int, past: Past, e: Event, o: Output) {
    match e
    case DoPark => o == if Over(past) then Failed(RequestClosed) else Quiet
    case DoArm => o == if Over(past) then Failed(RequestClosed) else Quiet
    case DoSchedule(cap) =>
      if Over(past) || (cap != 1 && cap != 3 && cap != 5 && cap != 7) then o == Failed(InvalidCap)
      else o.Issued? && StepAfter(config.owner, past, cap, o.step)
    case DoExecute(step, accepted, given) => o == ExecuteAfter(config.owner, computed, past, step, accepted, given)
    case DoReceive(ack) =>
      o == Accepted(!Over(past) && ack.owner == config.owner && ack.intent == Asked(past) && ack.draftingReady
                    && LastAskIs(past, DoArm) && !Drafting(past))
    case DoPublish(end) => o == if end > BuiltTo(config.strategy, computed, past) then Failed(PrefixNotMaterialized) else Quiet
    case DoCancel => o == Quiet
  }

  // ---------- The state is what the past says ----------

  ghost predicate SchedulerReflects(q: Scheduler, past: Past) {
    && q.intent == Asked(past) && q.nextSequence == |IssuedSteps(past)| && (q.closed <==> Over(past))
    && (q.desired == WantParked <==> LastAskIs(past, DoPark))
    && (q.desired == WantActive <==> Drafting(past))
    && (q.desired == WantArming <==> LastAskIs(past, DoArm) && !Drafting(past))
  }

  /** The queue holds the steps issued and not yet taken, each numbered by its place. */
  ghost predicate QueueReflects(pending: seq<Step>, owner: Owner, past: Past) {
    && Taken(past) <= |IssuedSteps(past)| && pending == IssuedSteps(past)[Taken(past)..]
    && forall i :: 0 <= i < |IssuedSteps(past)| ==> IssuedSteps(past)[i].sequence == i && IssuedSteps(past)[i].owner == owner
  }

  ghost predicate WorkerReflects(strategy: Strategy, computed: int, w: Worker, past: Past) {
    && w.computed == PositionAfter(computed, past) && w.materialized == Some(BuiltTo(strategy, computed, past))
    && w.queryPasses == Passes(past) && w.mode == ModeAfter(past)
    && w.proposalAnchor == if Over(past) || ModeAfter(past) == ModeParked then None else Some(PositionAfter(computed, past))
  }

  ghost predicate Reflects(config: Config, computed: int, s: State, past: Past) {
    && s.config == config && SchedulerReflects(s.sched, past)
    && QueueReflects(s.pending, config.owner, past) && WorkerReflects(config.strategy, computed, s.worker, past)
  }

  // ---------- One more call ----------

  lemma {:induction false} LastAppends(past: Past, p: (Event, Output), e: Event)
    ensures LastAskIs(past + [p], e) <==> if Asks(p) then p.0 == e else LastAskIs(past, e)
  {
    var more := past + [p];
    assert more[|past|] == p;
    if Asks(p) {
      assert LastAsk(more, |past|);
    } else {
      forall i | 0 <= i < |past| ensures LastAsk(more, i) <==> LastAsk(past, i) {
        assert more[i] == past[i];
        if LastAsk(more, i) { forall j | i < j < |past| ensures !Asks(past[j]) { assert more[j] == past[j]; } }
      }
      if LastAskIs(past, e) {
        var i :| LastAsk(past, i) && past[i].0 == e;
        assert LastAsk(more, i) && more[i].0 == e;
      }
    }
  }

  lemma {:induction false} OverAppends(past: Past, p: (Event, Output))
    ensures Over(past + [p]) <==> Over(past) || p.0 == DoCancel
  {
    var more := past + [p];
    assert more[|past|] == p;
    if Over(past) {
      var i :| 0 <= i < |past| && past[i].0 == DoCancel;
      assert more[i].0 == DoCancel;
    }
  }

  /** Nothing asked for, as far as the past goes. */
  predicate NoneAsked(past: Past) { forall i :: 0 <= i < |past| ==> !Asks(past[i]) }

  lemma {:induction false} NoneAppends(past: Past, p: (Event, Output))
    ensures NoneAsked(past + [p]) <==> NoneAsked(past) && !Asks(p)
  {
    var more := past + [p];
    assert more[|past|] == p;
    if NoneAsked(more) { forall i | 0 <= i < |past| ensures !Asks(past[i]) { assert more[i] == past[i]; } }
  }

  /** In a past with an arm last, whatever is accepted afterwards starts drafting. */
  lemma {:induction false} DraftingNow(past: Past, p: (Event, Output))
    requires !Asks(p) && p.1 == Accepted(true) && LastAskIs(past, DoArm)
    ensures Drafting(past + [p])
  {
    var more := past + [p];
    LastAppends(past, p, DoArm);
    var i :| LastAsk(more, i) && more[i].0 == DoArm;
    assert more[|past|] == p && !Asks(more[|past|]);
    assert LastAsk(more, i) && more[i].0 == DoArm && i < |past| < |more| && more[|past|].1 == Accepted(true);
  }

  lemma {:induction false} DraftingStays(past: Past, p: (Event, Output))
    requires !Asks(p) && Drafting(past)
    ensures Drafting(past + [p])
  {
    var more := past + [p];
    if NoneAsked(past) {
      NoneAppends(past, p);
    } else {
      var i, k :| LastAsk(past, i) && past[i].0 == DoArm && i < k < |past| && past[k].1 == Accepted(true);
      forall j | i < j < |more| ensures !Asks(more[j]) { assert more[j] == if j < |past| then past[j] else p; }
      assert more[i] == past[i] && more[k] == past[k];
      assert LastAsk(more, i) && more[i].0 == DoArm && i < k < |more| && more[k].1 == Accepted(true);
    }
  }

  /** Nothing but an acceptance starts drafting. */
  lemma {:induction false} DraftingWasSo(past: Past, p: (Event, Output))
    requires p.1 != Accepted(true) && Drafting(past + [p])
    ensures !Asks(p) && Drafting(past)
  {
    var more := past + [p];
    assert more[|past|] == p;
    if NoneAsked(more) {
      NoneAppends(past, p);
    } else {
      var i, k :| LastAsk(more, i) && more[i].0 == DoArm && i < k < |more| && more[k].1 == Accepted(true);
      assert more[i] == past[i] && more[k] == past[k];
      forall j | i < j < |past| ensures !Asks(past[j]) { assert more[j] == past[j]; }
      assert LastAsk(past, i) && past[i].0 == DoArm && i < k < |past| && past[k].1 == Accepted(true);
    }
  }

  /** What is read off one call more. */
  lemma {:induction false} CountsAppend(past: Past, p: (Event, Output), computed: int)
    ensures Asked(past + [p]) == Asked(past) + One(Asks(p))
    ensures IssuedSteps(past + [p]) == IssuedSteps(past) + match p.1 case Issued(step) => [step] case _ => []
    ensures Taken(past + [p]) == Taken(past) + One(p.0.DoExecute? && p.1 != Failed(NotFifo))
    ensures PositionAfter(computed, past + [p]) == PositionAfter(computed, past) + if Committed(p) then p.0.accepted + 1 else 0
    ensures Passes(past + [p]) == Passes(past) + One(Committed(p) && p.0.step.action != ParkStep)
  {
    assert (past + [p])[..|past|] == past;
  }

  lemma {:induction false} ModeAppends(past: Past, p: (Event, Output))
    ensures ModeAfter(past + [p]) ==
      if !Committed(p) then ModeAfter(past)
      else match p.0.step.action case ParkStep => ModeParked case ArmStep => ModeArmed case ActiveStep => ModeActive
  {
    assert (past + [p])[..|past|] == past;
  }

  lemma {:induction false} BuiltAppends(past: Past, p: (Event, Output), strategy: Strategy, computed: int)
    ensures BuiltTo(strategy, computed, past + [p]) ==
      if Committed(p) && (strategy == Eager || p.0.step.action != ParkStep) then PositionAfter(computed, past + [p])
      else BuiltTo(strategy, computed, past)
  {
    assert (past + [p])[..|past|] == past;
  }

  // ---------- Every call is explained, and reflected ----------

  lemma {:induction false} SameScheduler(q: Scheduler, past: Past, p: (Event, Output))
    requires SchedulerReflects(q, past) && !Asks(p) && !p.1.Issued? && p.1 != Accepted(true) && p.0 != DoCancel
    ensures SchedulerReflects(q, past + [p])
  {
    CountsAppend(past, p, 0);
    OverAppends(past, p);
    LastAppends(past, p, DoPark);
    LastAppends(past, p, DoArm);
    if Drafting(past) { DraftingStays(past, p); }
    if Drafting(past + [p]) { DraftingWasSo(past, p); }
  }

  lemma {:induction false} SameQueue(pending: seq<Step>, owner: Owner, past: Past, p: (Event, Output))
    requires QueueReflects(pending, owner, past) && !p.1.Issued? && !(p.0.DoExecute? && p.1 != Failed(NotFifo))
    ensures QueueReflects(pending, owner, past + [p])
  {
    CountsAppend(past, p, 0);
  }

  lemma {:induction false} SameWorker(strategy: Strategy, computed: int, w: Worker, past: Past, p: (Event, Output))
    requires WorkerReflects(strategy, computed, w, past) && !Committed(p) && p.0 != DoCancel
    ensures WorkerReflects(strategy, computed, w, past + [p])
  {
    OverAppends(past, p);
    ModeAppends(past, p);
    CountsAppend(past, p, computed);
    BuiltAppends(past, p, strategy, computed);
  }

  lemma {:induction false} CancelledWorker(strategy: Strategy, computed: int, w: Worker, past: Past)
    requires WorkerReflects(strategy, computed, w, past)
    ensures WorkerReflects(strategy, computed, w.(proposalAnchor := None), past + [(DoCancel, Quiet)])
  {
    var p := (DoCancel, Quiet);
    OverAppends(past, p);
    ModeAppends(past, p);
    CountsAppend(past, p, computed);
    BuiltAppends(past, p, strategy, computed);
  }

  /** A park or an arm that is not refused. */
  lemma {:induction false} AskReflects(q: Scheduler, q': Scheduler, past: Past, e: Event)
    requires SchedulerReflects(q, past) && (e.DoPark? || e.DoArm?)
    requires q' == q.(intent := q.intent + 1, desired := if e.DoPark? then WantParked else WantArming, ready := false)
    ensures SchedulerReflects(q', past + [(e, Quiet)])
  {
    var p := (e, Quiet);
    CountsAppend(past, p, 0);
    OverAppends(past, p);
    LastAppends(past, p, DoPark);
    LastAppends(past, p, DoArm);
    if Drafting(past + [p]) { DraftingWasSo(past, p); }
  }

  lemma {:induction false} CancelReflects(q: Scheduler, past: Past)
    requires SchedulerReflects(q, past)
    ensures SchedulerReflects(q.(closed := true, ready := false), past + [(DoCancel, Quiet)])
  {
    var p := (DoCancel, Quiet);
    CountsAppend(past, p, 0);
    OverAppends(past, p);
    LastAppends(past, p, DoPark);
    LastAppends(past, p, DoArm);
    if Drafting(past) { DraftingStays(past, p); }
    if Drafting(past + [p]) { DraftingWasSo(past, p); }
  }

  lemma {:induction false} AcceptReflects(q: Scheduler, past: Past, ack: Ack)
    requires SchedulerReflects(q, past) && q.desired == WantArming
    ensures SchedulerReflects(q.(desired := WantActive, ready := true), past + [(DoReceive(ack), Accepted(true))])
  {
    var p := (DoReceive(ack), Accepted(true));
    CountsAppend(past, p, 0);
    OverAppends(past, p);
    LastAppends(past, p, DoPark);
    LastAppends(past, p, DoArm);
    DraftingNow(past, p);
  }

  lemma {:induction false} IssueReflects(q: Scheduler, past: Past, cap: int, step: Step)
    requires SchedulerReflects(q, past)
    ensures SchedulerReflects(q.(nextSequence := q.nextSequence + 1), past + [(DoSchedule(cap), Issued(step))])
  {
    var p := (DoSchedule(cap), Issued(step));
    CountsAppend(past, p, 0);
    OverAppends(past, p);
    LastAppends(past, p, DoPark);
    LastAppends(past, p, DoArm);
    if Drafting(past) { DraftingStays(past, p); }
    if Drafting(past + [p]) { DraftingWasSo(past, p); }
  }

  lemma {:induction false} IssueQueues(pending: seq<Step>, owner: Owner, past: Past, cap: int, step: Step)
    requires QueueReflects(pending, owner, past) && step.owner == owner && step.sequence == |IssuedSteps(past)|
    ensures QueueReflects(pending + [step], owner, past + [(DoSchedule(cap), Issued(step))])
  {
    var all, more := IssuedSteps(past), IssuedSteps(past + [(DoSchedule(cap), Issued(step))]);
    CountsAppend(past, (DoSchedule(cap), Issued(step)), 0);
    assert more == all + [step];
    forall i | 0 <= i < |more| ensures more[i].sequence == i && more[i].owner == owner {
      assert i < |all| ==> more[i] == all[i];
    }
    assert more[Taken(past)..] == all[Taken(past)..] + [step];
  }

  lemma {:induction false} TakeQueues(pending: seq<Step>, owner: Owner, past: Past, p: (Event, Output))
    requires QueueReflects(pending, owner, past) && pending != []
    requires p.0.DoExecute? && p.1 != Failed(NotFifo) && !p.1.Issued?
    ensures QueueReflects(pending[1..], owner, past + [p])
    ensures Taken(past) < |IssuedSteps(past)| && pending[0] == IssuedSteps(past)[Taken(past)]
    ensures pending[0].sequence == Taken(past) && pending[0].owner == owner
  {
    CountsAppend(past, p, 0);
  }

  /** What a commit leaves, whatever was retained or rebuilt for it. */
  lemma {:induction false} CommitEffect(c: Config, w: Worker, h: History, action: Action, values: seq<Row>)
    requires RingOk(c, w, h) && ContextOk(c, w, h) && |values| >= 1
    ensures var (t, ready) := Commit(c, w, action, values);
      && t.computed == w.computed + |values| && (ready <==> action != ParkStep)
      && t.materialized == (if c.strategy == Eager || action != ParkStep then Some(t.computed) else w.materialized)
      && t.queryPasses == w.queryPasses + One(action != ParkStep)
      && t.mode == (match action case ParkStep => ModeParked case ArmStep => ModeArmed case ActiveStep => ModeActive)
      && t.proposalAnchor == if action == ParkStep then None else Some(t.computed)
  {
    CommitKeeps(c, w, h, action, values);
  }

  lemma {:induction false} CommitReflects(c: Config, computed: int, w: Worker, h: History, past: Past, e: Event, ack: Ack, values: seq<Row>)
    requires WorkerReflects(c.strategy, computed, w, past) && RingOk(c, w, h) && ContextOk(c, w, h)
    requires e.DoExecute? && |values| == e.accepted + 1 >= 1 && ack.reason != Cancelled && !Over(past)
    ensures WorkerReflects(c.strategy, computed, Commit(c, w, e.step.action, values).0, past + [(e, Acked(ack))])
  {
    var p := (e, Acked(ack));
    CommitEffect(c, w, h, e.step.action, values);
    CountsAppend(past, p, computed);
    BuiltAppends(past, p, c.strategy, computed);
    OverAppends(past, p);
    ModeAppends(past, p);
  }

  // ---------- One event ----------

  /** The answer is as it has to be after the past, and the state reflects the past with this call added. */
  ghost predicate Follows(config: Config, computed: int, past: Past, e: Event, o: Output, s: State) {
    Explained(config, computed, past, e, o) && Reflects(config, computed, s, past + [(e, o)])
  }

  /** A call that changes nothing but what the past says. */
  lemma {:induction false} SameState(config: Config, computed: int, s: State, past: Past, p: (Event, Output))
    requires Reflects(config, computed, s, past)
    requires !Asks(p) && !p.1.Issued? && p.1 != Accepted(true) && p.0 != DoCancel && !Committed(p)
    requires !(p.0.DoExecute? && p.1 != Failed(NotFifo))
    ensures Reflects(config, computed, s, past + [p])
  {
    SameScheduler(s.sched, past, p);
    SameQueue(s.pending, config.owner, past, p);
    SameWorker(config.strategy, computed, s.worker, past, p);
  }

  lemma {:induction false} AskFollows(config: Config, computed: int, w: World, past: Past, e: Event)
    requires w.s.config.chunk >= 1 && Reflects(config, computed, w.s, past) && (e.DoPark? || e.DoArm?)
    ensures Follows(config, computed, past, e, Next(w, e).1, Next(w, e).0.s)
  {
    var p := (e, Next(w, e).1);
    if w.s.sched.closed {
      SameState(config, computed, w.s, past, p);
    } else {
      AskReflects(w.s.sched, Next(w, e).0.s.sched, past, e);
      SameQueue(w.s.pending, config.owner, past, p);
      SameWorker(config.strategy, computed, w.s.worker, past, p);
    }
  }

  lemma {:induction false} IssuedIsStepAfter(owner: Owner, q: Scheduler, past: Past, cap: nat)
    requires SchedulerReflects(q, past) && (q.ready <==> q.desired == WantActive)
    ensures StepAfter(owner, past, cap, NextStep(owner, q, cap))
  {
  }

  lemma {:induction false} ScheduleFollows(config: Config, computed: int, w: World, past: Past, cap: int)
    requires Inv(w) && Reflects(config, computed, w.s, past)
    ensures var e := DoSchedule(cap); Follows(config, computed, past, e, Next(w, e).1, Next(w, e).0.s)
  {
    var p := (DoSchedule(cap), Next(w, DoSchedule(cap)).1);
    if w.s.sched.closed || cap !in CAPS {
      SameState(config, computed, w.s, past, p);
    } else {
      var step := NextStep(config.owner, w.s.sched, cap);
      IssuedIsStepAfter(config.owner, w.s.sched, past, cap);
      IssueReflects(w.s.sched, past, cap, step);
      IssueQueues(w.s.pending, config.owner, past, cap, step);
      SameWorker(config.strategy, computed, w.s.worker, past, p);
    }
  }

  lemma {:induction false} ReceiveFollows(config: Config, computed: int, w: World, past: Past, ack: Ack)
    requires w.s.config.chunk >= 1 && Reflects(config, computed, w.s, past)
    ensures var e := DoReceive(ack); Follows(config, computed, past, e, Next(w, e).1, Next(w, e).0.s)
  {
    var p := (DoReceive(ack), Next(w, DoReceive(ack)).1);
    if p.1 == Accepted(true) {
      AcceptReflects(w.s.sched, past, ack);
      SameQueue(w.s.pending, config.owner, past, p);
      SameWorker(config.strategy, computed, w.s.worker, past, p);
    } else {
      SameState(config, computed, w.s, past, p);
    }
  }

  lemma {:induction false} CancelFollows(config: Config, computed: int, w: World, past: Past)
    requires w.s.config.chunk >= 1 && Reflects(config, computed, w.s, past)
    ensures Follows(config, computed, past, DoCancel, Next(w, DoCancel).1, Next(w, DoCancel).0.s)
  {
    var p := (DoCancel, Quiet);
    CancelReflects(w.s.sched, past);
    SameQueue(w.s.pending, config.owner, past, p);
    CancelledWorker(config.strategy, computed, w.s.worker, past);
  }

  /** A step that is taken off the queue without a commit. */
  lemma {:induction false} DropFollows(config: Config, computed: int, w: World, past: Past, e: Event, o: Output)
    requires Reflects(config, computed, w.s, past) && w.s.pending != []
    requires e.DoExecute? && (o.Failed? || o.Acked?) && o != Failed(NotFifo) && !Committed((e, o))
    ensures Reflects(config, computed, Popped(w).s, past + [(e, o)])
  {
    SameScheduler(w.s.sched, past, (e, o));
    TakeQueues(w.s.pending, config.owner, past, (e, o));
    SameWorker(config.strategy, computed, w.s.worker, past, (e, o));
  }

  lemma {:induction false} CommitFollows(config: Config, computed: int, w: World, past: Past, e: Event, ack: Ack, values: seq<Row>)
    requires Inv(w) && Reflects(config, computed, w.s, past) && w.s.pending != [] && !w.s.sched.closed
    requires e.DoExecute? && |values| == e.accepted + 1 >= 1 && ack.reason != Cancelled
    ensures Reflects(config, computed, CommittedStep(Popped(w), e.step, values).s, past + [(e, Acked(ack))])
  {
    var p := (e, Acked(ack));
    SameScheduler(w.s.sched, past, p);
    TakeQueues(w.s.pending, config.owner, past, p);
    CommitReflects(config, computed, w.s.worker, w.h, past, e, ack, values);
  }

  /** Without a stale proposal only a bad count of accepted tokens or of rows is refused. */
  lemma {:induction false} RefusalIs(w: World, step: Step, accepted: int, given: Option<seq<Row>>)
    requires Inv(w) && !w.s.sched.closed && w.s.pending != [] && w.s.pending[0] == step
    ensures Refusal(w.s.config, w.s.worker, step, accepted, given) ==
      if !(0 <= accepted <= step.cap) then Some(InvalidArgument)
      else if given.Some? && |given.value| != step.cap + 1 then Some(WrongRowCount)
      else None
  {
    assert StepOk(w.s.config.owner, w.drafting, w.last, step);
    if step.cap > 0 { HeadIsFresh(w); }
  }

  lemma {:induction false} TakenIsExplained(config: Config, computed: int, w: World, past: Past, step: Step, accepted: int, given: Option<seq<Row>>)
    requires Inv(w) && Reflects(config, computed, w.s, past) && !w.s.sched.closed
    requires w.s.pending != [] && w.s.pending[0] == step && Refusal(w.s.config, w.s.worker, step, accepted, given) == None
    ensures ExecuteAfter(config.owner, computed, past, step, accepted, given)
         == Acked(Reply(step, w.s.worker.computed + accepted + 1, step.action != ParkStep))
  {
    RefusalIs(w, step, accepted, given);
    TakeQueues(w.s.pending, config.owner, past, (DoExecute(step, accepted, given), Quiet));
  }

  lemma {:induction false} TakenAnswers(w: World, step: Step, accepted: int, given: Option<seq<Row>>, values: seq<Row>)
    requires Inv(w) && !w.s.sched.closed
    requires w.s.pending != [] && w.s.pending[0] == step && Refusal(w.s.config, w.s.worker, step, accepted, given) == None
    requires values == CombinedRows(w.s.worker, step, given)[..accepted + 1]
    ensures |values| == accepted + 1 >= 1
    ensures Next(w, DoExecute(step, accepted, given))
         == (CommittedStep(Popped(w), step, values), Acked(Reply(step, w.s.worker.computed + accepted + 1, step.action != ParkStep)))
  {
    ExecuteIsCommit(w, step, accepted, given);
    CommitEffect(w.s.config, w.s.worker, w.h, step.action, values);
  }

  lemma {:induction false} TakenFollows(config: Config, computed: int, w: World, past: Past, step: Step, accepted: int, given: Option<seq<Row>>)
    requires Inv(w) && Reflects(config, computed, w.s, past) && !w.s.sched.closed
    requires w.s.pending != [] && w.s.pending[0] == step && Refusal(w.s.config, w.s.worker, step, accepted, given) == None
    ensures var e := DoExecute(step, accepted, given); Follows(config, computed, past, e, Next(w, e).1, Next(w, e).0.s)
  {
    var values := CombinedRows(w.s.worker, step, given)[..accepted + 1];
    var ack := Reply(step, w.s.worker.computed + accepted + 1, step.action != ParkStep);
    TakenAnswers(w, step, accepted, given, values);
    TakenIsExplained(config, computed, w, past, step, accepted, given);
    assert ack.reason != Cancelled;
    CommitFollows(config, computed, w, past, DoExecute(step, accepted, given), ack, values);
  }

  lemma {:induction false} ExecuteFollows(config: Config, computed: int, w: World, past: Past, step: Step, accepted: int, given: Option<seq<Row>>)
    requires Inv(w) && Reflects(config, computed, w.s, past)
    ensures var e := DoExecute(step, accepted, given); Follows(config, computed, past, e, Next(w, e).1, Next(w, e).0.s)
  {
    var e := DoExecute(step, accepted, given);
    var o := Next(w, e).1;
    if w.s.pending == [] || w.s.pending[0] != step {
      SameState(config, computed, w.s, past, (e, o));
    } else {
      if w.s.sched.closed {
        DropFollows(config, computed, w, past, e, o);
        TakeQueues(w.s.pending, config.owner, past, (e, o));
      } else if Refusal(w.s.config, w.s.worker, step, accepted, given) == None {
        TakenFollows(config, computed, w, past, step, accepted, given);
      } else {
        RefusalIs(w, step, accepted, given);
        DropFollows(config, computed, w, past, e, o);
        TakeQueues(w.s.pending, config.owner, past, (e, o));
      }
    }
  }

  lemma {:induction false} NextFollows(config: Config, computed: int, w: World, past: Past, e: Event)
    requires Inv(w) && Reflects(config, computed, w.s, past)
    ensures Follows(config, computed, past, e, Next(w, e).1, Next(w, e).0.s)
  {
    match e
    case DoPark => AskFollows(config, computed, w, past, e);
    case DoArm => AskFollows(config, computed, w, past, e);
    case DoSchedule(cap) => ScheduleFollows(config, computed, w, past, cap);
    case DoExecute(step, accepted, given) => ExecuteFollows(config, computed, w, past, step, accepted, given);
    case DoReceive(ack) => ReceiveFollows(config, computed, w, past, ack);
    case DoPublish(end) => SameState(config, computed, w.s, past, (e, Next(w, e).1));
    case DoCancel => CancelFollows(config, computed, w, past);
  }

  // ---------- Every run ----------

  /** The calls of a run with what they returned. */
  function PastOf(w: World, events: seq<Event>): Past
    requires w.s.config.chunk >= 1
    decreases |events|
  {
    if events == [] then []
    else
      NextKeepsGeometry(w, events[0]);
      [(events[0], Next(w, events[0]).1)] + PastOf(Next(w, events[0]).0, events[1..])
  }

  lemma {:induction false} PastIsTrace(w: World, events: seq<Event>)
    requires w.s.config.chunk >= 1
    ensures |PastOf(w, events)| == |Trace(w, events)| == |events|
    ensures forall i :: 0 <= i < |events| ==> PastOf(w, events)[i] == (events[i], Trace(w, events)[i])
    decreases |events|
  {
    if events != [] {
      NextKeepsGeometry(w, events[0]);
      PastIsTrace(Next(w, events[0]).0, events[1..]);
    }
  }

  lemma {:induction false} JoinsOne(past: Past, p: (Event, Output), rest: Past, n: nat)
    requires 1 <= n <= |rest| + 1
    ensures past + ([p] + rest) == past + [p] + rest
    ensures past + ([p] + rest)[..n] == past + [p] + rest[..n - 1]
    ensures ([p] + rest)[0] == p && (n <= |rest| ==> ([p] + rest)[n] == rest[n - 1])
  {
  }

  lemma {:induction false} JoinsNothing(past: Past)
    ensures past + [] == past && [] + past == past
  {
  }

  /** After a run the state is what the calls and answers say. */
  lemma {:induction false} RunReflects(config: Config, computed: int, w: World, past: Past, events: seq<Event>)
    requires Inv(w) && LegalRun(w, events) && Reflects(config, computed, w.s, past)
    ensures Reflects(config, computed, Run(w, events).s, past + PastOf(w, events))
    decreases |events|
  {
    if events == [] {
      JoinsNothing(past);
    } else {
      var e := events[0];
      var o, v := Next(w, e).1, Next(w, e).0;
      NextKeepsInv(w, e);
      NextFollows(config, computed, w, past, e);
      RunReflects(config, computed, v, past + [(e, o)], events[1..]);
      JoinsOne(past, (e, o), PastOf(v, events[1..]), 1);
    }
  }

  lemma {:induction false} RunExplains(config: Config, computed: int, w: World, past: Past, events: seq<Event>, n: nat)
    requires Inv(w) && LegalRun(w, events) && Reflects(config, computed, w.s, past) && n < |PastOf(w, events)|
    ensures var all := PastOf(w, events); Explained(config, computed, past + all[..n], all[n].0, all[n].1)
    decreases |events|
  {
    var e := events[0];
    var o, v, all := Next(w, e).1, Next(w, e).0, PastOf(w, events);
    NextKeepsInv(w, e);
    NextFollows(config, computed, w, past, e);
    if n == 0 {
      JoinsNothing(past);
      assert all[..0] == [];
    } else {
      RunExplains(config, computed, v, past + [(e, o)], events[1..], n - 1);
      JoinsOne(past, (e, o), PastOf(v, events[1..]), n);
    }
  }

  lemma {:induction false} NothingAsked(e: Event)
    ensures Drafting([]) && !LastAskIs([], e) && !Over([])
  {
  }

  lemma {:induction false} NewScheduler()
    ensures SchedulerReflects(Scheduler(0, WantActive, true, 0, false), [])
  {
    NothingAsked(DoPark);
    NothingAsked(DoArm);
  }

  lemma {:induction false} NewQueue(owner: Owner)
    ensures QueueReflects([], owner, [])
  {
  }

  lemma {:induction false} NewWorker(strategy: Strategy, computed: int, w: Worker)
    requires w.computed == computed && w.materialized == Some(computed) && w.queryPasses == 0
    requires w.mode == ModeActive && w.proposalAnchor == Some(computed)
    ensures WorkerReflects(strategy, computed, w, [])
  {
  }

  lemma {:induction false} StartReflects(config: Config, computed: int)
    requires ValidGeometry(config.window, config.slack, config.chunk)
    ensures Reflects(config, computed, Initial(config, computed).value, [])
  {
    NewScheduler();
    NewQueue(config.owner);
    NewWorker(config.strategy, computed, Initial(config, computed).value.worker);
  }

  /** The n calls of a run before call n, with their answers. */
  function Before(events: seq<Event>, outputs: seq<Output>, n: nat): (past: Past)
    requires n <= |events| && n <= |outputs|
    ensures |past| == n
  {
    seq(n, i requires 0 <= i < n => (events[i], outputs[i]))
  }

  lemma {:induction false} PastIsBefore(w: World, events: seq<Event>, n: nat)
    requires w.s.config.chunk >= 1 && n <= |events|
    ensures |Trace(w, events)| == |PastOf(w, events)| == |events|
    ensures PastOf(w, events)[..n] == Before(events, Trace(w, events), n)
    ensures n == |events| ==> PastOf(w, events) == Before(events, Trace(w, events), n)
    ensures n < |events| ==> PastOf(w, events)[n] == (events[n], Trace(w, events)[n])
  {
    PastIsTrace(w, events);
  }

  /** A fresh request is in order, and has no past. */
  lemma {:induction false} FreshStart(config: Config, computed: int) returns (w: World)
    requires ValidGeometry(config.window, config.slack, config.chunk)
    ensures w == Start(Initial(config, computed).value) && Inv(w) && Reflects(config, computed, w.s, [])
  {
    w := Start(Initial(config, computed).value);
    StartInv(config, computed);
    StartReflects(config, computed);
  }

  /**
   In every run, the answer to each call is the one determined by the calls and
   answers before it: which steps are issued, and with which owner, number,
   intent and cap, which calls are refused, what is acknowledged for which
   position, and which acknowledgements and publications are accepted.
   */
  lemma {:induction false} EveryCallIsExplained(config: Config, computed: int, events: seq<Event>, n: nat)
    requires ValidGeometry(config.window, config.slack, config.chunk)
    requires Legal(config, computed, events) && n < |events|
    ensures var outputs := Outputs(config, computed, events);
      |outputs| == |events| && Explained(config, computed, Before(events, outputs, n), events[n], outputs[n])
  {
    var w := FreshStart(config, computed);
    PastIsBefore(w, events, n);
    RunExplains(config, computed, w, [], events, n);
    JoinsNothing(PastOf(w, events)[..n]);
  }

  /**
   In every run, the queue is the steps issued so far without those taken off,
   first in first out; position, published end, draft passes, mode and proposal
   are those of the commits so far.
   */
  lemma {:induction false} StateIsExplained(config: Config, computed: int, events: seq<Event>)
    requires ValidGeometry(config.window, config.slack, config.chunk)
    requires Legal(config, computed, events)
    ensures var outputs := Outputs(config, computed, events);
      |outputs| == |events| &&
      var past, s := Before(events, outputs, |events|), After(config, computed, events).s;
      && Taken(past) <= |IssuedSteps(past)| && s.pending == IssuedSteps(past)[Taken(past)..]
      && s.worker.computed == PositionAfter(computed, past)
      && s.worker.materialized == Some(BuiltTo(config.strategy, computed, past))
      && s.worker.queryPasses == Passes(past) && s.worker.mode == ModeAfter(past)
      && s.worker.proposalAnchor == (if Over(past) || ModeAfter(past) == ModeParked then None else Some(PositionAfter(computed, past)))
      && (LeaseReleasable(s) <==> Over(past) && Taken(past) == |IssuedSteps(past)|)
  {
    var w := FreshStart(config, computed);
    PastIsBefore(w, events, |events|);
    RunReflects(config, computed, w, [], events);
    JoinsNothing(PastOf(w, events));
  }
}
