/**
 Safety over every run of the parking protocol: no positive step ever verifies a
 stale proposal, no rebuild misses a row, and the ring and the draft context
 stay exact.
 */
module ParkingSafety {
  import opened Common
  import opened Parking
  import opened ParkingRing
  import opened ParkingRuns

  // ---------- The invariant ----------

  /** One queued step agrees with the intents issued so far. */
  predicate StepOk(owner: Owner, drafting: seq<bool>, last: nat, step: Step) {
    && step.owner == owner
    && last <= step.intent < |drafting|
    && (step.action == ParkStep <==> !drafting[step.intent])
    && (step.cap > 0 <==> step.action == ActiveStep)
    && (step.cap > 0 ==> step.intent == last)
  }

  ghost predicate Queue(pending: seq<Step>, owner: Owner, drafting: seq<bool>, last: nat) {
    && (forall i :: 0 <= i < |pending| ==> StepOk(owner, drafting, last, pending[i]))
    && (forall i, j :: 0 <= i <= j < |pending| ==> pending[i].intent <= pending[j].intent)
  }

  ghost predicate QueueOk(w: World) {
    Queue(w.s.pending, w.s.config.owner, w.drafting, w.last)
  }

  ghost predicate SchedulerOk(w: World) {
    && |w.drafting| == w.s.sched.intent + 1
    && w.last <= w.s.sched.intent
    && (w.s.sched.desired == WantParked <==> !w.drafting[w.s.sched.intent])
    && (!w.s.sched.closed ==> (w.s.sched.ready <==> w.s.sched.desired == WantActive))
    && (w.s.sched.desired == WantActive ==> w.last == w.s.sched.intent)
  }

  ghost predicate AcksOk(w: World) {
    forall a :: a in w.acks ==>
      (a.draftingReady ==> a.intent <= w.last && a.intent < |w.drafting| && w.drafting[a.intent])
  }

  /** While the worker is on a drafting intent its proposal is for the current position. */
  ghost predicate AnchorOk(w: World) {
    !w.s.sched.closed && w.last < |w.drafting| && w.drafting[w.last] ==>
      w.s.worker.proposalAnchor == Some(w.s.worker.computed) && w.s.worker.materialized == Some(w.s.worker.computed)
  }

  ghost predicate Inv(w: World) {
    && SchedulerOk(w) && QueueOk(w) && AcksOk(w) && AnchorOk(w)
    && RingOk(w.s.config, w.s.worker, w.h) && ContextOk(w.s.config, w.s.worker, w.h)
  }

  lemma {:induction false} StartInv(config: Config, computed: int)
    ensures var r := Initial(config, computed);
      (r.Ok? <==> ValidGeometry(config.window, config.slack, config.chunk)) &&
      (r.Ok? ==> Inv(Start(r.value)))
  {
  }

  // ---------- Every event keeps the invariant ----------

  lemma {:induction false} PoppedQueue(pending: seq<Step>, owner: Owner, drafting: seq<bool>, last: nat, last': nat)
    requires Queue(pending, owner, drafting, last) && pending != []
    requires last' == last || last' == pending[0].intent
    ensures Queue(pending[1..], owner, drafting, last')
  {
    var rest := pending[1..];
    assert StepOk(owner, drafting, last, pending[0]);
    forall i | 0 <= i < |rest| ensures StepOk(owner, drafting, last', rest[i]) {
      assert StepOk(owner, drafting, last, pending[i + 1]);
    }
    forall i, j | 0 <= i <= j < |rest| ensures rest[i].intent <= rest[j].intent {
      assert rest[i] == pending[i + 1] && rest[j] == pending[j + 1];
    }
  }

  lemma {:induction false} PoppedKeepsInv(w: World)
    requires Inv(w) && w.s.pending != []
    ensures Inv(Popped(w))
  {
    PoppedQueue(w.s.pending, w.s.config.owner, w.drafting, w.last, w.last);
  }

  /** A waiting positive step has a proposal for the current position. */
  lemma {:induction false} HeadIsFresh(w: World)
    requires Inv(w) && !w.s.sched.closed && w.s.pending != [] && w.s.pending[0].cap > 0
    ensures w.s.worker.proposalAnchor == Some(w.s.worker.computed)
  {
    assert StepOk(w.s.config.owner, w.drafting, w.last, w.s.pending[0]);
  }

  lemma {:induction false} CommitKeepsInv(w: World, step: Step, values: seq<Row>)
    requires Inv(w) && !w.s.sched.closed && |values| >= 1
    requires w.s.pending != [] && step == w.s.pending[0]
    ensures Inv(CommittedStep(Popped(w), step, values))
  {
    assert StepOk(w.s.config.owner, w.drafting, w.last, step);
    CommitKeeps(w.s.config, w.s.worker, w.h, step.action, values);
    PoppedQueue(w.s.pending, w.s.config.owner, w.drafting, w.last, step.intent);
  }

  lemma {:induction false} ExecuteKeepsInv(w: World, step: Step, accepted: int, given: Option<seq<Row>>)
    requires Inv(w)
    ensures Inv(AfterExecute(w, step, accepted, given))
  {
    if w.s.pending != [] && w.s.pending[0] == step {
      if !w.s.sched.closed && Refusal(w.s.config, w.s.worker, step, accepted, given) == None {
        ExecuteIsCommit(w, step, accepted, given);
        CommitKeepsInv(w, step, CombinedRows(w.s.worker, step, given)[..accepted + 1]);
      } else {
        PoppedKeepsInv(w);
      }
    }
  }

  lemma {:induction false} ScheduleKeepsInv(w: World, cap: int)
    requires Inv(w)
    ensures Inv(w.(s := Schedule(w.s, cap).0))
  {
    if !w.s.sched.closed && cap in CAPS {
      var step := NextStep(w.s.config.owner, w.s.sched, cap);
      assert StepOk(w.s.config.owner, w.drafting, w.last, step);
      forall i | 0 <= i < |w.s.pending| ensures w.s.pending[i].intent <= step.intent {
        assert StepOk(w.s.config.owner, w.drafting, w.last, w.s.pending[i]);
      }
    }
  }

  lemma {:induction false} QueueSurvivesNewIntent(pending: seq<Step>, owner: Owner, drafting: seq<bool>, last: nat, kind: bool)
    requires Queue(pending, owner, drafting, last)
    ensures Queue(pending, owner, drafting + [kind], last)
  {
    forall i | 0 <= i < |pending| ensures StepOk(owner, drafting + [kind], last, pending[i]) {
      assert StepOk(owner, drafting, last, pending[i]);
    }
  }

  lemma {:induction false} NextKeepsInv(w: World, e: Event)
    requires Inv(w) && Deliverable(w, e)
    ensures Inv(Next(w, e).0)
  {
    match e
    case DoPark => QueueSurvivesNewIntent(w.s.pending, w.s.config.owner, w.drafting, w.last, false);
    case DoArm => QueueSurvivesNewIntent(w.s.pending, w.s.config.owner, w.drafting, w.last, true);
    case DoSchedule(cap) => ScheduleKeepsInv(w, cap);
    case DoExecute(step, accepted, given) => ExecuteKeepsInv(w, step, accepted, given);
    case DoReceive(ack) =>
    case DoPublish(end) =>
    case DoCancel =>
  }

  /** An output that only a broken protocol could produce. */
  predicate Unsafe(o: Output) {
    o == Failed(StaleProposal) || (o.Acked? && o.ack.reason == MissingContext)
  }

  lemma {:induction false} ExecuteIsSafe(w: World, step: Step, accepted: int, given: Option<seq<Row>>)
    requires Inv(w)
    ensures var r := Execute(w.s, step, accepted, given).1;
      r != Err(StaleProposal) && (r.Ok? ==> r.value.reason != MissingContext)
  {
    if w.s.pending != [] && w.s.pending[0] == step && !w.s.sched.closed {
      if step.cap > 0 { HeadIsFresh(w); }
      if Refusal(w.s.config, w.s.worker, step, accepted, given) == None {
        var values := CombinedRows(w.s.worker, step, given)[..accepted + 1];
        assert Commit(w.s.config, w.s.worker, step.action, values).1 == (step.action != ParkStep) by {
          CommitKeeps(w.s.config, w.s.worker, w.h, step.action, values);
        }
      }
    }
  }

  lemma {:induction false} NextIsSafe(w: World, e: Event)
    requires Inv(w)
    ensures !Unsafe(Next(w, e).1)
  {
    if e.DoExecute? {
      ExecuteIsSafe(w, e.step, e.accepted, e.given);
    }
  }

  lemma {:induction false} RunKeepsInv(w: World, events: seq<Event>)
    requires Inv(w) && LegalRun(w, events)
    ensures Inv(Run(w, events))
    ensures forall o :: o in Trace(w, events) ==> !Unsafe(o)
    decreases |events|
  {
    if events != [] {
      NextKeepsInv(w, events[0]);
      NextIsSafe(w, events[0]);
      RunKeepsInv(Next(w, events[0]).0, events[1..]);
    }
  }

  lemma {:induction false} ReachedInv(config: Config, computed: int, events: seq<Event>)
    requires ValidGeometry(config.window, config.slack, config.chunk)
    requires Legal(config, computed, events)
    ensures Inv(After(config, computed, events))
    ensures forall o :: o in Outputs(config, computed, events) ==> !Unsafe(o)
  {
    StartInv(config, computed);
    RunKeepsInv(Start(Initial(config, computed).value), events);
  }

  // ---------- Main results over every run ----------

  /**
   Whatever the interleaving, and whatever happens to the acknowledgements, an
   open request whose queue head verifies proposals has a proposal for exactly
   the current position; the stale-proposal error and the missing-context exit
   never occur.
   */
  lemma {:induction false} NoStaleProposal(config: Config, computed: int, events: seq<Event>)
    requires ValidGeometry(config.window, config.slack, config.chunk)
    requires Legal(config, computed, events)
    ensures var s := After(config, computed, events).s;
      !s.sched.closed && s.pending != [] && s.pending[0].cap > 0 ==> s.worker.proposalAnchor == Some(s.worker.computed)
    ensures Failed(StaleProposal) !in Outputs(config, computed, events)
    ensures forall ack :: Acked(ack) in Outputs(config, computed, events) ==> ack.reason != MissingContext
  {
    ReachedInv(config, computed, events);
    var w := After(config, computed, events);
    if !w.s.sched.closed && w.s.pending != [] && w.s.pending[0].cap > 0 {
      HeadIsFresh(w);
    }
    forall ack | Acked(ack) in Outputs(config, computed, events) ensures ack.reason != MissingContext {
      assert !Unsafe(Acked(ack));
    }
  }

  /**
   Why it is safe: every positive step waiting in the queue carries the intent
   the worker executed last, so only arming or active steps of that same intent
   stand before it.
   */
  lemma {:induction false} OnlyOwnIntentPrecedes(config: Config, computed: int, events: seq<Event>, i: nat, j: nat)
    requires ValidGeometry(config.window, config.slack, config.chunk)
    requires Legal(config, computed, events)
    requires var q := After(config, computed, events).s.pending; i <= j < |q| && q[j].cap > 0
    ensures var q := After(config, computed, events).s.pending;
      q[i].intent == q[j].intent && q[i].action != ParkStep
  {
    ReachedInv(config, computed, events);
    var w := After(config, computed, events);
    assert StepOk(w.s.config.owner, w.drafting, w.last, w.s.pending[i]);
    assert StepOk(w.s.config.owner, w.drafting, w.last, w.s.pending[j]);
  }

  /**
   The ring refines the committed log in every reachable state, is never over its
   capacity, and has every row that was not materialized, as far back as it reaches.
   */
  lemma {:induction false} RingRefinesLog(config: Config, computed: int, events: seq<Event>)
    requires ValidGeometry(config.window, config.slack, config.chunk)
    requires Legal(config, computed, events)
    ensures var w := After(config, computed, events);
      && |w.h.log| == w.s.worker.computed - w.h.base
      && (forall p :: p in w.s.worker.rows ==>
            w.h.base <= p < w.s.worker.computed && w.s.worker.rows[p] == w.h.log[p - w.h.base])
      && |w.s.worker.rows| <= w.s.config.window + w.s.config.slack
      && w.s.worker.materialized.Some?
      && var reach := w.s.worker.computed - w.s.config.window - w.s.config.slack;
         forall p :: Max(w.s.worker.materialized.value, reach) <= p < w.s.worker.computed ==> p in w.s.worker.rows
  {
    ReachedInv(config, computed, events);
    var w := After(config, computed, events);
    RingHoldsCommittedRows(w.s.config, w.s.worker, w.h);
  }

  /**
   After any step that reports drafting ready, each live-window position
   committed in this run has draft context built from its committed row, and the
   rebuild chunks concatenate to exactly the dirty range (nothing, when the
   context was current).
   */
  lemma {:induction false} ReadyMeansWindowBuilt(w: World, step: Step, accepted: int, given: Option<seq<Row>>)
    requires Inv(w)
    requires var r := Execute(w.s, step, accepted, given).1; r.Ok? && r.value.draftingReady
    ensures var v := AfterExecute(w, step, accepted, given);
      && WindowBuilt(w.s.config, v.s.worker, v.h)
      && RebuildExact(w.s.config, w.s.worker, v.s.worker)
      && v.s.worker.computed == w.s.worker.computed + accepted + 1
      && v.s.worker.proposalAnchor == Some(v.s.worker.computed)
  {
    ExecuteIsCommit(w, step, accepted, given);
    var values := CombinedRows(w.s.worker, step, given)[..accepted + 1];
    CommitKeeps(w.s.config, w.s.worker, w.h, step.action, values);
    DraftBuildsWindow(w.s.config, w.s.worker, w.h, step.action, values);
  }

  // ---------- Draining ----------

  /** The event takes the head off the queue. */
  predicate TakesHead(s: State, e: Event) { e.DoExecute? && s.pending != [] && s.pending[0] == e.step }

  /** How many events of the run do. */
  function HeadsTaken(w: World, events: seq<Event>): nat
    requires w.s.config.chunk >= 1
    decreases |events|
  {
    if events == [] then 0
    else
      NextKeepsGeometry(w, events[0]);
      One(TakesHead(w.s, events[0])) + HeadsTaken(Next(w, events[0]).0, events[1..])
  }

  predicate IsCancelled(s: State) { s == Cancel(s) }

  /** One event of a cancelled request changes nothing but the queue, which at most loses its head. */
  lemma {:induction false} CancelledNext(w: World, e: Event)
    requires IsCancelled(w.s) && w.s.config.chunk >= 1
    ensures var v := Next(w, e).0;
      IsCancelled(v.s) && v.h == w.h && v.s == w.s.(pending := if TakesHead(w.s, e) then w.s.pending[1..] else w.s.pending)
    ensures var o := Next(w, e).1;
      o.Acked? <==> TakesHead(w.s, e)
    ensures var o := Next(w, e).1;
      o.Acked? ==> o.ack.reason == Cancelled && !o.ack.draftingReady && !Receive(w.s, o.ack).1
  {
  }

  /** An output that belongs to a cancelled request: no step is issued and nothing is committed or accepted. */
  predicate Drained(o: Output) { !o.Issued? && o != Accepted(true) && (o.Acked? ==> o.ack.reason == Cancelled) }

  lemma {:induction false} DrainRun(w: World, events: seq<Event>)
    requires IsCancelled(w.s) && w.s.config.chunk >= 1
    ensures HeadsTaken(w, events) <= |w.s.pending|
    ensures var v := Run(w, events); v.h == w.h && v.s == w.s.(pending := w.s.pending[HeadsTaken(w, events)..])
    ensures forall o :: o in Trace(w, events) ==> Drained(o)
    decreases |events|
  {
    if events != [] {
      var v := Next(w, events[0]).0;
      CancelledNext(w, events[0]);
      DrainRun(v, events[1..]);
      if TakesHead(w.s, events[0]) {
        assert w.s.pending[1..][HeadsTaken(v, events[1..])..] == w.s.pending[HeadsTaken(w, events)..];
      }
    }
  }

  /**
   From a cancellation on, whatever happens: nothing is committed, issued or
   accepted any more, the queue only shrinks from its head, and the lease may be
   released exactly when every step that was queued has been taken off.
   */
  lemma {:induction false} DrainingReleasesLease(w: World, events: seq<Event>)
    requires w.s.config.chunk >= 1
    ensures var c := Next(w, DoCancel).0; var v := Run(c, events);
      && v.h == w.h && v.s.worker == c.s.worker && v.s.sched == c.s.sched
      && (LeaseReleasable(v.s) <==> HeadsTaken(c, events) == |w.s.pending|)
    ensures forall o :: o in Trace(Next(w, DoCancel).0, events) ==> Drained(o)
  {
    DrainRun(Next(w, DoCancel).0, events);
  }

  /** Executing the queued steps in order. */
  function Drain(pending: seq<Step>): seq<Event> {
    if pending == [] then [] else [DoExecute(pending[0], 0, None)] + Drain(pending[1..])
  }

  lemma {:induction false} DrainTakesAll(w: World)
    requires IsCancelled(w.s) && w.s.config.chunk >= 1
    ensures HeadsTaken(w, Drain(w.s.pending)) == |w.s.pending|
    decreases |w.s.pending|
  {
    if w.s.pending != [] {
      var e := DoExecute(w.s.pending[0], 0, None);
      CancelledNext(w, e);
      DrainTakesAll(Next(w, e).0);
      assert Drain(w.s.pending)[1..] == Drain(w.s.pending[1..]);
    }
  }

  /** After a cancellation, executing what was queued, in order, makes the lease releasable. */
  lemma {:induction false} DrainEnds(w: World)
    requires w.s.config.chunk >= 1
    ensures LeaseReleasable(Run(Next(w, DoCancel).0, Drain(w.s.pending)).s)
  {
    DrainTakesAll(Next(w, DoCancel).0);
    DrainingReleasesLease(w, Drain(w.s.pending));
  }
}
