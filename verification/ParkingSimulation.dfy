/**
 The deferred strategy against the eager one. Run on the same events, the two
 issue the same steps and acknowledgements and keep the same scheduler state,
 position and proposal; they differ only in when context is built.
 */
module ParkingSimulation {
  import opened Common
  import opened Parking
  import opened ParkingRing
  import opened ParkingRuns
  import opened ParkingSafety

  /** What the rest of the system can see of a worker: nothing about how context is kept. */
  predicate SameWorker(s: Worker, t: Worker) {
    && s.computed == t.computed && s.proposalAnchor == t.proposalAnchor
    && s.mode == t.mode && s.queryPasses == t.queryPasses
  }

  predicate SameProtocol(s: State, t: State) {
    s.sched == t.sched && s.pending == t.pending && SameWorker(s.worker, t.worker)
  }

  /** a is the eager twin of the deferred request b. */
  ghost predicate Twins(a: World, b: World) {
    && b.s.config.strategy == Deferred
    && a.s.config == b.s.config.(strategy := Eager)
    && SameProtocol(a.s, b.s)
    && a.acks == b.acks && a.drafting == b.drafting && a.last == b.last
    && a.h.base == b.h.base && a.h.log == b.h.log
  }

  lemma {:induction false} TwinCommit(c: Config, v: Worker, w: Worker, h: History, action: Action, values: seq<Row>)
    requires SameWorker(v, w) && RingOk(c, w, h) && |values| >= 1 && c.strategy == Deferred
    ensures var (v', x) := Commit(c.(strategy := Eager), v, action, values); var (w', y) := Commit(c, w, action, values);
      SameWorker(v', w') && x == y
  {
    if action != ParkStep && NeedsReplay(c, w) {
      RebuildFindsEveryRow(c, w, h, action, values);
    }
  }

  lemma {:induction false} TwinExecute(a: World, b: World, step: Step, accepted: int, given: Option<seq<Row>>)
    requires Twins(a, b) && Inv(a) && Inv(b)
    ensures Twins(AfterExecute(a, step, accepted, given), AfterExecute(b, step, accepted, given))
    ensures Execute(a.s, step, accepted, given).1 == Execute(b.s, step, accepted, given).1
  {
    if a.s.pending != [] && a.s.pending[0] == step && !a.s.sched.closed
       && Refusal(a.s.config, a.s.worker, step, accepted, given) == None
    {
      ExecuteIsCommit(a, step, accepted, given);
      ExecuteIsCommit(b, step, accepted, given);
      TwinCommit(b.s.config, a.s.worker, b.s.worker, b.h, step.action, CombinedRows(a.s.worker, step, given)[..accepted + 1]);
    }
  }

  /** One event keeps the twins alike and, unless it asks to publish, shows the caller the same thing. */
  lemma {:induction false} TwinNext(a: World, b: World, e: Event)
    requires Twins(a, b) && Inv(a) && Inv(b)
    ensures Twins(Next(a, e).0, Next(b, e).0)
    ensures !e.DoPublish? ==> Next(a, e).1 == Next(b, e).1
    ensures e.DoPublish? && Next(b, e).1 == Quiet ==> Next(a, e).1 == Quiet
  {
    if e.DoExecute? {
      TwinExecute(a, b, e.step, e.accepted, e.given);
    }
  }

  lemma {:induction false} TwinRuns(a: World, b: World, events: seq<Event>)
    requires Twins(a, b) && Inv(a) && Inv(b) && LegalRun(a, events)
    ensures LegalRun(b, events)
    ensures Twins(Run(a, events), Run(b, events))
    ensures Inv(Run(a, events)) && Inv(Run(b, events))
    ensures |Trace(a, events)| == |Trace(b, events)| == |events|
    ensures forall i :: 0 <= i < |events| && !events[i].DoPublish? ==> Trace(a, events)[i] == Trace(b, events)[i]
    decreases |events|
  {
    if events != [] {
      var e := events[0];
      TwinNext(a, b, e);
      NextKeepsInv(a, e);
      NextKeepsInv(b, e);
      TwinRuns(Next(a, e).0, Next(b, e).0, events[1..]);
    }
  }

  /**
   For every geometry and every run, eager and deferred maintenance produce the
   same outputs and the same protocol state, and whenever the deferred context is
   current both have built the same draft context over the live window.
   */
  lemma {:induction false} DeferredSimulatesEager(config: Config, computed: int, events: seq<Event>)
    requires ValidGeometry(config.window, config.slack, config.chunk)
    requires config.strategy == Deferred
    requires Legal(config.(strategy := Eager), computed, events)
    ensures Legal(config, computed, events)
    ensures var a := After(config.(strategy := Eager), computed, events); var b := After(config, computed, events);
      && SameProtocol(a.s, b.s) && a.acks == b.acks && a.h.log == b.h.log
      && |a.h.context| == |b.h.context| == |b.h.log|
      && (b.s.worker.materialized == Some(b.s.worker.computed) ==>
            forall i :: 0 <= i < |b.h.log| && Max(0, b.s.worker.computed - config.window) <= b.h.base + i ==>
              a.h.context[i] == b.h.context[i] == Some(b.h.log[i]))
    ensures
      var x := Outputs(config.(strategy := Eager), computed, events); var y := Outputs(config, computed, events);
      |x| == |y| == |events| && forall i :: 0 <= i < |events| && !events[i].DoPublish? ==> x[i] == y[i]
  {
    var eager := config.(strategy := Eager);
    StartInv(config, computed);
    StartInv(eager, computed);
    TwinRuns(Start(Initial(eager, computed).value), Start(Initial(config, computed).value), events);
    ConfigIsFixed(Start(Initial(config, computed).value), events);
  }

  lemma {:induction false} ConfigIsFixed(w: World, events: seq<Event>)
    requires w.s.config.chunk >= 1
    ensures Run(w, events).s.config == w.s.config && Run(w, events).h.base == w.h.base
    decreases |events|
  {
    if events != [] {
      NextKeepsGeometry(w, events[0]);
      ConfigIsFixed(Next(w, events[0]).0, events[1..]);
    }
  }
}
