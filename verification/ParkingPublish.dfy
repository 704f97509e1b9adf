/**
 What publish_prefix promises. A deferred re-entry rebuilds the live window and
 no more, and then calls everything before it materialized: positions between
 the old materialized end and the live window are skipped for good. This file
 says which prefixes are published with such a gap, and gives a run.
 */
module ParkingPublish {
  import opened Common
  import opened Parking
  import opened ParkingRing
  import opened ParkingRuns
  import opened ParkingSafety

  /** Every committed position before end has context built from its committed row. */
  ghost predicate BuiltBelow(h: History, end: int) {
    |h.context| == |h.log| && forall i :: 0 <= i < |h.log| && h.base + i < end ==> h.context[i] == Some(h.log[i])
  }

  /** Nothing is built from the materialized end on. */
  ghost predicate UnbuiltFrom(h: History, m: int) {
    |h.context| == |h.log| && forall i :: 0 <= i < |h.log| && m <= h.base + i ==> h.context[i] == None
  }

  /** The event commits a step. */
  predicate Commits(s: State, e: Event)
    requires s.config.chunk >= 1
  {
    && e.DoExecute?
    && s.pending != [] && s.pending[0] == e.step && !s.sched.closed
    && Refusal(s.config, s.worker, e.step, e.accepted, e.given) == None
  }

  /** The event re-enters drafting when the live window already starts behind the materialized end. */
  predicate LeavesGap(s: State, e: Event)
    requires s.config.chunk >= 1
  {
    && Commits(s, e)
    && e.step.action != ParkStep && NeedsReplay(s.config, s.worker)
    && s.worker.materialized.Some?
    && s.worker.materialized.value < Max(0, s.worker.computed + e.accepted + 1 - s.config.window)
  }

  /** No re-entry of the run leaves a gap that begins before end. */
  predicate NoGapBelow(w: World, events: seq<Event>, end: int)
    requires w.s.config.chunk >= 1
    decreases |events|
  {
    events == [] ||
    (!(LeavesGap(w.s, events[0]) && w.s.worker.materialized.value < end) &&
     (NextKeepsGeometry(w, events[0]); NoGapBelow(Next(w, events[0]).0, events[1..], end)))
  }

  ghost predicate Tracked(w: World) {
    Inv(w) && UnbuiltFrom(w.h, w.s.worker.materialized.value)
  }

  // ---------- One commit ----------

  lemma {:induction false} GrowthIsUnbuilt(h: History, values: seq<Row>, m: int)
    requires UnbuiltFrom(h, m) && m <= h.base + |h.log|
    ensures var h' := h.(log := h.log + values, context := h.context + NewContext(values, false));
      UnbuiltFrom(h', m) && forall end :: end <= m ==> (BuiltBelow(h', end) <==> BuiltBelow(h, end))
  {
    var h' := h.(log := h.log + values, context := h.context + NewContext(values, false));
    forall end | end <= m ensures BuiltBelow(h', end) <==> BuiltBelow(h, end) {
      assert forall i :: 0 <= i < |h.log| ==> h'.context[i] == h.context[i] && h'.log[i] == h.log[i];
    }
  }

  lemma {:induction false} GrowthIsBuilt(h: History, values: seq<Row>, end: int)
    requires |h.context| == |h.log|
    ensures var h' := h.(log := h.log + values, context := h.context + NewContext(values, true));
      BuiltBelow(h', end) <==> BuiltBelow(h, Min(end, h.base + |h.log|))
  {
    var h' := h.(log := h.log + values, context := h.context + NewContext(values, true));
    assert forall i :: 0 <= i < |h.log| ==> h'.context[i] == h.context[i] && h'.log[i] == h.log[i];
  }

  /** A replay from lo on touches nothing before lo, and builds everything after it. */
  lemma {:induction false} ReplayBuilds(h: History, rows: map<int, Row>, lo: int, m: int, hi: int, end: int)
    requires UnbuiltFrom(h, m) && SubLog(rows, h.base, h.log) && Covers(rows, lo, hi)
    requires h.base <= m <= lo && m < hi == h.base + |h.log| && end <= hi
    ensures var h' := h.(context := Replayed(h.context, h.base, rows, lo));
      UnbuiltFrom(h', hi) && (BuiltBelow(h', end) <==> BuiltBelow(h, Min(end, m)) && !(m < lo && m < end))
  {
    var h' := h.(context := Replayed(h.context, h.base, rows, lo));
    assert m < lo ==> h'.context[m - h.base] == None;
    assert forall i :: 0 <= i < |h.log| && h.base + i < m ==> h'.context[i] == h.context[i];
    assert forall i :: 0 <= i < |h.log| && lo <= h.base + i ==> h'.context[i] == Some(h.log[i]);
  }

  /** What a committed step does to what is built below end. */
  ghost predicate Effect(h: History, m: int, h': History, m': int, gap: bool) {
    && m <= m' && UnbuiltFrom(h', m') && (gap ==> m < m')
    && forall end :: end <= m' ==> (BuiltBelow(h', end) <==> BuiltBelow(h, Min(end, m)) && !(gap && m < end))
  }

  lemma {:induction false} RebuildEffect(c: Config, w: Worker, h: History, values: seq<Row>)
    requires RingOk(c, w, h) && UnbuiltFrom(h, w.materialized.value) && |values| >= 1
    ensures var end := w.computed + |values|;
      Effect(h, w.materialized.value, RememberRebuild(c, w, h, values), end,
             w.materialized.value < Max(0, end - c.window))
  {
    var end, m, lo := w.computed + |values|, w.materialized.value, DirtyStart(c, w.materialized, w.computed + |values|);
    var rows := RingAfter(c, w.rows, w.computed, values);
    var grown := h.(log := h.log + values, context := h.context + NewContext(values, false));
    var h' := RememberRebuild(c, w, h, values);
    DirtyRangeIsHeld(c, h.base, w.computed, h.log, w.rows, w.materialized, h.trimmed, values);
    GrowthIsUnbuilt(h, values, m);
    forall x | x <= end
      ensures BuiltBelow(h', x) <==> BuiltBelow(h, Min(x, m)) && !(m < Max(0, end - c.window) && m < x)
    {
      ReplayBuilds(grown, rows, lo, m, end, x);
    }
  }

  lemma {:induction false} DeferEffect(c: Config, w: Worker, h: History, values: seq<Row>)
    requires RingOk(c, w, h) && UnbuiltFrom(h, w.materialized.value) && c.strategy == Deferred
    ensures var m := w.materialized.value; Effect(h, m, Remember(c, w, h, ParkStep, values), m, false)
  {
    GrowthIsUnbuilt(h, values, w.materialized.value);
  }

  lemma {:induction false} BuildEffect(c: Config, w: Worker, h: History, action: Action, values: seq<Row>)
    requires RingOk(c, w, h) && |h.context| == |h.log| && w.materialized.value == w.computed && !NeedsReplay(c, w)
    requires action != ParkStep || c.strategy == Eager
    ensures Effect(h, w.computed, Remember(c, w, h, action, values), w.computed + |values|, false)
  {
    var h' := Remember(c, w, h, action, values);
    forall end | end <= w.computed + |values| ensures BuiltBelow(h', end) <==> BuiltBelow(h, Min(end, w.computed)) {
      GrowthIsBuilt(h, values, end);
    }
  }

  lemma {:induction false} CommitEffect(c: Config, w: Worker, h: History, action: Action, values: seq<Row>)
    requires RingOk(c, w, h) && ContextOk(c, w, h) && UnbuiltFrom(h, w.materialized.value) && |values| >= 1
    ensures var t := Commit(c, w, action, values).0;
      t.materialized.Some? &&
      Effect(h, w.materialized.value, Remember(c, w, h, action, values), t.materialized.value,
             action != ParkStep && NeedsReplay(c, w) && w.materialized.value < Max(0, w.computed + |values| - c.window))
  {
    CommitKeeps(c, w, h, action, values);
    if action == ParkStep && c.strategy == Deferred {
      DeferEffect(c, w, h, values);
    } else if action == ParkStep || !NeedsReplay(c, w) {
      BuildEffect(c, w, h, action, values);
    } else {
      RebuildEffect(c, w, h, values);
    }
  }

  lemma {:induction false} NoEffect(h: History, m: int)
    requires UnbuiltFrom(h, m)
    ensures Effect(h, m, h, m, false)
  {
  }

  lemma {:induction false} OthersBuildNothing(w: World, e: Event)
    requires w.s.config.chunk >= 1 && !Commits(w.s, e)
    ensures Next(w, e).0.h == w.h && Next(w, e).0.s.worker.materialized == w.s.worker.materialized
  {
  }

  lemma {:induction false} CommitIsNext(w: World, e: Event)
    requires w.s.config.chunk >= 1 && Commits(w.s, e)
    ensures var values := CombinedRows(w.s.worker, e.step, e.given)[..e.accepted + 1];
      && |values| == e.accepted + 1 >= 1
      && Next(w, e).0.h == Remember(w.s.config, w.s.worker, w.h, e.step.action, values)
      && Next(w, e).0.s.worker == Commit(w.s.config, w.s.worker, e.step.action, values).0
  {
    ExecuteIsCommit(w, e.step, e.accepted, e.given);
  }

  ghost predicate HasEffect(w: World, e: Event, h: History, worker: Worker)
    requires w.s.config.chunk >= 1
  {
    && w.s.worker.materialized.Some? && worker.materialized.Some?
    && Effect(w.h, w.s.worker.materialized.value, h, worker.materialized.value, LeavesGap(w.s, e))
  }

  lemma {:induction false} NextHasEffect(w: World, e: Event)
    requires Tracked(w)
    ensures HasEffect(w, e, Next(w, e).0.h, Next(w, e).0.s.worker)
  {
    if Commits(w.s, e) {
      CommitIsNext(w, e);
      CommitEffect(w.s.config, w.s.worker, w.h, e.step.action, CombinedRows(w.s.worker, e.step, e.given)[..e.accepted + 1]);
    } else {
      OthersBuildNothing(w, e);
      NoEffect(w.h, w.s.worker.materialized.value);
    }
  }

  lemma {:induction false} NextEffect(w: World, e: Event)
    requires Tracked(w) && Deliverable(w, e)
    ensures Tracked(Next(w, e).0) && HasEffect(w, e, Next(w, e).0.h, Next(w, e).0.s.worker)
  {
    NextKeepsInv(w, e);
    NextHasEffect(w, e);
  }

  // ---------- Whole runs ----------

  lemma {:induction false} RunEffect(w: World, events: seq<Event>, end: int)
    requires Tracked(w) && LegalRun(w, events) && PublishPrefix(Run(w, events).s, end).Ok?
    ensures BuiltBelow(Run(w, events).h, end) <==>
      BuiltBelow(w.h, Min(end, w.s.worker.materialized.value)) && NoGapBelow(w, events, end)
    decreases |events|
  {
    if events != [] {
      var v := Next(w, events[0]).0;
      var m, m' := w.s.worker.materialized.value, v.s.worker.materialized.value;
      NextEffect(w, events[0]);
      RunEffect(v, events[1..], end);
      assert BuiltBelow(v.h, Min(end, m'))
        <==> BuiltBelow(w.h, Min(Min(end, m'), m)) && !(LeavesGap(w.s, events[0]) && m < Min(end, m'));
    }
  }

  /**
   In every run, a prefix that may be published was built completely, from the
   committed rows, exactly when no re-entry before it started its live window
   behind a materialized end that lies inside the prefix.
   */
  lemma {:induction false} PublishedPrefixIff(config: Config, computed: int, events: seq<Event>, end: int)
    requires ValidGeometry(config.window, config.slack, config.chunk)
    requires Legal(config, computed, events)
    requires PublishPrefix(After(config, computed, events).s, end).Ok?
    ensures BuiltBelow(After(config, computed, events).h, end)
      <==> NoGapBelow(Start(Initial(config, computed).value), events, end)
  {
    var start := Start(Initial(config, computed).value);
    StartInv(config, computed);
    ReachedInv(config, computed, events);
    assert Tracked(start) && BuiltBelow(start.h, Min(end, start.s.worker.materialized.value));
    RunEffect(start, events, end);
  }

  lemma {:induction false} EagerLeavesNoGap(w: World, events: seq<Event>, end: int)
    requires w.s.config.chunk >= 1 && w.s.config.strategy == Eager
    ensures NoGapBelow(w, events, end)
    decreases |events|
  {
    if events != [] {
      NextKeepsGeometry(w, events[0]);
      EagerLeavesNoGap(Next(w, events[0]).0, events[1..], end);
    }
  }

  /** The eager strategy never publishes a position it has not built. */
  lemma {:induction false} EagerPublishesBuilt(config: Config, computed: int, events: seq<Event>, end: int)
    requires ValidGeometry(config.window, config.slack, config.chunk) && config.strategy == Eager
    requires Legal(config, computed, events)
    requires PublishPrefix(After(config, computed, events).s, end).Ok?
    ensures BuiltBelow(After(config, computed, events).h, end)
  {
    EagerLeavesNoGap(Start(Initial(config, computed).value), events, end);
    PublishedPrefixIff(config, computed, events, end);
  }

  // ---------- A published gap ----------

  const Narrow := Config(Owner("r", 0), Deferred, 1, 0, 1)

  const Parked := Step(Owner("r", 0), 0, 1, 0, ParkStep)

  const Rearmed := Step(Owner("r", 0), 1, 2, 0, ArmStep)

  /** Park one row, then arm again: the live window of one row leaves the first row behind. */
  const Reentry := [DoPark, DoSchedule(1), DoExecute(Parked, 0, None), DoArm, DoSchedule(1), DoExecute(Rearmed, 0, None)]

  lemma {:induction false} RunSplits(w: World, early: seq<Event>, late: seq<Event>)
    requires w.s.config.chunk >= 1
    ensures Run(w, early).s.config == w.s.config
    ensures Run(w, early + late) == Run(Run(w, early), late)
    ensures LegalRun(w, early) && LegalRun(Run(w, early), late) ==> LegalRun(w, early + late)
    ensures forall end :: NoGapBelow(w, early + late, end) ==> NoGapBelow(Run(w, early), late, end)
    decreases |early|
  {
    if early == [] {
      assert early + late == late;
    } else {
      NextKeepsGeometry(w, early[0]);
      RunSplits(Next(w, early[0]).0, early[1..], late);
      assert (early + late)[1..] == early[1..] + late;
    }
  }

  /** The world after one event. */
  lemma {:induction false} RunOne(w: World, e: Event)
    requires w.s.config.chunk >= 1
    ensures Run(w, [e]) == Next(w, e).0 && (Deliverable(w, e) ==> LegalRun(w, [e]))
    ensures forall end :: NoGapBelow(w, [e], end) ==> !(LeavesGap(w.s, e) && w.s.worker.materialized.value < end)
  {
    NextKeepsGeometry(w, e);
    assert [e][1..] == [];
  }

  lemma {:induction false} OneMore(w: World, events: seq<Event>, e: Event)
    requires w.s.config.chunk >= 1 && LegalRun(w, events) && !e.DoReceive?
    ensures LegalRun(w, events + [e])
    ensures Run(w, events).s.config == w.s.config && Run(w, events + [e]) == Next(Run(w, events), e).0
  {
    RunSplits(w, events, [e]);
    RunOne(Run(w, events), e);
  }

  /** The open request waits with the given steps, having committed this many rows and built none. */
  predicate Waiting(w: World, q: Scheduler, pending: seq<Step>, computed: int) {
    && w.s.config == Narrow && w.s.sched == q && w.s.pending == pending && !q.closed
    && w.s.worker.computed == computed && w.s.worker.materialized == Some(0)
  }

  lemma {:induction false} ParkOnce(w: World)
    requires Waiting(w, Scheduler(0, WantActive, true, 0, false), [], 0)
    ensures var v := Next(Next(Next(w, DoPark).0, DoSchedule(1)).0, DoExecute(Parked, 0, None)).0;
      Waiting(v, Scheduler(1, WantParked, false, 1, false), [], 1)
  {
    var u := Next(Next(w, DoPark).0, DoSchedule(1)).0;
    assert Waiting(u, Scheduler(1, WantParked, false, 1, false), [Parked], 0);
    ExecuteIsCommit(u, Parked, 0, None);
  }

  lemma {:induction false} ArmAgain(w: World)
    requires Waiting(w, Scheduler(1, WantParked, false, 1, false), [], 1)
    ensures var v := Next(Next(w, DoArm).0, DoSchedule(1)).0;
      Waiting(v, Scheduler(2, WantArming, false, 2, false), [Rearmed], 1)
  {
  }

  /** Just before the re-entry. */
  lemma {:induction false} BeforeReentry() returns (w: World, v: World, events: seq<Event>)
    ensures w == Start(Initial(Narrow, 0).value) && LegalRun(w, events) && v == Run(w, events)
    ensures Reentry == events + [DoExecute(Rearmed, 0, None)]
    ensures Waiting(v, Scheduler(2, WantArming, false, 2, false), [Rearmed], 1)
  {
    w := Start(Initial(Narrow, 0).value);
    events := [];
    OneMore(w, [], DoPark);
    OneMore(w, [] + [DoPark], DoSchedule(1));
    OneMore(w, [] + [DoPark] + [DoSchedule(1)], DoExecute(Parked, 0, None));
    OneMore(w, [] + [DoPark] + [DoSchedule(1)] + [DoExecute(Parked, 0, None)], DoArm);
    OneMore(w, [] + [DoPark] + [DoSchedule(1)] + [DoExecute(Parked, 0, None)] + [DoArm], DoSchedule(1));
    events := [] + [DoPark] + [DoSchedule(1)] + [DoExecute(Parked, 0, None)] + [DoArm] + [DoSchedule(1)];
    v := Run(w, events);
    ParkOnce(w);
    ArmAgain(Next(Next(Next(w, DoPark).0, DoSchedule(1)).0, DoExecute(Parked, 0, None)).0);
  }

  /** A legal run after which a prefix may be published that was not built. */
  lemma {:induction false} GapIsPublished()
    ensures Legal(Narrow, 0, Reentry) && PublishPrefix(After(Narrow, 0, Reentry).s, 2).Ok?
    ensures !BuiltBelow(After(Narrow, 0, Reentry).h, 2)
  {
    var w, v, events := BeforeReentry();
    var e := DoExecute(Rearmed, 0, None);
    OneMore(w, events, e);
    RunSplits(w, events, [e]);
    RunOne(v, e);
    assert LeavesGap(v.s, e);
    ReachedInv(Narrow, 0, events);
    ExecuteIsCommit(v, Rearmed, 0, None);
    CommitKeeps(v.s.config, v.s.worker, v.h, ArmStep, DefaultRows(1, 0)[..1]);
    PublishedPrefixIff(Narrow, 0, Reentry, 2);
  }
}
