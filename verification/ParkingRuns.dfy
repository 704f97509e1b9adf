/**
 Every run of the parking protocol. A World is the request's state together
 with what the environment remembers: the acknowledgements sent so far (which
 may be delivered late, out of order, repeatedly or never), the worker's
 history, which intents ask for drafting, and the intent of the last step the
 worker executed.
 */
module ParkingRuns {
  import opened Common
  import opened Parking
  import opened ParkingRing

  datatype World = World(s: State, h: History, acks: set<Ack>, drafting: seq<bool>, last: nat)

  datatype Event =
    | DoPark
    | DoArm
    | DoSchedule(cap: int)
    | DoExecute(step: Step, accepted: int, given: Option<seq<Row>>)
    | DoReceive(ack: Ack)
    | DoPublish(end: int)
    | DoCancel

  /** What a caller of the operation sees. */
  datatype Output =
    | Quiet
    | Failed(error: Error)
    | Issued(step: Step)
    | Acked(ack: Ack)
    | Accepted(accepted: bool)

  /** The world just after construction. */
  function Start(s: State): World {
    World(s, History(s.worker.computed, [], [], s.worker.computed), {}, [true], 0)
  }

  /** The queue head leaves the queue, whatever becomes of it. */
  function Popped(w: World): World
    requires w.s.pending != []
  {
    w.(s := w.s.(pending := w.s.pending[1..]))
  }

  /** A popped step is committed. */
  function CommittedStep(u: World, step: Step, values: seq<Row>): World
    requires u.s.config.chunk >= 1
  {
    var (worker, ready) := Commit(u.s.config, u.s.worker, step.action, values);
    World(u.s.(worker := worker),
          Remember(u.s.config, u.s.worker, u.h, step.action, values),
          u.acks + {Reply(step, worker.computed, ready)},
          u.drafting,
          step.intent)
  }

  function AfterExecute(w: World, step: Step, accepted: int, given: Option<seq<Row>>): World
    requires w.s.config.chunk >= 1
  {
    var (t, result) := Execute(w.s, step, accepted, given);
    if result.Err? then w.(s := t)
    else if w.s.sched.closed then w.(s := t, acks := w.acks + {result.value})
    else
      var values := CombinedRows(w.s.worker, step, given)[..accepted + 1];
      World(t, Remember(w.s.config, w.s.worker, w.h, step.action, values), w.acks + {result.value}, w.drafting, step.intent)
  }

  function Next(w: World, e: Event): (World, Output)
    requires w.s.config.chunk >= 1
  {
    match e
    case DoPark =>
      (match Park(w.s)
       case Ok(t) => (w.(s := t, drafting := w.drafting + [false]), Quiet)
       case Err(error) => (w, Failed(error)))
    case DoArm =>
      (match Arm(w.s)
       case Ok(t) => (w.(s := t, drafting := w.drafting + [true]), Quiet)
       case Err(error) => (w, Failed(error)))
    case DoSchedule(cap) =>
      var (t, result) := Schedule(w.s, cap);
      (w.(s := t), match result case Ok(step) => Issued(step) case Err(error) => Failed(error))
    case DoExecute(step, accepted, given) =>
      (AfterExecute(w, step, accepted, given),
       match Execute(w.s, step, accepted, given).1 case Ok(ack) => Acked(ack) case Err(error) => Failed(error))
    case DoReceive(ack) =>
      var (t, accepted) := Receive(w.s, ack);
      (w.(s := t), Accepted(accepted))
    case DoPublish(end) =>
      (w, match PublishPrefix(w.s, end) case Ok(_) => Quiet case Err(error) => Failed(error))
    case DoCancel => (w.(s := Cancel(w.s)), Quiet)
  }

  /** The network never invents an acknowledgement for this owner; other owners' may arrive at any time. */
  predicate Deliverable(w: World, e: Event) {
    e.DoReceive? ==> e.ack in w.acks || e.ack.owner != w.s.config.owner
  }

  ghost predicate LegalRun(w: World, events: seq<Event>)
    requires w.s.config.chunk >= 1
    decreases |events|
  {
    events == [] ||
    (Deliverable(w, events[0]) &&
     (NextKeepsGeometry(w, events[0]); LegalRun(Next(w, events[0]).0, events[1..])))
  }

  function Run(w: World, events: seq<Event>): World
    requires w.s.config.chunk >= 1
    decreases |events|
  {
    if events == [] then w
    else
      NextKeepsGeometry(w, events[0]);
      Run(Next(w, events[0]).0, events[1..])
  }

  function Trace(w: World, events: seq<Event>): seq<Output>
    requires w.s.config.chunk >= 1
    decreases |events|
  {
    if events == [] then []
    else
      NextKeepsGeometry(w, events[0]);
      [Next(w, events[0]).1] + Trace(Next(w, events[0]).0, events[1..])
  }

  lemma {:induction false} NextKeepsGeometry(w: World, e: Event)
    requires w.s.config.chunk >= 1
    ensures Next(w, e).0.s.config == w.s.config && Next(w, e).0.h.base == w.h.base
  {
  }

  /** The world of a freshly constructed request after a sequence of events. */
  function After(config: Config, computed: int, events: seq<Event>): World
    requires ValidGeometry(config.window, config.slack, config.chunk)
  {
    Run(Start(Initial(config, computed).value), events)
  }

  ghost predicate Legal(config: Config, computed: int, events: seq<Event>)
    requires ValidGeometry(config.window, config.slack, config.chunk)
  {
    LegalRun(Start(Initial(config, computed).value), events)
  }

  function Outputs(config: Config, computed: int, events: seq<Event>): seq<Output>
    requires ValidGeometry(config.window, config.slack, config.chunk)
  {
    Trace(Start(Initial(config, computed).value), events)
  }

  lemma {:induction false} ExecuteIsCommit(w: World, step: Step, accepted: int, given: Option<seq<Row>>)
    requires w.s.config.chunk >= 1
    requires w.s.pending != [] && w.s.pending[0] == step && !w.s.sched.closed
    requires Refusal(w.s.config, w.s.worker, step, accepted, given) == None
    ensures var values := CombinedRows(w.s.worker, step, given)[..accepted + 1]; var u := Popped(w);
      var (worker, ready) := Commit(u.s.config, u.s.worker, step.action, values);
      && |values| == accepted + 1 >= 1
      && AfterExecute(w, step, accepted, given) == CommittedStep(u, step, values)
      && Execute(w.s, step, accepted, given).1 == Ok(Reply(step, worker.computed, ready))
  {
  }
}
