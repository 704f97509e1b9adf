/**
 The draft-parking protocol of bench/spec_k0_screen.py, on values: the scheduler
 and worker state of one request, and one function per protocol operation.
 ParkingModel (in ParkingClass.dfy) is the object whose methods are proved
 against these functions; ParkingRuns.dfy proves what every run keeps.
 */
module Parking {
  import opened Common

  datatype Strategy = Eager | Deferred
  datatype Action = ParkStep | ArmStep | ActiveStep
  datatype Desired = WantActive | WantParked | WantArming
  datatype WorkerMode = ModeActive | ModeParked | ModeArmed
  datatype Owner = Owner(request: string, epoch: int)

  /** One combined-state row: the default position stand-in or a feature vector. */
  datatype Row = Position(p: int) | Feature(values: seq<int>)

  datatype Step = Step(owner: Owner, sequence: nat, intent: nat, cap: nat, action: Action)

  datatype Reason = NoReason | Cancelled | MissingContext

  datatype Ack = Ack(owner: Owner, sequence: nat, intent: nat, draftingReady: bool, anchor: int, reason: Reason)

  datatype Error =
    | InvalidGeometry
    | RequestClosed
    | InvalidCap
    | NotFifo
    | InvalidArgument
    | StaleProposal
    | WrongRowCount
    | PrefixNotMaterialized

  /** What the constructor fixes for the request's lifetime. */
  datatype Config = Config(owner: Owner, strategy: Strategy, window: int, slack: int, chunk: int)

  datatype Scheduler = Scheduler(intent: nat, desired: Desired, ready: bool, nextSequence: nat, closed: bool)

  datatype Worker = Worker(
    computed: int,
    materialized: Option<int>,
    proposalAnchor: Option<int>,
    mode: WorkerMode,
    rows: map<int, Row>,
    queryPasses: nat,
    rebuiltPositions: seq<int>,
    rebuildChunks: seq<seq<int>>)

  datatype State = State(config: Config, sched: Scheduler, pending: seq<Step>, worker: Worker)

  const CAPS: set<int> := {1, 3, 5, 7}

  predicate ValidGeometry(window: int, slack: int, chunk: int) {
    1 <= window && 1 <= chunk && 0 <= slack
  }

  /** Rows the retention ring may hold. */
  function Capacity(c: Config): int { c.window + c.slack }

  function Initial(config: Config, computed: int): Result<State, Error> {
    if !ValidGeometry(config.window, config.slack, config.chunk) then
      Err(InvalidGeometry)
    else
      Ok(State(config, Scheduler(0, WantActive, true, 0, false), [],
               Worker(computed, Some(computed), Some(computed), ModeActive, map[], 0, [], [])))
  }

  // ---------- Scheduler side ----------

  function Park(s: State): Result<State, Error> {
    if s.sched.closed then Err(RequestClosed)
    else Ok(s.(sched := s.sched.(intent := s.sched.intent + 1, desired := WantParked, ready := false)))
  }

  function Arm(s: State): Result<State, Error> {
    if s.sched.closed then Err(RequestClosed)
    else Ok(s.(sched := s.sched.(intent := s.sched.intent + 1, desired := WantArming, ready := false)))
  }

  /** The step the scheduler would issue now. */
  function NextStep(owner: Owner, q: Scheduler, desiredCap: nat): Step {
    if q.desired == WantParked then
      Step(owner, q.nextSequence, q.intent, 0, ParkStep)
    else if q.desired == WantArming || !q.ready then
      Step(owner, q.nextSequence, q.intent, 0, ArmStep)
    else
      Step(owner, q.nextSequence, q.intent, desiredCap, ActiveStep)
  }

  function Schedule(s: State, desiredCap: int): (State, Result<Step, Error>) {
    if s.sched.closed || desiredCap !in CAPS then
      (s, Err(InvalidCap))
    else
      var step := NextStep(s.config.owner, s.sched, desiredCap);
      (s.(sched := s.sched.(nextSequence := s.sched.nextSequence + 1), pending := s.pending + [step]), Ok(step))
  }

  function Receive(s: State, ack: Ack): (State, bool) {
    if s.sched.closed || ack.owner != s.config.owner || ack.intent != s.sched.intent then (s, false)
    else if s.sched.desired == WantArming && ack.draftingReady then
      (s.(sched := s.sched.(desired := WantActive, ready := true)), true)
    else (s, false)
  }

  function PublishPrefix(s: State, end: int): Result<(), Error> {
    if s.worker.materialized == None || end > s.worker.materialized.value then Err(PrefixNotMaterialized) else Ok(())
  }

  function Cancel(s: State): State {
    s.(sched := s.sched.(closed := true, ready := false), worker := s.worker.(proposalAnchor := None))
  }

  predicate LeaseReleasable(s: State) { s.sched.closed && s.pending == [] }

  // ---------- The retention ring ----------

  /** rows without the positions below lower. */
  function Trimmed(rows: map<int, Row>, lower: int): (r: map<int, Row>)
    ensures forall p :: p in r <==> p in rows && lower <= p
    ensures forall p :: p in r ==> r[p] == rows[p]
  {
    map p | p in rows && p >= lower :: rows[p]
  }

  /** rows with values stored from position start on, and every position below lower dropped. */
  function Retained(rows: map<int, Row>, start: int, values: seq<Row>, lower: int): (r: map<int, Row>)
    ensures forall p :: p in r <==> lower <= p && (p in rows || start <= p < start + |values|)
    ensures forall p :: p in r ==> r[p] == if start <= p < start + |values| then values[p - start] else rows[p]
  {
    Trimmed(rows + Placed(start, values, |values|), lower)
  }

  /** The first n values stored at start, start + 1, ... */
  function Placed(start: int, values: seq<Row>, n: nat): (r: map<int, Row>)
    requires n <= |values|
    ensures forall p :: p in r <==> start <= p < start + n
    ensures forall p :: p in r ==> r[p] == values[p - start]
  {
    if n == 0 then map[] else Placed(start, values, n - 1)[start + n - 1 := values[n - 1]]
  }

  /** The ring after retaining the rows of a step that starts at position start. */
  function RingAfter(c: Config, rows: map<int, Row>, start: int, values: seq<Row>): map<int, Row> {
    Retained(rows, start, values, start + |values| - Capacity(c))
  }

  // ---------- Rebuilding ----------

  /** required cut into consecutive pieces of size elements, the last one possibly shorter. */
  function Chunks(required: seq<int>, size: nat): seq<seq<int>>
    requires size >= 1
  {
    if required == [] then []
    else if |required| <= size then [required]
    else [required[..size]] + Chunks(required[size..], size)
  }

  lemma {:induction false} ChunksCoverExactly(required: seq<int>, size: nat)
    requires size >= 1
    ensures Flatten(Chunks(required, size)) == required
    ensures forall c :: c in Chunks(required, size) ==> 1 <= |c| <= size
    ensures forall k :: 0 <= k < |Chunks(required, size)| - 1 ==> |Chunks(required, size)[k]| == size
  {
    if required == [] {
    } else if |required| <= size {
      assert Chunks(required, size)[1..] == [];
    } else {
      ChunksCoverExactly(required[size..], size);
      assert Chunks(required, size)[1..] == Chunks(required[size..], size);
      assert required == required[..size] + required[size..];
    }
  }

  /** First position the draft context lacks but the live window ending at end needs. */
  function DirtyStart(c: Config, materialized: Option<int>, end: int): int {
    Max(Max(0, end - c.window), match materialized case Some(m) => m case None => 0)
  }

  predicate AllPresent(required: seq<int>, rows: map<int, Row>) {
    forall p :: p in required ==> p in rows
  }

  /** Draft maintenance must replay retained rows: the context stops short of the current position. */
  predicate NeedsReplay(c: Config, w: Worker) {
    c.strategy == Deferred && w.materialized != Some(w.computed)
  }

  // ---------- Worker side ----------

  /** Deferred park step: retain the committed rows, build nothing. */
  function KeepForLater(c: Config, w: Worker, values: seq<Row>): Worker {
    Worker(w.computed + |values|, w.materialized, None, ModeParked,
           RingAfter(c, w.rows, w.computed, values), w.queryPasses, [], [])
  }

  /** Eager park step: maintain the context, without drafting. */
  function MaintainOnly(w: Worker, values: seq<Row>): Worker {
    var end := w.computed + |values|;
    Worker(end, Some(end), None, ModeParked, w.rows, w.queryPasses, [], [])
  }

  /** An arming or active step whose context is, or has just been brought, up to date. */
  function Drafted(c: Config, w: Worker, action: Action, end: int, rows: map<int, Row>, required: seq<int>): Worker
    requires c.chunk >= 1
  {
    Worker(end, Some(end), Some(end), if action == ArmStep then ModeArmed else ModeActive,
           rows, w.queryPasses + 1, required, Chunks(required, c.chunk))
  }

  /** Deferred re-entry: rebuild what the live window lacks, unless the ring no longer has it. */
  function Rebuild(c: Config, w: Worker, action: Action, values: seq<Row>): (Worker, bool)
    requires c.chunk >= 1
  {
    var end := w.computed + |values|;
    var rows := RingAfter(c, w.rows, w.computed, values);
    var required := Range(DirtyStart(c, w.materialized, end), end);
    if AllPresent(required, rows) then
      (Drafted(c, w, action, end, rows, required), true)
    else
      (Worker(end, w.materialized, None, ModeParked, rows, w.queryPasses, [], []), false)
  }

  /** The worker after an accepted step, and whether it drafted. */
  function Commit(c: Config, w: Worker, action: Action, values: seq<Row>): (Worker, bool)
    requires c.chunk >= 1
  {
    if action == ParkStep then
      (if c.strategy == Deferred then KeepForLater(c, w, values) else MaintainOnly(w, values), false)
    else if NeedsReplay(c, w) then
      Rebuild(c, w, action, values)
    else
      (Drafted(c, w, action, w.computed + |values|, w.rows, []), true)
  }

  function DefaultRows(start: int, cap: nat): (r: seq<Row>)
    ensures |r| == cap + 1
  {
    seq(cap + 1, i => Position(start + i))
  }

  /** The rows the worker receives: the caller's, or position stand-ins. */
  function CombinedRows(w: Worker, step: Step, given: Option<seq<Row>>): seq<Row> {
    match given
    case Some(rows) => rows
    case None => DefaultRows(w.computed, step.cap)
  }

  /** The checks execute makes before it changes anything but the queue. */
  function Refusal(c: Config, w: Worker, step: Step, accepted: int, given: Option<seq<Row>>): Option<Error> {
    if step.owner != c.owner || !(0 <= accepted <= step.cap) then Some(InvalidArgument)
    else if step.cap != 0 && w.proposalAnchor != Some(w.computed) then Some(StaleProposal)
    else if |CombinedRows(w, step, given)| != step.cap + 1 then Some(WrongRowCount)
    else None
  }

  function Reply(step: Step, anchor: int, ready: bool): Ack {
    Ack(step.owner, step.sequence, step.intent, ready, anchor,
        if ready || step.action == ParkStep then NoReason else MissingContext)
  }

  function Execute(s: State, step: Step, accepted: int, given: Option<seq<Row>>): (State, Result<Ack, Error>)
    requires s.config.chunk >= 1
  {
    if s.pending == [] || s.pending[0] != step then
      (s, Err(NotFifo))
    else
      var popped := s.(pending := s.pending[1..]);
      if s.sched.closed then
        (popped, Ok(Ack(step.owner, step.sequence, step.intent, false, s.worker.computed, Cancelled)))
      else match Refusal(s.config, s.worker, step, accepted, given)
        case Some(error) => (popped, Err(error))
        case None =>
          var values := CombinedRows(s.worker, step, given)[..accepted + 1];
          var (worker, ready) := Commit(s.config, s.worker, step.action, values);
          (popped.(worker := worker), Ok(Reply(step, worker.computed, ready)))
  }
}
