/**
 stop, launch, watchdog and restore of bench/spec_node.py as one state machine,
 with the launch script that launch runs, launch-glm53big-dcp.sh: every docker
 command and every marker file is one step, a script may die after any step, and
 the watchdog acts at any time.
 */
module NodeSwap {
  import opened Common

  /** The names a container of the experiment can carry. */
  datatype Name = Serving | Backup | Finished

  datatype Box = Box(name: Name, running: bool)

  /** The original container unless it was removed, the experimental one once created, and the marker files. */
  datatype Node = Node(original: Option<Box>, experiment: Option<Box>, disarmed: bool, tripped: bool, watching: bool)

  datatype StopStep = CheckOriginal | RenameAway | StopOriginal | CheckStopped | StartFlusher | ArmWatchdog

  /** From CheckFiles on the steps are those of the launch script. */
  datatype LaunchStep =
    | CheckTripped
    | CheckOverlap
    | CheckName
    | CheckFiles
    | RemoveHolder
    | RunContainer
    | CheckRunning

  datatype RestoreStep =
    | Disarm
    | InspectName
    | StopExperiment
    | RenameFinished
    | InspectOriginal
    | RenameBack(seen: Box)
    | FlushCache(seen: Box)
    | StartOriginal

  /** The one script in progress; Restored is a restore that ran to its end, Failed a script that raised. */
  datatype Script = Idle | Failed | Restored | Stop(at: StopStep) | Launch(step: LaunchStep) | Restore(next: RestoreStep)

  /** leaked: an unchecked stop left the experimental container running. */
  datatype World = World(node: Node, script: Script, launched: bool, leaked: bool)

  datatype Event =
    | BeginStop | BeginLaunch | BeginRestore
    | Advance(ok: bool)
    | Crash
    | Watchdog(ok: bool)
    | ExperimentExits
    | OriginalExits

  predicate Quiet(s: Script) { s.Idle? || s.Failed? || s.Restored? }

  predicate OriginalHolds(n: Node, name: Name) { n.original.Some? && n.original.value.name == name }

  predicate OriginalRuns(n: Node) { n.original.Some? && n.original.value.running }

  function Occupant(n: Node, name: Name): (experimental: Option<bool>)
    // Some(true) for the experimental container, Some(false) for the original.
  {
    if OriginalHolds(n, name) then Some(false)
    else if n.experiment.Some? && n.experiment.value.name == name then Some(true)
    else None
  }

  /** The node once whatever carries the name has been removed. */
  function Freed(n: Node, name: Name): Node {
    match Occupant(n, name)
    case None => n
    case Some(true) => n.(experiment := None)
    case Some(false) => n.(original := None)
  }

  function Renamed(n: Node, name: Name): Node
    requires n.original.Some?
  {
    n.(original := Some(n.original.value.(name := name)))
  }

  function Turned(n: Node, running: bool): Node
    requires n.original.Some?
  {
    n.(original := Some(n.original.value.(running := running)))
  }

  // ---------- The scripts, one step each ----------

  // ok says whether the command of the step took effect. A command that takes
  // effect and raises all the same is its step followed by a crash.

  function AdvanceStop(w: World, at: StopStep, ok: bool): World {
    var n := w.node;
    match at
    case CheckOriginal =>
      if ok && Occupant(n, Serving) == Some(false) then w.(script := Stop(RenameAway)) else w.(script := Failed)
    case RenameAway =>
      if ok && OriginalHolds(n, Serving) && Occupant(n, Backup).None?
      then w.(node := Renamed(n, Backup), script := Stop(StopOriginal))
      else w.(script := Failed)
    case StopOriginal =>
      if ok && n.original.Some? then w.(node := Turned(n, false), script := Stop(CheckStopped))
      else w.(script := Failed)
    case CheckStopped =>
      if !ok || n.original.None? || OriginalRuns(n) then w.(script := Failed) else w.(script := Stop(StartFlusher))
    case StartFlusher =>
      if ok then w.(script := Stop(ArmWatchdog)) else w.(script := Failed)
    case ArmWatchdog =>
      w.(node := n.(watching := true), script := Idle)
  }

  function AdvanceLaunch(w: World, at: LaunchStep, ok: bool): World {
    var n := w.node;
    match at
    case CheckTripped =>
      if n.tripped then w.(script := Failed) else w.(script := Launch(CheckOverlap))
    case CheckOverlap =>
      if !ok || n.original.None? || OriginalRuns(n) then w.(script := Failed) else w.(script := Launch(CheckName))
    case CheckName =>
      // A failed inspection reads as a free name.
      if ok && Occupant(n, Serving).Some? then w.(script := Failed) else w.(script := Launch(CheckFiles))
    case CheckFiles =>
      if ok then w.(script := Launch(RemoveHolder)) else w.(script := Failed)
    case RemoveHolder =>
      // docker rm -f: the script goes on whether or not it removed the holder of the name.
      w.(node := if ok then Freed(n, Serving) else n, script := Launch(RunContainer))
    case RunContainer =>
      // The launch script goes on here too.
      if ok && Occupant(n, Serving).None?
      then World(n.(experiment := Some(Box(Serving, true))), Launch(CheckRunning), true, w.leaked)
      else w.(script := Launch(CheckRunning))
    case CheckRunning =>
      if ok && n.experiment.Some? && n.experiment.value.running then w.(script := Idle) else w.(script := Failed)
  }

  function AdvanceRestore(w: World, at: RestoreStep, ok: bool): World {
    var n := w.node;
    match at
    case Disarm =>
      w.(node := n.(disarmed := true), script := Restore(InspectName))
    case InspectName =>
      // A failed inspection reads as a free name.
      w.(script := Restore(if ok && Occupant(n, Serving) == Some(true) then StopExperiment else InspectOriginal))
    case StopExperiment =>
      // check=False: the script goes on whether or not the container stopped.
      if n.experiment.None? || Occupant(n, Serving) != Some(true) then w.(script := Restore(RenameFinished))
      else if ok then w.(node := n.(experiment := Some(n.experiment.value.(running := false))),
                         script := Restore(RenameFinished), leaked := false)
      else w.(script := Restore(RenameFinished), leaked := n.experiment.value.running)
    case RenameFinished =>
      if ok && n.experiment.Some? && Occupant(n, Serving) == Some(true) && Occupant(n, Finished).None?
      then w.(node := n.(experiment := Some(n.experiment.value.(name := Finished))), script := Restore(InspectOriginal))
      else w.(script := Failed)
    case InspectOriginal =>
      if ok && n.original.Some? then w.(script := Restore(RenameBack(n.original.value))) else w.(script := Failed)
    case RenameBack(seen) =>
      if seen.name == Serving then w.(script := Restore(FlushCache(seen)))
      else if ok && n.original.Some? && Occupant(n, Serving).None?
      then w.(node := Renamed(n, Serving), script := Restore(FlushCache(seen)))
      else w.(script := Failed)
    case FlushCache(seen) =>
      if seen.running then w.(script := Restored)
      else if ok then w.(script := Restore(StartOriginal))
      else w.(script := Failed)
    case StartOriginal =>
      if ok && n.original.Some? then w.(node := Turned(n, true), script := Restored) else w.(script := Failed)
  }

  /** A raised error ends a script; so does death after any step. */
  function Step(w: World, e: Event): World {
    var n := w.node;
    match e
    case BeginStop => w.(script := Stop(CheckOriginal))
    case BeginLaunch => w.(script := Launch(CheckTripped))
    case BeginRestore => w.(script := Restore(Disarm))
    case Advance(ok) =>
      (match w.script
       case Stop(at) => AdvanceStop(w, at, ok)
       case Launch(at) => AdvanceLaunch(w, at, ok)
       case Restore(at) => AdvanceRestore(w, at, ok)
       case _ => w)
    case Crash => w.(script := Idle)
    case Watchdog(ok) =>
      // The loop ends when disarmed; otherwise it trips and kills, unchecked, its own experiment under the serving name.
      if n.disarmed then w.(node := n.(watching := false))
      else if ok && Occupant(n, Serving) == Some(true) && n.experiment.Some?
      then w.(node := n.(tripped := true, watching := false, experiment := Some(n.experiment.value.(running := false))),
              leaked := false)
      else w.(node := n.(tripped := true, watching := false))
    case ExperimentExits =>
      if n.experiment.Some?
      then w.(node := n.(experiment := Some(n.experiment.value.(running := false))), leaked := false)
      else w
    case OriginalExits =>
      if n.original.Some? then w.(node := Turned(n, false)) else w
  }

  /** Scripts run one at a time, and the experiment is launched once. */
  predicate Allowed(w: World, e: Event) {
    match e
    case BeginStop => Quiet(w.script)
    case BeginLaunch => Quiet(w.script) && !w.launched
    case BeginRestore => Quiet(w.script)
    case Advance(_) => !Quiet(w.script)
    case Watchdog(_) => w.node.watching
    case _ => true
  }

  function After(w: World, events: seq<Event>): World {
    if events == [] then w else Step(After(w, events[..|events| - 1]), events[|events| - 1])
  }

  predicate AllAllowed(w: World, events: seq<Event>) {
    events == [] ||
    (AllAllowed(w, events[..|events| - 1]) && Allowed(After(w, events[..|events| - 1]), events[|events| - 1]))
  }

  /** As prepare leaves it: the original running under its own name. */
  const Prepared := World(Node(Some(Box(Serving, true)), None, false, false, false), Idle, false, false)

  // ---------- What every run keeps ----------

  predicate Overlap(n: Node) { OriginalRuns(n) && n.experiment.Some? && n.experiment.value.running }

  /** The experimental container has left the serving name, or was never made. */
  predicate PutAway(n: Node) { n.experiment.Some? ==> n.experiment.value.name == Finished }

  /** What the script in progress has established. */
  predicate Established(w: World) {
    var n := w.node;
    match w.script
    case Stop(at) =>
      (at.RenameAway? ==> OriginalHolds(n, Serving)) &&
      (at.StopOriginal? || at.CheckStopped? || at.StartFlusher? || at.ArmWatchdog? ==> OriginalHolds(n, Backup))
    case Launch(at) =>
      (w.launched ==> at.CheckRunning?) &&
      (at.CheckName? || at.CheckFiles? || at.RemoveHolder? || at.RunContainer? ==> !OriginalRuns(n)) &&
      (at.CheckName? || at.CheckFiles? || at.RemoveHolder? ==> n.original.Some?)
    case Restore(at) => (!at.Disarm? ==> n.disarmed) && EstablishedBy(n, at, w.leaked)
    case Restored => n.disarmed && OriginalHolds(n, Serving)
    case _ => true
  }

  predicate EstablishedBy(n: Node, at: RestoreStep, leaked: bool) {
    match at
    case StopExperiment => !PutAway(n)
    case RenameFinished => !PutAway(n) && (n.experiment.value.running ==> leaked)
    case RenameBack(seen) => OriginalHolds(n, seen.name) && (OriginalRuns(n) ==> seen.running)
    case FlushCache(seen) => PutAway(n) && OriginalHolds(n, Serving)
    case StartOriginal => PutAway(n) && OriginalHolds(n, Serving)
    case _ => true
  }

  predicate Inv(w: World) {
    var n := w.node;
    && !OriginalHolds(n, Finished)
    && (n.experiment.Some? <==> w.launched)
    && (n.experiment.Some? ==> n.experiment.value.name != Backup)
    && (!PutAway(n) ==> n.original.None? || n.original == Some(Box(Backup, false)))
    && (n.experiment.Some? && n.experiment.value.name == Finished && n.experiment.value.running ==> w.leaked)
    && Established(w)
  }

  lemma {:induction false} StopKeepsInv(w: World, ok: bool)
    requires Inv(w) && w.script.Stop?
    ensures Inv(AdvanceStop(w, w.script.at, ok))
  {
    match w.script.at
    case CheckOriginal =>
    case RenameAway =>
    case StopOriginal =>
    case CheckStopped =>
    case StartFlusher =>
    case ArmWatchdog =>
  }

  lemma {:induction false} LaunchKeepsInv(w: World, ok: bool)
    requires Inv(w) && w.script.Launch?
    ensures Inv(AdvanceLaunch(w, w.script.step, ok))
  {
    match w.script.step
    case CheckTripped =>
    case CheckOverlap =>
    case CheckName =>
    case CheckFiles =>
    case RemoveHolder =>
    case RunContainer =>
    case CheckRunning =>
  }

  lemma {:induction false} RestoreKeepsInv(w: World, ok: bool)
    requires Inv(w) && w.script.Restore?
    ensures Inv(AdvanceRestore(w, w.script.next, ok))
  {
    match w.script.next
    case Disarm =>
    case InspectName =>
    case StopExperiment =>
    case RenameFinished =>
    case InspectOriginal =>
    case RenameBack(_) =>
    case FlushCache(_) =>
    case StartOriginal =>
  }

  lemma {:induction false} StepKeepsInv(w: World, e: Event)
    requires Inv(w) && Allowed(w, e)
    ensures Inv(Step(w, e))
  {
    if e.Advance? {
      match w.script
      case Stop(_) => StopKeepsInv(w, e.ok);
      case Launch(_) => LaunchKeepsInv(w, e.ok);
      case Restore(_) => RestoreKeepsInv(w, e.ok);
      case _ =>
    }
  }

  lemma {:induction false} RunKeepsInv(w: World, events: seq<Event>)
    requires Inv(w) && AllAllowed(w, events)
    ensures Inv(After(w, events))
  {
    if events != [] {
      RunKeepsInv(w, events[..|events| - 1]);
      StepKeepsInv(After(w, events[..|events| - 1]), events[|events| - 1]);
    }
  }

  /** In every reachable state, both containers run only if an unchecked stop did not take effect. */
  lemma {:induction false} OverlapNeedsLeak(events: seq<Event>)
    requires AllAllowed(Prepared, events)
    ensures Overlap(After(Prepared, events).node) ==> After(Prepared, events).leaked
  {
    RunKeepsInv(Prepared, events);
  }

  /** Every time restore stops the experimental container, the unchecked command takes effect. */
  predicate UncheckedStopsHold(events: seq<Event>) {
    events == [] ||
    (UncheckedStopsHold(events[..|events| - 1]) &&
     (events[|events| - 1] == Advance(false) ==> After(Prepared, events[..|events| - 1]).script != Restore(StopExperiment)))
  }

  lemma {:induction false} NoLeak(events: seq<Event>)
    requires UncheckedStopsHold(events)
    ensures !After(Prepared, events).leaked
  {
    if events != [] { NoLeak(events[..|events| - 1]); }
  }

  /**
   Original and experiment never run at once, in any interleaving in which the
   unchecked stop takes effect; every other command may fail.
   */
  lemma {:induction false} NeverBoth(events: seq<Event>)
    requires AllAllowed(Prepared, events) && UncheckedStopsHold(events)
    ensures !Overlap(After(Prepared, events).node)
  {
    OverlapNeedsLeak(events);
    NoLeak(events);
  }

  // ---------- Tripping ----------

  /** An armed watchdog that acts leaves its mark, never touches the original, and stops the experiment if its kill works. */
  lemma {:induction false} WatchdogTrips(w: World, ok: bool)
    requires !w.node.disarmed
    ensures var n := Step(w, Watchdog(ok)).node;
      && n.tripped && !n.watching && n.original == w.node.original && n.disarmed == w.node.disarmed
      && (ok && !OriginalHolds(w.node, Serving) && Held(w.node) ==> n.experiment == Some(Box(Serving, false)))
      && (!ok || !Held(w.node) || OriginalHolds(w.node, Serving) ==> n.experiment == w.node.experiment)
  {
  }

  /** No launch is past its first check. */
  predicate NotLaunching(s: Script) { s.Launch? ==> s.step == CheckTripped }

  lemma {:induction false} TrippedStep(w: World, e: Event)
    requires w.node.tripped && NotLaunching(w.script)
    ensures var u := Step(w, e); u.node.tripped && NotLaunching(u.script) && u.launched == w.launched
  {
    if e.Advance? {
      match w.script
      case Stop(_) => TrippedStop(w, e.ok);
      case Restore(_) => TrippedRestore(w, e.ok);
      case _ =>
    }
  }

  lemma {:induction false} TrippedStop(w: World, ok: bool)
    requires w.node.tripped && w.script.Stop?
    ensures var u := AdvanceStop(w, w.script.at, ok); u.node.tripped && !u.script.Launch? && u.launched == w.launched
  {
    match w.script.at
    case CheckOriginal =>
    case RenameAway =>
    case StopOriginal =>
    case CheckStopped =>
    case StartFlusher =>
    case ArmWatchdog =>
  }

  lemma {:induction false} TrippedRestore(w: World, ok: bool)
    requires w.node.tripped && w.script.Restore?
    ensures var u := AdvanceRestore(w, w.script.next, ok); u.node.tripped && !u.script.Launch? && u.launched == w.launched
  {
    match w.script.next
    case Disarm =>
    case InspectName =>
    case StopExperiment =>
    case RenameFinished =>
    case InspectOriginal =>
    case RenameBack(_) =>
    case FlushCache(_) =>
    case StartOriginal =>
  }

  /** Once the watchdog has tripped, and no launch is under way, nothing is launched any more, whatever happens. */
  lemma {:induction false} NoLaunchAfterTrip(w: World, events: seq<Event>)
    requires w.node.tripped && NotLaunching(w.script)
    ensures var u := After(w, events); u.node.tripped && NotLaunching(u.script) && u.launched == w.launched
  {
    if events != [] {
      NoLaunchAfterTrip(w, events[..|events| - 1]);
      TrippedStep(After(w, events[..|events| - 1]), events[|events| - 1]);
    }
  }

  // ---------- Losing the original ----------

  /** A launch inspects the serving name in vain while the original carries it. */
  predicate Overlooks(w: World, e: Event) {
    w.script == Launch(CheckName) && e == Advance(false) && OriginalHolds(w.node, Serving)
  }

  /** Whether the launch in progress has overlooked the original after one more step. */
  predicate Overlooking(w: World, e: Event, overlooked: bool) {
    match e
    case Advance(_) => Overlooks(w, e) || (w.script.Launch? && overlooked)
    case Watchdog(_) => overlooked
    case ExperimentExits => overlooked
    case OriginalExits => overlooked
    case _ => false
  }

  /** The launch in progress has overlooked the original. */
  predicate Overlooked(events: seq<Event>) {
    events != [] &&
    var before, e := events[..|events| - 1], events[|events| - 1];
    Overlooking(After(Prepared, before), e, Overlooked(before))
  }

  /** At some point a launch that had overlooked the original freed the name. */
  predicate Removed(events: seq<Event>) {
    events != [] &&
    var before, e := events[..|events| - 1], events[|events| - 1];
    Removed(before) ||
    (Overlooked(before) && After(Prepared, before).script == Launch(RemoveHolder) && e == Advance(true))
  }

  /** Until it frees the name, a launch that did not overlook the original knows the name to be free of it. */
  predicate HolderKnown(w: World, overlooked: bool) {
    match w.script
    case Launch(at) =>
      (at.CheckFiles? || at.RemoveHolder? ==> (overlooked <==> OriginalHolds(w.node, Serving))) &&
      (overlooked ==> !at.CheckTripped? && !at.CheckOverlap? && !at.CheckName?)
    case _ => true
  }

  lemma {:induction false} LaunchKeepsHolder(w: World, ok: bool, overlooked: bool)
    requires w.script.Launch? && HolderKnown(w, overlooked)
    ensures HolderKnown(AdvanceLaunch(w, w.script.step, ok), Overlooks(w, Advance(ok)) || overlooked)
  {
    match w.script.step
    case CheckTripped =>
    case CheckOverlap =>
    case CheckName =>
    case CheckFiles =>
    case RemoveHolder =>
    case RunContainer =>
    case CheckRunning =>
  }

  /** Only a launch step leads into the middle of a launch. */
  lemma {:induction false} OthersKeepLaunch(w: World, ok: bool)
    ensures w.script.Stop? ==> !AdvanceStop(w, w.script.at, ok).script.Launch?
    ensures w.script.Restore? ==> !AdvanceRestore(w, w.script.next, ok).script.Launch?
  {
  }

  lemma {:induction false} HolderStep(w: World, e: Event, overlooked: bool)
    requires Allowed(w, e) && HolderKnown(w, overlooked)
    ensures HolderKnown(Step(w, e), Overlooking(w, e, overlooked))
  {
    if e.Advance? {
      if w.script.Launch? { LaunchKeepsHolder(w, e.ok, overlooked); } else { OthersKeepLaunch(w, e.ok); }
    }
  }

  lemma {:induction false} HolderStaysKnown(events: seq<Event>)
    requires AllAllowed(Prepared, events)
    ensures HolderKnown(After(Prepared, events), Overlooked(events))
  {
    if events != [] {
      var before, e := events[..|events| - 1], events[|events| - 1];
      HolderStaysKnown(before);
      HolderStep(After(Prepared, before), e, Overlooked(before));
    }
  }

  lemma {:induction false} StopKeepsOriginal(w: World, ok: bool)
    requires w.script.Stop?
    ensures AdvanceStop(w, w.script.at, ok).node.original.None? <==> w.node.original.None?
  {
    match w.script.at
    case CheckOriginal =>
    case RenameAway =>
    case StopOriginal =>
    case CheckStopped =>
    case StartFlusher =>
    case ArmWatchdog =>
  }

  lemma {:induction false} RestoreKeepsOriginal(w: World, ok: bool)
    requires w.script.Restore?
    ensures AdvanceRestore(w, w.script.next, ok).node.original.None? <==> w.node.original.None?
  {
    match w.script.next
    case Disarm =>
    case InspectName =>
    case StopExperiment =>
    case RenameFinished =>
    case InspectOriginal =>
    case RenameBack(_) =>
    case FlushCache(_) =>
    case StartOriginal =>
  }

  lemma {:induction false} LaunchLoses(w: World, ok: bool)
    requires w.script.Launch?
    ensures AdvanceLaunch(w, w.script.step, ok).node.original.None? <==>
      w.node.original.None? || (w.script.step == RemoveHolder && ok && OriginalHolds(w.node, Serving))
  {
    match w.script.step
    case CheckTripped =>
    case CheckOverlap =>
    case CheckName =>
    case CheckFiles =>
    case RemoveHolder =>
    case RunContainer =>
    case CheckRunning =>
  }

  lemma {:induction false} OthersKeepOriginal(w: World, e: Event)
    requires !e.Advance?
    ensures Step(w, e).node.original.None? <==> w.node.original.None?
  {
  }

  /** One step removes the original exactly when a launch frees the name that the original carries. */
  lemma {:induction false} StepLoses(w: World, e: Event)
    requires Allowed(w, e)
    ensures Step(w, e).node.original.None? <==>
      w.node.original.None? || (w.script == Launch(RemoveHolder) && e == Advance(true) && OriginalHolds(w.node, Serving))
  {
    if e.Advance? {
      match w.script
      case Stop(_) => StopKeepsOriginal(w, e.ok);
      case Launch(_) => LaunchLoses(w, e.ok);
      case Restore(_) => RestoreKeepsOriginal(w, e.ok);
      case _ =>
    } else {
      OthersKeepOriginal(w, e);
    }
  }

  /**
   The original is gone exactly when some launch failed to inspect the name that
   the stopped original carried, and then freed that name for its own container.
   */
  lemma {:induction false} OriginalLostIff(events: seq<Event>)
    requires AllAllowed(Prepared, events)
    ensures After(Prepared, events).node.original.None? <==> Removed(events)
  {
    if events != [] {
      var before, e := events[..|events| - 1], events[|events| - 1];
      OriginalLostIff(before);
      RunKeepsInv(Prepared, before);
      HolderStaysKnown(before);
      StepLoses(After(Prepared, before), e);
    }
  }

  predicate NeverOverlooks(events: seq<Event>) {
    events == [] ||
    (NeverOverlooks(events[..|events| - 1]) && !Overlooks(After(Prepared, events[..|events| - 1]), events[|events| - 1]))
  }

  /** Without such an inspection the original is never lost. */
  lemma {:induction false} OriginalKept(events: seq<Event>)
    requires AllAllowed(Prepared, events) && NeverOverlooks(events)
    ensures !Overlooked(events) && !Removed(events) && After(Prepared, events).node.original.Some?
  {
    OriginalLostIff(events);
    if events != [] { OriginalKept(events[..|events| - 1]); }
  }

  // ---------- Restoring ----------

  /** Steps a script still has before it. */
  function Remaining(s: Script): nat {
    match s
    case Stop(at) =>
      (match at
       case CheckOriginal => 6
       case RenameAway => 5
       case StopOriginal => 4
       case CheckStopped => 3
       case StartFlusher => 2
       case ArmWatchdog => 1)
    case Launch(at) =>
      (match at
       case CheckTripped => 7
       case CheckOverlap => 6
       case CheckName => 5
       case CheckFiles => 4
       case RemoveHolder => 3
       case RunContainer => 2
       case CheckRunning => 1)
    case Restore(at) =>
      (match at
       case Disarm => 8
       case InspectName => 7
       case StopExperiment => 6
       case RenameFinished => 5
       case InspectOriginal => 4
       case RenameBack(_) => 3
       case FlushCache(_) => 2
       case StartOriginal => 1)
    case _ => 0
  }

  /** Every step of a restore brings its end nearer. */
  lemma {:induction false} RestoreAdvances(w: World, ok: bool)
    requires w.script.Restore?
    ensures var s := AdvanceRestore(w, w.script.next, ok).script;
      (s.Restored? || s.Restore? || s.Failed?) && Remaining(s) < Remaining(w.script)
  {
    match w.script.next
    case Disarm =>
    case InspectName =>
    case StopExperiment =>
    case RenameFinished =>
    case InspectOriginal =>
    case RenameBack(_) =>
    case FlushCache(_) =>
    case StartOriginal =>
  }

  /** Events that leave a restore alone: its own steps, the watchdog, and the experiment dying. */
  predicate Undisturbed(events: seq<Event>) {
    forall i :: 0 <= i < |events| ==> events[i].Advance? || events[i].Watchdog? || events[i].ExperimentExits?
  }

  function Advances(events: seq<Event>): nat {
    if events == [] then 0
    else Advances(events[..|events| - 1]) + if events[|events| - 1].Advance? then 1 else 0
  }

  /** The experimental container answers to the serving name. */
  predicate Held(n: Node) { n.experiment.Some? && n.experiment.value.name == Serving }

  /**
   The step about to run stands for a command whose failure the restore does
   not survive: a checked command that is needed, or the inspection that would
   have found the experimental container.
   */
  predicate Essential(w: World) {
    match w.script
    case Restore(at) =>
      (match at
       case Disarm => false
       case InspectName => Held(w.node)
       case StopExperiment => false
       case RenameFinished => true
       case InspectOriginal => true
       case RenameBack(seen) => seen.name != Serving
       case FlushCache(seen) => !seen.running
       case StartOriginal => true)
    case _ => false
  }

  /** No essential command failed on the way. */
  predicate EssentialsHold(w: World, events: seq<Event>) {
    events == [] ||
    (EssentialsHold(w, events[..|events| - 1]) &&
     (events[|events| - 1] == Advance(false) ==> !Essential(After(w, events[..|events| - 1]))))
  }

  /** A restore in which no essential command has failed, with an original to restore. */
  predicate OnTrack(w: World) {
    match w.script
    case Restore(at) =>
      w.node.original.Some? &&
      (match at
       case InspectOriginal => !Held(w.node)
       case RenameBack(seen) => !Held(w.node) && w.node.original == Some(seen)
       case FlushCache(seen) => w.node.original == Some(Box(Serving, seen.running))
       case _ => true)
    case Restored => w.node.original == Some(Box(Serving, true))
    case _ => false
  }

  /** A restore that has raised, or will: the original is gone, or the container that holds the name was missed. */
  predicate OffTrack(w: World) {
    match w.script
    case Failed => true
    case Restore(at) => w.node.original.None? || ((at.InspectOriginal? || at.RenameBack?) && Held(w.node))
    case _ => false
  }

  lemma {:induction false} StaysOnTrack(w: World, ok: bool)
    requires Inv(w) && w.script.Restore? && OnTrack(w)
    ensures var w' := AdvanceRestore(w, w.script.next, ok);
      if ok || !Essential(w) then OnTrack(w') else OffTrack(w')
  {
    match w.script.next
    case Disarm =>
    case InspectName =>
    case StopExperiment =>
    case RenameFinished =>
    case InspectOriginal =>
    case RenameBack(_) =>
    case FlushCache(_) =>
    case StartOriginal =>
  }

  lemma {:induction false} StaysOffTrack(w: World, ok: bool)
    requires Inv(w) && w.script.Restore? && OffTrack(w)
    ensures OffTrack(AdvanceRestore(w, w.script.next, ok))
  {
  }

  lemma {:induction false} OthersKeepTrack(w: World, e: Event)
    requires Inv(w) && (e.Watchdog? || e.ExperimentExits?)
    ensures Step(w, e).script == w.script
    ensures OnTrack(w) <==> OnTrack(Step(w, e))
    ensures OffTrack(w) <==> OffTrack(Step(w, e))
  {
  }

  /** The script is a restore or the end of one, and every own step so far has brought the end nearer. */
  predicate Progress(w: World, s: Script, steps: nat) {
    (s.Restore? || s.Restored? || s.Failed?) && Remaining(s) + steps <= Remaining(w.script)
  }

  lemma {:induction false} TrackStep(w: World, e: Event, held: bool)
    requires Inv(w) && Allowed(w, e) && (e.Advance? || e.Watchdog? || e.ExperimentExits?)
    requires w.script.Restore? || w.script.Restored? || w.script.Failed?
    requires if held then OnTrack(w) else OffTrack(w)
    ensures if held && (e == Advance(false) ==> !Essential(w)) then OnTrack(Step(w, e)) else OffTrack(Step(w, e))
  {
    if e.Advance? {
      if held { StaysOnTrack(w, e.ok); } else { StaysOffTrack(w, e.ok); }
    } else {
      OthersKeepTrack(w, e);
    }
  }

  lemma {:induction false} ProgressStep(w: World, u: World, e: Event, steps: nat)
    requires Inv(u) && Allowed(u, e) && (e.Advance? || e.Watchdog? || e.ExperimentExits?)
    requires Progress(w, u.script, steps)
    ensures Progress(w, Step(u, e).script, if e.Advance? then steps + 1 else steps)
  {
    if e.Advance? { RestoreAdvances(u, e.ok); } else { OthersKeepTrack(u, e); }
  }

  lemma {:induction false} RestoreTracks(w: World, events: seq<Event>)
    requires Inv(w) && w.script == Restore(Disarm) && Undisturbed(events) && AllAllowed(w, events)
    ensures var w' := After(w, events);
      && Inv(w') && Progress(w, w'.script, Advances(events))
      && if w.node.original.Some? && EssentialsHold(w, events) then OnTrack(w') else OffTrack(w')
  {
    if events != [] {
      var before, e := events[..|events| - 1], events[|events| - 1];
      RestoreTracks(w, before);
      StepKeepsInv(After(w, before), e);
      TrackStep(After(w, before), e, w.node.original.Some? && EssentialsHold(w, before));
      ProgressStep(w, After(w, before), e, Advances(before));
    }
  }

  /**
   From any state in which a stop, a launch or an earlier restore ended, died
   or raised, a restore is over after at most eight steps, and then it has put
   the original back, running, exactly when no launch removed the original and
   no essential command failed on the way; otherwise it has raised. Neither the
   watchdog nor the unchecked stop makes a difference.
   */
  lemma {:induction false} RestoreRecovers(events: seq<Event>, more: seq<Event>)
    requires AllAllowed(Prepared, events) && Quiet(After(Prepared, events).script)
    requires Undisturbed(more) && AllAllowed(Step(After(Prepared, events), BeginRestore), more)
    ensures var w := Step(After(Prepared, events), BeginRestore);
      var w' := After(w, more);
      && Remaining(w'.script) + Advances(more) <= 8
      && (Quiet(w'.script) ==> (!Removed(events) && EssentialsHold(w, more) <==> w'.script == Restored))
      && (Quiet(w'.script) ==> (!Removed(events) && EssentialsHold(w, more) <==> w'.script != Failed))
      && (w'.script == Restored ==> w'.node.original == Some(Box(Serving, true)))
  {
    RunKeepsInv(Prepared, events);
    OriginalLostIff(events);
    RestoreTracks(Step(After(Prepared, events), BeginRestore), more);
  }

  // ---------- A restore run alone ----------

  /** What becomes of each command of a restore. */
  datatype RestoreOutcomes = RestoreOutcomes(look: bool, stop: bool, putAway: bool, inspect: bool, rename: bool, flush: bool, start: bool)

  function OutcomeOf(o: RestoreOutcomes, at: RestoreStep): bool {
    match at
    case Disarm => true
    case InspectName => o.look
    case StopExperiment => o.stop
    case RenameFinished => o.putAway
    case InspectOriginal => o.inspect
    case RenameBack(_) => o.rename
    case FlushCache(_) => o.flush
    case StartOriginal => o.start
  }

  /** A restore run alone to its end. */
  function Finish(w: World, o: RestoreOutcomes): (w': World)
    decreases Remaining(w.script)
  {
    if w.script.Restore? then Finish(AdvanceRestore(w, w.script.next, OutcomeOf(o, w.script.next)), o) else w
  }

  /** The experimental container is out of the way, or gets out of it. */
  predicate Cleared(n: Node, o: RestoreOutcomes) { Held(n) ==> o.look && o.putAway }

  /** Every command that the restore of this node needs succeeds. */
  predicate Succeeds(n: Node, o: RestoreOutcomes) {
    && Cleared(n, o)
    && o.inspect && n.original.Some?
    && (n.original.value.name != Serving ==> o.rename)
    && (!n.original.value.running ==> o.flush && o.start)
  }

  /** The original once the way is free. */
  function BroughtBack(original: Option<Box>, o: RestoreOutcomes): Option<Box> {
    if !o.inspect || original.None? || (original.value.name != Serving && !o.rename) then original
    else Some(Box(Serving, original.value.running || (o.flush && o.start)))
  }

  /** The experimental container after the restore. */
  function Aside(n: Node, o: RestoreOutcomes): Option<Box> {
    if Held(n) && o.look
    then Some(Box(if o.putAway then Finished else Serving, n.experiment.value.running && !o.stop))
    else n.experiment
  }

  /** What a restore does to the node. */
  function RestoredNode(n: Node, o: RestoreOutcomes): Node {
    n.(disarmed := true, experiment := Aside(n, o),
       original := if Cleared(n, o) then BroughtBack(n.original, o) else n.original)
  }

  lemma {:induction false} FinishStep(w: World, o: RestoreOutcomes)
    requires Inv(w) && w.script.Restore?
    ensures var u := AdvanceRestore(w, w.script.next, OutcomeOf(o, w.script.next)); Inv(u) && Finish(w, o) == Finish(u, o)
  {
    RestoreKeepsInv(w, OutcomeOf(o, w.script.next));
  }

  predicate EndsWith(w': World, node: Node, success: bool) {
    Inv(w') && w'.node == node && w'.script == if success then Restored else Failed
  }

  /** The last two steps. */
  lemma {:induction false} RestoreEnd(w: World, seen: Box, o: RestoreOutcomes)
    requires Inv(w) && w.script == Restore(FlushCache(seen)) && OriginalRuns(w.node) == seen.running
    ensures EndsWith(Finish(w, o), w.node.(original := Some(Box(Serving, seen.running || (o.flush && o.start)))),
                     seen.running || (o.flush && o.start))
  {
    FinishStep(w, o);
    if !seen.running && o.flush { FinishStep(w.(script := Restore(StartOriginal)), o); }
  }

  /** The rename of the original and what follows. */
  lemma {:induction false} RestoreName(w: World, o: RestoreOutcomes)
    requires Inv(w) && w.node.original.Some? && w.script == Restore(RenameBack(w.node.original.value)) && !Held(w.node) && o.inspect
    ensures EndsWith(Finish(w, o), w.node.(original := BroughtBack(w.node.original, o)), Succeeds(w.node, o))
  {
    var seen := w.node.original.value;
    FinishStep(w, o);
    if seen.name == Serving || o.rename { RestoreEnd(AdvanceRestore(w, RenameBack(seen), o.rename), seen, o); }
  }

  /** From the inspection of the original to the end, when the name is not held. */
  lemma {:induction false} RestoreTail(w: World, o: RestoreOutcomes)
    requires Inv(w) && w.script == Restore(InspectOriginal) && !Held(w.node)
    ensures EndsWith(Finish(w, o), w.node.(original := BroughtBack(w.node.original, o)), Succeeds(w.node, o))
  {
    FinishStep(w, o);
    if o.inspect && w.node.original.Some? { RestoreName(w.(script := Restore(RenameBack(w.node.original.value))), o); }
  }

  /** An experimental container that was missed keeps the name. */
  lemma {:induction false} RestoreBlocked(w: World, o: RestoreOutcomes)
    requires Inv(w) && w.script == Restore(InspectOriginal) && Held(w.node)
    ensures EndsWith(Finish(w, o), w.node, false)
  {
    FinishStep(w, o);
    if o.inspect && w.node.original.Some? { FinishStep(w.(script := Restore(RenameBack(w.node.original.value))), o); }
  }

  lemma {:induction false} RestoreRenames(w: World, o: RestoreOutcomes)
    requires Inv(w) && w.script == Restore(RenameFinished)
    ensures var n := w.node.(experiment := Some(Box(Finished, w.node.experiment.value.running)));
      if o.putAway then EndsWith(Finish(w, o), n.(original := BroughtBack(n.original, o)), Succeeds(n, o))
      else EndsWith(Finish(w, o), w.node, false)
  {
    FinishStep(w, o);
    if o.putAway { RestoreTail(AdvanceRestore(w, RenameFinished, true), o); }
  }

  /** The node once the unchecked stop is over. */
  function StopTried(n: Node, o: RestoreOutcomes): Node
    requires n.experiment.Some?
  {
    n.(experiment := Some(Box(n.experiment.value.name, n.experiment.value.running && !o.stop)))
  }

  lemma {:induction false} StopIsTried(w: World, o: RestoreOutcomes)
    requires Inv(w) && w.script == Restore(StopExperiment)
    ensures Held(w.node)
    ensures var u := AdvanceRestore(w, StopExperiment, o.stop);
      Inv(u) && u.script == Restore(RenameFinished) && u.node == StopTried(w.node, o) && Finish(w, o) == Finish(u, o)
  {
    FinishStep(w, o);
  }

  lemma {:induction false} PutAsideAfterStop(n: Node, o: RestoreOutcomes)
    requires Held(n) && o.look && n.disarmed
    ensures var m := StopTried(n, o).(experiment := Some(Box(Finished, n.experiment.value.running && !o.stop)));
      if o.putAway
      then RestoredNode(n, o) == m.(original := BroughtBack(m.original, o)) && (Succeeds(n, o) <==> Succeeds(m, o))
      else RestoredNode(n, o) == StopTried(n, o) && !Succeeds(n, o)
  {
  }

  /** The experimental container is stopped, or not, and put away, or not. */
  lemma {:induction false} RestorePutsAway(w: World, o: RestoreOutcomes)
    requires Inv(w) && w.script == Restore(StopExperiment) && w.node.disarmed && o.look
    ensures EndsWith(Finish(w, o), RestoredNode(w.node, o), Succeeds(w.node, o))
  {
    StopIsTried(w, o);
    PutAsideAfterStop(w.node, o);
    RestoreRenames(AdvanceRestore(w, StopExperiment, o.stop), o);
  }

  /** From the inspection of the serving name. */
  lemma {:induction false} RestoreHead(w: World, o: RestoreOutcomes)
    requires Inv(w) && w.script == Restore(InspectName) && w.node.disarmed
    ensures EndsWith(Finish(w, o), RestoredNode(w.node, o), Succeeds(w.node, o))
  {
    FinishStep(w, o);
    if !Held(w.node) {
      RestoreTail(w.(script := Restore(InspectOriginal)), o);
    } else if o.look {
      RestorePutsAway(w.(script := Restore(StopExperiment)), o);
    } else {
      RestoreBlocked(w.(script := Restore(InspectOriginal)), o);
    }
  }

  /** A restore succeeds exactly when what this node needs does; what it leaves is known either way. */
  lemma {:induction false} RestoreAlone(w: World, o: RestoreOutcomes)
    requires Inv(w) && Quiet(w.script)
    ensures EndsWith(Finish(Step(w, BeginRestore), o), RestoredNode(w.node, o), Succeeds(w.node, o))
  {
    var u := w.(script := Restore(Disarm));
    FinishStep(u, o);
    RestoreHead(AdvanceRestore(u, Disarm, true), o);
  }

  /** After a restore that succeeded, another one changes nothing, whatever becomes of its commands. */
  lemma {:induction false} RestoreTwice(w: World, o: RestoreOutcomes, again: RestoreOutcomes)
    requires Inv(w) && Quiet(w.script) && Succeeds(w.node, o)
    ensures var first := Finish(Step(w, BeginRestore), o);
      Finish(Step(first, BeginRestore), again).node == first.node
  {
    RestoreAlone(w, o);
    RestoreAlone(Finish(Step(w, BeginRestore), o), again);
  }

  /** After a restore that raised anywhere, one whose commands succeed puts the original back unless it is gone. */
  lemma {:induction false} RestoreAgain(w: World, o: RestoreOutcomes, stops: bool)
    requires Inv(w) && Quiet(w.script)
    ensures var first, again := Finish(Step(w, BeginRestore), o), RestoreOutcomes(true, stops, true, true, true, true, true);
      var second := Finish(Step(first, BeginRestore), again);
      if w.node.original.Some? then second.script == Restored && second.node.original == Some(Box(Serving, true))
      else second.script == Failed && second.node.original == None
  {
    RestoreAlone(w, o);
    RestoreAlone(Finish(Step(w, BeginRestore), o), RestoreOutcomes(true, stops, true, true, true, true, true));
  }

  /**
   A restore that succeeds leaves both running exactly when the experiment was
   running and had been put away before or was not stopped; one that raises
   changes nothing about it.
   */
  lemma {:induction false} OverlapAfterRestoreIff(w: World, o: RestoreOutcomes)
    requires Inv(w) && Quiet(w.script)
    ensures var e := w.node.experiment;
      Overlap(Finish(Step(w, BeginRestore), o).node) <==>
        if Succeeds(w.node, o) then e.Some? && e.value.running && (e.value.name == Finished || !o.stop)
        else Overlap(w.node)
  {
    RestoreAlone(w, o);
  }

  predicate OverlapsWith(w: World, o: RestoreOutcomes) { Overlap(Finish(Step(w, BeginRestore), o).node) }

  /** Some outcome of a restore leaves both running exactly when the experiment is running before it and the original still exists. */
  lemma {:induction false} OverlapPossibleIff(w: World)
    requires Inv(w) && Quiet(w.script)
    ensures (exists o :: OverlapsWith(w, o)) <==> w.node.original.Some? && w.node.experiment.Some? && w.node.experiment.value.running
  {
    var unstopped := RestoreOutcomes(true, false, true, true, true, true, true);
    OverlapAfterRestoreIff(w, unstopped);
    assert w.node.original.Some? && w.node.experiment.Some? && w.node.experiment.value.running ==> OverlapsWith(w, unstopped);
    forall o | OverlapsWith(w, o) ensures w.node.original.Some? && w.node.experiment.Some? && w.node.experiment.value.running {
      OverlapAfterRestoreIff(w, o);
    }
  }

  // ---------- Stopping and launching ----------

  datatype StopOutcomes = StopOutcomes(look: bool, rename: bool, stop: bool, check: bool, flush: bool)

  function StopOutcomeOf(o: StopOutcomes, at: StopStep): bool {
    match at
    case CheckOriginal => o.look
    case RenameAway => o.rename
    case StopOriginal => o.stop
    case CheckStopped => o.check
    case StartFlusher => o.flush
    case ArmWatchdog => true
  }

  /** A stop completes when the original is in place and every command succeeds. */
  predicate Stops(n: Node, o: StopOutcomes) {
    OriginalHolds(n, Serving) && o.look && o.rename && o.stop && o.check && o.flush
  }

  /** What a stop does to the node, completed or not. */
  function StoppedNode(n: Node, o: StopOutcomes): Node {
    if !OriginalHolds(n, Serving) || !o.look || !o.rename then n
    else n.(original := Some(Box(Backup, n.original.value.running && !o.stop)), watching := n.watching || Stops(n, o))
  }

  /** What becomes of each command of a launch; files stands for the checks before the launch script's first docker command. */
  datatype LaunchOutcomes = LaunchOutcomes(check: bool, look: bool, files: bool, remove: bool, run: bool, alive: bool)

  function LaunchOutcomeOf(o: LaunchOutcomes, at: LaunchStep): bool {
    match at
    case CheckTripped => true
    case CheckOverlap => o.check
    case CheckName => o.look
    case CheckFiles => o.files
    case RemoveHolder => o.remove
    case RunContainer => o.run
    case CheckRunning => o.alive
  }

  /** A launch that gets to the point where it frees the name: the original is stopped, and not seen under the name. */
  predicate Frees(n: Node, o: LaunchOutcomes) {
    && !n.tripped && o.check && n.original.Some? && !n.original.value.running
    && (OriginalHolds(n, Serving) ==> !o.look) && o.files
  }

  /** A launch that removes the original. */
  predicate Loses(n: Node, o: LaunchOutcomes) { Frees(n, o) && OriginalHolds(n, Serving) && o.remove }

  /** The experimental container is created: the name is free, or was freed. */
  predicate Creates(n: Node, o: LaunchOutcomes) { Frees(n, o) && (OriginalHolds(n, Serving) ==> o.remove) && o.run }

  predicate Launches(n: Node, o: LaunchOutcomes) { Creates(n, o) && o.alive }

  function LaunchedNode(n: Node, o: LaunchOutcomes): Node {
    n.(original := if Loses(n, o) then None else n.original,
       experiment := if Creates(n, o) then Some(Box(Serving, true)) else n.experiment)
  }

  /** A stop, or a launch, run alone to its end. */
  function FinishStop(w: World, o: StopOutcomes): World
    decreases Remaining(w.script)
  {
    if w.script.Stop? then FinishStop(AdvanceStop(w, w.script.at, StopOutcomeOf(o, w.script.at)), o) else w
  }

  function FinishLaunch(w: World, o: LaunchOutcomes): World
    decreases Remaining(w.script)
  {
    if w.script.Launch? then FinishLaunch(AdvanceLaunch(w, w.script.step, LaunchOutcomeOf(o, w.script.step)), o) else w
  }

  lemma {:induction false} FinishStopStep(w: World, o: StopOutcomes)
    requires w.script.Stop?
    ensures FinishStop(w, o) == FinishStop(AdvanceStop(w, w.script.at, StopOutcomeOf(o, w.script.at)), o)
  {
  }

  lemma {:induction false} FinishLaunchStep(w: World, o: LaunchOutcomes)
    requires w.script.Launch?
    ensures FinishLaunch(w, o) == FinishLaunch(AdvanceLaunch(w, w.script.step, LaunchOutcomeOf(o, w.script.step)), o)
  {
  }

  /** From the check that the original has stopped. */
  lemma {:induction false} StopEnd(w: World, o: StopOutcomes)
    requires w.script == Stop(CheckStopped) && w.node.original.Some? && !OriginalRuns(w.node)
    ensures FinishStop(w, o) ==
      if o.check && o.flush then w.(node := w.node.(watching := true), script := Idle) else w.(script := Failed)
  {
    FinishStopStep(w, o);
    if o.check {
      var u := w.(script := Stop(StartFlusher));
      FinishStopStep(u, o);
      if o.flush { FinishStopStep(w.(script := Stop(ArmWatchdog)), o); }
    }
  }

  /** From the moment the original carries the backup name. */
  lemma {:induction false} StopTail(w: World, o: StopOutcomes)
    requires w.script == Stop(StopOriginal) && w.node.original.Some?
    ensures FinishStop(w, o) ==
      if !o.stop then w.(script := Failed)
      else if o.check && o.flush
      then w.(node := Turned(w.node, false).(watching := true), script := Idle)
      else w.(node := Turned(w.node, false), script := Failed)
  {
    FinishStopStep(w, o);
    if o.stop { StopEnd(AdvanceStop(w, StopOriginal, true), o); }
  }

  lemma {:induction false} StopAlone(w: World, o: StopOutcomes)
    requires Inv(w) && Quiet(w.script)
    ensures var w' := FinishStop(Step(w, BeginStop), o);
      w'.node == StoppedNode(w.node, o) && w'.script == if Stops(w.node, o) then Idle else Failed
  {
    var s := w.(script := Stop(CheckOriginal));
    FinishStopStep(s, o);
    if OriginalHolds(w.node, Serving) && o.look {
      var t := w.(script := Stop(RenameAway));
      FinishStopStep(t, o);
      if o.rename { StopTail(AdvanceStop(t, RenameAway, true), o); }
    }
  }

  /** The launch script has gone on to start the container. */
  lemma {:induction false} LaunchRuns(w: World, o: LaunchOutcomes)
    requires Inv(w) && w.script == Launch(RunContainer)
    ensures var created := o.run && Occupant(w.node, Serving).None?;
      FinishLaunch(w, o) == World(if created then w.node.(experiment := Some(Box(Serving, true))) else w.node,
                                  if created && o.alive then Idle else Failed, created, w.leaked)
  {
    FinishLaunchStep(w, o);
    FinishLaunchStep(AdvanceLaunch(w, RunContainer, o.run), o);
  }

  /** From the removal to the end. */
  lemma {:induction false} LaunchEnd(w: World, o: LaunchOutcomes)
    requires Inv(w) && w.script == Launch(RemoveHolder) && Frees(w.node, o)
    ensures var w' := FinishLaunch(w, o);
      w'.node == LaunchedNode(w.node, o) && w'.launched == Creates(w.node, o) &&
      w'.script == if Launches(w.node, o) then Idle else Failed
  {
    FinishLaunchStep(w, o);
    LaunchRuns(w.(node := if o.remove then Freed(w.node, Serving) else w.node, script := Launch(RunContainer)), o);
  }

  /** What a launch leaves of the original and of the name, whatever becomes of its commands. */
  lemma {:induction false} LaunchAlone(w: World, o: LaunchOutcomes)
    requires Inv(w) && Quiet(w.script) && !w.launched
    ensures var w' := FinishLaunch(Step(w, BeginLaunch), o);
      w'.node == LaunchedNode(w.node, o) && w'.launched == Creates(w.node, o) &&
      w'.script == if Launches(w.node, o) then Idle else Failed
  {
    FinishLaunchStep(w.(script := Launch(CheckTripped)), o);
    if !w.node.tripped {
      FinishLaunchStep(w.(script := Launch(CheckOverlap)), o);
      if o.check && w.node.original.Some? && !OriginalRuns(w.node) {
        FinishLaunchStep(w.(script := Launch(CheckName)), o);
        if !(o.look && OriginalHolds(w.node, Serving)) {
          FinishLaunchStep(w.(script := Launch(CheckFiles)), o);
          if o.files { LaunchEnd(w.(script := Launch(RemoveHolder)), o); }
        }
      }
    }
  }

  predicate LosesWith(w: World, o: LaunchOutcomes) { FinishLaunch(Step(w, BeginLaunch), o).node.original.None? }

  /** Some outcome of a launch removes the original exactly when it is stopped under the serving name and nothing has tripped. */
  lemma {:induction false} LossPossibleIff(w: World)
    requires Inv(w) && Quiet(w.script) && !w.launched && w.node.original.Some?
    ensures (exists o :: LosesWith(w, o)) <==> !w.node.tripped && w.node.original == Some(Box(Serving, false))
  {
    var unseen := LaunchOutcomes(true, false, true, true, true, true);
    LaunchAlone(w, unseen);
    assert !w.node.tripped && w.node.original == Some(Box(Serving, false)) ==> LosesWith(w, unseen);
    forall o | LosesWith(w, o) ensures !w.node.tripped && w.node.original == Some(Box(Serving, false)) {
      LaunchAlone(w, o);
    }
  }

  // ---------- Which failures raise ----------

  /** The step runs no command, or one whose failure goes unnoticed. */
  predicate Unchecked(s: Script) {
    match s
    case Stop(at) => at.ArmWatchdog?
    case Launch(at) => at.CheckTripped? || at.CheckName? || at.RemoveHolder? || at.RunContainer?
    case Restore(at) =>
      (match at
       case Disarm => true
       case InspectName => true
       case StopExperiment => true
       case RenameBack(seen) => seen.name == Serving
       case FlushCache(seen) => seen.running
       case _ => false)
    case _ => true
  }

  lemma {:induction false} StopFailureRaises(w: World)
    requires Inv(w) && w.script.Stop?
    ensures var u := AdvanceStop(w, w.script.at, false);
      if Unchecked(w.script) then u.script != Failed else u.script == Failed && u.node == w.node
  {
    match w.script.at
    case CheckOriginal =>
    case RenameAway =>
    case StopOriginal =>
    case CheckStopped =>
    case StartFlusher =>
    case ArmWatchdog =>
  }

  lemma {:induction false} LaunchFailureRaises(w: World)
    requires Inv(w) && w.script.Launch? && !(w.script.step == CheckTripped && w.node.tripped)
    ensures var u := AdvanceLaunch(w, w.script.step, false);
      if Unchecked(w.script) then u.script != Failed else u.script == Failed && u.node == w.node
  {
    match w.script.step
    case CheckTripped =>
    case CheckOverlap =>
    case CheckName =>
    case CheckFiles =>
    case RemoveHolder =>
    case RunContainer =>
    case CheckRunning =>
  }

  lemma {:induction false} RestoreFailureRaises(w: World)
    requires Inv(w) && w.script.Restore?
    ensures var u := AdvanceRestore(w, w.script.next, false);
      if Unchecked(w.script) then u.script != Failed else u.script == Failed && u.node == w.node
  {
    match w.script.next
    case Disarm =>
    case InspectName =>
    case StopExperiment =>
    case RenameFinished =>
    case InspectOriginal =>
    case RenameBack(_) =>
    case FlushCache(_) =>
    case StartOriginal =>
  }

  /** A checked command that fails ends its script at once and changes nothing; any other failure lets the script go on. */
  lemma {:induction false} CheckedFailureRaises(w: World)
    requires Inv(w) && !Quiet(w.script) && !(w.script == Launch(CheckTripped) && w.node.tripped)
    ensures var u := Step(w, Advance(false));
      if Unchecked(w.script) then u.script != Failed else u.script == Failed && u.node == w.node
  {
    match w.script
    case Stop(at) => StopFailureRaises(w);
    case Launch(at) => LaunchFailureRaises(w);
    case Restore(at) => RestoreFailureRaises(w);
    case _ =>
  }

  /** Without failures a stop puts the original aside, stopped, and arms the watchdog. */
  lemma {:induction false} StopWorks(w: World)
    requires Inv(w) && Quiet(w.script) && OriginalHolds(w.node, Serving)
    ensures var u := FinishStop(Step(w, BeginStop), StopOutcomes(true, true, true, true, true));
      u.script == Idle && u.node == w.node.(original := Some(Box(Backup, false)), watching := true)
  {
    StopAlone(w, StopOutcomes(true, true, true, true, true));
  }

  /** Without failures a launch after that runs the experiment under the serving name. */
  lemma {:induction false} LaunchWorks(w: World)
    requires Inv(w) && Quiet(w.script) && !w.launched && !w.node.tripped && w.node.original == Some(Box(Backup, false))
    ensures var u := FinishLaunch(Step(w, BeginLaunch), LaunchOutcomes(true, true, true, true, true, true));
      u.script == Idle && u.launched && u.node == w.node.(experiment := Some(Box(Serving, true)))
  {
    LaunchAlone(w, LaunchOutcomes(true, true, true, true, true, true));
  }

  /** A launch refuses a tripped node, a running original, and a name it sees taken. */
  lemma {:induction false} LaunchRefuses(w: World, o: LaunchOutcomes)
    requires Inv(w) && Quiet(w.script) && !w.launched
    requires w.node.tripped || OriginalRuns(w.node) || (o.look && OriginalHolds(w.node, Serving))
    ensures var u := FinishLaunch(Step(w, BeginLaunch), o); u.script == Failed && u.node == w.node
  {
    LaunchAlone(w, o);
  }

  // ---------- Two runs that go wrong ----------

  lemma {:induction false} Then(events: seq<Event>, w: World, e: Event) returns (more: seq<Event>, w': World)
    requires AllAllowed(Prepared, events) && w == After(Prepared, events) && Allowed(w, e)
    ensures AllAllowed(Prepared, more) && w' == After(Prepared, more) == Step(w, e)
  {
    more, w' := events + [e], Step(w, e);
    assert more[..|more| - 1] == events;
  }

  const Stopped := World(Node(Some(Box(Backup, false)), None, false, false, true), Idle, false, false)

  const Swapped := World(Node(Some(Box(Backup, false)), Some(Box(Serving, true)), false, false, true), Idle, true, false)

  const Stopping := World(Node(Some(Box(Backup, false)), None, false, false, false), Stop(CheckStopped), false, false)

  lemma {:induction false} StopBegins() returns (events: seq<Event>)
    ensures AllAllowed(Prepared, events) && After(Prepared, events) == Stopping
  {
    var w, go := Prepared, Advance(true);
    events := [];
    events, w := Then(events, w, BeginStop);
    events, w := Then(events, w, go);
    events, w := Then(events, w, go);
    events, w := Then(events, w, go);
  }

  lemma {:induction false} StopHappens() returns (events: seq<Event>)
    ensures AllAllowed(Prepared, events) && After(Prepared, events) == Stopped
  {
    var w, go := Stopping, Advance(true);
    events := StopBegins();
    events, w := Then(events, w, go);
    events, w := Then(events, w, go);
    events, w := Then(events, w, go);
  }

  lemma {:induction false} LaunchHappens() returns (events: seq<Event>)
    ensures AllAllowed(Prepared, events) && After(Prepared, events) == Swapped
  {
    var w, go := Stopped, Advance(true);
    events := StopHappens();
    events, w := Then(events, w, BeginLaunch);
    events, w := Then(events, w, go);
    events, w := Then(events, w, go);
    events, w := Then(events, w, go);
    events, w := LaunchScript(events, w);
  }

  /** The launch script runs to its end with every command taking effect. */
  lemma {:induction false} LaunchScript(events: seq<Event>, w: World) returns (more: seq<Event>, w': World)
    requires AllAllowed(Prepared, events) && w == After(Prepared, events) && w.script == Launch(CheckFiles)
    requires !w.node.tripped && !w.launched && w.node.experiment.None?
    ensures AllAllowed(Prepared, more) && w' == After(Prepared, more)
    ensures w' == World(Freed(w.node, Serving).(experiment := Some(Box(Serving, true))), Idle, true, w.leaked)
  {
    var go := Advance(true);
    more, w' := Then(events, w, go);
    more, w' := Then(more, w', go);
    assert w' == World(Freed(w.node, Serving), Launch(RunContainer), false, w.leaked);
    more, w' := ContainerRuns(more, w');
  }

  lemma {:induction false} ContainerRuns(events: seq<Event>, w: World) returns (more: seq<Event>, w': World)
    requires AllAllowed(Prepared, events) && w == After(Prepared, events) && w.script == Launch(RunContainer)
    requires Occupant(w.node, Serving).None?
    ensures AllAllowed(Prepared, more) && w' == After(Prepared, more)
    ensures w' == World(w.node.(experiment := Some(Box(Serving, true))), Idle, true, w.leaked)
  {
    var go := Advance(true);
    more, w' := Then(events, w, go);
    more, w' := Then(more, w', go);
  }

  /** A restore run alone is a run. */
  lemma {:induction false} FinishHappens(events: seq<Event>, w: World, o: RestoreOutcomes) returns (more: seq<Event>)
    requires Inv(w) && AllAllowed(Prepared, events) && w == After(Prepared, events)
    ensures AllAllowed(Prepared, more) && After(Prepared, more) == Finish(w, o)
    decreases Remaining(w.script)
  {
    more := events;
    if w.script.Restore? {
      var ok := OutcomeOf(o, w.script.next);
      RestoreAdvances(w, ok);
      RestoreKeepsInv(w, ok);
      var u;
      more, u := Then(events, w, Advance(ok));
      more := FinishHappens(more, u, o);
    }
  }

  /** A run that ends with both containers running: the stop inside restore fails unnoticed. */
  lemma {:induction false} OverlapHappens() returns (events: seq<Event>)
    ensures AllAllowed(Prepared, events) && Overlap(After(Prepared, events).node)
  {
    var w, unstopped := Swapped, RestoreOutcomes(true, false, true, true, true, true, true);
    events := LaunchHappens();
    RunKeepsInv(Prepared, events);
    OverlapAfterRestoreIff(Swapped, unstopped);
    events, w := Then(events, Swapped, BeginRestore);
    RunKeepsInv(Prepared, events);
    events := FinishHappens(events, w, unstopped);
  }

  const Lost := World(Node(None, Some(Box(Serving, true)), false, false, false), Idle, true, false)

  /**
   A run that loses the original: it exits under its own name, and the launch
   does not see it there. The launch succeeds; no restore does.
   */
  lemma {:induction false} LossHappens(o: RestoreOutcomes) returns (events: seq<Event>)
    ensures AllAllowed(Prepared, events) && After(Prepared, events) == Lost
    ensures Finish(Step(After(Prepared, events), BeginRestore), o).script == Failed
  {
    var w, go := Prepared, Advance(true);
    events := [];
    events, w := Then(events, w, OriginalExits);
    events, w := Then(events, w, BeginLaunch);
    events, w := Then(events, w, go);
    events, w := Then(events, w, go);
    events, w := Then(events, w, Advance(false));
    events, w := LaunchScript(events, w);
    RunKeepsInv(Prepared, events);
    RestoreAlone(w, o);
  }
}
