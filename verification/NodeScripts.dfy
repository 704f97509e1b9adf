/** The node object whose state the scripts of bench/spec_node.py change command by command. */
module NodeScripts {
  import opened Common
  import opened NodeSwap

  lemma {:induction false} StoppedIsSettled(n: Node, o: StopOutcomes, launched: bool, leaked: bool)
    requires Inv(World(n, Idle, launched, leaked))
    ensures Inv(World(StoppedNode(n, o), Idle, launched, leaked))
  {
  }

  lemma {:induction false} RestoredIsSettled(n: Node, o: RestoreOutcomes, launched: bool, leaked: bool)
    requires Inv(World(n, Idle, launched, leaked))
    ensures Inv(World(RestoredNode(n, o), Idle, launched,
                      leaked || (o.look && !o.stop && n.experiment == Some(Box(Serving, true)))))
  {
  }

  class SpecNode {
    var original: Option<Box>
    var experiment: Option<Box>
    var disarmed: bool
    var tripped: bool
    var watching: bool

    function State(): Node
      reads this
    {
      Node(original, experiment, disarmed, tripped, watching)
    }

    /** Some state of the node in which no script is running. */
    ghost predicate Settled(launched: bool, leaked: bool)
      reads this
    {
      Inv(World(State(), Idle, launched, leaked))
    }

    constructor ()
      ensures State() == Prepared.node && Settled(false, false)
    {
      original, experiment := Some(Box(Serving, true)), None;
      disarmed, tripped, watching := false, false, false;
    }

    /** Moves the original aside and arms the watchdog, unless a command fails. */
    method Stop(o: StopOutcomes, ghost launched: bool, ghost leaked: bool) returns (raised: bool)
      requires Settled(launched, leaked)
      modifies this
      ensures State() == StoppedNode(old(State()), o)
      ensures !raised <==> Stops(old(State()), o)
      ensures Settled(launched, leaked)
    {
      StoppedIsSettled(State(), o, launched, leaked);
      raised := StopCommands(o);
    }

    /** The commands of a stop in order. */
    method StopCommands(o: StopOutcomes) returns (raised: bool)
      requires Occupant(State(), Backup) != Some(true)
      modifies this
      ensures State() == StoppedNode(old(State()), o)
      ensures !raised <==> Stops(old(State()), o)
    {
      if !o.look || Occupant(State(), Serving) != Some(false) { return true; }
      if !o.rename { return true; }
      original := Some(original.value.(name := Backup));
      if !o.stop { return true; }
      original := Some(original.value.(running := false));
      if !o.check || original.value.running { return true; }
      if !o.flush { return true; }
      watching := true;
      return false;
    }

    /** Starts the experiment once the original has stopped; an original that it overlooks is removed. */
    method Launch(o: LaunchOutcomes, ghost leaked: bool) returns (raised: bool)
      requires Settled(false, leaked)
      modifies this
      ensures State() == LaunchedNode(old(State()), o)
      ensures !raised <==> Launches(old(State()), o)
      ensures Settled(Creates(old(State()), o), leaked)
    {
      if tripped { return true; }
      if !o.check || original.None? || original.value.running { return true; }
      if o.look && Occupant(State(), Serving).Some? { return true; }
      raised := LaunchCommands(o);
    }

    /** The launch script: it removes whatever carries the name, and only the last command decides how it ends. */
    method LaunchCommands(o: LaunchOutcomes) returns (raised: bool)
      requires experiment.None?
      modifies this
      ensures disarmed == old(disarmed) && tripped == old(tripped) && watching == old(watching)
      ensures original == if o.files && o.remove && OriginalHolds(old(State()), Serving) then None else old(original)
      ensures experiment ==
        if o.files && o.run && (OriginalHolds(old(State()), Serving) ==> o.remove) then Some(Box(Serving, true)) else None
      ensures !raised <==> experiment.Some? && o.alive
    {
      if !o.files { return true; }
      if o.remove && OriginalHolds(State(), Serving) { original := None; }
      if o.run && Occupant(State(), Serving).None? { experiment := Some(Box(Serving, true)); }
      return experiment.None? || !o.alive;
    }

    /** One reaction of the watchdog, whose kill may fail unnoticed; it never touches the original. */
    method Watch(ok: bool)
      modifies this
      ensures original == old(original) && !watching
      ensures disarmed == old(disarmed) && tripped == (old(tripped) || !disarmed)
      ensures experiment == if ok && !old(disarmed) && Occupant(old(State()), Serving) == Some(true)
                            then Some(old(experiment.value).(running := false)) else old(experiment)
    {
      if !disarmed {
        tripped := true;
        if ok && Occupant(State(), Serving) == Some(true) {
          experiment := Some(experiment.value.(running := false));
        }
      }
      watching := false;
    }

    /** Puts the original back under its name and running, unless a command it needs fails; the stop is not checked. */
    method Restore(o: RestoreOutcomes, ghost launched: bool, ghost leaked: bool) returns (raised: bool)
      requires Settled(launched, leaked)
      modifies this
      ensures State() == RestoredNode(old(State()), o)
      ensures !raised <==> Succeeds(old(State()), o)
      ensures Settled(launched, leaked || (o.look && !o.stop && old(experiment) == Some(Box(Serving, true))))
    {
      RestoredIsSettled(State(), o, launched, leaked);
      raised := RestoreCommands(o);
    }

    /** The commands of a restore in order. */
    method RestoreCommands(o: RestoreOutcomes) returns (raised: bool)
      requires Held(State()) ==> original.None? || original == Some(Box(Backup, false))
      modifies this
      ensures State() == RestoredNode(old(State()), o)
      ensures !raised <==> Succeeds(old(State()), o)
    {
      disarmed := true;
      if o.look && Occupant(State(), Serving) == Some(true) {
        if o.stop { experiment := Some(experiment.value.(running := false)); }
        if !o.putAway { return true; }
        experiment := Some(experiment.value.(name := Finished));
      }
      if !o.inspect || original.None? { return true; }
      var seen := original.value;
      if seen.name != Serving {
        if !o.rename || Occupant(State(), Serving).Some? { return true; }
        original := Some(original.value.(name := Serving));
      }
      if !seen.running {
        if !o.flush { return true; }
        if !o.start { return true; }
        original := Some(original.value.(running := true));
      }
      return false;
    }
  }
}
