/** ParkingModel: the object of bench/spec_k0_screen.py, its methods proved against the functions of module Parking. */
module ParkingClass {
  import opened Common
  import Parking

  class ParkingModel {
    const owner: Parking.Owner
    const strategy: Parking.Strategy
    const window: int
    const slack: int
    const chunk: int
    var computed: int
    var materialized: Option<int>
    var proposalAnchor: Option<int>
    var intent: nat
    var desired: Parking.Desired
    var workerMode: Parking.WorkerMode
    var schedulerReady: bool
    var nextSequence: nat
    var pending: seq<Parking.Step>
    var rows: map<int, Parking.Row>
    var closed: bool
    var queryPasses: nat
    var rebuiltPositions: seq<int>
    var rebuildChunks: seq<seq<int>>

    ghost predicate Valid() { Parking.ValidGeometry(window, slack, chunk) }

    ghost function Config(): Parking.Config { Parking.Config(owner, strategy, window, slack, chunk) }

    ghost function Scheduler(): Parking.Scheduler
      reads this
    {
      Parking.Scheduler(intent, desired, schedulerReady, nextSequence, closed)
    }

    ghost function Worker(): Parking.Worker
      reads this
    {
      Parking.Worker(computed, materialized, proposalAnchor, workerMode, rows, queryPasses, rebuiltPositions, rebuildChunks)
    }

    /** The abstract value of this object. */
    ghost function Value(): Parking.State
      reads this
    {
      Parking.State(Config(), Scheduler(), pending, Worker())
    }

    constructor (owner: Parking.Owner, computed: int, strategy: Parking.Strategy, window: int, slack: int, chunk: int)
      requires Parking.ValidGeometry(window, slack, chunk)
      ensures Valid()
      ensures Parking.Initial(Parking.Config(owner, strategy, window, slack, chunk), computed) == Ok(Value())
    {
      this.owner, this.strategy, this.window, this.slack, this.chunk := owner, strategy, window, slack, chunk;
      this.computed, materialized, proposalAnchor := computed, Some(computed), Some(computed);
      intent, desired, workerMode, schedulerReady := 0, Parking.WantActive, Parking.ModeActive, true;
      nextSequence, pending, rows, closed := 0, [], map[], false;
      queryPasses, rebuiltPositions, rebuildChunks := 0, [], [];
    }

    /** The constructor as its callers see it: bad geometry is refused. */
    static method Create(owner: Parking.Owner, computed: int, strategy: Parking.Strategy, window: int, slack: int, chunk: int)
      returns (r: Result<ParkingModel, Parking.Error>)
      ensures r.Ok? ==> fresh(r.value) && r.value.Valid()
      ensures match Parking.Initial(Parking.Config(owner, strategy, window, slack, chunk), computed)
              case Ok(s) => r.Ok? && r.value.Value() == s
              case Err(error) => r == Err(error)
    {
      if !Parking.ValidGeometry(window, slack, chunk) {
        return Err(Parking.InvalidGeometry);
      }
      var model := new ParkingModel(owner, computed, strategy, window, slack, chunk);
      return Ok(model);
    }

    method Park() returns (r: Result<(), Parking.Error>)
      modifies this
      ensures match Parking.Park(old(Value()))
              case Ok(s) => r == Ok(()) && Value() == s
              case Err(error) => r == Err(error) && Value() == old(Value())
    {
      if closed { return Err(Parking.RequestClosed); }
      intent := intent + 1;
      desired := Parking.WantParked;
      schedulerReady := false;
      return Ok(());
    }

    method Arm() returns (r: Result<(), Parking.Error>)
      modifies this
      ensures match Parking.Arm(old(Value()))
              case Ok(s) => r == Ok(()) && Value() == s
              case Err(error) => r == Err(error) && Value() == old(Value())
    {
      if closed { return Err(Parking.RequestClosed); }
      intent := intent + 1;
      desired := Parking.WantArming;
      schedulerReady := false;
      return Ok(());
    }

    method Schedule(desiredCap: int) returns (r: Result<Parking.Step, Parking.Error>)
      modifies this
      ensures (Value(), r) == Parking.Schedule(old(Value()), desiredCap)
    {
      if closed || desiredCap !in Parking.CAPS { return Err(Parking.InvalidCap); }
      var cap, action := desiredCap, Parking.ActiveStep;
      if desired == Parking.WantParked {
        cap, action := 0, Parking.ParkStep;
      } else if desired == Parking.WantArming || !schedulerReady {
        cap, action := 0, Parking.ArmStep;
      }
      var step := Parking.Step(owner, nextSequence, intent, cap, action);
      nextSequence := nextSequence + 1;
      pending := pending + [step];
      return Ok(step);
    }

    /** Stores the rows one at a time, then drops every position that fell out of the retention range. */
    method Retain(start: int, values: seq<Parking.Row>)
      requires computed == start + |values|
      modifies this`rows
      ensures rows == Parking.RingAfter(Config(), old(rows), start, values)
    {
      for offset := 0 to |values|
        invariant rows == old(rows) + Parking.Placed(start, values, offset)
      {
        rows := rows[start + offset := values[offset]];
      }
      rows := Parking.Trimmed(rows, computed - window - slack);
    }

    method Execute(step: Parking.Step, accepted: int, given: Option<seq<Parking.Row>>)
      returns (r: Result<Parking.Ack, Parking.Error>)
      requires Valid()
      modifies this
      ensures (Value(), r) == Parking.Execute(old(Value()), step, accepted, given)
    {
      if pending == [] || pending[0] != step { return Err(Parking.NotFifo); }
      pending := pending[1..];
      if closed {
        return Ok(Parking.Ack(step.owner, step.sequence, step.intent, false, computed, Parking.Cancelled));
      }
      if step.owner != owner || !(0 <= accepted <= step.cap) { return Err(Parking.InvalidArgument); }
      if step.cap != 0 && proposalAnchor != Some(computed) { return Err(Parking.StaleProposal); }
      var combined := match given case Some(rows) => rows case None => Parking.DefaultRows(computed, step.cap);
      if |combined| != step.cap + 1 { return Err(Parking.WrongRowCount); }
      var ready := Commit(step.action, combined[..accepted + 1]);
      var reason := if ready || step.action == Parking.ParkStep then Parking.NoReason else Parking.MissingContext;
      return Ok(Parking.Ack(owner, step.sequence, step.intent, ready, computed, reason));
    }

    /** Commits the accepted rows; answers whether the worker drafted. */
    method Commit(action: Parking.Action, values: seq<Parking.Row>) returns (ready: bool)
      requires Valid()
      modifies `computed, `materialized, `proposalAnchor, `workerMode, `rows, `queryPasses, `rebuiltPositions, `rebuildChunks
      ensures (Worker(), ready) == Parking.Commit(Config(), old(Worker()), action, values)
    {
      var start := computed;
      computed := computed + |values|;
      rebuiltPositions, rebuildChunks := [], [];
      if action == Parking.ParkStep && strategy == Parking.Deferred {
        Retain(start, values);
        workerMode, proposalAnchor := Parking.ModeParked, None;
        return false;
      }
      if action == Parking.ParkStep {
        materialized := Some(computed);
        workerMode, proposalAnchor := Parking.ModeParked, None;
        return false;
      }
      if strategy == Parking.Deferred && materialized != Some(start) {
        var complete := Replay(start, values);
        if !complete {
          workerMode, proposalAnchor := Parking.ModeParked, None;
          return false;
        }
      }
      materialized := Some(computed);
      queryPasses := queryPasses + 1;
      proposalAnchor := Some(computed);
      workerMode := if action == Parking.ArmStep then Parking.ModeArmed else Parking.ModeActive;
      return true;
    }

    /** Retains the new rows, then lists what the live window lacks; false when some of it is gone. */
    method Replay(start: int, values: seq<Parking.Row>) returns (complete: bool)
      requires Valid() && computed == start + |values|
      requires rebuiltPositions == [] && rebuildChunks == []
      modifies `rows, `rebuiltPositions, `rebuildChunks
      ensures rows == Parking.RingAfter(Config(), old(rows), start, values)
      ensures var required := Range(Parking.DirtyStart(Config(), materialized, computed), computed);
        && complete == Parking.AllPresent(required, rows)
        && rebuiltPositions == (if complete then required else [])
        && rebuildChunks == (if complete then Parking.Chunks(required, chunk) else [])
    {
      Retain(start, values);
      var liveStart := Max(0, computed - window);
      var dirtyStart := Max(liveStart, match materialized case Some(m) => m case None => 0);
      var required := Range(dirtyStart, computed);
      if exists p :: p in required && p !in rows { return false; }
      rebuiltPositions, rebuildChunks := required, Parking.Chunks(required, chunk);
      return true;
    }

    method Receive(ack: Parking.Ack) returns (accepted: bool)
      modifies this
      ensures (Value(), accepted) == Parking.Receive(old(Value()), ack)
    {
      if closed || ack.owner != owner || ack.intent != intent { return false; }
      if desired == Parking.WantArming && ack.draftingReady {
        desired := Parking.WantActive;
        schedulerReady := true;
        return true;
      }
      return false;
    }

    method PublishPrefix(end: int) returns (r: Result<(), Parking.Error>)
      ensures r == Parking.PublishPrefix(Value(), end)
    {
      if materialized == None || end > materialized.value { return Err(Parking.PrefixNotMaterialized); }
      return Ok(());
    }

    method Cancel()
      modifies this
      ensures Value() == Parking.Cancel(old(Value()))
    {
      closed := true;
      schedulerReady := false;
      proposalAnchor := None;
    }

    predicate RetentionLeaseReleasable()
      reads this
      ensures RetentionLeaseReleasable() <==> Parking.LeaseReleasable(Value())
    {
      closed && pending == []
    }
  }

  // ---------- Physical slots of replayed positions ----------

  predicate Addressable(pos: int, blocks: int, blockSize: int)
    requires blockSize > 0
  {
    0 <= pos && pos / blockSize < blocks
  }

  /** Slot of every position, or an error when some position has no block. */
  method SlotsForPositions(positions: seq<int>, blockTable: seq<int>, blockSize: int) returns (r: Option<seq<int>>)
    requires blockSize > 0
    ensures r.Some? <==> forall i :: 0 <= i < |positions| ==> Addressable(positions[i], |blockTable|, blockSize)
    ensures r.Some? ==> |r.value| == |positions|
    ensures r.Some? ==> forall i :: 0 <= i < |positions| ==>
      r.value[i] == blockTable[positions[i] / blockSize] * blockSize + positions[i] % blockSize
  {
    var result := [];
    for i := 0 to |positions|
      invariant |result| == i
      invariant forall k :: 0 <= k < i ==> Addressable(positions[k], |blockTable|, blockSize)
      invariant forall k :: 0 <= k < i ==>
        result[k] == blockTable[positions[k] / blockSize] * blockSize + positions[k] % blockSize
    {
      var column, offset := positions[i] / blockSize, positions[i] % blockSize;
      if positions[i] < 0 || column >= |blockTable| { return None; }
      result := result + [blockTable[column] * blockSize + offset];
    }
    return Some(result);
  }

  /** Slots are injective: two addresses with the same slot are the same offset of the same physical block. */
  lemma {:induction false} SlotsAreDistinct(a: int, b: int, r: int, s: int, blockSize: int)
    requires 0 <= r < blockSize && 0 <= s < blockSize
    requires a * blockSize + r == b * blockSize + s
    ensures a == b && r == s
  {
    assert (a - b) * blockSize == s - r;
    if a > b {
      MulAtLeast(a - b, blockSize);
    } else if a < b {
      MulAtLeast(b - a, blockSize);
    }
  }

  lemma {:induction false} MulAtLeast(x: int, y: int)
    requires x >= 1 && y >= 0
    ensures x * y >= y
  {
  }
}
