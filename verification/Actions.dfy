/** The close coordinator as an object over the companion's mutable state, its permission gate and the
    mirror file. One method per piece of code between two awaits, each proved to compute its specification and
    to keep the invariant of the whole machine. */
module Actions {
  import opened Option
  import opened JsMap
  import opened Status
  import opened Types
  import opened Store
  import opened Mirror
  import opened Closing
  import opened Coordinator
  import opened Authority
  import opened Invariant
  import G = Gate

  /** The mirror file, and the pending messages that are saved with it. */
  class MirrorFile {
    var disk: Mirror
    var pending: seq<PendingItem>

    constructor (loaded: Mirror)
      ensures disk == loaded && pending == loaded.pending
    {
      disk, pending := loaded, loaded.pending;
    }
  }

  class AffairActionCoordinator {
    const state: CompanionState
    const gate: G.PermissionGate
    const file: MirrorFile
    var running: map<Key, Run>

    function Value(): System
      reads this, state, gate, file
    {
      System(state.Value(), file.pending, file.disk, gate.Value(), running)
    }

    /** What every step of the machine keeps. */
    ghost predicate Valid()
      reads this, state, gate, file
    {
      Inv(Value())
    }

    constructor (state: CompanionState, gate: G.PermissionGate, file: MirrorFile)
      ensures this.state == state && this.gate == gate && this.file == file && running == map[]
    {
      this.state, this.gate, this.file, running := state, gate, file, map[];
    }

    /** `persist`: `saved` says whether the write goes through. */
    method Persist(saved: bool)
      modifies file`disk
      ensures Value() == Save(old(Value()), saved)
    {
      if saved {
        file.disk := Snapshot(state.Value(), file.pending);
      }
    }

    /** The scan for a pending record of the affair. */
    method ScanForPending(affairId: string) returns (closing: bool)
      requires Ordered(state.actions)
      ensures closing <==> IsClosing(state.Value(), affairId)
    {
      OrderedMeans(state.actions);
      var order := state.actions.order;
      for i := 0 to |order|
        invariant forall n :: 0 <= n < i ==> !IsPendingFor(state.actions.data[order[n]], affairId)
      {
        if IsPendingFor(state.actions.data[order[i]], affairId) {
          return true;
        }
      }
      return false;
    }

    method Put(r: Record)
      modifies state`actions
      ensures Value() == PutRecord(old(Value()), r)
    {
      state.actions := Set(state.actions, r.key, r);
    }

    method EnterPhase(key: Key, phase: RunPhase)
      requires key in running
      modifies this`running
      ensures Value() == WithRun(old(Value()), key, phase)
    {
      running := running[key := running[key].(phase := phase)];
    }

    method Request(key: Key, command: CloseCommand, saved: bool, published: bool) returns (reply: Reply)
      requires Ordered(state.actions)
      modifies this`running, state`actions, file`disk
      ensures (Value(), reply) == Execute(old(Value()), key, command, saved, published)
      ensures old(Valid()) ==> Valid()
    {
      hide Inv, Snapshot;
      if Inv(Value()) {
        ExecuteKeepsInv(Value(), key, command, saved, published);
      }
      if !ValidCommand(command) {
        return Now(Err(ValidationFailed, false));
      }
      var existing := Get(state.actions, key);
      if existing.Some? && existing.value.command != command {
        return Now(Err(AffairActionIdConflict, false));
      }
      if existing.Some? && existing.value.outcome.Some? && existing.value.phase != Pending {
        var outcome := existing.value.outcome.value;
        return Now(if outcome.Ok? then outcome.(duplicate := true) else outcome);
      }
      if key in running {
        return Later;
      }
      if existing.None? {
        var closing := ScanForPending(command.affairId);
        if closing {
          return Now(Err(AffairActionPending, true));
        }
      }
      var record := existing.GetOr(Record(key, command, Pending, None));
      Put(record);
      if !saved {
        if existing.None? {
          state.actions := Delete(state.actions, key);
        }
        return Now(Err(AffairActionPersistFailed, true));
      }
      running := running[key := Run(record, InLine)];
      Persist(true);
      Persist(published);
      reply := Later;
    }

    method Reject(key: Key, code: Code, saved: bool)
      requires key in running
      modifies this`running, state`actions, file`disk
      ensures Value() == FinishRejected(old(Value()), key, code, saved)
    {
      var record := running[key].record;
      var outcome := Err(code, false);
      Put(record.(phase := Rejected, outcome := Some(outcome)));
      if saved {
        EnterPhase(key, Done(outcome));
        Persist(true);
      } else {
        Put(record);
        EnterPhase(key, Done(UNCONFIRMED));
      }
    }

    /** Affair and record change together; a save that throws puts both back. */
    method CommitClose(key: Key, saved: bool, published: bool)
      requires key in running && running[key].record.command.affairId in state.affairs.data
      modifies this`running, state`actions, state`affairs, file`disk
      ensures Value() == Commit(old(Value()), key, saved, published)
    {
      var record := running[key].record;
      var previous := state.affairs.data[record.command.affairId];
      var result := ResultOf(state.Value(), record.command);
      state.affairs := Set(state.affairs, previous.affairId, result.affair);
      Put(record.(phase := Committed, outcome := Some(Ok(result, false))));
      if saved {
        EnterPhase(key, Done(Ok(result, false)));
        Persist(true);
        Persist(published);
      } else {
        state.affairs := Set(state.affairs, previous.affairId, previous);
        Put(record);
        EnterPhase(key, Done(UNCONFIRMED));
      }
    }

    method ConfirmRun(key: Key, saved: bool, published: bool)
      requires key in running
      modifies this`running, state`actions, state`affairs, file`disk
      ensures Value() == Confirm(old(Value()), key, saved, published)
      ensures old(Valid()) && old(running[key].phase.Confirming?) ==> Valid()
    {
      hide Inv, Snapshot;
      if Inv(Value()) && running[key].phase.Confirming? {
        TurnOfRun(Value(), key);
        ConfirmKeepsInv(Value(), key, saved, published);
      }
      var changed := Precheck(state.Value(), running[key].record.command);
      if changed.Some? {
        Reject(key, changed.value, saved);
      } else {
        CommitClose(key, saved, published);
      }
    }

    method RevokeChildren(children: seq<Job>)
      requires Ordered(gate.requests)
      modifies gate
      ensures gate.Value() == RevokeAllOf(old(gate.Value()), children)
    {
      for i := 0 to |children|
        invariant Ordered(gate.requests)
        invariant RevokeAllOf(old(gate.Value()), children) == RevokeAllOf(gate.Value(), children[i..])
      {
        gate.RevokeJob(children[i].jobId);
        assert children[i..][1..] == children[i + 1..];
      }
    }

    method BeginRun(key: Key, saved: bool, published: bool)
      requires key in running && running[key].phase.InLine? && Ordered(gate.requests)
      modifies this`running, state`actions, state`affairs, file`disk, gate
      ensures Value() == Begin(old(Value()), key, saved, published)
      ensures old(Valid()) ==> Valid()
    {
      hide Inv, Snapshot;
      if Inv(Value()) {
        TurnOfRun(Value(), key);
        BeginKeepsInv(Value(), key, saved, published);
      }
      var command := running[key].record.command;
      var rejected := Precheck(state.Value(), command);
      if rejected.Some? {
        Reject(key, rejected.value, saved);
      } else if command.status == ToClosed {
        ConfirmRun(key, saved, published);
      } else {
        var children := JobsOf(state.Value(), command.affairId);
        RevokeChildren(children);
        EnterPhase(key, if saved then Cancelling(children, 0) else Done(UNCONFIRMED));
        Persist(saved);
      }
    }

    /** One look at the next child, up to the await of the executor. */
    method VisitChild(key: Key, hasPort: bool, saved: bool)
      requires key in running && running[key].phase.Cancelling? && running[key].phase.next <= |running[key].phase.children|
      modifies this`running, state`jobs, file`disk
      ensures Value() == ChildStep(old(Value()), key, hasPort, saved)
      ensures old(Valid()) ==> Valid()
    {
      hide Inv, Snapshot;
      if Inv(Value()) {
        ChildStepKeepsInv(Value(), key, hasPort, saved);
      }
      var Cancelling(children, next) := running[key].phase;
      if next == |children| {
        EnterPhase(key, Confirming);
        return;
      }
      var current := Get(state.jobs, children[next].jobId).GetOr(children[next]);
      if TerminalJob(current.status) {
        EnterPhase(key, Cancelling(children, next + 1));
      } else if EndedBlocked(current) {
        state.jobs := MarkCanceled(state.Value(), current).jobs;
        EnterPhase(key, if saved then Cancelling(children, next + 1) else Done(UNCONFIRMED));
        Persist(saved);
      } else if !hasPort {
        EnterPhase(key, Done(UNCONFIRMED));
      } else {
        EnterPhase(key, AwaitingPort(children, next));
      }
    }

    /** What follows the executor's answer: only a terminal registered job counts as stopped. */
    method PortAnswered(key: Key, threw: bool, saved: bool)
      requires key in running && running[key].phase.AwaitingPort? && running[key].phase.next < |running[key].phase.children|
      modifies this`running, file`disk
      ensures Value() == PortReturns(old(Value()), key, threw, saved)
      ensures old(Valid()) ==> Valid()
    {
      hide Inv, Snapshot;
      if Inv(Value()) {
        PortReturnsKeepsInv(Value(), key, threw, saved);
      }
      var AwaitingPort(children, next) := running[key].phase;
      var job := Get(state.jobs, children[next].jobId);
      if threw || job.None? || !TerminalJob(job.value.status) || !saved {
        EnterPhase(key, Done(UNCONFIRMED));
      } else {
        EnterPhase(key, Cancelling(children, next + 1));
        Persist(true);
      }
    }

    method SettleRun(key: Key)
      requires key in running && running[key].phase.Done?
      modifies this`running
      ensures Value() == Settle(old(Value()), key)
      ensures old(Valid()) ==> Valid()
    {
      hide Inv, Snapshot;
      if Inv(Value()) {
        SettleKeepsInv(Value(), key);
      }
      running := running - {key};
    }
  }
}
