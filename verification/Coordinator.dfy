/** The close coordinator: persist the intent, run in the affair's turn, cancel children through an
    executor that may fail at every await, re-check, and commit or roll back. One function per piece of
    code between two awaits. */
module Coordinator {
  import opened Option
  import opened JsMap
  import opened Status
  import opened Types
  import opened Store
  import opened Mirror
  import opened Closing
  import G = Gate

  /** Where one run of the coordinator stands. */
  datatype RunPhase =
    | InLine                                          // waiting for its turn
    | Cancelling(children: seq<Job>, next: nat)       // about to look at children[next]
    | AwaitingPort(children: seq<Job>, next: nat)     // the executor has been asked to stop children[next]
    | Confirming                                      // every child was handled; about to re-check
    | Done(outcome: Outcome)                          // settled, still listed in `running`

  datatype Run = Run(record: Record, phase: RunPhase)

  /** `disk` is the mirror file: a save that fails leaves it alone. */
  datatype System = System(
    live: Backend,
    pending: seq<PendingItem>,
    disk: Mirror,
    gate: G.Gate,
    running: map<Key, Run>)

  datatype Reply = Now(outcome: Outcome) | Later

  function Save(s: System, saved: bool): System {
    if saved then s.(disk := Snapshot(s.live, s.pending)) else s
  }

  function PutRecord(s: System, r: Record): System {
    s.(live := s.live.(actions := Set(s.live.actions, r.key, r)))
  }

  function WithRun(s: System, key: Key, phase: RunPhase): System
    requires key in s.running
  {
    s.(running := s.running[key := s.running[key].(phase := phase)])
  }

  const UNCONFIRMED := Err(AffairActionUnconfirmed, true)

  function Unconfirmed(s: System, key: Key): System
    requires key in s.running
  {
    WithRun(s, key, Done(UNCONFIRMED))
  }

  /** `execute`. `saved` and `published` say whether the two saves it makes succeed. */
  function Execute(s: System, key: Key, command: CloseCommand, saved: bool, published: bool): (System, Reply) {
    if !ValidCommand(command) then (s, Now(Err(ValidationFailed, false)))
    else
      var existing := Get(s.live.actions, key);
      if existing.Some? && existing.value.command != command then (s, Now(Err(AffairActionIdConflict, false)))
      else if existing.Some? && existing.value.outcome.Some? && existing.value.phase != Pending then
        var outcome := existing.value.outcome.value;
        (s, Now(if outcome.Ok? then outcome.(duplicate := true) else outcome))
      else if key in s.running then (s, Later)
      else if existing.None? && IsClosing(s.live, command.affairId) then (s, Now(Err(AffairActionPending, true)))
      else
        var record := existing.GetOr(Record(key, command, Pending, None));
        var s1 := PutRecord(s, record);
        if !saved then
          (if existing.None? then s1.(live := s1.live.(actions := Delete(s1.live.actions, key))) else s1,
           Now(Err(AffairActionPersistFailed, true)))
        else
          (Save(Save(s1.(running := s.running[key := Run(record, InLine)]), true), published), Later)
  }

  function FinishRejected(s: System, key: Key, code: Code, saved: bool): System
    requires key in s.running
  {
    var record := s.running[key].record;
    var outcome := Err(code, false);
    if saved then
      Save(WithRun(PutRecord(s, record.(phase := Rejected, outcome := Some(outcome))), key, Done(outcome)), true)
    else
      Unconfirmed(PutRecord(PutRecord(s, record.(phase := Rejected, outcome := Some(outcome))), record), key)
  }

  function ClosedAffair(previous: Affair, command: CloseCommand): Affair {
    previous.(status := command.status.Affair(), blockedReason := None, resumeCondition := None)
  }

  function ResultOf(b: Backend, command: CloseCommand): CloseResult
    requires command.affairId in b.affairs.data
  {
    var previous := b.affairs.data[command.affairId];
    CloseResult(ClosedAffair(previous, command), JobsOf(b, previous.affairId))
  }

  function Commit(s: System, key: Key, saved: bool, published: bool): System
    requires key in s.running && s.running[key].record.command.affairId in s.live.affairs.data
  {
    var record := s.running[key].record;
    var previous := s.live.affairs.data[record.command.affairId];
    var result := ResultOf(s.live, record.command);
    var committed := record.(phase := Committed, outcome := Some(Ok(result, false)));
    var s1 := PutRecord(s.(live := s.live.(affairs := Set(s.live.affairs, previous.affairId, result.affair))), committed);
    if saved then
      Save(Save(WithRun(s1, key, Done(Ok(result, false))), true), published)
    else
      Unconfirmed(PutRecord(s1.(live := s1.live.(affairs := Set(s1.live.affairs, previous.affairId, previous))), record), key)
  }

  /** The last piece of a run: check again against the facts of this moment, then commit. */
  function Confirm(s: System, key: Key, saved: bool, published: bool): System
    requires key in s.running
  {
    var changed := Precheck(s.live, s.running[key].record.command);
    if changed.Some? then FinishRejected(s, key, changed.value, saved) else Commit(s, key, saved, published)
  }

  function RevokeAllOf(g: G.Gate, jobs: seq<Job>): G.Gate
    decreases |jobs|
  {
    if jobs == [] then g else RevokeAllOf(G.RevokeForJob(g, jobs[0].jobId), jobs[1..])
  }

  /** The first piece of a run, when its turn comes. */
  function Begin(s: System, key: Key, saved: bool, published: bool): System
    requires key in s.running
  {
    var command := s.running[key].record.command;
    var rejected := Precheck(s.live, command);
    if rejected.Some? then FinishRejected(s, key, rejected.value, saved)
    else if command.status == ToClosed then Confirm(s, key, saved, published)
    else
      var children := JobsOf(s.live, command.affairId);
      var s1 := s.(gate := RevokeAllOf(s.gate, children));
      if saved then Save(WithRun(s1, key, Cancelling(children, 0)), true) else Unconfirmed(s1, key)
  }

  /** A blocked job whose run is known to have ended needs no executor. */
  predicate EndedBlocked(job: Job) {
    && job.status == JobBlocked
    && (|| job.statusReasonCode == Some(TerminalWithoutResult)
        || job.statusReasonCode == Some(FinalReplyNegative)
        || job.statusReasonCode == Some(WebSearchDisabled))
  }

  function MarkCanceled(b: Backend, job: Job): Backend {
    b.(jobs := Set(b.jobs, job.jobId, job.(
      status := JobCanceled,
      progressSummary := if ShownText(job.progressSummary) then job.progressSummary else Some(UserCanceledAffair),
      blockedReason := None,
      resumeCondition := None,
      statusReasonCode := Some(CancelAfterEndedBlockedJob))))
  }

  function Current(b: Backend, child: Job): Job {
    Get(b.jobs, child.jobId).GetOr(child)
  }

  /** One round of the child loop. `hasPort` says whether an executor is connected. */
  function ChildStep(s: System, key: Key, hasPort: bool, saved: bool): System
    requires key in s.running && s.running[key].phase.Cancelling? && s.running[key].phase.next <= |s.running[key].phase.children|
  {
    var Cancelling(children, next) := s.running[key].phase;
    if next == |children| then WithRun(s, key, Confirming)
    else
      var current := Current(s.live, children[next]);
      if TerminalJob(current.status) then WithRun(s, key, Cancelling(children, next + 1))
      else if EndedBlocked(current) then
        var s1 := s.(live := MarkCanceled(s.live, current));
        if saved then Save(WithRun(s1, key, Cancelling(children, next + 1)), true) else Unconfirmed(s1, key)
      else if !hasPort then Unconfirmed(s, key)
      else WithRun(s, key, AwaitingPort(children, next))
  }

  /** The executor's answer: only a terminal job counts as stopped. */
  function PortReturns(s: System, key: Key, threw: bool, saved: bool): System
    requires key in s.running && s.running[key].phase.AwaitingPort? && s.running[key].phase.next < |s.running[key].phase.children|
  {
    var AwaitingPort(children, next) := s.running[key].phase;
    var job := Get(s.live.jobs, children[next].jobId);
    if threw || job.None? || !TerminalJob(job.value.status) then Unconfirmed(s, key)
    else if saved then Save(WithRun(s, key, Cancelling(children, next + 1)), true)
    else Unconfirmed(s, key)
  }

  /** The settled promise leaves the `running` table. */
  function Settle(s: System, key: Key): System {
    s.(running := s.running - {key})
  }
}
