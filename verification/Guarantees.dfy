/** What the authority promises over every run: durable and repeatable answers, endings that last,
    commits as the only way to end an affair, and the fence of a pending close. */
module Guarantees {
  import opened Option
  import opened JsMap
  import opened Status
  import opened Types
  import opened Store
  import opened Reconcile
  import opened Mirror
  import opened Closing
  import opened Coordinator
  import opened Authority
  import opened Invariant
  import C = Create
  import G = Gate

  ghost predicate IsRun(ss: seq<System>, steps: seq<Step>) {
    && |ss| == |steps| + 1 && ss[0] == INITIAL
    && forall i :: 0 <= i < |steps| ==> Enabled(ss[i], steps[i]) && ss[i + 1] == Next(ss[i], steps[i])
  }

  lemma {:induction false} RunKeepsInv(ss: seq<System>, steps: seq<Step>, n: nat)
    requires IsRun(ss, steps) && n < |ss|
    ensures Inv(ss[n])
  {
    hide Inv;
    if n == 0 {
      InitialInv();
    } else {
      RunKeepsInv(ss, steps, n - 1);
      NextKeepsInv(ss[n - 1], steps[n - 1]);
    }
  }

  // ----- the life of one close record -----

  predicate Accepts(s: System, st: Step, k: Key) {
    st.SExecute? && st.key == k && st.saved && ValidCommand(st.command) && !IsClosing(s.live, st.command.affairId)
  }

  /** The piece of run `k` that takes the final decision, with its save going through. */
  predicate Decides(s: System, st: Step, k: Key) {
    && (st.SBegin? || st.SConfirm?) && st.key == k && st.saved && k in s.running && s.running[k].record.key == k
    && k in s.live.actions.data && s.running[k].record == s.live.actions.data[k] && s.live.actions.data[k].phase == Pending
  }

  function RejectedWith(r: Record, code: Code): Record {
    r.(phase := Rejected, outcome := Some(Err(code, false)))
  }

  function CommittedWith(r: Record, result: CloseResult): Record {
    r.(phase := Committed, outcome := Some(Ok(result, false)))
  }

  ghost predicate RecordAfter(s: System, st: Step, k: Key, before: Option<Record>, after: Option<Record>) {
    || after == before
    || (before.None? && Accepts(s, st, k) && after == Some(Record(k, st.command, Pending, None)))
    || (&& before.Some? && Decides(s, st, k) && Precheck(s.live, before.value.command).Some?
        && after == Some(RejectedWith(before.value, Precheck(s.live, before.value.command).value)))
    || (&& before.Some? && Decides(s, st, k) && Precheck(s.live, before.value.command).None? && before.value.command.affairId in s.live.affairs.data
        && (st.SBegin? ==> before.value.command.status == ToClosed)
        && after == Some(CommittedWith(before.value, ResultOf(s.live, before.value.command))))
  }

  /** Every step leaves a record alone, accepts a new request, or decides a pending one from the facts of
      that moment: it is rejected if the check fails and committed with the present affair and jobs if not. */
  lemma RecordStep(s: System, st: Step, k: Key)
    requires Inv(s) && Enabled(s, st)
    ensures RecordAfter(s, st, k, Get(s.live.actions, k), Get(Next(s, st).live.actions, k))
  {
    hide Good, RunOk, Inv, Begin, Confirm, Precheck, IsClosing, Execute;
    match st {
      case SExecute(key, command, saved, published) => AcceptStep(s, key, command, saved, published, k);
      case SBegin(key, saved, published) => TurnOfRun(s, key); BeginStep(s, key, saved, published, k);
      case SConfirm(key, saved, published) => TurnOfRun(s, key); ConfirmStep(s, key, saved, published, k);
      case SDeliver(e, now, saved) => DeliverKeepsRecords(s, e, now, saved);
      case SSupervise(a, mark, id, now, saved) => SuperviseKeepsRecords(s, a, mark, id, now, saved);
      case SRegister(command, x) => RegisterKeepsRecords(s, command, x);
      case SRestart(gate, now) => RestartKeepsRecords(s, gate, now);
      case _ =>
    }
  }

  lemma AcceptStep(s: System, key: Key, command: CloseCommand, saved: bool, published: bool, k: Key)
    requires Inv(s)
    ensures RecordAfter(s, SExecute(key, command, saved, published), k,
              Get(s.live.actions, k), Get(Execute(s, key, command, saved, published).0.live.actions, k))
  {
    hide Good, RunOk, DiskOk;
    assert key in s.live.actions.data ==> s.live.actions.data[key].key == key by { RecordsKnowTheirKeys(s); }
    if key !in s.live.actions.data && !saved {
      DeletedAgain(s, Record(key, command, Pending, None));
    }
  }

  lemma RecordsKnowTheirKeys(s: System)
    requires Inv(s)
    ensures WellKeyed(s.live) && WellOrdered(s.live)
  {
  }

  lemma DeletedAgain(s: System, r: Record)
    requires Inv(s) && r.key !in s.live.actions.data
    ensures Delete(Set(s.live.actions, r.key, r), r.key) == s.live.actions
  {
    DeleteUndoesInsert(s.live.actions, r.key, r);
  }

  lemma RejectStep(s: System, key: Key, code: Code, saved: bool, k: Key)
    requires HoldsTurn(s, key)
    ensures Get(FinishRejected(s, key, code, saved).live.actions, k) ==
      if saved && k == key then Some(RejectedWith(s.running[key].record, code)) else Get(s.live.actions, k)
  {
  }

  lemma CommitStep(s: System, key: Key, saved: bool, published: bool, k: Key)
    requires HoldsTurn(s, key) && s.running[key].record.command.affairId in s.live.affairs.data
    ensures Get(Commit(s, key, saved, published).live.actions, k) ==
      if saved && k == key then Some(CommittedWith(s.running[key].record, ResultOf(s.live, s.running[key].record.command))) else Get(s.live.actions, k)
  {
  }

  lemma ConfirmStep(s: System, key: Key, saved: bool, published: bool, k: Key)
    requires HoldsTurn(s, key)
    ensures Precheck(s.live, s.running[key].record.command).None? ==> s.running[key].record.command.affairId in s.live.affairs.data
    ensures var code := Precheck(s.live, s.running[key].record.command);
      Get(Confirm(s, key, saved, published).live.actions, k) ==
        if !saved || k != key then Get(s.live.actions, k)
        else if code.Some? then Some(RejectedWith(s.running[key].record, code.value))
        else Some(CommittedWith(s.running[key].record, ResultOf(s.live, s.running[key].record.command)))
  {
    var code := Precheck(s.live, s.running[key].record.command);
    if code.Some? {
      RejectStep(s, key, code.value, saved, k);
    } else {
      CommitStep(s, key, saved, published, k);
    }
    hide FinishRejected, Commit;
  }

  lemma BeginStep(s: System, key: Key, saved: bool, published: bool, k: Key)
    requires HoldsTurn(s, key)
    ensures Precheck(s.live, s.running[key].record.command).None? ==> s.running[key].record.command.affairId in s.live.affairs.data
    ensures var code := Precheck(s.live, s.running[key].record.command);
      Get(Begin(s, key, saved, published).live.actions, k) ==
        if !saved || k != key || (code.None? && s.running[key].record.command.status == ToCanceled) then Get(s.live.actions, k)
        else if code.Some? then Some(RejectedWith(s.running[key].record, code.value))
        else Some(CommittedWith(s.running[key].record, ResultOf(s.live, s.running[key].record.command)))
  {
    ConfirmStep(s, key, saved, published, k);
    hide FinishRejected, Commit, RevokeAllOf;
  }

  lemma DeliverKeepsRecords(s: System, e: Envelope, now: int, saved: bool)
    requires !e.body.ReadReceipt?
    ensures Deliver(s, e, now, saved).0.live.actions == s.live.actions
  {
    ApplyKeepsCore(s.live, e, now);
  }

  lemma SuperviseKeepsRecords(s: System, a: string, mark: Mark, id: string, now: int, saved: bool)
    ensures Supervise(s, a, mark, id, now, saved).live.actions == s.live.actions
  {
    if a in s.live.affairs.data {
      ApplyKeepsCore(s.live, Envelope(id, false, true, AffairEvent(AffairUpdate, Marked(s.live.affairs.data[a], mark))), now);
    }
  }

  lemma RegisterKeepsRecords(s: System, command: Envelope, x: C.CreateInput)
    requires Inv(s) && command.body.JobEvent?
    ensures Register(s, command, x).live.actions == s.live.actions
  {
    hide DiskOk, RunsOk, Consistent;
    if C.HandleJobCreate(s.live, s.gate, command, x).2 == C.Created {
      CreationIsQuiet(s, command, x);
    } else {
      C.CreationIsAtomic(s.live, s.gate, command, x);
    }
  }

  lemma RestartKeepsRecords(s: System, gate: G.Gate, now: int)
    requires Inv(s)
    ensures Restart(s, gate, now).live.actions == s.live.actions
  {
  }

  // ----- answers -----

  predicate EndedAs(b: Backend, a: string, status: CloseStatus) {
    a in b.affairs.data && b.affairs.data[a].status == status.Affair()
  }

  predicate Recorded(b: Backend, key: Key, command: CloseCommand, outcome: Outcome) {
    key in b.actions.data && b.actions.data[key] == Record(key, command, if outcome.Ok? then Committed else Rejected, Some(outcome))
  }

  /** What a later request with the same key and command is told. */
  function Replayed(outcome: Outcome): Outcome {
    if outcome.Ok? then outcome.(duplicate := true) else outcome
  }

  /** The caller of request `key` has its final answer: its own run settled with it, or a repeated
      request was answered from the record. */
  ghost predicate AnsweredFinally(s: System, key: Key, command: CloseCommand, outcome: Outcome) {
    || (key in s.running && s.running[key].record.command == command && s.running[key].phase == Done(outcome) && outcome != UNCONFIRMED)
    || (outcome.Ok? && !outcome.duplicate && exists saved, published :: Execute(s, key, command, saved, published).1 == Now(Replayed(outcome)))
  }

  lemma RunAnswerIsRecorded(s: System, key: Key)
    requires Inv(s) && key in s.running && s.running[key].phase.Done? && s.running[key].phase.outcome != UNCONFIRMED
    ensures Recorded(s.live, key, s.running[key].record.command, s.running[key].phase.outcome)
  {
    assert RunOk(s.live, s.running[key]);
    hide Good, DiskOk;
  }

  lemma ReplyIsRecorded(s: System, key: Key, command: CloseCommand, saved: bool, published: bool, outcome: Outcome)
    requires Inv(s) && Execute(s, key, command, saved, published).1 == Now(outcome) && outcome.Ok?
    ensures outcome.duplicate && Recorded(s.live, key, command, outcome.(duplicate := false))
  {
    if key in s.live.actions.data {
      assert RecordOk(s.live, s.live.actions.data[key]);
    }
    hide IsClosing, ValidCommand, RunsOk, DiskOk, Snapshot;
  }

  lemma AnswerIsRecorded(s: System, key: Key, command: CloseCommand, outcome: Outcome)
    requires Inv(s) && AnsweredFinally(s, key, command, outcome)
    ensures Recorded(s.live, key, command, outcome)
  {
    hide Inv, Execute;
    if key in s.running && s.running[key].record.command == command && s.running[key].phase == Done(outcome) && outcome != UNCONFIRMED {
      RunAnswerIsRecorded(s, key);
    } else {
      var saved, published :| Execute(s, key, command, saved, published).1 == Now(Replayed(outcome));
      ReplyIsRecorded(s, key, command, saved, published, Replayed(outcome));
    }
  }

  /** A decided record is never touched again, by any step. */
  lemma DecidedStays(s: System, st: Step, k: Key)
    requires Inv(s) && Enabled(s, st) && k in s.live.actions.data && s.live.actions.data[k].phase != Pending
    ensures k in Next(s, st).live.actions.data && Next(s, st).live.actions.data[k] == s.live.actions.data[k]
  {
    hide Inv, Next, Enabled, Precheck, IsClosing;
    RecordStep(s, st, k);
  }

  lemma {:induction false} DecidedForever(ss: seq<System>, steps: seq<Step>, n: nat, m: nat, k: Key)
    requires IsRun(ss, steps) && n <= m < |ss| && k in ss[n].live.actions.data && ss[n].live.actions.data[k].phase != Pending
    ensures k in ss[m].live.actions.data && ss[m].live.actions.data[k] == ss[n].live.actions.data[k]
  {
    hide Next, Enabled, Inv;
    if m > n {
      DecidedForever(ss, steps, n, m - 1, k);
      RunKeepsInv(ss, steps, m - 1);
      DecidedStays(ss[m - 1], steps[m - 1], k);
    }
  }

  /** Durable and repeatable answers. Once a request has its final answer, in every later state of the run,
      whatever was saved or not, crashed or restarted: the mirror file holds the record; a close that was
      answered with success shows in the affair's status, in memory and on file; the same request is given
      the same answer and changes nothing; the same key with another command is refused and changes nothing. */
  lemma AnswerIsForever(ss: seq<System>, steps: seq<Step>, n: nat, m: nat, key: Key, command: CloseCommand, outcome: Outcome,
                        other: CloseCommand, saved: bool, published: bool)
    requires IsRun(ss, steps) && n <= m < |ss| && AnsweredFinally(ss[n], key, command, outcome)
    requires ValidCommand(other) && other != command
    ensures Recorded(OnDisk(ss[m]), key, command, outcome)
    ensures outcome.Ok? ==> EndedAs(ss[m].live, command.affairId, command.status) && EndedAs(OnDisk(ss[m]), command.affairId, command.status)
    ensures Execute(ss[m], key, command, saved, published) == (ss[m], Now(Replayed(outcome)))
    ensures Execute(ss[m], key, other, saved, published) == (ss[m], Now(Err(AffairActionIdConflict, false)))
  {
    RunKeepsInv(ss, steps, n);
    RunKeepsInv(ss, steps, m);
    AnswerIsRecorded(ss[n], key, command, outcome);
    DecidedForever(ss, steps, n, m, key);
    RecordedAnswers(ss[m], key, command, outcome, other, saved, published);
  }

  lemma RecordedAnswers(s: System, key: Key, command: CloseCommand, outcome: Outcome, other: CloseCommand, saved: bool, published: bool)
    requires Inv(s) && Recorded(s.live, key, command, outcome) && ValidCommand(other) && other != command
    ensures Recorded(OnDisk(s), key, command, outcome)
    ensures outcome.Ok? ==> EndedAs(s.live, command.affairId, command.status) && EndedAs(OnDisk(s), command.affairId, command.status)
    ensures Execute(s, key, command, saved, published) == (s, Now(Replayed(outcome)))
    ensures Execute(s, key, other, saved, published) == (s, Now(Err(AffairActionIdConflict, false)))
  {
    assert RecordOk(s.live, s.live.actions.data[key]);
    assert RecordOk(OnDisk(s), OnDisk(s).actions.data[key]);
  }

  // ----- endings -----

  /** An affair that has ended stays ended with the same status, in memory and on file, through every
      message, failed save and restart. */
  lemma EndingIsForever(ss: seq<System>, steps: seq<Step>, n: nat, m: nat, a: string, status: CloseStatus)
    requires IsRun(ss, steps) && n <= m < |ss| && EndedAs(ss[n].live, a, status)
    ensures EndedAs(ss[m].live, a, status) && EndedAs(OnDisk(ss[m]), a, status)
  {
    RunKeepsInv(ss, steps, n);
    RunKeepsInv(ss, steps, m);
    var k := CommitOfEnding(ss[n].live, a);
    DecidedForever(ss, steps, n, m, k);
    CommitShows(ss[m].live, k);
    CommitShows(OnDisk(ss[m]), k);
  }

  lemma CommitOfEnding(b: Backend, a: string) returns (k: Key)
    requires Good(b) && AffairEnded(b, a)
    ensures CommittedAt(b.actions.data, k, a) && EndedAs(b, a, b.actions.data[k].command.status)
  {
    assert HasCommit(b.actions.data, a);
    k :| CommittedAt(b.actions.data, k, a);
    assert RecordOk(b, b.actions.data[k]);
  }

  lemma CommitShows(b: Backend, k: Key)
    requires Good(b) && k in b.actions.data && b.actions.data[k].phase == Committed
    ensures EndedAs(b, b.actions.data[k].command.affairId, b.actions.data[k].command.status)
    ensures AffairEnded(b, b.actions.data[k].command.affairId)
  {
    assert RecordOk(b, b.actions.data[k]);
  }

  /** The answer shows the affair as it is but ended, with nothing left to wait for, and all its jobs as they are. */
  ghost predicate Reports(result: CloseResult, b: Backend, a: string, ended: AffairStatus) {
    && a in b.affairs.data && result.affair == b.affairs.data[a].(status := ended, blockedReason := None, resumeCondition := None)
    && forall x :: x in result.jobs <==> x.jobId in b.jobs.data && b.jobs.data[x.jobId] == x && x.affairId == a
  }

  lemma ResultReports(s: System, c: CloseCommand)
    requires Inv(s) && c.affairId in s.live.affairs.data
    ensures Reports(ResultOf(s.live, c), s.live, c.affairId, if c.status == ToClosed then Closed else Canceled)
  {
    RecordsKnowTheirKeys(s);
    JobsOfMembers(s.live, c.affairId);
    hide Inv, JobsOf;
  }

  /** The only way to end an affair: a step that newly ends `a` is the final decision of some request for
      `a` whose checks pass at that very moment, its record is on file with the affair's new status, and
      acceptance finds the current job finished with evidence and every sibling stopped. */
  lemma EveryEndingIsACommit(s: System, st: Step, a: string) returns (k: Key)
    requires Inv(s) && Enabled(s, st) && !AffairEnded(s.live, a) && AffairEnded(Next(s, st).live, a)
    ensures Decides(s, st, k)
    ensures var c := s.live.actions.data[k].command;
      && c.affairId == a && Precheck(s.live, c).None? && a in s.live.affairs.data && (st.SBegin? ==> c.status == ToClosed)
      && Recorded(OnDisk(Next(s, st)), k, c, Ok(ResultOf(s.live, c), false))
      && EndedAs(OnDisk(Next(s, st)), a, c.status) && EndedAs(Next(s, st).live, a, c.status)
      && (c.status == ToClosed ==> Acceptable(s.live, a)) && Reports(ResultOf(s.live, c), s.live, a, if c.status == ToClosed then Closed else Canceled)
  {
    NextKeepsInv(s, st);
    var s' := Next(s, st);
    k := CommitOfEnding(s'.live, a);
    RecordStep(s, st, k);
    NotCommittedBefore(s.live, k, a);
    hide Precheck, Next, Enabled, Reports, ResultOf;
    PrecheckOfPending(s, k);
    CommitShows(OnDisk(s'), k);
    ResultReports(s, s.live.actions.data[k].command);
  }

  lemma NotCommittedBefore(b: Backend, k: Key, a: string)
    requires Good(b) && !AffairEnded(b, a)
    ensures !CommittedAt(b.actions.data, k, a)
  {
    if CommittedAt(b.actions.data, k, a) {
      CommitShows(b, k);
    }
  }

  lemma PrecheckOfPending(s: System, k: Key)
    requires Inv(s)
    ensures k in s.live.actions.data && Precheck(s.live, s.live.actions.data[k].command).None? && s.live.actions.data[k].command.status == ToClosed ==>
      Acceptable(s.live, s.live.actions.data[k].command.affairId)
  {
    if k in s.live.actions.data && Precheck(s.live, s.live.actions.data[k].command).None? {
      PrecheckMeans(s.live, s.live.actions.data[k].command);
    }
  }
}
