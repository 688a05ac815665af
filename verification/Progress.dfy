/** A cancellation whose executor stops every job it is asked to stop, and whose saves all succeed:
    when does it commit? */
module Progress {
  import opened Option
  import opened JsMap
  import opened Status
  import opened Types
  import opened Store
  import opened Mirror
  import opened Closing
  import opened Coordinator
  import opened Authority
  import opened Invariant

  /** The message by which a stopped job reaches the store. */
  function StopMessage(id: string, job: Job): Envelope {
    Envelope(id, false, true, JobEvent(JobCanceledEvent, job.(status := JobCanceled)))
  }

  /** One round of the child loop with such an executor. */
  function Round(s: System, key: Key, id: string, now: int): System
    requires key in s.running && s.running[key].phase.Cancelling? && s.running[key].phase.next < |s.running[key].phase.children|
  {
    var s1 := ChildStep(s, key, true, true);
    if s1.running[key].phase.AwaitingPort? then
      PortReturns(Deliver(s1, StopMessage(id, Current(s1.live, s.running[key].phase.children[s.running[key].phase.next])), now, true).0, key, false, true)
    else s1
  }

  /** The rest of the run, round by round; `ids` are the message ids it uses. */
  function Drive(s: System, key: Key, ids: seq<string>, now: int): System
    requires key in s.running && s.running[key].phase.Cancelling? && s.running[key].phase.next + |ids| == |s.running[key].phase.children|
    decreases |ids|
  {
    if ids == [] then Confirm(ChildStep(s, key, true, true), key, true, true)
    else
      var s' := Round(s, key, ids[0], now);
      if key in s'.running && s'.running[key].phase == Cancelling(s.running[key].phase.children, s.running[key].phase.next + 1)
      then Drive(s', key, ids[1..], now) else s'
  }

  /** The whole run, from its turn on. */
  function CancelWithIdealExecutor(s: System, key: Key, ids: seq<string>, now: int): System
    requires key in s.running && |ids| == |JobsOf(s.live, s.running[key].record.command.affairId)|
  {
    var s1 := Begin(s, key, true, true);
    if s1.running[key].phase == Cancelling(JobsOf(s.live, s.running[key].record.command.affairId), 0) then Drive(s1, key, ids, now) else s1
  }

  predicate HasCommitted(s: System, key: Key) {
    key in s.running && s.running[key].phase.Done? && s.running[key].phase.outcome.Ok?
  }

  ghost predicate FreshIds(b: Backend, ids: seq<string>) {
    Distinct(ids) && forall i :: 0 <= i < |ids| ==> ids[i] !in b.seen.data
  }

  /** A job of the affair that the executor is asked to stop and whose stopping is projected onto the affair. */
  predicate AskedExecution(b: Backend, j: string, a: string) {
    LiveJobOf(b, j, a) && !EndedBlocked(b.jobs.data[j]) && b.jobs.data[j].purpose != Some(Exploration)
  }

  /** Stopping some remaining child would make it the affair's current job. */
  predicate WouldAdopt(b: Backend, a: string, children: seq<Job>, next: nat) {
    && a in b.affairs.data && CanTransitionAffair(b.affairs.data[a].status, Blocked)
    && exists i :: next <= i < |children| && AskedExecution(b, children[i].jobId, a)
  }

  // ----- one stop message -----

  /** What the stop message of a live job writes. */
  lemma StopWrites(b: Backend, id: string, job: Job, now: int)
    requires job.jobId in b.jobs.data && b.jobs.data[job.jobId] == job && !TerminalJob(job.status)
    requires job.jobId != "" && job.affairId != "" && id !in b.seen.data
    ensures var (b', r) := Apply(b, StopMessage(id, job), now);
      && r == Applied
      && b'.jobs.data.Keys == b.jobs.data.Keys
      && b'.jobs.data[job.jobId].status == JobCanceled && b'.jobs.data[job.jobId].affairId == job.affairId
      && (forall j :: j in b.jobs.data && j != job.jobId ==> b'.jobs.data[j] == b.jobs.data[j])
      && b'.seen.data.Keys == b.seen.data.Keys + {id}
  {
    OnlyRevival(job.status, JobCanceled);
  }

  lemma StopProjects(b: Backend, id: string, job: Job, now: int, a: string)
    requires WellKeyed(b)
    requires job.jobId in b.jobs.data && b.jobs.data[job.jobId] == job && !TerminalJob(job.status)
    requires job.jobId != "" && job.affairId != "" && id !in b.seen.data && a in b.affairs.data
    ensures var b' := Apply(b, StopMessage(id, job), now).0;
      var before := b.affairs.data[a];
      && a in b'.affairs.data
      && (if a == job.affairId && job.purpose != Some(Exploration) && (!Truthy(before.currentJobId) || before.currentJobId == Some(job.jobId))
             && CanTransitionAffair(before.status, Blocked)
          then b'.affairs.data[a].currentJobId == Some(job.jobId)
          else b'.affairs.data[a] == before)
  {
    OnlyRevival(job.status, JobCanceled);
  }

  // ----- one round -----

  /** The effect of one round on the affair and the jobs. */
  ghost predicate RoundEffect(b: Backend, b': Backend, a: string, j: string, id: string) {
    && a in b.affairs.data && a in b'.affairs.data && j in b'.jobs.data && TerminalJob(b'.jobs.data[j].status)
    && b'.jobs.data.Keys == b.jobs.data.Keys
    && (forall k :: k in b.jobs.data && k != j ==> b'.jobs.data[k] == b.jobs.data[k])
    && (forall m :: m in b'.seen.data ==> m in b.seen.data || m == id)
    && (if AskedExecution(b, j, a) && (!Truthy(b.affairs.data[a].currentJobId) || b.affairs.data[a].currentJobId == Some(j))
           && CanTransitionAffair(b.affairs.data[a].status, Blocked)
        then b'.affairs.data[a].currentJobId == Some(j)
        else b'.affairs.data[a] == b.affairs.data[a])
  }

  predicate AtChild(s: System, key: Key, children: seq<Job>, next: nat) {
    && key in s.running && s.running[key].phase == Cancelling(children, next) && next < |children|
    && s.running[key].record.command.affairId in s.live.affairs.data
  }

  predicate Advanced(s: System, s': System, key: Key, children: seq<Job>, next: nat) {
    key in s.running && key in s'.running && s'.running[key] == s.running[key].(phase := Cancelling(children, next + 1))
  }

  /** A child that needs no executor. */
  lemma QuickChild(s: System, key: Key, children: seq<Job>, next: nat)
    requires AtChild(s, key, children, next) && children[next].jobId in s.live.jobs.data
    requires s.live.jobs.data[children[next].jobId].jobId == children[next].jobId
    requires TerminalJob(s.live.jobs.data[children[next].jobId].status) || EndedBlocked(s.live.jobs.data[children[next].jobId])
    ensures var s' := ChildStep(s, key, true, true);
      && Advanced(s, s', key, children, next) && s'.live.affairs == s.live.affairs && s'.live.seen == s.live.seen
      && (s'.live.jobs == s.live.jobs || s'.live.jobs == MarkCanceled(s.live, s.live.jobs.data[children[next].jobId]).jobs)
      && children[next].jobId in s'.live.jobs.data && TerminalJob(s'.live.jobs.data[children[next].jobId].status)
  {
    hide Snapshot;
  }

  lemma QuickRound(s: System, key: Key, children: seq<Job>, next: nat, id: string, now: int)
    requires Inv(s) && AtChild(s, key, children, next)
    requires TerminalJob(Current(s.live, children[next]).status) || EndedBlocked(Current(s.live, children[next]))
    ensures var s' := Round(s, key, id, now);
      Advanced(s, s', key, children, next) && Inv(s') && RoundEffect(s.live, s'.live, s.running[key].record.command.affairId, children[next].jobId, id)
  {
    hide Inv, ChildStep, PortReturns, Deliver, WellKeyed;
    ChildFacts(s, key, children, next);
    QuickChild(s, key, children, next);
    ChildStepKeepsInv(s, key, true, true);
  }

  /** The state when the executor's stop message has been applied. */
  function Stopped(s: System, key: Key, children: seq<Job>, next: nat, id: string, now: int): System
    requires key in s.running && next < |children|
  {
    Deliver(WithRun(s, key, AwaitingPort(children, next)), StopMessage(id, Current(s.live, children[next])), now, true).0
  }

  lemma AskedRoundIs(s: System, key: Key, children: seq<Job>, next: nat, id: string, now: int)
    requires AtChild(s, key, children, next)
    requires !TerminalJob(Current(s.live, children[next]).status) && !EndedBlocked(Current(s.live, children[next]))
    ensures Round(s, key, id, now) == PortReturns(Stopped(s, key, children, next, id, now), key, false, true)
  {
    hide Deliver;
  }

  lemma StoppedKeepsInv(s: System, key: Key, children: seq<Job>, next: nat, id: string, now: int)
    requires Inv(s) && AtChild(s, key, children, next)
    ensures Inv(Stopped(s, key, children, next, id, now))
  {
    var s1 := WithRun(s, key, AwaitingPort(children, next));
    var e := StopMessage(id, Current(s.live, children[next]));
    LookAtChildKeepsInv(s, key, children, next);
    hide Inv;
    DeliverKeepsInv(s1, e, now, true);
  }

  lemma StoppedState(s: System, key: Key, children: seq<Job>, next: nat, id: string, now: int)
    requires key in s.running && next < |children|
    ensures var s2, e := Stopped(s, key, children, next, id, now), StopMessage(id, Current(s.live, children[next]));
      && SameCore(s2.live, Apply(s.live, e, now).0) && s2.live.seen == Apply(s.live, e, now).0.seen
      && s2.running == WithRun(s, key, AwaitingPort(children, next)).running
  {
    hide Apply;
  }

  lemma ChildFacts(s: System, key: Key, children: seq<Job>, next: nat)
    requires Inv(s) && key in s.running && next < |children| && s.running[key].phase == Cancelling(children, next)
    ensures var j := children[next].jobId;
      && j in s.live.jobs.data && s.live.jobs.data[j].jobId == j && j != "" && s.live.jobs.data[j].affairId != ""
      && Current(s.live, children[next]) == s.live.jobs.data[j]
    ensures WellKeyed(s.live)
  {
    ChildIsRegistered(s, key, children, next);
  }

  lemma AskedEffect(b: Backend, b': Backend, id: string, j: string, now: int, a: string)
    requires WellKeyed(b) && j in b.jobs.data && j != "" && b.jobs.data[j].affairId != ""
    requires !TerminalJob(b.jobs.data[j].status) && !EndedBlocked(b.jobs.data[j]) && id !in b.seen.data && a in b.affairs.data
    requires SameCore(b', Apply(b, StopMessage(id, b.jobs.data[j]), now).0) && b'.seen == Apply(b, StopMessage(id, b.jobs.data[j]), now).0.seen
    ensures RoundEffect(b, b', a, j, id) && j in b'.jobs.data && TerminalJob(b'.jobs.data[j].status)
  {
    StopWrites(b, id, b.jobs.data[j], now);
    StopProjects(b, id, b.jobs.data[j], now, a);
    hide Apply;
  }

  lemma PortAnswered(s: System, key: Key, children: seq<Job>, next: nat)
    requires key in s.running && s.running[key].phase == AwaitingPort(children, next) && next < |children|
    requires children[next].jobId in s.live.jobs.data && TerminalJob(s.live.jobs.data[children[next].jobId].status)
    ensures var s' := PortReturns(s, key, false, true);
      s'.live == s.live && s'.running == WithRun(s, key, Cancelling(children, next + 1)).running
  {
    hide Snapshot;
  }

  lemma AskedRound(s: System, key: Key, children: seq<Job>, next: nat, id: string, now: int)
    requires Inv(s) && AtChild(s, key, children, next) && id !in s.live.seen.data
    requires !TerminalJob(Current(s.live, children[next]).status) && !EndedBlocked(Current(s.live, children[next]))
    ensures var s' := Round(s, key, id, now);
      Advanced(s, s', key, children, next) && Inv(s') && RoundEffect(s.live, s'.live, s.running[key].record.command.affairId, children[next].jobId, id)
  {
    hide Inv, Apply, Stopped, Round, WellKeyed, PortReturns, RoundEffect;
    var j, s2 := children[next].jobId, Stopped(s, key, children, next, id, now);
    ChildFacts(s, key, children, next);
    AskedRoundIs(s, key, children, next, id, now);
    StoppedKeepsInv(s, key, children, next, id, now);
    StoppedState(s, key, children, next, id, now);
    AskedEffect(s.live, s2.live, id, j, now, s.running[key].record.command.affairId);
    PortAnswered(s2, key, children, next);
    PortReturnsKeepsInv(s2, key, false, true);
  }

  // ----- the whole run -----

  /** From here the run commits: the current job is the expected one, and either one was expected or
      stopping the remaining children adopts none. */
  predicate MayCommit(b: Backend, a: string, expected: Option<string>, children: seq<Job>, next: nat) {
    && a in b.affairs.data && b.affairs.data[a].currentJobId == expected
    && (expected.Some? || !WouldAdopt(b, a, children, next))
  }

  /** If a job is expected, it is the current one. */
  predicate Matches(b: Backend, a: string, expected: Option<string>) {
    a in b.affairs.data && (expected.Some? ==> expected.value != "" && b.affairs.data[a].currentJobId == expected)
  }

  lemma SameAdoption(b: Backend, b': Backend, a: string, children: seq<Job>, next: nat, id: string)
    requires next < |children| && RoundEffect(b, b', a, children[next].jobId, id)
    requires b'.affairs.data[a] == b.affairs.data[a]
    requires !AskedExecution(b, children[next].jobId, a)
    ensures WouldAdopt(b', a, children, next + 1) <==> WouldAdopt(b, a, children, next)
  {
    if CanTransitionAffair(b.affairs.data[a].status, Blocked) {
      forall i | next <= i < |children|
        ensures AskedExecution(b', children[i].jobId, a) <==> AskedExecution(b, children[i].jobId, a)
      {
      }
    }
  }

  lemma RoundKeepsMayCommit(b: Backend, b': Backend, a: string, expected: Option<string>, children: seq<Job>, next: nat, id: string)
    requires next < |children| && RoundEffect(b, b', a, children[next].jobId, id) && Matches(b, a, expected)
    ensures Matches(b', a, expected)
    ensures MayCommit(b', a, expected, children, next + 1) <==> MayCommit(b, a, expected, children, next)
  {
    var j := children[next].jobId;
    if expected.None? && b.affairs.data[a].currentJobId.None? && !AskedExecution(b, j, a) {
      SameAdoption(b, b', a, children, next, id);
    }
  }

  lemma LastLook(s: System, key: Key, children: seq<Job>)
    requires Inv(s) && key in s.running && s.running[key].phase == Cancelling(children, |children|)
    requires Matches(s.live, s.running[key].record.command.affairId, s.running[key].record.command.expectedCurrentJobId)
    ensures HasCommitted(Confirm(ChildStep(s, key, true, true), key, true, true), key) <==>
      MayCommit(s.live, s.running[key].record.command.affairId, s.running[key].record.command.expectedCurrentJobId, children, |children|)
  {
    var s1 := WithRun(s, key, Confirming);
    var command := s.running[key].record.command;
    assert ChildStep(s, key, true, true) == s1;
    CancelPrecheck(s, key);
    ConfirmDecides(s1, key);
    hide Inv, Confirm, ChildStep;
  }

  lemma CancelPrecheck(s: System, key: Key)
    requires Inv(s) && key in s.running && s.running[key].phase.Cancelling?
    ensures var c := s.running[key].record.command;
      c.affairId in s.live.affairs.data ==>
        (Precheck(s.live, c).None? <==> s.live.affairs.data[c.affairId].currentJobId == c.expectedCurrentJobId)
  {
    assert RunOk(s.live, s.running[key]);
    var c := s.running[key].record.command;
    if c.affairId in s.live.affairs.data {
      AffairTableShape(s.live.affairs.data[c.affairId].status, Canceled);
    }
  }

  lemma ConfirmDecides(s: System, key: Key)
    requires key in s.running
    ensures HasCommitted(Confirm(s, key, true, true), key) <==> Precheck(s.live, s.running[key].record.command).None?
  {
    hide Precheck, Snapshot;
  }

  lemma {:induction false} DriveCommits(s: System, key: Key, ids: seq<string>, now: int)
    requires Inv(s) && key in s.running && s.running[key].phase.Cancelling? && s.running[key].phase.next + |ids| == |s.running[key].phase.children|
    requires FreshIds(s.live, ids)
    requires Matches(s.live, s.running[key].record.command.affairId, s.running[key].record.command.expectedCurrentJobId)
    ensures HasCommitted(Drive(s, key, ids, now), key) <==>
      MayCommit(s.live, s.running[key].record.command.affairId, s.running[key].record.command.expectedCurrentJobId,
                s.running[key].phase.children, s.running[key].phase.next)
    decreases |ids|
  {
    hide Inv, Round, RoundEffect, MayCommit;
    var Cancelling(children, next) := s.running[key].phase;
    var command := s.running[key].record.command;
    if ids == [] {
      LastLook(s, key, children);
    } else {
      var s' := Round(s, key, ids[0], now);
      OneRound(s, key, children, next, ids[0], now);
      IdsStayFresh(s, s', key, ids, children, next);
      RoundKeepsMayCommit(s.live, s'.live, command.affairId, command.expectedCurrentJobId, children, next, ids[0]);
      DriveCommits(s', key, ids[1..], now);
    }
  }

  lemma OneRound(s: System, key: Key, children: seq<Job>, next: nat, id: string, now: int)
    requires Inv(s) && AtChild(s, key, children, next) && id !in s.live.seen.data
    ensures var s' := Round(s, key, id, now);
      Advanced(s, s', key, children, next) && Inv(s') && RoundEffect(s.live, s'.live, s.running[key].record.command.affairId, children[next].jobId, id)
  {
    hide Inv, Round, RoundEffect;
    if TerminalJob(Current(s.live, children[next]).status) || EndedBlocked(Current(s.live, children[next])) {
      QuickRound(s, key, children, next, id, now);
    } else {
      AskedRound(s, key, children, next, id, now);
    }
  }

  lemma IdsStayFresh(s: System, s': System, key: Key, ids: seq<string>, children: seq<Job>, next: nat)
    requires ids != [] && FreshIds(s.live, ids) && key in s.running && next < |children|
    requires RoundEffect(s.live, s'.live, s.running[key].record.command.affairId, children[next].jobId, ids[0])
    ensures FreshIds(s'.live, ids[1..])
  {
    assert forall i :: 0 <= i < |ids[1..]| ==> ids[1..][i] == ids[i + 1] && ids[i + 1] != ids[0];
  }

  /** Exactly when an ideal cancellation commits. From any status that is not terminal, a cancellation that
      passes its first check, whose executor stops every job it is asked to stop and whose saves succeed,
      commits if it named the current job. If it named none (and there is none), it commits except when
      some child that must be stopped is an execution of this affair and the affair's status can move to
      blocked: stopping that child makes it the current job, and the second check refuses. */
  lemma IdealCancelCommitsExactlyWhen(s: System, key: Key, ids: seq<string>, now: int)
    requires Inv(s) && key in s.running && s.running[key].phase.InLine? && s.running[key].record.command.status == ToCanceled
    requires Precheck(s.live, s.running[key].record.command).None?
    requires |ids| == |JobsOf(s.live, s.running[key].record.command.affairId)| && FreshIds(s.live, ids)
    ensures var c := s.running[key].record.command;
      && c.affairId in s.live.affairs.data
      && (HasCommitted(CancelWithIdealExecutor(s, key, ids, now), key) <==>
           (c.expectedCurrentJobId.Some? || !CanTransitionAffair(s.live.affairs.data[c.affairId].status, Blocked)
            || forall j :: j in s.live.jobs.data ==> !AskedExecution(s.live, j, c.affairId)))
  {
    var c := s.running[key].record.command;
    var children := JobsOf(s.live, c.affairId);
    var s1 := Begin(s, key, true, true);
    TurnOfRun(s, key);
    BeginKeepsInv(s, key, true, true);
    BeginCancels(s, key, c, children);
    CommandIsValid(s, key);
    AdoptionAtStart(s, c.affairId);
    hide Inv, Begin, Precheck;
    DriveCommits(s1, key, ids, now);
  }

  lemma BeginCancels(s: System, key: Key, c: CloseCommand, children: seq<Job>)
    requires key in s.running && s.running[key].record.command == c && c.status == ToCanceled && Precheck(s.live, c).None?
    requires children == JobsOf(s.live, c.affairId)
    ensures var s1 := Begin(s, key, true, true);
      s1.live == s.live && key in s1.running && s1.running[key] == s.running[key].(phase := Cancelling(children, 0))
    ensures c.affairId in s.live.affairs.data && s.live.affairs.data[c.affairId].currentJobId == c.expectedCurrentJobId
  {
  }

  lemma CommandIsValid(s: System, key: Key)
    requires Inv(s) && HoldsTurn(s, key)
    ensures var e := s.running[key].record.command.expectedCurrentJobId; e.Some? ==> e.value != ""
  {
    assert RecordOk(s.live, s.running[key].record);
  }

  lemma AdoptionAtStart(s: System, a: string)
    requires Inv(s) && a in s.live.affairs.data
    ensures WouldAdopt(s.live, a, JobsOf(s.live, a), 0) <==>
      CanTransitionAffair(s.live.affairs.data[a].status, Blocked) && exists j :: j in s.live.jobs.data && AskedExecution(s.live, j, a)
  {
    var children := JobsOf(s.live, a);
    ChildrenCoverAffair(s.live, a);
    forall j | AskedExecution(s.live, j, a) ensures exists i :: 0 <= i < |children| && children[i].jobId == j {
      assert Ahead(Cancelling(children, 0), j);
    }
    hide Inv;
  }
}
