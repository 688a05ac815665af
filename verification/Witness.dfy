/** Runs from startup that show the conditions of the main results cannot be dropped. */
module Witness {
  import opened Option
  import opened JsMap
  import opened Status
  import opened Types
  import opened Store
  import opened Mirror
  import opened Closing
  import opened Coordinator
  import opened Authority
  import opened Guarantees
  import opened Progress
  import opened Endings
  import opened Invariant
  import P = Publisher

  function One<K(!new), V>(k: K, v: V): JsMap<K, V> {
    JsMap([k], map[k := v])
  }

  // ----- states with one affair and one job -----

  /** No close was ever asked for. */
  predicate Rests(s: System, affairs: JsMap<string, Affair>, jobs: JsMap<string, Job>, ids: set<string>) {
    s.live.actions == Empty() && s.live.affairs == affairs && s.live.jobs == jobs && s.live.seen.data.Keys == ids && s.running == map[]
  }

  /** One close is under way. */
  predicate Closes(s: System, key: Key, command: CloseCommand, phase: RunPhase, affair: Affair, job: Job, ids: set<string>) {
    && s.live.affairs == One(affair.affairId, affair) && s.live.jobs == One(job.jobId, job) && s.live.seen.data.Keys == ids
    && key in s.running && s.running[key] == Run(Record(key, command, Pending, None), phase)
  }

  predicate Cancels(command: CloseCommand, affair: Affair) {
    ValidCommand(command) && command.affairId == affair.affairId && command.status == ToCanceled && affair.affairId != "" && !TerminalAffair(affair.status)
  }

  predicate ChildOf(job: Job, affair: Affair) {
    job.jobId != "" && job.affairId == affair.affairId && job.purpose == Some(Execution)
  }

  function AffairMessage(id: string, affair: Affair): Step {
    SDeliver(Envelope(id, false, true, AffairEvent(AffairUpdate, affair)), 0, true)
  }

  function JobMessage(id: string, kind: JobEventKind, job: Job): Step {
    SDeliver(Envelope(id, false, true, JobEvent(kind, job)), 0, true)
  }

  lemma AffairIsTold(s: System, affairs: JsMap<string, Affair>, jobs: JsMap<string, Job>, ids: set<string>, affair: Affair, id: string)
    requires Rests(s, affairs, jobs, ids) && affair.affairId != "" && !TerminalAffair(affair.status) && id !in ids
    requires affair.affairId in affairs.data ==> CanTransitionAffair(affairs.data[affair.affairId].status, affair.status)
    ensures Enabled(s, AffairMessage(id, affair)) && Rests(Next(s, AffairMessage(id, affair)), Set(affairs, affair.affairId, affair), jobs, ids + {id})
  {
    hide Snapshot, IsClosing;
  }

  lemma JobIsTold(s: System, affairs: JsMap<string, Affair>, ids: set<string>, kind: JobEventKind, job: Job, id: string)
    requires Rests(s, affairs, Empty(), ids) && job.jobId != "" && job.affairId != "" && job.status in StatusesOf(kind) && id !in ids
    requires job.affairId in affairs.data && !TerminalAffair(affairs.data[job.affairId].status)
    ensures Enabled(s, JobMessage(id, kind, job))
    ensures Rests(Next(s, JobMessage(id, kind, job)), UpdateAffairFromJob(affairs, affairs.data[job.affairId], job), One(job.jobId, job), ids + {id})
  {
    hide Snapshot, IsClosing, UpdateAffairFromJob;
    assert Set(Empty(), job.jobId, job) == One(job.jobId, job);
  }

  lemma CloseIsAsked(s: System, key: Key, command: CloseCommand, affair: Affair, job: Job, ids: set<string>)
    requires Rests(s, One(affair.affairId, affair), One(job.jobId, job), ids) && Cancels(command, affair)
    ensures Enabled(s, SExecute(key, command, true, true))
    ensures Closes(Next(s, SExecute(key, command, true, true)), key, command, InLine, affair, job, ids)
  {
    hide Snapshot, ValidCommand;
    assert !IsClosing(s.live, command.affairId);
  }

  lemma OneAgain<V>(k: string, v: V, v': V)
    ensures Set(One(k, v), k, v') == One(k, v') && Set(Empty(), k, v) == One(k, v)
  {
    assert map[k := v][k := v'] == map[k := v'];
  }

  lemma ProjectedOnto(affair: Affair, job: Job)
    requires ChildOf(job, affair) && !Truthy(affair.currentJobId) && CanTransitionAffair(affair.status, AffairStatusForJob(job.status))
    ensures UpdateAffairFromJob(One(affair.affairId, affair), affair, job)
      == One(affair.affairId, ProjectAffair(affair, job, AffairStatusForJob(job.status)))
  {
    OneAgain(affair.affairId, affair, ProjectAffair(affair, job, AffairStatusForJob(job.status)));
  }

  /** The first two messages of a companion: an affair, and a job of it. */
  lemma Opening(affair: Affair, kind: JobEventKind, job: Job, m1: string, m2: string) returns (s1: System, s2: System)
    requires affair.affairId != "" && !TerminalAffair(affair.status) && affair.currentJobId == None && ChildOf(job, affair) && m1 != m2
    requires job.status in StatusesOf(kind) && CanTransitionAffair(affair.status, AffairStatusForJob(job.status))
    ensures Enabled(INITIAL, AffairMessage(m1, affair)) && s1 == Next(INITIAL, AffairMessage(m1, affair))
    ensures Enabled(s1, JobMessage(m2, kind, job)) && s2 == Next(s1, JobMessage(m2, kind, job))
    ensures Rests(s2, One(affair.affairId, ProjectAffair(affair, job, AffairStatusForJob(job.status))), One(job.jobId, job), {m1, m2})
  {
    hide Enabled, Next, Rests, ProjectAffair;
    StartsAtRest();
    AffairIsTold(INITIAL, Empty(), Empty(), {}, affair, m1);
    OneAgain(affair.affairId, affair, affair);
    s1 := Next(INITIAL, AffairMessage(m1, affair));
    JobIsTold(s1, One(affair.affairId, affair), {} + {m1}, kind, job, m2);
    ProjectedOnto(affair, job);
    s2 := Next(s1, JobMessage(m2, kind, job));
    assert {} + {m1} + {m2} == {m1, m2};
  }

  lemma StartsAtRest()
    ensures Rests(INITIAL, Empty(), Empty(), {})
  {
  }

  // ----- a cancellation that names no job -----

  lemma JobsOfOne(b: Backend, affair: Affair, job: Job)
    requires b.jobs == One(job.jobId, job) && job.affairId == affair.affairId
    ensures JobsOf(b, affair.affairId) == [job]
  {
    assert [job.jobId][..0] == [];
    assert ValuesOf([], b.jobs.data) == [];
    assert Values(b.jobs) == [job];
    assert [job][1..] == [];
    assert OfAffair([], affair.affairId) == [];
  }

  lemma CancelPasses(s: System, key: Key, command: CloseCommand, phase: RunPhase, affair: Affair, job: Job, ids: set<string>)
    requires Closes(s, key, command, phase, affair, job, ids) && Cancels(command, affair) && command.expectedCurrentJobId == affair.currentJobId
    ensures Precheck(s.live, command).None?
  {
    AffairTableShape(affair.status, Canceled);
    hide ValidCommand;
  }

  lemma NamedNothing(s: System, key: Key, command: CloseCommand, affair: Affair, job: Job, ids: set<string>, id: string)
    requires Inv(s) && Closes(s, key, command, InLine, affair, job, ids) && Cancels(command, affair) && ChildOf(job, affair)
    requires command.expectedCurrentJobId == None && affair.currentJobId == None && affair.status == Running && job.status == JobRunning && id !in ids
    ensures Precheck(s.live, command).None? && JobsOf(s.live, command.affairId) == [job]
    ensures !HasCommitted(CancelWithIdealExecutor(s, key, [id], 0), key)
  {
    hide Inv, Precheck, ValidCommand, JobsOf, CancelWithIdealExecutor, HasCommitted;
    CancelPasses(s, key, command, InLine, affair, job, ids);
    JobsOfOne(s.live, affair, job);
    IdealCancelCommitsExactlyWhen(s, key, [id], 0);
    OnlyJobIsAsked(s, key, command, affair, job, ids);
    hide Closes;
  }

  lemma OnlyJobIsAsked(s: System, key: Key, command: CloseCommand, affair: Affair, job: Job, ids: set<string>)
    requires Closes(s, key, command, InLine, affair, job, ids) && ChildOf(job, affair) && job.status == JobRunning && affair.status == Running
    ensures job.jobId in s.live.jobs.data && AskedExecution(s.live, job.jobId, affair.affairId)
    ensures affair.affairId in s.live.affairs.data && CanTransitionAffair(s.live.affairs.data[affair.affairId].status, Blocked)
  {
  }

  lemma SameOne(affair: Affair, affair': Affair)
    requires affair'.affairId == affair.affairId
    ensures Set(One(affair.affairId, affair), affair'.affairId, affair') == One(affair.affairId, affair')
  {
    OneAgain(affair.affairId, affair, affair');
  }

  /** A run from startup, of any affair and any job of it: the affair is told to run, its job is told to run, the affair is
      told to have no current job, and a cancellation is asked for that names none. The cancellation passes its first
      check, and yet an executor that stops everything does not make it commit. */
  lemma NamingNoJobCanFail(affair: Affair, job: Job, key: Key, command: CloseCommand, m1: string, m2: string, m3: string, m4: string)
    returns (ss: seq<System>, steps: seq<Step>)
    requires affair.status == Running && affair.currentJobId == None && ChildOf(job, affair) && job.status == JobRunning
    requires Cancels(command, affair) && command.expectedCurrentJobId == None
    requires m1 != m2 && m3 !in {m1, m2} && m4 !in {m1, m2, m3}
    ensures IsRun(ss, steps) && steps == [AffairMessage(m1, affair), JobMessage(m2, JobProgress, job), AffairMessage(m3, affair), SExecute(key, command, true, true)]
    ensures key in ss[4].running && ss[4].running[key].phase.InLine? && ss[4].running[key].record.command == command
    ensures Precheck(ss[4].live, command).None? && JobsOf(ss[4].live, command.affairId) == [job]
    ensures !HasCommitted(CancelWithIdealExecutor(ss[4], key, [m4], 0), key)
  {
    hide Enabled, Next, Rests, ProjectAffair, Precheck, JobsOf, Inv, CancelWithIdealExecutor, ValidCommand;
    var s1, s2 := Opening(affair, JobProgress, job, m1, m2);
    var running := ProjectAffair(affair, job, Running);
    ProjectionKeepsId(affair, job, Running);
    AffairIsTold(s2, One(affair.affairId, running), One(job.jobId, job), {m1, m2}, affair, m3);
    SameOne(running, affair);
    var s3 := Next(s2, AffairMessage(m3, affair));
    assert {m1, m2} + {m3} == {m1, m2, m3};
    CloseIsAsked(s3, key, command, affair, job, {m1, m2, m3});
    var s4 := Next(s3, SExecute(key, command, true, true));
    ss, steps := [INITIAL, s1, s2, s3, s4], [AffairMessage(m1, affair), JobMessage(m2, JobProgress, job), AffairMessage(m3, affair), SExecute(key, command, true, true)];
    RunKeepsInv(ss, steps, 4);
    NamedNothing(s4, key, command, affair, job, {m1, m2, m3}, m4);
  }

  lemma ProjectionKeepsId(affair: Affair, job: Job, status: AffairStatus)
    ensures ProjectAffair(affair, job, status).affairId == affair.affairId && ProjectAffair(affair, job, status).status == status
    ensures ProjectAffair(affair, job, status).currentJobId == Some(job.jobId)
  {
  }

  // ----- a message that is not tame -----

  lemma CancelBegins(s: System, key: Key, command: CloseCommand, affair: Affair, job: Job, ids: set<string>)
    requires Closes(s, key, command, InLine, affair, job, ids) && Cancels(command, affair) && ChildOf(job, affair)
    requires command.expectedCurrentJobId == affair.currentJobId
    ensures Enabled(s, SBegin(key, true, true))
    ensures Closes(Next(s, SBegin(key, true, true)), key, command, Cancelling([job], 0), affair, job, ids)
  {
    CancelPasses(s, key, command, InLine, affair, job, ids);
    JobsOfOne(s.live, affair, job);
    hide Precheck, JobsOf, Snapshot, RevokeAllOf, ValidCommand;
  }

  lemma StoppedChildIsPassed(s: System, key: Key, command: CloseCommand, affair: Affair, job: Job, ids: set<string>)
    requires Closes(s, key, command, Cancelling([job], 0), affair, job, ids) && TerminalJob(job.status)
    ensures Enabled(s, SChild(key, false, true))
    ensures Closes(Next(s, SChild(key, false, true)), key, command, Cancelling([job], 1), affair, job, ids)
  {
    hide Snapshot, MarkCanceled;
  }

  lemma LastCheckIsNext(s: System, key: Key, command: CloseCommand, affair: Affair, job: Job, ids: set<string>)
    requires Closes(s, key, command, Cancelling([job], 1), affair, job, ids)
    ensures Enabled(s, SChild(key, false, true))
    ensures Closes(Next(s, SChild(key, false, true)), key, command, Confirming, affair, job, ids)
  {
    hide Snapshot, MarkCanceled;
  }

  function RevivedJob(job: Job): Job {
    MergeJob(job.(status := JobBlocked), Some(job))
  }

  lemma RevivalIsApplied(b: Backend, affair: Affair, job: Job, id: string)
    requires b.affairs == One(affair.affairId, affair) && b.jobs == One(job.jobId, job) && id !in b.seen.data
    requires ChildOf(job, affair) && affair.affairId != "" && job.status == Completed
    requires affair.status == WaitingAcceptance && affair.currentJobId == Some(job.jobId)
    ensures var (b', r) := Apply(b, Envelope(id, false, true, JobEvent(JobBlockedEvent, job.(status := JobBlocked))), 0);
      && r == Applied && b'.affairs == One(affair.affairId, ProjectAffair(affair, RevivedJob(job), Blocked))
      && b'.jobs == One(job.jobId, RevivedJob(job)) && b'.seen.data.Keys == b.seen.data.Keys + {id}
  {
    var next := ProjectAffair(affair, RevivedJob(job), Blocked);
    OneAgain(affair.affairId, affair, next);
    OneAgain(job.jobId, job, RevivedJob(job));
    assert UpdateAffairFromJob(b.affairs, affair, RevivedJob(job)) == Set(b.affairs, affair.affairId, next);
  }

  lemma CompletedJobIsRevived(s: System, key: Key, command: CloseCommand, affair: Affair, job: Job, ids: set<string>, id: string)
    requires Closes(s, key, command, Confirming, affair, job, ids) && ChildOf(job, affair) && affair.affairId != "" && id !in ids
    requires job.status == Completed && affair.status == WaitingAcceptance && affair.currentJobId == Some(job.jobId)
    ensures var st := JobMessage(id, JobBlockedEvent, job.(status := JobBlocked));
      && Enabled(s, st)
      && Closes(Next(s, st), key, command, Confirming, ProjectAffair(affair, RevivedJob(job), Blocked), RevivedJob(job), ids + {id})
  {
    RevivalIsApplied(s.live, affair, job, id);
    ProjectionKeepsId(affair, RevivedJob(job), Blocked);
    RevivedIsLive(job);
    hide Snapshot, IsClosing, Apply, ProjectAffair, MergeJob, RevivedJob;
  }

  lemma CommitsOver(s: System, key: Key, command: CloseCommand, affair: Affair, job: Job, ids: set<string>)
    requires Closes(s, key, command, Confirming, affair, job, ids) && Cancels(command, affair) && job.affairId == affair.affairId
    requires command.expectedCurrentJobId == affair.currentJobId && !TerminalJob(job.status)
    ensures Enabled(s, SConfirm(key, true, true))
    ensures var b := Next(s, SConfirm(key, true, true)).live;
      && affair.affairId in b.affairs.data && b.affairs.data[affair.affairId].status == Canceled
      && LiveJobOf(b, job.jobId, affair.affairId)
  {
    CancelPasses(s, key, command, Confirming, affair, job, ids);
    hide Precheck, JobsOf, Snapshot, ValidCommand;
  }

  function UntamedSteps(affair: Affair, job: Job, key: Key, command: CloseCommand, m1: string, m2: string, m3: string): seq<Step> {
    [AffairMessage(m1, affair), JobMessage(m2, JobCompletedEvent, job), SExecute(key, command, true, true), SBegin(key, true, true),
     SChild(key, false, true), SChild(key, false, true), JobMessage(m3, JobBlockedEvent, job.(status := JobBlocked)), SConfirm(key, true, true)]
  }

  /** The run up to its last check. */
  lemma UpToLastCheck(affair: Affair, job: Job, key: Key, command: CloseCommand, m1: string, m2: string) returns (ss: seq<System>, waiting: Affair)
    requires affair.status == Running && affair.currentJobId == None && ChildOf(job, affair) && job.status == Completed
    requires Cancels(command, affair) && command.expectedCurrentJobId == Some(job.jobId) && m1 != m2
    ensures waiting == ProjectAffair(affair, job, WaitingAcceptance) && |ss| == 7 && ss[0] == INITIAL
    ensures Follow(ss, UntamedSteps(affair, job, key, command, m1, m2, "")[..6]) && Closes(ss[6], key, command, Confirming, waiting, job, {m1, m2})
  {
    hide Enabled, Next, Rests, Closes, ProjectAffair, ValidCommand;
    var s1, s2 := Opening(affair, JobCompletedEvent, job, m1, m2);
    waiting := ProjectAffair(affair, job, WaitingAcceptance);
    ProjectionKeepsId(affair, job, WaitingAcceptance);
    CloseIsAsked(s2, key, command, waiting, job, {m1, m2});
    var s3 := Next(s2, SExecute(key, command, true, true));
    CancelBegins(s3, key, command, waiting, job, {m1, m2});
    var s4 := Next(s3, SBegin(key, true, true));
    StoppedChildIsPassed(s4, key, command, waiting, job, {m1, m2});
    var s5 := Next(s4, SChild(key, false, true));
    LastCheckIsNext(s5, key, command, waiting, job, {m1, m2});
    var s6 := Next(s5, SChild(key, false, true));
    ss := [INITIAL, s1, s2, s3, s4, s5, s6];
  }

  ghost predicate Follow(ss: seq<System>, steps: seq<Step>) {
    |ss| == |steps| + 1 && forall i :: 0 <= i < |steps| ==> Enabled(ss[i], steps[i]) && ss[i + 1] == Next(ss[i], steps[i])
  }

  lemma FollowOn(ss: seq<System>, steps: seq<Step>, st: Step)
    requires Follow(ss, steps) && Enabled(ss[|ss| - 1], st)
    ensures Follow(ss + [Next(ss[|ss| - 1], st)], steps + [st])
  {
    hide Enabled, Next;
    var ss', steps' := ss + [Next(ss[|ss| - 1], st)], steps + [st];
    forall i | 0 <= i < |steps'| ensures Enabled(ss'[i], steps'[i]) && ss'[i + 1] == Next(ss'[i], steps'[i]) {
      if i < |steps| {
        assert ss'[i] == ss[i] && ss'[i + 1] == ss[i + 1] && steps'[i] == steps[i];
      }
    }
  }

  /** Tameness is needed. A run from startup, of any affair and any job of it: the affair is told to run, its job is told to
      be completed, a cancellation that names the job begins and passes it, the job reports itself blocked, and the
      cancellation commits: the affair has ended and its job is live. */
  lemma AnUntamedMessageLeavesALiveJob(affair: Affair, job: Job, key: Key, command: CloseCommand, m1: string, m2: string, m3: string)
    returns (ss: seq<System>, steps: seq<Step>)
    requires affair.status == Running && affair.currentJobId == None && ChildOf(job, affair) && job.status == Completed
    requires Cancels(command, affair) && command.expectedCurrentJobId == Some(job.jobId) && m1 != m2 && m3 !in {m1, m2}
    ensures IsRun(ss, steps) && steps == UntamedSteps(affair, job, key, command, m1, m2, m3)
    ensures affair.affairId in ss[8].live.affairs.data && ss[8].live.affairs.data[affair.affairId].status == Canceled
    ensures LiveJobOf(ss[8].live, job.jobId, affair.affairId)
  {
    hide Enabled, Next, Closes, ProjectAffair, MergeJob, LiveJobOf, ValidCommand;
    var start, waiting := UpToLastCheck(affair, job, key, command, m1, m2);
    var all := UntamedSteps(affair, job, key, command, m1, m2, m3);
    assert all[..6] == UntamedSteps(affair, job, key, command, m1, m2, "")[..6];
    ProjectionKeepsId(affair, job, WaitingAcceptance);
    CompletedJobIsRevived(start[6], key, command, waiting, job, {m1, m2}, m3);
    FollowOn(start, all[..6], all[6]);
    var s7 := Next(start[6], all[6]);
    RevivedIsLive(job);
    ProjectionKeepsId(waiting, RevivedJob(job), Blocked);
    CommitsOver(s7, key, command, ProjectAffair(waiting, RevivedJob(job), Blocked), RevivedJob(job), {m1, m2} + {m3});
    FollowOn(start + [s7], all[..6] + [all[6]], all[7]);
    ss, steps := start + [s7] + [Next(s7, all[7])], all[..6] + [all[6]] + [all[7]];
    assert steps == all;
  }

  lemma RevivedIsLive(job: Job)
    ensures RevivedJob(job).jobId == job.jobId && RevivedJob(job).affairId == job.affairId && RevivedJob(job).status == JobBlocked
  {
  }

  // ----- a publication that is repeated -----

  function RunningRecord(job: Job, text: string, runId: string): P.AdapterJob {
    P.AdapterJob(job.(status := JobRunning, progressSummary := Some(Given(text))), Some(runId))
  }

  function GoodPorts(id: string): P.Port {
    P.Port(id, 0, true, true, true)
  }

  /** A companion from startup in which a job waits for permission. The executor's running record is published, and the
      save after its acceptance fails. Publishing it again leaves another record than publishing it once without
      the fault: the executor's own progress instead of the note that the runtime accepted the job. */
  lemma RepeatingChangesTheRecord(affair: Affair, job: Job, text: string, runId: string, m1: string, m2: string, p: string, q: string, p2: string, q2: string)
    returns (ss: seq<System>, steps: seq<Step>)
    requires affair.affairId != "" && affair.status == Ready && affair.currentJobId == None && ChildOf(job, affair) && job.status == NeedsPermission
    requires runId != "" && m1 != m2 && p !in {m1, m2} && q !in {m1, m2, p} && p2 !in {m1, m2, p, q} && q2 !in {m1, m2, p, q, p2}
    ensures IsRun(ss, steps) && steps == [AffairMessage(m1, affair), JobMessage(m2, JobNeedsPermissionEvent, job)]
    ensures var a := RunningRecord(job, text, runId);
      var failing := P.Port(p, 0, true, false, true);
      var first := P.PublishCreated(ss[2], a, failing, GoodPorts(q));
      && !first.1
      && Get(P.PublishCreated(first.0, a, GoodPorts(p2), GoodPorts(q2)).0.live.jobs, job.jobId)
          != Get(P.PublishCreated(ss[2], a, GoodPorts(p2), GoodPorts(q2)).0.live.jobs, job.jobId)
  {
    hide Enabled, Next, Inv, WellKeyed, WellOrdered, P.PublishCreated, ProjectAffair, Rests, P.GoodPort, UpdateAffairFromJob;
    var s1, s2 := Opening(affair, JobNeedsPermissionEvent, job, m1, m2);
    ss, steps := [INITIAL, s1, s2], [AffairMessage(m1, affair), JobMessage(m2, JobNeedsPermissionEvent, job)];
    TwoSteps(AffairMessage(m1, affair), JobMessage(m2, JobNeedsPermissionEvent, job));
    ProjectionKeepsId(affair, job, Delegated);
    RepeatingFrom(s2, ProjectAffair(affair, job, Delegated), job, RunningRecord(job, text, runId), {m1, m2}, p, q, p2, q2);
  }

  lemma TwoSteps(first: Step, second: Step)
    requires Enabled(INITIAL, first) && Enabled(Next(INITIAL, first), second)
    ensures var s1 := Next(INITIAL, first);
      IsRun([INITIAL, s1, Next(s1, second)], [first, second]) && WellKeyed(Next(s1, second).live)
  {
    hide Enabled, Next, Inv, WellKeyed, WellOrdered;
    var s1 := Next(INITIAL, first);
    RunKeepsInv([INITIAL, s1, Next(s1, second)], [first, second], 2);
    KeysAndOrder(Next(s1, second));
  }

  lemma RepeatingFrom(s: System, affair: Affair, job: Job, a: P.AdapterJob, ids: set<string>, p: string, q: string, p2: string, q2: string)
    requires WellKeyed(s.live) && Rests(s, One(affair.affairId, affair), One(job.jobId, job), ids) && !TerminalAffair(affair.status)
    requires affair.affairId != "" && ChildOf(job, affair) && job.status == NeedsPermission && a.job.jobId == job.jobId && a.job.affairId == job.affairId
    requires a.job.status == JobRunning && Truthy(a.runId) && !P.LooksAccepted(a)
    requires p !in ids && q !in ids + {p} && p2 !in ids + {p, q} && q2 !in ids + {p, q, p2}
    ensures var failing := P.Port(p, 0, true, false, true);
      var first := P.PublishCreated(s, a, failing, GoodPorts(q));
      && !first.1
      && Get(P.PublishCreated(first.0, a, GoodPorts(p2), GoodPorts(q2)).0.live.jobs, job.jobId)
          != Get(P.PublishCreated(s, a, GoodPorts(p2), GoodPorts(q2)).0.live.jobs, job.jobId)
  {
    hide WellKeyed, P.PublishCreated, P.LooksAccepted, P.Bridges;
    var failing := P.Port(p, 0, true, false, true);
    P.PublishCreatedBridges(s, a, failing, GoodPorts(q));
    FailingSaveFails(s, a, failing, GoodPorts(q));
    P.RepetitionDiffersExactly(s, a, failing, GoodPorts(q), GoodPorts(p2), GoodPorts(q2), GoodPorts(p2), GoodPorts(q2));
  }

  lemma FailingSaveFails(s: System, a: P.AdapterJob, p: P.Port, q: P.Port)
    requires a.job.jobId in s.live.jobs.data && s.live.jobs.data[a.job.jobId].status == NeedsPermission && a.job.status == JobRunning && !p.saved
    ensures !P.PublishCreated(s, a, p, q).1
  {
    hide Apply;
  }
}
