/** Delegation of granted jobs to the executor, and polling, as one machine: any number of calls may be
    suspended at their awaits at the same time, and every executor answer and commit fault is arbitrary. */
module Delegation {
  import opened Option
  import opened JsMap
  import opened Status
  import opened Types
  import opened Store
  import opened Closing
  import opened Coordinator
  import opened Authority
  import opened Publisher
  import opened Polling
  import G = Gate

  // ----- the delegator's pieces between awaits -----

  /** `canExecutePermissionGrantedJob` */
  predicate CanExecute(b: Backend, affairId: string, jobId: string) {
    && !IsClosing(b, affairId)
    && (affairId != "" ==>
          && affairId in b.affairs.data && !TerminalAffair(b.affairs.data[affairId].status)
          && ((jobId in b.jobs.data && b.jobs.data[jobId].purpose == Some(Exploration)) || b.affairs.data[affairId].currentJobId == Some(jobId)))
  }

  predicate HasStatus(b: Backend, jobId: string, status: JobStatus) {
    jobId in b.jobs.data && b.jobs.data[jobId].status == status
  }

  function AffairOf(r: G.Request): string {
    r.affairId.GetOr("")
  }

  /** A request that names no affair waits in a line of its own. */
  predicate Unnamed(r: G.Request) {
    AffairOf(r) == ""
  }

  predicate AllGranted(g: G.Gate, r: G.Request) {
    forall i :: 0 <= i < |r.requestedPermissions| ==> G.HasGrant(g, r.jobId, r.requestedPermissions[i])
  }

  /** Why a granted request is not delegated, or that it is. */
  datatype Verdict = Ignore | RefuseWithFailure | Delegate

  /** The checks of `delegateGranted` up to the create call; `scoped` is the workspace check. */
  function Judge(p: Polls, id: string, scoped: bool): Verdict {
    if id !in p.s.gate.requests.data || p.s.gate.requests.data[id].jobId == "" then Ignore
    else
      var r := p.s.gate.requests.data[id];
      if !CanExecute(p.s.live, AffairOf(r), r.jobId) then Ignore
      else if r.jobId in p.active then Ignore
      else if !HasStatus(p.s.live, r.jobId, NeedsPermission) then Ignore
      else if r.requestedPermissions == [] || !AllGranted(p.s.gate, r) || !scoped then RefuseWithFailure
      else Delegate
  }

  /** A failure the delegator reports for a request; `detail` carries its texts. */
  function FailureFor(r: G.Request, detail: Job): Job {
    detail.(jobId := r.jobId, affairId := AffairOf(r))
  }

  function Spend(g: G.Gate, jobId: string, permissions: seq<G.Permission>): G.Gate
    decreases |permissions|
  {
    if permissions == [] then g else Spend(G.IsGranted(g, jobId, permissions[0]).0, jobId, permissions[1..])
  }

  // ----- suspended calls -----

  /** `since` is the moment at which the executor was asked for the answer that the call awaits, or the job that it
      carries was read. `queued` says that a cancellation runs in the turn of the job's affair. */
  datatype Op =
    | AwaitCreate(request: G.Request, since: nat)                        // the runtime has been asked to create the run
    | CreateSettled(request: G.Request, result: ReadResult, since: nat)  // the create call has answered
    | TickQueued(jobId: string, pid: nat)
    | AwaitTick(jobId: string, pid: nat, since: nat)
    | AwaitRestore(jobId: string, since: nat)
    | AwaitCached(jobId: string, message: string, code: string, retryable: bool, since: nat)
    | AwaitRegistered(jobId: string, local: Option<Job>, affairId: string, since: nat, queued: bool)
    | AwaitCancel(jobId: string, since: nat, queued: bool)
  {
    function JobId(): string {
      match this
      case AwaitCreate(r, _) => r.jobId
      case CreateSettled(r, _, _) => r.jobId
      case TickQueued(j, _) => j
      case AwaitTick(j, _, _) => j
      case AwaitRestore(j, _) => j
      case AwaitCached(j, _, _, _, _) => j
      case AwaitRegistered(j, _, _, _, _) => j
      case AwaitCancel(j, _, _) => j
    }
  }

  /** `registered` lists the job ids for which the executor stored a created run, in order. */
  datatype World = World(p: Polls, ops: map<nat, Op>, registered: seq<string>, clock: nat)

  datatype Step =
    | SGrant(op: nat, requestId: string, scoped: bool, validInput: bool, reuse: ReadResult, detail: Job, x: Ports)
    | SRunCreated(op: nat, made: ReadResult)
    | SCreateReturns(op: nat, detail: Job, x: Ports)
    | SCreateThrows(op: nat)
    | SReject(requestId: string, detail: Job, x: Ports)
    | SSchedule(op: nat, jobId: string)
    | STickStarts(op: nat, x: Ports)
    | STickResumes(op: nat, r: ReadResult, x: Ports)
    | SRestore(op: nat, jobId: string)
    | SRestoreResumes(op: nat, r: ReadResult, x: Ports)
    | SCachedResumes(op: nat, cached: Option<AdapterJob>, x: Ports)
    | SCancel(op: nat, jobId: string, affairId: string, queued: bool)
    | SRegisteredResumes(op: nat, found: bool, x: Ports)
    | SCancelResumes(op: nat, r: ReadResult, x: Ports)
    | SOutside(s: System)

  ghost predicate JobsKeyed(b: Backend) {
    forall j :: j in b.jobs.data ==> b.jobs.data[j].jobId == j
  }

  /** What may happen to the companion's state outside the delegator: jobs stay registered, and none comes
      to wait for permission except by being registered. */
  ghost predicate OutsideOk(s: System, s': System) {
    JobsKeyed(s'.live) && forall j :: j in s.live.jobs.data ==> j in s'.live.jobs.data && (HasStatus(s'.live, j, NeedsPermission) ==> HasStatus(s.live, j, NeedsPermission))
  }

  /** Executor answers are about the job that was asked about. */
  predicate Answers(r: ReadResult, jobId: string) {
    r.Got? ==> r.a.job.jobId == jobId
  }

  predicate FreshPorts(p: Polls, x: Ports) {
    && x.accepted.id !in p.s.live.seen.data && x.status.id !in p.s.live.seen.data && x.affair.id !in p.s.live.seen.data
    && x.accepted.id != x.status.id && x.status.id != x.affair.id && x.accepted.id != x.affair.id
  }

  ghost predicate Enabled(w: World, st: Step) {
    match st
    case SGrant(op, id, _, _, reuse, _, x) =>
      op !in w.ops && FreshPorts(w.p, x) && (id in w.p.s.gate.requests.data ==> Answers(reuse, w.p.s.gate.requests.data[id].jobId))
    case SRunCreated(op, made) => op in w.ops && w.ops[op].AwaitCreate? && Answers(made, w.ops[op].request.jobId)
    case SCreateReturns(op, _, x) => op in w.ops && w.ops[op].CreateSettled? && FreshPorts(w.p, x)
    case SCreateThrows(op) => op in w.ops && (w.ops[op].AwaitCreate? || w.ops[op].CreateSettled?)
    case SReject(_, _, x) => FreshPorts(w.p, x)
    case SSchedule(op, _) => op !in w.ops
    case STickStarts(op, x) => op in w.ops && w.ops[op].TickQueued? && FreshPorts(w.p, x)
    case STickResumes(op, r, x) => op in w.ops && w.ops[op].AwaitTick? && Answers(r, w.ops[op].jobId) && FreshPorts(w.p, x)
    case SRestore(op, _) => op !in w.ops
    case SRestoreResumes(op, r, x) => op in w.ops && w.ops[op].AwaitRestore? && Answers(r, w.ops[op].jobId) && FreshPorts(w.p, x)
    case SCachedResumes(op, cached, x) =>
      op in w.ops && w.ops[op].AwaitCached? && (cached.Some? ==> cached.value.job.jobId == w.ops[op].jobId) && FreshPorts(w.p, x)
    case SCancel(op, _, _, _) => op !in w.ops
    case SRegisteredResumes(op, _, x) => op in w.ops && w.ops[op].AwaitRegistered? && FreshPorts(w.p, x)
    case SCancelResumes(op, r, x) => op in w.ops && w.ops[op].AwaitCancel? && Answers(r, w.ops[op].jobId) && FreshPorts(w.p, x)
    case SOutside(s) => OutsideOk(w.p.s, s)
  }

  function End(w: World, op: nat, p: Polls): World {
    World(p, w.ops - {op}, w.registered, w.clock + 1)
  }

  function Go(w: World, op: nat, o: Op, p: Polls): World {
    World(p, w.ops[op := o], w.registered, w.clock + 1)
  }

  /** `handlePermissionGranted`, up to its await. The executor answers at once when the input is invalid or
      the job is already registered with it; otherwise it asks the runtime for a run. */
  function Grant(w: World, op: nat, id: string, scoped: bool, validInput: bool, reuse: ReadResult, detail: Job, x: Ports): World {
    match Judge(w.p, id, scoped)
    case Ignore => w
    case RefuseWithFailure => w.(p := AcceptFailure(w.p, FailureFor(w.p.s.gate.requests.data[id], detail), w.clock, x), clock := w.clock + 1)
    case Delegate =>
      var r := w.p.s.gate.requests.data[id];
      var p1 := w.p.(active := w.p.active[r.jobId := Placeholder]);
      if !validInput || Blank(AffairOf(r)) then Go(w, op, CreateSettled(r, NotGot("", "", false), w.clock), p1)
      else if r.jobId in w.registered then Go(w, op, CreateSettled(r, reuse, w.clock), p1)
      else Go(w, op, AwaitCreate(r, w.clock), p1)
  }

  /** The runtime's answer reaches the executor, which stores an identified run. */
  function RunCreated(w: World, op: nat, made: ReadResult): World
    requires op in w.ops && w.ops[op].AwaitCreate?
  {
    var r := w.ops[op].request;
    var w1 := Go(w, op, CreateSettled(r, made, w.ops[op].since), w.p);
    if made.Got? then w1.(registered := w.registered + [r.jobId]) else w1
  }

  function Dropped(p: Polls, jobId: string): Polls {
    p.(active := p.active - {jobId})
  }

  /** What follows the create call's answer. */
  function CreateReturns(w: World, op: nat, detail: Job, x: Ports): World
    requires op in w.ops && w.ops[op].CreateSettled?
  {
    var CreateSettled(r, result, since) := w.ops[op];
    match result
    case NotGot(_, _, _) => End(w, op, AcceptFailure(Dropped(w.p, r.jobId), FailureFor(r, detail), since, x))
    case Got(a) =>
      var p1 := w.p.(s := w.p.s.(gate := Spend(w.p.s.gate, r.jobId, r.requestedPermissions)));
      if CanExecute(p1.s.live, AffairOf(r), r.jobId) then End(w, op, Accept(p1, a, since, x).0)
      else
        var p2 := Dropped(p1.(s := PublishCreated(p1.s, a, x.accepted, x.status).0,
                               attempted := p1.attempted[a.job.jobId := since]), r.jobId);
        StartCancel(w.(p := p2), op, r.jobId, AffairOf(r), !Unnamed(r))
  }

  /** `cancelJob` up to its first await. */
  function StartCancel(w: World, op: nat, jobId: string, affairId: string, queued: bool): World {
    var local := Get(w.p.s.live.jobs, jobId);
    if local.Some? && local.value.affairId != affairId then End(w, op, w.p)
    else Go(w, op, AwaitRegistered(jobId, local, affairId, w.clock, queued), w.p)
  }

  function CanceledBefore(job: Job): Job {
    job.(progressSummary := Some(job.progressSummary.GetOr(CanceledBeforeRun)), blockedReason := None, resumeCondition := None,
         statusReasonCode := Some(CancelBeforeRun))
  }

  predicate CancelsLocally(w: World, jobId: string, local: Option<Job>, found: bool) {
    !found && local.Some? && (local.value.status == Queued || local.value.status == NeedsPermission) && jobId !in w.p.active
  }

  /** `cancelJob` after it has learned whether the executor knows the job; the flag says that it returned normally. */
  function RegisteredResumes(w: World, op: nat, found: bool, x: Ports): (World, bool)
    requires op in w.ops && w.ops[op].AwaitRegistered?
  {
    var AwaitRegistered(jobId, local, affairId, since, queued) := w.ops[op];
    if CancelsLocally(w, jobId, local, found) then
      var (s1, published) := Publish(w.p.s, JobCanceled, CanceledBefore(local.value), x.status);
      var p1 := w.p.(s := s1, attempted := w.p.attempted[local.value.jobId := since]);
      if !published then (End(w, op, p1), false)
      else
        var (s2, sent, _) := ProjectToPhone(s1, p1.sent, affairId, x.affair);
        (End(w, op, p1.(s := s2, sent := sent)), true)
    else (Go(w, op, AwaitCancel(jobId, w.clock, queued), w.p), false)
  }

  /** `cancelJob` with the executor's answer: only a terminal result that was committed returns normally. */
  function CancelResumes(w: World, op: nat, r: ReadResult, x: Ports): (World, bool)
    requires op in w.ops && w.ops[op].AwaitCancel?
  {
    match r
    case NotGot(_, _, _) => (End(w, op, w.p), false)
    case Got(a) =>
      var (p1, committed) := Accept(w.p, a, w.ops[op].since, x);
      (End(w, op, p1), committed && TerminalJob(a.job.status))
  }

  predicate Restorable(b: Backend, jobId: string) {
    jobId in b.jobs.data && (var s := b.jobs.data[jobId].status; s == NeedsPermission || s == Queued || s == JobRunning || s == JobBlocked)
  }

  function CachedResumes(w: World, op: nat, cached: Option<AdapterJob>, x: Ports): World
    requires op in w.ops && w.ops[op].AwaitCached?
  {
    var AwaitCached(jobId, message, code, retryable, since) := w.ops[op];
    var previous := if cached.Some? then Some(cached.value.job) else Get(w.p.s.live.jobs, jobId);
    if previous.None? then End(w, op, w.p)
    else
      var job := previous.value.(progressSummary := Some(previous.value.progressSummary.GetOr(Given(""))));
      End(w, op, if retryable then Track(w.p, job, None, None) else AcceptFailure(w.p, ReadFailure(job, message, code), since, x))
  }

  function RejectPermission(w: World, id: string, detail: Job, x: Ports): World {
    if id !in w.p.s.gate.requests.data || w.p.s.gate.requests.data[id].jobId == ""
       || !HasStatus(w.p.s.live, w.p.s.gate.requests.data[id].jobId, NeedsPermission) then w
    else w.(p := AcceptFailure(w.p, FailureFor(w.p.s.gate.requests.data[id], detail), w.clock, x), clock := w.clock + 1)
  }

  function TickStarts(w: World, op: nat, x: Ports): World
    requires op in w.ops && w.ops[op].TickQueued?
  {
    var TickQueued(jobId, pid) := w.ops[op];
    var (p1, reading) := TickStart(w.p, jobId, pid, x);
    if reading then Go(w, op, AwaitTick(jobId, pid, w.clock), p1) else End(w, op, p1)
  }

  ghost function Next(w: World, st: Step): World
    requires Enabled(w, st)
  {
    match st
    case SGrant(op, id, scoped, validInput, reuse, detail, x) => Grant(w, op, id, scoped, validInput, reuse, detail, x)
    case SRunCreated(op, made) => RunCreated(w, op, made)
    case SCreateReturns(op, detail, x) => CreateReturns(w, op, detail, x)
    case SCreateThrows(op) => End(w, op, Dropped(w.p, w.ops[op].request.jobId))
    case SReject(id, detail, x) => RejectPermission(w, id, detail, x)
    case SSchedule(op, jobId) =>
      var (p1, pid) := Schedule(w.p, jobId);
      if pid.Some? then Go(w, op, TickQueued(jobId, pid.value), p1) else w
    case STickStarts(op, x) => TickStarts(w, op, x)
    case STickResumes(op, r, x) => End(w, op, TickResume(w.p, w.ops[op].jobId, w.ops[op].pid, r, w.ops[op].since, x))
    case SRestore(op, jobId) =>
      if jobId in w.p.active || !Restorable(w.p.s.live, jobId) then w else Go(w, op, AwaitRestore(jobId, w.clock), w.p)
    case SRestoreResumes(op, r, x) =>
      if r.Got? then End(w, op, Accept(w.p, r.a, w.ops[op].since, x).0)
      else Go(w, op, AwaitCached(w.ops[op].jobId, r.message, r.code, r.retryable, w.ops[op].since), w.p)
    case SCachedResumes(op, cached, x) => CachedResumes(w, op, cached, x)
    case SCancel(op, jobId, affairId, queued) => StartCancel(w, op, jobId, affairId, queued)
    case SRegisteredResumes(op, found, x) => RegisteredResumes(w, op, found, x).0
    case SCancelResumes(op, r, x) => CancelResumes(w, op, r, x).0
    case SOutside(s) => w.(p := w.p.(s := s))
  }
}
