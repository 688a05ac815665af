/** The companion's authority over affairs as one machine: every writer of affairs, jobs, close records
    and grants is a step, saves may fail, and the process may crash and restart at any point. */
module Authority {
  import opened Option
  import opened JsMap
  import opened Status
  import opened Types
  import opened Store
  import opened Reconcile
  import opened Mirror
  import opened Closing
  import opened Coordinator
  import C = Create
  import G = Gate

  // ----- the other writers -----

  /** What a caller learns from one message: the store's result, or that the save threw after it. */
  datatype Delivery = Answered(result: ApplyResult) | Threw

  predicate PhoneMayNotSend(b: Backend, e: Envelope) {
    e.fromPhone && e.body.AffairEvent? && (TerminalAffair(e.body.affair.status) || IsClosing(b, e.body.affair.affairId))
  }

  predicate ReportsTrouble(e: Envelope) {
    e.body.JobEvent? && (e.body.jobKind == JobBlockedEvent || e.body.jobKind == JobFailedEvent)
  }

  /** After an applied message: expire the permission requests of an ended affair, note trouble. */
  function AfterApplied(s: System, e: Envelope): System {
    if e.body.AffairEvent? && e.body.affair.affairId != "" && TerminalAffair(e.body.affair.status) then
      s.(gate := G.Expire(s.gate, G.OfAffair(e.body.affair.affairId)))
    else if ReportsTrouble(e) then
      s.(live := s.live.(lastError :=
        Some(LastError(JobReported(e.body.job.statusReasonCode, e.body.jobKind), Some(e.body.job.affairId), Some(e.body.job.jobId)))))
    else s
  }

  /** `applyProtocolEnvelope` of the runtime. Read receipts have a commit of their own. */
  function Deliver(s: System, e: Envelope, now: int, saved: bool): (System, Delivery)
    requires !e.body.ReadReceipt?
  {
    if !IntroducesNoEnding(s.live, e) || PhoneMayNotSend(s.live, e) then (s, Answered(Refused(AffairActionRequired, false)))
    else
      var (b', r) := Apply(s.live, e, now);
      var s1 := s.(live := b');
      var s2 := if r == Applied then AfterApplied(s1, e) else s1;
      (Save(s2, saved), if saved then Answered(r) else Threw)
  }

  /** What supervision may do to an affair it watches. */
  datatype Mark = MarkWaitingAcceptance(jobId: string) | MarkBlocked(jobId: string, reason: Option<Text>, resume: Option<Text>)

  function Marked(affair: Affair, mark: Mark): Affair {
    match mark
    case MarkWaitingAcceptance(j) =>
      if CanTransitionAffair(affair.status, WaitingAcceptance) then affair.(status := WaitingAcceptance, currentJobId := Some(j)) else affair
    case MarkBlocked(j, reason, resume) =>
      if CanTransitionAffair(affair.status, Blocked)
      then affair.(status := Blocked, currentJobId := Some(j), blockedReason := reason, resumeCondition := resume) else affair
  }

  /** A supervision pass applies its update to the store directly, past the runtime's gate. */
  function Supervise(s: System, affairId: string, mark: Mark, messageId: string, now: int, saved: bool): System {
    if affairId !in s.live.affairs.data then Save(s, saved)
    else
      var next := Marked(s.live.affairs.data[affairId], mark);
      if next == s.live.affairs.data[affairId] then Save(s, saved)
      else Save(s.(live := Apply(s.live, Envelope(messageId, false, true, AffairEvent(AffairUpdate, next)), now).0), saved)
  }

  /** Registration of a job; a successful one is saved by its own commit. */
  function Register(s: System, command: Envelope, x: C.CreateInput): System
    requires command.body.JobEvent?
  {
    var (b', g', reply) := C.HandleJobCreate(s.live, s.gate, command, x);
    Save(s.(live := b', gate := g'), reply == C.Created)
  }

  /** The bridge's check of a decision on a permission request. */
  function ValidateDecision(b: Backend, g: G.Gate, id: string, decision: G.Decision): Option<Code> {
    if id !in g.requests.data then Some(PermissionNotFound)
    else
      var r := g.requests.data[id];
      if r.affairId.Some? && IsClosing(b, r.affairId.value) then Some(AffairClosing)
      else if !G.IsWaiting(g, id) then Some(PermissionNotPending)
      else if decision != G.AllowOnce && decision != G.AllowForJob then None
      else if r.jobId !in b.jobs.data || b.jobs.data[r.jobId].status != NeedsPermission then Some(PermissionNotExecutable)
      else
        var affairId := r.affairId.GetOr(b.jobs.data[r.jobId].affairId);
        if affairId == "" || affairId !in b.affairs.data then Some(PermissionNotExecutable)
        else if AffairEnded(b, affairId) then Some(AffairTerminalForPermission)
        else if b.jobs.data[r.jobId].purpose != Some(Exploration) && b.affairs.data[affairId].currentJobId != Some(b.jobs.data[r.jobId].jobId)
        then Some(PermissionNotCurrentJob)
        else None
  }

  function DecideByUser(s: System, id: string, decision: G.Decision, saved: bool): System {
    if ValidateDecision(s.live, s.gate, id, decision).Some? then s
    else Save(s.(gate := G.Decide(s.gate, id, decision).0), saved)
  }

  /** A restart reads the mirror file back and repairs affairs from their jobs; nothing is running. */
  ghost function Restart(s: System, gate: G.Gate, now: int): System {
    System(Reconciled(Hydrate(EMPTY_BACKEND, s.disk), now), s.disk.pending, s.disk, gate, map[])
  }

  // ----- the machine -----

  datatype Step =
    | SExecute(key: Key, command: CloseCommand, saved: bool, published: bool)
    | SBegin(key: Key, saved: bool, published: bool)
    | SChild(key: Key, hasPort: bool, saved: bool)
    | SPort(key: Key, threw: bool, saved: bool)
    | SConfirm(key: Key, saved: bool, published: bool)
    | SSettle(key: Key)
    | SDeliver(e: Envelope, now: int, saved: bool)
    | SSupervise(affairId: string, mark: Mark, messageId: string, now: int, saved: bool)
    | SRegister(createCommand: Envelope, x: C.CreateInput)
    | SDecide(requestId: string, decision: G.Decision, saved: bool)
    | SGate(op: G.Op)
    | SOther(backend: Backend, pending: seq<PendingItem>, saved: bool)
    | SRestart(gate: G.Gate, now: int)

  /** Among the children a run still has to look at. */
  predicate Ahead(phase: RunPhase, j: string) {
    match phase
    case Cancelling(children, next) => exists i :: next <= i < |children| && children[i].jobId == j
    case AwaitingPort(children, next) => exists i :: next <= i < |children| && children[i].jobId == j
    case _ => false
  }

  predicate PastChecks(phase: RunPhase) {
    phase.Cancelling? || phase.AwaitingPort? || phase.Confirming?
  }

  predicate Enabled(s: System, st: Step) {
    match st
    case SExecute(_, _, _, _) => true
    case SBegin(key, _, _) => key in s.running && s.running[key].phase.InLine?
    case SChild(key, _, _) => key in s.running && s.running[key].phase.Cancelling? && s.running[key].phase.next <= |s.running[key].phase.children|
    case SPort(key, _, _) => key in s.running && s.running[key].phase.AwaitingPort? && s.running[key].phase.next < |s.running[key].phase.children|
    case SConfirm(key, _, _) => key in s.running && s.running[key].phase.Confirming?
    case SSettle(key) => key in s.running && s.running[key].phase.Done?
    case SDeliver(e, _, _) => !e.body.ReadReceipt?
    case SSupervise(_, _, _, _, _) => true
    case SRegister(command, x) => command.body.JobEvent? && command.body.jobKind == JobCreateEvent
    case SDecide(_, _, _) => true
    case SGate(op) => !op.OpDecide? && !op.OpEnqueue?
    case SOther(b, _, _) => b.actions == s.live.actions && b.affairs == s.live.affairs && b.jobs == s.live.jobs
    case SRestart(_, _) => true
  }

  ghost function Next(s: System, st: Step): System
    requires Enabled(s, st)
  {
    match st
    case SExecute(key, command, saved, published) => Execute(s, key, command, saved, published).0
    case SBegin(key, saved, published) => Begin(s, key, saved, published)
    case SChild(key, hasPort, saved) => ChildStep(s, key, hasPort, saved)
    case SPort(key, threw, saved) => PortReturns(s, key, threw, saved)
    case SConfirm(key, saved, published) => Confirm(s, key, saved, published)
    case SSettle(key) => Settle(s, key)
    case SDeliver(e, now, saved) => Deliver(s, e, now, saved).0
    case SSupervise(a, mark, id, now, saved) => Supervise(s, a, mark, id, now, saved)
    case SRegister(command, x) => Register(s, command, x)
    case SDecide(id, decision, saved) => DecideByUser(s, id, decision, saved)
    case SGate(op) => s.(gate := G.Step(s.gate, op))
    case SOther(b, pending, saved) => Save(s.(live := b, pending := pending), saved)
    case SRestart(gate, now) => Restart(s, gate, now)
  }
}
