/** The backend store: how one protocol message changes affairs, jobs and chat. */
module Store {
  import opened Option
  import opened JsMap
  import opened Status
  import opened Types

  // ----- specification -----

  function AffairStatusForJob(s: JobStatus): AffairStatus {
    match s
    case NeedsPermission => Delegated
    case Queued => Delegated
    case JobRunning => Running
    case JobBlocked => Blocked
    case Failed => Blocked
    case Completed => WaitingAcceptance
    case JobCanceled => Blocked
  }

  /** The affair as its current execution job leaves it. */
  function ProjectAffair(affair: Affair, job: Job, status: AffairStatus): Affair {
    var blocked := status == Blocked;
    affair.(
      status := status,
      currentJobId := Some(job.jobId),
      blockedReason :=
        if !blocked then None
        else job.blockedReason.Or(Some(if job.status == JobCanceled then LastExecutionCanceled else OpenClawJobFailed)),
      resumeCondition :=
        if !blocked then None
        else job.resumeCondition.Or(
          if job.status == JobCanceled then Some(DecideRedelegate)
          else if job.status == Failed then Some(DecideRetry)
          else None))
  }

  datatype TerminalDecision = Allow | IgnoreDuplicate | Reject

  /** What a terminal affair lets a job message do: confirm a cancellation, or replay what is stored. */
  function DecideTerminalAffairJobEvent(affair: Option<Affair>, kind: JobEventKind, existing: Option<Job>, payload: Job): TerminalDecision {
    if affair.None? || !TerminalAffair(affair.value.status) then Allow
    else if payload.status == JobCanceled || kind == JobCanceledEvent then Allow
    else if existing.Some? && existing.value.affairId == payload.affairId
            && existing.value.status == payload.status && existing.value.goal == payload.goal then IgnoreDuplicate
    else Reject
  }

  function MergeJob(incoming: Job, existing: Option<Job>): Job {
    if existing.None? then incoming
    else incoming.(
      purpose := Some(incoming.purpose.Or(existing.value.purpose).GetOr(Execution)),
      permissionRequestId := incoming.permissionRequestId.Or(existing.value.permissionRequestId),
      taskIntentId := incoming.taskIntentId.Or(existing.value.taskIntentId))
  }

  function UpdateAffairFromJob(affairs: JsMap<string, Affair>, affair: Affair, job: Job): JsMap<string, Affair> {
    if job.purpose == Some(Exploration) then affairs
    else if Truthy(affair.currentJobId) && affair.currentJobId.value != job.jobId then affairs
    else
      var next := ProjectAffair(affair, job, AffairStatusForJob(job.status));
      if CanTransitionAffair(affair.status, next.status) then Set(affairs, affair.affairId, next) else affairs
  }

  function Fail(b: Backend, code: Code, affairId: Option<string>, jobId: Option<string>): (Backend, ApplyResult) {
    (b.(lastError := Some(LastError(code, affairId, jobId))), Refused(code, false))
  }

  function ApplyAffair(b: Backend, payload: Affair): (Backend, ApplyResult) {
    var existing := Get(b.affairs, payload.affairId);
    if existing.Some? && !CanTransitionAffair(existing.value.status, payload.status) then
      Fail(b, AffairIllegalTransition, None, None)
    else
      (b.(affairs := Set(b.affairs, payload.affairId, payload)), Applied)
  }

  function ApplyJob(b: Backend, kind: JobEventKind, incoming: Job): (Backend, ApplyResult) {
    var existing := Get(b.jobs, incoming.jobId);
    var payload := MergeJob(incoming, existing);
    var affair := Get(b.affairs, payload.affairId);
    match DecideTerminalAffairJobEvent(affair, kind, existing, payload)
    case Reject => Fail(b, AffairTerminalForJob, Some(payload.affairId), Some(payload.jobId))
    case IgnoreDuplicate => (b, Duplicate)
    case Allow =>
      if existing.Some? && !CanTransitionJob(existing.value.status, payload.status) then
        Fail(b, JobIllegalTransition, None, None)
      else
        (b.(jobs := Set(b.jobs, payload.jobId, payload),
            affairs := if affair.Some? then UpdateAffairFromJob(b.affairs, affair.value, payload) else b.affairs),
         Applied)
  }

  function FindEntry(entries: seq<ChatEntry>, id: string): (r: Option<ChatEntry>)
    ensures r.Some? ==> r.value in entries && r.value.id == id
    ensures r.None? <==> forall e :: e in entries ==> e.id != id
  {
    if entries == [] then None
    else if entries[0].id == id then Some(entries[0])
    else FindEntry(entries[1..], id)
  }

  function ApplyChat(b: Backend, entry: ChatEntry): (Backend, ApplyResult) {
    var entries := if entry.kind == Message then b.chat else b.attachments;
    var previous := FindEntry(entries, entry.id);
    if previous.Some? then
      (b, if previous.value.text != entry.text || previous.value.affairId != entry.affairId
          then Refused(MessageIdContentConflict, false) else Duplicate)
    else if entry.kind == Message then (b.(chat := b.chat + [entry]), Applied)
    else (b.(attachments := b.attachments + [entry]), Applied)
  }

  function ApplyValidated(b: Backend, e: Envelope): (Backend, ApplyResult) {
    match e.body
    case AffairEvent(_, affair) => ApplyAffair(b, affair)
    case JobEvent(kind, job) => ApplyJob(b, kind, job)
    case JobCancelCommand => Fail(b, JobCancelExecutorRequired, None, None)
    case Chat(entry) => ApplyChat(b, entry)
    case ReadReceipt => (b, Refused(ReceiptCommitRequired, false))
    case OtherBody => (b, Applied)
  }

  /** One protocol message: validated, deduplicated by message id, applied, and remembered if accepted. */
  function Apply(b: Backend, e: Envelope, now: int): (Backend, ApplyResult) {
    if !Validated(e) then Fail(b, ProtocolInvalid, None, None)
    else if e.messageId in b.seen.data then (b, Duplicate)
    else
      var (b', r) := ApplyValidated(b, e);
      if r.Ok() then (b'.(seen := Set(b'.seen, e.messageId, now), updatedAt := now), r) else (b', r)
  }

  // ----- the mutable store -----

  class CompanionState {
    var actions: JsMap<Key, Record>
    var affairs: JsMap<string, Affair>
    var jobs: JsMap<string, Job>
    var chat: seq<ChatEntry>
    var attachments: seq<ChatEntry>
    var receipts: seq<Receipt>
    var deliveries: seq<string>
    var seen: JsMap<string, int>
    var updatedAt: int
    var lastError: Option<LastError>

    function Value(): Backend
      reads this
    {
      Backend(actions, affairs, jobs, chat, attachments, receipts, deliveries, seen, updatedAt, lastError)
    }

    constructor (startedAt: int)
      ensures Value() == Backend(Empty(), Empty(), Empty(), [], [], [], [], Empty(), startedAt, None)
    {
      actions, affairs, jobs := Empty(), Empty(), Empty();
      chat, attachments, receipts, deliveries := [], [], [], [];
      seen, updatedAt, lastError := Empty(), startedAt, None;
    }

    /** A copy with its own maps. */
    constructor Copy(b: Backend)
      ensures Value() == b
    {
      actions, affairs, jobs := b.actions, b.affairs, b.jobs;
      chat, attachments, receipts, deliveries := b.chat, b.attachments, b.receipts, b.deliveries;
      seen, updatedAt, lastError := b.seen, b.updatedAt, b.lastError;
    }

    method FailWith(code: Code, affairId: Option<string>, jobId: Option<string>) returns (r: ApplyResult)
      modifies this`lastError
      ensures (Value(), r) == Fail(old(Value()), code, affairId, jobId)
    {
      lastError := Some(LastError(code, affairId, jobId));
      r := Refused(code, false);
    }

    method ApplyAffairEvent(payload: Affair) returns (r: ApplyResult)
      modifies this
      ensures (Value(), r) == ApplyAffair(old(Value()), payload)
    {
      var existing := Get(affairs, payload.affairId);
      if existing.Some? && !CanTransitionAffair(existing.value.status, payload.status) {
        r := FailWith(AffairIllegalTransition, None, None);
        return;
      }
      affairs := Set(affairs, payload.affairId, payload);
      r := Applied;
    }

    method ProjectJob(affair: Affair, job: Job)
      modifies this`affairs
      ensures Value() == old(Value()).(affairs := UpdateAffairFromJob(old(affairs), affair, job))
    {
      if job.purpose == Some(Exploration) { return; }
      if Truthy(affair.currentJobId) && affair.currentJobId.value != job.jobId { return; }
      var next := ProjectAffair(affair, job, AffairStatusForJob(job.status));
      if !CanTransitionAffair(affair.status, next.status) { return; }
      affairs := Set(affairs, affair.affairId, next);
    }

    method ApplyJobEvent(kind: JobEventKind, incoming: Job) returns (r: ApplyResult)
      modifies this
      ensures (Value(), r) == ApplyJob(old(Value()), kind, incoming)
    {
      var existing := Get(jobs, incoming.jobId);
      var payload := MergeJob(incoming, existing);
      var affair := Get(affairs, payload.affairId);
      var decision := DecideTerminalAffairJobEvent(affair, kind, existing, payload);
      if decision == Reject {
        r := FailWith(AffairTerminalForJob, Some(payload.affairId), Some(payload.jobId));
        return;
      }
      if decision == IgnoreDuplicate {
        return Duplicate;
      }
      if existing.Some? && !CanTransitionJob(existing.value.status, payload.status) {
        r := FailWith(JobIllegalTransition, None, None);
        return;
      }
      jobs := Set(jobs, payload.jobId, payload);
      if affair.Some? {
        ProjectJob(affair.value, payload);
      }
      r := Applied;
    }

    method ApplyChatEvent(entry: ChatEntry) returns (r: ApplyResult)
      modifies this
      ensures (Value(), r) == ApplyChat(old(Value()), entry)
    {
      var previous := FindEntry(if entry.kind == Message then chat else attachments, entry.id);
      if previous.Some? {
        if previous.value.text != entry.text || previous.value.affairId != entry.affairId {
          return Refused(MessageIdContentConflict, false);
        }
        return Duplicate;
      }
      if entry.kind == Message {
        chat := chat + [entry];
      } else {
        attachments := attachments + [entry];
      }
      r := Applied;
    }

    method ApplyProtocolEnvelope(e: Envelope, now: int) returns (r: ApplyResult)
      modifies this
      ensures (Value(), r) == Apply(old(Value()), e, now)
    {
      if !Validated(e) {
        r := FailWith(ProtocolInvalid, None, None);
        return;
      }
      if e.messageId in seen.data {
        return Duplicate;
      }
      match e.body {
        case AffairEvent(_, affair) => r := ApplyAffairEvent(affair);
        case JobEvent(kind, job) => r := ApplyJobEvent(kind, job);
        case JobCancelCommand => r := FailWith(JobCancelExecutorRequired, None, None);
        case Chat(entry) => r := ApplyChatEvent(entry);
        case ReadReceipt => r := Refused(ReceiptCommitRequired, false);
        case OtherBody => r := Applied;
      }
      if r.Ok() {
        seen := Set(seen, e.messageId, now);
        updatedAt := now;
      }
    }
  }

  // ----- what one message can and cannot do -----

  /** An affair in a terminal status has only terminal jobs. */
  ghost predicate TerminalSettled(b: Backend) {
    forall j :: j in b.jobs.data && AffairEnded(b, b.jobs.data[j].affairId) ==> TerminalJob(b.jobs.data[j].status)
  }

  predicate AffairEnded(b: Backend, a: string) {
    a in b.affairs.data && TerminalAffair(b.affairs.data[a].status)
  }

  /** The runtime's gate on affair messages: they may repeat a terminal status but never introduce one. */
  predicate IntroducesNoEnding(b: Backend, e: Envelope) {
    e.body.AffairEvent? && e.body.affair.affairId != "" && TerminalAffair(e.body.affair.status) ==>
      e.body.affair.affairId in b.affairs.data && b.affairs.data[e.body.affair.affairId].status == e.body.affair.status
  }

  /** A lawful change of state: nothing disappears, every status moves along an edge of its table, records
      stay under their own ids, and no affair ends. */
  ghost predicate Lawful(b: Backend, b': Backend) {
    b'.actions == b.actions && LawfulAffairs(b, b') && LawfulJobs(b, b')
  }

  ghost predicate LawfulAffairs(b: Backend, b': Backend) {
    && (forall a :: a in b'.affairs.data ==> b'.affairs.data[a].affairId == a)
    && (forall a :: a in b.affairs.data ==> a in b'.affairs.data && CanTransitionAffair(b.affairs.data[a].status, b'.affairs.data[a].status))
    && (forall a :: a in b'.affairs.data && TerminalAffair(b'.affairs.data[a].status) ==> AffairEnded(b, a))
  }

  ghost predicate LawfulJobs(b: Backend, b': Backend) {
    && (forall j :: j in b'.jobs.data ==> b'.jobs.data[j].jobId == j)
    && (forall j :: j in b.jobs.data ==> j in b'.jobs.data && CanTransitionJob(b.jobs.data[j].status, b'.jobs.data[j].status))
  }

  lemma AffairEventIsLawful(b: Backend, payload: Affair)
    requires WellKeyed(b)
    requires TerminalAffair(payload.status) ==> payload.affairId in b.affairs.data && b.affairs.data[payload.affairId].status == payload.status
    ensures Lawful(b, ApplyAffair(b, payload).0)
  {
  }

  lemma JobEventOnAffairs(b: Backend, kind: JobEventKind, incoming: Job)
    requires WellKeyed(b)
    ensures LawfulAffairs(b, ApplyJob(b, kind, incoming).0)
  {
  }

  lemma JobEventOnJobs(b: Backend, kind: JobEventKind, incoming: Job)
    requires WellKeyed(b)
    ensures LawfulJobs(b, ApplyJob(b, kind, incoming).0) && ApplyJob(b, kind, incoming).0.actions == b.actions
  {
  }

  lemma JobEventIsLawful(b: Backend, kind: JobEventKind, incoming: Job)
    requires WellKeyed(b)
    ensures Lawful(b, ApplyJob(b, kind, incoming).0)
  {
    JobEventOnAffairs(b, kind, incoming);
    JobEventOnJobs(b, kind, incoming);
  }

  lemma ApplyKeepsCore(b: Backend, e: Envelope, now: int)
    ensures var b' := Apply(b, e, now).0;
      && b'.actions == b.actions
      && ((b'.affairs == b.affairs && b'.jobs == b.jobs)
          || (e.body.AffairEvent? && Validated(e) && b'.affairs == ApplyAffair(b, e.body.affair).0.affairs && b'.jobs == b.jobs)
          || (e.body.JobEvent? && b'.affairs == ApplyJob(b, e.body.jobKind, e.body.job).0.affairs
              && b'.jobs == ApplyJob(b, e.body.jobKind, e.body.job).0.jobs))
  {
  }

  /** Behind the runtime gate every message is lawful: statuses follow the tables, nothing is removed,
      and no affair ends by a message. */
  lemma ApplyIsLawful(b: Backend, e: Envelope, now: int)
    requires WellKeyed(b) && IntroducesNoEnding(b, e)
    ensures Lawful(b, Apply(b, e, now).0)
  {
    hide Apply, ApplyJob, ApplyAffair;
    ApplyKeepsCore(b, e, now);
    if e.body.AffairEvent? && Validated(e) {
      AffairEventIsLawful(b, e.body.affair);
    } else if e.body.JobEvent? {
      JobEventIsLawful(b, e.body.jobKind, e.body.job);
    }
  }

  lemma ProjectionKeepsOrder(affairs: JsMap<string, Affair>, affair: Affair, job: Job)
    requires Ordered(affairs)
    ensures Ordered(UpdateAffairFromJob(affairs, affair, job))
  {
    SetOrdered(affairs, affair.affairId, ProjectAffair(affair, job, AffairStatusForJob(job.status)));
  }

  /** What a job message can write. */
  lemma JobEventWrites(b: Backend, kind: JobEventKind, incoming: Job)
    ensures var b', payload := ApplyJob(b, kind, incoming).0, MergeJob(incoming, Get(b.jobs, incoming.jobId));
      && b'.seen == b.seen
      && (b'.jobs == b.jobs || b'.jobs == Set(b.jobs, payload.jobId, payload))
      && (b'.affairs == b.affairs || (payload.affairId in b.affairs.data
            && b'.affairs == UpdateAffairFromJob(b.affairs, b.affairs.data[payload.affairId], payload)))
  {
  }

  lemma JobEventKeepsOrder(b: Backend, kind: JobEventKind, incoming: Job)
    requires Ordered(b.affairs) && Ordered(b.jobs)
    ensures Ordered(ApplyJob(b, kind, incoming).0.affairs) && Ordered(ApplyJob(b, kind, incoming).0.jobs)
  {
    JobEventWrites(b, kind, incoming);
    var payload := MergeJob(incoming, Get(b.jobs, incoming.jobId));
    SetOrdered(b.jobs, payload.jobId, payload);
    if payload.affairId in b.affairs.data {
      ProjectionKeepsOrder(b.affairs, b.affairs.data[payload.affairId], payload);
    }
  }

  lemma ApplyKeepsOrder(b: Backend, e: Envelope, now: int)
    requires WellOrdered(b)
    ensures WellOrdered(Apply(b, e, now).0)
  {
    ApplyKeepsCore(b, e, now);
    if e.body.AffairEvent? {
      SetOrdered(b.affairs, e.body.affair.affairId, e.body.affair);
    } else if e.body.JobEvent? {
      JobEventKeepsOrder(b, e.body.jobKind, e.body.job);
    }
  }

  /** What lawfulness means for an affair that has ended. */
  lemma LawfulKeepsEndings(b: Backend, b': Backend, a: string)
    requires Lawful(b, b')
    ensures AffairEnded(b', a) <==> AffairEnded(b, a)
    ensures AffairEnded(b, a) ==> b'.affairs.data[a].status == b.affairs.data[a].status
  {
  }

  /** Where a job record after a message comes from: it was there, or the message wrote it, and then
      under an ended affair it can only be a cancellation. */
  lemma JobAfterMessage(b: Backend, e: Envelope, now: int, j: string)
    requires WellKeyed(b) && j in Apply(b, e, now).0.jobs.data
    ensures var job' := Apply(b, e, now).0.jobs.data[j];
      || (j in b.jobs.data && job' == b.jobs.data[j])
      || (&& Validated(e) && e.body.JobEvent? && e.body.job.jobId == j && job'.affairId == e.body.job.affairId && job'.status == e.body.job.status
          && (j in b.jobs.data ==> CanTransitionJob(b.jobs.data[j].status, job'.status))
          && (AffairEnded(b, job'.affairId) ==> job'.status == JobCanceled))
  {
  }

  lemma ApplyKeepsSettled(b: Backend, e: Envelope, now: int)
    requires WellKeyed(b) && TerminalSettled(b) && IntroducesNoEnding(b, e)
    ensures TerminalSettled(Apply(b, e, now).0)
  {
    ApplyIsLawful(b, e, now);
    var b' := Apply(b, e, now).0;
    forall j | j in b'.jobs.data && AffairEnded(b', b'.jobs.data[j].affairId) ensures TerminalJob(b'.jobs.data[j].status) {
      JobAfterMessage(b, e, now, j);
    }
  }

  /** A job of an ended affair keeps its status as long as messages keep it under that affair. */
  lemma EndedAffairFreezesItsJobs(b: Backend, e: Envelope, now: int, j: string)
    requires WellKeyed(b) && TerminalSettled(b) && IntroducesNoEnding(b, e)
    requires j in b.jobs.data && AffairEnded(b, b.jobs.data[j].affairId)
    requires e.body.JobEvent? && e.body.job.jobId == j ==> e.body.job.affairId == b.jobs.data[j].affairId
    ensures var b' := Apply(b, e, now).0;
      b'.jobs.data[j].status == b.jobs.data[j].status && b'.jobs.data[j].affairId == b.jobs.data[j].affairId
  {
    OnlyRevival(b.jobs.data[j].status, JobCanceled);
  }

  /** Without that premise the freeze is lost in exactly one way: a `blocked` message that names an
      affair which has not ended revives a completed job. */
  lemma FreezeIsLostExactlyByMoving(b: Backend, e: Envelope, now: int, j: string)
    requires WellKeyed(b) && TerminalSettled(b)
    requires j in b.jobs.data && AffairEnded(b, b.jobs.data[j].affairId)
    requires Validated(e) && e.messageId !in b.seen.data && e.body.JobEvent? && e.body.job.jobId == j
    ensures Apply(b, e, now).0.jobs.data[j].status != b.jobs.data[j].status <==>
      b.jobs.data[j].status == Completed && e.body.job.status == JobBlocked && !AffairEnded(b, e.body.job.affairId)
  {
    OnlyRevival(b.jobs.data[j].status, e.body.job.status);
  }

  /** Such a state and message exist. */
  lemma MovingAJobRevivesIt(done: Job, ended: string, live: string)
    returns (b: Backend, e: Envelope)
    requires ended != live && live != "" && done.jobId != "" && done.affairId == ended && done.status == Completed
    ensures WellKeyed(b) && TerminalSettled(b) && IntroducesNoEnding(b, e)
    ensures done.jobId in b.jobs.data && AffairEnded(b, b.jobs.data[done.jobId].affairId)
    ensures Apply(b, e, 0).0.jobs.data[done.jobId].status == JobBlocked
  {
    var affairs := map[ended := Affair(ended, Canceled, None, None, None, ""), live := Affair(live, Running, None, None, None, "")];
    b := Backend(Empty(), JsMap([ended, live], affairs), JsMap([done.jobId], map[done.jobId := done]), [], [], [], [], Empty(), 0, None);
    e := Envelope("", false, true, JobEvent(JobBlockedEvent, done.(affairId := live, status := JobBlocked)));
    FreezeIsLostExactlyByMoving(b, e, 0, done.jobId);
    assert Apply(b, e, 0).0.jobs.data[done.jobId].status != Completed;
    JobAfterMessage(b, e, 0, done.jobId);
  }
}
