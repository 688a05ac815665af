/** Affairs, jobs, protocol messages, close commands and their records: the values that the
    companion's maps hold and that cross its boundary. */
module Types {
  import opened Option
  import opened JsMap
  import opened Status

  datatype Purpose = Execution | Exploration
  datatype Evidence = Missing | Weak | Present

  /** A text shown to the user: one that came from outside, or one of the companion's own fixed texts. */
  datatype Text =
    | Given(text: string)
    | LastExecutionCanceled | OpenClawJobFailed | DecideRedelegate | DecideRetry
    | UserCanceledAffair | CanceledBeforeRun | AcceptedByRuntime

  predicate ShownText(t: Option<Text>) {
    t.Some? && t.value != Given("")
  }

  /** `statusReasonCode`: the codes the companion itself compares or writes, and any other. */
  datatype Reason =
    | TerminalWithoutResult | FinalReplyNegative | WebSearchDisabled
    | CancelAfterEndedBlockedJob | CancelBeforeRun
    | OtherReason(code: string)

  /** `rest` stands for the fields no rule reads (title, owner, context, acceptance criteria). */
  datatype Affair = Affair(
    affairId: string,
    status: AffairStatus,
    currentJobId: Option<string>,
    blockedReason: Option<Text>,
    resumeCondition: Option<Text>,
    rest: string)

  datatype RecentStep = RecentStep(kind: string, text: string)

  /** `rest` stands for the fields no rule reads (executor, observation time, workspace hint). */
  datatype Job = Job(
    jobId: string,
    affairId: string,
    status: JobStatus,
    purpose: Option<Purpose>,
    goal: string,
    allowedPermissions: seq<string>,
    progressSummary: Option<Text>,
    resultDigest: Option<string>,
    evidenceQuality: Option<Evidence>,
    blockedReason: Option<Text>,
    resumeCondition: Option<Text>,
    permissionRequestId: Option<string>,
    taskIntentId: Option<string>,
    statusReasonCode: Option<Reason>,
    recentSteps: seq<RecentStep>,
    rest: string)

  datatype CloseStatus = ToClosed | ToCanceled {
    function Affair(): AffairStatus {
      match this
      case ToClosed => Closed
      case ToCanceled => Canceled
    }
  }

  datatype CloseCommand = CloseCommand(
    affairId: string,
    status: CloseStatus,
    expectedCurrentJobId: Option<string>,
    acceptanceSummary: Option<string>,
    closeReason: Option<string>)

  /** The idempotency key `JSON.stringify([actorId, requestId])`. */
  datatype Key = Key(actorId: string, requestId: string)

  datatype Phase = Pending | Committed | Rejected

  datatype CloseResult = CloseResult(affair: Affair, jobs: seq<Job>)

  datatype Code =
    | ValidationFailed | AffairActionIdConflict | AffairActionPending | AffairActionPersistFailed
    | AffairActionUnconfirmed | AffairNotFound | AffairCurrentJobChanged | AffairCloseRejected
    | AffairAcceptanceEvidenceMissing | AffairJobsStillActive | AffairActionRequired
    | ProtocolInvalid | ReceiptCommitRequired | AffairIllegalTransition | JobIllegalTransition
    | JobCancelExecutorRequired | AffairTerminalForJob | MessageIdContentConflict
    | JobCreateInvalid | JobCreatePersistFailed | AffairClosing | CurrentJobNotStopped
    | CapabilityMissing | JobIdConflict | JobCreateInFlight | PermissionsRefused | PermissionDuplicate
    | JobCreateOutboundInvalid
    | PermissionNotFound | PermissionNotPending | PermissionNotExecutable | AffairTerminalForPermission | PermissionNotCurrentJob
    | JobReported(reason: Option<Reason>, kind: JobEventKind)

  datatype Outcome =
    | Ok(result: CloseResult, duplicate: bool)
    | Err(code: Code, retryable: bool)

  datatype Record = Record(key: Key, command: CloseCommand, phase: Phase, outcome: Option<Outcome>)

  datatype AffairEventKind = AffairCreate | AffairUpdate | AffairResume
  datatype JobEventKind =
    | JobCreateEvent | JobAccepted | JobProgress | JobNeedsPermissionEvent | JobBlockedEvent
    | JobCompletedEvent | JobFailedEvent | JobCanceledEvent

  datatype ChatKind = Message | ContextAttach
  datatype ChatEntry = ChatEntry(kind: ChatKind, id: string, text: string, affairId: Option<string>, rest: string)

  datatype Body =
    | AffairEvent(kind: AffairEventKind, affair: Affair)
    | JobEvent(jobKind: JobEventKind, job: Job)
    | JobCancelCommand
    | Chat(entry: ChatEntry)
    | ReadReceipt
    | OtherBody

  /** `valid` is the verdict of the payload validators, which are outside the model apart from two things
      the store relies on: ids are not empty, and a job message's type fixes the statuses it may carry. */
  datatype Envelope = Envelope(messageId: string, fromPhone: bool, valid: bool, body: Body)

  function StatusesOf(kind: JobEventKind): set<JobStatus> {
    match kind
    case JobCreateEvent => {Queued}
    case JobAccepted => {Queued, JobRunning}
    case JobProgress => {Queued, JobRunning}
    case JobNeedsPermissionEvent => {NeedsPermission}
    case JobBlockedEvent => {JobBlocked}
    case JobCompletedEvent => {Completed}
    case JobFailedEvent => {Failed}
    case JobCanceledEvent => {JobCanceled}
  }

  /** The same table read from the status. */
  function KindsFor(status: JobStatus): set<JobEventKind> {
    match status
    case Queued => {JobCreateEvent, JobAccepted, JobProgress}
    case JobRunning => {JobAccepted, JobProgress}
    case NeedsPermission => {JobNeedsPermissionEvent}
    case JobBlocked => {JobBlockedEvent}
    case Completed => {JobCompletedEvent}
    case Failed => {JobFailedEvent}
    case JobCanceled => {JobCanceledEvent}
  }

  lemma MessageTypesAgree(kind: JobEventKind, status: JobStatus)
    ensures status in StatusesOf(kind) <==> kind in KindsFor(status)
  {
  }

  predicate Validated(e: Envelope) {
    && e.valid
    && (e.body.AffairEvent? ==> e.body.affair.affairId != "")
    && (e.body.JobEvent? ==> e.body.job.jobId != "" && e.body.job.affairId != "" && e.body.job.status in StatusesOf(e.body.jobKind))
  }

  datatype LastError = LastError(code: Code, affairId: Option<string>, jobId: Option<string>)

  datatype Receipt = Receipt(
    chatMessageId: Option<string>, attachId: Option<string>,
    phoneDeviceId: string, desktopDeviceId: string, receiptMessageId: string)

  /** A desktop message waiting for the phone to confirm that it was consumed. */
  datatype PendingItem = PendingItem(
    pendingId: string,
    sourceId: Option<string>,
    sourceKind: Option<ChatKind>,
    phoneDeviceId: Option<string>,
    desktopDeviceId: Option<string>,
    text: string,
    affairId: Option<string>,
    rest: string)

  /** The part of the companion's state that the authority reads and writes. */
  datatype Backend = Backend(
    actions: JsMap<Key, Record>,
    affairs: JsMap<string, Affair>,
    jobs: JsMap<string, Job>,
    chat: seq<ChatEntry>,
    attachments: seq<ChatEntry>,
    receipts: seq<Receipt>,
    deliveries: seq<string>,
    seen: JsMap<string, int>,
    updatedAt: int,
    lastError: Option<LastError>)

  datatype ApplyResult = Applied | Duplicate | Refused(code: Code, retryable: bool) {
    predicate Ok() { !Refused? }
  }

  function AffairKey(a: Affair): string { a.affairId }
  function JobKey(j: Job): string { j.jobId }
  function RecordKey(r: Record): Key { r.key }

  /** Every map key equals its record's own id. */
  ghost predicate WellKeyed(b: Backend) {
    && (forall k :: k in b.actions.data ==> b.actions.data[k].key == k)
    && (forall a :: a in b.affairs.data ==> b.affairs.data[a].affairId == a)
    && (forall j :: j in b.jobs.data ==> b.jobs.data[j].jobId == j)
  }

  /** Every map lists each of its keys once. */
  ghost predicate WellOrdered(b: Backend) {
    Ordered(b.actions) && Ordered(b.affairs) && Ordered(b.jobs)
  }
}
