/** The two status enumerations of the protocol and their transition tables. */
module Status {
  import opened Reach

  datatype AffairStatus =
    | Clarifying | Ready | Delegated | Running | Blocked | Paused | WaitingAcceptance | Closed | Canceled

  datatype JobStatus =
    | Queued | JobRunning | NeedsPermission | JobBlocked | Completed | Failed | JobCanceled

  const AFFAIR_STATUSES: seq<AffairStatus> :=
    [Clarifying, Ready, Delegated, Running, Blocked, Paused, WaitingAcceptance, Closed, Canceled]

  const JOB_STATUSES: seq<JobStatus> :=
    [Queued, JobRunning, NeedsPermission, JobBlocked, Completed, Failed, JobCanceled]

  /** The edges of the affair table. */
  predicate AffairEdge(from: AffairStatus, to: AffairStatus) {
    match from
    case Clarifying => to == Ready || to == Canceled
    case Ready => to == Delegated || to == Clarifying || to == Canceled
    case Delegated => to == Running || to == Blocked || to == Paused || to == Canceled
    case Running => to == Blocked || to == Paused || to == WaitingAcceptance || to == Canceled
    case Blocked => to == Running || to == Paused || to == Canceled
    case Paused => to == Running || to == Blocked || to == Canceled
    case WaitingAcceptance => to == Closed || to == Running || to == Canceled || to == Blocked
    case Closed => false
    case Canceled => false
  }

  /** The edges of the job table. */
  predicate JobEdge(from: JobStatus, to: JobStatus) {
    match from
    case Queued => to == JobRunning || to == NeedsPermission || to == Completed || to == Failed || to == JobCanceled
    case JobRunning => to == NeedsPermission || to == JobBlocked || to == Completed || to == Failed || to == JobCanceled
    case NeedsPermission => to == JobRunning || to == JobBlocked || to == Failed || to == JobCanceled
    case JobBlocked => to == JobRunning || to == Failed || to == JobCanceled
    case Completed => to == JobBlocked
    case Failed => false
    case JobCanceled => false
  }

  predicate CanTransitionAffair(from: AffairStatus, to: AffairStatus) {
    from == to || AffairEdge(from, to)
  }

  predicate CanTransitionJob(from: JobStatus, to: JobStatus) {
    from == to || JobEdge(from, to)
  }

  predicate TerminalAffair(s: AffairStatus) {
    s == Closed || s == Canceled
  }

  /** A blocked job may still resume, so it is not terminal. */
  predicate TerminalJob(s: JobStatus) {
    s == Completed || s == Failed || s == JobCanceled
  }

  /** No edge leaves a terminal affair status, and every other status can be canceled. */
  lemma AffairTableShape(from: AffairStatus, to: AffairStatus)
    ensures TerminalAffair(from) && CanTransitionAffair(from, to) ==> to == from
    ensures !TerminalAffair(from) ==> CanTransitionAffair(from, Canceled)
    ensures CanTransitionAffair(from, Closed) <==> from == Closed || from == WaitingAcceptance
  {
  }

  /** The only edge from a terminal to a live job status is the repair of a hollow completion. */
  lemma OnlyRevival(from: JobStatus, to: JobStatus)
    ensures TerminalJob(from) && !TerminalJob(to) && CanTransitionJob(from, to) <==> from == Completed && to == JobBlocked
    ensures !TerminalJob(from) ==> CanTransitionJob(from, JobCanceled)
  {
  }

  ghost predicate AffairReachable(from: AffairStatus, to: AffairStatus) {
    Reachable(CanTransitionAffair, AFFAIR_STATUSES, from, to)
  }

  ghost predicate JobReachable(from: JobStatus, to: JobStatus) {
    Reachable(CanTransitionJob, JOB_STATUSES, from, to)
  }

  lemma JobVia(from: JobStatus, mid: JobStatus, to: JobStatus)
    requires JobReachable(from, mid) && CanTransitionJob(mid, to)
    ensures JobReachable(from, to)
  {
    assert to in JOB_STATUSES by {
      assert JOB_STATUSES[0] == Queued && JOB_STATUSES[1] == JobRunning && JOB_STATUSES[2] == NeedsPermission
        && JOB_STATUSES[3] == JobBlocked && JOB_STATUSES[4] == Completed && JOB_STATUSES[5] == Failed && JOB_STATUSES[6] == JobCanceled;
    }
    StepReaches(CanTransitionJob, JOB_STATUSES, from, mid, to);
  }

  /** The job table in closed form: nothing returns to `queued`, nothing leaves `failed` or `canceled`,
      and everything else can be reached, a completed job going through its repair. */
  lemma JobReachableExactly(from: JobStatus, to: JobStatus)
    ensures JobReachable(from, to) <==> from == to || (to != Queued && from != Failed && from != JobCanceled)
  {
    SelfReaches(CanTransitionJob, JOB_STATUSES, from);
    if from == Failed || from == JobCanceled || to == Queued {
      if JobReachable(from, to) {
        var p :| IsWalk(CanTransitionJob, JOB_STATUSES, p) && p[0] == from && p[|p| - 1] == to;
        var closed := if from == Failed || from == JobCanceled || from == Queued then {from} else {JobRunning, NeedsPermission, JobBlocked, Completed, Failed, JobCanceled};
        if from != Queued {
          ClosedContainsWalk(CanTransitionJob, JOB_STATUSES, closed, p, |p| - 1);
        }
      }
    } else {
      if from == Completed {
        JobVia(from, from, JobBlocked);
        JobVia(from, JobBlocked, JobRunning);
      } else {
        JobVia(from, from, JobRunning);
      }
      JobVia(from, JobRunning, to);
    }
  }

  /** The statuses that lead to one: the tables read from their other side. */
  function AffairSources(to: AffairStatus): set<AffairStatus> {
    match to
    case Clarifying => {Ready}
    case Ready => {Clarifying}
    case Delegated => {Ready}
    case Running => {Delegated, Blocked, Paused, WaitingAcceptance}
    case Blocked => {Delegated, Running, Paused, WaitingAcceptance}
    case Paused => {Delegated, Running, Blocked}
    case WaitingAcceptance => {Running}
    case Closed => {WaitingAcceptance}
    case Canceled => {Clarifying, Ready, Delegated, Running, Blocked, Paused, WaitingAcceptance}
  }

  function JobSources(to: JobStatus): set<JobStatus> {
    match to
    case Queued => {}
    case JobRunning => {Queued, NeedsPermission, JobBlocked}
    case NeedsPermission => {Queued, JobRunning}
    case JobBlocked => {JobRunning, NeedsPermission, Completed}
    case Completed => {Queued, JobRunning}
    case Failed => {Queued, JobRunning, NeedsPermission, JobBlocked}
    case JobCanceled => {Queued, JobRunning, NeedsPermission, JobBlocked}
  }

  lemma TablesAgree(a: AffairStatus, b: AffairStatus, j: JobStatus, k: JobStatus)
    ensures AffairEdge(a, b) <==> a in AffairSources(b)
    ensures JobEdge(j, k) <==> j in JobSources(k)
  {
  }

  lemma AffairVia(from: AffairStatus, mid: AffairStatus, to: AffairStatus)
    requires AffairReachable(from, mid) && CanTransitionAffair(mid, to)
    ensures AffairReachable(from, to)
  {
    assert to in AFFAIR_STATUSES by {
      assert AFFAIR_STATUSES[0] == Clarifying && AFFAIR_STATUSES[1] == Ready && AFFAIR_STATUSES[2] == Delegated
        && AFFAIR_STATUSES[3] == Running && AFFAIR_STATUSES[4] == Blocked && AFFAIR_STATUSES[5] == Paused
        && AFFAIR_STATUSES[6] == WaitingAcceptance && AFFAIR_STATUSES[7] == Closed && AFFAIR_STATUSES[8] == Canceled;
    }
    StepReaches(CanTransitionAffair, AFFAIR_STATUSES, from, mid, to);
  }

  /** The affair table in closed form: nothing leaves an ending, nothing returns to the stages before delegation once they are
      left, and everything else can be reached. */
  lemma AffairReachableExactly(from: AffairStatus, to: AffairStatus)
    ensures AffairReachable(from, to) <==>
      from == to || (from !in {Closed, Canceled} && (to in {Clarifying, Ready, Delegated} ==> from in {Clarifying, Ready}))
  {
    SelfReaches(CanTransitionAffair, AFFAIR_STATUSES, from);
    if from in {Closed, Canceled} || (to in {Clarifying, Ready, Delegated} && from !in {Clarifying, Ready}) {
      if AffairReachable(from, to) {
        var p :| IsWalk(CanTransitionAffair, AFFAIR_STATUSES, p) && p[0] == from && p[|p| - 1] == to;
        var later := {Running, Blocked, Paused, WaitingAcceptance, Closed, Canceled};
        ClosedContainsWalk(CanTransitionAffair, AFFAIR_STATUSES, if from in {Closed, Canceled} then {from} else later + {from}, p, |p| - 1);
      }
    } else if from != to {
      EarlyStages(from);
      if to !in {Clarifying, Ready, Delegated} {
        var early := from in {Clarifying, Ready, Delegated};
        AffairVia(from, if early then Delegated else from, Running);
        LaterStages(from, to);
      }
    }
  }

  lemma EarlyStages(from: AffairStatus)
    ensures from in {Clarifying, Ready} ==> AffairReachable(from, Clarifying) && AffairReachable(from, Ready) && AffairReachable(from, Delegated)
    ensures AffairReachable(from, from)
  {
    SelfReaches(CanTransitionAffair, AFFAIR_STATUSES, from);
    if from in {Clarifying, Ready} {
      AffairVia(from, from, if from == Clarifying then Ready else Clarifying);
      AffairVia(from, Ready, Delegated);
    }
  }

  lemma LaterStages(from: AffairStatus, to: AffairStatus)
    requires AffairReachable(from, Running) && to in {Running, Blocked, Paused, WaitingAcceptance, Closed, Canceled}
    ensures AffairReachable(from, to)
  {
    AffairVia(from, Running, WaitingAcceptance);
    AffairVia(from, if to == Closed then WaitingAcceptance else Running, to);
  }
}
