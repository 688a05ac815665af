/** How messages and startup repair move an affair along with its jobs: which message is accepted, what it writes, and what
    the affair of an execution job looks like afterwards. */
module Projection {
  import opened Option
  import opened JsMap
  import opened Status
  import opened Types
  import opened Store
  import opened Reconcile

  /** What an affair shows of the job that it follows. Only a completed job is offered for acceptance; a blocked, failed or
      canceled one blocks the affair, always with a reason. */
  predicate Follows(after: Affair, before: Affair, job: Job) {
    && after.affairId == before.affairId && after.rest == before.rest && after.currentJobId == Some(job.jobId)
    && (job.status == Queued || job.status == NeedsPermission ==> after.status == Delegated)
    && (job.status == JobRunning ==> after.status == Running)
    && (job.status == Completed ==> after.status == WaitingAcceptance)
    && (if job.status == JobBlocked || job.status == Failed || job.status == JobCanceled then
          && after.status == Blocked
          && after.blockedReason == (if job.blockedReason.Some? then job.blockedReason
                                     else if job.status == JobCanceled then Some(LastExecutionCanceled) else Some(OpenClawJobFailed))
          && after.resumeCondition == (if job.resumeCondition.Some? then job.resumeCondition
                                       else if job.status == JobCanceled then Some(DecideRedelegate)
                                       else if job.status == Failed then Some(DecideRetry) else None)
        else after.blockedReason.None? && after.resumeCondition.None?)
  }

  /** The job is an execution, and the affair is at it or at none. */
  predicate Leads(affair: Affair, job: Job) {
    job.purpose != Some(Exploration) && (affair.currentJobId.Some? && affair.currentJobId.value != "" ==> affair.currentJobId.value == job.jobId)
  }

  /** The statuses from which one message about such a job moves the affair. */
  function FollowedFrom(s: JobStatus): set<AffairStatus> {
    match s
    case Queued => {Ready, Delegated}
    case NeedsPermission => {Ready, Delegated}
    case JobRunning => {Delegated, Running, Blocked, Paused, WaitingAcceptance}
    case JobBlocked => {Delegated, Running, Blocked, Paused, WaitingAcceptance}
    case Failed => {Delegated, Running, Blocked, Paused, WaitingAcceptance}
    case JobCanceled => {Delegated, Running, Blocked, Paused, WaitingAcceptance}
    case Completed => {Running, WaitingAcceptance}
  }

  // ----- messages -----

  predicate HasEnded(b: Backend, a: string) {
    a in b.affairs.data && (b.affairs.data[a].status == Closed || b.affairs.data[a].status == Canceled)
  }

  predicate MayMoveJob(b: Backend, job: Job) {
    job.jobId in b.jobs.data ==> b.jobs.data[job.jobId].status == job.status || b.jobs.data[job.jobId].status in JobSources(job.status)
  }

  predicate RepeatsJob(b: Backend, job: Job) {
    job.jobId in b.jobs.data && b.jobs.data[job.jobId].affairId == job.affairId
    && b.jobs.data[job.jobId].status == job.status && b.jobs.data[job.jobId].goal == job.goal
  }

  /** Exactly which job messages are applied, taken for repetitions and refused. Under an affair that has ended only
      cancellations are applied, and what is stored already counts as a repetition. */
  lemma JobMessageAnsweredExactly(b: Backend, e: Envelope, now: int)
    requires e.body.JobEvent? && Validated(e) && e.messageId !in b.seen.data
    ensures var job, r := e.body.job, Apply(b, e, now).1;
      && (r == Applied <==> (HasEnded(b, job.affairId) ==> job.status == JobCanceled) && MayMoveJob(b, job))
      && (r == Duplicate <==> HasEnded(b, job.affairId) && job.status != JobCanceled && RepeatsJob(b, job))
      && (r == Refused(AffairTerminalForJob, false) <==> HasEnded(b, job.affairId) && job.status != JobCanceled && !RepeatsJob(b, job))
      && (r == Refused(JobIllegalTransition, false) <==> (HasEnded(b, job.affairId) ==> job.status == JobCanceled) && !MayMoveJob(b, job))
  {
    if e.body.job.jobId in b.jobs.data {
      TablesAgree(Closed, Closed, b.jobs.data[e.body.job.jobId].status, e.body.job.status);
    }
    hide UpdateAffairFromJob, JobEdge;
  }

  lemma UpdateFollows(affairs: JsMap<string, Affair>, affair: Affair, job: Job)
    requires affair.affairId in affairs.data && affairs.data[affair.affairId] == affair
    ensures var after := UpdateAffairFromJob(affairs, affair, job);
      && after.data.Keys == affairs.data.Keys && (forall a :: a in affairs.data && a != affair.affairId ==> after.data[a] == affairs.data[a])
      && (if Leads(affair, job) && affair.status in FollowedFrom(job.status)
          then Follows(after.data[affair.affairId], affair, job) else after.data[affair.affairId] == affair)
  {
  }

  lemma MergeKeeps(b: Backend, sent: Job)
    ensures RecordKept(b, sent, MergeJob(sent, Get(b.jobs, sent.jobId)))
  {
  }

  lemma AppliedJobWrites(b: Backend, e: Envelope, now: int)
    requires e.body.JobEvent? && Apply(b, e, now).1 == Applied
    ensures var b', job := Apply(b, e, now).0, MergeJob(e.body.job, Get(b.jobs, e.body.job.jobId));
      && b'.jobs == Set(b.jobs, job.jobId, job) && b'.seen == Set(b.seen, e.messageId, now) && b'.updatedAt == now
      && b'.affairs == if job.affairId in b.affairs.data then UpdateAffairFromJob(b.affairs, b.affairs.data[job.affairId], job) else b.affairs
  {
    hide UpdateAffairFromJob, MergeJob, CanTransitionJob;
  }

  /** What an applied job message writes: its job's record, which keeps from the one before only what the message leaves out,
      and the affair, exactly if the job leads it and the table lets it follow. */
  lemma JobMessageWrites(b: Backend, e: Envelope, now: int, a: string)
    requires WellKeyed(b) && e.body.JobEvent? && Apply(b, e, now).1 == Applied && a in b.affairs.data
    ensures var b', sent := Apply(b, e, now).0, e.body.job;
      && b'.affairs.data.Keys == b.affairs.data.Keys && b'.jobs.data.Keys == b.jobs.data.Keys + {sent.jobId}
      && (forall j :: j in b.jobs.data && j != sent.jobId ==> b'.jobs.data[j] == b.jobs.data[j])
      && b'.seen.data == b.seen.data[e.messageId := now] && b'.updatedAt == now
      && var job := b'.jobs.data[sent.jobId];
         && RecordKept(b, sent, job)
         && (if a == sent.affairId && Leads(b.affairs.data[a], job) && b.affairs.data[a].status in FollowedFrom(job.status)
             then Follows(b'.affairs.data[a], b.affairs.data[a], job)
             else b'.affairs.data[a] == b.affairs.data[a])
  {
    hide Apply, MergeJob, UpdateAffairFromJob, Leads, Follows, FollowedFrom;
    var job := MergeJob(e.body.job, Get(b.jobs, e.body.job.jobId));
    AppliedJobWrites(b, e, now);
    MergeKeeps(b, e.body.job);
    if job.affairId in b.affairs.data {
      UpdateFollows(b.affairs, b.affairs.data[job.affairId], job);
    }
  }

  predicate RecordKept(b: Backend, sent: Job, job: Job) {
    if sent.jobId !in b.jobs.data then job == sent
    else
      var before := b.jobs.data[sent.jobId];
      && job == sent.(purpose := job.purpose, permissionRequestId := job.permissionRequestId, taskIntentId := job.taskIntentId)
      && job.purpose == (if sent.purpose.Some? then sent.purpose else if before.purpose.Some? then before.purpose else Some(Execution))
      && job.permissionRequestId == (if sent.permissionRequestId.Some? then sent.permissionRequestId else before.permissionRequestId)
      && job.taskIntentId == (if sent.taskIntentId.Some? then sent.taskIntentId else before.taskIntentId)
  }

  /** Any other outcome leaves affairs and jobs alone, and an affair message writes just its affair. */
  lemma OtherMessagesWrite(b: Backend, e: Envelope, now: int)
    ensures var (b', r) := Apply(b, e, now);
      && (r != Applied ==> b'.affairs == b.affairs && b'.jobs == b.jobs)
      && (r == Duplicate <== Validated(e) && e.messageId in b.seen.data)
      && (!Validated(e) ==> r == Refused(ProtocolInvalid, false))
      && (Validated(e) && e.messageId !in b.seen.data && e.body.AffairEvent? ==>
            var to := e.body.affair;
            && (r == Applied <==> to.affairId in b.affairs.data ==>
                  b.affairs.data[to.affairId].status == to.status || b.affairs.data[to.affairId].status in AffairSources(to.status))
            && (r == Applied ==> b'.affairs.data == b.affairs.data[to.affairId := to] && b'.jobs == b.jobs))
  {
    if e.body.AffairEvent? && e.body.affair.affairId in b.affairs.data {
      TablesAgree(b.affairs.data[e.body.affair.affairId].status, e.body.affair.status, Queued, Queued);
    }
    hide UpdateAffairFromJob, JobEdge, AffairEdge, MergeJob, FindEntry;
  }

  // ----- startup repair -----

  predicate ExecutionOf(jobs: JsMap<string, Job>, j: string, affairId: string) {
    j in jobs.data && jobs.data[j].affairId == affairId && jobs.data[j].purpose != Some(Exploration)
  }

  predicate RegisteredLast(jobs: JsMap<string, Job>, j: string, affairId: string) {
    && ExecutionOf(jobs, j, affairId)
    && exists n :: 0 <= n < |jobs.order| && jobs.order[n] == j && forall m :: n < m < |jobs.order| ==> !ExecutionOf(jobs, jobs.order[m], affairId)
  }

  /** The job that repair goes by: the affair's current one unless it explores or is unknown, and if the affair is at no job its
      execution that was registered last. */
  predicate GoesBy(jobs: JsMap<string, Job>, affair: Affair, j: string) {
    if affair.currentJobId.Some? && affair.currentJobId.value != ""
    then affair.currentJobId.value == j && j in jobs.data && jobs.data[j].purpose != Some(Exploration)
    else RegisteredLast(jobs, j, affair.affairId)
  }

  lemma {:induction false} LastIsLast(order: seq<string>, data: map<string, Job>, affairId: string)
    requires forall k :: 0 <= k < |order| ==> order[k] in data
    ensures var r, jobs := LastExecution(ValuesOf(order, data), affairId), JsMap(order, data);
      && (r.Some? ==> exists n :: 0 <= n < |order| && data[order[n]] == r.value && ExecutionOf(jobs, order[n], affairId)
                                  && forall m :: n < m < |order| ==> !ExecutionOf(jobs, order[m], affairId))
      && (r.None? ==> forall m :: 0 <= m < |order| ==> !ExecutionOf(jobs, order[m], affairId))
  {
    if order != [] {
      var n := |order| - 1;
      var values := ValuesOf(order, data);
      assert values == ValuesOf(order[..n], data) + [data[order[n]]];
      assert values[..|values| - 1] == ValuesOf(order[..n], data) && values[|values| - 1] == data[order[n]];
      if ExecutionOf(JsMap(order, data), order[n], affairId) {
      } else {
        LastIsLast(order[..n], data, affairId);
        forall m | 0 <= m < n ensures ExecutionOf(JsMap(order[..n], data), order[..n][m], affairId) <==> ExecutionOf(JsMap(order, data), order[m], affairId) {
        }
      }
    }
  }

  lemma LastChosen(jobs: JsMap<string, Job>, affairId: string, j: string)
    requires Ordered(jobs) && forall k :: k in jobs.data ==> jobs.data[k].jobId == k
    ensures var last := LastExecution(Values(jobs), affairId);
      && (last.Some? ==> RegisteredLast(jobs, last.value.jobId, affairId) && jobs.data[last.value.jobId] == last.value)
      && (RegisteredLast(jobs, j, affairId) ==> last == Some(jobs.data[j]))
  {
    hide Ordered, ValuesOf, LastExecution;
    OrderedMeans(jobs);
    LastIsLast(jobs.order, jobs.data, affairId);
    if RegisteredLast(jobs, j, affairId) {
      var n :| 0 <= n < |jobs.order| && jobs.order[n] == j && forall m :: n < m < |jobs.order| ==> !ExecutionOf(jobs, jobs.order[m], affairId);
      assert ExecutionOf(jobs, jobs.order[n], affairId);
    }
  }

  lemma ChosenExactly(jobs: JsMap<string, Job>, affair: Affair, j: string)
    requires Ordered(jobs) && forall k :: k in jobs.data ==> jobs.data[k].jobId == k
    ensures var chosen := SelectReconciliationJob(jobs, affair);
      && (chosen.Some? ==> GoesBy(jobs, affair, chosen.value.jobId) && jobs.data[chosen.value.jobId] == chosen.value)
      && (GoesBy(jobs, affair, j) ==> chosen == Some(jobs.data[j]))
  {
    hide Ordered, Values, LastExecution, RegisteredLast;
    LastChosen(jobs, affair.affairId, j);
    LastIsRegistered(jobs, j, affair.affairId);
    if SelectReconciliationJob(jobs, affair).Some? {
      LastIsRegistered(jobs, SelectReconciliationJob(jobs, affair).value.jobId, affair.affairId);
    }
  }

  lemma LastIsRegistered(jobs: JsMap<string, Job>, j: string, affairId: string)
    ensures RegisteredLast(jobs, j, affairId) ==> ExecutionOf(jobs, j, affairId)
  {
  }

  /** What startup repair makes of each affair: one that has ended, or that goes by no job, stays as it is; any other follows the
      job that it goes by, unless the table no longer leads there, which happens exactly for a job that is not started yet
      under an affair already past delegation. */
  lemma RepairFollows(b: Backend, now: int, a: string, j: string)
    requires WellKeyed(b) && WellOrdered(b) && a in b.affairs.data
    ensures var b', before := Reconciled(b, now), b.affairs.data[a];
      && b' == b.(affairs := b'.affairs, updatedAt := if b'.affairs == b.affairs then b.updatedAt else now)
      && b'.affairs.order == b.affairs.order && b'.affairs.data.Keys == b.affairs.data.Keys
      && (b'.affairs.data[a] != before ==> exists i :: GoesBy(b.jobs, before, i))
      && (GoesBy(b.jobs, before, j) ==>
            var job := b.jobs.data[j];
            if before.status !in {Closed, Canceled}
               && (job.status in {Queued, NeedsPermission} ==> before.status in {Clarifying, Ready, Delegated})
            then Follows(b'.affairs.data[a], before, job) else b'.affairs.data[a] == before)
  {
    var before := b.affairs.data[a];
    ChosenExactly(b.jobs, before, j);
    assert Reconciled(b, now).affairs.data[a] == ReconcileOne(b.jobs, before);
    if GoesBy(b.jobs, before, j) {
      RepairOneFollows(b.jobs, before, b.jobs.data[j]);
    }
    hide GoesBy, SelectReconciliationJob, ProjectAffair, AffairStatusForJob, Follows, ExecutionOf;
  }

  lemma RepairOneFollows(jobs: JsMap<string, Job>, before: Affair, job: Job)
    requires SelectReconciliationJob(jobs, before) == Some(job)
    ensures var r := ReconcileOne(jobs, before);
      if before.status !in {Closed, Canceled} && (job.status in {Queued, NeedsPermission} ==> before.status in {Clarifying, Ready, Delegated})
      then Follows(r, before, job) else r == before
  {
    hide SelectReconciliationJob, AffairReachable;
    AffairReachableExactly(before.status, Delegated);
    AffairReachableExactly(before.status, Running);
    AffairReachableExactly(before.status, Blocked);
    AffairReachableExactly(before.status, WaitingAcceptance);
  }
}
