/** The executor's own records of jobs: how a snapshot of a run is merged into a record, for any verdict on the
    evidence. */
module Adapter {
  import opened Option
  import opened Reach
  import opened Status
  import opened Types
  import opened Publisher

  // ----- merging one snapshot -----

  /** What the runtime reports about a run. `ofThisJob` says that its evidence, if any, names this run, job,
      affair and session; `rest` is the evidence itself. */
  datatype Snapshot = Snapshot(runId: string, blockedReason: Option<Text>, resumeCondition: Option<Text>, ofThisJob: bool, rest: string)

  datatype Decision = Decision(
    status: JobStatus, progressSummary: Text, recentSteps: seq<RecentStep>, resultDigest: Option<string>, evidenceQuality: Evidence,
    blockedReason: Option<Text>, resumeCondition: Option<Text>, reason: Reason)

  /** The verdict on the evidence, the judgement that neither the summary nor the digest of a record says
      anything, and the permissions known to the executor: all arbitrary here. */
  datatype Rules = Rules(decide: (AdapterJob, Snapshot) -> Decision, lowSignal: Job -> bool, known: string -> bool)

  predicate IsHollowCompletedRepair(rules: Rules, a: AdapterJob, d: Decision) {
    && a.job.status == Completed && (a.job.evidenceQuality != Some(Present) || rules.lowSignal(a.job))
    && d.status == JobBlocked && d.reason == TerminalWithoutResult
  }

  /** Where the search for a path in the table ends. */
  function Resolved(from: JobStatus, to: JobStatus): JobStatus {
    if from == to || (to != Queued && from != Failed && from != JobCanceled) then to else from
  }

  lemma ResolvedIsReachability(from: JobStatus, to: JobStatus)
    ensures Resolved(from, to) == if JobReachable(from, to) then to else from
  {
    JobReachableExactly(from, to);
  }

  /** `resolveNextJobStatus`: the target if some path of the job table leads there, and otherwise no move. */
  method ResolveNextJobStatus(from: JobStatus, to: JobStatus) returns (next: JobStatus)
    ensures next == if JobReachable(from, to) then to else from
    ensures next == Resolved(from, to)
  {
    ResolvedIsReachability(from, to);
    JobViaItself(from, to);
    if from == to || CanTransitionJob(from, to) {
      return to;
    }
    var found := CanReach(CanTransitionJob, JOB_STATUSES, from, to);
    next := if found then to else from;
  }

  lemma JobViaItself(from: JobStatus, to: JobStatus)
    ensures CanTransitionJob(from, to) ==> JobReachable(from, to)
    ensures to in JOB_STATUSES
  {
    SelfReaches(CanTransitionJob, JOB_STATUSES, from);
    if CanTransitionJob(from, to) {
      JobVia(from, from, to);
    }
    assert JOB_STATUSES[0] == Queued && JOB_STATUSES[1] == JobRunning && JOB_STATUSES[2] == NeedsPermission
      && JOB_STATUSES[3] == JobBlocked && JOB_STATUSES[4] == Completed && JOB_STATUSES[5] == Failed && JOB_STATUSES[6] == JobCanceled;
  }

  function Guarded(from: JobStatus, decided: JobStatus): JobStatus {
    if TerminalJob(from) && !TerminalJob(decided) then from else decided
  }

  function AppliedStatus(a: AdapterJob, d: Decision, hollow: bool): JobStatus {
    if hollow then d.status else Resolved(a.job.status, Guarded(a.job.status, d.status))
  }

  function Projected(a: AdapterJob, snapshot: Snapshot, d: Decision, next: JobStatus): AdapterJob {
    AdapterJob(
      a.job.(status := next, progressSummary := Some(d.progressSummary), recentSteps := d.recentSteps, resultDigest := d.resultDigest,
             evidenceQuality := Some(d.evidenceQuality), statusReasonCode := Some(d.reason),
             blockedReason := if next == JobBlocked || next == Failed
                              then d.blockedReason.Or(snapshot.blockedReason).Or(a.job.blockedReason) else None,
             resumeCondition := if next == JobBlocked || next == NeedsPermission
                                then d.resumeCondition.Or(snapshot.resumeCondition).Or(a.job.resumeCondition) else None),
      Some(snapshot.runId))
  }

  function ApplySnapshot(rules: Rules, a: AdapterJob, snapshot: Snapshot): AdapterJob {
    var d := rules.decide(a, snapshot);
    var hollow := IsHollowCompletedRepair(rules, a, d);
    if TerminalJob(a.job.status) && d.status != a.job.status && !hollow then a
    else Projected(a, snapshot, d, AppliedStatus(a, d, hollow))
  }

  method ApplyRunSnapshotToJob(rules: Rules, a: AdapterJob, snapshot: Snapshot) returns (r: AdapterJob)
    ensures r == ApplySnapshot(rules, a, snapshot)
  {
    var d := rules.decide(a, snapshot);
    var hollow := IsHollowCompletedRepair(rules, a, d);
    if TerminalJob(a.job.status) && d.status != a.job.status && !hollow {
      return a;
    }
    var next := d.status;
    if !hollow {
      next := ResolveNextJobStatus(a.job.status, Guarded(a.job.status, d.status));
    }
    return Projected(a, snapshot, d, next);
  }

  /** The verdict is adopted exactly if the record is not yet terminal and a path leads there, if it changes
      nothing, or if it repairs a hollow completion. */
  lemma VerdictAdoptedExactly(rules: Rules, a: AdapterJob, snapshot: Snapshot)
    ensures var d, s := rules.decide(a, snapshot), a.job.status;
      && ApplySnapshot(rules, a, snapshot).job.status in {s, d.status}
      && (ApplySnapshot(rules, a, snapshot).job.status == d.status <==>
            s == d.status || (!TerminalJob(s) && JobReachable(s, d.status)) || IsHollowCompletedRepair(rules, a, d))
      && JobReachable(s, ApplySnapshot(rules, a, snapshot).job.status)
  {
    var d, s := rules.decide(a, snapshot), a.job.status;
    JobReachableExactly(s, d.status);
    JobReachableExactly(s, s);
  }

  /** The status a merge may not leave. */
  lemma MergeKeepsFinal(rules: Rules, a: AdapterJob, snapshot: Snapshot)
    ensures var r, s := ApplySnapshot(rules, a, snapshot), a.job.status;
      && (s == Failed || s == JobCanceled ==> r.job.status == s)
      && (s == Completed && r.job.status != s ==> r.job.status == JobBlocked && IsHollowCompletedRepair(rules, a, rules.decide(a, snapshot)))
      && r.job.jobId == a.job.jobId && r.job.affairId == a.job.affairId && r.job.goal == a.job.goal && r.job.purpose == a.job.purpose
  {
  }

  /** A completion that shows nothing, found blocked because its run ended without a result. */
  predicate RepairsEmptyCompletion(rules: Rules, job: Job, d: Decision) {
    && job.status == Completed && (!job.evidenceQuality.Some? || job.evidenceQuality.value != Present || rules.lowSignal(job))
    && d.status == JobBlocked && d.reason == TerminalWithoutResult
  }

  function FirstOf(a: Option<Text>, b: Option<Text>, c: Option<Text>): Option<Text> {
    if a.Some? then a else if b.Some? then b else c
  }

  /** One merge, field by field. A record that is over keeps everything unless the verdict confirms its status or repairs an empty
      completion. Otherwise the verdict writes its status, short of a return to the queue, and all that is shown; reasons to
      wait and ways on are kept from verdict, snapshot and record, in this order, where the new status has room for them. */
  lemma MergedExactly(rules: Rules, a: AdapterJob, snapshot: Snapshot)
    ensures var d, r := rules.decide(a, snapshot), ApplySnapshot(rules, a, snapshot);
      if a.job.status in {Completed, Failed, JobCanceled} && d.status != a.job.status && !RepairsEmptyCompletion(rules, a.job, d) then r == a
      else
        var to := if d.status == Queued then a.job.status else d.status;
        && r.runId == Some(snapshot.runId)
        && r.job == a.job.(status := to, progressSummary := Some(d.progressSummary), recentSteps := d.recentSteps, resultDigest := d.resultDigest,
                           evidenceQuality := Some(d.evidenceQuality), statusReasonCode := Some(d.reason),
                           blockedReason := r.job.blockedReason, resumeCondition := r.job.resumeCondition)
        && r.job.blockedReason == (if to in {JobBlocked, Failed} then FirstOf(d.blockedReason, snapshot.blockedReason, a.job.blockedReason) else None)
        && r.job.resumeCondition ==
             (if to in {JobBlocked, NeedsPermission} then FirstOf(d.resumeCondition, snapshot.resumeCondition, a.job.resumeCondition) else None)
  {
  }

  // ----- any stream of snapshots -----

  function Stream(rules: Rules, a: AdapterJob, snapshots: seq<Snapshot>): AdapterJob {
    if snapshots == [] then a
    else ApplySnapshot(rules, Stream(rules, a, snapshots[..|snapshots| - 1]), snapshots[|snapshots| - 1])
  }

  ghost predicate RepairedAt(rules: Rules, a: AdapterJob, snapshots: seq<Snapshot>, m: nat)
    requires m < |snapshots|
  {
    var before := Stream(rules, a, snapshots[..m]);
    IsHollowCompletedRepair(rules, before, rules.decide(before, snapshots[m]))
  }

  /** Whatever the verdicts and whatever is reported: a failed or canceled record stays so for good, a completed
      one stays so until a hollow completion is repaired, and every later status can be reached in the table. */
  lemma {:induction false} StreamKeepsFinal(rules: Rules, a: AdapterJob, snapshots: seq<Snapshot>, i: nat, k: nat)
    requires i <= k <= |snapshots|
    ensures var s, t := StatusAt(rules, a, snapshots, i), StatusAt(rules, a, snapshots, k);
      && (s == Failed || s == JobCanceled ==> t == s)
      && (s == Completed ==> t == s || exists m :: i <= m < k && RepairedAt(rules, a, snapshots, m))
      && JobReachable(s, t)
    decreases k
  {
    hide StatusAt, RepairedAt, JobReachable;
    var s := StatusAt(rules, a, snapshots, i);
    JobReachableExactly(s, s);
    if i < k {
      StreamKeepsFinal(rules, a, snapshots, i, k - 1);
      StreamStep(rules, a, snapshots, k);
      ReachableTwice(s, StatusAt(rules, a, snapshots, k - 1), StatusAt(rules, a, snapshots, k));
    }
  }

  function StatusAt(rules: Rules, a: AdapterJob, snapshots: seq<Snapshot>, k: nat): JobStatus
    requires k <= |snapshots|
  {
    Stream(rules, a, snapshots[..k]).job.status
  }

  lemma StreamStep(rules: Rules, a: AdapterJob, snapshots: seq<Snapshot>, k: nat)
    requires 0 < k <= |snapshots|
    ensures var s, t := StatusAt(rules, a, snapshots, k - 1), StatusAt(rules, a, snapshots, k);
      && (s == Failed || s == JobCanceled ==> t == s)
      && (s == Completed && t != s ==> RepairedAt(rules, a, snapshots, k - 1))
      && JobReachable(s, t)
  {
    var before := Stream(rules, a, snapshots[..k - 1]);
    assert snapshots[..k][..k - 1] == snapshots[..k - 1];
    assert Stream(rules, a, snapshots[..k]) == ApplySnapshot(rules, before, snapshots[k - 1]);
    hide ApplySnapshot, IsHollowCompletedRepair, JobReachable, Stream;
    MergeKeepsFinal(rules, before, snapshots[k - 1]);
    VerdictAdoptedExactly(rules, before, snapshots[k - 1]);
  }

  lemma ReachableTwice(s: JobStatus, t: JobStatus, u: JobStatus)
    requires JobReachable(s, t) && JobReachable(t, u)
    ensures JobReachable(s, u)
  {
    JobReachableExactly(s, t);
    JobReachableExactly(t, u);
    JobReachableExactly(s, u);
  }
}
