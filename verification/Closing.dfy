/** Close commands: their validation, the checks before a close, and the pending-close fence. */
module Closing {
  import opened Option
  import opened JsMap
  import opened Status
  import opened Types
  import opened Store

  predicate NonBlank(s: Option<string>) {
    s.Some? && !Blank(s.value)
  }

  /** `validateAffairClosePayload` */
  predicate ValidCommand(c: CloseCommand) {
    && !Blank(c.affairId)
    && (c.expectedCurrentJobId.Some? ==> NonBlank(c.expectedCurrentJobId))
    && (c.acceptanceSummary.Some? ==> NonBlank(c.acceptanceSummary))
    && (c.closeReason.Some? ==> NonBlank(c.closeReason))
    && (c.status == ToClosed ==> c.acceptanceSummary.Some?)
  }

  predicate IsPendingFor(r: Record, affairId: string) {
    r.command.affairId == affairId && r.phase == Pending
  }

  /** A pending close request fences its affair. */
  predicate IsClosing(b: Backend, affairId: string) {
    exists k :: k in b.actions.data && IsPendingFor(b.actions.data[k], affairId)
  }

  predicate NoClosePending(b: Backend, a: string) {
    forall k :: k in b.actions.data && b.actions.data[k].command.affairId == a ==> b.actions.data[k].phase != Pending
  }

  lemma ClosingExactly(b: Backend, a: string)
    ensures IsClosing(b, a) <==> !NoClosePending(b, a)
  {
    forall k | k in b.actions.data ensures IsPendingFor(b.actions.data[k], a) <==> b.actions.data[k].command.affairId == a && b.actions.data[k].phase == Pending {
    }
  }

  predicate HasAcceptanceEvidence(job: Option<Job>, affairId: string) {
    && job.Some? && job.value.affairId == affairId
    && job.value.status == Completed && job.value.purpose != Some(Exploration)
    && job.value.evidenceQuality == Some(Present) && NonBlank(job.value.resultDigest)
  }

  predicate LiveJobOf(b: Backend, j: string, affairId: string) {
    j in b.jobs.data && b.jobs.data[j].affairId == affairId && !TerminalJob(b.jobs.data[j].status)
  }

  function PrecheckAcceptance(b: Backend, affair: Affair, command: CloseCommand): Option<Code> {
    var job := if Truthy(affair.currentJobId) then Get(b.jobs, affair.currentJobId.value) else None;
    if affair.status != WaitingAcceptance || !NonBlank(command.acceptanceSummary) || !HasAcceptanceEvidence(job, affair.affairId) then
      Some(AffairAcceptanceEvidenceMissing)
    else if exists j :: j in b.jobs.data && LiveJobOf(b, j, affair.affairId) then Some(AffairJobsStillActive)
    else None
  }

  /** `precheckAffairClose`: the business reason to refuse, or nothing. */
  function Precheck(b: Backend, command: CloseCommand): Option<Code> {
    if command.affairId !in b.affairs.data then Some(AffairNotFound)
    else
      var affair := b.affairs.data[command.affairId];
      if affair.currentJobId != command.expectedCurrentJobId then Some(AffairCurrentJobChanged)
      else if TerminalAffair(affair.status) || !CanTransitionAffair(affair.status, command.status.Affair()) then Some(AffairCloseRejected)
      else if command.status == ToCanceled then None
      else PrecheckAcceptance(b, affair, command)
  }

  function OfAffair(jobs: seq<Job>, affairId: string): (r: seq<Job>)
    ensures forall x :: x in r <==> x in jobs && x.affairId == affairId
  {
    if jobs == [] then []
    else (if jobs[0].affairId == affairId then [jobs[0]] else []) + OfAffair(jobs[1..], affairId)
  }

  /** `[...state.jobs.values()].filter((job) => job.affairId === affairId)` */
  function JobsOf(b: Backend, affairId: string): seq<Job> {
    OfAffair(Values(b.jobs), affairId)
  }

  lemma JobsOfMembers(b: Backend, affairId: string)
    requires WellKeyed(b) && WellOrdered(b)
    ensures forall x :: x in JobsOf(b, affairId) <==> x.jobId in b.jobs.data && b.jobs.data[x.jobId] == x && x.affairId == affairId
  {
    forall x ensures x in Values(b.jobs) <==> x.jobId in b.jobs.data && b.jobs.data[x.jobId] == x {
      InValues(b.jobs, x);
    }
  }

  /** Passing the check for acceptance: the current job is a finished, evidenced execution and nothing
      under the affair can still run. */
  predicate Acceptable(b: Backend, affairId: string) {
    && affairId in b.affairs.data && b.affairs.data[affairId].status == WaitingAcceptance
    && b.affairs.data[affairId].currentJobId.Some?
    && HasAcceptanceEvidence(Get(b.jobs, b.affairs.data[affairId].currentJobId.value), affairId)
    && forall j :: j in b.jobs.data && b.jobs.data[j].affairId == affairId ==> TerminalJob(b.jobs.data[j].status)
  }

  lemma PrecheckMeans(b: Backend, c: CloseCommand)
    requires WellKeyed(b) && Precheck(b, c).None?
    ensures c.affairId in b.affairs.data && !AffairEnded(b, c.affairId)
    ensures b.affairs.data[c.affairId].currentJobId == c.expectedCurrentJobId
    ensures c.status == ToClosed ==> Acceptable(b, c.affairId)
  {
    if c.status == ToClosed {
      forall j | j in b.jobs.data && b.jobs.data[j].affairId == c.affairId ensures TerminalJob(b.jobs.data[j].status) {
        assert !LiveJobOf(b, j, c.affairId);
      }
    }
  }

  const EMPTY_BACKEND := Backend(Empty(), Empty(), Empty(), [], [], [], [], Empty(), 0, None)
}
