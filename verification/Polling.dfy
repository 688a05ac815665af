/** Tracking of delegated jobs: one live poll per job, which keeps a result that could not be committed
    until it can. */
module Polling {
  import opened Option
  import opened JsMap
  import opened Status
  import opened Types
  import opened Store
  import opened Coordinator
  import opened Publisher

  /** The fields a user can see change. Step texts are joined with a bar, so different step lists can agree. */
  datatype Fingerprint = Fingerprint(
    status: JobStatus, progress: Option<Text>, blocked: Option<Text>, resume: Option<Text>, reason: Option<Reason>,
    digest: Option<string>, evidence: Option<Evidence>, stepCount: nat, steps: string)

  function StepDigest(steps: seq<RecentStep>): string {
    if steps == [] then ""
    else (if |steps| == 1 then "" else StepDigest(steps[..|steps| - 1]) + "|") + steps[|steps| - 1].kind + ":" + steps[|steps| - 1].text
  }

  function FingerprintOf(job: Job): Fingerprint {
    Fingerprint(job.status, job.progressSummary, job.blockedReason, job.resumeCondition, job.statusReasonCode,
                job.resultDigest, job.evidenceQuality, |job.recentSteps|, StepDigest(job.recentSteps))
  }

  /** A result that is to be committed. `asOf` says how recent it is; the statements below compare it. */
  datatype Publication =
    | FromAdapter(a: AdapterJob, asOf: nat)
    | Failure(job: Job, asOf: nat)
  {
    function Job(): Job {
      if FromAdapter? then a.job else job
    }
  }

  /** The statuses after which polling ends. */
  predicate StopStatus(s: JobStatus) {
    s == JobBlocked || s == Completed || s == Failed || s == JobCanceled
  }

  predicate Stops(pub: Publication) {
    pub.Failure? || StopStatus(pub.a.job.status)
  }

  /** `pid` is the identity of the poll object. */
  datatype Poll = Poll(pid: nat, pending: Option<Publication>, lastFingerprint: Option<Fingerprint>, lastJob: Job, inFlight: bool)

  /** An entry of the shared table: a create call is outstanding, or the job is tracked. */
  datatype Entry = Placeholder | Tracking(poll: Poll)

  /** `attempted` notes, per job, how recent the last publication was that was tried. */
  datatype Polls = Polls(s: System, sent: LastSent, active: map<string, Entry>, nextPid: nat, attempted: map<string, nat>)

  datatype Ports = Ports(accepted: Port, status: Port, affair: Port)

  function CommitJob(s: System, pub: Publication, x: Ports): (System, bool) {
    match pub
    case FromAdapter(a, _) => PublishCreated(s, a, x.accepted, x.status)
    case Failure(job, _) => Publish(s, Failed, job, x.status)
  }

  /** Job first, then the affair's projection; only both together count as committed. */
  function TryCommit(p: Polls, pub: Publication, x: Ports): (Polls, bool) {
    var (s1, applied) := CommitJob(p.s, pub, x);
    var p1 := p.(s := s1, attempted := p.attempted[pub.Job().jobId := pub.asOf]);
    if !applied then (p1, false)
    else
      var (s2, sent, projected) := ProjectToPhone(s1, p.sent, pub.Job().affairId, x.affair);
      (p1.(s := s2, sent := sent), projected)
  }

  function Stop(p: Polls, jobId: string): Polls {
    p.(active := p.active - {jobId})
  }

  function Track(p: Polls, job: Job, pending: Option<Publication>, shown: Option<Fingerprint>): Polls {
    p.(active := p.active[job.jobId := Tracking(Poll(p.nextPid, pending, shown, job, false))], nextPid := p.nextPid + 1)
  }

  function Accept(p: Polls, a: AdapterJob, asOf: nat, x: Ports): (Polls, bool) {
    var pub := FromAdapter(a, asOf);
    var (p1, committed) := TryCommit(p, pub, x);
    var p2 := Stop(p1, a.job.jobId);
    (if !committed then Track(p2, a.job, Some(pub), None)
     else if !StopStatus(a.job.status) then Track(p2, a.job, None, Some(FingerprintOf(a.job)))
     else p2, committed)
  }

  function AcceptFailure(p: Polls, job: Job, asOf: nat, x: Ports): Polls {
    var pub := Failure(job, asOf);
    var (p1, committed) := TryCommit(Stop(p, job.jobId), pub, x);
    if committed then p1 else Track(p1, job, Some(pub), None)
  }

  predicate Live(p: Polls, jobId: string, pid: nat) {
    jobId in p.active && p.active[jobId].Tracking? && p.active[jobId].poll.pid == pid
  }

  function WithPoll(p: Polls, jobId: string, poll: Poll): Polls {
    p.(active := p.active[jobId := Tracking(poll)])
  }

  /** Try the pending publication of a live poll. */
  function Retry(p: Polls, jobId: string, x: Ports): Polls
    requires jobId in p.active && p.active[jobId].Tracking?
  {
    var poll := p.active[jobId].poll;
    if poll.pending.None? then p
    else
      var (p1, committed) := TryCommit(p, poll.pending.value, x);
      if !committed then p1
      else if Stops(poll.pending.value) then Stop(p1, jobId)
      else WithPoll(p1, jobId, poll.(pending := None, lastFingerprint := Some(FingerprintOf(poll.pending.value.Job()))))
  }

  /** A due poll takes its place in the queue once; while it is under way the timer does nothing. */
  function Schedule(p: Polls, jobId: string): (Polls, Option<nat>) {
    if jobId !in p.active || p.active[jobId].Placeholder? || p.active[jobId].poll.inFlight then (p, None)
    else (WithPoll(p, jobId, p.active[jobId].poll.(inFlight := true)), Some(p.active[jobId].poll.pid))
  }

  /** The tick has run its course. */
  function Finish(p: Polls, jobId: string, pid: nat): Polls {
    if Live(p, jobId, pid) then WithPoll(p, jobId, p.active[jobId].poll.(inFlight := false)) else p
  }

  /** First piece of a tick: a stale poll ends, a pending result is tried, otherwise the runtime is read. */
  function TickStart(p: Polls, jobId: string, pid: nat, x: Ports): (Polls, bool) {
    if !Live(p, jobId, pid) then (p, false)
    else if p.active[jobId].poll.pending.Some? then (Finish(Retry(p, jobId, x), jobId, pid), false)
    else (p, true)
  }

  datatype ReadResult = Got(a: AdapterJob) | NotGot(message: string, code: string, retryable: bool)

  function ReadFailure(job: Job, message: string, code: string): Job {
    job.(progressSummary := Some(Given(message)), resultDigest := Some(message), evidenceQuality := Some(Weak),
         blockedReason := Some(Given(message)), resumeCondition := None, statusReasonCode := Some(OtherReason(code)))
  }

  /** Second piece of a tick, with what the runtime answered. */
  function TickResume(p: Polls, jobId: string, pid: nat, r: ReadResult, asOf: nat, x: Ports): Polls {
    if !Live(p, jobId, pid) then p
    else
      var poll := p.active[jobId].poll;
      match r
      case NotGot(message, code, retryable) =>
        if retryable then Finish(p, jobId, pid)
        else Finish(Retry(WithPoll(p, jobId, poll.(pending := Some(Failure(ReadFailure(poll.lastJob, message, code), asOf)))), jobId, x), jobId, pid)
      case Got(a) =>
        var p1 := WithPoll(p, jobId, poll.(lastJob := a.job));
        if Some(FingerprintOf(a.job)) == poll.lastFingerprint then Finish(p1, jobId, pid)
        else Finish(Retry(WithPoll(p1, jobId, p1.active[jobId].poll.(pending := Some(FromAdapter(a, asOf)))), jobId, x), jobId, pid)
  }

  // ----- the mutable table -----

  class JobPolling {
    const publisher: JobStatusPublisher
    var active: map<string, Entry>
    var nextPid: nat
    var attempted: map<string, nat>

    function Value(): Polls
      reads this, publisher, publisher.runtime.actions, publisher.runtime.actions.state, publisher.runtime.actions.gate, publisher.runtime.actions.file
    {
      Polls(publisher.runtime.Value(), publisher.affairLastStatus, active, nextPid, attempted)
    }

    constructor (publisher: JobStatusPublisher)
      ensures this.publisher == publisher && active == map[] && nextPid == 0
    {
      this.publisher, active, nextPid, attempted := publisher, map[], 0, map[];
    }

    method CommitPublication(pub: Publication, x: Ports) returns (committed: bool)
      requires Ordered(publisher.runtime.actions.gate.requests)
      modifies this`attempted, publisher`affairLastStatus, publisher.runtime.actions.state,
               publisher.runtime.actions.gate`queue, publisher.runtime.actions.file`disk
      ensures (Value(), committed) == TryCommit(old(Value()), pub, x)
    {
      attempted := attempted[pub.Job().jobId := pub.asOf];
      match pub {
        case FromAdapter(a, _) => committed := publisher.PublishCreatedJob(a, x.accepted, x.status);
        case Failure(job, _) => committed := publisher.ApplyAndSend(JobEvent(KindOf(Failed), Payload(job, Failed)), x.status);
      }
      if committed {
        committed := publisher.ProjectAffairToPhone(pub.Job().affairId, x.affair);
      }
    }

    method StopTracking(jobId: string)
      modifies this`active
      ensures Value() == Stop(old(Value()), jobId)
    {
      active := active - {jobId};
    }

    method StartTracking(job: Job, pending: Option<Publication>, shown: Option<Fingerprint>)
      modifies this`active, this`nextPid
      ensures Value() == Track(old(Value()), job, pending, shown)
    {
      active := active[job.jobId := Tracking(Poll(nextPid, pending, shown, job, false))];
      nextPid := nextPid + 1;
    }

    method AcceptResult(a: AdapterJob, asOf: nat, x: Ports) returns (committed: bool)
      requires Ordered(publisher.runtime.actions.gate.requests)
      modifies this, publisher`affairLastStatus, publisher.runtime.actions.state,
               publisher.runtime.actions.gate`queue, publisher.runtime.actions.file`disk
      ensures (Value(), committed) == Accept(old(Value()), a, asOf, x)
    {
      var pub := FromAdapter(a, asOf);
      committed := CommitPublication(pub, x);
      StopTracking(a.job.jobId);
      if !committed || !StopStatus(a.job.status) {
        StartTracking(a.job, if committed then None else Some(pub), if committed then Some(FingerprintOf(a.job)) else None);
      }
    }

    method FailJob(job: Job, asOf: nat, x: Ports)
      requires Ordered(publisher.runtime.actions.gate.requests)
      modifies this, publisher`affairLastStatus, publisher.runtime.actions.state,
               publisher.runtime.actions.gate`queue, publisher.runtime.actions.file`disk
      ensures Value() == AcceptFailure(old(Value()), job, asOf, x)
    {
      var pub := Failure(job, asOf);
      StopTracking(job.jobId);
      var committed := CommitPublication(pub, x);
      if !committed {
        StartTracking(job, Some(pub), None);
      }
    }

    method RetryPending(jobId: string, x: Ports)
      requires Ordered(publisher.runtime.actions.gate.requests)
      requires jobId in active && active[jobId].Tracking?
      modifies this, publisher`affairLastStatus, publisher.runtime.actions.state,
               publisher.runtime.actions.gate`queue, publisher.runtime.actions.file`disk
      ensures Value() == Retry(old(Value()), jobId, x)
    {
      var poll := active[jobId].poll;
      if poll.pending.None? {
        return;
      }
      var committed := CommitPublication(poll.pending.value, x);
      if !committed {
        return;
      }
      if Stops(poll.pending.value) {
        StopTracking(jobId);
      } else {
        active := active[jobId := Tracking(poll.(pending := None, lastFingerprint := Some(FingerprintOf(poll.pending.value.Job()))))];
      }
    }

    method ScheduleTick(jobId: string) returns (pid: Option<nat>)
      modifies this`active
      ensures (Value(), pid) == Schedule(old(Value()), jobId)
    {
      if jobId !in active || active[jobId].Placeholder? || active[jobId].poll.inFlight {
        return None;
      }
      var poll := active[jobId].poll;
      active := active[jobId := Tracking(poll.(inFlight := true))];
      pid := Some(poll.pid);
    }

    method FinishTick(jobId: string, pid: nat)
      modifies this`active
      ensures Value() == Finish(old(Value()), jobId, pid)
    {
      if jobId in active && active[jobId].Tracking? && active[jobId].poll.pid == pid {
        active := active[jobId := Tracking(active[jobId].poll.(inFlight := false))];
      }
    }

    method StartTick(jobId: string, pid: nat, x: Ports) returns (reading: bool)
      requires Ordered(publisher.runtime.actions.gate.requests)
      modifies this, publisher`affairLastStatus, publisher.runtime.actions.state,
               publisher.runtime.actions.gate`queue, publisher.runtime.actions.file`disk
      ensures (Value(), reading) == TickStart(old(Value()), jobId, pid, x)
    {
      if !(jobId in active && active[jobId].Tracking? && active[jobId].poll.pid == pid) {
        return false;
      }
      if active[jobId].poll.pending.Some? {
        RetryPending(jobId, x);
        FinishTick(jobId, pid);
        return false;
      }
      return true;
    }

    method ResumeTick(jobId: string, pid: nat, r: ReadResult, asOf: nat, x: Ports)
      requires Ordered(publisher.runtime.actions.gate.requests)
      modifies this, publisher`affairLastStatus, publisher.runtime.actions.state,
               publisher.runtime.actions.gate`queue, publisher.runtime.actions.file`disk
      ensures Value() == TickResume(old(Value()), jobId, pid, r, asOf, x)
    {
      if !(jobId in active && active[jobId].Tracking? && active[jobId].poll.pid == pid) {
        return;
      }
      var poll := active[jobId].poll;
      match r {
        case NotGot(message, code, retryable) =>
          if !retryable {
            active := active[jobId := Tracking(poll.(pending := Some(Failure(ReadFailure(poll.lastJob, message, code), asOf))))];
            RetryPending(jobId, x);
          }
        case Got(a) =>
          poll := poll.(lastJob := a.job);
          active := active[jobId := Tracking(poll)];
          if Some(FingerprintOf(a.job)) != poll.lastFingerprint {
            active := active[jobId := Tracking(poll.(pending := Some(FromAdapter(a, asOf))))];
            RetryPending(jobId, x);
          }
      }
      FinishTick(jobId, pid);
    }
  }
}
