/** How an executor's record is published to the backend: its status may be several steps ahead of the
    registered one, and every single step must be an edge of the job table. */
module Publisher {
  import opened Option
  import opened JsMap
  import opened Status
  import opened Types
  import opened Store
  import opened Closing
  import opened Coordinator
  import opened Authority
  import opened Actions
  import opened Runtime

  /** The executor's record of a job. `runId` is its identity at the runtime. Texts count as redacted. */
  datatype AdapterJob = AdapterJob(job: Job, runId: Option<string>)

  /** What the outside decides about one message: its fresh id, the time, whether its payload validates,
      whether the save after it succeeds and whether handing it to the phone throws. */
  datatype Port = Port(id: string, now: int, valid: bool, saved: bool, sent: bool)

  function KindOf(status: JobStatus): JobEventKind {
    match status
    case Queued => JobProgress
    case JobRunning => JobProgress
    case Completed => JobCompletedEvent
    case JobBlocked => JobBlockedEvent
    case Failed => JobFailedEvent
    case JobCanceled => JobCanceledEvent
    case NeedsPermission => JobNeedsPermissionEvent
  }

  /** `toJobPayload` */
  function Payload(job: Job, status: JobStatus): Job {
    job.(status := status, purpose := Some(job.purpose.GetOr(Execution)), evidenceQuality := Some(job.evidenceQuality.GetOr(Missing)),
         taskIntentId := None)
  }

  function AcceptedView(job: Job): Job {
    job.(progressSummary := Some(AcceptedByRuntime), resultDigest := None, evidenceQuality := Some(Missing))
  }

  /** Committed means accepted by the store, saved, and handed on without an exception. */
  function Send(s: System, body: Body, p: Port): (System, bool)
    requires !body.ReadReceipt?
  {
    var (s', d) := Deliver(s, Envelope(p.id, false, p.valid, body), p.now, p.saved);
    (s', d.Answered? && d.result.Ok() && p.sent)
  }

  function Publish(s: System, status: JobStatus, job: Job, p: Port): (System, bool) {
    Send(s, JobEvent(KindOf(status), Payload(job, status)), p)
  }

  predicate NeedsAcceptance(previous: Option<Job>, status: JobStatus) {
    && previous.Some? && (previous.value.status == NeedsPermission || previous.value.status == Queued)
    && (status == Queued || status == JobRunning || status == Completed)
  }

  function PublishCreated(s: System, a: AdapterJob, p: Port, q: Port): (System, bool) {
    var previous := Get(s.live.jobs, a.job.jobId);
    if NeedsAcceptance(previous, a.job.status) then
      if !Truthy(a.runId) then (s, false)
      else
        var (s1, accepted) := Send(s, JobEvent(JobAccepted, Payload(AcceptedView(a.job), JobRunning)), p);
        if !accepted then (s1, false)
        else if a.job.status == Queued || a.job.status == JobRunning then (s1, true)
        else Publish(s1, a.job.status, a.job, q)
    else if a.job.status == Queued && previous.Some? && previous.value.status == JobRunning then (s, true)
    else Publish(s, a.job.status, a.job, q)
  }

  /** The statuses of affairs as last sent to the phone. */
  type LastSent = map<string, AffairStatus>

  function ProjectToPhone(s: System, sent: LastSent, affairId: string, p: Port): (System, LastSent, bool) {
    if affairId !in s.live.affairs.data then (s, sent, true)
    else
      var affair := s.live.affairs.data[affairId];
      if affairId in sent && sent[affairId] == affair.status then (s, sent, true)
      else
        var (s', ok) := Send(s, AffairEvent(AffairUpdate, affair), p);
        if ok then (s', sent[affairId := affair.status], true) else (s', sent, false)
  }

  class JobStatusPublisher {
    const runtime: CompanionRuntime
    var affairLastStatus: LastSent

    constructor (runtime: CompanionRuntime)
      ensures this.runtime == runtime && affairLastStatus == map[]
    {
      this.runtime, affairLastStatus := runtime, map[];
    }

    /** `apply`: an exception of the store's save or of the phone link reads as not committed. */
    method ApplyAndSend(body: Body, p: Port) returns (committed: bool)
      requires !body.ReadReceipt? && Ordered(runtime.actions.gate.requests)
      modifies runtime.actions.state, runtime.actions.gate`queue, runtime.actions.file`disk
      ensures (runtime.Value(), committed) == Send(old(runtime.Value()), body, p)
    {
      var applied := runtime.ApplyProtocolEnvelope(Envelope(p.id, false, p.valid, body), p.now, p.saved);
      committed := applied.Answered? && applied.result.Ok() && p.sent;
    }

    method PublishCreatedJob(a: AdapterJob, p: Port, q: Port) returns (committed: bool)
      requires Ordered(runtime.actions.gate.requests)
      modifies runtime.actions.state, runtime.actions.gate`queue, runtime.actions.file`disk
      ensures (runtime.Value(), committed) == PublishCreated(old(runtime.Value()), a, p, q)
    {
      var previous := Get(runtime.actions.state.jobs, a.job.jobId);
      if NeedsAcceptance(previous, a.job.status) {
        if !Truthy(a.runId) {
          return false;
        }
        var accepted := ApplyAndSend(JobEvent(JobAccepted, Payload(AcceptedView(a.job), JobRunning)), p);
        if !accepted {
          return false;
        }
        if a.job.status == Queued || a.job.status == JobRunning {
          return true;
        }
      } else if a.job.status == Queued && previous.Some? && previous.value.status == JobRunning {
        return true;
      }
      committed := ApplyAndSend(JobEvent(KindOf(a.job.status), Payload(a.job, a.job.status)), q);
    }

    method ProjectAffairToPhone(affairId: string, p: Port) returns (committed: bool)
      requires Ordered(runtime.actions.gate.requests)
      modifies this`affairLastStatus, runtime.actions.state, runtime.actions.gate`queue, runtime.actions.file`disk
      ensures (runtime.Value(), affairLastStatus, committed) == ProjectToPhone(old(runtime.Value()), old(affairLastStatus), affairId, p)
    {
      if affairId !in runtime.actions.state.affairs.data {
        return true;
      }
      var affair := runtime.actions.state.affairs.data[affairId];
      if affairId in affairLastStatus && affairLastStatus[affairId] == affair.status {
        return true;
      }
      committed := ApplyAndSend(AffairEvent(AffairUpdate, affair), p);
      if committed {
        affairLastStatus := affairLastStatus[affairId := affair.status];
      }
    }
  }

  // ----- what publishing guarantees -----

  /** Where publishing a record is meant to end. */
  function Target(status: JobStatus): JobStatus {
    if status == Queued then JobRunning else status
  }

  predicate GoodPort(b: Backend, p: Port) {
    p.valid && p.saved && p.sent && p.id !in b.seen.data
  }

  /** The job is registered under the record's affair, which has not ended, and waits or runs. */
  predicate Publishable(b: Backend, a: AdapterJob) {
    && a.job.jobId != "" && a.job.affairId != "" && a.job.jobId in b.jobs.data
    && !AffairEnded(b, a.job.affairId)
  }

  function StatusOf(b: Backend, j: string): JobStatus
    requires j in b.jobs.data
  {
    b.jobs.data[j].status
  }

  /** One job message about a registered job of a live affair, at the store. */
  ghost predicate Moves(b: Backend, b': Backend, kind: JobEventKind, job: Job, id: string, ok: bool)
    requires job.jobId in b.jobs.data
  {
    && WellKeyed(b') && job.jobId in b'.jobs.data && !AffairEnded(b', job.affairId)
    && (b'.jobs.data[job.jobId] == b.jobs.data[job.jobId]
        || (&& b'.jobs.data[job.jobId] == MergeJob(job, Some(b.jobs.data[job.jobId]))
            && job.status in StatusesOf(kind) && CanTransitionJob(StatusOf(b, job.jobId), job.status)))
    && (StatusOf(b', job.jobId) == StatusOf(b, job.jobId) || StatusOf(b', job.jobId) == job.status)
    && (id !in b.seen.data && ok ==> StatusOf(b', job.jobId) == job.status
                                     && b'.jobs.data[job.jobId] == MergeJob(job, Some(b.jobs.data[job.jobId])))
    && (forall m :: m in b'.seen.data ==> m in b.seen.data || m == id)
  }

  lemma MessageMoves(b: Backend, kind: JobEventKind, job: Job, p: Port)
    requires WellKeyed(b) && job.jobId in b.jobs.data && !AffairEnded(b, job.affairId)
    ensures var (b', r) := Apply(b, Envelope(p.id, false, p.valid, JobEvent(kind, job)), p.now);
      && Moves(b, b', kind, job, p.id, r.Ok())
      && (p.valid && p.id !in b.seen.data && job.jobId != "" && job.affairId != "" && job.status in StatusesOf(kind)
          && CanTransitionJob(StatusOf(b, job.jobId), job.status)
         ==> r.Ok())
  {
    var e := Envelope(p.id, false, p.valid, JobEvent(kind, job));
    ApplyIsLawful(b, e, p.now);
    LawfulKeepsEndings(b, Apply(b, e, p.now).0, job.affairId);
    JobAfterMessage(b, e, p.now, job.jobId);
    hide Lawful;
  }

  lemma SendIsMessage(s: System, kind: JobEventKind, job: Job, p: Port)
    ensures var (s', ok) := Send(s, JobEvent(kind, job), p);
      var (b', r) := Apply(s.live, Envelope(p.id, false, p.valid, JobEvent(kind, job)), p.now);
      && s'.live == b'.(lastError := s'.live.lastError) && (ok <==> r.Ok() && p.saved && p.sent)
  {
    hide Apply;
  }

  lemma SendMoves(s: System, kind: JobEventKind, job: Job, p: Port)
    requires WellKeyed(s.live) && job.jobId in s.live.jobs.data && !AffairEnded(s.live, job.affairId)
    ensures var (s', ok) := Send(s, JobEvent(kind, job), p);
      && Moves(s.live, s'.live, kind, job, p.id, ok)
      && (GoodPort(s.live, p) && job.jobId != "" && job.affairId != "" && job.status in StatusesOf(kind)
          && CanTransitionJob(StatusOf(s.live, job.jobId), job.status)
         ==> ok)
  {
    MessageMoves(s.live, kind, job, p);
    SendIsMessage(s, kind, job, p);
    hide Apply, Send;
  }

  lemma KindFits(status: JobStatus)
    ensures status in StatusesOf(KindOf(status))
    ensures JobRunning in StatusesOf(JobAccepted)
  {
  }

  /** Legal bridging: from one status to another by at most two edges of the job table, the middle being `running`. */
  predicate Bridges(from: JobStatus, to: JobStatus) {
    CanTransitionJob(from, to) || (JobEdge(from, JobRunning) && JobEdge(JobRunning, to))
  }

  /** Publishing, with any faults on the way. The job's status moves only along edges, through `running` if
      at all, towards the record's status; success means it arrived; and without faults it succeeds. */
  lemma PublishCreatedBridges(s: System, a: AdapterJob, p: Port, q: Port)
    requires WellKeyed(s.live) && Publishable(s.live, a) && p.id !in s.live.seen.data && q.id !in s.live.seen.data && p.id != q.id
    requires StatusOf(s.live, a.job.jobId) == NeedsPermission || StatusOf(s.live, a.job.jobId) == JobRunning
    ensures var (s', ok) := PublishCreated(s, a, p, q);
      var from, to := StatusOf(s.live, a.job.jobId), Target(a.job.status);
      && WellKeyed(s'.live) && Publishable(s'.live, a)
      && (var st := StatusOf(s'.live, a.job.jobId);
          && (st == from || st == JobRunning || st == to) && Bridges(from, st)
          && (ok ==> st == to))
      && (GoodPort(s.live, p) && GoodPort(s.live, q) && Truthy(a.runId) ==> ok)
      && (forall m :: m in s'.live.seen.data ==> m in s.live.seen.data || m == p.id || m == q.id)
  {
    if NeedsAcceptance(Some(s.live.jobs.data[a.job.jobId]), a.job.status) {
      AcceptedBridges(s, a, p, q);
    } else {
      DirectBridges(s, a, p, q);
    }
    hide PublishCreated, WellKeyed, AffairEnded, Bridges;
  }

  /** What publishing a record leaves, and when it succeeds. */
  ghost predicate Bridged(s: System, a: AdapterJob, p: Port, q: Port, s': System, ok: bool)
    requires a.job.jobId in s.live.jobs.data
  {
    var from, to := StatusOf(s.live, a.job.jobId), Target(a.job.status);
    && WellKeyed(s'.live) && Publishable(s'.live, a)
    && (var st := StatusOf(s'.live, a.job.jobId);
        && (st == from || st == JobRunning || st == to) && Bridges(from, st)
        && (ok ==> st == to))
    && (GoodPort(s.live, p) && GoodPort(s.live, q) && Truthy(a.runId) ==> ok)
    && (forall m :: m in s'.live.seen.data ==> m in s.live.seen.data || m == p.id || m == q.id)
  }

  lemma DirectBridges(s: System, a: AdapterJob, p: Port, q: Port)
    requires WellKeyed(s.live) && Publishable(s.live, a) && q.id !in s.live.seen.data
    requires StatusOf(s.live, a.job.jobId) == NeedsPermission || StatusOf(s.live, a.job.jobId) == JobRunning
    requires !NeedsAcceptance(Some(s.live.jobs.data[a.job.jobId]), a.job.status)
    ensures Bridged(s, a, p, q, PublishCreated(s, a, p, q).0, PublishCreated(s, a, p, q).1)
  {
    hide Send, MergeJob, WellKeyed, AffairEnded, StatusesOf;
    KindFits(a.job.status);
    if a.job.status != Queued {
      SendMoves(s, KindOf(a.job.status), Payload(a.job, a.job.status), q);
    }
  }

  lemma AcceptedBridges(s: System, a: AdapterJob, p: Port, q: Port)
    requires WellKeyed(s.live) && Publishable(s.live, a) && p.id !in s.live.seen.data && q.id !in s.live.seen.data && p.id != q.id
    requires StatusOf(s.live, a.job.jobId) == NeedsPermission || StatusOf(s.live, a.job.jobId) == JobRunning
    requires NeedsAcceptance(Some(s.live.jobs.data[a.job.jobId]), a.job.status)
    ensures Bridged(s, a, p, q, PublishCreated(s, a, p, q).0, PublishCreated(s, a, p, q).1)
  {
    hide Send, MergeJob, WellKeyed, AffairEnded, StatusesOf;
    KindFits(a.job.status);
    if Truthy(a.runId) {
      SendMoves(s, JobAccepted, Payload(AcceptedView(a.job), JobRunning), p);
      var (s1, accepted) := Send(s, JobEvent(JobAccepted, Payload(AcceptedView(a.job), JobRunning)), p);
      if accepted && a.job.status == Completed {
        SendMoves(s1, KindOf(a.job.status), Payload(a.job, a.job.status), q);
      }
    }
  }

  /** Publishing again after any first attempt, with the faults gone, arrives at the record's status. */
  lemma RepeatingArrives(s: System, a: AdapterJob, p: Port, q: Port, p2: Port, q2: Port)
    requires WellKeyed(s.live) && Publishable(s.live, a) && p.id !in s.live.seen.data && q.id !in s.live.seen.data && p.id != q.id
    requires StatusOf(s.live, a.job.jobId) == NeedsPermission || StatusOf(s.live, a.job.jobId) == JobRunning
    requires Truthy(a.runId) && p2.id != q2.id
    requires GoodPort(PublishCreated(s, a, p, q).0.live, p2) && GoodPort(PublishCreated(s, a, p, q).0.live, q2)
    ensures var (s'', ok) := PublishCreated(PublishCreated(s, a, p, q).0, a, p2, q2);
      ok && a.job.jobId in s''.live.jobs.data && StatusOf(s''.live, a.job.jobId) == Target(a.job.status)
  {
    hide Send, WellKeyed, AffairEnded, MergeJob;
    PublishCreatedBridges(s, a, p, q);
    var s' := PublishCreated(s, a, p, q).0;
    hide PublishCreated;
    var st := StatusOf(s'.live, a.job.jobId);
    if st == NeedsPermission || st == JobRunning {
      PublishCreatedBridges(s', a, p2, q2);
    } else {
      AlreadyThere(s', a, p2, q2);
    }
  }

  lemma AlreadyThere(s: System, a: AdapterJob, p: Port, q: Port)
    requires WellKeyed(s.live) && Publishable(s.live, a) && GoodPort(s.live, q)
    requires StatusOf(s.live, a.job.jobId) == Target(a.job.status) != NeedsPermission && a.job.status != Queued
    ensures var (s', ok) := PublishCreated(s, a, p, q);
      && ok && a.job.jobId in s'.live.jobs.data && StatusOf(s'.live, a.job.jobId) == Target(a.job.status)
      && s'.live.jobs.data[a.job.jobId] == MergeJob(Payload(a.job, a.job.status), Some(s.live.jobs.data[a.job.jobId]))
  {
    hide Send, WellKeyed, AffairEnded;
    KindFits(a.job.status);
    SendMoves(s, KindOf(a.job.status), Payload(a.job, a.job.status), q);
  }

  /** The record as the store merges it: the executor's own view, or the view written on acceptance. */
  function OwnRecord(a: AdapterJob, before: Job): Job {
    MergeJob(Payload(a.job, Target(a.job.status)), Some(before))
  }

  function AcceptedRecord(a: AdapterJob, before: Job): Job {
    MergeJob(Payload(AcceptedView(a.job), JobRunning), Some(before))
  }

  lemma MergeTwice(a: AdapterJob, before: Job)
    ensures OwnRecord(a, AcceptedRecord(a, before)) == OwnRecord(a, before)
    ensures OwnRecord(a, OwnRecord(a, before)) == OwnRecord(a, before)
  {
  }

  /** What one attempt, with any faults, leaves as the job's record. */
  lemma PublishCreatedRecord(s: System, a: AdapterJob, p: Port, q: Port)
    requires WellKeyed(s.live) && Publishable(s.live, a) && p.id !in s.live.seen.data && q.id !in s.live.seen.data && p.id != q.id
    requires StatusOf(s.live, a.job.jobId) == NeedsPermission || StatusOf(s.live, a.job.jobId) == JobRunning
    ensures var (s', ok) := PublishCreated(s, a, p, q);
      var before := s.live.jobs.data[a.job.jobId];
      && a.job.jobId in s'.live.jobs.data
      && (var after := s'.live.jobs.data[a.job.jobId];
          if NeedsAcceptance(Some(before), a.job.status) then
            if a.job.status == Completed
            then (after == before || after == AcceptedRecord(a, before) || after == OwnRecord(a, before)) && (ok ==> after == OwnRecord(a, before))
            else (after == before || after == AcceptedRecord(a, before)) && (ok ==> after == AcceptedRecord(a, before))
          else if a.job.status == Queued then after == before
          else (after == before || after == OwnRecord(a, before)) && (ok ==> after == OwnRecord(a, before)))
  {
    hide Send, WellKeyed, AffairEnded, MergeJob, StatusesOf;
    MergeTwice(a, s.live.jobs.data[a.job.jobId]);
    var previous := s.live.jobs.data[a.job.jobId];
    if NeedsAcceptance(Some(previous), a.job.status) {
      if Truthy(a.runId) {
        SendMoves(s, JobAccepted, Payload(AcceptedView(a.job), JobRunning), p);
        var (s1, accepted) := Send(s, JobEvent(JobAccepted, Payload(AcceptedView(a.job), JobRunning)), p);
        if accepted && a.job.status == Completed {
          SendMoves(s1, KindOf(a.job.status), Payload(a.job, a.job.status), q);
        }
      }
    } else if !(a.job.status == Queued && previous.status == JobRunning) {
      SendMoves(s, KindOf(a.job.status), Payload(a.job, a.job.status), q);
    }
  }

  /** Repeating after a fault leaves the very record that one clean attempt would leave, except that after the
      acceptance of a `running` record was stored the repetition writes the executor's own view. */
  lemma RepeatingGivesTheSameRecord(s: System, a: AdapterJob, p: Port, q: Port, p2: Port, q2: Port, g: Port, h: Port)
    requires WellKeyed(s.live) && Publishable(s.live, a) && p.id !in s.live.seen.data && q.id !in s.live.seen.data && p.id != q.id
    requires StatusOf(s.live, a.job.jobId) == NeedsPermission || StatusOf(s.live, a.job.jobId) == JobRunning
    requires Truthy(a.runId) && p2.id != q2.id && GoodPort(s.live, g) && GoodPort(s.live, h) && g.id != h.id
    requires GoodPort(PublishCreated(s, a, p, q).0.live, p2) && GoodPort(PublishCreated(s, a, p, q).0.live, q2)
    ensures var j, before := a.job.jobId, s.live.jobs.data[a.job.jobId];
      var first := PublishCreated(s, a, p, q).0;
      var again, clean := PublishCreated(first, a, p2, q2).0, PublishCreated(s, a, g, h).0;
      && j in first.live.jobs.data && j in again.live.jobs.data && j in clean.live.jobs.data
      && again.live.jobs.data[j] ==
           if a.job.status == JobRunning && before.status == NeedsPermission && StatusOf(first.live, j) == JobRunning
           then OwnRecord(a, before) else clean.live.jobs.data[j]
  {
    hide Send, WellKeyed, AffairEnded, MergeJob, PublishCreated, OwnRecord, AcceptedRecord, Bridges;
    var before := s.live.jobs.data[a.job.jobId];
    var first := PublishCreated(s, a, p, q).0;
    StatusOfRecords(a, before);
    MergeTwice(a, before);
    PublishCreatedBridges(s, a, p, q);
    PublishCreatedRecord(s, a, p, q);
    PublishCreatedBridges(s, a, g, h);
    PublishCreatedRecord(s, a, g, h);
    var st := StatusOf(first.live, a.job.jobId);
    if st == NeedsPermission || st == JobRunning {
      PublishCreatedBridges(first, a, p2, q2);
      PublishCreatedRecord(first, a, p2, q2);
    } else {
      AlreadyThere(first, a, p2, q2);
      OwnRecordIs(a, first.live.jobs.data[a.job.jobId]);
    }
  }

  lemma StatusOfRecords(a: AdapterJob, before: Job)
    ensures OwnRecord(a, before).status == Target(a.job.status) && AcceptedRecord(a, before).status == JobRunning
  {
  }

  lemma OwnRecordIs(a: AdapterJob, before: Job)
    ensures a.job.status != Queued ==> OwnRecord(a, before) == MergeJob(Payload(a.job, a.job.status), Some(before))
  {
  }

  /** The record already looks as acceptance by the runtime would show it. */
  predicate LooksAccepted(a: AdapterJob) {
    a.job.progressSummary == Some(AcceptedByRuntime) && a.job.resultDigest == None && a.job.evidenceQuality.GetOr(Missing) == Missing
  }

  lemma ViewsAgreeExactly(a: AdapterJob, before: Job)
    requires a.job.status == JobRunning
    ensures OwnRecord(a, before) == AcceptedRecord(a, before) <==> LooksAccepted(a)
  {
  }

  /** A first attempt stores the acceptance of a running record exactly if its message is valid, whether or not the
      save and the sending that follow succeed. */
  lemma AcceptanceStoredExactly(s: System, a: AdapterJob, p: Port, q: Port)
    requires WellKeyed(s.live) && Publishable(s.live, a) && p.id !in s.live.seen.data && Truthy(a.runId)
    requires a.job.status == JobRunning && StatusOf(s.live, a.job.jobId) == NeedsPermission
    ensures a.job.jobId in PublishCreated(s, a, p, q).0.live.jobs.data
    ensures StatusOf(PublishCreated(s, a, p, q).0.live, a.job.jobId) == JobRunning <==> p.valid
  {
    var job := Payload(AcceptedView(a.job), JobRunning);
    KindFits(JobRunning);
    MessageMoves(s.live, JobAccepted, job, p);
    SendIsMessage(s, JobAccepted, job, p);
    if !p.valid {
      InvalidWritesNothing(s.live, Envelope(p.id, false, p.valid, JobEvent(JobAccepted, job)), p.now);
    }
    hide Send, Apply, WellKeyed, AffairEnded, MergeJob;
  }

  lemma InvalidWritesNothing(b: Backend, e: Envelope, now: int)
    requires !e.valid
    ensures Apply(b, e, now).0.jobs == b.jobs
  {
  }

  /** When the two differ: repeating a publication after a first attempt leaves another record than one clean attempt
      exactly if the record says running, the job was waiting for permission, the first attempt's acceptance message
      was valid, and the record does not look as acceptance shows it anyway. */
  lemma RepetitionDiffersExactly(s: System, a: AdapterJob, p: Port, q: Port, p2: Port, q2: Port, g: Port, h: Port)
    requires WellKeyed(s.live) && Publishable(s.live, a) && p.id !in s.live.seen.data && q.id !in s.live.seen.data && p.id != q.id
    requires StatusOf(s.live, a.job.jobId) == NeedsPermission || StatusOf(s.live, a.job.jobId) == JobRunning
    requires Truthy(a.runId) && p2.id != q2.id && GoodPort(s.live, g) && GoodPort(s.live, h) && g.id != h.id
    requires GoodPort(PublishCreated(s, a, p, q).0.live, p2) && GoodPort(PublishCreated(s, a, p, q).0.live, q2)
    ensures Get(PublishCreated(PublishCreated(s, a, p, q).0, a, p2, q2).0.live.jobs, a.job.jobId) != Get(PublishCreated(s, a, g, h).0.live.jobs, a.job.jobId)
      <==> a.job.status == JobRunning && StatusOf(s.live, a.job.jobId) == NeedsPermission && p.valid && !LooksAccepted(a)
  {
    hide PublishCreated, OwnRecord, AcceptedRecord, WellKeyed, AffairEnded, GoodPort;
    RepeatingGivesTheSameRecord(s, a, p, q, p2, q2, g, h);
    if a.job.status == JobRunning && StatusOf(s.live, a.job.jobId) == NeedsPermission {
      var before := s.live.jobs.data[a.job.jobId];
      AcceptanceStoredExactly(s, a, p, q);
      ViewsAgreeExactly(a, before);
      CleanAcceptance(s, a, g, h);
    }
  }

  lemma CleanAcceptance(s: System, a: AdapterJob, g: Port, h: Port)
    requires WellKeyed(s.live) && Publishable(s.live, a) && GoodPort(s.live, g) && GoodPort(s.live, h) && g.id != h.id && Truthy(a.runId)
    requires a.job.status == JobRunning && StatusOf(s.live, a.job.jobId) == NeedsPermission
    ensures a.job.jobId in PublishCreated(s, a, g, h).0.live.jobs.data
    ensures PublishCreated(s, a, g, h).0.live.jobs.data[a.job.jobId] == AcceptedRecord(a, s.live.jobs.data[a.job.jobId])
  {
    hide PublishCreated, OwnRecord, AcceptedRecord, WellKeyed, AffairEnded, Bridges;
    PublishCreatedBridges(s, a, g, h);
    PublishCreatedRecord(s, a, g, h);
  }
}
