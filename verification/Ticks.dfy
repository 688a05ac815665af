/** What a tick does with what it reads, what becomes of a result that is handed over, and what a commit has sent. */
module Ticks {
  import opened Option
  import opened JsMap
  import opened Status
  import opened Types
  import opened Store
  import opened Coordinator
  import opened Publisher
  import opened Polling
  import opened AtMostOnce
  import opened Looks

  // ----- what a tick does -----

  /** The failure that a read reports: its message is all there is to show. */
  function FailedRead(last: Job, message: string, code: string): Job {
    last.(progressSummary := Some(Given(message)), blockedReason := Some(Given(message)), resultDigest := Some(message),
          evidenceQuality := Some(Weak), resumeCondition := None, statusReasonCode := Some(OtherReason(code)))
  }

  predicate IsLive(p: Polls, jobId: string, pid: nat) {
    jobId in p.active && p.active[jobId].Tracking? && p.active[jobId].poll.pid == pid
  }

  predicate Ends(pub: Publication) {
    pub.Failure? || pub.a.job.status in {JobBlocked, Completed, Failed, JobCanceled}
  }

  function Seen(shown: Option<Job>): Option<Fingerprint> {
    if shown.Some? then Some(FingerprintOf(shown.value)) else None
  }

  /** After a result was tried: committed, the poll is gone if the result ends it, and otherwise goes on with the result as what is
      shown; not committed, the poll holds it. */
  predicate TriedIn(p: Polls, p': Polls, jobId: string, poll: Poll, pub: Publication, x: Ports) {
    var (p1, committed) := TryCommit(p, pub, x);
    && p'.s == p1.s && p'.sent == p1.sent && p'.attempted == p.attempted[pub.Job().jobId := pub.asOf] && p'.nextPid == p.nextPid
    && p'.active ==
         if committed && Ends(pub) then p.active - {jobId}
         else if committed
         then p.active[jobId := Tracking(poll.(pending := None, lastFingerprint := Some(FingerprintOf(pub.Job())), inFlight := false))]
         else p.active[jobId := Tracking(poll.(pending := Some(pub), inFlight := false))]
  }

  lemma CommitIgnoresTable(p: Polls, active: map<string, Entry>, pub: Publication, x: Ports)
    ensures var (p1, ok) := TryCommit(p, pub, x); TryCommit(p.(active := active), pub, x) == (p1.(active := active), ok)
    ensures TryCommit(p, pub, x).0.attempted == p.attempted[pub.Job().jobId := pub.asOf]
    ensures TryCommit(p, pub, x).0.active == p.active && TryCommit(p, pub, x).0.nextPid == p.nextPid
  {
    hide CommitJob, ProjectToPhone;
  }

  /** The table after a publication of the live poll was tried, whatever stood there before. */
  lemma RetriedExactly(p: Polls, jobId: string, poll: Poll, pub: Publication, x: Ports)
    requires poll.pending == Some(pub)
    ensures TriedIn(p, Finish(Retry(WithPoll(p, jobId, poll), jobId, x), jobId, poll.pid), jobId, poll, pub, x)
  {
    CommitIgnoresTable(p, p.active[jobId := Tracking(poll)], pub, x);
    var (p1, ok) := TryCommit(p, pub, x);
    hide TryCommit, FingerprintOf;
    var p2 := Finish(Retry(WithPoll(p, jobId, poll), jobId, x), jobId, poll.pid);
    if ok && Ends(pub) {
      assert p.active[jobId := Tracking(poll)] - {jobId} == p.active - {jobId};
    } else {
      assert p2.active == p.active[jobId := p2.active[jobId]];
    }
  }

  /** A tick, exactly. If its poll is no longer the job's it does nothing. A poll that holds a result tries it and reads nothing.
      What is read is tried exactly if it looks different from what is shown (provided that no shown step spells another), or
      nothing is shown yet; a passing failure to read is not; a lasting one is tried as the job's failure. Either way the poll
      is free for the next tick. */
  lemma TickDoesExactly(p: Polls, jobId: string, pid: nat, r: ReadResult, asOf: nat, x: Ports, shown: Option<Job>, kinds: set<string>)
    requires Words(kinds) && (r.Got? ==> OfKinds(r.a.job.recentSteps, kinds))
    requires shown.Some? ==> OfKinds(shown.value.recentSteps, kinds) && !Ambiguous(shown.value.recentSteps, kinds)
    requires IsLive(p, jobId, pid) ==> p.active[jobId].poll.lastFingerprint == Seen(shown)
    ensures !IsLive(p, jobId, pid) ==> TickStart(p, jobId, pid, x) == (p, false) && TickResume(p, jobId, pid, r, asOf, x) == p
    ensures IsLive(p, jobId, pid) ==>
      var poll := p.active[jobId].poll;
      var (started, reading) := TickStart(p, jobId, pid, x);
      && (reading <==> poll.pending.None?)
      && (if reading then started == p else TriedIn(p, started, jobId, poll, poll.pending.value, x))
    ensures IsLive(p, jobId, pid) && p.active[jobId].poll.pending.None? ==>
      var poll, p' := p.active[jobId].poll, TickResume(p, jobId, pid, r, asOf, x);
      match r
      case Got(a) =>
        if shown.Some? && LooksSame(shown.value, a.job)
        then p' == p.(active := p.active[jobId := Tracking(poll.(lastJob := a.job, inFlight := false))])
        else TriedIn(p, p', jobId, poll.(lastJob := a.job), FromAdapter(a, asOf), x)
      case NotGot(message, code, retryable) =>
        if retryable then p' == p.(active := p.active[jobId := Tracking(poll.(inFlight := false))])
        else TriedIn(p, p', jobId, poll, Failure(FailedRead(poll.lastJob, message, code), asOf), x)
  {
    if IsLive(p, jobId, pid) {
      var poll := p.active[jobId].poll;
      if poll.pending.Some? {
        assert WithPoll(p, jobId, poll) == p by { assert p.active[jobId := Tracking(poll)] == p.active; }
        RetriedExactly(p, jobId, poll, poll.pending.value, x);
      } else {
        TickReadExactly(p, jobId, poll, r, asOf, x, shown, kinds);
      }
    }
    hide TriedIn, TickResume, Retry, Finish, LooksSame, FingerprintOf;
  }

  lemma TickReadExactly(p: Polls, jobId: string, poll: Poll, r: ReadResult, asOf: nat, x: Ports, shown: Option<Job>, kinds: set<string>)
    requires Words(kinds) && (r.Got? ==> OfKinds(r.a.job.recentSteps, kinds))
    requires shown.Some? ==> OfKinds(shown.value.recentSteps, kinds) && !Ambiguous(shown.value.recentSteps, kinds)
    requires IsLive(p, jobId, poll.pid) && p.active[jobId].poll == poll && poll.pending.None?
    requires poll.lastFingerprint == Seen(shown)
    ensures var p' := TickResume(p, jobId, poll.pid, r, asOf, x);
      match r
      case Got(a) =>
        if shown.Some? && LooksSame(shown.value, a.job)
        then p' == p.(active := p.active[jobId := Tracking(poll.(lastJob := a.job, inFlight := false))])
        else TriedIn(p, p', jobId, poll.(lastJob := a.job), FromAdapter(a, asOf), x)
      case NotGot(message, code, retryable) =>
        if retryable then p' == p.(active := p.active[jobId := Tracking(poll.(inFlight := false))])
        else TriedIn(p, p', jobId, poll, Failure(FailedRead(poll.lastJob, message, code), asOf), x)
  {
    hide TriedIn, FingerprintOf, LooksSame, Retry, Ambiguous, OfKinds, Words;
    if r.Got? {
      var held := poll.(lastJob := r.a.job, pending := Some(FromAdapter(r.a, asOf)));
      if shown.Some? {
        FingerprintTells(shown.value, r.a.job, kinds);
      }
      TableTwice(p, jobId, poll.(lastJob := r.a.job), held);
      RetriedExactly(p, jobId, held, FromAdapter(r.a, asOf), x);
      SameTried(p, jobId, held, poll.(lastJob := r.a.job), FromAdapter(r.a, asOf), x);
    } else {
      var failure := Failure(FailedRead(poll.lastJob, r.message, r.code), asOf);
      RetriedExactly(p, jobId, poll.(pending := Some(failure)), failure, x);
      SameTried(p, jobId, poll.(pending := Some(failure)), poll, failure, x);
    }
  }

  lemma TableTwice(p: Polls, jobId: string, poll: Poll, held: Poll)
    ensures WithPoll(WithPoll(p, jobId, poll), jobId, held) == WithPoll(p, jobId, held)
  {
    assert p.active[jobId := Tracking(poll)][jobId := Tracking(held)] == p.active[jobId := Tracking(held)];
  }

  lemma SameTried(p: Polls, jobId: string, held: Poll, poll: Poll, pub: Publication, x: Ports)
    requires held == poll.(pending := held.pending)
    ensures forall p' :: TriedIn(p, p', jobId, held, pub, x) <==> TriedIn(p, p', jobId, poll, pub, x)
  {
    hide TryCommit, FingerprintOf;
  }

  /** A result is handed over: it is tried at once; committed, the job is tracked on only if the result does not end it, with the
      result as what is shown; not committed, a new poll holds it and nothing is shown yet. */
  predicate HandedOver(p: Polls, p': Polls, pub: Publication, x: Ports) {
    var (p1, committed) := TryCommit(p, pub, x);
    var j := pub.Job().jobId;
    && p'.s == p1.s && p'.sent == p1.sent && p'.attempted == p.attempted[j := pub.asOf]
    && (if committed && Ends(pub) then p'.active == p.active - {j} && p'.nextPid == p.nextPid
        else
          && p'.nextPid == p.nextPid + 1
          && p'.active == p.active[j := Tracking(Poll(p.nextPid, if committed then None else Some(pub),
                                                      if committed then Some(FingerprintOf(pub.Job())) else None, pub.Job(), false))])
  }

  lemma HandedOverExactly(p: Polls, pub: Publication, x: Ports)
    ensures pub.FromAdapter? ==> HandedOver(p, Accept(p, pub.a, pub.asOf, x).0, pub, x) && Accept(p, pub.a, pub.asOf, x).1 == TryCommit(p, pub, x).1
    ensures pub.Failure? ==> HandedOver(p, AcceptFailure(p, pub.job, pub.asOf, x), pub, x)
  {
    var j := pub.Job().jobId;
    CommitIgnoresTable(p, p.active - {j}, pub, x);
    hide TryCommit, FingerprintOf;
    var entry := if TryCommit(p, pub, x).1 then Tracking(Poll(p.nextPid, None, Some(FingerprintOf(pub.Job())), pub.Job(), false))
                 else Tracking(Poll(p.nextPid, Some(pub), None, pub.Job(), false));
    assert (p.active - {j})[j := entry] == p.active[j := entry];
  }

  // ----- what a commit has sent -----

  lemma UpdateSent(s: System, affair: Affair, p: Port)
    requires affair.affairId in s.live.affairs.data && s.live.affairs.data[affair.affairId] == affair && affair.affairId != "" && p.id !in s.live.seen.data
    ensures var (s', ok) := Send(s, AffairEvent(AffairUpdate, affair), p);
      && (ok <==> p.valid && p.saved && p.sent) && (p.valid ==> p.id in s'.live.seen.data)
      && s'.live.jobs == s.live.jobs && s'.live.affairs.data == s.live.affairs.data
  {
    hide AffairEdge;
  }

  /** The affair after a commit, as the phone knows it: it is told exactly if the affair is registered and it was last told another
      status or none; that succeeds exactly if the message validates, is saved and sent; and only then it counts as told. */
  lemma ToldExactly(s: System, sent: LastSent, affairId: string, p: Port)
    requires WellKeyed(s.live) && p.id !in s.live.seen.data && affairId != ""
    ensures var (s', sent', ok) := ProjectToPhone(s, sent, affairId, p);
      var due := affairId in s.live.affairs.data && !(affairId in sent && sent[affairId] == s.live.affairs.data[affairId].status);
      && (ok <==> !due || (p.valid && p.saved && p.sent))
      && (if due && ok then sent' == sent[affairId := s.live.affairs.data[affairId].status] else sent' == sent)
      && (!due ==> s' == s) && (due && p.valid ==> p.id in s'.live.seen.data)
      && s'.live.jobs == s.live.jobs && s'.live.affairs.data == s.live.affairs.data
  {
    if affairId in s.live.affairs.data {
      UpdateSent(s, s.live.affairs.data[affairId], p);
    }
    hide Send;
  }

  /** The record that one attempt leaves when it succeeds, field by field. The runtime's acceptance of a job that was waiting shows
      nothing of the executor's own view yet; every other success shows all of it, and what the executor does not say of
      request and intent stays as it was. A job that runs already is not put back into the queue. */
  predicate LeftBy(a: Job, before: Job, after: Job) {
    var accepted := before.status in {NeedsPermission, Queued} && a.status in {Queued, JobRunning};
    if a.status == Queued && before.status == JobRunning then after == before
    else
      && after == a.(status := after.status, purpose := after.purpose, progressSummary := after.progressSummary, resultDigest := after.resultDigest,
                     evidenceQuality := after.evidenceQuality, permissionRequestId := after.permissionRequestId, taskIntentId := after.taskIntentId)
      && after.status == (if accepted then JobRunning else a.status)
      && after.progressSummary == (if accepted then Some(AcceptedByRuntime) else a.progressSummary)
      && after.resultDigest == (if accepted then None else a.resultDigest)
      && after.evidenceQuality == Some(if accepted || a.evidenceQuality.None? then Missing else a.evidenceQuality.value)
      && after.purpose == Some(if a.purpose.None? then Execution else a.purpose.value)
      && after.permissionRequestId == (if a.permissionRequestId.Some? then a.permissionRequestId else before.permissionRequestId)
      && after.taskIntentId == before.taskIntentId
  }

  lemma RecordsRead(a: AdapterJob, before: Job)
    requires before.status == NeedsPermission || before.status == JobRunning
    ensures NeedsAcceptance(Some(before), a.job.status) && a.job.status != Completed ==> LeftBy(a.job, before, AcceptedRecord(a, before))
    ensures !(NeedsAcceptance(Some(before), a.job.status) && a.job.status != Completed) && a.job.status != Queued ==> LeftBy(a.job, before, OwnRecord(a, before))
    ensures a.job.status == Queued && before.status == JobRunning ==> LeftBy(a.job, before, before)
  {
  }

  /** Publishing a record of a job that waits or runs, exactly: when it succeeds, the record is left as LeftBy says; it never succeeds
      for a waiting job without the run's identity; and without faults, and with that identity, it does. */
  lemma PublishedExactly(s: System, a: AdapterJob, p: Port, q: Port)
    requires WellKeyed(s.live) && Publishable(s.live, a) && p.id !in s.live.seen.data && q.id !in s.live.seen.data && p.id != q.id
    requires StatusOf(s.live, a.job.jobId) == NeedsPermission || StatusOf(s.live, a.job.jobId) == JobRunning
    ensures var (s', ok) := PublishCreated(s, a, p, q);
      var before := s.live.jobs.data[a.job.jobId];
      && a.job.jobId in s'.live.jobs.data
      && (ok ==> LeftBy(a.job, before, s'.live.jobs.data[a.job.jobId]))
      && (ok && before.status == NeedsPermission && a.job.status in {Queued, JobRunning, Completed} ==> a.runId.Some? && a.runId.value != "")
      && (GoodPort(s.live, p) && GoodPort(s.live, q) && a.runId.Some? && a.runId.value != "" ==> ok)
  {
    RecordsRead(a, s.live.jobs.data[a.job.jobId]);
    IdentityNeeded(s, a, p, q);
    hide PublishCreated, OwnRecord, AcceptedRecord, WellKeyed, AffairEnded, Bridges, LeftBy, GoodPort;
    PublishCreatedRecord(s, a, p, q);
    PublishCreatedBridges(s, a, p, q);
  }

  lemma IdentityNeeded(s: System, a: AdapterJob, p: Port, q: Port)
    requires a.job.jobId in s.live.jobs.data
    ensures PublishCreated(s, a, p, q).1 && StatusOf(s.live, a.job.jobId) == NeedsPermission && a.job.status in {Queued, JobRunning, Completed} ==>
      a.runId.Some? && a.runId.value != ""
  {
    hide Send;
  }

  // ----- what a commit means -----

  lemma AppliedKeepsKeys(b: Backend, e: Envelope, now: int)
    requires WellKeyed(b) && e.body.JobEvent?
    ensures WellKeyed(Apply(b, e, now).0)
  {
    JobEventIsLawful(b, e.body.jobKind, e.body.job);
    ApplyKeepsCore(b, e, now);
    hide Apply, ApplyJob, CanTransitionAffair, CanTransitionJob, AffairEnded;
  }

  predicate NewIds(b: Backend, x: Ports) {
    && x.accepted.id !in b.seen.data && x.status.id !in b.seen.data && x.affair.id !in b.seen.data
    && x.accepted.id != x.status.id && x.status.id != x.affair.id && x.accepted.id != x.affair.id
  }

  lemma JobMessageKeepsKeys(s: System, kind: JobEventKind, job: Job, p: Port)
    requires WellKeyed(s.live)
    ensures WellKeyed(Send(s, JobEvent(kind, job), p).0.live)
    ensures forall m :: m in Send(s, JobEvent(kind, job), p).0.live.seen.data ==> m in s.live.seen.data || m == p.id
  {
    AppliedKeepsKeys(s.live, Envelope(p.id, false, p.valid, JobEvent(kind, job)), p.now);
    SendTouches(s, kind, job, p);
    hide Apply;
  }

  lemma PublicationKeepsKeys(s: System, pub: Publication, x: Ports)
    requires WellKeyed(s.live) && NewIds(s.live, x)
    ensures WellKeyed(CommitJob(s, pub, x).0.live) && x.affair.id !in CommitJob(s, pub, x).0.live.seen.data
  {
    hide Send, WellKeyed;
    if pub.FromAdapter? {
      var a := pub.a;
      var accepted := Payload(AcceptedView(a.job), JobRunning);
      JobMessageKeepsKeys(s, JobAccepted, accepted, x.accepted);
      JobMessageKeepsKeys(s, KindOf(a.job.status), Payload(a.job, a.job.status), x.status);
      JobMessageKeepsKeys(Send(s, JobEvent(JobAccepted, accepted), x.accepted).0, KindOf(a.job.status), Payload(a.job, a.job.status), x.status);
    } else {
      JobMessageKeepsKeys(s, KindOf(Failed), Payload(pub.job, Failed), x.status);
    }
  }

  /** What it means that a publication was committed: the phone was told the status that the affair has now, and if it ends the
      tracking the job has the status that was reported. Whether or not it was committed, no other affair is told. */
  lemma CommitMeans(p: Polls, pub: Publication, x: Ports)
    requires WellKeyed(p.s.live) && NewIds(p.s.live, x) && pub.Job().affairId != ""
    ensures var (p', ok) := TryCommit(p, pub, x);
      var a, j := pub.Job().affairId, pub.Job().jobId;
      && (ok && a in p'.s.live.affairs.data ==> a in p'.sent && p'.sent[a] == p'.s.live.affairs.data[a].status)
      && (forall b :: b != a ==> (b in p'.sent <==> b in p.sent) && (b in p.sent ==> p'.sent[b] == p.sent[b]))
      && (ok && Ends(pub) ==> j in p'.s.live.jobs.data && p'.s.live.jobs.data[j].status == if pub.Failure? then Failed else pub.a.job.status)
      && (!CommitJob(p.s, pub, x).1 ==> !ok && p'.sent == p.sent)
  {
    PublicationKeepsKeys(p.s, pub, x);
    var s1 := CommitJob(p.s, pub, x).0;
    ToldExactly(s1, p.sent, pub.Job().affairId, x.affair);
    EndingIsRegistered(p.s, pub, x);
    hide CommitJob, ProjectToPhone, WellKeyed;
  }

  lemma EndingIsRegistered(s: System, pub: Publication, x: Ports)
    requires NewIds(s.live, x)
    ensures var (s', ok), j := CommitJob(s, pub, x), pub.Job().jobId;
      ok && Ends(pub) ==> j in s'.live.jobs.data && s'.live.jobs.data[j].status == if pub.Failure? then Failed else pub.a.job.status
  {
    hide Send;
    match pub {
      case FromAdapter(a, _) => PublishCreatedTouches(s, a, x.accepted, x.status);
      case Failure(job, _) => SendTouches(s, KindOf(Failed), Payload(job, Failed), x.status);
    }
  }
}
