/** What the delegator's calls do at each of their pieces, exactly: the answer to a create call, a restore, a cancellation and a
    rejection. */
module Calls {
  import opened Option
  import opened JsMap
  import opened Status
  import opened Types
  import opened Store
  import opened Coordinator
  import opened Publisher
  import opened Polling
  import opened Delegation
  import opened AtMostOnce
  import opened Spending
  import opened Ticks
  import G = Gate

  /** The failure reported for a request is about its job and affair. */
  function ReportedFor(r: G.Request, detail: Job): Job {
    detail.(jobId := r.jobId, affairId := NamedAffair(r))
  }

  /** The state with the grants that the answer leaves. */
  function WithGrants(p: Polls, grants: seq<G.Grant>): Polls {
    p.(s := p.s.(gate := p.s.gate.(grants := grants)))
  }

  predicate OpEnds(w: World, w': World, op: nat) {
    w'.ops == w.ops - {op} && w'.registered == w.registered && w'.clock == w.clock + 1
  }

  lemma DroppedHandsOver(p: Polls, j: string, p': Polls, pub: Publication, x: Ports)
    requires pub.Job().jobId == j && HandedOver(Dropped(p, j), p', pub, x)
    ensures HandedOver(p, p', pub, x)
  {
    CommitIgnoresTable(p, p.active - {j}, pub, x);
    hide TryCommit, FingerprintOf;
    assert (p.active - {j}) - {j} == p.active - {j};
    if j in p'.active {
      assert (p.active - {j})[j := p'.active[j]] == p.active[j := p'.active[j]];
    }
  }

  lemma FailureHandsOver(p: Polls, job: Job, asOf: nat, x: Ports)
    ensures HandedOver(p, AcceptFailure(p, job, asOf, x), Failure(job, asOf), x)
    ensures HandedOver(p, AcceptFailure(Dropped(p, job.jobId), job, asOf, x), Failure(job, asOf), x)
  {
    HandedOverExactly(p, Failure(job, asOf), x);
    HandedOverExactly(Dropped(p, job.jobId), Failure(job, asOf), x);
    DroppedHandsOver(p, job.jobId, AcceptFailure(Dropped(p, job.jobId), job, asOf, x), Failure(job, asOf), x);
    hide HandedOver, AcceptFailure;
  }

  lemma GrantsAfterAnswer(w: World, st: Step)
    requires Enabled(w, st) && st.SCreateReturns? && w.ops[st.op].result.Got?
    ensures var r := w.ops[st.op].request;
      WithGrants(w.p, Next(w, st).p.s.gate.grants) == w.p.(s := w.p.s.(gate := Spend(w.p.s.gate, r.jobId, r.requestedPermissions)))
  {
    var r := w.ops[st.op].request;
    AnswerSpends(w, st.op, st.detail, st.x);
    SpendSpends(w.p.s.gate, r.jobId, r.requestedPermissions, G.Once, "", G.WorkspaceRead);
    hide CreateReturns, Spend, FreshPorts, G.Usable, OneShotsFirst, OnlySpent;
  }

  lemma AnswerIs(w: World, st: Step)
    requires Enabled(w, st) && st.SCreateReturns?
    ensures Next(w, st) == CreateReturns(w, st.op, st.detail, st.x)
  {
    hide CreateReturns, FreshPorts;
  }

  /** The answer to a create call, exactly. A refusal is handed over as the job's failure. A created run is handed over, with its
      grants spent, if the affair still lets the job run; if not, it is published once, tracked no more, and a cancellation of
      the job begins, unless the job is registered under another affair. */
  lemma AnswerLeadsExactly(w: World, st: Step)
    requires Enabled(w, st) && st.SCreateReturns?
    ensures var w' := Next(w, st);
      var CreateSettled(r, result, since) := w.ops[st.op];
      var p1 := WithGrants(w.p, w'.p.s.gate.grants);
      match result
      case NotGot(_, _, _) => OpEnds(w, w', st.op) && HandedOver(w.p, w'.p, Failure(ReportedFor(r, st.detail), since), st.x)
      case Got(a) =>
        if LetsRun(w.p.s.live, NamedAffair(r), r.jobId) then OpEnds(w, w', st.op) && HandedOver(p1, w'.p, FromAdapter(a, since), st.x)
        else
          && w'.p.s == PublishCreated(p1.s, a, st.x.accepted, st.x.status).0 && w'.p.active == w.p.active - {r.jobId} && w'.p.sent == w.p.sent
          && (var local := Get(w'.p.s.live.jobs, r.jobId);
              if local.Some? && local.value.affairId != NamedAffair(r) then OpEnds(w, w', st.op)
              else w'.ops == w.ops[st.op := AwaitRegistered(r.jobId, local, NamedAffair(r), w.clock, NamedAffair(r) != "")])
  {
    var w' := Next(w, st);
    var CreateSettled(r, result, since) := w.ops[st.op];
    RunsExactly(w.p.s.live, NamedAffair(r), r.jobId);
    hide HandedOver, AcceptFailure, Accept, CanExecute, LetsRun, Spend, PublishCreated, FreshPorts, WithGrants, Next;
    AnswerIs(w, st);
    if result.Got? {
      GrantsAfterAnswer(w, st);
      HandedOverExactly(WithGrants(w.p, w'.p.s.gate.grants), FromAdapter(result.a, since), st.x);
    } else {
      FailureHandsOver(w.p, ReportedFor(r, st.detail), since, st.x);
    }
  }

  /** A create call that throws leaves only its entry of the table undone. */
  lemma ThrowingLeadsExactly(w: World, st: Step)
    requires Enabled(w, st) && st.SCreateThrows?
    ensures var w' := Next(w, st); OpEnds(w, w', st.op) && w'.p == w.p.(active := w.p.active - {w.ops[st.op].request.jobId})
  {
  }

  predicate MayRestore(p: Polls, jobId: string) {
    jobId !in p.active && jobId in p.s.live.jobs.data && p.s.live.jobs.data[jobId].status in {NeedsPermission, Queued, JobRunning, JobBlocked}
  }

  /** A restore, exactly: it reads the executor's record if the job has no entry in the table and may still run. What it reads is
      handed over. If the read fails, what was known of the job is tracked anew with nothing held when the failure may pass,
      handed over as a failed read when not, and nothing happens when nothing was known. */
  lemma RestoreLeadsExactly(w: World, st: Step)
    requires Enabled(w, st) && (st.SRestore? || st.SRestoreResumes? || st.SCachedResumes?)
    ensures var w' := Next(w, st);
      && (st.SRestore? ==>
            w' == if MayRestore(w.p, st.jobId) then World(w.p, w.ops[st.op := AwaitRestore(st.jobId, w.clock)], w.registered, w.clock + 1) else w)
      && (st.SRestoreResumes? ==>
            var AwaitRestore(j, since) := w.ops[st.op];
            if st.r.Got? then OpEnds(w, w', st.op) && HandedOver(w.p, w'.p, FromAdapter(st.r.a, since), st.x)
            else w' == World(w.p, w.ops[st.op := AwaitCached(j, st.r.message, st.r.code, st.r.retryable, since)], w.registered, w.clock + 1))
      && (st.SCachedResumes? ==>
            var AwaitCached(j, message, code, retryable, since) := w.ops[st.op];
            && OpEnds(w, w', st.op)
            && (if st.cached.None? && j !in w.p.s.live.jobs.data then w'.p == w.p
                else
                  var known := if st.cached.Some? then st.cached.value.job else w.p.s.live.jobs.data[j];
                  var shown := if known.progressSummary.None? then known.(progressSummary := Some(Given(""))) else known;
                  if retryable
                  then w'.p == w.p.(active := w.p.active[known.jobId := Tracking(Poll(w.p.nextPid, None, None, shown, false))], nextPid := w.p.nextPid + 1)
                  else HandedOver(w.p, w'.p, Failure(FailedRead(shown, message, code), since), st.x)))
  {
    hide HandedOver, AcceptFailure, Accept, FreshPorts;
    if st.SRestoreResumes? && st.r.Got? {
      HandedOverExactly(w.p, FromAdapter(st.r.a, w.ops[st.op].since), st.x);
    } else if st.SCachedResumes? {
      var AwaitCached(j, message, code, retryable, since) := w.ops[st.op];
      if st.cached.Some? || j in w.p.s.live.jobs.data {
        var known := if st.cached.Some? then st.cached.value.job else w.p.s.live.jobs.data[j];
        var shown := if known.progressSummary.None? then known.(progressSummary := Some(Given(""))) else known;
        FailureHandsOver(w.p, FailedRead(shown, message, code), since, st.x);
      }
    }
  }

  /** A rejection, exactly: it is handed over as the job's failure if the request is known and its job still waits for permission,
      and otherwise changes nothing. */
  lemma RejectionLeadsExactly(w: World, st: Step)
    requires Enabled(w, st) && st.SReject?
    ensures var w', known := Next(w, st), st.requestId in w.p.s.gate.requests.data;
      if known && (var r := w.p.s.gate.requests.data[st.requestId];
                   r.jobId != "" && r.jobId in w.p.s.live.jobs.data && w.p.s.live.jobs.data[r.jobId].status == NeedsPermission)
      then
        && w'.ops == w.ops && w'.registered == w.registered && w'.clock == w.clock + 1
        && HandedOver(w.p, w'.p, Failure(ReportedFor(w.p.s.gate.requests.data[st.requestId], st.detail), w.clock), st.x)
      else w' == w
  {
    hide HandedOver, AcceptFailure, FreshPorts;
    if st.requestId in w.p.s.gate.requests.data {
      FailureHandsOver(w.p, ReportedFor(w.p.s.gate.requests.data[st.requestId], st.detail), w.clock, st.x);
    }
  }

  /** The job as it is canceled without the executor. */
  function CanceledHere(job: Job): Job {
    job.(progressSummary := if job.progressSummary.None? then Some(CanceledBeforeRun) else job.progressSummary,
         blockedReason := None, resumeCondition := None, statusReasonCode := Some(CancelBeforeRun))
  }

  /** A cancellation, exactly. It fails at once for a job of another affair. A job that the executor does not know, that has no entry
      in the table and was still to be started is published as canceled right here; every other one is for the executor to
      stop, whose answer is handed over. The call returns normally exactly if the cancellation here was published, or the
      executor's answer is of a job that is over and was committed. */
  lemma CancellationLeadsExactly(w: World, st: Step)
    requires Enabled(w, st) && (st.SCancel? || st.SRegisteredResumes? || st.SCancelResumes?)
    ensures var w' := Next(w, st);
      && (st.SCancel? ==>
            var local := Get(w.p.s.live.jobs, st.jobId);
            if local.Some? && local.value.affairId != st.affairId then OpEnds(w, w', st.op) && w'.p == w.p
            else w' == World(w.p, w.ops[st.op := AwaitRegistered(st.jobId, local, st.affairId, w.clock, st.queued)], w.registered, w.clock + 1))
      && (st.SRegisteredResumes? ==>
            var AwaitRegistered(j, local, affairId, since, queued) := w.ops[st.op];
            if !st.found && local.Some? && local.value.status in {Queued, NeedsPermission} && j !in w.p.active then
              var (s1, published) := Publish(w.p.s, JobCanceled, CanceledHere(local.value), st.x.status);
              var (s2, sent, _) := if published then ProjectToPhone(s1, w.p.sent, affairId, st.x.affair) else (s1, w.p.sent, false);
              && OpEnds(w, w', st.op) && RegisteredResumes(w, st.op, st.found, st.x).1 == published
              && w'.p == w.p.(s := s2, sent := sent, attempted := w.p.attempted[local.value.jobId := since])
            else w' == World(w.p, w.ops[st.op := AwaitCancel(j, w.clock, queued)], w.registered, w.clock + 1) && !RegisteredResumes(w, st.op, st.found, st.x).1)
      && (st.SCancelResumes? ==>
            && OpEnds(w, w', st.op)
            && (if st.r.Got? then
                  var pub := FromAdapter(st.r.a, w.ops[st.op].since);
                  && HandedOver(w.p, w'.p, pub, st.x)
                  && (CancelResumes(w, st.op, st.r, st.x).1 <==>
                        TryCommit(w.p, pub, st.x).1 && st.r.a.job.status in {Completed, Failed, JobCanceled})
                else w'.p == w.p && !CancelResumes(w, st.op, st.r, st.x).1))
  {
    hide HandedOver, Accept, TryCommit, Send, ProjectToPhone, FreshPorts;
    if st.SCancelResumes? && st.r.Got? {
      HandedOverExactly(w.p, FromAdapter(st.r.a, w.ops[st.op].since), st.x);
    }
  }

  /** The executor knows one job more exactly when the runtime identified the run it was asked for, and the call then has its answer. */
  lemma RunStoredExactly(w: World, st: Step)
    requires Enabled(w, st)
    ensures Next(w, st).registered == if st.SRunCreated? && st.made.Got? then w.registered + [w.ops[st.op].request.jobId] else w.registered
    ensures st.SRunCreated? ==> Next(w, st).p == w.p && Next(w, st).ops == w.ops[st.op := CreateSettled(w.ops[st.op].request, st.made, w.ops[st.op].since)]
  {
    hide Judge, Accept, AcceptFailure, TickStart, TickResume, Publish, ProjectToPhone, PublishCreated, CanExecute, Spend, FreshPorts, OutsideOk, Track, Schedule;
  }

  /** The timer queues a tick exactly for a tracked job that has none under way, and marks its poll. */
  lemma TimerQueuesExactly(w: World, st: Step)
    requires Enabled(w, st) && st.SSchedule?
    ensures var w' := Next(w, st);
      if st.jobId in w.p.active && w.p.active[st.jobId].Tracking? && !w.p.active[st.jobId].poll.inFlight then
        var poll := w.p.active[st.jobId].poll;
        && w'.ops == w.ops[st.op := TickQueued(st.jobId, poll.pid)]
        && w'.p == w.p.(active := w.p.active[st.jobId := Tracking(poll.(inFlight := true))])
      else w' == w
  {
  }
}
