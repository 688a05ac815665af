/** A granted job is handed to the executor at most once. */
module AtMostOnce {
  import opened Option
  import opened JsMap
  import opened Status
  import opened Types
  import opened Store
  import opened Closing
  import opened Coordinator
  import opened Publisher
  import opened Polling
  import opened Delegation
  import G = Gate

  // ----- what one publication touches -----

  /** Only job `j0` may differ, and if it waits for permission afterwards it did before or `may` allows it. */
  ghost predicate OnlyJob(b: Backend, b': Backend, j0: string, may: bool) {
    && (forall j :: j in b.jobs.data ==> j in b'.jobs.data)
    && (forall j :: j != j0 && j in b'.jobs.data ==> j in b.jobs.data && b'.jobs.data[j] == b.jobs.data[j])
    && (JobsKeyed(b) ==> JobsKeyed(b'))
    && (!may && HasStatus(b', j0, NeedsPermission) ==> HasStatus(b, j0, NeedsPermission))
  }

  lemma JobMessageTouches(b: Backend, kind: JobEventKind, job: Job)
    ensures OnlyJob(b, ApplyJob(b, kind, job).0, job.jobId, job.status == NeedsPermission) && ApplyJob(b, kind, job).0.seen == b.seen
  {
    JobEventWrites(b, kind, job);
    hide ApplyJob;
  }

  lemma MessageTouches(b: Backend, kind: JobEventKind, job: Job, p: Port)
    ensures var (b', r) := Apply(b, Envelope(p.id, false, p.valid, JobEvent(kind, job)), p.now);
      && OnlyJob(b, b', job.jobId, job.status == NeedsPermission)
      && (p.id !in b.seen.data && r.Ok() ==> HasStatus(b', job.jobId, job.status))
      && (forall m :: m in b'.seen.data ==> m in b.seen.data || m == p.id)
  {
    JobMessageTouches(b, kind, job);
    AppliedJobHasStatus(b, kind, job);
    hide ApplyJob, StatusesOf;
  }

  lemma AppliedJobHasStatus(b: Backend, kind: JobEventKind, job: Job)
    ensures ApplyJob(b, kind, job).1.Ok() ==> HasStatus(ApplyJob(b, kind, job).0, job.jobId, job.status)
  {
  }

  lemma SendTouches(s: System, kind: JobEventKind, job: Job, p: Port)
    ensures var (s', ok) := Send(s, JobEvent(kind, job), p);
      && OnlyJob(s.live, s'.live, job.jobId, job.status == NeedsPermission)
      && (p.id !in s.live.seen.data && ok ==> HasStatus(s'.live, job.jobId, job.status))
      && (forall m :: m in s'.live.seen.data ==> m in s.live.seen.data || m == p.id)
  {
    MessageTouches(s.live, kind, job, p);
    SendIsMessage(s, kind, job, p);
    hide Apply, Send;
  }

  lemma CommitJobTouches(s: System, pub: Publication, x: Ports)
    requires x.accepted.id !in s.live.seen.data && x.status.id !in s.live.seen.data && x.accepted.id != x.status.id
    ensures var (s', ok) := CommitJob(s, pub, x);
      && OnlyJob(s.live, s'.live, pub.Job().jobId, !Stops(pub))
      && (ok && Stops(pub) ==> !HasStatus(s'.live, pub.Job().jobId, NeedsPermission))
  {
    hide Send;
    match pub {
      case FromAdapter(a, _) => PublishCreatedTouches(s, a, x.accepted, x.status);
      case Failure(job, _) => SendTouches(s, KindOf(Failed), Payload(job, Failed), x.status);
    }
  }

  lemma PublishCreatedTouches(s: System, a: AdapterJob, p: Port, q: Port)
    requires p.id !in s.live.seen.data && q.id !in s.live.seen.data && p.id != q.id
    ensures var (s', ok) := PublishCreated(s, a, p, q);
      && OnlyJob(s.live, s'.live, a.job.jobId, a.job.status == NeedsPermission)
      && (ok && StopStatus(a.job.status) ==> HasStatus(s'.live, a.job.jobId, a.job.status))
  {
    hide Send;
    var accepted := Payload(AcceptedView(a.job), JobRunning);
    SendTouches(s, JobAccepted, accepted, p);
    SendTouches(s, KindOf(a.job.status), Payload(a.job, a.job.status), q);
    SendTouches(Send(s, JobEvent(JobAccepted, accepted), p).0, KindOf(a.job.status), Payload(a.job, a.job.status), q);
  }

  lemma ProjectionTouchesNoJob(s: System, sent: LastSent, affairId: string, p: Port)
    ensures ProjectToPhone(s, sent, affairId, p).0.live.jobs == s.live.jobs
  {
    if affairId in s.live.affairs.data {
      ApplyKeepsCore(s.live, Envelope(p.id, false, p.valid, AffairEvent(AffairUpdate, s.live.affairs.data[affairId])), p.now);
    }
  }

  /** A commit touches one job; a committed stopping publication leaves it past the permission stage. */
  lemma CommitTouches(p: Polls, pub: Publication, x: Ports)
    requires FreshPorts(p, x)
    ensures var (p', ok) := TryCommit(p, pub, x);
      && OnlyJob(p.s.live, p'.s.live, pub.Job().jobId, !Stops(pub))
      && (ok && Stops(pub) ==> !HasStatus(p'.s.live, pub.Job().jobId, NeedsPermission))
      && p'.active == p.active && p'.nextPid == p.nextPid
  {
    hide CommitJob, ProjectToPhone;
    CommitJobTouches(p.s, pub, x);
    var s1 := CommitJob(p.s, pub, x).0;
    ProjectionTouchesNoJob(s1, p.sent, pub.Job().affairId, x.affair);
  }

  // ----- guards -----

  /** Nobody can start a create call for the job: it has an entry in the table, or it no longer waits for permission. */
  predicate Guarded(p: Polls, j: string) {
    j in p.active || !HasStatus(p.s.live, j, NeedsPermission)
  }

  /** Registered guarded jobs stay registered and guarded, except perhaps `besides`. */
  ghost predicate KeepsGuards(p: Polls, p': Polls, besides: Option<string>) {
    && (JobsKeyed(p.s.live) ==> JobsKeyed(p'.s.live))
    && (forall j :: j in p.s.live.jobs.data ==> j in p'.s.live.jobs.data)
    && (forall j :: j in p.s.live.jobs.data && Some(j) != besides && Guarded(p, j) ==> Guarded(p', j))
  }

  lemma AcceptKeepsGuards(p: Polls, a: AdapterJob, asOf: nat, x: Ports)
    requires FreshPorts(p, x)
    ensures KeepsGuards(p, Accept(p, a, asOf, x).0, None)
  {
    hide TryCommit, FreshPorts;
    CommitTouches(p, FromAdapter(a, asOf), x);
  }

  lemma FailureKeepsGuards(p: Polls, job: Job, asOf: nat, x: Ports)
    requires FreshPorts(p, x)
    ensures KeepsGuards(p, AcceptFailure(p, job, asOf, x), None) && Guarded(AcceptFailure(p, job, asOf, x), job.jobId)
  {
    hide TryCommit, FreshPorts;
    assert FreshPorts(Stop(p, job.jobId), x) by { PortsIgnoreTable(p, Stop(p, job.jobId), x); }
    CommitTouches(Stop(p, job.jobId), Failure(job, asOf), x);
  }

  lemma PortsIgnoreTable(p: Polls, p': Polls, x: Ports)
    requires FreshPorts(p, x) && p'.s.live.seen == p.s.live.seen
    ensures FreshPorts(p', x)
  {
  }

  predicate PollAbout(poll: Poll, j: string) {
    poll.lastJob.jobId == j && (poll.pending.Some? ==> poll.pending.value.Job().jobId == j)
  }

  /** A job's poll, and the publication it holds, are about that job. */
  ghost predicate PendingAbout(p: Polls) {
    forall j :: j in p.active && p.active[j].Tracking? ==> PollAbout(p.active[j].poll, j)
  }

  lemma RetryKeepsGuards(p: Polls, j: string, x: Ports)
    requires FreshPorts(p, x) && PendingAbout(p) && j in p.active && p.active[j].Tracking?
    ensures KeepsGuards(p, Retry(p, j, x), None)
  {
    hide TryCommit, FreshPorts;
    if p.active[j].poll.pending.Some? {
      CommitTouches(p, p.active[j].poll.pending.value, x);
    }
  }

  lemma RetryKeepsAbout(p: Polls, j: string, x: Ports)
    requires FreshPorts(p, x) && PendingAbout(p) && j in p.active && p.active[j].Tracking?
    ensures PendingAbout(Retry(p, j, x))
  {
    hide TryCommit, FreshPorts;
    if p.active[j].poll.pending.Some? {
      CommitTouches(p, p.active[j].poll.pending.value, x);
    }
  }

  lemma AcceptKeepsAbout(p: Polls, a: AdapterJob, asOf: nat, x: Ports)
    requires FreshPorts(p, x) && PendingAbout(p)
    ensures PendingAbout(Accept(p, a, asOf, x).0)
  {
    hide TryCommit, FreshPorts;
    CommitTouches(p, FromAdapter(a, asOf), x);
  }

  lemma FailureKeepsAbout(p: Polls, job: Job, asOf: nat, x: Ports)
    requires FreshPorts(p, x) && PendingAbout(p)
    ensures PendingAbout(AcceptFailure(p, job, asOf, x))
  {
    hide TryCommit, FreshPorts;
    PortsIgnoreTable(p, Stop(p, job.jobId), x);
    CommitTouches(Stop(p, job.jobId), Failure(job, asOf), x);
  }

  /** Replacing the poll of a tracked job by one about the same job. */
  lemma WithPollKeeps(p: Polls, j: string, poll: Poll)
    requires PendingAbout(p) && j in p.active && p.active[j].Tracking?
    requires poll.lastJob.jobId == j && (poll.pending.Some? ==> poll.pending.value.Job().jobId == j)
    ensures PendingAbout(WithPoll(p, j, poll)) && KeepsGuards(p, WithPoll(p, j, poll), None)
  {
  }

  lemma FinishKeeps(p: Polls, j: string, pid: nat)
    requires PendingAbout(p)
    ensures PendingAbout(Finish(p, j, pid)) && KeepsGuards(p, Finish(p, j, pid), None)
  {
  }

  lemma GuardsTwice(p0: Polls, p1: Polls, p2: Polls)
    requires KeepsGuards(p0, p1, None) && KeepsGuards(p1, p2, None)
    ensures KeepsGuards(p0, p2, None)
  {
  }

  lemma TickStartKeeps(p: Polls, j: string, pid: nat, x: Ports)
    requires FreshPorts(p, x) && PendingAbout(p)
    ensures PendingAbout(TickStart(p, j, pid, x).0) && KeepsGuards(p, TickStart(p, j, pid, x).0, None)
  {
    hide Retry, FreshPorts, KeepsGuards, PendingAbout, Finish;
    assert KeepsGuards(p, p, None) by { Unchanged(p); }
    if Live(p, j, pid) && p.active[j].poll.pending.Some? {
      RetryKeepsGuards(p, j, x);
      RetryKeepsAbout(p, j, x);
      FinishKeeps(Retry(p, j, x), j, pid);
      GuardsTwice(p, Retry(p, j, x), Finish(Retry(p, j, x), j, pid));
    }
  }

  lemma Unchanged(p: Polls)
    ensures KeepsGuards(p, p, None)
  {
  }

  /** Handing a new publication to a live poll and trying it at once. */
  lemma HandOver(p: Polls, j: string, pid: nat, pub: Publication, x: Ports)
    requires FreshPorts(p, x) && PendingAbout(p) && Live(p, j, pid) && pub.Job().jobId == j
    ensures var p1 := Finish(Retry(WithPoll(p, j, p.active[j].poll.(pending := Some(pub))), j, x), j, pid);
      PendingAbout(p1) && KeepsGuards(p, p1, None)
  {
    var p0 := WithPoll(p, j, p.active[j].poll.(pending := Some(pub)));
    WithPollKeeps(p, j, p.active[j].poll.(pending := Some(pub)));
    PortsIgnoreTable(p, p0, x);
    hide Retry, FreshPorts, KeepsGuards, PendingAbout, Finish;
    RetryKeepsGuards(p0, j, x);
    RetryKeepsAbout(p0, j, x);
    FinishKeeps(Retry(p0, j, x), j, pid);
    GuardsTwice(p0, Retry(p0, j, x), Finish(Retry(p0, j, x), j, pid));
    GuardsTwice(p, p0, Finish(Retry(p0, j, x), j, pid));
  }

  lemma TickResumeKeeps(p: Polls, j: string, pid: nat, r: ReadResult, asOf: nat, x: Ports)
    requires FreshPorts(p, x) && PendingAbout(p) && Answers(r, j)
    ensures PendingAbout(TickResume(p, j, pid, r, asOf, x)) && KeepsGuards(p, TickResume(p, j, pid, r, asOf, x), None)
  {
    Unchanged(p);
    if Live(p, j, pid) {
      var poll := p.active[j].poll;
      match r {
        case NotGot(message, code, retryable) =>
          FinishKeeps(p, j, pid);
          HandOver(p, j, pid, Failure(ReadFailure(poll.lastJob, message, code), asOf), x);
        case Got(a) =>
          var p1 := WithPoll(p, j, poll.(lastJob := a.job));
          WithPollKeeps(p, j, poll.(lastJob := a.job));
          PortsIgnoreTable(p, p1, x);
          FinishKeeps(p1, j, pid);
          GuardsTwice(p, p1, Finish(p1, j, pid));
          HandOver(p1, j, pid, FromAdapter(a, asOf), x);
          GuardsTwice(p, p1, Finish(Retry(WithPoll(p1, j, p1.active[j].poll.(pending := Some(FromAdapter(a, asOf)))), j, x), j, pid));
      }
    }
    hide Retry, FreshPorts, KeepsGuards, PendingAbout, Finish;
  }

  // ----- the world -----

  predicate Outstanding(o: Op) {
    o.AwaitCreate? || o.CreateSettled?
  }

  ghost predicate OpOk(w: World, o: Op) {
    && (Outstanding(o) ==> o.JobId() in w.p.s.live.jobs.data && Guarded(w.p, o.JobId()))
    && (o.AwaitCreate? ==> o.JobId() !in w.registered)
    && (o.CreateSettled? ==> Answers(o.result, o.JobId()))
    && (o.AwaitRegistered? && o.local.Some? ==> o.local.value.jobId == o.JobId())
  }

  ghost predicate WorldOk(w: World) {
    && JobsKeyed(w.p.s.live) && PendingAbout(w.p) && Distinct(w.registered)
    && (forall n :: n in w.ops ==> OpOk(w, w.ops[n]))
    && (forall n, m :: n in w.ops && m in w.ops && Outstanding(w.ops[n]) && Outstanding(w.ops[m]) && w.ops[n].JobId() == w.ops[m].JobId() ==> n == m)
  }

  /** A step that keeps all guards, changes at most call `n`, and makes no new outstanding call. */
  lemma QuietStep(w: World, n: nat, o: Option<Op>, p: Polls)
    requires WorldOk(w) && KeepsGuards(w.p, p, None) && PendingAbout(p)
    requires o.Some? ==> !Outstanding(o.value) && OpOk(w.(p := p), o.value)
    ensures WorldOk(if o.Some? then Go(w, n, o.value, p) else End(w, n, p))
    ensures forall c :: WorldOk(w.(p := p, clock := c))
  {
    forall m | m in w.ops ensures OpOk(w.(p := p), w.ops[m]) {
      assert OpOk(w, w.ops[m]);
    }
  }

  /** A step that ends an outstanding call may drop that job's guard: no other call relied on it. */
  lemma EndingStep(w: World, n: nat, o: Option<Op>, p: Polls)
    requires WorldOk(w) && n in w.ops && Outstanding(w.ops[n]) && KeepsGuards(w.p, p, Some(w.ops[n].JobId())) && PendingAbout(p)
    requires o.Some? ==> !Outstanding(o.value) && OpOk(w.(p := p), o.value)
    ensures WorldOk(if o.Some? then Go(w, n, o.value, p) else End(w, n, p))
  {
    forall m | m in w.ops && m != n ensures OpOk(w.(p := p), w.ops[m]) {
      assert OpOk(w, w.ops[m]);
    }
  }

  lemma GrantKeepsOk(w: World, n: nat, id: string, scoped: bool, validInput: bool, reuse: ReadResult, detail: Job, x: Ports)
    requires WorldOk(w) && n !in w.ops && FreshPorts(w.p, x)
    requires id in w.p.s.gate.requests.data ==> Answers(reuse, w.p.s.gate.requests.data[id].jobId)
    ensures WorldOk(Grant(w, n, id, scoped, validInput, reuse, detail, x))
  {
    match Judge(w.p, id, scoped) {
      case Ignore =>
      case RefuseWithFailure =>
        var job := FailureFor(w.p.s.gate.requests.data[id], detail);
        FailureKeepsGuards(w.p, job, w.clock, x);
        FailureKeepsAbout(w.p, job, w.clock, x);
        hide WorldOk, AcceptFailure, KeepsGuards, PendingAbout;
        QuietStep(w, n, None, AcceptFailure(w.p, job, w.clock, x));
      case Delegate => DelegateKeepsOk(w, n, id, scoped, validInput, reuse, detail, x);
    }
  }

  /** Taking the job's place in the table before a create call. */
  lemma NewCallKeepsOk(w: World, n: nat, o: Op)
    requires WorldOk(w) && n !in w.ops && Outstanding(o) && o.JobId() !in w.p.active && HasStatus(w.p.s.live, o.JobId(), NeedsPermission)
    requires o.AwaitCreate? ==> o.JobId() !in w.registered
    requires o.CreateSettled? ==> Answers(o.result, o.JobId())
    ensures WorldOk(Go(w, n, o, w.p.(active := w.p.active[o.JobId() := Placeholder])))
  {
    var w' := Go(w, n, o, w.p.(active := w.p.active[o.JobId() := Placeholder]));
    forall m | m in w.ops ensures OpOk(w', w.ops[m]) && !(Outstanding(w.ops[m]) && w.ops[m].JobId() == o.JobId()) {
      assert OpOk(w, w.ops[m]);
    }
  }

  lemma DelegateKeepsOk(w: World, n: nat, id: string, scoped: bool, validInput: bool, reuse: ReadResult, detail: Job, x: Ports)
    requires WorldOk(w) && n !in w.ops && Judge(w.p, id, scoped) == Delegate
    requires Answers(reuse, w.p.s.gate.requests.data[id].jobId)
    ensures WorldOk(Grant(w, n, id, scoped, validInput, reuse, detail, x))
  {
    hide CanExecute, AllGranted, Blank, WorldOk;
    var r := w.p.s.gate.requests.data[id];
    if !validInput || Blank(AffairOf(r)) {
      NewCallKeepsOk(w, n, CreateSettled(r, NotGot("", "", false), w.clock));
    } else if r.jobId in w.registered {
      NewCallKeepsOk(w, n, CreateSettled(r, reuse, w.clock));
    } else {
      NewCallKeepsOk(w, n, AwaitCreate(r, w.clock));
    }
  }

  lemma RunCreatedKeepsOk(w: World, n: nat, made: ReadResult)
    requires WorldOk(w) && n in w.ops && w.ops[n].AwaitCreate? && Answers(made, w.ops[n].request.jobId)
    ensures WorldOk(RunCreated(w, n, made))
  {
    var w' := RunCreated(w, n, made);
    assert OpOk(w, w.ops[n]);
    forall m | m in w.ops ensures OpOk(w', w'.ops[m]) {
      assert OpOk(w, w.ops[m]);
    }
  }

  lemma SpendKeepsPolls(w: World, gate: G.Gate)
    requires WorldOk(w)
    ensures WorldOk(w.(p := w.p.(s := w.p.s.(gate := gate))))
  {
    var w' := w.(p := w.p.(s := w.p.s.(gate := gate)));
    forall m | m in w.ops ensures OpOk(w', w.ops[m]) {
      assert OpOk(w, w.ops[m]);
    }
  }

  lemma DroppedKeeps(p: Polls, j: string)
    requires PendingAbout(p)
    ensures PendingAbout(Dropped(p, j)) && KeepsGuards(p, Dropped(p, j), Some(j))
  {
  }

  lemma GuardsBut(p0: Polls, p1: Polls, p2: Polls, j: string)
    requires KeepsGuards(p0, p1, Some(j)) && KeepsGuards(p1, p2, Some(j))
    ensures KeepsGuards(p0, p2, Some(j))
  {
  }

  lemma GuardsWeaken(p0: Polls, p1: Polls, j: string)
    requires KeepsGuards(p0, p1, None)
    ensures KeepsGuards(p0, p1, Some(j))
  {
  }

  lemma FailedCreateKeepsOk(w: World, n: nat, detail: Job, x: Ports)
    requires WorldOk(w) && n in w.ops && w.ops[n].CreateSettled? && w.ops[n].result.NotGot? && FreshPorts(w.p, x)
    ensures WorldOk(CreateReturns(w, n, detail, x))
  {
    var r := w.ops[n].request;
    var p1, job, since := Dropped(w.p, r.jobId), FailureFor(r, detail), w.ops[n].since;
    DroppedKeeps(w.p, r.jobId);
    PortsIgnoreTable(w.p, p1, x);
    hide AcceptFailure, KeepsGuards, PendingAbout, FreshPorts, Dropped;
    FailureKeepsGuards(p1, job, since, x);
    FailureKeepsAbout(p1, job, since, x);
    GuardsWeaken(p1, AcceptFailure(p1, job, since, x), r.jobId);
    GuardsBut(w.p, p1, AcceptFailure(p1, job, since, x), r.jobId);
    EndingStep(w, n, None, AcceptFailure(p1, job, since, x));
  }

  lemma StartCancelOp(w: World, jobId: string, affairId: string, since: nat, queued: bool)
    requires WorldOk(w)
    ensures OpOk(w, AwaitRegistered(jobId, Get(w.p.s.live.jobs, jobId), affairId, since, queued))
  {
  }

  lemma PublishedKeeps(p: Polls, a: AdapterJob, x: Ports, clock: nat)
    requires FreshPorts(p, x) && PendingAbout(p)
    ensures var p1 := p.(s := PublishCreated(p.s, a, x.accepted, x.status).0, attempted := p.attempted[a.job.jobId := clock]);
      PendingAbout(p1) && KeepsGuards(p, p1, Some(a.job.jobId))
  {
    PublishCreatedTouches(p.s, a, x.accepted, x.status);
    hide PublishCreated;
  }

  /** The state after a created run has been published and its entry dropped. */
  function Withdrawn(w: World, n: nat, a: AdapterJob, x: Ports): Polls
    requires n in w.ops && w.ops[n].CreateSettled?
  {
    Dropped(w.p.(s := PublishCreated(w.p.s, a, x.accepted, x.status).0, attempted := w.p.attempted[a.job.jobId := w.ops[n].since]),
            w.ops[n].request.jobId)
  }

  lemma WithdrawnKeepsGuards(w: World, n: nat, a: AdapterJob, x: Ports)
    requires PendingAbout(w.p) && n in w.ops && w.ops[n].CreateSettled? && a.job.jobId == w.ops[n].request.jobId && FreshPorts(w.p, x)
    ensures PendingAbout(Withdrawn(w, n, a, x)) && KeepsGuards(w.p, Withdrawn(w, n, a, x), Some(w.ops[n].request.jobId))
  {
    hide PublishCreated, KeepsGuards, PendingAbout, Dropped, FreshPorts;
    var p1 := w.p.(s := PublishCreated(w.p.s, a, x.accepted, x.status).0, attempted := w.p.attempted[a.job.jobId := w.ops[n].since]);
    PublishedKeeps(w.p, a, x, w.ops[n].since);
    DroppedKeeps(p1, w.ops[n].request.jobId);
    GuardsBut(w.p, p1, Dropped(p1, w.ops[n].request.jobId), w.ops[n].request.jobId);
  }

  /** The create call's result is withdrawn because the affair may no longer execute it. */
  lemma WithdrawnKeepsOk(w: World, n: nat, a: AdapterJob, x: Ports)
    requires WorldOk(w) && n in w.ops && w.ops[n].CreateSettled? && a.job.jobId == w.ops[n].request.jobId && FreshPorts(w.p, x)
    ensures var r := w.ops[n].request;
      WorldOk(StartCancel(w.(p := Withdrawn(w, n, a, x)), n, r.jobId, AffairOf(r), !Unnamed(r)))
  {
    hide KeepsGuards, PendingAbout, FreshPorts, WorldOk, Withdrawn, OpOk;
    AboutOf(w);
    WithdrawnKeepsGuards(w, n, a, x);
    var r, p2 := w.ops[n].request, Withdrawn(w, n, a, x);
    EndingStep(w, n, None, p2);
    var o := AwaitRegistered(r.jobId, Get(p2.s.live.jobs, r.jobId), AffairOf(r), w.clock, !Unnamed(r));
    StartCancelOp(End(w, n, p2), r.jobId, AffairOf(r), w.clock, !Unnamed(r));
    SameOpOk(End(w, n, p2), w.(p := p2), o);
    EndingStep(w, n, Some(o), p2);
  }

  lemma SameOpOk(w: World, w': World, o: Op)
    requires OpOk(w, o) && w'.p == w.p && w'.registered == w.registered
    ensures OpOk(w', o)
  {
  }

  lemma MadeCallKeepsOk(w: World, n: nat, detail: Job, x: Ports)
    requires WorldOk(w) && n in w.ops && w.ops[n].CreateSettled? && w.ops[n].result.Got? && FreshPorts(w.p, x)
    ensures WorldOk(CreateReturns(w, n, detail, x))
  {
    var r, a := w.ops[n].request, w.ops[n].result.a;
    var gate := Spend(w.p.s.gate, r.jobId, r.requestedPermissions);
    var w1 := w.(p := w.p.(s := w.p.s.(gate := gate)));
    SpendKeepsPolls(w, gate);
    assert OpOk(w, w.ops[n]);
    PortsIgnoreTable(w.p, w1.p, x);
    hide CanExecute, FreshPorts, Spend;
    if CanExecute(w1.p.s.live, AffairOf(r), r.jobId) {
      AcceptKeepsGuards(w1.p, a, w.ops[n].since, x);
      AcceptKeepsAbout(w1.p, a, w.ops[n].since, x);
      GuardsWeaken(w1.p, Accept(w1.p, a, w.ops[n].since, x).0, r.jobId);
      hide Accept, KeepsGuards, PendingAbout, WorldOk;
      EndingStep(w1, n, None, Accept(w1.p, a, w.ops[n].since, x).0);
    } else {
      hide WorldOk, PublishCreated, StartCancel, Dropped;
      WithdrawnKeepsOk(w1, n, a, x);
    }
  }

  lemma RegisteredKeepsOk(w: World, n: nat, found: bool, x: Ports)
    requires WorldOk(w) && n in w.ops && w.ops[n].AwaitRegistered? && FreshPorts(w.p, x)
    ensures WorldOk(RegisteredResumes(w, n, found, x).0)
  {
    var AwaitRegistered(jobId, local, affairId, since, queued) := w.ops[n];
    Unchanged(w.p);
    assert OpOk(w, w.ops[n]);
    if CancelsLocally(w, jobId, local, found) {
      LocalCancelKeeps(w.p, local.value, affairId, since, x);
      var (s1, published) := Publish(w.p.s, JobCanceled, CanceledBefore(local.value), x.status);
      var p1 := w.p.(s := s1, attempted := w.p.attempted[local.value.jobId := since]);
      var (s2, sent, _) := ProjectToPhone(s1, p1.sent, affairId, x.affair);
      hide Publish, ProjectToPhone, KeepsGuards, PendingAbout, WorldOk;
      QuietStep(w, n, None, p1);
      QuietStep(w, n, None, p1.(s := s2, sent := sent));
    } else {
      hide KeepsGuards, PendingAbout, WorldOk;
      QuietStep(w, n, Some(AwaitCancel(jobId, w.clock, queued)), w.p);
    }
  }

  lemma LocalCancelKeeps(p: Polls, local: Job, affairId: string, clock: nat, x: Ports)
    requires PendingAbout(p) && FreshPorts(p, x)
    ensures var s1 := Publish(p.s, JobCanceled, CanceledBefore(local), x.status).0;
      var p1 := p.(s := s1, attempted := p.attempted[local.jobId := clock]);
      var (s2, sent, _) := ProjectToPhone(s1, p1.sent, affairId, x.affair);
      && KeepsGuards(p, p1, None) && PendingAbout(p1)
      && KeepsGuards(p, p1.(s := s2, sent := sent), None) && PendingAbout(p1.(s := s2, sent := sent))
  {
    var s1 := Publish(p.s, JobCanceled, CanceledBefore(local), x.status).0;
    SendTouches(p.s, KindOf(JobCanceled), Payload(CanceledBefore(local), JobCanceled), x.status);
    ProjectionTouchesNoJob(s1, p.sent, affairId, x.affair);
    hide Send, ProjectToPhone;
  }

  lemma TrackKeeps(p: Polls, job: Job)
    requires PendingAbout(p)
    ensures PendingAbout(Track(p, job, None, None)) && KeepsGuards(p, Track(p, job, None, None), None)
  {
  }

  lemma CachedKeepsOk(w: World, n: nat, cached: Option<AdapterJob>, x: Ports)
    requires WorldOk(w) && n in w.ops && w.ops[n].AwaitCached? && FreshPorts(w.p, x)
    ensures WorldOk(CachedResumes(w, n, cached, x))
  {
    var AwaitCached(jobId, message, code, retryable, since) := w.ops[n];
    var previous := if cached.Some? then Some(cached.value.job) else Get(w.p.s.live.jobs, jobId);
    Unchanged(w.p);
    if previous.None? {
      hide KeepsGuards, PendingAbout, WorldOk;
      QuietStep(w, n, None, w.p);
    } else {
      var job := previous.value.(progressSummary := Some(previous.value.progressSummary.GetOr(Given(""))));
      TrackKeeps(w.p, job);
      FailureKeepsGuards(w.p, ReadFailure(job, message, code), since, x);
      FailureKeepsAbout(w.p, ReadFailure(job, message, code), since, x);
      hide KeepsGuards, PendingAbout, WorldOk, Track, AcceptFailure;
      QuietStep(w, n, None, if retryable then Track(w.p, job, None, None) else AcceptFailure(w.p, ReadFailure(job, message, code), since, x));
    }
  }

  lemma AcceptedKeepsOk(w: World, n: nat, a: AdapterJob, since: nat, x: Ports)
    requires WorldOk(w) && FreshPorts(w.p, x)
    ensures WorldOk(End(w, n, Accept(w.p, a, since, x).0))
  {
    AcceptKeepsGuards(w.p, a, since, x);
    AcceptKeepsAbout(w.p, a, since, x);
    hide KeepsGuards, PendingAbout, WorldOk, Accept;
    QuietStep(w, n, None, Accept(w.p, a, since, x).0);
  }

  lemma TickKeepsOk(w: World, n: nat, st: Step)
    requires WorldOk(w) && Enabled(w, st) && (st.STickStarts? || st.STickResumes?) && st.op == n
    ensures WorldOk(Next(w, st))
  {
    var j, pid := w.ops[n].jobId, w.ops[n].pid;
    if st.STickStarts? {
      TickStartKeeps(w.p, j, pid, st.x);
      var (p1, reading) := TickStart(w.p, j, pid, st.x);
      hide KeepsGuards, PendingAbout, WorldOk, TickStart;
      QuietStep(w, n, if reading then Some(AwaitTick(j, pid, w.clock)) else None, p1);
    } else {
      TickResumeKeeps(w.p, j, pid, st.r, w.ops[n].since, st.x);
      hide KeepsGuards, PendingAbout, WorldOk, TickResume;
      QuietStep(w, n, None, TickResume(w.p, j, pid, st.r, w.ops[n].since, st.x));
    }
  }

  lemma ScheduleKeepsOk(w: World, n: nat, j: string)
    requires WorldOk(w) && n !in w.ops
    ensures WorldOk(Next(w, SSchedule(n, j)))
  {
    var (p1, pid) := Schedule(w.p, j);
    if pid.Some? {
      WithPollKeeps(w.p, j, w.p.active[j].poll.(inFlight := true));
      hide KeepsGuards, PendingAbout, WorldOk;
      QuietStep(w, n, Some(TickQueued(j, pid.value)), p1);
    }
  }

  lemma RejectKeepsOk(w: World, id: string, detail: Job, x: Ports)
    requires WorldOk(w) && FreshPorts(w.p, x)
    ensures WorldOk(RejectPermission(w, id, detail, x))
  {
    if id in w.p.s.gate.requests.data {
      var job := FailureFor(w.p.s.gate.requests.data[id], detail);
      FailureKeepsGuards(w.p, job, w.clock, x);
      FailureKeepsAbout(w.p, job, w.clock, x);
      hide KeepsGuards, PendingAbout, WorldOk, AcceptFailure;
      QuietStep(w, 0, None, AcceptFailure(w.p, job, w.clock, x));
    }
  }

  lemma OutsideKeepsOk(w: World, s: System)
    requires WorldOk(w) && OutsideOk(w.p.s, s)
    ensures WorldOk(w.(p := w.p.(s := s)))
  {
    forall m | m in w.ops ensures OpOk(w.(p := w.p.(s := s)), w.ops[m]) {
      assert OpOk(w, w.ops[m]);
    }
  }

  lemma ThrowKeepsOk(w: World, n: nat)
    requires WorldOk(w) && n in w.ops && Outstanding(w.ops[n])
    ensures WorldOk(End(w, n, Dropped(w.p, w.ops[n].request.jobId)))
  {
    DroppedKeeps(w.p, w.ops[n].request.jobId);
    EndingStep(w, n, None, Dropped(w.p, w.ops[n].request.jobId));
  }

  lemma CancelKeepsOk(w: World, n: nat, j: string, affairId: string, queued: bool)
    requires WorldOk(w)
    ensures WorldOk(StartCancel(w, n, j, affairId, queued))
  {
    Unchanged(w.p);
    StartCancelOp(w, j, affairId, w.clock, queued);
    hide KeepsGuards, PendingAbout, WorldOk, OpOk;
    QuietStep(w, n, None, w.p);
    QuietStep(w, n, Some(AwaitRegistered(j, Get(w.p.s.live.jobs, j), affairId, w.clock, queued)), w.p);
  }

  lemma RestoreKeepsOk(w: World, n: nat, o: Op)
    requires WorldOk(w) && (o.AwaitRestore? || o.AwaitCached?)
    ensures WorldOk(Go(w, n, o, w.p))
  {
    Unchanged(w.p);
    QuietStep(w, n, Some(o), w.p);
  }

  lemma NextKeepsOk(w: World, st: Step)
    requires WorldOk(w) && Enabled(w, st)
    ensures WorldOk(Next(w, st))
  {
    hide WorldOk, FreshPorts, OutsideOk;
    match st {
      case SGrant(n, id, scoped, validInput, reuse, detail, x) => GrantKeepsOk(w, n, id, scoped, validInput, reuse, detail, x);
      case SRunCreated(n, made) => RunCreatedKeepsOk(w, n, made);
      case SCreateReturns(n, detail, x) => CreateReturnsKeepsOk(w, n, detail, x);
      case SCreateThrows(n) => ThrowKeepsOk(w, n);
      case SReject(id, detail, x) => RejectKeepsOk(w, id, detail, x);
      case SSchedule(n, j) => ScheduleKeepsOk(w, n, j);
      case STickStarts(n, x) => TickKeepsOk(w, n, st);
      case STickResumes(n, r, x) => TickKeepsOk(w, n, st);
      case SRestore(n, j) => RestoreKeepsOk(w, n, AwaitRestore(j, w.clock));
      case SRestoreResumes(n, r, x) => RestoreResumesKeepsOk(w, n, r, x);
      case SCachedResumes(n, cached, x) => CachedKeepsOk(w, n, cached, x);
      case SCancel(n, j, affairId, queued) => CancelKeepsOk(w, n, j, affairId, queued);
      case SRegisteredResumes(n, found, x) => RegisteredKeepsOk(w, n, found, x);
      case SCancelResumes(n, r, x) => CancelResumesKeepsOk(w, n, r, x);
      case SOutside(s) => OutsideKeepsOk(w, s);
    }
  }

  lemma CreateReturnsKeepsOk(w: World, n: nat, detail: Job, x: Ports)
    requires WorldOk(w) && n in w.ops && w.ops[n].CreateSettled? && FreshPorts(w.p, x)
    ensures WorldOk(CreateReturns(w, n, detail, x))
  {
    hide WorldOk, FreshPorts, CreateReturns;
    if w.ops[n].result.Got? {
      MadeCallKeepsOk(w, n, detail, x);
    } else {
      FailedCreateKeepsOk(w, n, detail, x);
    }
  }

  lemma RestoreResumesKeepsOk(w: World, n: nat, r: ReadResult, x: Ports)
    requires WorldOk(w) && n in w.ops && w.ops[n].AwaitRestore? && FreshPorts(w.p, x)
    ensures WorldOk(if r.Got? then End(w, n, Accept(w.p, r.a, w.ops[n].since, x).0)
                    else Go(w, n, AwaitCached(w.ops[n].jobId, r.message, r.code, r.retryable, w.ops[n].since), w.p))
  {
    hide WorldOk, FreshPorts, Accept;
    if r.Got? {
      AcceptedKeepsOk(w, n, r.a, w.ops[n].since, x);
    } else {
      RestoreKeepsOk(w, n, AwaitCached(w.ops[n].jobId, r.message, r.code, r.retryable, w.ops[n].since));
    }
  }

  lemma CancelResumesKeepsOk(w: World, n: nat, r: ReadResult, x: Ports)
    requires WorldOk(w) && n in w.ops && w.ops[n].AwaitCancel? && FreshPorts(w.p, x)
    ensures WorldOk(CancelResumes(w, n, r, x).0)
  {
    Unchanged(w.p);
    hide FreshPorts, Accept, KeepsGuards, PendingAbout, WorldOk;
    if r.Got? {
      AcceptedKeepsOk(w, n, r.a, w.ops[n].since, x);
    } else {
      AboutOf(w);
      QuietStep(w, n, None, w.p);
    }
  }

  lemma AboutOf(w: World)
    requires WorldOk(w)
    ensures PendingAbout(w.p)
  {
  }

  // ----- runs -----

  /** A process starts with nothing tracked and no call outstanding; the executor may already know some jobs. */
  ghost predicate Starts(w: World) {
    JobsKeyed(w.p.s.live) && w.p.active == map[] && w.ops == map[] && Distinct(w.registered)
  }

  ghost predicate IsRun(ws: seq<World>, steps: seq<Step>) {
    && |ws| == |steps| + 1 && Starts(ws[0])
    && forall i :: 0 <= i < |steps| ==> Enabled(ws[i], steps[i]) && ws[i + 1] == Next(ws[i], steps[i])
  }

  lemma {:induction false} RunKeepsOk(ws: seq<World>, steps: seq<Step>, n: nat)
    requires IsRun(ws, steps) && n < |ws|
    ensures WorldOk(ws[n])
  {
    if n > 0 {
      hide WorldOk;
      RunKeepsOk(ws, steps, n - 1);
      NextKeepsOk(ws[n - 1], steps[n - 1]);
    }
  }

  /** Under any interleaving of grants, rejections, ticks, restores, cancellations and create failures, two
      create calls for one job are never outstanding together. */
  lemma CreateCallsNeverOverlap(ws: seq<World>, steps: seq<Step>, n: nat, i: nat, j: nat)
    requires IsRun(ws, steps) && n < |ws| && i in ws[n].ops && j in ws[n].ops
    requires Outstanding(ws[n].ops[i]) && Outstanding(ws[n].ops[j]) && ws[n].ops[i].JobId() == ws[n].ops[j].JobId()
    ensures i == j
  {
    hide Enabled, Next;
    RunKeepsOk(ws, steps, n);
  }

  lemma RegisteredOnlyGrows(w: World, st: Step)
    requires Enabled(w, st)
    ensures w.registered <= Next(w, st).registered
  {
    hide Judge, Accept, AcceptFailure, TickStart, TickResume, Publish, ProjectToPhone, PublishCreated, CanExecute, Spend, FreshPorts, OutsideOk, Track;
  }

  /** At most one created run is ever registered for a job, and a registered one is never forgotten. */
  lemma {:induction false} OneRunPerJob(ws: seq<World>, steps: seq<Step>, n: nat, m: nat)
    requires IsRun(ws, steps) && n <= m < |ws|
    ensures Distinct(ws[m].registered) && ws[n].registered <= ws[m].registered
    decreases m - n
  {
    hide Enabled, Next;
    RunKeepsOk(ws, steps, m);
    if n < m {
      OneRunPerJob(ws, steps, n, m - 1);
      RegisteredOnlyGrows(ws[m - 1], steps[m - 1]);
    }
  }

  // ----- what justifies a call -----

  /** The runtime is asked for a run only right after the checks: every requested permission is granted and
      there is at least one, the job waits for permission, its affair is named, exists, has not ended and
      has no pending close, and the job is the affair's current one or an exploration. */
  predicate Justified(p: Polls, r: G.Request) {
    && r.requestedPermissions != [] && AllGranted(p.s.gate, r)
    && HasStatus(p.s.live, r.jobId, NeedsPermission)
    && !Blank(AffairOf(r)) && AffairOf(r) in p.s.live.affairs.data && !TerminalAffair(p.s.live.affairs.data[AffairOf(r)].status)
    && !IsClosing(p.s.live, AffairOf(r))
    && (p.s.live.jobs.data[r.jobId].purpose == Some(Exploration) || p.s.live.affairs.data[AffairOf(r)].currentJobId == Some(r.jobId))
  }

  lemma EveryCallIsJustified(w: World, st: Step, n: nat)
    requires Enabled(w, st) && n in Next(w, st).ops && Next(w, st).ops[n].AwaitCreate?
    requires n !in w.ops || !w.ops[n].AwaitCreate?
    ensures st.SGrant? && st.op == n && Justified(w.p, Next(w, st).ops[n].request)
  {
    hide IsClosing, AllGranted, Accept, AcceptFailure, TickStart, TickResume, Publish, ProjectToPhone, PublishCreated, Spend, FreshPorts, OutsideOk, Track;
    if st.SGrant? {
      GrantIsJustified(w, st.op, st.requestId, st.scoped, st.validInput, st.reuse, st.detail, st.x, n);
    }
  }

  lemma GrantIsJustified(w: World, op: nat, id: string, scoped: bool, validInput: bool, reuse: ReadResult, detail: Job, x: Ports, n: nat)
    requires op !in w.ops
    ensures var w' := Grant(w, op, id, scoped, validInput, reuse, detail, x);
      n in w'.ops && w'.ops[n].AwaitCreate? && (n !in w.ops || !w.ops[n].AwaitCreate?) ==> op == n && Justified(w.p, w'.ops[n].request)
  {
    hide IsClosing, AllGranted, AcceptFailure;
    BlankEmpty();
  }

  lemma BlankEmpty()
    ensures Blank("")
  {
  }

  /** The affair, if one is named, is registered, has not ended, has no close pending and is at this job, or the job explores. */
  predicate LetsRun(b: Backend, a: string, j: string) {
    && NoClosePending(b, a)
    && (a != "" ==>
          && a in b.affairs.data && b.affairs.data[a].status != Closed && b.affairs.data[a].status != Canceled
          && ((j in b.jobs.data && b.jobs.data[j].purpose == Some(Exploration)) || b.affairs.data[a].currentJobId == Some(j)))
  }

  lemma RunsExactly(b: Backend, a: string, j: string)
    ensures CanExecute(b, a, j) <==> LetsRun(b, a, j)
  {
    ClosingExactly(b, a);
    hide IsClosing, NoClosePending;
  }

  function NamedAffair(r: G.Request): string {
    if r.affairId.Some? then r.affairId.value else ""
  }

  /** A request that delegation may act on: it names a job that waits for permission and has no entry in the table, and its
      affair lets the job run. */
  predicate Actionable(p: Polls, id: string) {
    && id in p.s.gate.requests.data
    && var r := p.s.gate.requests.data[id];
       && r.jobId != "" && r.jobId !in p.active && r.jobId in p.s.live.jobs.data && p.s.live.jobs.data[r.jobId].status == NeedsPermission
       && LetsRun(p.s.live, NamedAffair(r), r.jobId)
  }

  /** Every permission it names, and there is one, is covered by an active grant of its job. */
  predicate Allowed(g: G.Gate, r: G.Request) {
    && r.requestedPermissions != []
    && forall i :: 0 <= i < |r.requestedPermissions| ==> G.Covered(g.grants, r.jobId, r.requestedPermissions[i])
  }

  lemma AllowedIsGranted(g: G.Gate, r: G.Request)
    ensures Allowed(g, r) <==> r.requestedPermissions != [] && AllGranted(g, r)
  {
    forall i | 0 <= i < |r.requestedPermissions|
      ensures G.HasGrant(g, r.jobId, r.requestedPermissions[i]) <==> G.Covered(g.grants, r.jobId, r.requestedPermissions[i])
    {
      G.CheckSpendsExactly(g, r.jobId, r.requestedPermissions[i]);
    }
    hide G.HasGrant, G.Covered;
  }

  lemma JudgedExactly(p: Polls, id: string, scoped: bool)
    ensures Judge(p, id, scoped) != Ignore <==> Actionable(p, id)
    ensures Judge(p, id, scoped) == Delegate <==> Actionable(p, id) && Allowed(p.s.gate, p.s.gate.requests.data[id]) && scoped
  {
    hide AllGranted, Allowed, CanExecute, LetsRun;
    if id in p.s.gate.requests.data {
      RunsExactly(p.s.live, NamedAffair(p.s.gate.requests.data[id]), p.s.gate.requests.data[id].jobId);
      AllowedIsGranted(p.s.gate, p.s.gate.requests.data[id]);
    }
  }

  /** When a granted request leads to what. It is ignored exactly if it is not actionable. It leads to a create call exactly if
      every permission it names is granted and its workspace is in scope; that call reaches the runtime exactly if its input is
      valid, it names an affair, and the executor does not know the job yet. Otherwise the job is reported as failed. */
  lemma GrantLeadsExactly(w: World, st: Step)
    requires Enabled(w, st) && st.SGrant?
    ensures var w' := Next(w, st);
      && (!Actionable(w.p, st.requestId) ==> w' == w)
      && (Actionable(w.p, st.requestId) ==>
            var r := w.p.s.gate.requests.data[st.requestId];
            if Allowed(w.p.s.gate, r) && st.scoped
            then st.op in w'.ops && Outstanding(w'.ops[st.op]) && w'.ops[st.op].request == r && r.jobId in w'.p.active && w'.p.s == w.p.s
                 && (w'.ops[st.op].AwaitCreate? <==> st.validInput && r.affairId.Some? && !Blank(r.affairId.value) && r.jobId !in w.registered)
            else w'.ops == w.ops && r.jobId in w'.p.attempted && w'.p.attempted[r.jobId] == w.clock && w'.clock == w.clock + 1)
  {
    JudgedExactly(w.p, st.requestId, st.scoped);
    BlankEmpty();
    if st.requestId in w.p.s.gate.requests.data {
      FailureIsTried(w.p, FailureFor(w.p.s.gate.requests.data[st.requestId], st.detail), w.clock, st.x);
    }
    hide Judge, Actionable, Allowed, AcceptFailure, FreshPorts, Blank;
  }

  lemma FailureIsTried(p: Polls, job: Job, asOf: nat, x: Ports)
    ensures var p' := AcceptFailure(p, job, asOf, x); job.jobId in p'.attempted && p'.attempted[job.jobId] == asOf
  {
    hide CommitJob, ProjectToPhone;
  }

  /** While a close of `a` is pending no create call is issued for a request of `a`. */
  lemma FenceStopsCreateCalls(w: World, st: Step, n: nat, a: string)
    requires Enabled(w, st) && IsClosing(w.p.s.live, a)
    requires n in Next(w, st).ops && Next(w, st).ops[n].AwaitCreate? && (n !in w.ops || !w.ops[n].AwaitCreate?)
    ensures AffairOf(Next(w, st).ops[n].request) != a
  {
    EveryCallIsJustified(w, st, n);
    hide IsClosing, Next, Enabled;
  }

  predicate RefusedAtOnce(o: Op) {
    Outstanding(o) && Blank(AffairOf(o.request)) ==> o.CreateSettled? && o.result.NotGot?
  }

  /** A request that names no affair escapes the fence at the decision, but gains no run: the executor refuses
      its create call at once, so the runtime is never asked. */
  lemma {:induction false} UnnamedRequestGetsNoRun(ws: seq<World>, steps: seq<Step>, i: nat, n: nat)
    requires IsRun(ws, steps) && i < |ws| && n in ws[i].ops
    ensures RefusedAtOnce(ws[i].ops[n])
  {
    hide Enabled, Next, RefusedAtOnce;
    if i > 0 {
      if n in ws[i - 1].ops {
        UnnamedRequestGetsNoRun(ws, steps, i - 1, n);
      }
      CallBefore(ws[i - 1], steps[i - 1], n);
    }
  }

  lemma CallBefore(w: World, st: Step, n: nat)
    requires Enabled(w, st) && n in Next(w, st).ops && (n in w.ops ==> RefusedAtOnce(w.ops[n]))
    ensures RefusedAtOnce(Next(w, st).ops[n])
  {
    hide IsClosing, AllGranted, Accept, AcceptFailure, TickStart, TickResume, Publish, ProjectToPhone, PublishCreated, Spend, FreshPorts, OutsideOk, Track, CanExecute, Blank;
  }

  // ----- cancelling one job -----

  lemma CommittedStops(p: Polls, a: AdapterJob, asOf: nat, x: Ports)
    requires FreshPorts(p, x) && StopStatus(a.job.status)
    ensures Accept(p, a, asOf, x).1 ==> HasStatus(Accept(p, a, asOf, x).0.s.live, a.job.jobId, a.job.status)
  {
    PublishCreatedTouches(p.s, a, x.accepted, x.status);
    ProjectionTouchesNoJob(PublishCreated(p.s, a, x.accepted, x.status).0, p.sent, a.job.affairId, x.affair);
    hide PublishCreated, ProjectToPhone;
  }

  /** `cancelJob` returns normally only if the job's registered status is now terminal: the executor gave a
      terminal result that was committed, or it does not know the job and the job was canceled before any run. */
  lemma CancelReturnsOnlyWhenStopped(w: World, n: nat, r: ReadResult, found: bool, x: Ports)
    requires WorldOk(w) && n in w.ops && FreshPorts(w.p, x)
    ensures w.ops[n].AwaitCancel? && Answers(r, w.ops[n].jobId) && CancelResumes(w, n, r, x).1 ==>
      r.Got? && TerminalJob(r.a.job.status) && HasStatus(CancelResumes(w, n, r, x).0.p.s.live, w.ops[n].jobId, r.a.job.status)
    ensures w.ops[n].AwaitRegistered? && RegisteredResumes(w, n, found, x).1 ==>
      !found && HasStatus(RegisteredResumes(w, n, found, x).0.p.s.live, w.ops[n].jobId, JobCanceled)
  {
    assert OpOk(w, w.ops[n]);
    if w.ops[n].AwaitCancel? && r.Got? && TerminalJob(r.a.job.status) {
      CommittedStops(w.p, r.a, w.ops[n].since, x);
    }
    if w.ops[n].AwaitRegistered? && w.ops[n].local.Some? {
      var job := Payload(CanceledBefore(w.ops[n].local.value), JobCanceled);
      SendTouches(w.p.s, KindOf(JobCanceled), job, x.status);
      ProjectionTouchesNoJob(Publish(w.p.s, JobCanceled, CanceledBefore(w.ops[n].local.value), x.status).0, w.p.sent, w.ops[n].affairId, x.affair);
    }
    hide Accept, Send, ProjectToPhone, WorldOk, FreshPorts;
  }
}
