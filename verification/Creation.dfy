/** What becomes of a command to create a job, exactly, from its arrival to what it leaves in store and gate. */
module Creation {
  import opened Option
  import opened JsMap
  import opened Status
  import opened Types
  import opened Store
  import opened Closing
  import opened Projection
  import opened Create
  import G = Gate

  /** The affair is registered, has not ended, and no close of it is pending. */
  predicate AffairOpen(b: Backend, a: string) {
    a in b.affairs.data && !HasEnded(b, a) && NoClosePending(b, a)
  }

  /** An execution would push aside another one of the affair that is not over. */
  predicate WouldReplaceLive(b: Backend, payload: Job) {
    && payload.purpose != Some(Exploration) && payload.affairId in b.affairs.data
    && var current := b.affairs.data[payload.affairId].currentJobId;
       && current.Some? && current.value != "" && current.value in b.jobs.data
       && b.jobs.data[current.value].purpose != Some(Exploration) && b.jobs.data[current.value].status !in {Completed, Failed, JobCanceled}
  }

  /** The stored job was ordered in the same words, except that a missing purpose counts as execution, the order of permissions does
      not matter, and an intent matters only if both name one. */
  ghost predicate SameOrder(stored: Job, sent: Job) {
    && stored.affairId == sent.affairId && stored.goal == sent.goal
    && (stored.purpose == Some(Exploration) <==> sent.purpose == Some(Exploration))
    && (forall p :: multiset(stored.allowedPermissions)[p] == multiset(sent.allowedPermissions)[p])
    && (stored.taskIntentId.Some? && sent.taskIntentId.Some? && stored.taskIntentId != sent.taskIntentId ==>
          stored.taskIntentId.value == "" || sent.taskIntentId.value == "")
  }

  predicate HasOpenRequest(g: G.Gate, j: string) {
    exists id :: id in g.requests.data && id in g.queue.data && g.queue.data[id] == G.Waiting && g.requests.data[id].jobId == j
  }

  ghost predicate IsReplay(b: Backend, messageId: string, payload: Job) {
    messageId in b.seen.data
    || (AffairOpen(b, payload.affairId) && payload.jobId in b.jobs.data && SameOrder(b.jobs.data[payload.jobId], payload))
  }

  /** Nothing in the state stands in the way of the new job. */
  ghost predicate MayCreate(b: Backend, g: G.Gate, messageId: string, payload: Job, capable: bool) {
    && messageId !in b.seen.data && AffairOpen(b, payload.affairId) && payload.jobId !in b.jobs.data
    && !WouldReplaceLive(b, payload) && (payload.purpose == Some(Exploration) || capable) && !HasOpenRequest(g, payload.jobId)
  }

  function RequestId(payload: Job, x: CreateInput): string {
    if payload.permissionRequestId.Some? then payload.permissionRequestId.value else x.newRequestId
  }

  lemma OrderExactly(stored: Job, sent: Job)
    ensures IsEquivalentCreate(stored, sent) <==> SameOrder(stored, sent)
  {
    assert multiset(stored.allowedPermissions) == multiset(sent.allowedPermissions)
      <==> forall p :: multiset(stored.allowedPermissions)[p] == multiset(sent.allowedPermissions)[p];
  }

  lemma OpenExactly(b: Backend, a: string)
    ensures AffairOpen(b, a) <==> a in b.affairs.data && !IsClosing(b, a) && !AffairEnded(b, a)
  {
    ClosingExactly(b, a);
    hide IsClosing, NoClosePending;
  }

  lemma ReplacesExactly(b: Backend, payload: Job)
    requires WellKeyed(b) && payload.jobId !in b.jobs.data
    ensures PrecheckCurrentExecution(b, payload).Some? <==> WouldReplaceLive(b, payload)
    ensures PrecheckCurrentExecution(b, payload).Some? ==> PrecheckCurrentExecution(b, payload).value == CurrentJobNotStopped
  {
  }

  lemma PrecheckedExactly(b: Backend, messageId: string, payload: Job, capable: bool)
    requires WellKeyed(b)
    ensures var r := PrecheckCreate(b, messageId, payload, capable);
      && (r == Replay <==> IsReplay(b, messageId, payload))
      && (r == Proceed <==> messageId !in b.seen.data && AffairOpen(b, payload.affairId) && payload.jobId !in b.jobs.data
                            && !WouldReplaceLive(b, payload) && (payload.purpose == Some(Exploration) || capable))
      && (r.Deny? ==> r.code == (if payload.affairId !in b.affairs.data then AffairNotFound
                                 else if !AffairOpen(b, payload.affairId) then AffairClosing
                                 else if payload.jobId in b.jobs.data then JobIdConflict
                                 else if WouldReplaceLive(b, payload) then CurrentJobNotStopped else CapabilityMissing))
  {
    OpenExactly(b, payload.affairId);
    if payload.jobId in b.jobs.data {
      OrderExactly(b.jobs.data[payload.jobId], payload);
    } else {
      ReplacesExactly(b, payload);
    }
    hide IsClosing, AffairEnded, AffairOpen, WouldReplaceLive, IsEquivalentCreate, SameOrder, PrecheckCurrentExecution;
  }

  lemma InFlightExactly(g: G.Gate, j: string)
    ensures G.HasPendingForJob(g, j) <==> HasOpenRequest(g, j)
  {
    forall id | id in g.requests.data ensures G.IsWaiting(g, id) <==> id in g.queue.data && g.queue.data[id] == G.Waiting {
    }
  }

  // ----- the whole command -----

  /** Fresh ids for the two messages of the handling. */
  predicate FreshMessages(b: Backend, x: CreateInput) {
    x.needsId !in b.seen.data && x.requestMessageId !in b.seen.data && x.needsId != x.requestMessageId
  }

  /** The job as creation registers it. */
  function Registered(payload: Job, requestId: string): Job {
    payload.(status := NeedsPermission, permissionRequestId := Some(requestId), progressSummary := Some(Given("")))
  }

  /** The request that creation queues: for this job and affair, about what was asked for. */
  predicate AsksFor(r: G.Request, payload: Job, x: CreateInput) {
    && r.permissionRequestId == RequestId(payload, x) && r.jobId == payload.jobId && r.affairId == Some(payload.affairId)
    && Some(r.requestedPermissions) == x.requested && r.reason == payload.goal
  }

  /** How the handling goes, step by step, in terms of the conditions above. */
  lemma HandledExactly(b: Backend, g: G.Gate, command: Envelope, x: CreateInput)
    requires WellKeyed(b) && Validated(command) && command.body.JobEvent? && command.body.jobKind == JobCreateEvent && FreshMessages(b, x)
    ensures var payload := command.body.job;
      var (b', g', reply) := HandleJobCreate(b, g, command, x);
      var may := MayCreate(b, g, command.messageId, payload, x.capable) && x.requested.Some? && RequestId(payload, x) !in g.requests.data;
      && (reply == Created <==> may && x.outboundValid && x.saved)
      && (reply == AlreadyDone <==> IsReplay(b, command.messageId, payload))
      && (reply != Created ==> b' == b)
      && (!may ==> g' == g)
      && (may ==> g'.grants == g.grants && g'.requests == Set(g.requests, RequestId(payload, x), RequestFor(payload, x.requested.value, x.newRequestId)))
  {
    hide IsReplay, PrecheckCreate, G.HasPendingForJob, HasOpenRequest, AffairOpen, WouldReplaceLive, CommitJobCreation;
    var payload := command.body.job;
    PrecheckedExactly(b, command.messageId, payload, x.capable);
    InFlightExactly(g, payload.jobId);
    CreationIsAtomic(b, g, command, x);
    if PrecheckCreate(b, command.messageId, payload, x.capable) == Proceed && x.requested.Some? && x.outboundValid {
      CommitsExactly(b, command, RequestId(payload, x), x);
    }
  }

  lemma CommitsExactly(b: Backend, command: Envelope, requestId: string, x: CreateInput)
    requires WellKeyed(b) && Validated(command) && command.body.JobEvent? && command.body.jobKind == JobCreateEvent && FreshMessages(b, x)
    requires PrecheckCreate(b, command.messageId, command.body.job, x.capable) == Proceed && x.outboundValid
    ensures CommitJobCreation(b, command, EventsFor(command.body.job, requestId, x), x.now, x.saved).1.Refused? <==> !x.saved
  {
    var payload := command.body.job;
    var d := Draft(b, b.affairs.data[payload.affairId], payload);
    assert WellKeyed(d);
    NewJobEvents(d, payload, requestId, x);
    hide ApplyAll, Apply;
  }

  /** A command to create a job, exactly. The job is created if and only if nothing in the state stands in its way, the permissions
      it asks for are acceptable, its request is new, its messages validate, and the save succeeds. It counts as done already
      exactly if it was seen before or its job stands in the same words under an open affair. Whatever is not created
      changes no affair and no job, grants nothing, and leaves no request of the job waiting that was not waiting before. */
  lemma CreatedExactlyWhen(b: Backend, g: G.Gate, command: Envelope, x: CreateInput)
    requires WellKeyed(b) && Validated(command) && command.body.JobEvent? && command.body.jobKind == JobCreateEvent && FreshMessages(b, x)
    ensures var payload := command.body.job;
      var (b', g', reply) := HandleJobCreate(b, g, command, x);
      && (reply == Created <==>
            && MayCreate(b, g, command.messageId, payload, x.capable) && x.requested.Some? && RequestId(payload, x) !in g.requests.data
            && x.outboundValid && x.saved)
      && (reply == AlreadyDone <==> IsReplay(b, command.messageId, payload))
      && g'.grants == g.grants
      && (reply != Created ==> b' == b && (HasOpenRequest(g', payload.jobId) ==> HasOpenRequest(g, payload.jobId)))
      && (reply == Created ==>
            var id := RequestId(payload, x);
            && id in g'.requests.data && AsksFor(g'.requests.data[id], payload, x) && g'.requests.data == g.requests.data[id := g'.requests.data[id]]
            && g'.queue.data == g.queue.data[id := G.Waiting])
  {
    hide IsReplay, MayCreate, PrecheckCreate, CommitJobCreation, HasOpenRequest;
    HandledExactly(b, g, command, x);
    var (b', g', reply) := HandleJobCreate(b, g, command, x);
    if reply != Created && g' != g {
      var request := RequestFor(command.body.job, x.requested.value, x.newRequestId);
      ExpiredIsNotOpen(G.Enqueue(g, request).0, command.body.job.jobId);
    }
  }

  lemma ExpiredIsNotOpen(g: G.Gate, j: string)
    ensures !HasOpenRequest(G.Expire(g, G.OfJob(j)), j)
  {
  }

  /** The affair as a creation leaves it, up to its status: an execution becomes its current job, an exploration only if it has
      none. */
  predicate AtJob(before: Affair, payload: Job, after: Affair) {
    after.currentJobId == if payload.purpose != Some(Exploration) || before.currentJobId.None? || before.currentJobId.value == ""
                          then Some(payload.jobId) else before.currentJobId
  }

  /** What an accepted creation writes: one job, which waits for permission under the request that was queued; the affair, which is
      then at the job as AtJob says, and is delegated to an execution if it was ready or delegated before; and the ids of the
      command and of its two messages. */
  lemma CreationWrites(b: Backend, g: G.Gate, command: Envelope, x: CreateInput)
    requires WellKeyed(b) && Validated(command) && command.body.JobEvent? && command.body.jobKind == JobCreateEvent && FreshMessages(b, x)
    requires HandleJobCreate(b, g, command, x).2 == Created
    ensures var payload, b' := command.body.job, HandleJobCreate(b, g, command, x).0;
      var a, job := payload.affairId, Registered(payload, RequestId(payload, x));
      && a in b.affairs.data && a in b'.affairs.data && b'.jobs == Set(b.jobs, payload.jobId, job)
      && b'.affairs.data == b.affairs.data[a := b'.affairs.data[a]]
      && (var before, after := b.affairs.data[a], b'.affairs.data[a];
          && AtJob(before, payload, after)
          && (if payload.purpose != Some(Exploration) && before.status in {Ready, Delegated} then Follows(after, before, job)
              else after == before.(currentJobId := after.currentJobId)))
      && b'.seen.data == b.seen.data[x.needsId := x.now][x.requestMessageId := x.now][command.messageId := x.now] && b'.updatedAt == x.now
      && b'.actions == b.actions && b'.chat == b.chat && b'.attachments == b.attachments && b'.receipts == b.receipts && b'.lastError == b.lastError
  {
    hide HandleJobCreate, CommitJobCreation, UpdateAffairFromJob, Follows, Validated, EventsFor, PrecheckCreate;
    var payload := command.body.job;
    var id := RequestId(payload, x);
    CreatedIsTheCommit(b, g, command, x);
    CommitWrites(b, command, id, x);
    var before := b.affairs.data[payload.affairId];
    var d := Draft(b, before, payload);
    UpdateFollows(d.affairs, d.affairs.data[payload.affairId], Registered(payload, id));
    FollowsFromDraft(before, payload, id, HandleJobCreate(b, g, command, x).0.affairs.data[payload.affairId]);
  }

  lemma CreatedIsTheCommit(b: Backend, g: G.Gate, command: Envelope, x: CreateInput)
    requires command.body.JobEvent? && HandleJobCreate(b, g, command, x).2 == Created
    ensures var payload := command.body.job;
      && PrecheckCreate(b, command.messageId, payload, x.capable) == Proceed && x.outboundValid
      && CommitJobCreation(b, command, EventsFor(payload, RequestId(payload, x), x), x.now, x.saved).1 == Applied
      && HandleJobCreate(b, g, command, x).0 == CommitJobCreation(b, command, EventsFor(payload, RequestId(payload, x), x), x.now, x.saved).0
  {
    hide PrecheckCreate, ApplyAll, EventsFor, Validated, Draft;
  }

  lemma CommitWrites(b: Backend, command: Envelope, id: string, x: CreateInput)
    requires WellKeyed(b) && Validated(command) && command.body.JobEvent? && command.body.jobKind == JobCreateEvent && FreshMessages(b, x)
    requires PrecheckCreate(b, command.messageId, command.body.job, x.capable) == Proceed && x.outboundValid
    requires CommitJobCreation(b, command, EventsFor(command.body.job, id, x), x.now, x.saved).1 == Applied
    ensures var payload, b' := command.body.job, CommitJobCreation(b, command, EventsFor(command.body.job, id, x), x.now, x.saved).0;
      && payload.affairId in b.affairs.data
      && (var d := Draft(b, b.affairs.data[payload.affairId], payload);
          && payload.affairId in d.affairs.data && d.affairs.data[payload.affairId].affairId == payload.affairId
          && b'.affairs == UpdateAffairFromJob(d.affairs, d.affairs.data[payload.affairId], Registered(payload, id)))
      && b'.jobs == Set(b.jobs, payload.jobId, Registered(payload, id))
      && b'.seen.data == b.seen.data[x.needsId := x.now][x.requestMessageId := x.now][command.messageId := x.now] && b'.updatedAt == x.now
      && b'.actions == b.actions && b'.chat == b.chat && b'.attachments == b.attachments && b'.receipts == b.receipts && b'.lastError == b.lastError
  {
    var payload := command.body.job;
    var d := Draft(b, b.affairs.data[payload.affairId], payload);
    assert WellKeyed(d);
    NewJobEvents(d, payload, id, x);
    ChatFreeKeepsLists(d, EventsFor(payload, id, x), x.now);
    hide ApplyAll, UpdateAffairFromJob, PrecheckCreate, WellKeyed;
  }

  lemma FollowsFromDraft(before: Affair, payload: Job, id: string, after: Affair)
    ensures Follows(after, before.(currentJobId := Some(payload.jobId)), Registered(payload, id)) <==> Follows(after, before, Registered(payload, id))
  {
  }
}
