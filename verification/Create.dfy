/** Registration of a new job: the checks before it, and its all-or-nothing commit. */
module Create {
  import opened Option
  import opened JsMap
  import opened Status
  import opened Types
  import opened Store
  import opened Closing
  import G = Gate

  // ----- the checks before creation -----

  datatype Precheck = Proceed | Replay | Deny(code: Code)

  function NormalizePurpose(p: Option<Purpose>): Purpose {
    if p == Some(Exploration) then Exploration else Execution
  }

  predicate IsEquivalentCreate(existing: Job, incoming: Job) {
    && existing.affairId == incoming.affairId
    && existing.goal == incoming.goal
    && NormalizePurpose(existing.purpose) == NormalizePurpose(incoming.purpose)
    && (Truthy(existing.taskIntentId) && Truthy(incoming.taskIntentId) ==> existing.taskIntentId == incoming.taskIntentId)
    && multiset(existing.allowedPermissions) == multiset(incoming.allowedPermissions)
  }

  function PrecheckCurrentExecution(b: Backend, payload: Job): Option<Code> {
    if payload.purpose == Some(Exploration) || payload.affairId !in b.affairs.data then None
    else
      var currentId := b.affairs.data[payload.affairId].currentJobId;
      var current := if Truthy(currentId) then Get(b.jobs, currentId.value) else None;
      if current.None? || current.value.jobId == payload.jobId || current.value.purpose == Some(Exploration)
         || TerminalJob(current.value.status) then None
      else Some(CurrentJobNotStopped)
  }

  /** `capable` is the verdict on the executor's browser capability for this goal. */
  function PrecheckCreate(b: Backend, messageId: string, payload: Job, capable: bool): Precheck {
    if messageId in b.seen.data then Replay
    else if payload.affairId !in b.affairs.data then Deny(AffairNotFound)
    else if IsClosing(b, payload.affairId) || AffairEnded(b, payload.affairId) then Deny(AffairClosing)
    else if payload.jobId !in b.jobs.data then
      var conflict := PrecheckCurrentExecution(b, payload);
      if conflict.Some? then Deny(conflict.value)
      else if payload.purpose != Some(Exploration) && !capable then Deny(CapabilityMissing)
      else Proceed
    else if !IsEquivalentCreate(b.jobs.data[payload.jobId], payload) then Deny(JobIdConflict)
    else Replay
  }

  // ----- the commit -----

  /** Apply events in turn, stopping at the first refusal. */
  function ApplyAll(b: Backend, events: seq<Envelope>, now: int): (Backend, ApplyResult)
    decreases |events|
  {
    if events == [] then (b, Applied)
    else
      var (b', r) := Apply(b, events[0], now);
      if r.Refused? then (b', r) else ApplyAll(b', events[1..], now)
  }

  function Draft(b: Backend, affair: Affair, payload: Job): Backend {
    if payload.purpose != Some(Exploration) || !Truthy(affair.currentJobId)
    then b.(affairs := Set(b.affairs, affair.affairId, affair.(currentJobId := Some(payload.jobId))))
    else b
  }

  /** The draft has its own maps but shares the chat lists with the state, so a chat event in `events`
      would be kept even when the creation is refused. */
  function SharedLists(b: Backend, draft: Backend): Backend {
    b.(chat := draft.chat, attachments := draft.attachments)
  }

  function CommitJobCreation(b: Backend, command: Envelope, events: seq<Envelope>, now: int, saved: bool): (Backend, ApplyResult) {
    if !Validated(command) || !command.body.JobEvent? || command.body.jobKind != JobCreateEvent then (b, Refused(JobCreateInvalid, false))
    else
      var payload := command.body.job;
      if payload.affairId !in b.affairs.data then (b, Refused(AffairNotFound, false))
      else
        var (draft, r) := ApplyAll(Draft(b, b.affairs.data[payload.affairId], payload), events, now);
        if r.Refused? then (SharedLists(b, draft), r)
        else if !saved then (SharedLists(b, draft), Refused(JobCreatePersistFailed, true))
        else
          (SharedLists(b, draft).(
             affairs := draft.affairs, jobs := draft.jobs,
             seen := Set(draft.seen, command.messageId, draft.updatedAt), updatedAt := draft.updatedAt), Applied)
  }

  /** The event loop on a draft; chat pushed into the draft's lists shows in the state that shares them. */
  method ApplyEvents(state: CompanionState, draft: CompanionState, events: seq<Envelope>, now: int) returns (r: ApplyResult)
    requires state != draft && state.Value() == SharedLists(state.Value(), draft.Value())
    modifies state, draft
    ensures draft.Value() == ApplyAll(old(draft.Value()), events, now).0
    ensures r.Refused? <==> ApplyAll(old(draft.Value()), events, now).1.Refused?
    ensures r.Refused? ==> r == ApplyAll(old(draft.Value()), events, now).1
    ensures state.Value() == SharedLists(old(state.Value()), draft.Value())
  {
    ghost var start := draft.Value();
    r := Applied;
    for i := 0 to |events|
      invariant ApplyAll(start, events, now) == ApplyAll(draft.Value(), events[i..], now)
      invariant state.Value() == SharedLists(old(state.Value()), draft.Value())
      invariant r == Applied
    {
      var result := draft.ApplyProtocolEnvelope(events[i], now);
      state.chat, state.attachments := draft.chat, draft.attachments;
      if result.Refused? {
        return result;
      }
      assert events[i..][1..] == events[i + 1..];
    }
  }

  /** `saved` says whether the mirror could be written. */
  method CommitJobCreationOn(state: CompanionState, command: Envelope, events: seq<Envelope>, now: int, saved: bool) returns (r: ApplyResult)
    modifies state
    ensures (state.Value(), r) == CommitJobCreation(old(state.Value()), command, events, now, saved)
  {
    if !Validated(command) || !command.body.JobEvent? || command.body.jobKind != JobCreateEvent {
      return Refused(JobCreateInvalid, false);
    }
    var payload := command.body.job;
    if payload.affairId !in state.affairs.data {
      return Refused(AffairNotFound, false);
    }
    var affair := state.affairs.data[payload.affairId];
    var draft := new CompanionState.Copy(state.Value());
    if payload.purpose != Some(Exploration) || !Truthy(affair.currentJobId) {
      draft.affairs := Set(draft.affairs, affair.affairId, affair.(currentJobId := Some(payload.jobId)));
    }
    r := ApplyEvents(state, draft, events, now);
    if r.Refused? {
      return;
    }
    var affairs, jobs, seen, updatedAt := state.affairs, state.jobs, state.seen, state.updatedAt;
    state.affairs, state.jobs := draft.affairs, draft.jobs;
    state.seen, state.updatedAt := Set(draft.seen, command.messageId, draft.updatedAt), draft.updatedAt;
    if !saved {
      state.affairs, state.jobs, state.seen, state.updatedAt := affairs, jobs, seen, updatedAt;
      return Refused(JobCreatePersistFailed, true);
    }
    r := Applied;
  }

  // ----- what the commit guarantees -----

  predicate ChatFree(events: seq<Envelope>) {
    forall i :: 0 <= i < |events| ==> !events[i].body.Chat?
  }

  lemma ApplyKeepsLists(b: Backend, e: Envelope, now: int)
    ensures var b' := Apply(b, e, now).0;
      && (!e.body.Chat? ==> b'.chat == b.chat && b'.attachments == b.attachments)
      && b'.actions == b.actions && b'.receipts == b.receipts && b'.deliveries == b.deliveries
  {
  }

  lemma {:induction false} ChatFreeKeepsLists(b: Backend, events: seq<Envelope>, now: int)
    requires ChatFree(events)
    ensures var b' := ApplyAll(b, events, now).0;
      b'.chat == b.chat && b'.attachments == b.attachments && b'.actions == b.actions && b'.receipts == b.receipts && b'.deliveries == b.deliveries
    decreases |events|
  {
    if events != [] {
      ApplyKeepsLists(b, events[0], now);
      ChatFreeKeepsLists(Apply(b, events[0], now).0, events[1..], now);
    }
  }

  /** Atomicity. A refused creation, whichever event or the save refused it, leaves the state exactly as
      it was (for any events without chat messages, as the job handler sends them). */
  lemma RefusedCreationChangesNothing(b: Backend, command: Envelope, events: seq<Envelope>, now: int, saved: bool)
    requires ChatFree(events)
    ensures CommitJobCreation(b, command, events, now, saved).1.Refused? ==> CommitJobCreation(b, command, events, now, saved).0 == b
    ensures !saved ==> CommitJobCreation(b, command, events, now, saved).1.Refused?
  {
    if command.body.JobEvent? && command.body.job.affairId in b.affairs.data {
      ChatFreeKeepsLists(Draft(b, b.affairs.data[command.body.job.affairId], command.body.job), events, now);
    }
  }

  /** About the commit alone: with a chat message among the events a refusal is not complete, as the message stays.
      `handleJobCreate` never passes one, so what it asks for is refused completely (CreationIsAtomic). */
  lemma ChatEventSurvivesRefusal(b: Backend, command: Envelope, entry: ChatEntry, id: string, now: int)
    requires Validated(command) && command.body.JobEvent? && command.body.jobKind == JobCreateEvent
    requires command.body.job.affairId in b.affairs.data && id !in b.seen.data
    requires entry.kind == Message && FindEntry(b.chat, entry.id).None?
    ensures var (b', r) := CommitJobCreation(b, command, [Envelope(id, false, true, Chat(entry))], now, false);
      r.Refused? && b' != b && b'.chat == b.chat + [entry]
  {
    var e := Envelope(id, false, true, Chat(entry));
    var draft := Draft(b, b.affairs.data[command.body.job.affairId], command.body.job);
    assert ApplyAll(draft, [e], now) == ApplyAll(Apply(draft, e, now).0, [], now) by { assert [e][1..] == []; }
    assert |b.chat + [entry]| > |b.chat|;
  }

  // ----- the job handler -----

  datatype CreateReply = Created | AlreadyDone | NotCreated(code: Code)

  /** What the outside supplies to one handling: permissions accepted by validation (or refused), fresh
      ids, the capability verdict, and whether the outbound messages validate and the mirror saves. */
  datatype CreateInput = CreateInput(
    requested: Option<seq<G.Permission>>, newRequestId: string, needsId: string, requestMessageId: string,
    capable: bool, outboundValid: bool, saved: bool, now: int)

  function RequestFor(payload: Job, permissions: seq<G.Permission>, newRequestId: string): G.Request {
    G.Request(payload.permissionRequestId.GetOr(newRequestId), payload.jobId, Some(payload.affairId), permissions, payload.goal, None, payload.rest)
  }

  function NeedsEvent(payload: Job, requestId: string, x: CreateInput): Envelope {
    Envelope(x.needsId, false, x.outboundValid,
      JobEvent(JobNeedsPermissionEvent,
        payload.(status := NeedsPermission, permissionRequestId := Some(requestId), progressSummary := Some(Given("")))))
  }

  function EventsFor(payload: Job, requestId: string, x: CreateInput): seq<Envelope> {
    [NeedsEvent(payload, requestId, x), Envelope(x.requestMessageId, false, x.outboundValid, OtherBody)]
  }

  /** `handleJobCreate`: no `await` inside, so it is one step. The claim set it takes and releases within
      that step is never observed. */
  function HandleJobCreate(b: Backend, g: G.Gate, command: Envelope, x: CreateInput): (Backend, G.Gate, CreateReply)
    requires command.body.JobEvent?
  {
    var payload := command.body.job;
    match PrecheckCreate(b, command.messageId, payload, x.capable)
    case Deny(code) => (b, g, NotCreated(code))
    case Replay => (b, g, AlreadyDone)
    case Proceed =>
      if G.HasPendingForJob(g, payload.jobId) || payload.jobId in b.jobs.data then (b, g, NotCreated(JobCreateInFlight))
      else if x.requested.None? then (b, g, NotCreated(PermissionsRefused))
      else
        var request := RequestFor(payload, x.requested.value, x.newRequestId);
        var (g', queued) := G.Enqueue(g, request);
        if !queued then (b, g, NotCreated(PermissionDuplicate))
        else if !x.outboundValid then (b, G.Expire(g', G.OfJob(payload.jobId)), NotCreated(JobCreateOutboundInvalid))
        else
          var (b', r) := CommitJobCreation(b, command, EventsFor(payload, request.permissionRequestId, x), x.now, x.saved);
          if r.Refused? then (b', G.Expire(g', G.OfJob(payload.jobId)), NotCreated(r.code)) else (b', g', Created)
  }

  /** A create for a job id that is already registered never changes anything, whatever it answers. */
  lemma KnownJobIsNeverRecreated(b: Backend, g: G.Gate, command: Envelope, x: CreateInput)
    requires command.body.JobEvent? && command.body.job.jobId in b.jobs.data
    ensures var (b', g', reply) := HandleJobCreate(b, g, command, x);
      b' == b && g' == g && reply != Created
  {
  }

  /** Only an accepted creation changes the state, and it changes just one job and its affair. */
  lemma CreationIsAtomic(b: Backend, g: G.Gate, command: Envelope, x: CreateInput)
    requires command.body.JobEvent?
    ensures HandleJobCreate(b, g, command, x).2 != Created ==> HandleJobCreate(b, g, command, x).0 == b
  {
    var payload := command.body.job;
    if PrecheckCreate(b, command.messageId, payload, x.capable).Proceed? && x.requested.Some? {
      var request := RequestFor(payload, x.requested.value, x.newRequestId);
      RefusedCreationChangesNothing(b, command, EventsFor(payload, request.permissionRequestId, x), x.now, x.saved);
    }
  }

  /** The two events of the handler, applied to a state in which the job is new and its affair live. */
  lemma NewJobEvents(d: Backend, payload: Job, requestId: string, x: CreateInput)
    requires WellKeyed(d) && payload.jobId !in d.jobs.data && payload.affairId in d.affairs.data && !AffairEnded(d, payload.affairId)
    requires payload.jobId != "" && payload.affairId != ""
    requires x.outboundValid && x.needsId !in d.seen.data && x.requestMessageId !in d.seen.data && x.needsId != x.requestMessageId
    ensures var (d', r) := ApplyAll(d, EventsFor(payload, requestId, x), x.now);
      var job := payload.(status := NeedsPermission, permissionRequestId := Some(requestId), progressSummary := Some(Given("")));
      && r == Applied && d'.updatedAt == x.now
      && d'.jobs == Set(d.jobs, payload.jobId, job)
      && d'.affairs == UpdateAffairFromJob(d.affairs, d.affairs.data[payload.affairId], job)
      && d'.seen == Set(Set(d.seen, x.needsId, x.now), x.requestMessageId, x.now)
  {
    var events := EventsFor(payload, requestId, x);
    var (d1, r1) := Apply(d, events[0], x.now);
    assert r1 == Applied && d1.seen == Set(d.seen, x.needsId, x.now);
    assert events[1..] == [events[1]] && events[1..][1..] == [];
    assert Apply(d1, events[1], x.now).1 == Applied;
    assert ApplyAll(d1, events[1..], x.now) == ApplyAll(Apply(d1, events[1], x.now).0, [], x.now);
  }

  /** A creation that passed the checks, with fresh ids, succeeds exactly when the mirror saves. The job
      then waits for permission, the command and both events count as seen, and it is the affair's
      current job exactly when it is an execution job or none was current. */
  lemma AcceptedCreation(b: Backend, g: G.Gate, command: Envelope, x: CreateInput)
    requires WellKeyed(b)
    requires Validated(command) && command.body.JobEvent? && command.body.jobKind == JobCreateEvent
    requires PrecheckCreate(b, command.messageId, command.body.job, x.capable) == Proceed
    requires x.requested.Some? && x.outboundValid && !G.HasPendingForJob(g, command.body.job.jobId)
    requires RequestFor(command.body.job, x.requested.value, x.newRequestId).permissionRequestId !in g.requests.data
    requires x.needsId !in b.seen.data && x.requestMessageId !in b.seen.data && x.needsId != x.requestMessageId
    ensures var (b', g', reply) := HandleJobCreate(b, g, command, x);
      var payload := command.body.job;
      var before := b.affairs.data[payload.affairId];
      && (reply == Created <==> x.saved)
      && (reply == Created ==>
        && payload.jobId in b'.jobs.data && b'.jobs.data[payload.jobId].status == NeedsPermission
        && {command.messageId, x.needsId, x.requestMessageId} <= b'.seen.data.Keys
        && payload.affairId in b'.affairs.data
        && b'.affairs.data[payload.affairId].currentJobId ==
           if payload.purpose != Some(Exploration) || !Truthy(before.currentJobId) then Some(payload.jobId) else before.currentJobId)
  {
    var payload := command.body.job;
    var request := RequestFor(payload, x.requested.value, x.newRequestId);
    var affair := b.affairs.data[payload.affairId];
    var d := Draft(b, affair, payload);
    assert WellKeyed(d);
    NewJobEvents(d, payload, request.permissionRequestId, x);
  }
}
