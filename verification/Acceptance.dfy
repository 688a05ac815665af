/** Close requests from beginning to end, in terms of statuses and evidence: when a fresh request is carried out, what it
    leaves then, and why and how it is refused otherwise. */
module Acceptance {
  import opened Option
  import opened JsMap
  import opened Status
  import opened Types
  import opened Store
  import opened Mirror
  import opened Closing
  import opened Coordinator
  import opened Authority
  import opened Invariant
  import opened Guarantees
  import opened Progress
  import opened Reconcile
  import opened Projection
  import C = Create
  import G = Gate

  // ----- the conditions -----

  predicate Says(s: Option<string>) {
    s.Some? && SaysSomething(s.value)
  }

  /** A command whose texts, as far as they are given, are not blank, and which says what is accepted. */
  predicate WellFormed(c: CloseCommand) {
    && SaysSomething(c.affairId)
    && (c.expectedCurrentJobId.None? || Says(c.expectedCurrentJobId))
    && (c.acceptanceSummary.None? || Says(c.acceptanceSummary))
    && (c.closeReason.None? || Says(c.closeReason))
    && (c.status == ToCanceled || c.acceptanceSummary.Some?)
  }

  /** The affair is at the job that the user saw, or at none if the user saw none. */
  predicate SeenAsItIs(b: Backend, c: CloseCommand) {
    c.affairId in b.affairs.data && b.affairs.data[c.affairId].currentJobId == c.expectedCurrentJobId
  }

  /** The affair's current job is an execution of it that completed, with evidence and something to show. */
  predicate HasResult(b: Backend, a: string) {
    && a in b.affairs.data && b.affairs.data[a].currentJobId.Some? && b.affairs.data[a].currentJobId.value != ""
    && var j := b.affairs.data[a].currentJobId.value;
       && j in b.jobs.data && b.jobs.data[j].affairId == a && b.jobs.data[j].status == Completed
       && (b.jobs.data[j].purpose.Some? ==> b.jobs.data[j].purpose.value == Execution)
       && b.jobs.data[j].evidenceQuality == Some(Present) && Says(b.jobs.data[j].resultDigest)
  }

  predicate AllOver(b: Backend, a: string) {
    forall j :: j in b.jobs.data && b.jobs.data[j].affairId == a ==>
      b.jobs.data[j].status == Completed || b.jobs.data[j].status == Failed || b.jobs.data[j].status == JobCanceled
  }

  predicate MayBeCanceled(b: Backend, c: CloseCommand) {
    SeenAsItIs(b, c) && b.affairs.data[c.affairId].status != Closed && b.affairs.data[c.affairId].status != Canceled
  }

  /** Earlier attempts under the affair that failed or were canceled do not stand in the way. */
  predicate MayBeAccepted(b: Backend, c: CloseCommand) {
    && SeenAsItIs(b, c) && b.affairs.data[c.affairId].status == WaitingAcceptance
    && Says(c.acceptanceSummary) && HasResult(b, c.affairId) && AllOver(b, c.affairId)
  }

  predicate MayBeClosed(b: Backend, c: CloseCommand) {
    if c.status == ToClosed then MayBeAccepted(b, c) else MayBeCanceled(b, c)
  }

  /** The reason for a refusal: the first of these that holds. */
  function Hindrance(b: Backend, c: CloseCommand): Code {
    if c.affairId !in b.affairs.data then AffairNotFound
    else if !SeenAsItIs(b, c) then AffairCurrentJobChanged
    else if b.affairs.data[c.affairId].status != WaitingAcceptance then AffairCloseRejected
    else if !AllOver(b, c.affairId) && HasResult(b, c.affairId) && Says(c.acceptanceSummary) then AffairJobsStillActive
    else AffairAcceptanceEvidenceMissing
  }

  lemma SoundCommands(c: CloseCommand)
    ensures ValidCommand(c) <==> WellFormed(c)
  {
    BlankSaysNothing(c.affairId);
    if c.expectedCurrentJobId.Some? { BlankSaysNothing(c.expectedCurrentJobId.value); }
    if c.acceptanceSummary.Some? { BlankSaysNothing(c.acceptanceSummary.value); }
    if c.closeReason.Some? { BlankSaysNothing(c.closeReason.value); }
    hide Blank, SaysSomething;
  }

  lemma EvidenceExactly(b: Backend, a: string)
    requires a in b.affairs.data
    ensures var current := b.affairs.data[a].currentJobId;
      HasAcceptanceEvidence(if Truthy(current) then Get(b.jobs, current.value) else None, a) <==> HasResult(b, a)
  {
    var current := b.affairs.data[a].currentJobId;
    if Truthy(current) && current.value in b.jobs.data && b.jobs.data[current.value].resultDigest.Some? {
      BlankSaysNothing(b.jobs.data[current.value].resultDigest.value);
    }
    hide Blank, SaysSomething;
  }

  lemma LiveExactly(b: Backend, a: string)
    ensures (exists j :: j in b.jobs.data && LiveJobOf(b, j, a)) <==> !AllOver(b, a)
  {
  }

  lemma AcceptanceCheckedExactly(b: Backend, affair: Affair, c: CloseCommand)
    requires affair.affairId == c.affairId && c.affairId in b.affairs.data && b.affairs.data[c.affairId] == affair
    ensures PrecheckAcceptance(b, affair, c) ==
      if affair.status != WaitingAcceptance || !Says(c.acceptanceSummary) || !HasResult(b, c.affairId) then Some(AffairAcceptanceEvidenceMissing)
      else if !AllOver(b, c.affairId) then Some(AffairJobsStillActive) else None
  {
    EvidenceExactly(b, c.affairId);
    LiveExactly(b, c.affairId);
    if c.acceptanceSummary.Some? { BlankSaysNothing(c.acceptanceSummary.value); }
    hide Blank, SaysSomething, HasAcceptanceEvidence, HasResult, AllOver, LiveJobOf;
  }

  /** The check passes exactly if the affair may be closed, and refuses with the first hindrance. */
  lemma CheckedExactly(b: Backend, c: CloseCommand)
    requires WellKeyed(b)
    ensures Precheck(b, c).None? <==> MayBeClosed(b, c)
    ensures Precheck(b, c).Some? ==> Precheck(b, c).value == if c.status == ToCanceled && SeenAsItIs(b, c) then AffairCloseRejected else Hindrance(b, c)
  {
    if c.affairId in b.affairs.data {
      AcceptanceCheckedExactly(b, b.affairs.data[c.affairId], c);
      TablesAgree(b.affairs.data[c.affairId].status, c.status.Affair(), Queued, Queued);
    }
    hide Says, HasResult, AllOver, PrecheckAcceptance, AffairEdge;
  }

  // ----- one request, from its arrival on -----

  /** A request arrives, and if it has to wait for its turn, gets it; `published` and `shown` say whether the notifications'
      saves succeed, all other saves do. */
  function Requested(s: System, key: Key, c: CloseCommand, published: bool, shown: bool): System {
    var (s1, reply) := Execute(s, key, c, true, published);
    if reply.Later? && key in s1.running && s1.running[key].phase.InLine? then Begin(s1, key, true, shown) else s1
  }

  /** A request under a key that was not used before, with nothing in its way to be tried. */
  predicate Tried(s: System, c: CloseCommand) {
    WellFormed(c) && NoClosePending(s.live, c.affairId)
  }

  function Fresh(key: Key, c: CloseCommand): Record {
    Record(key, c, Pending, None)
  }

  lemma RunsHaveRecords(s: System, key: Key)
    requires Inv(s)
    ensures key in s.running ==> key in s.live.actions.data
  {
    if key in s.running {
      assert RunOk(s.live, s.running[key]);
    }
  }

  /** The state in which a fresh request has its turn. */
  ghost predicate InTurn(s: System, s1: System, key: Key, c: CloseCommand) {
    && s1.live == s.live.(actions := Set(s.live.actions, key, Fresh(key, c))) && s1.gate == s.gate && s1.pending == s.pending
    && s1.running == s.running[key := Run(Fresh(key, c), InLine)] && Inv(s1)
  }

  lemma Arrives(s: System, key: Key, c: CloseCommand, published: bool)
    requires Inv(s) && key !in s.live.actions.data
    ensures var (s1, reply) := Execute(s, key, c, true, published);
      if Tried(s, c) then reply == Later && InTurn(s, s1, key, c)
      else s1 == s && reply == Now(if WellFormed(c) then Err(AffairActionPending, true) else Err(ValidationFailed, false))
  {
    hide Inv, ValidCommand, WellFormed, Snapshot;
    SoundCommands(c);
    RunsHaveRecords(s, key);
    ExecuteKeepsInv(s, key, c, true, published);
  }

  /** The conditions look at affairs and jobs only. */
  lemma SameParts(b: Backend, b': Backend, c: CloseCommand)
    requires b'.affairs == b.affairs && b'.jobs == b.jobs
    ensures SeenAsItIs(b', c) == SeenAsItIs(b, c) && HasResult(b', c.affairId) == HasResult(b, c.affairId) && AllOver(b', c.affairId) == AllOver(b, c.affairId)
  {
    hide Says;
  }

  lemma SameConditions(b: Backend, b': Backend, c: CloseCommand)
    requires b'.affairs == b.affairs && b'.jobs == b.jobs
    ensures MayBeClosed(b', c) == MayBeClosed(b, c) && Hindrance(b', c) == Hindrance(b, c)
  {
    SameParts(b, b', c);
    hide Says, HasResult, AllOver;
  }

  lemma InTurnIsKeyed(s: System, s1: System, key: Key, c: CloseCommand)
    requires InTurn(s, s1, key, c)
    ensures WellKeyed(s1.live)
  {
  }

  /** The affair as a close leaves it. */
  function ClosedAs(affair: Affair, status: AffairStatus): Affair {
    Affair(affair.affairId, status, affair.currentJobId, None, None, affair.rest)
  }

  /** Memory and file agree on affairs, jobs and close records. */
  predicate OnFile(s: System) {
    OnDisk(s).affairs == s.live.affairs && OnDisk(s).jobs == s.live.jobs && OnDisk(s).actions == s.live.actions
  }

  lemma WrittenIsOnFile(s: System)
    requires Inv(s) && s.disk == Snapshot(s.live, s.pending)
    ensures OnFile(s)
  {
    HydrateAfterSnapshot(EMPTY_BACKEND, s.live, s.pending);
    hide Hydrate, Snapshot;
  }

  lemma CheckFindsAffair(b: Backend, c: CloseCommand)
    requires WellKeyed(b) && Precheck(b, c).None?
    ensures c.affairId in b.affairs.data && b.affairs.data[c.affairId].affairId == c.affairId
  {
    PrecheckMeans(b, c);
    hide Precheck;
  }

  lemma TurnCommits(s1: System, key: Key, c: CloseCommand, shown: bool)
    requires key in s1.running && s1.running[key] == Run(Fresh(key, c), InLine) && c.status == ToClosed && Precheck(s1.live, c).None?
    requires c.affairId in s1.live.affairs.data && s1.live.affairs.data[c.affairId].affairId == c.affairId
    ensures var s', affair := Begin(s1, key, true, shown), s1.live.affairs.data[c.affairId];
      && HasCommitted(s', key) && s'.disk == Snapshot(s'.live, s'.pending)
      && s'.live.affairs.data == s1.live.affairs.data[c.affairId := ClosedAs(affair, Closed)]
      && s'.live.jobs == s1.live.jobs && s'.gate == s1.gate
  {
    hide Precheck, JobsOf, Snapshot;
  }

  lemma TurnAccepts(s1: System, key: Key, c: CloseCommand, shown: bool)
    requires Inv(s1) && key in s1.running && s1.running[key] == Run(Fresh(key, c), InLine) && c.status == ToClosed && Precheck(s1.live, c).None?
    ensures var s', affair := Begin(s1, key, true, shown), s1.live.affairs.data[c.affairId];
      && c.affairId in s1.live.affairs.data && HasCommitted(s', key) && OnFile(s')
      && s'.live.affairs.data == s1.live.affairs.data[c.affairId := ClosedAs(affair, Closed)]
      && s'.live.jobs == s1.live.jobs && s'.gate == s1.gate
  {
    hide Inv, Begin, Precheck, WellKeyed, OnFile, HasCommitted;
    TurnOfRun(s1, key);
    RecordsKnowTheirKeys(s1);
    CheckFindsAffair(s1.live, c);
    BeginKeepsInv(s1, key, true, shown);
    TurnCommits(s1, key, c, shown);
    WrittenIsOnFile(Begin(s1, key, true, shown));
  }

  lemma TurnRejects(s1: System, key: Key, c: CloseCommand, shown: bool)
    requires key in s1.running && s1.running[key] == Run(Fresh(key, c), InLine) && Precheck(s1.live, c).Some?
    ensures var s' := Begin(s1, key, true, shown);
      && !HasCommitted(s', key) && s'.disk == Snapshot(s'.live, s'.pending)
      && s'.live == s1.live.(actions := Set(s1.live.actions, key, Record(key, c, Rejected, Some(Err(Precheck(s1.live, c).value, false))))) && s'.gate == s1.gate
  {
    hide Precheck, JobsOf, Snapshot;
  }

  lemma TurnRefuses(s1: System, key: Key, c: CloseCommand, shown: bool)
    requires Inv(s1) && key in s1.running && s1.running[key] == Run(Fresh(key, c), InLine) && Precheck(s1.live, c).Some?
    ensures var s' := Begin(s1, key, true, shown);
      && !HasCommitted(s', key) && OnFile(s')
      && s'.live == s1.live.(actions := Set(s1.live.actions, key, Record(key, c, Rejected, Some(Err(Precheck(s1.live, c).value, false))))) && s'.gate == s1.gate
  {
    hide Inv, Begin, Precheck, OnFile, HasCommitted;
    TurnOfRun(s1, key);
    BeginKeepsInv(s1, key, true, shown);
    TurnRejects(s1, key, c, shown);
    WrittenIsOnFile(Begin(s1, key, true, shown));
  }

  /** Acceptance, exactly. A fresh request to close an affair as accepted, whose saves succeed, commits if and only if it is
      well-formed, no close of the affair is pending, and in the present state the affair waits for acceptance at the job that
      the user saw, which is a completed execution with evidence and a result, and every job of the affair is over; failed
      and canceled attempts count as over. Then the affair is closed, in memory and on file, and nothing else changes.
      Otherwise no affair and no job changes; a request that was tried is durably refused, for the first hindrance. */
  lemma AcceptanceCommitsExactlyWhen(s: System, key: Key, c: CloseCommand, published: bool, shown: bool)
    requires Inv(s) && key !in s.live.actions.data && c.status == ToClosed
    ensures var s' := Requested(s, key, c, published, shown);
      && (HasCommitted(s', key) <==> WellFormed(c) && NoClosePending(s.live, c.affairId) && MayBeAccepted(s.live, c))
      && s'.live.jobs == s.live.jobs && s'.gate == s.gate
      && (if HasCommitted(s', key)
          then s'.live.affairs.data == s.live.affairs.data[c.affairId := ClosedAs(s.live.affairs.data[c.affairId], Closed)] && OnFile(s')
          else s'.live.affairs == s.live.affairs)
      && (Tried(s, c) && !HasCommitted(s', key) ==>
            OnFile(s') && Get(s'.live.actions, key) == Some(Record(key, c, Rejected, Some(Err(Hindrance(s.live, c), false)))))
      && (!Tried(s, c) ==> s' == s)
  {
    hide Inv, Execute, Begin, Precheck, WellKeyed, WellFormed, NoClosePending, MayBeAccepted, Hindrance, OnFile;
    var s1 := Execute(s, key, c, true, published).0;
    Arrives(s, key, c, published);
    if Tried(s, c) {
      InTurnIsKeyed(s, s1, key, c);
      SameParts(s.live, s1.live, c);
      SameConditions(s.live, s1.live, c);
      CheckedExactly(s1.live, c);
      if Precheck(s1.live, c).None? {
        TurnAccepts(s1, key, c, shown);
      } else {
        TurnRefuses(s1, key, c, shown);
      }
    } else {
      RunsHaveRecords(s, key);
      assert !HasCommitted(s, key);
    }
  }

  // ----- cancellation -----

  predicate IsAmong(jobs: seq<Job>, j: string) {
    exists i :: 0 <= i < |jobs| && jobs[i].jobId == j
  }

  lemma {:induction false} RevokesAll(g: G.Gate, jobs: seq<Job>, id: string, scope: G.Scope, j: string, p: G.Permission)
    ensures var g' := RevokeAllOf(g, jobs);
      && g'.requests == g.requests && (id in g'.queue.data <==> id in g.queue.data)
      && (id in g.queue.data ==>
            var hit := g.queue.data[id] == G.Waiting && id in g.requests.data && IsAmong(jobs, g.requests.data[id].jobId);
            g'.queue.data[id] == if hit then G.Expired else g.queue.data[id])
      && G.Usable(g'.grants, scope, j, p) == if IsAmong(jobs, j) then 0 else G.Usable(g.grants, scope, j, p)
    decreases |jobs|
  {
    hide G.Usable, G.KeepOthers;
    if jobs != [] {
      G.UsableKeepOthers(g.grants, jobs[0].jobId, scope, j, p);
      RevokesAll(G.RevokeForJob(g, jobs[0].jobId), jobs[1..], id, scope, j, p);
      AmongSplit(jobs, j);
      if id in g.requests.data {
        AmongSplit(jobs, g.requests.data[id].jobId);
      }
      hide IsAmong;
    }
  }

  lemma AmongSplit(jobs: seq<Job>, j: string)
    requires jobs != []
    ensures IsAmong(jobs, j) <==> jobs[0].jobId == j || IsAmong(jobs[1..], j)
  {
    assert forall i :: 0 <= i < |jobs[1..]| ==> jobs[1..][i] == jobs[i + 1];
    if IsAmong(jobs, j) && jobs[0].jobId != j {
      var i :| 0 <= i < |jobs| && jobs[i].jobId == j;
      assert jobs[1..][i - 1].jobId == j;
    }
  }

  predicate OfAffairNow(b: Backend, j: string, a: string) {
    j in b.jobs.data && b.jobs.data[j].affairId == a
  }

  lemma ChildrenAre(b: Backend, a: string, j: string)
    requires WellKeyed(b) && WellOrdered(b)
    ensures IsAmong(JobsOf(b, a), j) <==> OfAffairNow(b, j, a)
  {
    JobsOfMembers(b, a);
    if OfAffairNow(b, j, a) {
      var i :| 0 <= i < |JobsOf(b, a)| && JobsOf(b, a)[i] == b.jobs.data[j];
    }
    hide JobsOf;
  }

  /** No job of the affair has a usable grant any more, none of its requests waits, and other jobs keep theirs. */
  predicate Revoked(b: Backend, g: G.Gate, g': G.Gate, a: string, id: string, scope: G.Scope, j: string, p: G.Permission) {
    && g'.requests == g.requests && (id in g'.queue.data <==> id in g.queue.data)
    && (id in g.queue.data ==>
          var hit := g.queue.data[id] == G.Waiting && id in g.requests.data && OfAffairNow(b, g.requests.data[id].jobId, a);
          g'.queue.data[id] == if hit then G.Expired else g.queue.data[id])
    && G.Usable(g'.grants, scope, j, p) == if OfAffairNow(b, j, a) then 0 else G.Usable(g.grants, scope, j, p)
  }

  lemma RevokesAffair(b: Backend, g: G.Gate, a: string, id: string, scope: G.Scope, j: string, p: G.Permission)
    requires WellKeyed(b) && WellOrdered(b)
    ensures Revoked(b, g, RevokeAllOf(g, JobsOf(b, a)), a, id, scope, j, p)
  {
    hide WellKeyed, WellOrdered, JobsOf, RevokeAllOf, IsAmong, OfAffairNow, G.Usable;
    ChildrenAre(b, a, j);
    RevokesAll(g, JobsOf(b, a), id, scope, j, p);
    if id in g.requests.data {
      ChildrenAre(b, a, g.requests.data[id].jobId);
    }
  }

  /** The first piece of a cancellation, exactly. It goes on to the children if and only if the request is well-formed, no close
      of the affair is pending, and the affair is as the user saw it and has not ended. From then on no job of the affair
      has a usable grant, and no request of one waits; grants and requests of other jobs are untouched. Otherwise nothing
      changes but the record of a request that was tried, which is durably refused. */
  lemma CancellationStartsExactlyWhen(s: System, key: Key, c: CloseCommand, published: bool, shown: bool,
                                      id: string, scope: G.Scope, j: string, p: G.Permission)
    requires Inv(s) && key !in s.live.actions.data && c.status == ToCanceled
    ensures var s' := Requested(s, key, c, published, shown);
      var goes := WellFormed(c) && NoClosePending(s.live, c.affairId) && MayBeCanceled(s.live, c);
      && s'.live.affairs == s.live.affairs && s'.live.jobs == s.live.jobs
      && (goes <==> key in s'.running && s'.running[key].phase == Cancelling(JobsOf(s.live, c.affairId), 0))
      && (if goes then Revoked(s.live, s.gate, s'.gate, c.affairId, id, scope, j, p) else s'.gate == s.gate)
      && (Tried(s, c) && !goes ==>
            var code := if SeenAsItIs(s.live, c) then AffairCloseRejected else Hindrance(s.live, c);
            OnFile(s') && Get(s'.live.actions, key) == Some(Record(key, c, Rejected, Some(Err(code, false)))))
      && (!Tried(s, c) ==> s' == s)
  {
    hide Inv, Execute, Begin, Precheck, WellKeyed, WellOrdered, WellFormed, NoClosePending, SeenAsItIs, MayBeCanceled, Hindrance, OnFile, JobsOf, Revoked,
      RevokeAllOf, HasResult, AllOver, IsAmong;
    RecordsKnowTheirKeys(s);
    var s1 := Execute(s, key, c, true, published).0;
    Arrives(s, key, c, published);
    if Tried(s, c) {
      InTurnIsKeyed(s, s1, key, c);
      SameParts(s.live, s1.live, c);
      SameConditions(s.live, s1.live, c);
      CheckedExactly(s1.live, c);
      if Precheck(s1.live, c).None? {
        TurnCancels(s1, key, c, shown);
        SameChildren(s.live, s1.live, c.affairId);
        RevokesAffair(s.live, s.gate, c.affairId, id, scope, j, p);
      } else {
        TurnRefuses(s1, key, c, shown);
        TurnRefused(s1, key, c, shown);
      }
    } else {
      RunsHaveRecords(s, key);
    }
  }

  lemma SameChildren(b: Backend, b': Backend, a: string)
    requires b'.jobs == b.jobs
    ensures JobsOf(b', a) == JobsOf(b, a)
  {
  }

  lemma TurnCancels(s1: System, key: Key, c: CloseCommand, shown: bool)
    requires key in s1.running && s1.running[key] == Run(Fresh(key, c), InLine) && c.status == ToCanceled && Precheck(s1.live, c).None?
    ensures var s' := Begin(s1, key, true, shown);
      && key in s'.running && s'.running[key].phase == Cancelling(JobsOf(s1.live, c.affairId), 0)
      && s'.live == s1.live && s'.gate == RevokeAllOf(s1.gate, JobsOf(s1.live, c.affairId))
  {
    hide Precheck, JobsOf, RevokeAllOf, Snapshot;
  }

  lemma TurnRefused(s1: System, key: Key, c: CloseCommand, shown: bool)
    requires key in s1.running && s1.running[key] == Run(Fresh(key, c), InLine) && Precheck(s1.live, c).Some?
    ensures var s' := Begin(s1, key, true, shown); key in s'.running && s'.running[key].phase.Done?
  {
    hide Precheck, JobsOf, RevokeAllOf, Snapshot;
  }

  /** The job's run is known to be over although it reads blocked. */
  predicate OverButBlocked(job: Job) {
    job.status == JobBlocked && job.statusReasonCode in {Some(TerminalWithoutResult), Some(FinalReplyNegative), Some(WebSearchDisabled)}
  }

  /** Such a job must be stopped by the executor, and its stop shows on the affair. */
  predicate MustBeStopped(b: Backend, j: string, a: string) {
    && j in b.jobs.data && b.jobs.data[j].affairId == a && b.jobs.data[j].purpose != Some(Exploration)
    && b.jobs.data[j].status in {Queued, JobRunning, NeedsPermission, JobBlocked} && !OverButBlocked(b.jobs.data[j])
  }

  /** The request and, if it gets that far, its whole run with an executor that stops what it is asked to stop. */
  function CanceledIdeally(s: System, key: Key, c: CloseCommand, published: bool, ids: seq<string>, now: int): System
    requires |ids| == |JobsOf(s.live, c.affairId)|
  {
    var (s1, reply) := Execute(s, key, c, true, published);
    if reply.Later? && key in s1.running && s1.running[key] == Run(Fresh(key, c), InLine) && s1.live.jobs == s.live.jobs
    then CancelWithIdealExecutor(s1, key, ids, now) else s1
  }

  /** Cancellation, exactly. With an executor that stops what it is asked to stop and saves that succeed, a fresh request to cancel
      commits if and only if it is well-formed, no close of the affair is pending, the affair is as the user saw it and has
      not ended, and one of three holds: the user saw a current job; the affair is not delegated yet; or no job of it
      that must be stopped is an execution. */
  lemma CancellationCommitsExactlyWhen(s: System, key: Key, c: CloseCommand, published: bool, ids: seq<string>, now: int)
    requires Inv(s) && key !in s.live.actions.data && c.status == ToCanceled
    requires |ids| == |JobsOf(s.live, c.affairId)| && FreshIds(s.live, ids)
    ensures HasCommitted(CanceledIdeally(s, key, c, published, ids, now), key) <==>
      && WellFormed(c) && NoClosePending(s.live, c.affairId) && MayBeCanceled(s.live, c)
      && (c.expectedCurrentJobId.Some? || s.live.affairs.data[c.affairId].status in {Clarifying, Ready}
          || forall j :: j in s.live.jobs.data ==> !MustBeStopped(s.live, j, c.affairId))
  {
    hide Inv, Execute, Precheck, WellKeyed, WellOrdered, WellFormed, NoClosePending, SeenAsItIs, Hindrance, JobsOf, MustBeStopped, AskedExecution,
      CancelWithIdealExecutor, FreshIds, CanTransitionAffair;
    var s1 := Execute(s, key, c, true, published).0;
    Arrives(s, key, c, published);
    if Tried(s, c) {
      SameChildren(s.live, s1.live, c.affairId);
      InTurnIsKeyed(s, s1, key, c);
      SameParts(s.live, s1.live, c);
      SameConditions(s.live, s1.live, c);
      CheckedExactly(s1.live, c);
      if Precheck(s1.live, c).None? {
        SameIds(s.live, s1.live, ids);
        IdealCancelCommitsExactlyWhen(s1, key, ids, now);
        BlockableExactly(s.live.affairs.data[c.affairId].status);
        forall j | j in s.live.jobs.data ensures MustBeStopped(s.live, j, c.affairId) <==> AskedExecution(s1.live, j, c.affairId) {
          StopsExactly(s.live, s1.live, j, c.affairId);
        }
      } else {
        RefusedDoesNotCommit(s1, key, c, ids, now);
      }
    } else {
      RunsHaveRecords(s, key);
    }
  }

  lemma SameIds(b: Backend, b': Backend, ids: seq<string>)
    requires b'.seen == b.seen && FreshIds(b, ids)
    ensures FreshIds(b', ids)
  {
  }

  lemma BlockableExactly(status: AffairStatus)
    requires !TerminalAffair(status)
    ensures CanTransitionAffair(status, Blocked) <==> status !in {Clarifying, Ready}
  {
  }

  lemma StopsExactly(b: Backend, b': Backend, j: string, a: string)
    requires b'.jobs == b.jobs
    ensures MustBeStopped(b, j, a) <==> AskedExecution(b', j, a)
  {
  }

  lemma RefusedDoesNotCommit(s1: System, key: Key, c: CloseCommand, ids: seq<string>, now: int)
    requires key in s1.running && s1.running[key] == Run(Fresh(key, c), InLine) && Precheck(s1.live, c).Some?
    requires |ids| == |JobsOf(s1.live, c.affairId)|
    ensures !HasCommitted(CancelWithIdealExecutor(s1, key, ids, now), key)
  {
    TurnRejects(s1, key, c, true);
    TurnRefused(s1, key, c, true);
    hide Begin, Precheck, JobsOf, Snapshot;
  }

  /** What a cancellation does with its next child, exactly: one that is over is passed; one that is over but reads blocked is
      marked canceled, with no reason to wait left on it; any other waits for the executor, and without one, or when a save
      fails, the run ends unconfirmed. After the executor's answer it passes exactly if that answer came normally, the
      registered job is over, and the save succeeds. */
  lemma ChildHandledExactly(s: System, key: Key, children: seq<Job>, next: nat, hasPort: bool, threw: bool, saved: bool)
    requires key in s.running && next < |children| && children[next].jobId in s.live.jobs.data
    requires s.live.jobs.data[children[next].jobId].jobId == children[next].jobId
    requires s.running[key].phase in {Cancelling(children, next), AwaitingPort(children, next)}
    ensures var j := children[next].jobId;
      var job, asked := s.live.jobs.data[j], s.running[key].phase.AwaitingPort?;
      var s' := if asked then PortReturns(s, key, threw, saved) else ChildStep(s, key, hasPort, saved);
      var over := job.status == Completed || job.status == Failed || job.status == JobCanceled;
      && key in s'.running && s'.live.affairs == s.live.affairs && s'.gate == s.gate
      && s'.running[key].phase ==
           (if (if asked then !threw && over && saved else over || (OverButBlocked(job) && saved)) then Cancelling(children, next + 1)
            else if !asked && hasPort && !over && !OverButBlocked(job) then AwaitingPort(children, next)
            else Done(Err(AffairActionUnconfirmed, true)))
      && s'.live.jobs.data == (if !asked && OverButBlocked(job) then s.live.jobs.data[j := MarkedOver(job)] else s.live.jobs.data)
  {
    hide Snapshot;
  }

  /** The job as a cancellation marks it; a shown progress text stays. */
  function MarkedOver(job: Job): Job {
    job.(status := JobCanceled, statusReasonCode := Some(CancelAfterEndedBlockedJob), blockedReason := None, resumeCondition := None,
         progressSummary := if job.progressSummary.None? || job.progressSummary.value == Given("") then Some(UserCanceledAffair) else job.progressSummary)
  }

  /** A request that could not be saved leaves no trace. */
  lemma UnsavedRequestLeavesNothing(s: System, key: Key, c: CloseCommand, published: bool)
    requires Inv(s) && key !in s.live.actions.data && Tried(s, c)
    ensures Execute(s, key, c, false, published) == (s, Now(Err(AffairActionPersistFailed, true)))
  {
    hide Inv, ValidCommand, WellFormed, Snapshot, Delete;
    SoundCommands(c);
    RunsHaveRecords(s, key);
    DeletedAgain(s, Fresh(key, c));
  }

  /** A request under a key that is known, exactly: with other content it is refused; once decided it is answered again as it was
      decided, an accepted one marked as a duplicate; while its run is under way it joins it; and if its run has ended without a
      decision it is tried again, under the same record. Nothing but that new run changes. */
  lemma KnownRequestExactly(s: System, key: Key, c: CloseCommand, saved: bool, published: bool)
    requires Inv(s) && WellFormed(c) && key in s.live.actions.data
    ensures var (s', reply), r := Execute(s, key, c, saved, published), s.live.actions.data[key];
      && s'.live == s.live && s'.gate == s.gate && s'.pending == s.pending
      && (if r.command != c then s' == s && reply == Now(Err(AffairActionIdConflict, false))
          else if r.phase != Pending then
            && s' == s && r.outcome.Some?
            && reply == Now(if r.phase == Committed then Ok(r.outcome.value.result, true) else r.outcome.value)
          else if key in s.running then s' == s && reply == Later
          else if saved then s'.running == s.running[key := Run(r, InLine)] && reply == Later
          else s'.running == s.running && reply == Now(Err(AffairActionPersistFailed, true)))
  {
    SoundCommands(c);
    KnownRecord(s, key);
    hide Inv, ValidCommand, WellFormed, Snapshot;
    assert s.live.actions.data[key := s.live.actions.data[key]] == s.live.actions.data;
  }

  lemma KnownRecord(s: System, key: Key)
    requires Inv(s) && key in s.live.actions.data
    ensures var r := s.live.actions.data[key];
      && r.key == key && (r.phase == Pending ==> r.outcome.None?) && (r.phase != Pending ==> r.outcome.Some?)
      && (r.phase == Committed ==> r.outcome.value.Ok? && !r.outcome.value.duplicate) && (r.phase == Rejected ==> r.outcome.value.Err?)
  {
    RecordsKnowTheirKeys(s);
    assert RecordOk(s.live, s.live.actions.data[key]);
  }

  // ----- what is offered -----

  predicate Offered(b: Backend, a: string) {
    a in b.affairs.data && b.affairs.data[a].status == WaitingAcceptance
  }

  /** The step says outright that the affair waits for acceptance, or that a job of it completed. */
  predicate ReportsCompletion(st: Step, a: string) {
    || (st.SDeliver? && st.e.body.JobEvent? && st.e.body.job.affairId == a && st.e.body.job.status == Completed)
    || (st.SDeliver? && st.e.body.AffairEvent? && st.e.body.affair.affairId == a && st.e.body.affair.status == WaitingAcceptance)
    || (st.SSupervise? && st.affairId == a && st.mark.MarkWaitingAcceptance?)
  }

  /** After a restart: it was so on file, or repair goes by a completed job. */
  ghost predicate RepairOffers(b: Backend, a: string) {
    Offered(b, a) || (a in b.affairs.data && exists j :: GoesBy(b.jobs, b.affairs.data[a], j) && b.jobs.data[j].status == Completed)
  }

  lemma MessageOffers(b: Backend, e: Envelope, now: int, a: string)
    requires WellKeyed(b) && !Offered(b, a) && Offered(Apply(b, e, now).0, a)
    ensures e.body.JobEvent? ==> e.body.job.affairId == a && e.body.job.status == Completed
    ensures e.body.AffairEvent? ==> e.body.affair.affairId == a && e.body.affair.status == WaitingAcceptance
    ensures e.body.JobEvent? || e.body.AffairEvent?
  {
    hide Apply, WellKeyed, FollowedFrom, Leads;
    OtherMessagesWrite(b, e, now);
    BodyKinds(b, e, now);
    if e.body.JobEvent? {
      MessageAddsNoAffair(b, e, now);
      JobMessageWrites(b, e, now, a);
    }
  }

  lemma BodyKinds(b: Backend, e: Envelope, now: int)
    ensures !e.body.JobEvent? && !e.body.AffairEvent? ==> Apply(b, e, now).0.affairs == b.affairs
    ensures e.body.AffairEvent? ==> Apply(b, e, now).0.affairs.data in {b.affairs.data, b.affairs.data[e.body.affair.affairId := e.body.affair]}
  {
    hide MergeJob, UpdateAffairFromJob, FindEntry;
  }

  lemma MessageAddsNoAffair(b: Backend, e: Envelope, now: int)
    requires WellKeyed(b) && e.body.JobEvent?
    ensures Apply(b, e, now).0.affairs.data.Keys == b.affairs.data.Keys
  {
    ApplyKeepsCore(b, e, now);
    JobEventWrites(b, e.body.jobKind, e.body.job);
    hide Apply, ApplyJob;
  }

  lemma DeliveryOffers(s: System, e: Envelope, now: int, saved: bool, a: string)
    requires WellKeyed(s.live) && !e.body.ReadReceipt? && !Offered(s.live, a) && Offered(Deliver(s, e, now, saved).0.live, a)
    ensures ReportsCompletion(SDeliver(e, now, saved), a)
  {
    hide Apply, WellKeyed, IntroducesNoEnding, PhoneMayNotSend, Snapshot;
    if Offered(Apply(s.live, e, now).0, a) {
      MessageOffers(s.live, e, now, a);
    }
  }

  lemma SupervisionOffers(s: System, st: Step, a: string)
    requires WellKeyed(s.live) && st.SSupervise? && !Offered(s.live, a)
    requires Offered(Supervise(s, st.affairId, st.mark, st.messageId, st.now, st.saved).live, a)
    ensures ReportsCompletion(st, a)
  {
    hide Apply, CanTransitionAffair, Snapshot;
    if st.affairId in s.live.affairs.data {
      var next := Marked(s.live.affairs.data[st.affairId], st.mark);
      var e := Envelope(st.messageId, false, true, AffairEvent(AffairUpdate, next));
      if Offered(Apply(s.live, e, st.now).0, a) {
        MessageOffers(s.live, e, st.now, a);
      }
    }
  }

  lemma RegistrationOffersNothing(s: System, command: Envelope, x: C.CreateInput, a: string)
    requires Inv(s) && command.body.JobEvent? && !Offered(s.live, a)
    ensures !Offered(Register(s, command, x).live, a)
  {
    RecordsKnowTheirKeys(s);
    if C.HandleJobCreate(s.live, s.gate, command, x).2 == C.Created {
      var d, e := CreatedIsOneMessage(s.live, s.gate, command, x);
      DraftOffersNothing(s.live, command.body.job, a);
      MessageOffersNothing(d, e, x.now, a);
      hide Inv, C.HandleJobCreate, Apply, IsClosing, C.Draft, Snapshot;
    } else {
      C.CreationIsAtomic(s.live, s.gate, command, x);
      hide C.HandleJobCreate, Snapshot;
    }
  }

  lemma DraftOffersNothing(b: Backend, payload: Job, a: string)
    requires WellKeyed(b) && payload.affairId in b.affairs.data && !Offered(b, a)
    ensures var d := C.Draft(b, b.affairs.data[payload.affairId], payload); WellKeyed(d) && !Offered(d, a)
  {
  }

  lemma MessageOffersNothing(b: Backend, e: Envelope, now: int, a: string)
    requires WellKeyed(b) && !Offered(b, a) && e.body.JobEvent? && e.body.job.status == NeedsPermission
    ensures !Offered(Apply(b, e, now).0, a)
  {
    hide Apply, WellKeyed;
    if Offered(Apply(b, e, now).0, a) {
      MessageOffers(b, e, now, a);
    }
  }

  lemma DecisionOffersNothing(s: System, st: Step, a: string)
    requires WellKeyed(s.live) && Enabled(s, st) && (st.SBegin? || st.SConfirm? || st.SExecute? || st.SChild? || st.SPort?) && !Offered(s.live, a)
    ensures !Offered(Next(s, st).live, a)
  {
    hide Precheck, JobsOf, RevokeAllOf, Snapshot, IsClosing, ValidCommand, EndedBlocked, TerminalJob;
    if (st.SBegin? || st.SConfirm?) && Precheck(s.live, s.running[st.key].record.command).None? {
      CheckFindsAffair(s.live, s.running[st.key].record.command);
    }
  }

  lemma RepairOffersOnly(b: Backend, now: int, a: string)
    requires WellKeyed(b) && WellOrdered(b) && Offered(Reconciled(b, now), a)
    ensures RepairOffers(b, a)
  {
    hide WellKeyed, WellOrdered, GoesBy, Reconciled;
    RepairKeepsAffairs(b, now);
    var before := b.affairs.data[a];
    if !Offered(b, a) {
      RepairFollows(b, now, a, "");
      var i :| GoesBy(b.jobs, before, i);
      RepairFollows(b, now, a, i);
    }
  }

  lemma RepairKeepsAffairs(b: Backend, now: int)
    ensures Reconciled(b, now).affairs.data.Keys == b.affairs.data.Keys
  {
  }

  /** An affair comes to wait for acceptance only by a report that one of its jobs completed, by an update of the affair that says
      so, by supervision, or by a repair that goes by a completed job: over every step of the companion, a failed, blocked or
      canceled job never puts its affair up for acceptance. */
  lemma OfferedOnlyWhenCompleted(s: System, st: Step, a: string)
    requires Inv(s) && Enabled(s, st) && !Offered(s.live, a) && Offered(Next(s, st).live, a)
    ensures ReportsCompletion(st, a) || (st.SRestart? && RepairOffers(OnDisk(s), a))
  {
    hide Inv, Begin, Confirm, Deliver, Supervise, Register, Execute, ChildStep, PortReturns, Reconciled, RepairOffers, ReportsCompletion, WellKeyed, WellOrdered, Hydrate;
    RecordsKnowTheirKeys(s);
    if st.SDeliver? {
      DeliveryOffers(s, st.e, st.now, st.saved, a);
    } else if st.SSupervise? {
      SupervisionOffers(s, st, a);
    } else if st.SRegister? {
      RegistrationOffersNothing(s, st.createCommand, st.x, a);
    } else if st.SRestart? {
      HydratedIsWellFormed(EMPTY_BACKEND, s.disk);
      RepairOffersOnly(OnDisk(s), st.now, a);
    } else if st.SBegin? || st.SConfirm? || st.SExecute? || st.SChild? || st.SPort? {
      DecisionOffersNothing(s, st, a);
    }
  }
}
