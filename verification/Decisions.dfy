/** What the companion lets in, exactly: the user's decisions on permission requests, protocol messages at the runtime's gate,
    and marks of supervision. */
module Decisions {
  import opened Option
  import opened JsMap
  import opened Status
  import opened Types
  import opened Store
  import opened Mirror
  import opened Closing
  import opened Coordinator
  import opened Authority
  import opened Projection
  import G = Gate

  // ----- decisions on permission requests -----

  predicate RequestWaits(g: G.Gate, id: string) {
    id in g.requests.data && id in g.queue.data && g.queue.data[id] == G.Waiting
  }

  /** No close is pending of the affair that the request names, if it names one. */
  predicate Unfenced(b: Backend, r: G.Request) {
    r.affairId.Some? ==> NoClosePending(b, r.affairId.value)
  }

  /** The job still waits for permission, its affair, named by the request or else by the job, goes on, and the job is the one
      the affair is at, or explores. */
  predicate CanStillRun(b: Backend, r: G.Request) {
    && r.jobId in b.jobs.data && b.jobs.data[r.jobId].status == NeedsPermission
    && var a := if r.affairId.Some? then r.affairId.value else b.jobs.data[r.jobId].affairId;
       && a != "" && a in b.affairs.data && b.affairs.data[a].status != Closed && b.affairs.data[a].status != Canceled
       && (b.jobs.data[r.jobId].purpose == Some(Exploration) || b.affairs.data[a].currentJobId == Some(r.jobId))
  }

  predicate MayDecide(b: Backend, g: G.Gate, id: string, d: G.Decision) {
    && RequestWaits(g, id) && Unfenced(b, g.requests.data[id])
    && (d == G.AllowOnce || d == G.AllowForJob ==> CanStillRun(b, g.requests.data[id]))
  }

  lemma DecisionCheckedExactly(b: Backend, g: G.Gate, id: string, d: G.Decision)
    requires G.Sound(g) && WellKeyed(b)
    ensures ValidateDecision(b, g, id, d).None? <==> MayDecide(b, g, id, d)
    ensures ValidateDecision(b, g, id, d) == Some(PermissionNotFound) <==> id !in g.requests.data
    ensures ValidateDecision(b, g, id, d) == Some(AffairClosing) <==> id in g.requests.data && !Unfenced(b, g.requests.data[id])
    ensures ValidateDecision(b, g, id, d) == Some(PermissionNotPending) <==>
      id in g.requests.data && Unfenced(b, g.requests.data[id]) && !RequestWaits(g, id)
  {
    if id in g.requests.data && g.requests.data[id].affairId.Some? {
      ClosingExactly(b, g.requests.data[id].affairId.value);
    }
    hide G.Sound, IsClosing, NoClosePending;
    assert id in g.requests.data ==> id in g.queue.data by { G.StagesKnown(g); }
  }

  /** The request leaves the queue for good; an allowance adds one grant per permission and makes each of them usable, a denial
      adds none. */
  predicate SettledBy(g: G.Gate, g': G.Gate, id: string, d: G.Decision, p: G.Permission)
    requires id in g.requests.data
  {
    var r := g.requests.data[id];
    && g'.requests == g.requests && g'.queue.data == g.queue.data[id := G.Decided] && g.grants <= g'.grants
    && (d == G.Deny || d == G.RequireMoreContext ==> g'.grants == g.grants)
    && (d == G.AllowOnce || d == G.AllowForJob ==>
          |g'.grants| == |g.grants| + |r.requestedPermissions| && (p in r.requestedPermissions ==> G.Covered(g'.grants, r.jobId, p)))
  }

  lemma DecisionSettles(g: G.Gate, id: string, d: G.Decision, p: G.Permission)
    requires G.Sound(g) && RequestWaits(g, id)
    ensures SettledBy(g, G.Decide(g, id, d).0, id, d, p)
  {
    G.DecisionAddsExactly(g, id, d);
    G.DecisionGrantsExactly(g, id, d, G.Once, g.requests.data[id].jobId, p);
    hide G.Sound, G.Decide, G.Covered, G.Usable;
    var g' := G.Decide(g, id, d).0;
    if d == G.Deny || d == G.RequireMoreContext {
      assert g'.grants == g.grants by { assert |g'.grants| == |g.grants|; }
    }
  }

  /** A decision of the user, exactly. It counts if and only if the request waits, no close of the affair it names is pending,
      and, for an allowance, its job can still run. It then leaves the queue for good; an allowance makes every permission
      it names usable, a denial none. Otherwise nothing changes at all. */
  lemma DecisionCountsExactlyWhen(s: System, id: string, d: G.Decision, saved: bool, p: G.Permission)
    requires G.Sound(s.gate) && WellKeyed(s.live)
    ensures var s' := DecideByUser(s, id, d, saved);
      && s'.live == s.live && s'.running == s.running && s'.pending == s.pending
      && (if MayDecide(s.live, s.gate, id, d) then SettledBy(s.gate, s'.gate, id, d, p) else s' == s)
  {
    hide G.Sound, WellKeyed, ValidateDecision, G.Decide, SettledBy, Snapshot, Unfenced, CanStillRun, RequestWaits;
    DecisionCheckedExactly(s.live, s.gate, id, d);
    if MayDecide(s.live, s.gate, id, d) {
      DecisionSettles(s.gate, id, d, p);
    }
  }

  // ----- messages at the gate of the runtime -----

  predicate EndingStatus(s: AffairStatus) {
    s == Closed || s == Canceled
  }

  /** Messages about affairs that only a close request may cause: an ending that is not the stored one; and from the phone any
      ending, and any update of an affair whose close is pending. */
  predicate OnlyByRequest(b: Backend, e: Envelope) {
    && e.body.AffairEvent?
    && var a := e.body.affair;
       || (EndingStatus(a.status) && a.affairId != "" && (a.affairId !in b.affairs.data || b.affairs.data[a.affairId].status != a.status))
       || (e.fromPhone && (EndingStatus(a.status) || !NoClosePending(b, a.affairId)))
  }

  lemma GateExactly(b: Backend, e: Envelope)
    ensures OnlyByRequest(b, e) <==> !IntroducesNoEnding(b, e) || PhoneMayNotSend(b, e)
  {
    if e.body.AffairEvent? {
      ClosingExactly(b, e.body.affair.affairId);
    }
    hide IsClosing, NoClosePending;
  }

  /** A message at the runtime, exactly. What only a close request may cause is refused and changes nothing. Everything else is
      applied by the store; an accepted repetition of an ending expires the waiting requests that name the affair, a blocked
      or failed job is noted as the last error, and the result is saved. */
  lemma MessageTakenExactly(s: System, e: Envelope, now: int, saved: bool, id: string)
    requires !e.body.ReadReceipt? && G.Sound(s.gate)
    ensures var (s', d) := Deliver(s, e, now, saved);
      var (b', r) := Apply(s.live, e, now);
      && (OnlyByRequest(s.live, e) ==> s' == s && d == Answered(Refused(AffairActionRequired, false)))
      && (!OnlyByRequest(s.live, e) ==>
            && d == (if saved then Answered(r) else Threw) && s'.running == s.running && s'.pending == s.pending
            && s'.disk == (if saved then Snapshot(s'.live, s.pending) else s.disk)
            && s'.live == b'.(lastError := if r == Applied then TroubleNoted(b', e) else b'.lastError)
            && s'.gate.grants == s.gate.grants && s'.gate.requests == s.gate.requests && (id in s'.gate.queue.data <==> id in s.gate.queue.data)
            && (id in s.gate.queue.data ==>
                  var hit := r == Applied && RequestWaits(s.gate, id) && EndsItsAffair(s.gate.requests.data[id], e);
                  s'.gate.queue.data[id] == if hit then G.Expired else s.gate.queue.data[id]))
  {
    GateExactly(s.live, e);
    hide Apply, IntroducesNoEnding, PhoneMayNotSend, OnlyByRequest, Snapshot;
  }

  predicate EndsItsAffair(r: G.Request, e: Envelope) {
    e.body.AffairEvent? && EndingStatus(e.body.affair.status) && e.body.affair.affairId != "" && r.affairId == Some(e.body.affair.affairId)
  }

  function TroubleNoted(b: Backend, e: Envelope): Option<LastError> {
    if e.body.JobEvent? && (e.body.jobKind == JobBlockedEvent || e.body.jobKind == JobFailedEvent)
    then Some(LastError(JobReported(e.body.job.statusReasonCode, e.body.jobKind), Some(e.body.job.affairId), Some(e.body.job.jobId)))
    else b.lastError
  }

  // ----- supervision -----

  /** A mark of supervision, exactly: the affair takes the marked status and the supervised job if the table leads there and the
      message is new, with the reason and the way on if it is blocked; otherwise, and for every other affair, nothing changes. */
  lemma MarkTakenExactly(s: System, affairId: string, mark: Mark, messageId: string, now: int, saved: bool, a: string)
    requires WellKeyed(s.live) && affairId != ""
    ensures var s' := Supervise(s, affairId, mark, messageId, now, saved);
      && s'.live.jobs == s.live.jobs && s'.gate == s.gate && s'.running == s.running && s'.live.affairs.data.Keys == s.live.affairs.data.Keys
      && (a in s.live.affairs.data ==>
            var before, after := s.live.affairs.data[a], s'.live.affairs.data[a];
            if a != affairId || messageId in s.live.seen.data then after == before
            else
              match mark
              case MarkWaitingAcceptance(j) =>
                after == if before.status in {Running, WaitingAcceptance} then before.(status := WaitingAcceptance, currentJobId := Some(j)) else before
              case MarkBlocked(j, reason, resume) =>
                after == if before.status in {Delegated, Running, Blocked, Paused, WaitingAcceptance}
                         then before.(status := Blocked, currentJobId := Some(j), blockedReason := reason, resumeCondition := resume) else before)
  {
    if affairId in s.live.affairs.data {
      var before := s.live.affairs.data[affairId];
      TablesAgree(before.status, WaitingAcceptance, Queued, Queued);
      TablesAgree(before.status, Blocked, Queued, Queued);
      var next := Marked(before, mark);
      MarkedMayFollow(before, mark);
      UpdateApplied(s.live, Envelope(messageId, false, true, AffairEvent(AffairUpdate, next)), now);
    }
    hide Apply, AffairEdge, Snapshot;
  }

  lemma MarkedMayFollow(before: Affair, mark: Mark)
    ensures CanTransitionAffair(before.status, Marked(before, mark).status) && Marked(before, mark).affairId == before.affairId
  {
  }

  lemma UpdateApplied(b: Backend, e: Envelope, now: int)
    requires e.valid && e.body.AffairEvent? && e.body.affair.affairId != "" && e.body.affair.affairId in b.affairs.data
    requires CanTransitionAffair(b.affairs.data[e.body.affair.affairId].status, e.body.affair.status)
    ensures var b' := Apply(b, e, now).0;
      b'.jobs == b.jobs && b'.affairs.data == if e.messageId in b.seen.data then b.affairs.data else b.affairs.data[e.body.affair.affairId := e.body.affair]
  {
  }
}
