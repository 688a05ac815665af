/** The companion runtime as an object: the gates in front of the store, the job handler, the bridge's
    permission decisions, and startup. Each method is proved equal to the step of the authority machine, and to
    keep its invariant. */
module Runtime {
  import opened Option
  import opened JsMap
  import opened Status
  import opened Types
  import opened Store
  import opened Reconcile
  import opened Mirror
  import opened Closing
  import opened Coordinator
  import opened Authority
  import opened Invariant
  import opened Actions
  import C = Create
  import G = Gate

  /** `handleJobCreate`: queue the permission request, then register the job; undo the request on failure. */
  method HandleJobCreate(state: CompanionState, gate: G.PermissionGate, command: Envelope, x: C.CreateInput) returns (reply: C.CreateReply)
    requires command.body.JobEvent? && Ordered(gate.requests)
    modifies state, gate
    ensures (state.Value(), gate.Value(), reply) == C.HandleJobCreate(old(state.Value()), old(gate.Value()), command, x)
  {
    var payload := command.body.job;
    match C.PrecheckCreate(state.Value(), command.messageId, payload, x.capable) {
      case Deny(code) => return C.NotCreated(code);
      case Replay => return C.AlreadyDone;
      case Proceed =>
    }
    if G.HasPendingForJob(gate.Value(), payload.jobId) || payload.jobId in state.jobs.data {
      return C.NotCreated(JobCreateInFlight);
    }
    if x.requested.None? {
      return C.NotCreated(PermissionsRefused);
    }
    var request := C.RequestFor(payload, x.requested.value, x.newRequestId);
    SetOrdered(gate.requests, request.permissionRequestId, request);
    var queued := gate.EnqueueRequest(request);
    if !queued {
      return C.NotCreated(PermissionDuplicate);
    }
    if !x.outboundValid {
      var _ := gate.ExpirePending(G.OfJob(payload.jobId));
      return C.NotCreated(JobCreateOutboundInvalid);
    }
    var r := C.CommitJobCreationOn(state, command, C.EventsFor(payload, request.permissionRequestId, x), x.now, x.saved);
    if r.Refused? {
      var _ := gate.ExpirePending(G.OfJob(payload.jobId));
      return C.NotCreated(r.code);
    }
    reply := C.Created;
  }

  class CompanionRuntime {
    const actions: AffairActionCoordinator

    function Value(): System
      reads actions, actions.state, actions.gate, actions.file
    {
      actions.Value()
    }

    /** Startup: read the mirror back, repair affairs from their jobs, restore the pending messages. */
    constructor (gate: G.PermissionGate, loaded: Mirror, now: int)
      ensures fresh(actions) && fresh(actions.state) && fresh(actions.file) && actions.gate == gate
      ensures forall before: System :: before.disk == loaded ==> Value() == Restart(before, gate.Value(), now)
      ensures forall before: System :: before.disk == loaded && Inv(before) ==> actions.Valid()
    {
      var state := new CompanionState(0);
      HydrateBackendMirror(state, loaded);
      HydratedIsWellFormed(EMPTY_BACKEND, loaded);
      var _ := ReconcileAffairsFromJobs(state, now);
      var file := new MirrorFile(loaded);
      actions := new AffairActionCoordinator(state, gate, file);
      new;
      forall before: System | before.disk == loaded && Inv(before) ensures Inv(Value()) {
        RestartKeepsInv(before, gate.Value(), now);
      }
    }

    /** The gates in front of the store, the store, and the save that follows. */
    method ApplyProtocolEnvelope(e: Envelope, now: int, saved: bool) returns (delivery: Delivery)
      requires !e.body.ReadReceipt? && Ordered(actions.gate.requests)
      modifies actions.state, actions.gate`queue, actions.file`disk
      ensures (Value(), delivery) == Deliver(old(Value()), e, now, saved)
      ensures old(actions.Valid()) ==> actions.Valid()
    {
      hide Inv, Snapshot, Apply, IsClosing, Validated, G.Expire;
      if Inv(Value()) {
        DeliverKeepsInv(Value(), e, now, saved);
      }
      var state := actions.state;
      if e.body.AffairEvent? {
        var fact := e.body.affair;
        if fact.affairId != "" && TerminalAffair(fact.status) &&
           !(fact.affairId in state.affairs.data && state.affairs.data[fact.affairId].status == fact.status) {
          return Answered(Refused(AffairActionRequired, false));
        }
        if e.fromPhone && (TerminalAffair(fact.status) || IsClosing(state.Value(), fact.affairId)) {
          return Answered(Refused(AffairActionRequired, false));
        }
      }
      var result := state.ApplyProtocolEnvelope(e, now);
      if result == Applied {
        if e.body.AffairEvent? && e.body.affair.affairId != "" && TerminalAffair(e.body.affair.status) {
          var _ := actions.gate.ExpirePending(G.OfAffair(e.body.affair.affairId));
        }
        if ReportsTrouble(e) {
          state.lastError := Some(LastError(JobReported(e.body.job.statusReasonCode, e.body.jobKind), Some(e.body.job.affairId), Some(e.body.job.jobId)));
        }
      }
      actions.Persist(saved);
      delivery := if saved then Answered(result) else Threw;
    }

    /** A permission decision from the bridge. */
    method DecidePermission(id: string, decision: G.Decision, saved: bool) returns (refused: Option<Code>)
      modifies actions.gate, actions.file`disk
      ensures refused == ValidateDecision(old(Value()).live, old(Value()).gate, id, decision)
      ensures Value() == DecideByUser(old(Value()), id, decision, saved)
      ensures old(actions.Valid()) ==> actions.Valid()
    {
      hide Inv, Snapshot;
      if Inv(Value()) {
        DecideKeepsInv(Value(), id, decision, saved);
      }
      refused := ValidateDecision(actions.state.Value(), actions.gate.Value(), id, decision);
      if refused.None? {
        var _ := actions.gate.DecideRequest(id, Some(decision));
        actions.Persist(saved);
      }
    }

    /** Job creation; its own commit writes the mirror. */
    method CreateJob(command: Envelope, x: C.CreateInput) returns (reply: C.CreateReply)
      requires command.body.JobEvent? && Ordered(actions.gate.requests)
      modifies actions.state, actions.gate, actions.file`disk
      ensures Value() == Register(old(Value()), command, x)
      ensures old(actions.Valid()) ==> actions.Valid()
    {
      hide Inv, Snapshot;
      if Inv(Value()) {
        RegisterKeepsInv(Value(), command, x);
      }
      reply := HandleJobCreate(actions.state, actions.gate, command, x);
      actions.Persist(reply == C.Created);
    }

    /** One supervision update. */
    method SuperviseAffair(affairId: string, mark: Mark, messageId: string, now: int, saved: bool)
      modifies actions.state, actions.file`disk
      ensures Value() == Supervise(old(Value()), affairId, mark, messageId, now, saved)
      ensures old(actions.Valid()) ==> actions.Valid()
    {
      hide Inv, Snapshot;
      if Inv(Value()) {
        SuperviseKeepsInv(Value(), affairId, mark, messageId, now, saved);
      }
      var state := actions.state;
      if affairId in state.affairs.data {
        var next := Marked(state.affairs.data[affairId], mark);
        if next != state.affairs.data[affairId] {
          var _ := state.ApplyProtocolEnvelope(Envelope(messageId, false, true, AffairEvent(AffairUpdate, next)), now);
        }
      }
      actions.Persist(saved);
    }
  }
}
