/** When an affair that has ended has only terminal jobs. A cancellation passes its children one by one,
    and a job it has passed must not come alive before it commits; which messages could do that is decided
    exactly, by a condition on the message and the state it meets. */
module Endings {
  import opened Option
  import opened JsMap
  import opened Status
  import opened Types
  import opened Store
  import opened Reconcile
  import opened Mirror
  import opened Closing
  import opened Coordinator
  import opened Authority
  import opened Invariant
  import opened Guarantees
  import C = Create
  import G = Gate

  // ----- messages that bring a job to life -----

  /** The message makes a job live under affair `a` that was not: it registers one, moves one in, or reports
      a completed job of the affair as blocked. */
  predicate BringsToLife(b: Backend, e: Envelope, a: string) {
    && Validated(e) && e.messageId !in b.seen.data && e.body.JobEvent?
    && e.body.job.affairId == a && !TerminalJob(e.body.job.status) && !AffairEnded(b, a)
    && (e.body.job.jobId in b.jobs.data ==>
          var known := b.jobs.data[e.body.job.jobId];
          CanTransitionJob(known.status, e.body.job.status) && (known.affairId != a || known.status == Completed))
  }

  lemma BringsToLifeExactly(b: Backend, e: Envelope, now: int, a: string)
    requires WellKeyed(b)
    ensures (exists j :: LiveJobOf(Apply(b, e, now).0, j, a) && !LiveJobOf(b, j, a)) <==> BringsToLife(b, e, a)
    ensures forall j :: LiveJobOf(Apply(b, e, now).0, j, a) && !LiveJobOf(b, j, a) ==> j == e.body.job.jobId
  {
    var b' := Apply(b, e, now).0;
    forall j | j in b'.jobs.data && LiveJobOf(b', j, a) && !LiveJobOf(b, j, a)
      ensures e.body.JobEvent? && j == e.body.job.jobId && BringsToLife(b, e, a)
    {
      JobAfterMessage(b, e, now, j);
      NewlyLiveIsBrought(b, e, now, j, a);
    }
    if BringsToLife(b, e, a) {
      BroughtIsNewlyLive(b, e, now, a);
    }
    hide Apply, BringsToLife, WellKeyed;
  }

  lemma NewlyLiveIsBrought(b: Backend, e: Envelope, now: int, j: string, a: string)
    requires WellKeyed(b) && j in Apply(b, e, now).0.jobs.data && LiveJobOf(Apply(b, e, now).0, j, a) && !LiveJobOf(b, j, a)
    ensures e.body.JobEvent? && j == e.body.job.jobId && BringsToLife(b, e, a)
  {
    JobAfterMessage(b, e, now, j);
    if j in b.jobs.data {
      OnlyRevival(b.jobs.data[j].status, e.body.job.status);
    }
  }

  lemma BroughtIsNewlyLive(b: Backend, e: Envelope, now: int, a: string)
    requires WellKeyed(b) && BringsToLife(b, e, a)
    ensures LiveJobOf(Apply(b, e, now).0, e.body.job.jobId, a) && !LiveJobOf(b, e.body.job.jobId, a)
  {
  }

  predicate TameFor(b: Backend, run: Run, e: Envelope) {
    PastChecks(run.phase) && BringsToLife(b, e, run.record.command.affairId) ==> Ahead(run.phase, e.body.job.jobId)
  }

  /** The premise of the results below: no message brings a job to life that a running cancellation of its
      affair has already passed. */
  predicate Tame(s: System, st: Step) {
    st.SDeliver? ==> forall key :: key in s.running ==> TameFor(s.live, s.running[key], st.e)
  }

  /** Any message that keeps its job under its registered affair and does not report a completed job as
      blocked meets the premise, whatever is running. */
  lemma PlainMessagesAreTame(s: System, e: Envelope, now: int, saved: bool)
    requires e.body.JobEvent? ==>
      && e.body.job.jobId in s.live.jobs.data && s.live.jobs.data[e.body.job.jobId].affairId == e.body.job.affairId
      && !(s.live.jobs.data[e.body.job.jobId].status == Completed && e.body.job.status == JobBlocked)
    ensures Tame(s, SDeliver(e, now, saved))
  {
    if e.body.JobEvent? {
      OnlyRevival(s.live.jobs.data[e.body.job.jobId].status, e.body.job.status);
    }
  }

  // ----- the second invariant -----

  /** A run that is past its first check still has every live job of its affair ahead of it. */
  ghost predicate Covered(b: Backend, run: Run) {
    PastChecks(run.phase) ==> forall j :: LiveJobOf(b, j, run.record.command.affairId) ==> Ahead(run.phase, j)
  }

  ghost predicate RunsCovered(s: System) {
    forall key :: key in s.running ==> Covered(s.live, s.running[key])
  }

  predicate ResultStopped(r: Record) {
    r.phase == Committed && r.outcome.Some? && r.outcome.value.Ok? ==>
      forall i :: 0 <= i < |r.outcome.value.result.jobs| ==> TerminalJob(r.outcome.value.result.jobs[i].status)
  }

  ghost predicate ResultsStopped(b: Backend) {
    forall k :: k in b.actions.data ==> ResultStopped(b.actions.data[k])
  }

  ghost predicate Settled(s: System) {
    TerminalSettled(s.live) && TerminalSettled(OnDisk(s)) && RunsCovered(s) && ResultsStopped(s.live)
  }

  predicate AllStopped(b: Backend, a: string) {
    forall j :: j in b.jobs.data ==> !LiveJobOf(b, j, a)
  }

  // ----- results -----

  /** When a close commits nothing is running under its affair. */
  lemma StoppedAtCommit(s: System, st: Step, k: Key)
    requires Inv(s) && RunsCovered(s) && Enabled(s, st) && Decides(s, st, k)
    requires Precheck(s.live, s.live.actions.data[k].command).None? && (st.SBegin? ==> s.live.actions.data[k].command.status == ToClosed)
    ensures AllStopped(s.live, s.live.actions.data[k].command.affairId)
  {
    var c := s.live.actions.data[k].command;
    hide Precheck, Inv, WellKeyed, WellOrdered, RunsCovered;
    KeysAndOrder(s);
    PrecheckMeans(s.live, c);
    if st.SConfirm? {
      NothingAheadOfConfirming(s, k);
    }
  }

  lemma NothingAheadOfConfirming(s: System, key: Key)
    requires RunsCovered(s) && key in s.running && s.running[key].phase.Confirming?
    ensures AllStopped(s.live, s.running[key].record.command.affairId)
  {
    assert Covered(s.live, s.running[key]);
    assert forall j :: !Ahead(Confirming, j);
  }

  lemma ResultOfStopped(b: Backend, c: CloseCommand)
    requires WellKeyed(b) && WellOrdered(b) && c.affairId in b.affairs.data && AllStopped(b, c.affairId)
    ensures forall i :: 0 <= i < |ResultOf(b, c).jobs| ==> TerminalJob(ResultOf(b, c).jobs[i].status)
  {
    var jobs := ResultOf(b, c).jobs;
    JobsOfMembers(b, c.affairId);
    forall i | 0 <= i < |jobs| ensures TerminalJob(jobs[i].status) {
      assert jobs[i] in jobs;
      assert !LiveJobOf(b, jobs[i].jobId, c.affairId);
    }
  }

  lemma ResultsStayStopped(s: System, st: Step)
    requires Inv(s) && RunsCovered(s) && ResultsStopped(s.live) && Enabled(s, st)
    ensures ResultsStopped(Next(s, st).live)
  {
    forall k | k in Next(s, st).live.actions.data ensures ResultStopped(Next(s, st).live.actions.data[k]) {
      ResultStaysStopped(s, st, k);
    }
  }

  lemma ResultStaysStopped(s: System, st: Step, k: Key)
    requires Inv(s) && RunsCovered(s) && ResultsStopped(s.live) && Enabled(s, st) && k in Next(s, st).live.actions.data
    ensures ResultStopped(Next(s, st).live.actions.data[k])
  {
    hide Inv, Next, Enabled, RunsCovered, Precheck, IsClosing, WellKeyed, WellOrdered;
    RecordStep(s, st, k);
    KeysAndOrder(s);
    assert k in s.live.actions.data ==> ResultStopped(s.live.actions.data[k]);
    hide ResultsStopped;
    if Decides(s, st, k) && Precheck(s.live, s.live.actions.data[k].command).None?
       && (st.SBegin? ==> s.live.actions.data[k].command.status == ToClosed) && s.live.actions.data[k].command.affairId in s.live.affairs.data {
      StoppedAtCommit(s, st, k);
      ResultOfStopped(s.live, s.live.actions.data[k].command);
    }
  }

  lemma KeysAndOrder(s: System)
    requires Inv(s)
    ensures WellKeyed(s.live) && WellOrdered(s.live)
  {
  }

  // ----- steps -----

  lemma OtherStepsLeaveJobs(s: System, st: Step)
    requires Enabled(s, st) && !st.SChild? && !st.SDeliver? && !st.SRegister? && !st.SRestart?
    ensures Next(s, st).live.jobs == s.live.jobs
  {
    if st.SSupervise? && st.affairId in s.live.affairs.data {
      ApplyKeepsCore(s.live, Envelope(st.messageId, false, true, AffairEvent(AffairUpdate, Marked(s.live.affairs.data[st.affairId], st.mark))), st.now);
    }
    hide Apply, IsClosing, Precheck, C.HandleJobCreate, JobsOf, PhoneMayNotSend, IntroducesNoEnding, Snapshot, RevokeAllOf;
  }

  /** A save leaves the file alone or makes it the snapshot of memory. */
  lemma FileAfterStep(s: System, st: Step)
    requires Enabled(s, st)
    ensures Next(s, st).disk == s.disk || Next(s, st).disk == Snapshot(Next(s, st).live, Next(s, st).pending)
  {
    hide Precheck, IsClosing, Apply, C.HandleJobCreate, Reconciled, RevokeAllOf, JobsOf;
  }

  /** The phase of a run changes only by its own steps. */
  lemma OnlyItsOwnStepsMoveARun(s: System, st: Step, key: Key)
    requires Enabled(s, st) && key in s.running && key in Next(s, st).running
    ensures Next(s, st).running[key] != s.running[key] ==>
      (st.SBegin? || st.SChild? || st.SPort? || st.SConfirm? || st.SSettle?) && st.key == key
  {
    hide Next, Enabled;
    if st.SExecute? {
      ExecuteStartsInLine(s, st, key);
    } else if OwnStep(st) {
      OwnStepKeepsOthers(s, st, key);
    } else {
      OtherStepKeepsRuns(s, st);
    }
  }

  /** Whatever is newly live under the affair of a run past its checks is still ahead of the run. */
  ghost predicate NoneRevived(s: System, b': Backend) {
    forall key, j :: key in s.running && PastChecks(s.running[key].phase) && NewlyLive(s.live, b', j, s.running[key].record.command.affairId)
      ==> Ahead(s.running[key].phase, j)
  }

  predicate NewlyLive(b: Backend, b': Backend, j: string, a: string) {
    LiveJobOf(b', j, a) && !LiveJobOf(b, j, a)
  }

  lemma MessageRevivesNone(s: System, e: Envelope, now: int, b': Backend)
    requires WellKeyed(s.live) && (forall key :: key in s.running ==> TameFor(s.live, s.running[key], e))
    requires b'.jobs == Apply(s.live, e, now).0.jobs
    ensures NoneRevived(s, b')
  {
    hide Apply, BringsToLife, WellKeyed;
    forall key, j | key in s.running && PastChecks(s.running[key].phase) && NewlyLive(s.live, b', j, s.running[key].record.command.affairId)
      ensures Ahead(s.running[key].phase, j)
    {
      var a := s.running[key].record.command.affairId;
      BringsToLifeExactly(s.live, e, now, a);
      assert LiveJobOf(Apply(s.live, e, now).0, j, a) && !LiveJobOf(s.live, j, a);
      assert TameFor(s.live, s.running[key], e);
    }
  }

  lemma DeliveredJobs(s: System, e: Envelope, now: int, saved: bool)
    requires !e.body.ReadReceipt?
    ensures var b' := Deliver(s, e, now, saved).0.live; b'.jobs == s.live.jobs || b'.jobs == Apply(s.live, e, now).0.jobs
  {
    hide Apply, IsClosing, Snapshot;
  }

  lemma DeliverRevivesNone(s: System, e: Envelope, now: int, saved: bool)
    requires Inv(s) && !e.body.ReadReceipt? && Tame(s, SDeliver(e, now, saved))
    ensures NoneRevived(s, Deliver(s, e, now, saved).0.live)
  {
    KeysAndOrder(s);
    DeliveredJobs(s, e, now, saved);
    hide Inv, Apply, Deliver, TameFor, NoneRevived, WellKeyed;
    if Deliver(s, e, now, saved).0.live.jobs == s.live.jobs {
      SameJobsReviveNone(s, Deliver(s, e, now, saved).0.live);
    } else {
      MessageRevivesNone(s, e, now, Deliver(s, e, now, saved).0.live);
    }
  }

  /** No run is past its checks on an affair without a pending close. */
  lemma NoRunOnUnfenced(s: System, key: Key, a: string)
    requires Inv(s) && key in s.running && PastChecks(s.running[key].phase) && !IsClosing(s.live, a)
    ensures s.running[key].record.command.affairId != a
  {
    assert RunOk(s.live, s.running[key]);
  }

  lemma CreationRevivesNone(s: System, command: Envelope, x: C.CreateInput)
    requires Inv(s) && command.body.JobEvent? && C.HandleJobCreate(s.live, s.gate, command, x).2 == C.Created
    ensures NoneRevived(s, C.HandleJobCreate(s.live, s.gate, command, x).0)
  {
    KeysAndOrder(s);
    var d, e := CreatedIsOneMessage(s.live, s.gate, command, x);
    var b' := Apply(d, e, x.now).0;
    assert C.HandleJobCreate(s.live, s.gate, command, x).0.jobs == b'.jobs && d.jobs == s.live.jobs;
    DraftKeyed(s.live, command.body.job);
    hide Inv, C.HandleJobCreate, Apply, IsClosing, C.Draft, WellKeyed;
    forall key, j | key in s.running && PastChecks(s.running[key].phase) && j in b'.jobs.data
      ensures !NewlyLive(s.live, b', j, s.running[key].record.command.affairId)
    {
      JobAfterMessage(d, e, x.now, j);
      NoRunOnUnfenced(s, key, e.body.job.affairId);
    }
  }

  lemma DraftKeyed(b: Backend, payload: Job)
    requires WellKeyed(b) && payload.affairId in b.affairs.data
    ensures WellKeyed(C.Draft(b, b.affairs.data[payload.affairId], payload))
  {
  }

  lemma ChildStepRevivesNone(s: System, key: Key, hasPort: bool, saved: bool)
    requires Inv(s) && Enabled(s, SChild(key, hasPort, saved))
    ensures NoneRevived(s, ChildStep(s, key, hasPort, saved).live)
  {
    ChildStepCases(s, key, hasPort, saved);
    SameJobsReviveNone(s, s.live);
    hide Inv, ChildStep, Snapshot, NoneRevived, MarkCanceled;
    var Cancelling(children, next) := s.running[key].phase;
    if next < |children| {
      MarkedRevivesNone(s, Current(s.live, children[next]));
    }
  }

  lemma MarkedRevivesNone(s: System, job: Job)
    ensures NoneRevived(s, MarkCanceled(s.live, job))
  {
  }

  lemma StepRevivesNone(s: System, st: Step)
    requires Inv(s) && Enabled(s, st) && Tame(s, st) && !st.SRestart?
    ensures NoneRevived(s, Next(s, st).live)
  {
    hide Inv, Tame, NoneRevived, Deliver, ChildStep, C.HandleJobCreate, Apply;
    if st.SDeliver? {
      DeliverRevivesNone(s, st.e, st.now, st.saved);
    } else if st.SChild? {
      ChildStepRevivesNone(s, st.key, st.hasPort, st.saved);
    } else if st.SRegister? {
      RegisterRevivesNone(s, st.createCommand, st.x);
    } else {
      OtherStepsLeaveJobs(s, st);
      SameJobsReviveNone(s, Next(s, st).live);
    }
  }

  lemma SameJobsReviveNone(s: System, b': Backend)
    requires b'.jobs == s.live.jobs
    ensures NoneRevived(s, b')
  {
  }

  lemma RegisterRevivesNone(s: System, command: Envelope, x: C.CreateInput)
    requires Inv(s) && command.body.JobEvent?
    ensures NoneRevived(s, Register(s, command, x).live)
  {
    hide Inv, NoneRevived, C.HandleJobCreate;
    if C.HandleJobCreate(s.live, s.gate, command, x).2 == C.Created {
      CreationRevivesNone(s, command, x);
    } else {
      C.CreationIsAtomic(s.live, s.gate, command, x);
      SameJobsReviveNone(s, s.live);
    }
  }

  // ----- the ended affairs of the next state -----

  lemma SameJobsSettled(s: System, st: Step)
    requires Inv(s) && RunsCovered(s) && TerminalSettled(s.live) && Enabled(s, st) && Next(s, st).live.jobs == s.live.jobs
    ensures TerminalSettled(Next(s, st).live)
  {
    var b' := Next(s, st).live;
    hide Inv, Next, Enabled, RunsCovered;
    forall j | j in b'.jobs.data && AffairEnded(b', b'.jobs.data[j].affairId) ensures TerminalJob(b'.jobs.data[j].status) {
      var a := b'.jobs.data[j].affairId;
      if !AffairEnded(s.live, a) {
        NewEndingIsStopped(s, st, a);
        assert !LiveJobOf(s.live, j, a);
      }
    }
  }

  lemma NewEndingIsStopped(s: System, st: Step, a: string)
    requires Inv(s) && RunsCovered(s) && Enabled(s, st) && !AffairEnded(s.live, a) && AffairEnded(Next(s, st).live, a)
    ensures AllStopped(s.live, a)
  {
    var k := EveryEndingIsACommit(s, st, a);
    hide Inv, Next, Enabled, Precheck;
    StoppedAtCommit(s, st, k);
  }

  lemma MessageSettled(b: Backend, e: Envelope, now: int, b': Backend)
    requires WellKeyed(b) && TerminalSettled(b) && IntroducesNoEnding(b, e)
    requires b'.jobs == Apply(b, e, now).0.jobs && b'.affairs == Apply(b, e, now).0.affairs
    ensures TerminalSettled(b')
  {
    ApplyKeepsSettled(b, e, now);
    hide Apply;
    assert forall a :: AffairEnded(b', a) <==> AffairEnded(Apply(b, e, now).0, a);
  }

  lemma DeliverSettled(s: System, e: Envelope, now: int, saved: bool)
    requires Inv(s) && TerminalSettled(s.live) && !e.body.ReadReceipt?
    ensures TerminalSettled(Deliver(s, e, now, saved).0.live)
  {
    KeysAndOrder(s);
    DeliveredCore(s, e, now, saved);
    hide Inv, Apply, Deliver, WellKeyed;
    var b' := Deliver(s, e, now, saved).0.live;
    if b'.jobs == s.live.jobs && b'.affairs == s.live.affairs {
      assert forall a :: AffairEnded(b', a) <==> AffairEnded(s.live, a);
    } else {
      MessageSettled(s.live, e, now, b');
    }
  }

  lemma DeliveredCore(s: System, e: Envelope, now: int, saved: bool)
    requires !e.body.ReadReceipt?
    ensures var b' := Deliver(s, e, now, saved).0.live;
      || (b'.jobs == s.live.jobs && b'.affairs == s.live.affairs)
      || (IntroducesNoEnding(s.live, e) && b'.jobs == Apply(s.live, e, now).0.jobs && b'.affairs == Apply(s.live, e, now).0.affairs)
  {
    hide Apply, IsClosing, Snapshot;
  }

  lemma DraftSettled(b: Backend, payload: Job)
    requires TerminalSettled(b) && WellKeyed(b) && payload.affairId in b.affairs.data
    ensures TerminalSettled(C.Draft(b, b.affairs.data[payload.affairId], payload))
  {
    var d := C.Draft(b, b.affairs.data[payload.affairId], payload);
    assert forall a :: AffairEnded(d, a) <==> AffairEnded(b, a);
  }

  lemma RegisterSettled(s: System, command: Envelope, x: C.CreateInput)
    requires Inv(s) && TerminalSettled(s.live) && command.body.JobEvent?
    ensures TerminalSettled(Register(s, command, x).live)
  {
    KeysAndOrder(s);
    hide Inv, C.HandleJobCreate, Apply, IsClosing, C.Draft, WellKeyed, TerminalSettled, IntroducesNoEnding;
    if C.HandleJobCreate(s.live, s.gate, command, x).2 == C.Created {
      var d, e := CreatedIsOneMessage(s.live, s.gate, command, x);
      DraftKeyed(s.live, command.body.job);
      DraftSettled(s.live, command.body.job);
      JobMessagesEndNothing(d, e);
      MessageSettled(d, e, x.now, Register(s, command, x).live);
    } else {
      C.CreationIsAtomic(s.live, s.gate, command, x);
    }
  }

  lemma JobMessagesEndNothing(b: Backend, e: Envelope)
    requires e.body.JobEvent?
    ensures IntroducesNoEnding(b, e)
  {
  }

  lemma MarkedSettled(b: Backend, job: Job)
    requires TerminalSettled(b) && job.jobId in b.jobs.data && b.jobs.data[job.jobId] == job
    ensures TerminalSettled(MarkCanceled(b, job))
  {
    assert forall a :: AffairEnded(MarkCanceled(b, job), a) <==> AffairEnded(b, a);
  }

  lemma ChildStepSettled(s: System, key: Key, hasPort: bool, saved: bool)
    requires Inv(s) && TerminalSettled(s.live) && Enabled(s, SChild(key, hasPort, saved))
    ensures TerminalSettled(ChildStep(s, key, hasPort, saved).live)
  {
    var Cancelling(children, next) := s.running[key].phase;
    KeysAndOrder(s);
    ChildStepCases(s, key, hasPort, saved);
    if next < |children| {
      ChildIsRegistered(s, key, children, next);
      MarkedSettled(s.live, Current(s.live, children[next]));
    }
    hide Inv, ChildStep, TerminalSettled, MarkCanceled, Snapshot;
  }

  lemma RestartSettled(s: System, gate: G.Gate, now: int)
    requires TerminalSettled(OnDisk(s))
    ensures TerminalSettled(Restart(s, gate, now).live)
  {
    RepairKeepsEndings(OnDisk(s), now);
    hide ReconcileOne;
  }

  lemma StepSettled(s: System, st: Step)
    requires Inv(s) && Settled(s) && Enabled(s, st)
    ensures TerminalSettled(Next(s, st).live)
  {
    hide Inv, TerminalSettled, RunsCovered, ResultsStopped, Deliver, ChildStep, Register, Restart;
    if st.SDeliver? {
      DeliverSettled(s, st.e, st.now, st.saved);
    } else if st.SChild? {
      ChildStepSettled(s, st.key, st.hasPort, st.saved);
    } else if st.SRegister? {
      RegisterSettled(s, st.createCommand, st.x);
    } else if st.SRestart? {
      RestartSettled(s, st.gate, st.now);
    } else {
      OtherStepsLeaveJobs(s, st);
      SameJobsSettled(s, st);
    }
  }

  lemma FileSettled(s: System, st: Step)
    requires Inv(s) && Settled(s) && Enabled(s, st) && TerminalSettled(Next(s, st).live)
    ensures TerminalSettled(OnDisk(Next(s, st)))
  {
    FileAfterStep(s, st);
    NextKeepsInv(s, st);
    KeysAndOrder(Next(s, st));
    var s' := Next(s, st);
    hide Inv, Next, Enabled;
    if s'.disk != s.disk {
      HydrateAfterSnapshot(EMPTY_BACKEND, s'.live, s'.pending);
      SameCoreSettled(s'.live, OnDisk(s'));
    }
  }

  lemma SameCoreSettled(b: Backend, b': Backend)
    requires TerminalSettled(b) && SameCore(b, b')
    ensures TerminalSettled(b')
  {
    assert forall a :: AffairEnded(b', a) <==> AffairEnded(b, a);
  }

  // ----- the runs of the next state -----

  /** A run that does not move stays covered if nothing it has passed comes alive. */
  lemma StillCovered(s: System, b': Backend, key: Key)
    requires RunsCovered(s) && NoneRevived(s, b') && key in s.running
    ensures Covered(b', s.running[key])
  {
    var run := s.running[key];
    assert Covered(s.live, run);
    if PastChecks(run.phase) {
      forall j | LiveJobOf(b', j, run.record.command.affairId) ensures Ahead(run.phase, j) {
        assert !LiveJobOf(s.live, j, run.record.command.affairId) ==> NewlyLive(s.live, b', j, run.record.command.affairId);
      }
    }
  }

  /** Passing a child that has stopped, or turning to the next one, loses none. */
  lemma CoveredFromHere(b: Backend, run: Run, children: seq<Job>, next: nat, phase: RunPhase)
    requires Covered(b, run) && next <= |children|
    requires run.phase == Cancelling(children, next) || run.phase == AwaitingPort(children, next)
    requires || (phase == AwaitingPort(children, next) && next < |children|)
             || (phase == Confirming && next == |children|)
             || (phase == Cancelling(children, next + 1) && next < |children| && !LiveJobOf(b, children[next].jobId, run.record.command.affairId))
    ensures Covered(b, run.(phase := phase))
  {
    forall j | LiveJobOf(b, j, run.record.command.affairId) ensures Ahead(phase, j) {
      assert Ahead(run.phase, j);
      var i :| next <= i < |children| && children[i].jobId == j;
    }
  }

  lemma BeginPhase(s: System, key: Key, saved: bool, published: bool)
    requires key in s.running
    ensures var s', run := Begin(s, key, saved, published), s.running[key];
      && key in s'.running
      && (s'.running[key].phase.Done?
          || (s'.live == s.live && s'.running[key] == run.(phase := Cancelling(JobsOf(s.live, run.record.command.affairId), 0))))
  {
    hide Precheck, JobsOf, RevokeAllOf, Snapshot;
  }

  lemma BeginCovers(s: System, key: Key, saved: bool, published: bool)
    requires Inv(s) && key in s.running && s.running[key].phase.InLine?
    ensures var s' := Begin(s, key, saved, published);
      key in s'.running && Covered(s'.live, s'.running[key])
  {
    KeysAndOrder(s);
    BeginPhase(s, key, saved, published);
    hide Inv, Begin, JobsOf, WellKeyed, WellOrdered;
    ChildrenCoverAffair(s.live, s.running[key].record.command.affairId);
  }

  lemma ChildStepCovers(s: System, key: Key, hasPort: bool, saved: bool)
    requires Inv(s) && RunsCovered(s) && Enabled(s, SChild(key, hasPort, saved))
    ensures var s' := ChildStep(s, key, hasPort, saved);
      key in s'.running && Covered(s'.live, s'.running[key])
  {
    var run := s.running[key];
    var Cancelling(children, next) := run.phase;
    var s' := ChildStep(s, key, hasPort, saved);
    ChildStepPhase(s, key, hasPort, saved);
    ChildStepRevivesNone(s, key, hasPort, saved);
    hide Inv, ChildStep, Covered, RunsCovered, NoneRevived;
    StillCovered(s, s'.live, key);
    if !s'.running[key].phase.Done? {
      CoveredFromHere(s'.live, run, children, next, s'.running[key].phase);
    }
    DoneIsCovered(s'.live, s'.running[key]);
  }

  /** A round ends the run, goes on to the next child or the last check, or passes a child that has stopped. */
  lemma ChildStepPhase(s: System, key: Key, hasPort: bool, saved: bool)
    requires Inv(s) && Enabled(s, SChild(key, hasPort, saved))
    ensures var Cancelling(children, next) := s.running[key].phase;
      var s' := ChildStep(s, key, hasPort, saved);
      && key in s'.running && s'.running[key] == s.running[key].(phase := s'.running[key].phase)
      && (var phase := s'.running[key].phase;
          || phase.Done?
          || (phase == AwaitingPort(children, next) && next < |children|)
          || (phase == Confirming && next == |children|)
          || (&& phase == Cancelling(children, next + 1) && next < |children|
              && forall a :: !LiveJobOf(s'.live, children[next].jobId, a)))
  {
    var Cancelling(children, next) := s.running[key].phase;
    ChildStepCases(s, key, hasPort, saved);
    if next < |children| {
      KeysAndOrder(s);
      ChildIsRegistered(s, key, children, next);
      MarkedIsNotLive(s.live, Current(s.live, children[next]));
    }
    hide Inv, ChildStep, Snapshot, MarkCanceled;
  }

  lemma DoneIsCovered(b: Backend, run: Run)
    ensures run.phase.Done? || run.phase.InLine? ==> Covered(b, run)
  {
  }

  lemma MarkedIsNotLive(b: Backend, job: Job)
    ensures forall a :: !LiveJobOf(MarkCanceled(b, job), job.jobId, a)
  {
  }

  lemma PortCovers(s: System, key: Key, threw: bool, saved: bool)
    requires RunsCovered(s) && Enabled(s, SPort(key, threw, saved))
    ensures var s' := PortReturns(s, key, threw, saved);
      key in s'.running && Covered(s'.live, s'.running[key])
  {
    var run := s.running[key];
    var AwaitingPort(children, next) := run.phase;
    var s' := PortReturns(s, key, threw, saved);
    DoneIsCovered(s'.live, s'.running[key]);
    assert Covered(s.live, run);
    hide Covered, Snapshot, RunsCovered;
    if !s'.running[key].phase.Done? {
      CoveredFromHere(s.live, run, children, next, Cancelling(children, next + 1));
    }
  }

  lemma ConfirmEnds(s: System, key: Key, saved: bool, published: bool)
    requires key in s.running
    ensures var s' := Confirm(s, key, saved, published);
      key in s'.running && s'.running[key].phase.Done?
  {
    hide Precheck, Snapshot, JobsOf;
  }

  lemma OwnStepCovers(s: System, st: Step, key: Key)
    requires Inv(s) && RunsCovered(s) && Enabled(s, st) && (st.SBegin? || st.SChild? || st.SPort? || st.SConfirm?) && st.key == key
    ensures key in Next(s, st).running && Covered(Next(s, st).live, Next(s, st).running[key])
  {
    hide Inv, RunsCovered, Covered, Begin, ChildStep, PortReturns, Confirm;
    match st {
      case SBegin(k, saved, published) => BeginCovers(s, k, saved, published);
      case SChild(k, hasPort, saved) => ChildStepCovers(s, k, hasPort, saved);
      case SPort(k, threw, saved) => PortCovers(s, k, threw, saved);
      case SConfirm(k, saved, published) =>
        ConfirmEnds(s, k, saved, published);
        DoneIsCovered(Confirm(s, k, saved, published).live, Confirm(s, k, saved, published).running[k]);
    }
  }

  /** Where the runs of the next state come from. */
  lemma RunsAfter(s: System, st: Step, key: Key)
    requires Enabled(s, st) && key in Next(s, st).running
    ensures key in s.running || Next(s, st).running[key].phase.InLine?
  {
    hide Next, Enabled, Execute;
    if st.SExecute? {
      ExecuteStartsInLine(s, st, key);
    } else if OwnStep(st) {
      OwnStepKeepsOthers(s, st, key);
    } else {
      OtherStepKeepsRuns(s, st);
    }
  }

  lemma ExecuteStartsInLine(s: System, st: Step, key: Key)
    requires Enabled(s, st) && st.SExecute? && key in Next(s, st).running
    ensures key in s.running || Next(s, st).running[key].phase.InLine?
    ensures key in s.running ==> Next(s, st).running[key] == s.running[key]
  {
    hide IsClosing, Snapshot, ValidCommand;
  }

  /** The steps of one run. */
  predicate OwnStep(st: Step) {
    st.SBegin? || st.SChild? || st.SPort? || st.SConfirm? || st.SSettle?
  }

  lemma OwnStepKeepsOthers(s: System, st: Step, key: Key)
    requires Enabled(s, st) && OwnStep(st)
    ensures key in Next(s, st).running ==> key in s.running
    ensures key != st.key && key in s.running ==> key in Next(s, st).running && Next(s, st).running[key] == s.running[key]
  {
    hide Precheck, JobsOf, Snapshot, RevokeAllOf, ResultOf, EndedBlocked, MarkCanceled, Current;
    if st.SConfirm? {
      ConfirmKeepsOthers(s, st.key, st.saved, st.published, key);
    } else if st.SBegin? {
      ConfirmKeepsOthers(s, st.key, st.saved, st.published, key);
      RejectKeepsOthers(s, st.key, st.saved, key);
    }
    hide Confirm, FinishRejected;
  }

  lemma RejectKeepsOthers(s: System, k: Key, saved: bool, key: Key)
    requires k in s.running
    ensures forall code :: key in FinishRejected(s, k, code, saved).running ==> key in s.running
    ensures forall code :: key != k && key in s.running ==>
      key in FinishRejected(s, k, code, saved).running && FinishRejected(s, k, code, saved).running[key] == s.running[key]
  {
    hide Snapshot;
  }

  lemma ConfirmKeepsOthers(s: System, k: Key, saved: bool, published: bool, key: Key)
    requires k in s.running
    ensures key in Confirm(s, k, saved, published).running ==> key in s.running
    ensures key != k && key in s.running ==>
      key in Confirm(s, k, saved, published).running && Confirm(s, k, saved, published).running[key] == s.running[key]
  {
    RejectKeepsOthers(s, k, saved, key);
    if Precheck(s.live, s.running[k].record.command).None? {
      assert s.running[k].record.command.affairId in s.live.affairs.data;
    }
    hide Precheck, JobsOf, Snapshot, ResultOf, FinishRejected;
  }

  lemma OtherStepKeepsRuns(s: System, st: Step)
    requires Enabled(s, st) && !OwnStep(st) && !st.SExecute?
    ensures Next(s, st).running == if st.SRestart? then map[] else s.running
  {
    hide Apply, C.HandleJobCreate, Snapshot, ValidateDecision, IntroducesNoEnding, PhoneMayNotSend, Marked, Reconciled, ReportsTrouble, IsClosing, Hydrate;
  }

  lemma SettledIsGone(s: System, st: Step, key: Key)
    requires Enabled(s, st) && st.SSettle? && st.key == key
    ensures key !in Next(s, st).running
  {
  }

  lemma RunsStayCovered(s: System, st: Step)
    requires Inv(s) && RunsCovered(s) && Enabled(s, st) && Tame(s, st)
    ensures RunsCovered(Next(s, st))
  {
    forall key | key in Next(s, st).running ensures Covered(Next(s, st).live, Next(s, st).running[key]) {
      RunStaysCovered(s, st, key);
    }
  }

  lemma RunStaysCovered(s: System, st: Step, key: Key)
    requires Inv(s) && RunsCovered(s) && Enabled(s, st) && Tame(s, st) && key in Next(s, st).running
    ensures Covered(Next(s, st).live, Next(s, st).running[key])
  {
    hide Inv, RunsCovered, Covered, Tame, NoneRevived;
    if st.SRestart? {
    } else if (st.SBegin? || st.SChild? || st.SPort? || st.SConfirm?) && st.key == key {
      OwnStepCovers(s, st, key);
    } else {
      RunsAfter(s, st, key);
      DoneIsCovered(Next(s, st).live, Next(s, st).running[key]);
      if key in s.running && !Next(s, st).running[key].phase.InLine? {
        OnlyItsOwnStepsMoveARun(s, st, key);
        if st.SSettle? && st.key == key {
          SettledIsGone(s, st, key);
        }
        StepRevivesNone(s, st);
        StillCovered(s, Next(s, st).live, key);
      }
    }
  }

  lemma NextKeepsSettled(s: System, st: Step)
    requires Inv(s) && Settled(s) && Enabled(s, st) && Tame(s, st)
    ensures Settled(Next(s, st))
  {
    hide Inv, Next, Enabled, Tame, TerminalSettled, RunsCovered, ResultsStopped;
    StepSettled(s, st);
    FileSettled(s, st);
    RunsStayCovered(s, st);
    ResultsStayStopped(s, st);
  }

  // ----- runs -----

  /** The messages of the first `n` steps are tame. */
  predicate TameRun(ss: seq<System>, steps: seq<Step>, n: nat)
    requires |ss| == |steps| + 1 && n < |ss|
  {
    forall i :: 0 <= i < n ==> Tame(ss[i], steps[i])
  }

  lemma {:induction false} RunKeepsSettled(ss: seq<System>, steps: seq<Step>, n: nat)
    requires IsRun(ss, steps) && n < |ss| && TameRun(ss, steps, n)
    ensures Settled(ss[n])
  {
    hide Inv, Next, Enabled, Tame;
    if n == 0 {
      HydrateAfterSnapshot(EMPTY_BACKEND, EMPTY_BACKEND, []);
    } else {
      hide Settled;
      RunKeepsSettled(ss, steps, n - 1);
      RunKeepsInv(ss, steps, n - 1);
      NextKeepsSettled(ss[n - 1], steps[n - 1]);
    }
  }

  /** In every state reached by tame messages, in memory and on file, an affair that has ended has only
      terminal jobs, and every committed close reported only terminal jobs. */
  lemma EndedAffairsAreStill(ss: seq<System>, steps: seq<Step>, n: nat, a: string, j: string, k: Key, result: CloseResult, command: CloseCommand)
    requires IsRun(ss, steps) && n < |ss| && TameRun(ss, steps, n)
    ensures AffairEnded(ss[n].live, a) ==> !LiveJobOf(ss[n].live, j, a) && !LiveJobOf(OnDisk(ss[n]), j, a)
    ensures Recorded(ss[n].live, k, command, Ok(result, false)) ==>
      forall i :: 0 <= i < |result.jobs| ==> result.jobs[i].affairId == command.affairId && TerminalJob(result.jobs[i].status)
  {
    RunKeepsSettled(ss, steps, n);
    RunKeepsInv(ss, steps, n);
    if AffairEnded(ss[n].live, a) {
      var c := CommitOfEnding(ss[n].live, a);
      CommitShows(OnDisk(ss[n]), c);
    }
    if Recorded(ss[n].live, k, command, Ok(result, false)) {
      assert RecordOk(ss[n].live, ss[n].live.actions.data[k]);
      assert ResultStopped(ss[n].live.actions.data[k]);
    }
  }

  // ----- the premise is exact -----

  /** A close that commits over state `b` leaves nothing live under its affair exactly if nothing was. */
  lemma CommitOver(s: System, key: Key, published: bool)
    requires WellKeyed(s.live) && TerminalSettled(s.live) && key in s.running
    requires Precheck(s.live, s.running[key].record.command).None?
    ensures TerminalSettled(Confirm(s, key, true, published).live) <==> AllStopped(s.live, s.running[key].record.command.affairId)
  {
    var c := s.running[key].record.command;
    var b' := Confirm(s, key, true, published).live;
    PrecheckMeans(s.live, c);
    assert b'.jobs == s.live.jobs && b'.affairs == Set(s.live.affairs, c.affairId, ClosedAffair(s.live.affairs.data[c.affairId], c));
    hide Confirm, Precheck;
    assert forall a :: AffairEnded(b', a) <==> AffairEnded(s.live, a) || a == c.affairId;
    if AllStopped(s.live, c.affairId) {
      assert forall j :: j in b'.jobs.data ==> !LiveJobOf(s.live, j, c.affairId);
    } else {
      var j :| j in s.live.jobs.data && LiveJobOf(s.live, j, c.affairId);
      assert j in b'.jobs.data && AffairEnded(b', b'.jobs.data[j].affairId);
    }
  }

  /** The exact condition. A cancellation has passed all its children and one more message arrives before it
      commits: it leaves a live job under the affair it ends if and only if that message brings one to life. */
  lemma LiveJobSurvivesExactlyIf(s: System, key: Key, e: Envelope, now: int, published: bool)
    requires Inv(s) && Settled(s) && key in s.running && s.running[key].phase.Confirming? && IntroducesNoEnding(s.live, e)
    requires Precheck(Apply(s.live, e, now).0, s.running[key].record.command).None?
    ensures var a := s.running[key].record.command.affairId;
      !TerminalSettled(Confirm(s.(live := Apply(s.live, e, now).0), key, true, published).live) <==> BringsToLife(s.live, e, a)
  {
    var a := s.running[key].record.command.affairId;
    var b' := Apply(s.live, e, now).0;
    KeysAndOrder(s);
    assert Covered(s.live, s.running[key]);
    assert forall j :: !LiveJobOf(s.live, j, a);
    MessageSettled(s.live, e, now, b');
    ApplyIsLawfulKeys(s.live, e, now);
    BringsToLifeExactly(s.live, e, now, a);
    hide Inv, Settled, Apply, BringsToLife, Precheck, Confirm, TerminalSettled, WellKeyed;
    CommitOver(s.(live := b'), key, published);
  }

  lemma ApplyIsLawfulKeys(b: Backend, e: Envelope, now: int)
    requires WellKeyed(b) && IntroducesNoEnding(b, e)
    ensures WellKeyed(Apply(b, e, now).0)
  {
    ApplyIsLawful(b, e, now);
  }
}
