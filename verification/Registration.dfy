/** Which jobs are registered under an affair: what can add one, and that nothing does while a close of the
    affair is pending, through every step, failed save and restart. */
module Registration {
  import opened Option
  import opened JsMap
  import opened Status
  import opened Types
  import opened Store
  import opened Reconcile
  import opened Mirror
  import opened Closing
  import opened Coordinator
  import opened Authority
  import opened Invariant
  import opened Guarantees
  import opened Endings
  import C = Create
  import G = Gate

  predicate RegisteredUnder(b: Backend, j: string, a: string) {
    j in b.jobs.data && b.jobs.data[j].affairId == a
  }

  // ----- messages that register -----

  /** The message puts a job under affair `a` that was not: a new one, or one moved from another affair. */
  predicate RegistersUnder(b: Backend, e: Envelope, a: string) {
    && Validated(e) && e.messageId !in b.seen.data && e.body.JobEvent? && e.body.job.affairId == a
    && !RegisteredUnder(b, e.body.job.jobId, a)
    && (AffairEnded(b, a) ==> e.body.job.status == JobCanceled)
    && (e.body.job.jobId in b.jobs.data ==> CanTransitionJob(b.jobs.data[e.body.job.jobId].status, e.body.job.status))
  }

  lemma RegistersExactly(b: Backend, e: Envelope, now: int, a: string)
    requires WellKeyed(b)
    ensures (exists j :: RegisteredUnder(Apply(b, e, now).0, j, a) && !RegisteredUnder(b, j, a)) <==> RegistersUnder(b, e, a)
  {
    var b' := Apply(b, e, now).0;
    forall j | RegisteredUnder(b', j, a) && !RegisteredUnder(b, j, a) ensures RegistersUnder(b, e, a) {
      NewlyRegistered(b, e, now, j, a);
    }
    if RegistersUnder(b, e, a) {
      RegistersIt(b, e, now, a);
    }
    hide Apply, RegistersUnder, WellKeyed;
  }

  lemma NewlyRegistered(b: Backend, e: Envelope, now: int, j: string, a: string)
    requires WellKeyed(b) && RegisteredUnder(Apply(b, e, now).0, j, a) && !RegisteredUnder(b, j, a)
    ensures RegistersUnder(b, e, a)
  {
    JobAfterMessage(b, e, now, j);
  }

  lemma RegistersIt(b: Backend, e: Envelope, now: int, a: string)
    requires WellKeyed(b) && RegistersUnder(b, e, a)
    ensures RegisteredUnder(Apply(b, e, now).0, e.body.job.jobId, a) && !RegisteredUnder(b, e.body.job.jobId, a)
  {
  }

  /** The premise of the results about whole runs: job messages are about registered jobs, under the affair
      each is registered under. It also leaves out a message about a job that was never registered. */
  predicate KeepsRegistration(s: System, st: Step) {
    st.SDeliver? && st.e.body.JobEvent? ==> RegisteredUnder(s.live, st.e.body.job.jobId, st.e.body.job.affairId)
  }

  // ----- steps -----

  ghost predicate SameRegistration(b: Backend, b': Backend) {
    b'.jobs.data.Keys == b.jobs.data.Keys && forall j :: j in b.jobs.data ==> b'.jobs.data[j].affairId == b.jobs.data[j].affairId
  }

  /** New jobs came from a creation under an affair without a pending close, and every other one stayed. */
  ghost predicate OnlyCreated(b: Backend, b': Backend) {
    && (forall j, a :: RegisteredUnder(b, j, a) ==> RegisteredUnder(b', j, a))
    && (forall j, a :: RegisteredUnder(b', j, a) && !RegisteredUnder(b, j, a) ==> !IsClosing(b, a))
  }

  lemma MessageKeepsRegistration(b: Backend, e: Envelope, now: int)
    requires WellKeyed(b) && (e.body.JobEvent? ==> RegisteredUnder(b, e.body.job.jobId, e.body.job.affairId))
    ensures SameRegistration(b, Apply(b, e, now).0)
  {
    var b' := Apply(b, e, now).0;
    ApplyKeepsCore(b, e, now);
    if e.body.JobEvent? {
      JobEventWrites(b, e.body.jobKind, e.body.job);
    }
    hide Apply, ApplyJob, ApplyAffair;
  }

  lemma CreationRegisters(s: System, command: Envelope, x: C.CreateInput)
    requires Inv(s) && command.body.JobEvent? && C.HandleJobCreate(s.live, s.gate, command, x).2 == C.Created
    ensures OnlyCreated(s.live, C.HandleJobCreate(s.live, s.gate, command, x).0)
  {
    KeysAndOrder(s);
    var d, e := CreatedIsOneMessage(s.live, s.gate, command, x);
    var b' := C.HandleJobCreate(s.live, s.gate, command, x).0;
    assert d.jobs == s.live.jobs && b'.jobs == Apply(d, e, x.now).0.jobs;
    DraftKeyed(s.live, command.body.job);
    JobsBesideMessage(d, e, x.now);
    hide Inv, C.HandleJobCreate, Apply, IsClosing, C.Draft, WellKeyed;
    forall j, a | RegisteredUnder(b', j, a) && !RegisteredUnder(s.live, j, a) ensures !IsClosing(s.live, a) {
      JobAfterMessage(d, e, x.now, j);
    }
    forall j, a | RegisteredUnder(s.live, j, a) ensures RegisteredUnder(b', j, a) {
      assert j != e.body.job.jobId;
    }
  }

  lemma JobsBesideMessage(d: Backend, e: Envelope, now: int)
    requires e.body.JobEvent?
    ensures forall j :: j in d.jobs.data && j != e.body.job.jobId ==> j in Apply(d, e, now).0.jobs.data && Apply(d, e, now).0.jobs.data[j] == d.jobs.data[j]
  {
    ApplyKeepsCore(d, e, now);
  }

  lemma ChildStepRegistration(s: System, key: Key, hasPort: bool, saved: bool)
    requires Inv(s) && Enabled(s, SChild(key, hasPort, saved))
    ensures SameRegistration(s.live, ChildStep(s, key, hasPort, saved).live)
  {
    var Cancelling(children, next) := s.running[key].phase;
    ChildStepCases(s, key, hasPort, saved);
    if next < |children| {
      KeysAndOrder(s);
      ChildIsRegistered(s, key, children, next);
      MarkedRegistration(s.live, Current(s.live, children[next]));
    }
    SameJobsRegistration(s.live, s.live);
    hide Inv, ChildStep, Snapshot, MarkCanceled, SameRegistration;
  }

  lemma MarkedRegistration(b: Backend, job: Job)
    requires job.jobId in b.jobs.data && b.jobs.data[job.jobId] == job
    ensures SameRegistration(b, MarkCanceled(b, job))
  {
  }

  lemma SameJobsRegistration(b: Backend, b': Backend)
    requires b'.jobs == b.jobs
    ensures SameRegistration(b, b')
  {
  }

  lemma DeliverRegistration(s: System, e: Envelope, now: int, saved: bool)
    requires Inv(s) && !e.body.ReadReceipt? && (e.body.JobEvent? ==> RegisteredUnder(s.live, e.body.job.jobId, e.body.job.affairId))
    ensures SameRegistration(s.live, Deliver(s, e, now, saved).0.live)
  {
    KeysAndOrder(s);
    DeliveredJobs(s, e, now, saved);
    MessageKeepsRegistration(s.live, e, now);
    SameJobsRegistration(s.live, s.live);
    SameJobsAsTarget(s.live, Apply(s.live, e, now).0, Deliver(s, e, now, saved).0.live);
    SameJobsAsTarget(s.live, s.live, Deliver(s, e, now, saved).0.live);
    hide Inv, Deliver, Apply, SameRegistration;
  }

  lemma SameJobsAsTarget(b: Backend, b1: Backend, b2: Backend)
    requires SameRegistration(b, b1)
    ensures b2.jobs == b1.jobs ==> SameRegistration(b, b2)
  {
  }

  /** What one step does to the registration, short of a restart: nothing, or it is a saved creation. */
  lemma StepRegistration(s: System, st: Step)
    requires Inv(s) && Enabled(s, st) && KeepsRegistration(s, st) && !st.SRestart?
    ensures SameRegistration(s.live, Next(s, st).live)
      || (OnlyCreated(s.live, Next(s, st).live) && Next(s, st).disk == Snapshot(Next(s, st).live, Next(s, st).pending))
  {
    hide Inv, SameRegistration, OnlyCreated, Deliver, ChildStep, Snapshot, C.HandleJobCreate;
    if st.SChild? {
      ChildStepRegistration(s, st.key, st.hasPort, st.saved);
    } else if st.SDeliver? {
      DeliverRegistration(s, st.e, st.now, st.saved);
    } else if st.SRegister? {
      if C.HandleJobCreate(s.live, s.gate, st.createCommand, st.x).2 == C.Created {
        CreationRegisters(s, st.createCommand, st.x);
      } else {
        C.CreationIsAtomic(s.live, s.gate, st.createCommand, st.x);
        SameJobsRegistration(s.live, s.live);
      }
    } else {
      OtherStepsLeaveJobs(s, st);
      SameJobsRegistration(s.live, Next(s, st).live);
    }
  }

  // ----- the file -----

  /** Memory and file hold the same jobs under the same affairs. */
  ghost predicate FileRegistered(s: System) {
    SameRegistration(OnDisk(s), s.live)
  }

  lemma RestartRegistered(s: System, gate: G.Gate, now: int)
    ensures FileRegistered(Restart(s, gate, now))
  {
    hide Hydrate, ReconcileOne;
  }

  lemma SavedRegistered(s: System)
    requires WellKeyed(s.live) && WellOrdered(s.live) && s.disk == Snapshot(s.live, s.pending)
    ensures FileRegistered(s)
  {
    HydrateAfterSnapshot(EMPTY_BACKEND, s.live, s.pending);
  }

  lemma RegistrationTwice(b0: Backend, b1: Backend, b2: Backend)
    requires SameRegistration(b0, b1) && SameRegistration(b1, b2)
    ensures SameRegistration(b0, b2)
  {
  }

  lemma NextKeepsFileRegistered(s: System, st: Step)
    requires Inv(s) && Enabled(s, st) && KeepsRegistration(s, st) && FileRegistered(s)
    ensures FileRegistered(Next(s, st))
  {
    hide Inv, Enabled, OnlyCreated, WellKeyed, WellOrdered, Snapshot, Hydrate, Restart, SameRegistration, KeepsRegistration;
    if st.SRestart? {
      RestartRegistered(s, st.gate, st.now);
    } else {
      UnsavedOrSaved(s, st);
    }
  }

  lemma UnsavedOrSaved(s: System, st: Step)
    requires Inv(s) && Enabled(s, st) && KeepsRegistration(s, st) && FileRegistered(s) && !st.SRestart?
    ensures FileRegistered(Next(s, st))
  {
    hide Inv, Next, Enabled, OnlyCreated, WellKeyed, WellOrdered, Snapshot, Hydrate, SameRegistration, KeepsRegistration;
    var s' := Next(s, st);
    NextKeepsInv(s, st);
    KeysAndOrder(s');
    FileAfterStep(s, st);
    StepRegistration(s, st);
    if s'.disk == Snapshot(s'.live, s'.pending) {
      SavedRegistered(s');
    } else {
      RegistrationTwice(OnDisk(s), s.live, s'.live);
    }
  }

  lemma {:induction false} RunKeepsFileRegistered(ss: seq<System>, steps: seq<Step>, n: nat)
    requires IsRun(ss, steps) && n < |ss| && forall i :: 0 <= i < n ==> KeepsRegistration(ss[i], steps[i])
    ensures FileRegistered(ss[n])
  {
    hide Inv, Next, Enabled, KeepsRegistration;
    if n == 0 {
      HydrateAfterSnapshot(EMPTY_BACKEND, EMPTY_BACKEND, []);
    } else {
      RunKeepsFileRegistered(ss, steps, n - 1);
      RunKeepsInv(ss, steps, n - 1);
      NextKeepsFileRegistered(ss[n - 1], steps[n - 1]);
    }
  }

  // ----- the fence -----

  /** The step is a job message that puts job `j` under `a`. */
  predicate RegistersBy(s: System, st: Step, j: string, a: string) {
    st.SDeliver? && RegistersUnder(s.live, st.e, a) && st.e.body.job.jobId == j
  }

  lemma MessageGains(s: System, e: Envelope, now: int, saved: bool, j: string, a: string)
    requires Inv(s) && !e.body.ReadReceipt? && e.body.JobEvent? && !RegisteredUnder(s.live, j, a)
    ensures RegisteredUnder(Deliver(s, e, now, saved).0.live, j, a) <==> RegistersUnder(s.live, e, a) && e.body.job.jobId == j
  {
    KeysAndOrder(s);
    JobsOfJobMessage(s, e, now, saved);
    if RegisteredUnder(Apply(s.live, e, now).0, j, a) {
      NewlyRegistered(s.live, e, now, j, a);
      JobAfterMessage(s.live, e, now, j);
    }
    if RegistersUnder(s.live, e, a) && e.body.job.jobId == j {
      RegistersIt(s.live, e, now, a);
    }
    hide Inv, Deliver, Apply, WellKeyed, RegistersUnder;
  }

  lemma JobsOfJobMessage(s: System, e: Envelope, now: int, saved: bool)
    requires !e.body.ReadReceipt? && e.body.JobEvent?
    ensures Deliver(s, e, now, saved).0.live.jobs == Apply(s.live, e, now).0.jobs
  {
    hide Apply, IsClosing, Snapshot;
  }

  lemma QuietMessageKeeps(s: System, e: Envelope, now: int, saved: bool, j: string, a: string)
    requires Inv(s) && !e.body.ReadReceipt? && !e.body.JobEvent?
    ensures RegisteredUnder(Deliver(s, e, now, saved).0.live, j, a) <==> RegisteredUnder(s.live, j, a)
  {
    KeysAndOrder(s);
    DeliverRegistration(s, e, now, saved);
    hide Inv, Deliver;
  }

  /** Exactly what a step under a pending close of `a`, short of a restart, registers under `a`: the job of a message that
      the store accepts as moving or registering it there, and nothing else. */
  lemma FenceLetsInExactly(s: System, st: Step, a: string, j: string)
    requires Inv(s) && Enabled(s, st) && !st.SRestart? && IsClosing(s.live, a) && !RegisteredUnder(s.live, j, a)
    ensures RegisteredUnder(Next(s, st).live, j, a) <==> RegistersBy(s, st, j, a)
  {
    hide Inv, IsClosing, RegistersUnder, Deliver;
    if st.SDeliver? && st.e.body.JobEvent? {
      MessageGains(s, st.e, st.now, st.saved, j, a);
    } else if st.SDeliver? {
      QuietMessageKeeps(s, st.e, st.now, st.saved, j, a);
      NoJobNoRegistration(s.live, st.e, a);
    } else {
      hide Next, Enabled;
      StepRegistration(s, st);
    }
  }

  lemma NoJobNoRegistration(b: Backend, e: Envelope, a: string)
    requires !e.body.JobEvent?
    ensures !RegistersUnder(b, e, a)
  {
  }

  predicate OnFile(s: System, j: string, a: string) {
    RegisteredUnder(OnDisk(s), j, a)
  }

  lemma RestartBringsTheFile(s: System, gate: G.Gate, now: int, j: string, a: string)
    ensures RegisteredUnder(Restart(s, gate, now).live, j, a) ==> OnFile(s, j, a)
    ensures Restart(s, gate, now).disk == s.disk
  {
    hide Hydrate, ReconcileOne;
  }

  lemma FileGains(s: System, st: Step, j: string, a: string)
    requires Inv(s) && Enabled(s, st) && OnFile(Next(s, st), j, a)
    ensures OnFile(s, j, a) || RegisteredUnder(Next(s, st).live, j, a)
  {
    hide Inv, Next, Enabled, WellKeyed, WellOrdered, Snapshot, Hydrate;
    NextKeepsInv(s, st);
    KeysAndOrder(Next(s, st));
    FileAfterStep(s, st);
    if Next(s, st).disk == Snapshot(Next(s, st).live, Next(s, st).pending) {
      SavedRegistered(Next(s, st));
    }
  }

  lemma GainedUnderFence(s: System, st: Step, a: string, j: string)
    requires Inv(s) && Enabled(s, st) && IsClosing(s.live, a) && !RegisteredUnder(s.live, j, a) && !OnFile(s, j, a)
    requires RegisteredUnder(Next(s, st).live, j, a) || OnFile(Next(s, st), j, a)
    ensures RegistersBy(s, st, j, a)
  {
    hide Inv, Enabled, IsClosing, RegistersBy, OnFile, Restart;
    if st.SRestart? {
      RestartBringsTheFile(s, st.gate, st.now, j, a);
    }
    hide Next;
    if OnFile(Next(s, st), j, a) {
      FileGains(s, st, j, a);
    }
    if !st.SRestart? {
      FenceLetsInExactly(s, st, a, j);
    }
  }

  /** Over whole runs, whatever the messages: a job found under `a`, in memory or on file, at the end of a stretch during
      which a close of `a` was pending was there at its beginning, or a job message of that stretch put it there. No
      create command, supervision, repair or restart does. */
  lemma {:induction false} FencedAffairGainsOnlyByMessage(ss: seq<System>, steps: seq<Step>, n: nat, m: nat, a: string, j: string)
    requires IsRun(ss, steps) && n <= m < |ss| && forall i :: n <= i < m ==> IsClosing(ss[i].live, a)
    requires RegisteredUnder(ss[m].live, j, a) || OnFile(ss[m], j, a)
    ensures RegisteredUnder(ss[n].live, j, a) || OnFile(ss[n], j, a) || exists i :: n <= i < m && RegistersBy(ss[i], steps[i], j, a)
    decreases m
  {
    hide Inv, Next, Enabled, IsClosing, RegistersBy, OnFile, RegisteredUnder;
    if n < m {
      RunKeepsInv(ss, steps, m - 1);
      if RegisteredUnder(ss[m - 1].live, j, a) || OnFile(ss[m - 1], j, a) {
        FencedAffairGainsOnlyByMessage(ss, steps, n, m - 1, a, j);
      } else {
        GainedUnderFence(ss[m - 1], steps[m - 1], a, j);
      }
    }
  }

  lemma KeptIsNotRegistered(s: System, st: Step, j: string, a: string)
    requires KeepsRegistration(s, st)
    ensures !RegistersBy(s, st, j, a)
  {
  }

  /** So where job messages keep their job under its registered affair, no job is registered under `a` while a close of
      `a` is pending: in any run, from any state to any later one, across failed saves and restarts. */
  lemma FencedAffairGainsNoJob(ss: seq<System>, steps: seq<Step>, n: nat, m: nat, a: string, j: string)
    requires IsRun(ss, steps) && n <= m < |ss| && forall i :: 0 <= i < m ==> KeepsRegistration(ss[i], steps[i])
    requires (forall i :: n <= i < m ==> IsClosing(ss[i].live, a)) && RegisteredUnder(ss[m].live, j, a)
    ensures RegisteredUnder(ss[n].live, j, a)
  {
    hide Inv, Next, Enabled, IsClosing, RegistersBy, KeepsRegistration;
    FencedAffairGainsOnlyByMessage(ss, steps, n, m, a, j);
    RunKeepsFileRegistered(ss, steps, n);
    forall i | n <= i < m ensures !RegistersBy(ss[i], steps[i], j, a) {
      KeptIsNotRegistered(ss[i], steps[i], j, a);
    }
  }
}
