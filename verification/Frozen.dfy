/** Jobs of ended affairs do not move: not by messages, not by failed saves, not by crash and restart. */
module Frozen {
  import opened Option
  import opened JsMap
  import opened Status
  import opened Types
  import opened Store
  import opened Reconcile
  import opened Mirror
  import opened Closing
  import opened Coordinator
  import opened Authority
  import opened Invariant
  import opened Guarantees
  import opened Endings
  import opened Registration
  import C = Create
  import G = Gate

  /** Every job is still there, under its affair, and with its status if that affair has ended. */
  ghost predicate JobsKept(b: Backend, b': Backend) {
    forall j :: j in b.jobs.data ==> JobKept(b, b', j)
  }

  ghost predicate JobKept(b: Backend, b': Backend, j: string)
    requires j in b.jobs.data
  {
    && j in b'.jobs.data && b'.jobs.data[j].affairId == b.jobs.data[j].affairId
    && (AffairEnded(b, b.jobs.data[j].affairId) ==> b'.jobs.data[j].status == b.jobs.data[j].status)
  }

  /** What is on file is an earlier form of what is in memory, with the same jobs. */
  ghost predicate FileBehind(s: System) {
    JobsKept(OnDisk(s), s.live) && s.live.jobs.data.Keys <= OnDisk(s).jobs.data.Keys
  }

  lemma SameEndings(s: System, a: string)
    requires Inv(s)
    ensures AffairEnded(s.live, a) <==> AffairEnded(OnDisk(s), a)
  {
    if AffairEnded(s.live, a) {
      var k := CommitOfEnding(s.live, a);
      CommitShows(OnDisk(s), k);
    }
    if AffairEnded(OnDisk(s), a) {
      var k := CommitOfEnding(OnDisk(s), a);
      CommitShows(s.live, k);
    }
  }

  lemma MessageKeepsJobs(b: Backend, e: Envelope, now: int)
    requires WellKeyed(b) && TerminalSettled(b) && IntroducesNoEnding(b, e)
    requires e.body.JobEvent? ==> e.body.job.jobId in b.jobs.data && b.jobs.data[e.body.job.jobId].affairId == e.body.job.affairId
    ensures JobsKept(b, Apply(b, e, now).0)
    ensures Apply(b, e, now).0.jobs.data.Keys == b.jobs.data.Keys
  {
    var b' := Apply(b, e, now).0;
    ApplyIsLawful(b, e, now);
    hide Apply;
    forall j | j in b.jobs.data ensures JobKept(b, b', j) {
      JobAfterMessage(b, e, now, j);
      if AffairEnded(b, b.jobs.data[j].affairId) {
        EndedAffairFreezesItsJobs(b, e, now, j);
      }
    }
    forall j | j in b'.jobs.data ensures j in b.jobs.data {
      JobAfterMessage(b, e, now, j);
    }
  }

  lemma RegistrationKeepsJobs(s: System, command: Envelope, x: C.CreateInput)
    requires Inv(s) && command.body.JobEvent?
    ensures JobsKept(s.live, C.HandleJobCreate(s.live, s.gate, command, x).0)
  {
    if C.HandleJobCreate(s.live, s.gate, command, x).2 == C.Created {
      var d, e := CreatedIsOneMessage(s.live, s.gate, command, x);
      JobsBesideMessage(d, e, x.now);
      hide Inv, C.HandleJobCreate, Apply, IsClosing;
    } else {
      C.CreationIsAtomic(s.live, s.gate, command, x);
    }
  }

  lemma RegisterKeepsJobs(s: System, command: Envelope, x: C.CreateInput)
    requires Inv(s) && command.body.JobEvent?
    ensures var s' := Register(s, command, x);
      JobsKept(s.live, s'.live) && (s'.live.jobs.data.Keys == s.live.jobs.data.Keys || s'.disk == Snapshot(s'.live, s'.pending))
  {
    RegistrationKeepsJobs(s, command, x);
    C.CreationIsAtomic(s.live, s.gate, command, x);
    hide Inv, JobsKept, C.HandleJobCreate, Snapshot;
  }

  /** What a step does to the jobs in memory, before any save. */
  lemma StepKeepsJobs(s: System, st: Step)
    requires Inv(s) && TerminalSettled(s.live) && Enabled(s, st) && KeepsRegistration(s, st) && !st.SRestart?
    ensures JobsKept(s.live, Next(s, st).live)
    ensures Next(s, st).live.jobs.data.Keys == s.live.jobs.data.Keys || Next(s, st).disk == Snapshot(Next(s, st).live, Next(s, st).pending)
  {
    hide Inv, Apply, JobsKept, ChildStep, Register, PhoneMayNotSend, IntroducesNoEnding, Snapshot;
    if st.SChild? {
      ChildStepKeepsJobs(s, st.key, st.hasPort, st.saved);
    } else if st.SDeliver? {
      DeliverKeepsJobs(s, st.e, st.now, st.saved);
    } else if st.SRegister? {
      RegisterKeepsJobs(s, st.createCommand, st.x);
    } else {
      OtherStepsLeaveJobs(s, st);
      SameJobsAnyAffairs(s.live, Next(s, st).live);
    }
  }

  lemma DeliverKeepsJobs(s: System, e: Envelope, now: int, saved: bool)
    requires Inv(s) && TerminalSettled(s.live) && !e.body.ReadReceipt?
    requires e.body.JobEvent? ==> e.body.job.jobId in s.live.jobs.data && s.live.jobs.data[e.body.job.jobId].affairId == e.body.job.affairId
    ensures var b' := Deliver(s, e, now, saved).0.live;
      JobsKept(s.live, b') && b'.jobs.data.Keys == s.live.jobs.data.Keys
  {
    SameJobsKept(s.live);
    if IntroducesNoEnding(s.live, e) {
      MessageKeepsJobs(s.live, e, now);
      if !PhoneMayNotSend(s.live, e) {
        SameJobsAnyTarget(s.live, Apply(s.live, e, now).0, Deliver(s, e, now, saved).0.live);
      }
    }
    hide Inv, JobsKept, Apply, Snapshot, IntroducesNoEnding;
  }

  lemma MarkKeepsJobs(b: Backend, job: Job)
    requires TerminalSettled(b) && job.jobId in b.jobs.data && b.jobs.data[job.jobId] == job && job.status == JobBlocked
    ensures JobsKept(b, MarkCanceled(b, job)) && MarkCanceled(b, job).jobs.data.Keys == b.jobs.data.Keys
  {
  }

  lemma RegisteredChild(s: System, key: Key, children: seq<Job>, next: nat)
    requires Inv(s) && key in s.running && next < |children| && s.running[key].phase == Cancelling(children, next)
    ensures children[next].jobId in s.live.jobs.data && s.live.jobs.data[children[next].jobId].jobId == children[next].jobId
  {
    ChildIsRegistered(s, key, children, next);
  }

  lemma ChildStepKeepsJobs(s: System, key: Key, hasPort: bool, saved: bool)
    requires Inv(s) && TerminalSettled(s.live) && Enabled(s, SChild(key, hasPort, saved))
    ensures JobsKept(s.live, ChildStep(s, key, hasPort, saved).live)
    ensures ChildStep(s, key, hasPort, saved).live.jobs.data.Keys == s.live.jobs.data.Keys
  {
    var Cancelling(children, next) := s.running[key].phase;
    ChildStepCases(s, key, hasPort, saved);
    SameJobsKept(s.live);
    hide ChildStep;
    if next < |children| && EndedBlocked(Current(s.live, children[next])) {
      RegisteredChild(s, key, children, next);
      MarkKeepsJobs(s.live, Current(s.live, children[next]));
    }
    hide Inv, TerminalSettled, JobsKept, MarkCanceled, Snapshot;
  }

  lemma SameJobsKept(b: Backend)
    ensures JobsKept(b, b)
  {
  }

  lemma KeptTwice(b0: Backend, b1: Backend, b2: Backend)
    requires JobsKept(b0, b1) && JobsKept(b1, b2)
    requires forall a :: AffairEnded(b0, a) ==> AffairEnded(b1, a)
    ensures JobsKept(b0, b2)
  {
    forall j | j in b0.jobs.data ensures JobKept(b0, b2, j) {
      assert JobKept(b0, b1, j) && JobKept(b1, b2, j);
    }
  }

  /** Memory to file and back: a restart brings back the same jobs, and the frozen ones as they were. */
  lemma FileHoldsFrozenJobs(s: System)
    requires Inv(s) && FileBehind(s)
    ensures JobsKept(s.live, OnDisk(s))
  {
    forall j | j in s.live.jobs.data ensures JobKept(s.live, OnDisk(s), j) {
      SameEndings(s, s.live.jobs.data[j].affairId);
      assert JobKept(OnDisk(s), s.live, j);
    }
  }

  lemma SavedFileIsMemory(s: System)
    requires Inv(s) && s.disk == Snapshot(s.live, s.pending)
    ensures FileBehind(s)
  {
    HydrateAfterSnapshot(EMPTY_BACKEND, s.live, s.pending);
    SameJobsKept(s.live);
    assert OnDisk(s).affairs == s.live.affairs && OnDisk(s).jobs == s.live.jobs;
  }

  lemma UnsavedStaysBehind(s: System, s': System)
    requires Inv(s) && FileBehind(s) && JobsKept(s.live, s'.live)
    requires s'.disk == s.disk && s'.live.jobs.data.Keys == s.live.jobs.data.Keys
    ensures FileBehind(s')
  {
    forall a ensures AffairEnded(OnDisk(s), a) ==> AffairEnded(s.live, a) { SameEndings(s, a); }
    hide Inv, JobKept;
    KeptTwice(OnDisk(s), s.live, s'.live);
  }

  lemma FrozenStep(s: System, st: Step)
    requires Inv(s) && TerminalSettled(s.live) && Enabled(s, st) && KeepsRegistration(s, st) && FileBehind(s)
    ensures FileBehind(Next(s, st)) && JobsKept(s.live, Next(s, st).live)
  {
    hide Inv, JobKept, KeepsRegistration, Enabled, FileBehind, JobsKept;
    FileHoldsFrozenJobs(s);
    if st.SRestart? {
      RestartKeepsJobs(s, st.gate, st.now);
    } else {
      StepKeepsJobs(s, st);
      FileAfterStep(s, st);
      NextKeepsInv(s, st);
      hide Next;
      var s' := Next(s, st);
      if s'.disk == Snapshot(s'.live, s'.pending) {
        SavedFileIsMemory(s');
      } else {
        UnsavedStaysBehind(s, s');
      }
    }
  }

  lemma RestartKeepsJobs(s: System, gate: G.Gate, now: int)
    requires Inv(s) && JobsKept(s.live, OnDisk(s))
    ensures FileBehind(Restart(s, gate, now)) && JobsKept(s.live, Restart(s, gate, now).live)
  {
    var b' := Reconciled(OnDisk(s), now);
    assert b'.jobs == OnDisk(s).jobs;
    hide Inv, Reconciled, JobKept;
    SameJobsAnyAffairs(OnDisk(s), b');
    SameJobsAnyTarget(s.live, OnDisk(s), b');
  }

  lemma SameJobsAnyAffairs(b: Backend, b': Backend)
    requires b'.jobs == b.jobs
    ensures JobsKept(b, b')
  {
  }

  lemma SameJobsAnyTarget(b0: Backend, b: Backend, b': Backend)
    requires JobsKept(b0, b) && b'.jobs == b.jobs
    ensures JobsKept(b0, b')
  {
    forall j | j in b0.jobs.data ensures JobKept(b0, b', j) {
      assert JobKept(b0, b, j);
    }
  }

  lemma {:induction false} FileStaysBehind(ss: seq<System>, steps: seq<Step>, n: nat)
    requires IsRun(ss, steps) && n < |ss| && TameRun(ss, steps, n) && forall i :: 0 <= i < n ==> KeepsRegistration(ss[i], steps[i])
    ensures FileBehind(ss[n])
  {
    hide Inv, Next, Enabled, FileBehind, KeepsRegistration;
    if n == 0 {
      InitialInv();
      SavedFileIsMemory(INITIAL);
    } else {
      FileStaysBehind(ss, steps, n - 1);
      RunKeepsInv(ss, steps, n - 1);
      RunKeepsSettled(ss, steps, n - 1);
      FrozenStep(ss[n - 1], steps[n - 1]);
    }
  }

  /** In a run whose job messages are tame and about registered jobs, each under its registered affair, a
      registered job is never lost or moved, and from the moment its affair has ended its status never changes
      again, whatever is saved or not and however often the process restarts. The premise leaves out messages
      about unregistered jobs as well as messages that move one: either kind may be lost by a restart. */
  lemma {:induction false} FrozenForever(ss: seq<System>, steps: seq<Step>, n: nat, m: nat)
    requires IsRun(ss, steps) && n <= m < |ss| && TameRun(ss, steps, m) && forall i :: 0 <= i < m ==> KeepsRegistration(ss[i], steps[i])
    ensures JobsKept(ss[n].live, ss[m].live)
  {
    hide Inv, Next, Enabled, FileBehind, KeepsRegistration, JobKept;
    if n == m {
      SameJobsKept(ss[n].live);
    } else {
      FrozenForever(ss, steps, n, m - 1);
      FileStaysBehind(ss, steps, m - 1);
      RunKeepsInv(ss, steps, m - 1);
      RunKeepsSettled(ss, steps, m - 1);
      FrozenStep(ss[m - 1], steps[m - 1]);
      forall a ensures AffairEnded(ss[n].live, a) ==> AffairEnded(ss[m - 1].live, a) { EndedStaysEnded(ss, steps, n, m - 1, a); }
      KeptTwice(ss[n].live, ss[m - 1].live, ss[m].live);
    }
  }

  lemma EndedStaysEnded(ss: seq<System>, steps: seq<Step>, n: nat, m: nat, a: string)
    requires IsRun(ss, steps) && n <= m < |ss|
    ensures AffairEnded(ss[n].live, a) ==> AffairEnded(ss[m].live, a)
  {
    hide Next, Enabled, Inv;
    if AffairEnded(ss[n].live, a) {
      EndingIsForever(ss, steps, n, m, a, if ss[n].live.affairs.data[a].status == Closed then ToClosed else ToCanceled);
    }
  }
}
