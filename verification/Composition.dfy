/** How the machines fit together: what the companion's machine does to the state that delegation works on, and how
    the operation queue makes the queued calls of delegation take turns. */
module Composition {
  import opened Option
  import opened JsMap
  import opened Status
  import opened Types
  import opened Store
  import opened Mirror
  import opened Closing
  import opened Coordinator
  import opened Authority
  import opened Invariant
  import opened Endings
  import opened Registration
  import C = Create
  import D = Delegation
  import R = Retained
  import T = Turns
  import X = Drops
  import Q = Serial

  // ----- the companion's steps, as delegation sees them -----

  /** A job message that puts a registered job back to waiting for permission. */
  predicate AsksAgain(b: Backend, e: Envelope) {
    && Validated(e) && e.messageId !in b.seen.data && e.body.JobEvent? && e.body.job.status == NeedsPermission
    && e.body.job.jobId in b.jobs.data && b.jobs.data[e.body.job.jobId].status != NeedsPermission
    && CanTransitionJob(b.jobs.data[e.body.job.jobId].status, NeedsPermission) && !AffairEnded(b, e.body.job.affairId)
  }

  lemma AsksAgainExactly(b: Backend, e: Envelope, now: int, j: string)
    requires WellKeyed(b) && j in b.jobs.data
    ensures j in Apply(b, e, now).0.jobs.data
    ensures D.HasStatus(Apply(b, e, now).0, j, NeedsPermission) && !D.HasStatus(b, j, NeedsPermission) <==>
      AsksAgain(b, e) && e.body.job.jobId == j
  {
  }

  lemma DeliveredSees(s: System, e: Envelope, now: int, saved: bool)
    requires Inv(s) && !e.body.ReadReceipt?
    ensures (forall j :: j in s.live.jobs.data ==> j in Deliver(s, e, now, saved).0.live.jobs.data)
    ensures (exists j :: Reopened(s.live, Deliver(s, e, now, saved).0.live, j)) <==> AsksAgain(s.live, e)
  {
    KeysAndOrder(s);
    var b' := Deliver(s, e, now, saved).0.live;
    if e.body.JobEvent? {
      JobsOfJobMessage(s, e, now, saved);
      forall j | j in s.live.jobs.data ensures j in b'.jobs.data && (Reopened(s.live, b', j) <==> AsksAgain(s.live, e) && e.body.job.jobId == j) {
        AsksAgainExactly(s.live, e, now, j);
      }
    } else {
      QuietMessageJobs(s, e, now, saved);
    }
    hide Inv, Deliver, Apply, WellKeyed;
    if AsksAgain(s.live, e) {
      assert Reopened(s.live, b', e.body.job.jobId);
    }
  }

  lemma QuietMessageJobs(s: System, e: Envelope, now: int, saved: bool)
    requires !e.body.ReadReceipt? && !e.body.JobEvent?
    ensures Deliver(s, e, now, saved).0.live.jobs == s.live.jobs
  {
    ApplyKeepsCore(s.live, e, now);
    hide Apply, IsClosing;
  }

  /** The job was registered and not waiting for permission, and now it waits. */
  predicate Reopened(b: Backend, b': Backend, j: string) {
    j in b.jobs.data && D.HasStatus(b', j, NeedsPermission) && !D.HasStatus(b, j, NeedsPermission)
  }

  ghost predicate Quiet(b: Backend, b': Backend) {
    (forall j :: j in b.jobs.data ==> j in b'.jobs.data) && forall j :: !Reopened(b, b', j)
  }

  lemma OtherStepsReopenNone(s: System, st: Step)
    requires Inv(s) && Enabled(s, st) && !st.SRestart? && !st.SDeliver?
    ensures Quiet(s.live, Next(s, st).live)
  {
    hide Inv, ChildStep, C.HandleJobCreate, Snapshot;
    if st.SChild? {
      RoundReopensNone(s, st.key, st.hasPort, st.saved);
    } else if st.SRegister? {
      CreationReopensNone(s, st.createCommand, st.x);
    } else {
      OtherStepsLeaveJobs(s, st);
    }
  }

  lemma RoundReopensNone(s: System, key: Key, hasPort: bool, saved: bool)
    requires Inv(s) && Enabled(s, SChild(key, hasPort, saved))
    ensures Quiet(s.live, ChildStep(s, key, hasPort, saved).live)
  {
    hide Inv, Snapshot, ChildStep, Quiet, MarkCanceled, RunsOk, Good, DiskOk;
    RunsOfInv(s);
    ChildStepCases(s, key, hasPort, saved);
    var Cancelling(children, next) := s.running[key].phase;
    SameJobsReopenNone(s.live, s.live);
    if next < |children| {
      MarkReopensNone(s.live, Current(s.live, children[next]));
    }
  }

  lemma RunsOfInv(s: System)
    requires Inv(s)
    ensures RunsOk(s)
  {
  }

  lemma SameJobsReopenNone(b: Backend, b': Backend)
    ensures b'.jobs == b.jobs ==> Quiet(b, b')
  {
  }

  lemma MarkReopensNone(b: Backend, job: Job)
    ensures Quiet(b, MarkCanceled(b, job))
  {
  }

  lemma CreationReopensNone(s: System, command: Envelope, x: C.CreateInput)
    requires Inv(s) && command.body.JobEvent?
    ensures Quiet(s.live, C.HandleJobCreate(s.live, s.gate, command, x).0)
  {
    hide Inv, C.HandleJobCreate, Apply, C.Draft, WellKeyed, WellOrdered, Quiet;
    if C.HandleJobCreate(s.live, s.gate, command, x).2 == C.Created {
      KeysAndOrder(s);
      var d, e := CreatedIsOneMessage(s.live, s.gate, command, x);
      SameJobsDraft(s.live, command.body.job);
      JobsBesideMessage(d, e, x.now);
      NewJobReopensNone(s.live, Apply(d, e, x.now).0, C.HandleJobCreate(s.live, s.gate, command, x).0, e.body.job.jobId);
    } else {
      C.CreationIsAtomic(s.live, s.gate, command, x);
      SameJobsReopenNone(s.live, s.live);
    }
  }

  lemma SameJobsDraft(b: Backend, payload: Job)
    requires payload.affairId in b.affairs.data
    ensures C.Draft(b, b.affairs.data[payload.affairId], payload).jobs == b.jobs
  {
  }

  lemma NewJobReopensNone(b: Backend, b1: Backend, b2: Backend, j: string)
    requires b2.jobs == b1.jobs && j !in b.jobs.data
    requires forall k :: k in b.jobs.data && k != j ==> k in b1.jobs.data && b1.jobs.data[k] == b.jobs.data[k]
    ensures Quiet(b, b2)
  {
  }

  /** Between two steps of delegation the companion may take any step of its own but a restart: what delegation relies
      on holds across it exactly if it is not a job message that puts a registered job back to waiting for permission. */
  lemma OutsideOkExactly(s: System, st: Step)
    requires Inv(s) && Enabled(s, st) && !st.SRestart?
    ensures D.OutsideOk(s, Next(s, st)) <==> !(st.SDeliver? && AsksAgain(s.live, st.e))
  {
    NextKeepsInv(s, st);
    KeysAndOrder(Next(s, st));
    KeyedJobs(Next(s, st).live);
    OutsideIsQuiet(s, Next(s, st));
    hide Inv, D.OutsideOk, AsksAgain, Deliver, WellKeyed, WellOrdered, D.JobsKeyed;
    if st.SDeliver? {
      DeliveredSees(s, st.e, st.now, st.saved);
    } else {
      hide Next, Enabled;
      OtherStepsReopenNone(s, st);
    }
  }

  lemma KeyedJobs(b: Backend)
    requires WellKeyed(b)
    ensures D.JobsKeyed(b)
  {
  }

  lemma OutsideIsQuiet(s: System, s': System)
    requires D.JobsKeyed(s'.live)
    ensures D.OutsideOk(s, s') <==> Quiet(s.live, s'.live)
  {
    if D.OutsideOk(s, s') {
      forall j ensures !Reopened(s.live, s'.live, j) {
      }
    }
    if Quiet(s.live, s'.live) {
      forall j | j in s.live.jobs.data && D.HasStatus(s'.live, j, NeedsPermission) ensures D.HasStatus(s.live, j, NeedsPermission) {
        assert !Reopened(s.live, s'.live, j);
      }
    }
  }

  // ----- the operation queue and the queued calls -----

  /** Operation `k` is the one whose code runs, or awaits, in the line of the affair. */
  predicate Runs(q: Q.Queue, k: nat, affair: string) {
    k < |q.ops| && q.ops[k].affair == affair && q.ops[k].phase == Q.OpPhase.Running
  }

  predicate HasOwner(w: D.World, n: nat) {
    n in w.ops && X.Queued(w.ops[n])
  }

  /** Every queued call runs inside an operation of its own, in the line of its job's affair. */
  ghost predicate InsideOperations(w: D.World, q: Q.Queue, owner: map<nat, nat>, affairOf: string -> string) {
    && (forall n :: HasOwner(w, n) ==> n in owner && Runs(q, owner[n], affairOf(w.ops[n].JobId())))
    && (forall n, m :: HasOwner(w, n) && HasOwner(w, m) && n in owner && m in owner && owner[n] == owner[m] ==> n == m)
  }

  /** A step that begins a queued call runs inside an operation that no suspended call is part of. */
  ghost predicate InsideTurn(w: D.World, st: D.Step, q: Q.Queue, owner: map<nat, nat>, k: nat, affairOf: string -> string) {
    X.InLine(w, st) ==>
      Runs(q, k, affairOf(T.JobOf(w, st))) && forall n :: HasOwner(w, n) && n in owner ==> owner[n] != k
  }

  /** At any point of a run of the queue, at most one operation of an affair runs. */
  lemma OneRunsPerAffair(qs: seq<Q.Queue>, moves: seq<Q.Move>, t: nat, i: nat, k: nat, affair: string)
    requires Q.IsRun(qs, moves) && t < |qs| && Runs(qs[t], i, affair) && Runs(qs[t], k, affair)
    ensures i == k
  {
    if i < k {
      Q.StartInOrderAndNeverOverlap(qs, moves, t, i, k);
    } else if k < i {
      Q.StartInOrderAndNeverOverlap(qs, moves, t, k, i);
    }
  }

  /** Where queued calls run inside operations of a run of the queue, they take turns. */
  lemma QueueGivesTurns(w: D.World, st: D.Step, qs: seq<Q.Queue>, moves: seq<Q.Move>, t: nat, owner: map<nat, nat>, k: nat, affairOf: string -> string)
    requires Q.IsRun(qs, moves) && t < |qs| && InsideOperations(w, qs[t], owner, affairOf) && InsideTurn(w, st, qs[t], owner, k, affairOf)
    ensures X.TakesTurn(w, st) && X.OneCallPerJob(w)
  {
    hide X.Queued, X.InLine, T.JobOf, Q.IsRun, Runs;
    if X.InLine(w, st) && X.Busy(w, T.JobOf(w, st)) {
      var n :| n in w.ops && X.Queued(w.ops[n]) && w.ops[n].JobId() == T.JobOf(w, st);
      assert HasOwner(w, n);
      OneRunsPerAffair(qs, moves, t, owner[n], k, affairOf(T.JobOf(w, st)));
    }
    forall n, m | HasOwner(w, n) && HasOwner(w, m) && w.ops[n].JobId() == w.ops[m].JobId() ensures n == m {
      OneRunsPerAffair(qs, moves, t, owner[n], owner[m], affairOf(w.ops[n].JobId()));
    }
  }

  /** A run of delegation beside a run of the queue: `at` says which state of the queue belongs to each state of the
      run, `owners` in which operation each suspended call runs, `turns` in which one each step that begins a call runs. */
  ghost predicate RunsInside(ws: seq<D.World>, steps: seq<D.Step>, qs: seq<Q.Queue>, moves: seq<Q.Move>,
      at: seq<nat>, owners: seq<map<nat, nat>>, turns: seq<nat>, affairOf: string -> string) {
    && R.IsFreshRun(ws, steps) && Q.IsRun(qs, moves) && |at| == |owners| == |turns| == |steps|
    && forall i :: 0 <= i < |steps| ==>
         && at[i] < |qs| && InsideOperations(ws[i], qs[at[i]], owners[i], affairOf)
         && InsideTurn(ws[i], steps[i], qs[at[i]], owners[i], turns[i], affairOf)
  }

  /** Such a run is one in which queued calls take turns, so what `Drops` proves about those holds of it. */
  lemma RunsInsideAreQueued(ws: seq<D.World>, steps: seq<D.Step>, qs: seq<Q.Queue>, moves: seq<Q.Move>,
      at: seq<nat>, owners: seq<map<nat, nat>>, turns: seq<nat>, affairOf: string -> string)
    requires RunsInside(ws, steps, qs, moves, at, owners, turns, affairOf)
    ensures X.QueuedRun(ws, steps)
  {
    hide Q.IsRun, InsideOperations, InsideTurn, X.TakesTurn, D.Enabled, D.Next;
    forall i | 0 <= i < |steps| ensures X.TakesTurn(ws[i], steps[i]) {
      QueueGivesTurns(ws[i], steps[i], qs, moves, at[i], owners[i], turns[i], affairOf);
    }
  }
}
