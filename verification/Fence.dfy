/** The fence of a pending close, what a cancellation does to each child, and what it leaves behind. */
module Fence {
  import opened Option
  import opened JsMap
  import opened Status
  import opened Types
  import opened Store
  import opened Reconcile
  import opened Mirror
  import opened Closing
  import opened Coordinator
  import opened Authority
  import opened Invariant
  import opened Guarantees
  import opened Endings
  import C = Create
  import G = Gate

  /** The fence is on file: it stands after any crash and restart, and only one request raises it. */
  lemma FenceIsDurable(s: System, a: string, gate: G.Gate, now: int, k: Key, l: Key)
    requires Inv(s) && IsClosing(s.live, a)
    ensures IsClosing(OnDisk(s), a) && IsClosing(Restart(s, gate, now).live, a)
    ensures PendingAt(s.live.actions.data, k, a) && PendingAt(s.live.actions.data, l, a) ==> k == l
  {
    hide Good, RunsOk, Precheck;
    assert OnDisk(s).actions == s.live.actions;
    if PendingAt(s.live.actions.data, k, a) && PendingAt(s.live.actions.data, l, a) {
      OnePendingClose(s.live, a, k, l);
    }
  }

  lemma OnePendingClose(b: Backend, a: string, k: Key, l: Key)
    requires Good(b) && PendingAt(b.actions.data, k, a) && PendingAt(b.actions.data, l, a)
    ensures k == l
  {
  }

  /** A step that the fence of affair `a` concerns. */
  predicate Concerns(s: System, st: Step, a: string) {
    match st
    case SRegister(command, _) => command.body.JobEvent? && command.body.job.affairId == a
    case SDecide(id, _, _) => id in s.gate.requests.data && s.gate.requests.data[id].affairId == Some(a)
    case SDeliver(e, _, _) => e.fromPhone && e.body.AffairEvent? && e.body.affair.affairId == a
    case SExecute(key, command, _, _) => key !in s.live.actions.data && command.affairId == a
    case _ => false
  }

  /** While a close of `a` is pending: registering a job under it, deciding one of its permission requests,
      a phone update of it, and a second close request all leave the whole state as it is. */
  lemma FenceStopsEverything(s: System, st: Step, a: string)
    requires Enabled(s, st) && IsClosing(s.live, a) && Concerns(s, st, a)
    ensures Next(s, st) == s
  {
  }

  /** The record of a fenced affair changes only by the companion's own messages, supervision, a restart, or
      the final decision of the pending close; in particular never by a phone update. */
  lemma OnlyOwnWritersChangeFencedAffair(s: System, st: Step, a: string)
    requires Inv(s) && Enabled(s, st) && IsClosing(s.live, a) && Get(Next(s, st).live.affairs, a) != Get(s.live.affairs, a)
    ensures || (st.SDeliver? && !(st.e.fromPhone && st.e.body.AffairEvent?)) || st.SSupervise? || st.SRestart?
            || (exists k :: Decides(s, st, k) && s.live.actions.data[k].command.affairId == a)
  {
    hide Inv, IsClosing, Begin, Confirm, Deliver, Register, Execute, ChildStep, PortReturns;
    if st.SBegin? || st.SConfirm? {
      DecisionWrites(s, st, st.key, a);
    } else if st.SDeliver? {
      if st.e.fromPhone && st.e.body.AffairEvent? {
        PhoneUpdateWrites(s, st.e, st.now, st.saved, a);
      }
    } else if st.SRegister? {
      RegistrationWrites(s, st.createCommand, st.x, a);
    } else if st.SExecute? {
      ExecuteWrites(s, st.key, st.command, st.saved, st.published);
    } else if st.SChild? || st.SPort? {
      RoundWrites(s, st);
    }
  }

  lemma ExecuteWrites(s: System, key: Key, command: CloseCommand, saved: bool, published: bool)
    ensures Execute(s, key, command, saved, published).0.live.affairs == s.live.affairs
  {
    hide ValidCommand, IsClosing, Snapshot;
  }

  lemma RoundWrites(s: System, st: Step)
    requires Enabled(s, st) && (st.SChild? || st.SPort?)
    ensures Next(s, st).live.affairs == s.live.affairs
  {
    hide Snapshot;
  }

  lemma DecisionWrites(s: System, st: Step, key: Key, a: string)
    requires Inv(s) && Enabled(s, st) && (st.SBegin? || st.SConfirm?) && st.key == key
    requires Get(Next(s, st).live.affairs, a) != Get(s.live.affairs, a)
    ensures Decides(s, st, key) && s.live.actions.data[key].command.affairId == a
  {
    hide Inv, Precheck, Snapshot, JobsOf, RevokeAllOf, IsClosing;
    TurnOfRun(s, key);
    KeysAndOrder(s);
    if Precheck(s.live, s.running[key].record.command).None? {
      PrecheckMeans(s.live, s.running[key].record.command);
      FailedCommitUndone(s, key, st.published);
    }
    hide WellKeyed, WellOrdered;
  }

  /** A phone message about any affair but a fenced one leaves the fenced one alone. */
  lemma PhoneUpdateWrites(s: System, e: Envelope, now: int, saved: bool, a: string)
    requires IsClosing(s.live, a) && !e.body.ReadReceipt? && e.fromPhone && e.body.AffairEvent?
    ensures Get(Deliver(s, e, now, saved).0.live.affairs, a) == Get(s.live.affairs, a)
  {
    ApplyKeepsCore(s.live, e, now);
    hide Snapshot, Apply;
  }

  lemma RegistrationWrites(s: System, command: Envelope, x: C.CreateInput, a: string)
    requires Inv(s) && command.body.JobEvent? && IsClosing(s.live, a)
    ensures Get(Register(s, command, x).live.affairs, a) == Get(s.live.affairs, a)
  {
    KeysAndOrder(s);
    if C.HandleJobCreate(s.live, s.gate, command, x).2 == C.Created {
      var d, e := CreatedIsOneMessage(s.live, s.gate, command, x);
      DraftBeside(s.live, command.body.job, a);
      MessageBeside(d, e, x.now, a);
      hide Inv, C.HandleJobCreate, Apply, IsClosing, C.Draft, Snapshot;
    } else {
      C.CreationIsAtomic(s.live, s.gate, command, x);
    }
  }

  lemma DraftBeside(b: Backend, payload: Job, a: string)
    requires WellKeyed(b) && payload.affairId in b.affairs.data && payload.affairId != a
    ensures Get(C.Draft(b, b.affairs.data[payload.affairId], payload).affairs, a) == Get(b.affairs, a)
    ensures WellKeyed(C.Draft(b, b.affairs.data[payload.affairId], payload))
  {
  }

  lemma MessageBeside(b: Backend, e: Envelope, now: int, a: string)
    requires WellKeyed(b) && e.body.JobEvent? && e.body.job.affairId != a
    ensures Get(Apply(b, e, now).0.affairs, a) == Get(b.affairs, a)
  {
    ApplyKeepsCore(b, e, now);
    JobEventWrites(b, e.body.jobKind, e.body.job);
    hide Apply, ApplyJob;
  }

  /** The fence falls only by the final decision of the request that raised it. */
  lemma FenceStandsUntilDecided(s: System, st: Step, a: string) returns (k: Key)
    requires Inv(s) && Enabled(s, st) && IsClosing(s.live, a)
    ensures PendingAt(s.live.actions.data, k, a)
    ensures IsClosing(Next(s, st).live, a) || Decides(s, st, k)
  {
    k :| k in s.live.actions.data && IsPendingFor(s.live.actions.data[k], a);
    hide Inv, Next, Enabled, Precheck;
    RecordStep(s, st, k);
  }

  /** So it stands in every later state of a run until that decision, across messages, failed saves and restarts. */
  lemma {:induction false} FenceStands(ss: seq<System>, steps: seq<Step>, n: nat, m: nat, a: string)
    requires IsRun(ss, steps) && n <= m < |ss| && IsClosing(ss[n].live, a)
    requires forall i, k :: n <= i < m && Decides(ss[i], steps[i], k) ==> !PendingAt(ss[i].live.actions.data, k, a)
    ensures IsClosing(ss[m].live, a)
    decreases m
  {
    hide Inv, Next, Enabled, IsClosing, Decides;
    if n < m {
      FenceStands(ss, steps, n, m - 1, a);
      RunKeepsInv(ss, steps, m - 1);
      var k := FenceStandsUntilDecided(ss[m - 1], steps[m - 1], a);
    }
  }

  lemma {:induction false} RevokeAllOnlyRemoves(g: G.Gate, jobs: seq<Job>)
    ensures forall x :: x in RevokeAllOf(g, jobs).grants ==> x in g.grants
    decreases |jobs|
  {
    if jobs != [] {
      RevokeAllOnlyRemoves(G.RevokeForJob(g, jobs[0].jobId), jobs[1..]);
    }
  }

  /** The steps that can add grants at all. */
  lemma OnlyDecisionsGrant(s: System, st: Step, grant: G.Grant)
    requires Enabled(s, st) && !st.SRestart? && G.Sound(s.gate) && grant.active && grant in Next(s, st).gate.grants && grant !in s.gate.grants
    ensures st.SDecide? && ValidateDecision(s.live, s.gate, st.requestId, st.decision).None? && st.requestId == grant.permissionRequestId
  {
    hide Precheck, IsClosing, G.Sound, Apply, C.CommitJobCreation, C.PrecheckCreate, JobsOf, Snapshot;
    match st {
      case SBegin(key, saved, published) => RevokeAllOnlyRemoves(s.gate, JobsOf(s.live, s.running[key].record.command.affairId));
      case SDecide(id, decision, saved) => G.GrantsComeFromAllowing(s.gate, G.OpDecide(id, decision), grant);
      case SGate(op) => G.GrantsComeFromAllowing(s.gate, op, grant);
      case _ =>
    }
  }

  predicate NamesAffair(g: G.Gate, id: string, a: string) {
    id in g.requests.data && g.requests.data[id].affairId == Some(a)
  }

  /** While a close of `a` is pending no step but a restart adds a request of `a`, or a usable grant for one. */
  lemma FenceAddsNoGrant(s: System, st: Step, a: string, grant: G.Grant)
    requires Enabled(s, st) && !st.SRestart? && G.Sound(s.gate) && IsClosing(s.live, a)
    requires NamesAffair(Next(s, st).gate, grant.permissionRequestId, a)
    ensures NamesAffair(s.gate, grant.permissionRequestId, a)
    ensures grant.active && grant in Next(s, st).gate.grants ==> grant in s.gate.grants
  {
    NoNewRequest(s, st, a, grant.permissionRequestId);
    hide Next, Enabled, G.Sound;
    if grant.active && grant in Next(s, st).gate.grants && grant !in s.gate.grants {
      OnlyDecisionsGrant(s, st, grant);
    }
  }

  lemma {:induction false} RevokeAllKeepsRequests(g: G.Gate, jobs: seq<Job>)
    ensures RevokeAllOf(g, jobs).requests == g.requests
    decreases |jobs|
  {
    if jobs != [] {
      RevokeAllKeepsRequests(G.RevokeForJob(g, jobs[0].jobId), jobs[1..]);
    }
  }

  lemma {:induction false} RevokeAllKeepsSound(g: G.Gate, jobs: seq<Job>)
    requires G.Sound(g)
    ensures G.Sound(RevokeAllOf(g, jobs))
    decreases |jobs|
  {
    hide G.Sound, G.RevokeForJob;
    if jobs != [] {
      G.StepKeepsSound(g, G.OpRevokeJob(jobs[0].jobId));
      RevokeAllKeepsSound(G.RevokeForJob(g, jobs[0].jobId), jobs[1..]);
    }
  }

  lemma NoNewRequest(s: System, st: Step, a: string, id: string)
    requires Enabled(s, st) && !st.SRestart? && IsClosing(s.live, a) && NamesAffair(Next(s, st).gate, id, a)
    ensures NamesAffair(s.gate, id, a)
  {
    hide IsClosing, Begin, Register;
    if st.SBegin? {
      BeginKeepsRequests(s, st.key, st.saved, st.published);
    } else if st.SRegister? {
      RegisterAddsNone(s, st.createCommand, st.x, a, id);
    } else {
      OthersAddNoRequest(s, st, id);
    }
  }

  lemma BeginKeepsRequests(s: System, key: Key, saved: bool, published: bool)
    requires key in s.running
    ensures Begin(s, key, saved, published).gate.requests == s.gate.requests
  {
    RevokeAllKeepsRequests(s.gate, JobsOf(s.live, s.running[key].record.command.affairId));
    hide Precheck, JobsOf, Snapshot, RevokeAllOf;
  }

  lemma RegisterAddsNone(s: System, command: Envelope, x: C.CreateInput, a: string, id: string)
    requires command.body.JobEvent? && IsClosing(s.live, a) && NamesAffair(Register(s, command, x).gate, id, a)
    ensures NamesAffair(s.gate, id, a)
  {
    hide IsClosing, C.CommitJobCreation, Snapshot;
  }

  lemma OthersAddNoRequest(s: System, st: Step, id: string)
    requires Enabled(s, st) && !st.SRestart? && !st.SBegin? && !st.SRegister?
    ensures id in Next(s, st).gate.requests.data ==> id in s.gate.requests.data && Next(s, st).gate.requests.data[id] == s.gate.requests.data[id]
  {
    hide Precheck, IsClosing, Apply, JobsOf, Snapshot, ValidateDecision, Reconciled, Hydrate, MarkCanceled, EndedBlocked, Marked, ResultOf, ValidCommand;
  }

  /** Every step keeps the gate sound; a restart brings back a dumped one, and restoring a dump of a sound
      gate gives that gate. */
  lemma GateStaysSound(s: System, st: Step)
    requires Enabled(s, st) && G.Sound(s.gate) && (st.SRestart? ==> G.Sound(st.gate))
    ensures G.Sound(Next(s, st).gate)
  {
    hide Precheck, IsClosing, G.Sound, Apply, C.CommitJobCreation, C.PrecheckCreate, JobsOf, Snapshot, RevokeAllOf;
    match st {
      case SBegin(key, saved, published) => RevokeAllKeepsSound(s.gate, JobsOf(s.live, s.running[key].record.command.affairId));
      case SDeliver(e, now, saved) => G.StepKeepsSound(s.gate, G.OpExpireAffair(if e.body.AffairEvent? then e.body.affair.affairId else ""));
      case SRegister(command, x) => RegisterKeepsGate(s, command, x);
      case SDecide(id, decision, saved) => G.StepKeepsSound(s.gate, G.OpDecide(id, decision));
      case SGate(op) => G.StepKeepsSound(s.gate, op);
      case _ =>
    }
  }

  lemma RegisterKeepsGate(s: System, command: Envelope, x: C.CreateInput)
    requires command.body.JobEvent? && G.Sound(s.gate)
    ensures G.Sound(Register(s, command, x).gate)
  {
    hide G.Sound, C.CommitJobCreation, C.PrecheckCreate, Snapshot;
    if x.requested.Some? {
      var request := C.RequestFor(command.body.job, x.requested.value, x.newRequestId);
      G.StepKeepsSound(s.gate, G.OpEnqueue(request));
      G.StepKeepsSound(G.Enqueue(s.gate, request).0, G.OpExpireJob(command.body.job.jobId));
    }
  }

  lemma {:induction false} RunKeepsGateSound(ss: seq<System>, steps: seq<Step>, n: nat)
    requires IsRun(ss, steps) && n < |ss|
    requires forall i :: 0 <= i < n && steps[i].SRestart? ==> G.Sound(steps[i].gate)
    ensures G.Sound(ss[n].gate)
  {
    hide Next, Enabled;
    if n > 0 {
      hide G.Sound;
      RunKeepsGateSound(ss, steps, n - 1);
      GateStaysSound(ss[n - 1], steps[n - 1]);
    }
  }

  /** No grant through a fence: whatever usable grant a request of `a` has at the end of a stretch without
      restart during which a close of `a` was pending, it had at the beginning. */
  lemma {:induction false} FencedAffairGainsNoGrant(ss: seq<System>, steps: seq<Step>, n: nat, m: nat, a: string, grant: G.Grant)
    requires IsRun(ss, steps) && n <= m < |ss| && forall i :: 0 <= i < n && steps[i].SRestart? ==> G.Sound(steps[i].gate)
    requires forall i :: n <= i < m ==> IsClosing(ss[i].live, a) && !steps[i].SRestart?
    requires grant.active && grant in ss[m].gate.grants && NamesAffair(ss[m].gate, grant.permissionRequestId, a)
    ensures grant in ss[n].gate.grants && NamesAffair(ss[n].gate, grant.permissionRequestId, a)
    decreases m
  {
    hide Next, Enabled, IsClosing, G.Sound;
    if n < m {
      RunKeepsGateSound(ss, steps, m - 1);
      FenceAddsNoGrant(ss[m - 1], steps[m - 1], a, grant);
      FencedAffairGainsNoGrant(ss, steps, n, m - 1, a, grant);
    }
  }

  /** Every restart up to step `m` brings back the gate as some earlier state of the run had dumped it. */
  ghost predicate RestartsBringBackDumps(ss: seq<System>, steps: seq<Step>, m: nat)
    requires m <= |steps| < |ss|
  {
    forall i :: 0 <= i < m && steps[i].SRestart? ==> DumpedEarlier(ss, i, steps[i].gate)
  }

  ghost predicate DumpedEarlier(ss: seq<System>, i: nat, gate: G.Gate)
    requires i < |ss|
  {
    exists k :: 0 <= k <= i && gate == G.RestoreGate(G.SnapshotGate(ss[k].gate))
  }

  lemma {:induction false} DumpsAreSound(ss: seq<System>, steps: seq<Step>, n: nat)
    requires IsRun(ss, steps) && n < |ss| && RestartsBringBackDumps(ss, steps, n)
    ensures forall i :: 0 <= i <= n ==> G.Sound(ss[i].gate)
  {
    hide Next, Enabled, G.Sound, G.RestoreGate, G.SnapshotGate;
    if n == 0 {
      RunKeepsGateSound(ss, steps, 0);
    } else {
      DumpsAreSound(ss, steps, n - 1);
      if steps[n - 1].SRestart? {
        assert DumpedEarlier(ss, n - 1, steps[n - 1].gate);
        var k :| 0 <= k <= n - 1 && steps[n - 1].gate == G.RestoreGate(G.SnapshotGate(ss[k].gate));
        G.RestoreAfterSnapshot(ss[k].gate);
      }
      GateStaysSound(ss[n - 1], steps[n - 1]);
    }
  }

  ghost predicate UsableFor(s: System, a: string, grant: G.Grant) {
    grant.active && grant in s.gate.grants && NamesAffair(s.gate, grant.permissionRequestId, a)
  }

  lemma RestartTakesGate(s: System, st: Step)
    requires Enabled(s, st) && st.SRestart?
    ensures Next(s, st).gate == st.gate
  {
    hide Hydrate;
  }

  /** Across restarts as well: whatever usable grant a request of `a` has at the end of a stretch during which a close
      of `a` was pending, it had in some state of the run no later than the beginning of that stretch. */
  lemma {:induction false} NoGrantThroughFence(ss: seq<System>, steps: seq<Step>, n: nat, m: nat, a: string, grant: G.Grant)
    requires IsRun(ss, steps) && n <= m < |ss| && RestartsBringBackDumps(ss, steps, m)
    requires (forall i :: n <= i < m ==> IsClosing(ss[i].live, a)) && UsableFor(ss[m], a, grant)
    ensures exists k :: 0 <= k <= n && UsableFor(ss[k], a, grant)
    decreases m
  {
    hide Next, Enabled, IsClosing, G.Sound, G.RestoreGate, G.SnapshotGate, NamesAffair;
    if n < m {
      DumpsAreSound(ss, steps, m - 1);
      if steps[m - 1].SRestart? {
        RestartTakesGate(ss[m - 1], steps[m - 1]);
        assert DumpedEarlier(ss, m - 1, steps[m - 1].gate);
        var k :| 0 <= k <= m - 1 && steps[m - 1].gate == G.RestoreGate(G.SnapshotGate(ss[k].gate));
        G.RestoreAfterSnapshot(ss[k].gate);
        assert UsableFor(ss[k], a, grant);
        if n < k {
          NoGrantThroughFence(ss, steps, n, k, a, grant);
        }
      } else {
        FenceAddsNoGrant(ss[m - 1], steps[m - 1], a, grant);
        NoGrantThroughFence(ss, steps, n, m - 1, a, grant);
      }
    }
  }

  // ----- after an unconfirmed run -----

  lemma PendingRunsAgain(s: System, r: Record, published: bool)
    requires Held(s.live, r) && ValidCommand(r.command) && r.outcome == None && r.key !in s.running
    ensures Execute(s, r.key, r.command, true, published).1 == Later
    ensures Execute(s, r.key, r.command, true, published).0.running == s.running[r.key := Run(r, InLine)]
  {
    hide ValidCommand, IsClosing, Snapshot;
  }

  /** A run that ended unconfirmed decided nothing: its request is still pending on file, and once it has
      left the table, or after a restart, repeating the request starts a new run under the same key. */
  lemma UnconfirmedCanBeRetried(s: System, key: Key, gate: G.Gate, now: int, published: bool)
    requires Inv(s) && key in s.running && s.running[key].phase == Done(UNCONFIRMED)
    ensures var r := s.running[key].record;
      && PendingAt(OnDisk(s).actions.data, key, r.command.affairId)
      && Execute(Settle(s, key), key, r.command, true, published).1 == Later
      && Execute(Settle(s, key), key, r.command, true, published).0.running == (s.running - {key})[key := Run(r, InLine)]
      && Execute(Restart(s, gate, now), key, r.command, true, published).0.running == map[key := Run(r, InLine)]
  {
    var r := s.running[key].record;
    assert RunOk(s.live, s.running[key]);
    assert RecordOk(s.live, r);
    hide Good, Reconciled, Execute, ValidCommand;
    PendingRunsAgain(Settle(s, key), r, published);
    PendingRunsAgain(Restart(s, gate, now), r, published);
  }

  // ----- requests that name no affair -----

  predicate Allows(d: G.Decision) {
    d == G.AllowOnce || d == G.AllowForJob
  }

  /** A request about a job of `a`, which names `a` or no affair at all. */
  predicate RequestUnder(b: Backend, g: G.Gate, id: string, a: string) {
    && id in g.requests.data && g.requests.data[id].jobId in b.jobs.data && b.jobs.data[g.requests.data[id].jobId].affairId == a
    && (g.requests.data[id].affairId == None || g.requests.data[id].affairId == Some(a))
  }

  function WithoutRecords(b: Backend): Backend {
    b.(actions := Empty())
  }

  /** While a close of the job's affair is pending, an allowing decision passes exactly if its request names no
      affair and it would pass were there no close: such a request escapes the fence. */
  lemma EscapesFenceExactly(b: Backend, g: G.Gate, id: string, d: G.Decision, a: string)
    requires Allows(d) && RequestUnder(b, g, id, a) && IsClosing(b, a)
    ensures ValidateDecision(b, g, id, d).None? <==>
      g.requests.data[id].affairId.None? && ValidateDecision(WithoutRecords(b), g, id, d).None?
  {
    NoRecordsNoFence(b, a);
    hide IsClosing, WithoutRecords;
  }

  lemma NoRecordsNoFence(b: Backend, a: string)
    ensures !IsClosing(WithoutRecords(b), a) && WithoutRecords(b).jobs == b.jobs && WithoutRecords(b).affairs == b.affairs
  {
  }
}
