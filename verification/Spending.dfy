/** What delegation does to permission grants: the answer to a create call spends the one-shot grants of what was asked
    for, and nothing else in the delegation machine touches a grant. */
module Spending {
  import opened Option
  import opened JsMap
  import opened Status
  import opened Types
  import opened Store
  import opened Coordinator
  import A = Authority
  import opened Publisher
  import opened Polling
  import opened Delegation
  import opened AtMostOnce
  import G = Gate

  // ----- one check after another -----

  /** The usable one-shot grants of a pair that come before any job-wide one: so many checks in a row they answer. */
  function OneShotsFirst(grants: seq<G.Grant>, jobId: string, p: G.Permission): nat {
    if grants == [] then 0
    else if !G.Covers(grants[0], jobId, p) then OneShotsFirst(grants[1..], jobId, p)
    else if grants[0].scope == G.Once then 1 + OneShotsFirst(grants[1..], jobId, p)
    else 0
  }

  /** The grants after one check of the pair. */
  function Checked(grants: seq<G.Grant>, jobId: string, p: G.Permission): seq<G.Grant> {
    if grants == [] then []
    else if !G.Covers(grants[0], jobId, p) then [grants[0]] + Checked(grants[1..], jobId, p)
    else if grants[0].scope == G.Once then [grants[0].(active := false)] + grants[1..]
    else grants
  }

  lemma {:induction false} CheckedAt(grants: seq<G.Grant>, j: string, q: G.Permission)
    ensures Checked(grants, j, q) ==
      var i := G.FirstMatch(grants, j, q);
      if i < |grants| && grants[i].scope == G.Once then grants[i := grants[i].(active := false)] else grants
  {
    if grants != [] && !G.Matches(grants[0], j, q) {
      CheckedAt(grants[1..], j, q);
      assert grants == [grants[0]] + grants[1..];
    }
  }

  lemma CheckIsChecked(g: G.Gate, j: string, q: G.Permission)
    ensures G.IsGranted(g, j, q).0 == g.(grants := Checked(g.grants, j, q))
  {
    CheckedAt(g.grants, j, q);
  }

  lemma {:induction false} CheckedCounts(grants: seq<G.Grant>, j: string, q: G.Permission, jobId: string, p: G.Permission)
    ensures var taken := if j == jobId && q == p && OneShotsFirst(grants, jobId, p) > 0 then 1 else 0;
      && OneShotsFirst(Checked(grants, j, q), jobId, p) == OneShotsFirst(grants, jobId, p) - taken
  {
    if grants != [] {
      if G.Covers(grants[0], j, q) && grants[0].scope == G.Once {
        assert Checked(grants, j, q)[1..] == grants[1..];
      } else if !G.Covers(grants[0], j, q) {
        assert Checked(grants, j, q)[1..] == Checked(grants[1..], j, q);
        CheckedCounts(grants[1..], j, q, jobId, p);
      }
    }
  }

  lemma {:induction false} FirstIsOneShot(grants: seq<G.Grant>, jobId: string, p: G.Permission)
    ensures var i := G.FirstMatch(grants, jobId, p);
      OneShotsFirst(grants, jobId, p) > 0 <==> i < |grants| && grants[i].scope == G.Once
  {
    if grants != [] && !G.Matches(grants[0], jobId, p) {
      FirstIsOneShot(grants[1..], jobId, p);
    }
  }

  lemma CheckedUsable(grants: seq<G.Grant>, j: string, q: G.Permission, scope: G.Scope, jobId: string, p: G.Permission)
    ensures var taken := if j == jobId && q == p && scope == G.Once && OneShotsFirst(grants, jobId, p) > 0 then 1 else 0;
      G.Usable(Checked(grants, j, q), scope, jobId, p) == G.Usable(grants, scope, jobId, p) - taken
  {
    var i := G.FirstMatch(grants, j, q);
    CheckedAt(grants, j, q);
    FirstIsOneShot(grants, j, q);
    if i < |grants| && grants[i].scope == G.Once {
      G.UsableSpend(grants, i, scope, jobId, p);
    }
    hide Checked, G.Usable, OneShotsFirst;
  }

  /** Grant for grant: as it was, or a one-shot grant of the job for one of the permissions, now switched off. */
  ghost predicate OnlySpent(grants: seq<G.Grant>, after: seq<G.Grant>, jobId: string, permissions: seq<G.Permission>) {
    && |after| == |grants|
    && forall i :: 0 <= i < |grants| ==>
         after[i] == grants[i]
         || (&& grants[i].active && grants[i].scope == G.Once && grants[i].jobId == jobId && grants[i].permissionId in permissions
             && after[i] == grants[i].(active := false))
  }

  function Least(n: nat, k: nat): nat {
    if n <= k then n else k
  }

  lemma {:induction false} SpendSpends(g: G.Gate, j: string, permissions: seq<G.Permission>, scope: G.Scope, jobId: string, p: G.Permission)
    ensures var g' := Spend(g, j, permissions);
      var asked := if j == jobId then multiset(permissions)[p] else 0;
      && g' == g.(grants := g'.grants) && OnlySpent(g.grants, g'.grants, j, permissions)
      && OneShotsFirst(g'.grants, jobId, p) == OneShotsFirst(g.grants, jobId, p) - Least(asked, OneShotsFirst(g.grants, jobId, p))
      && G.Usable(g'.grants, scope, jobId, p) == G.Usable(g.grants, scope, jobId, p)
           - (if scope == G.Once then Least(asked, OneShotsFirst(g.grants, jobId, p)) else 0)
    decreases |permissions|
  {
    hide G.Usable, OneShotsFirst, Checked, G.IsGranted;
    if permissions != [] {
      var g1 := G.IsGranted(g, j, permissions[0]).0;
      CheckIsChecked(g, j, permissions[0]);
      CheckedCounts(g.grants, j, permissions[0], jobId, p);
      CheckedUsable(g.grants, j, permissions[0], scope, jobId, p);
      CheckedSpends(g.grants, j, permissions[0]);
      SpendSpends(g1, j, permissions[1..], scope, jobId, p);
      assert permissions == [permissions[0]] + permissions[1..];
    }
  }

  lemma CheckedSpends(grants: seq<G.Grant>, j: string, q: G.Permission)
    ensures OnlySpent(grants, Checked(grants, j, q), j, [q])
  {
    CheckedAt(grants, j, q);
    hide Checked;
  }

  // ----- what leaves grants alone -----

  /** Messages expire requests at most. */
  predicate SameGrants(s: System, s': System) {
    s'.gate.grants == s.gate.grants && s'.gate.requests == s.gate.requests
  }

  lemma SendKeepsGrants(s: System, body: Body, p: Port)
    requires !body.ReadReceipt?
    ensures SameGrants(s, Send(s, body, p).0)
  {
    hide Apply, IntroducesNoEnding, A.PhoneMayNotSend, A.ReportsTrouble;
  }

  lemma PublishCreatedKeepsGrants(s: System, a: AdapterJob, p: Port, q: Port)
    ensures SameGrants(s, PublishCreated(s, a, p, q).0)
  {
    hide Send;
    var accepted := JobEvent(JobAccepted, Payload(AcceptedView(a.job), JobRunning));
    var own := JobEvent(KindOf(a.job.status), Payload(a.job, a.job.status));
    SendKeepsGrants(s, accepted, p);
    SendKeepsGrants(s, own, q);
    SendKeepsGrants(Send(s, accepted, p).0, own, q);
  }

  lemma ProjectionKeepsGrants(s: System, sent: LastSent, affairId: string, p: Port)
    ensures SameGrants(s, ProjectToPhone(s, sent, affairId, p).0)
  {
    hide Send;
    if affairId in s.live.affairs.data {
      SendKeepsGrants(s, AffairEvent(AffairUpdate, s.live.affairs.data[affairId]), p);
    }
  }

  lemma CommitKeepsGrants(p: Polls, pub: Publication, x: Ports)
    ensures SameGrants(p.s, TryCommit(p, pub, x).0.s)
  {
    hide Send, PublishCreated, ProjectToPhone;
    match pub {
      case FromAdapter(a, _) => PublishCreatedKeepsGrants(p.s, a, x.accepted, x.status);
      case Failure(job, _) => SendKeepsGrants(p.s, JobEvent(KindOf(Failed), Payload(job, Failed)), x.status);
    }
    ProjectionKeepsGrants(CommitJob(p.s, pub, x).0, p.sent, pub.Job().affairId, x.affair);
  }

  lemma AcceptKeepsGrants(p: Polls, a: AdapterJob, asOf: nat, x: Ports)
    ensures SameGrants(p.s, Accept(p, a, asOf, x).0.s)
  {
    hide TryCommit;
    CommitKeepsGrants(p, FromAdapter(a, asOf), x);
  }

  lemma FailureKeepsGrants(p: Polls, job: Job, asOf: nat, x: Ports)
    ensures SameGrants(p.s, AcceptFailure(p, job, asOf, x).s)
  {
    hide TryCommit;
    CommitKeepsGrants(Stop(p, job.jobId), Failure(job, asOf), x);
  }

  lemma RetryKeepsGrants(p: Polls, jobId: string, x: Ports)
    requires jobId in p.active && p.active[jobId].Tracking?
    ensures SameGrants(p.s, Retry(p, jobId, x).s)
  {
    hide TryCommit;
    if p.active[jobId].poll.pending.Some? {
      CommitKeepsGrants(p, p.active[jobId].poll.pending.value, x);
    }
  }

  lemma TickKeepsGrants(p: Polls, jobId: string, pid: nat, r: ReadResult, asOf: nat, x: Ports)
    ensures SameGrants(p.s, TickStart(p, jobId, pid, x).0.s)
    ensures SameGrants(p.s, TickResume(p, jobId, pid, r, asOf, x).s)
  {
    hide Retry, FingerprintOf, ReadFailure;
    if Live(p, jobId, pid) {
      var poll := p.active[jobId].poll;
      RetryKeepsGrants(p, jobId, x);
      if r.Got? {
        RetryKeepsGrants(WithPoll(WithPoll(p, jobId, poll.(lastJob := r.a.job)), jobId, poll.(lastJob := r.a.job, pending := Some(FromAdapter(r.a, asOf)))), jobId, x);
      } else {
        RetryKeepsGrants(WithPoll(p, jobId, poll.(pending := Some(Failure(ReadFailure(poll.lastJob, r.message, r.code), asOf)))), jobId, x);
      }
    }
  }

  lemma CancelKeepsGrants(w: World, op: nat, found: bool, r: ReadResult, x: Ports)
    ensures op in w.ops && w.ops[op].AwaitRegistered? ==> SameGrants(w.p.s, RegisteredResumes(w, op, found, x).0.p.s)
    ensures op in w.ops && w.ops[op].AwaitCancel? ==> SameGrants(w.p.s, CancelResumes(w, op, r, x).0.p.s)
  {
    hide Send, Accept, ProjectToPhone;
    if op in w.ops && w.ops[op].AwaitRegistered? && CancelsLocally(w, w.ops[op].jobId, w.ops[op].local, found) {
      var local := w.ops[op].local.value;
      SendKeepsGrants(w.p.s, JobEvent(KindOf(JobCanceled), Payload(CanceledBefore(local), JobCanceled)), x.status);
      ProjectionKeepsGrants(Publish(w.p.s, JobCanceled, CanceledBefore(local), x.status).0, w.p.sent, w.ops[op].affairId, x.affair);
    }
    if op in w.ops && w.ops[op].AwaitCancel? && r.Got? {
      AcceptKeepsGrants(w.p, r.a, w.ops[op].since, x);
    }
  }

  lemma GrantingKeepsGrants(w: World, op: nat, id: string, scoped: bool, validInput: bool, reuse: ReadResult, detail: Job, x: Ports)
    ensures SameGrants(w.p.s, Grant(w, op, id, scoped, validInput, reuse, detail, x).p.s)
    ensures SameGrants(w.p.s, RejectPermission(w, id, detail, x).p.s)
  {
    hide AcceptFailure, Judge, FailureFor, Blank;
    if id in w.p.s.gate.requests.data {
      FailureKeepsGrants(w.p, FailureFor(w.p.s.gate.requests.data[id], detail), w.clock, x);
    }
    JudgedIsKnown(w.p, id, scoped);
  }

  lemma JudgedIsKnown(p: Polls, id: string, scoped: bool)
    ensures Judge(p, id, scoped) != Ignore ==> id in p.s.gate.requests.data
  {
  }

  lemma CachedKeepsGrants(w: World, op: nat, cached: Option<AdapterJob>, x: Ports)
    requires op in w.ops && w.ops[op].AwaitCached?
    ensures SameGrants(w.p.s, CachedResumes(w, op, cached, x).p.s)
  {
    hide AcceptFailure, ReadFailure;
    var previous := if cached.Some? then Some(cached.value.job) else Get(w.p.s.live.jobs, w.ops[op].jobId);
    if previous.Some? {
      var job := previous.value.(progressSummary := Some(previous.value.progressSummary.GetOr(Given(""))));
      FailureKeepsGrants(w.p, ReadFailure(job, w.ops[op].message, w.ops[op].code), w.ops[op].since, x);
    }
  }

  // ----- what spends them -----

  /** The answer to a create call that created a run. */
  predicate CreatedNow(w: World, st: Step) {
    st.SCreateReturns? && st.op in w.ops && w.ops[st.op].CreateSettled? && w.ops[st.op].result.Got?
  }

  lemma AnswerSpends(w: World, op: nat, detail: Job, x: Ports)
    requires op in w.ops && w.ops[op].CreateSettled?
    ensures var r := w.ops[op].request;
      if w.ops[op].result.Got?
      then SameGrants(w.p.s.(gate := Spend(w.p.s.gate, r.jobId, r.requestedPermissions)), CreateReturns(w, op, detail, x).p.s)
      else SameGrants(w.p.s, CreateReturns(w, op, detail, x).p.s)
  {
    hide Accept, AcceptFailure, Spend, PublishCreated, CanExecute, FailureFor;
    var CreateSettled(r, result, since) := w.ops[op];
    if result.Got? {
      var p1 := w.p.(s := w.p.s.(gate := Spend(w.p.s.gate, r.jobId, r.requestedPermissions)));
      AcceptKeepsGrants(p1, result.a, since, x);
      PublishCreatedKeepsGrants(p1.s, result.a, x.accepted, x.status);
    } else {
      FailureKeepsGrants(Dropped(w.p, r.jobId), FailureFor(r, detail), since, x);
    }
  }

  /** No other step of delegation touches a grant. */
  lemma OnlyAnswersSpend(w: World, st: Step)
    requires Enabled(w, st) && !st.SOutside? && !CreatedNow(w, st)
    ensures SameGrants(w.p.s, Next(w, st).p.s)
  {
    hide Grant, RejectPermission, CreateReturns, TickStart, TickResume, Accept, RegisteredResumes, CancelResumes, CachedResumes, FreshPorts, Restorable;
    match st {
      case SGrant(op, id, scoped, validInput, reuse, detail, x) => GrantingKeepsGrants(w, op, id, scoped, validInput, reuse, detail, x);
      case SRunCreated(op, made) =>
      case SCreateReturns(op, detail, x) => AnswerSpends(w, op, detail, x);
      case SCreateThrows(op) =>
      case SReject(id, detail, x) => GrantingKeepsGrants(w, 0, id, false, false, NotGot("", "", false), detail, x);
      case SSchedule(op, jobId) =>
      case STickStarts(op, x) => TickKeepsGrants(w.p, w.ops[op].jobId, w.ops[op].pid, NotGot("", "", false), 0, x);
      case STickResumes(op, r, x) => TickKeepsGrants(w.p, w.ops[op].jobId, w.ops[op].pid, r, w.ops[op].since, x);
      case SRestore(op, jobId) =>
      case SRestoreResumes(op, r, x) => if r.Got? { AcceptKeepsGrants(w.p, r.a, w.ops[op].since, x); }
      case SCachedResumes(op, cached, x) => CachedKeepsGrants(w, op, cached, x);
      case SCancel(op, jobId, affairId, queued) =>
      case SRegisteredResumes(op, found, x) => CancelKeepsGrants(w, op, found, NotGot("", "", false), x);
      case SCancelResumes(op, r, x) => CancelKeepsGrants(w, op, false, r, x);
    }
  }

  lemma {:induction false} AllOneShots(grants: seq<G.Grant>, jobId: string, p: G.Permission)
    ensures G.Usable(grants, G.ForJob, jobId, p) == 0 ==> OneShotsFirst(grants, jobId, p) == G.Usable(grants, G.Once, jobId, p)
  {
    if grants != [] {
      AllOneShots(grants[1..], jobId, p);
      assert grants == [grants[0]] + grants[1..];
      G.UsableAppend([grants[0]], grants[1..], G.ForJob, jobId, p);
      G.UsableAppend([grants[0]], grants[1..], G.Once, jobId, p);
    }
  }

  lemma {:induction false} SomeUsable(grants: seq<G.Grant>, jobId: string, p: G.Permission)
    ensures G.FirstMatch(grants, jobId, p) < |grants| <==> G.Usable(grants, G.Once, jobId, p) + G.Usable(grants, G.ForJob, jobId, p) > 0
  {
    if grants != [] {
      SomeUsable(grants[1..], jobId, p);
      assert grants == [grants[0]] + grants[1..];
      G.UsableAppend([grants[0]], grants[1..], G.ForJob, jobId, p);
      G.UsableAppend([grants[0]], grants[1..], G.Once, jobId, p);
    }
  }

  /** Exactly what the answer to a create call spends. A failed call spends nothing. When a run was created, grants change only
      by one-shot grants of the job being switched off, for permissions that the request names; and of each permission as many
      are spent as the request names it, or as there are before a job-wide grant, if fewer. Without a job-wide grant the
      permission stays usable exactly if more one-shot grants were there than the request named it. */
  lemma AnswerSpendsExactly(w: World, st: Step, scope: G.Scope, jobId: string, p: G.Permission)
    requires Enabled(w, st) && st.SCreateReturns?
    ensures var r, g, g' := w.ops[st.op].request, w.p.s.gate, Next(w, st).p.s.gate;
      var asked := if jobId == r.jobId then multiset(r.requestedPermissions)[p] else 0;
      && g'.requests == g.requests
      && (w.ops[st.op].result.NotGot? ==> g'.grants == g.grants)
      && (w.ops[st.op].result.Got? ==>
            && OnlySpent(g.grants, g'.grants, r.jobId, r.requestedPermissions)
            && G.Usable(g'.grants, G.ForJob, jobId, p) == G.Usable(g.grants, G.ForJob, jobId, p)
            && G.Usable(g'.grants, G.Once, jobId, p) == G.Usable(g.grants, G.Once, jobId, p) - Least(asked, OneShotsFirst(g.grants, jobId, p))
            && (G.Usable(g.grants, G.ForJob, jobId, p) == 0 ==>
                  (G.HasGrant(g', jobId, p) <==> G.Usable(g.grants, G.Once, jobId, p) > asked)))
  {
    var r, g := w.ops[st.op].request, w.p.s.gate;
    AnswerSpends(w, st.op, st.detail, st.x);
    SpendSpends(g, r.jobId, r.requestedPermissions, G.Once, jobId, p);
    SpendSpends(g, r.jobId, r.requestedPermissions, G.ForJob, jobId, p);
    AllOneShots(g.grants, jobId, p);
    SomeUsable(Next(w, st).p.s.gate.grants, jobId, p);
    hide CreateReturns, Spend, G.Usable, OneShotsFirst, OnlySpent, FreshPorts, G.FirstMatch;
  }

  // ----- over a run -----

  /** Between two moments of a run nothing from outside makes the permission usable anew. */
  ghost predicate NothingGranted(ws: seq<World>, steps: seq<Step>, i: nat, k: nat, jobId: string, p: G.Permission) {
    |ws| == |steps| + 1 && forall m :: i <= m < k < |ws| && steps[m].SOutside? && G.HasGrant(ws[m + 1].p.s.gate, jobId, p) ==> G.HasGrant(ws[m].p.s.gate, jobId, p)
  }

  lemma {:induction false} OnlySpentIsNotUsable(grants: seq<G.Grant>, after: seq<G.Grant>, j: string, permissions: seq<G.Permission>, jobId: string, p: G.Permission)
    requires OnlySpent(grants, after, j, permissions)
    ensures G.FirstMatch(after, jobId, p) < |after| ==> G.FirstMatch(grants, jobId, p) < |grants|
  {
    var i := G.FirstMatch(after, jobId, p);
    if i < |after| {
      assert after[i] == grants[i];
    }
  }

  lemma {:induction false} SpentStaysSpent(ws: seq<World>, steps: seq<Step>, i: nat, k: nat, jobId: string, p: G.Permission)
    requires IsRun(ws, steps) && i <= k < |ws| && NothingGranted(ws, steps, i, k, jobId, p)
    requires !G.HasGrant(ws[i].p.s.gate, jobId, p)
    ensures !G.HasGrant(ws[k].p.s.gate, jobId, p)
    decreases k
  {
    hide Enabled, Next, Starts;
    if i < k {
      SpentStaysSpent(ws, steps, i, k - 1, jobId, p);
      var w, st := ws[k - 1], steps[k - 1];
      if CreatedNow(w, st) {
        AnswerSpendsExactly(w, st, G.Once, jobId, p);
        OnlySpentIsNotUsable(w.p.s.gate.grants, ws[k].p.s.gate.grants, w.ops[st.op].request.jobId, w.ops[st.op].request.requestedPermissions, jobId, p);
      } else if !st.SOutside? {
        OnlyAnswersSpend(w, st);
      }
    }
  }

  lemma UngrantedIsNotCalled(w: World, st: Step, p: G.Permission)
    requires Enabled(w, st) && st.SGrant? && st.requestId in w.p.s.gate.requests.data
    requires var r := w.p.s.gate.requests.data[st.requestId]; p in r.requestedPermissions && !G.HasGrant(w.p.s.gate, r.jobId, p)
    ensures Next(w, st).ops == w.ops
  {
    var r := w.p.s.gate.requests.data[st.requestId];
    var i :| 0 <= i < |r.requestedPermissions| && r.requestedPermissions[i] == p;
    assert !AllGranted(w.p.s.gate, r);
    hide AcceptFailure, CanExecute, FreshPorts;
  }

  /** One allowance, one run. In any run of delegation, once a create call has created a run, a permission that it asked for at
      least as often as there were one-shot grants, with no job-wide one, is not usable again; and until something outside
      grants it anew, no request that names it for the job leads to another create call. */
  lemma OneAllowanceOneRun(ws: seq<World>, steps: seq<Step>, i: nat, k: nat, p: G.Permission)
    requires IsRun(ws, steps) && i < k < |steps| && CreatedNow(ws[i], steps[i]) && Enabled(ws[i], steps[i])
    requires var r, grants := ws[i].ops[steps[i].op].request, ws[i].p.s.gate.grants;
      G.Usable(grants, G.ForJob, r.jobId, p) == 0 && G.Usable(grants, G.Once, r.jobId, p) <= multiset(r.requestedPermissions)[p]
    requires NothingGranted(ws, steps, i + 1, k, ws[i].ops[steps[i].op].request.jobId, p)
    requires steps[k].SGrant? && steps[k].requestId in ws[k].p.s.gate.requests.data
    requires var r := ws[k].p.s.gate.requests.data[steps[k].requestId]; r.jobId == ws[i].ops[steps[i].op].request.jobId && p in r.requestedPermissions
    ensures !G.HasGrant(ws[k].p.s.gate, ws[i].ops[steps[i].op].request.jobId, p) && ws[k + 1].ops == ws[k].ops
  {
    var jobId := ws[i].ops[steps[i].op].request.jobId;
    AnswerSpendsExactly(ws[i], steps[i], G.Once, jobId, p);
    hide Next, Starts, FreshPorts, G.HasGrant, OnlySpent;
    SpentStaysSpent(ws, steps, i + 1, k, jobId, p);
    UngrantedIsNotCalled(ws[k], steps[k], p);
  }
}
