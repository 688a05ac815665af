/** The permission gate: requests, decisions, grants and their consumption. */
module Gate {
  import opened Option
  import opened JsMap

  datatype Permission =
    WorkspaceRead | WorkspaceWrite | CommandRun | NetworkAccess | GitRead | GitWrite | SecretsRead | DesktopControl

  datatype Decision = AllowOnce | AllowForJob | Deny | RequireMoreContext

  datatype QueueStatus = Waiting | Decided | Expired

  datatype Scope = Once | ForJob

  datatype Request = Request(
    permissionRequestId: string,
    jobId: string,
    affairId: Option<string>,
    requestedPermissions: seq<Permission>,
    reason: string,
    workspaceRoot: Option<string>,
    rest: string)

  datatype Grant = Grant(
    grantSeq: nat,
    permissionRequestId: string,
    jobId: string,
    permissionId: Permission,
    scope: Scope,
    active: bool)

  datatype Gate = Gate(
    requests: JsMap<string, Request>,
    queue: JsMap<string, QueueStatus>,
    grants: seq<Grant>,
    grantSeq: nat)

  datatype DecideResult = NotFound | NotPending | DecidedAs(decision: Decision)

  const EMPTY_GATE := Gate(Empty(), Empty(), [], 0)

  // ----- specification -----

  predicate IsWaiting(g: Gate, id: string) {
    Get(g.queue, id) == Some(Waiting)
  }

  function Enqueue(g: Gate, r: Request): (Gate, bool) {
    if r.permissionRequestId in g.requests.data then (g, false)
    else
      (g.(requests := Set(g.requests, r.permissionRequestId, r),
          queue := Set(g.queue, r.permissionRequestId, Waiting)), true)
  }

  function NewGrants(r: Request, permissions: seq<Permission>, scope: Scope, grantSeq: nat): (gs: seq<Grant>)
    ensures |gs| == |permissions|
  {
    seq(|permissions|, i requires 0 <= i < |permissions| =>
      Grant(grantSeq + i + 1, r.permissionRequestId, r.jobId, permissions[i], scope, true))
  }

  /** `applyPermissionDecision` on a waiting request. */
  function Decide(g: Gate, id: string, decision: Decision): (Gate, DecideResult) {
    if id !in g.requests.data then (g, NotFound)
    else if !IsWaiting(g, g.requests.data[id].permissionRequestId) then (g, NotPending)
    else
      var r := g.requests.data[id];
      var g' := g.(queue := Set(g.queue, r.permissionRequestId, Decided));
      if decision == AllowOnce || decision == AllowForJob then
        (g'.(grants := g.grants + NewGrants(r, r.requestedPermissions, if decision == AllowOnce then Once else ForJob, g.grantSeq),
             grantSeq := g.grantSeq + |r.requestedPermissions|), DecidedAs(decision))
      else (g', DecidedAs(decision))
  }

  predicate Matches(grant: Grant, jobId: string, p: Permission) {
    grant.active && grant.jobId == jobId && grant.permissionId == p
  }

  /** Index of the first usable grant, or the length. */
  function FirstMatch(grants: seq<Grant>, jobId: string, p: Permission): (i: nat)
    ensures i <= |grants|
    ensures i < |grants| ==> Matches(grants[i], jobId, p)
    ensures forall k :: 0 <= k < i ==> !Matches(grants[k], jobId, p)
  {
    if grants == [] || Matches(grants[0], jobId, p) then 0 else 1 + FirstMatch(grants[1..], jobId, p)
  }

  predicate HasGrant(g: Gate, jobId: string, p: Permission) {
    FirstMatch(g.grants, jobId, p) < |g.grants|
  }

  /** `isGranted`: a one-shot grant is spent by the first successful check. */
  function IsGranted(g: Gate, jobId: string, p: Permission): (Gate, bool) {
    var i := FirstMatch(g.grants, jobId, p);
    if i == |g.grants| then (g, false)
    else if g.grants[i].scope == Once then (g.(grants := g.grants[i := g.grants[i].(active := false)]), true)
    else (g, true)
  }

  function Expire(g: Gate, hit: Request -> bool): Gate {
    g.(queue := JsMap(g.queue.order,
      map id | id in g.queue.data ::
        if id in g.requests.data && hit(g.requests.data[id]) && g.queue.data[id] == Waiting then Expired else g.queue.data[id]))
  }

  function OfJob(jobId: string): Request -> bool {
    (r: Request) => r.jobId == jobId
  }

  function OfAffair(affairId: string): Request -> bool {
    (r: Request) => r.affairId == Some(affairId)
  }

  function KeepOthers(grants: seq<Grant>, jobId: string): (r: seq<Grant>)
    ensures forall x :: x in r <==> x in grants && x.jobId != jobId
  {
    if grants == [] then []
    else
      var n := |grants| - 1;
      assert grants == grants[..n] + [grants[n]];
      KeepOthers(grants[..n], jobId) + (if grants[n].jobId != jobId then [grants[n]] else [])
  }

  function RevokeForJob(g: Gate, jobId: string): Gate {
    var g' := Expire(g, OfJob(jobId));
    g'.(grants := KeepOthers(g.grants, jobId))
  }

  function RevokeAll(g: Gate): Gate {
    Gate(Empty(), Empty(), [], g.grantSeq)
  }

  predicate HasPendingForJob(g: Gate, jobId: string) {
    exists id :: id in g.requests.data && IsWaiting(g, id) && g.requests.data[id].jobId == jobId
  }

  datatype Dump = Dump(requests: seq<Request>, queue: seq<(string, QueueStatus)>, grants: seq<Grant>, grantSeq: nat)

  function RequestKey(r: Request): string { r.permissionRequestId }
  function EntryKey(e: (string, QueueStatus)): string { e.0 }

  function Entries(m: JsMap<string, QueueStatus>): JsMap<string, (string, QueueStatus)> {
    JsMap(m.order, map k | k in m.data :: (k, m.data[k]))
  }

  function SnapshotGate(g: Gate): Dump {
    Dump(Values(g.requests), Values(Entries(g.queue)), g.grants, g.grantSeq)
  }

  function RestoreGate(d: Dump): Gate {
    var entries := FromList(d.queue, EntryKey);
    Gate(FromList(d.requests, RequestKey), JsMap(entries.order, map k | k in entries.data :: entries.data[k].1), d.grants, d.grantSeq)
  }

  // ----- the mutable gate -----

  class PermissionGate {
    var requests: JsMap<string, Request>
    var queue: JsMap<string, QueueStatus>
    var grants: seq<Grant>
    var grantSeq: nat

    function Value(): Gate
      reads this
    {
      Gate(requests, queue, grants, grantSeq)
    }

    constructor ()
      ensures Value() == EMPTY_GATE
    {
      requests, queue, grants, grantSeq := Empty(), Empty(), [], 0;
    }

    method EnqueueRequest(r: Request) returns (ok: bool)
      modifies this
      ensures (Value(), ok) == Enqueue(old(Value()), r)
    {
      if r.permissionRequestId in requests.data {
        return false;
      }
      requests := Set(requests, r.permissionRequestId, r);
      queue := Set(queue, r.permissionRequestId, Waiting);
      ok := true;
    }

    /** A decision the protocol does not know (`None`) counts as a denial. */
    method DecideRequest(id: string, choice: Option<Decision>) returns (result: DecideResult)
      modifies this
      ensures (Value(), result) == Decide(old(Value()), id, choice.GetOr(Deny))
    {
      if id !in requests.data {
        return NotFound;
      }
      var request := requests.data[id];
      if Get(queue, request.permissionRequestId) != Some(Waiting) {
        return NotPending;
      }
      var decision := choice.GetOr(Deny);
      queue := Set(queue, request.permissionRequestId, Decided);
      if decision == Deny || decision == RequireMoreContext {
        return DecidedAs(decision);
      }
      var scope := if decision == AllowOnce then Once else ForJob;
      ghost var all := NewGrants(request, request.requestedPermissions, scope, grantSeq);
      for i := 0 to |request.requestedPermissions|
        invariant grants == old(grants) + all[..i]
        invariant grantSeq == old(grantSeq) + i
        invariant requests == old(requests) && queue == Set(old(queue), request.permissionRequestId, Decided)
      {
        grantSeq := grantSeq + 1;
        grants := grants + [Grant(grantSeq, request.permissionRequestId, request.jobId, request.requestedPermissions[i], scope, true)];
        assert all[i] == Grant(old(grantSeq) + i + 1, request.permissionRequestId, request.jobId, request.requestedPermissions[i], scope, true);
      }
      assert all[..|all|] == all;
      result := DecidedAs(decision);
    }

    method FindGrant(jobId: string, p: Permission) returns (index: nat)
      ensures index == FirstMatch(grants, jobId, p)
    {
      index := 0;
      while index < |grants| && !Matches(grants[index], jobId, p)
        invariant index <= |grants|
        invariant FirstMatch(grants, jobId, p) == index + FirstMatch(grants[index..], jobId, p)
      {
        assert grants[index..][1..] == grants[index + 1..];
        index := index + 1;
      }
    }

    method CheckGranted(jobId: string, p: Permission) returns (granted: bool)
      modifies this
      ensures (Value(), granted) == IsGranted(old(Value()), jobId, p)
    {
      var index := FindGrant(jobId, p);
      if index == |grants| {
        return false;
      }
      var grant := grants[index];
      if grant.scope == Once {
        grants := grants[index := grant.(active := false)];
      }
      granted := true;
    }

    /** The expiry loop over the requests, shared by its job and affair forms. */
    method ExpirePending(hit: Request -> bool) returns (expired: seq<string>)
      requires Ordered(requests)
      modifies this`queue
      ensures Value() == Expire(old(Value()), hit)
      ensures forall id :: id in expired <==> id in requests.data && hit(requests.data[id]) && IsWaiting(old(Value()), id)
    {
      expired := [];
      OrderedMeans(requests);
      ghost var start := Value();
      var order := requests.order;
      for i := 0 to |order|
        invariant queue.order == start.queue.order && queue.data.Keys == start.queue.data.Keys
        invariant forall id :: id in queue.data ==> (
          queue.data[id] == if id in order[..i] && hit(requests.data[id]) && start.queue.data[id] == Waiting then Expired else start.queue.data[id])
        invariant forall id :: id in expired <==> id in order[..i] && hit(requests.data[id]) && IsWaiting(start, id)
      {
        var id := order[i];
        assert order[..i + 1] == order[..i] + [id];
        assert id !in order[..i];
        if hit(requests.data[id]) && Get(queue, id) == Some(Waiting) {
          queue := Set(queue, id, Expired);
          expired := expired + [id];
        }
      }
      assert order[..|order|] == order;
      assert queue.data == Expire(start, hit).queue.data;
    }

    method RevokeJob(jobId: string)
      requires Ordered(requests)
      modifies this
      ensures Value() == RevokeForJob(old(Value()), jobId)
    {
      var _ := ExpirePending(OfJob(jobId));
      grants := KeepOthers(grants, jobId);
    }

    method RevokeEverything()
      modifies this
      ensures Value() == RevokeAll(old(Value()))
    {
      requests, queue, grants := Empty(), Empty(), [];
    }

    method HydrateFrom(d: Dump)
      modifies this
      ensures Value() == RestoreGate(d)
    {
      var restored := RestoreGate(d);
      requests, queue, grants, grantSeq := restored.requests, restored.queue, restored.grants, restored.grantSeq;
    }
  }

  // ----- invariants of one gate -----

  /** Ids agree with keys, every request has a stage, and every grant stems from a request that was
      decided, for that request's job and one of its permissions. */
  ghost predicate Sound(g: Gate) {
    && Ordered(g.requests) && Ordered(g.queue)
    && g.requests.data.Keys == g.queue.data.Keys
    && (forall id :: id in g.requests.data ==> g.requests.data[id].permissionRequestId == id)
    && (forall i :: 0 <= i < |g.grants| ==> Backed(g, g.grants[i]))
  }

  predicate Backed(g: Gate, grant: Grant) {
    var id := grant.permissionRequestId;
    && id in g.requests.data && id in g.queue.data && g.queue.data[id] == Decided
    && grant.jobId == g.requests.data[id].jobId && grant.permissionId in g.requests.data[id].requestedPermissions
    && 0 < grant.grantSeq <= g.grantSeq
  }

  lemma StagesKnown(g: Gate)
    requires Sound(g)
    ensures forall id :: id in g.requests.data <==> id in g.queue.data
  {
  }

  datatype Op =
    | OpEnqueue(request: Request)
    | OpDecide(id: string, decision: Decision)
    | OpCheck(jobId: string, permission: Permission)
    | OpRevokeJob(job: string)
    | OpExpireJob(job: string)
    | OpExpireAffair(affair: string)
    | OpRevokeAll

  function Step(g: Gate, op: Op): Gate {
    match op
    case OpEnqueue(r) => Enqueue(g, r).0
    case OpDecide(id, d) => Decide(g, id, d).0
    case OpCheck(j, p) => IsGranted(g, j, p).0
    case OpRevokeJob(j) => RevokeForJob(g, j)
    case OpExpireJob(j) => Expire(g, OfJob(j))
    case OpExpireAffair(a) => Expire(g, OfAffair(a))
    case OpRevokeAll => RevokeAll(g)
  }

  lemma EnqueueKeepsSound(g: Gate, r: Request)
    requires Sound(g)
    ensures Sound(Enqueue(g, r).0)
  {
    SetOrdered(g.requests, r.permissionRequestId, r);
    SetOrdered(g.queue, r.permissionRequestId, Waiting);
    forall i | 0 <= i < |g.grants| ensures Backed(Enqueue(g, r).0, g.grants[i]) {
      assert Backed(g, g.grants[i]);
    }
  }

  lemma DecideKeepsSound(g: Gate, id: string, d: Decision)
    requires Sound(g)
    ensures Sound(Decide(g, id, d).0)
  {
    if Decide(g, id, d).1.DecidedAs? {
      SetOrdered(g.queue, id, Decided);
      var g' := Decide(g, id, d).0;
      var r := g.requests.data[id];
      forall i | 0 <= i < |g'.grants| ensures Backed(g', g'.grants[i]) {
        if i < |g.grants| {
          assert g'.grants[i] == g.grants[i] && Backed(g, g.grants[i]);
        } else {
          var k := i - |g.grants|;
          assert g'.grants[i].permissionId == r.requestedPermissions[k];
        }
      }
    }
  }

  lemma ExpireKeepsSound(g: Gate, hit: Request -> bool)
    requires Sound(g)
    ensures Sound(Expire(g, hit))
  {
    forall i | 0 <= i < |g.grants| ensures Backed(Expire(g, hit), g.grants[i]) {
      assert Backed(g, g.grants[i]);
    }
  }

  lemma FewerGrantsKeepSound(g: Gate, grants: seq<Grant>)
    requires Sound(g)
    requires forall x :: x in grants ==> x in g.grants || (exists y :: y in g.grants && x == y.(active := false))
    ensures Sound(g.(grants := grants))
  {
    forall i | 0 <= i < |grants| ensures Backed(g.(grants := grants), grants[i]) {
      assert grants[i] in grants;
    }
  }

  lemma StepKeepsSound(g: Gate, op: Op)
    requires Sound(g)
    ensures Sound(Step(g, op))
  {
    match op {
      case OpEnqueue(r) => EnqueueKeepsSound(g, r);
      case OpDecide(id, d) => DecideKeepsSound(g, id, d);
      case OpCheck(j, p) => FewerGrantsKeepSound(g, IsGranted(g, j, p).0.grants);
      case OpRevokeJob(j) =>
        ExpireKeepsSound(g, OfJob(j));
        FewerGrantsKeepSound(Expire(g, OfJob(j)), KeepOthers(g.grants, j));
      case OpExpireJob(j) => ExpireKeepsSound(g, OfJob(j));
      case OpExpireAffair(a) => ExpireKeepsSound(g, OfAffair(a));
      case OpRevokeAll =>
    }
  }

  /** A request that has left the queue never waits again, short of revoking everything. */
  lemma NeverWaitsAgain(g: Gate, op: Op, id: string)
    requires Sound(g) && !op.OpRevokeAll?
    requires id in g.requests.data && !IsWaiting(g, id)
    ensures id in Step(g, op).requests.data && !IsWaiting(Step(g, op), id)
  {
  }

  /** Grants appear only through an allowing decision on a request that was waiting, and then exactly
      one per requested permission, all for that request. */
  lemma GrantsComeFromAllowing(g: Gate, op: Op, grant: Grant)
    requires Sound(g) && grant.active
    requires grant in Step(g, op).grants && grant !in g.grants
    ensures op.OpDecide? && op.id == grant.permissionRequestId && IsWaiting(g, op.id)
    ensures op.decision == if grant.scope == Once then AllowOnce else AllowForJob
    ensures grant.permissionId in g.requests.data[op.id].requestedPermissions && grant.jobId == g.requests.data[op.id].jobId
  {
  }

  /** What one check answers and spends: it succeeds exactly if an active grant covers the pair, and then at most the
      first such grant changes, which becomes inactive if it is a one-shot grant. */
  lemma CheckSpendsExactly(g: Gate, jobId: string, p: Permission)
    ensures var (g', granted) := IsGranted(g, jobId, p);
      && (granted <==> Covered(g.grants, jobId, p))
      && (granted <==> HasGrant(g, jobId, p))
      && g' == g.(grants := g'.grants) && |g'.grants| == |g.grants|
      && forall i :: 0 <= i < |g.grants| ==>
           g'.grants[i] == if Covers(g.grants[i], jobId, p) && g.grants[i].scope == Once && (forall k :: 0 <= k < i ==> !Covers(g.grants[k], jobId, p))
                           then g.grants[i].(active := false) else g.grants[i]
  {
    var i := FirstMatch(g.grants, jobId, p);
    if i < |g.grants| {
      assert Covers(g.grants[i], jobId, p);
    }
    forall k | 0 <= k < i ensures !Covers(g.grants[k], jobId, p) {
      assert !Matches(g.grants[k], jobId, p);
    }
  }

  /** The grant lets its job use the permission. */
  predicate Covers(grant: Grant, jobId: string, p: Permission) {
    grant == Grant(grant.grantSeq, grant.permissionRequestId, jobId, p, grant.scope, true)
  }

  predicate Covered(grants: seq<Grant>, jobId: string, p: Permission) {
    exists i :: 0 <= i < |grants| && Covers(grants[i], jobId, p)
  }

  // ----- runs -----

  function Run(ops: seq<Op>): Gate {
    if ops == [] then EMPTY_GATE else Step(Run(ops[..|ops| - 1]), ops[|ops| - 1])
  }

  lemma {:induction false} RunIsSound(ops: seq<Op>)
    ensures Sound(Run(ops))
  {
    if ops != [] {
      RunIsSound(ops[..|ops| - 1]);
      StepKeepsSound(Run(ops[..|ops| - 1]), ops[|ops| - 1]);
    }
  }

  function Occurrences(ps: seq<Permission>, p: Permission): nat {
    if ps == [] then 0 else Occurrences(ps[..|ps| - 1], p) + (if ps[|ps| - 1] == p then 1 else 0)
  }

  /** How many grants of `scope` for (job, permission) one operation issues. */
  function IssuedBy(g: Gate, op: Op, scope: Scope, jobId: string, p: Permission): nat {
    if op.OpDecide? && Decide(g, op.id, op.decision).1 == DecidedAs(if scope == Once then AllowOnce else AllowForJob)
       && g.requests.data[op.id].jobId == jobId
    then Occurrences(g.requests.data[op.id].requestedPermissions, p)
    else 0
  }

  function Issued(ops: seq<Op>, scope: Scope, jobId: string, p: Permission): nat {
    if ops == [] then 0
    else Issued(ops[..|ops| - 1], scope, jobId, p) + IssuedBy(Run(ops[..|ops| - 1]), ops[|ops| - 1], scope, jobId, p)
  }

  /** How many checks of (job, permission) have succeeded. */
  function Used(ops: seq<Op>, jobId: string, p: Permission): nat {
    if ops == [] then 0
    else
      var last := ops[|ops| - 1];
      Used(ops[..|ops| - 1], jobId, p)
      + (if last == OpCheck(jobId, p) && IsGranted(Run(ops[..|ops| - 1]), jobId, p).1 then 1 else 0)
  }

  function Usable(grants: seq<Grant>, scope: Scope, jobId: string, p: Permission): nat {
    if grants == [] then 0
    else
      var n := |grants| - 1;
      Usable(grants[..n], scope, jobId, p) + (if Matches(grants[n], jobId, p) && grants[n].scope == scope then 1 else 0)
  }

  lemma {:induction false} UsableAppend(a: seq<Grant>, b: seq<Grant>, scope: Scope, jobId: string, p: Permission)
    ensures Usable(a + b, scope, jobId, p) == Usable(a, scope, jobId, p) + Usable(b, scope, jobId, p)
  {
    if b == [] {
      assert a + b == a;
    } else {
      var n := |b| - 1;
      assert (a + b)[..|a + b| - 1] == a + b[..n];
      UsableAppend(a, b[..n], scope, jobId, p);
    }
  }

  lemma {:induction false} UsableNew(r: Request, ps: seq<Permission>, made: Scope, n: nat, scope: Scope, jobId: string, p: Permission)
    ensures Usable(NewGrants(r, ps, made, n), scope, jobId, p) ==
      if made == scope && r.jobId == jobId then Occurrences(ps, p) else 0
  {
    if ps != [] {
      assert NewGrants(r, ps, made, n)[..|ps| - 1] == NewGrants(r, ps[..|ps| - 1], made, n);
      UsableNew(r, ps[..|ps| - 1], made, n, scope, jobId, p);
    }
  }

  lemma {:induction false} UsableSpend(grants: seq<Grant>, i: nat, scope: Scope, jobId: string, p: Permission)
    requires i < |grants| && grants[i].active
    ensures Usable(grants[i := grants[i].(active := false)], scope, jobId, p) ==
      Usable(grants, scope, jobId, p) - (if Matches(grants[i], jobId, p) && grants[i].scope == scope then 1 else 0)
  {
    var n := |grants| - 1;
    var spent := grants[i := grants[i].(active := false)];
    if i == n {
      assert spent[..n] == grants[..n];
    } else {
      assert spent[..n] == grants[..n][i := grants[i].(active := false)];
      UsableSpend(grants[..n], i, scope, jobId, p);
    }
  }

  lemma {:induction false} UsableKeepOthers(grants: seq<Grant>, revoked: string, scope: Scope, jobId: string, p: Permission)
    ensures Usable(KeepOthers(grants, revoked), scope, jobId, p) == if jobId == revoked then 0 else Usable(grants, scope, jobId, p)
  {
    if grants != [] {
      var n := |grants| - 1;
      var kept := KeepOthers(grants[..n], revoked);
      UsableKeepOthers(grants[..n], revoked, scope, jobId, p);
      assert kept + [] == kept;
      assert (kept + [grants[n]])[..|kept|] == kept;
    }
  }

  lemma {:induction false} UsableZero(grants: seq<Grant>, scope: Scope, jobId: string, p: Permission)
    ensures Usable(grants, scope, jobId, p) == 0 ==> forall i :: 0 <= i < |grants| && Matches(grants[i], jobId, p) ==> grants[i].scope != scope
  {
    if grants != [] {
      UsableZero(grants[..|grants| - 1], scope, jobId, p);
    }
  }

  /** One operation: what becomes usable was issued, and a successful check spends one unless a
      job-wide grant covers it. */
  lemma StepConserves(g: Gate, op: Op, scope: Scope, jobId: string, p: Permission)
    ensures Usable(Step(g, op).grants, scope, jobId, p) <= Usable(g.grants, scope, jobId, p) + IssuedBy(g, op, scope, jobId, p)
    ensures op == OpCheck(jobId, p) && IsGranted(g, jobId, p).1 && Usable(g.grants, ForJob, jobId, p) == 0 ==>
      Usable(Step(g, op).grants, Once, jobId, p) + 1 == Usable(g.grants, Once, jobId, p)
  {
    match op {
      case OpDecide(id, d) =>
        if Decide(g, id, d).1.DecidedAs? && (d == AllowOnce || d == AllowForJob) {
          var r := g.requests.data[id];
          var made := if d == AllowOnce then Once else ForJob;
          UsableAppend(g.grants, NewGrants(r, r.requestedPermissions, made, g.grantSeq), scope, jobId, p);
          UsableNew(r, r.requestedPermissions, made, g.grantSeq, scope, jobId, p);
        }
      case OpCheck(j, q) =>
        CheckConserves(g, j, q, scope, jobId, p);
        hide IsGranted, Usable, NewGrants;
      case OpRevokeJob(j) =>
        UsableKeepOthers(g.grants, j, scope, jobId, p);
      case _ =>
    }
  }

  lemma CheckConserves(g: Gate, j: string, q: Permission, scope: Scope, jobId: string, p: Permission)
    ensures Usable(IsGranted(g, j, q).0.grants, scope, jobId, p) <= Usable(g.grants, scope, jobId, p)
    ensures j == jobId && q == p && IsGranted(g, jobId, p).1 && Usable(g.grants, ForJob, jobId, p) == 0 ==>
      Usable(IsGranted(g, jobId, p).0.grants, Once, jobId, p) + 1 == Usable(g.grants, Once, jobId, p)
  {
    var i := FirstMatch(g.grants, j, q);
    if i < |g.grants| {
      UsableZero(g.grants, ForJob, jobId, p);
      if g.grants[i].scope == Once {
        UsableSpend(g.grants, i, scope, jobId, p);
        UsableSpend(g.grants, i, Once, jobId, p);
      }
    }
  }

  /** Conservation of one-shot grants. Over any history without a job-wide grant for the pair, the
      successful checks so far and the grants still usable together never exceed the grants issued. */
  lemma {:induction false} OneShotConservation(ops: seq<Op>, jobId: string, p: Permission)
    requires Issued(ops, ForJob, jobId, p) == 0
    ensures Used(ops, jobId, p) + Usable(Run(ops).grants, Once, jobId, p) <= Issued(ops, Once, jobId, p)
    ensures Usable(Run(ops).grants, ForJob, jobId, p) == 0
  {
    if ops != [] {
      var before := ops[..|ops| - 1];
      OneShotConservation(before, jobId, p);
      StepConserves(Run(before), ops[|ops| - 1], Once, jobId, p);
      StepConserves(Run(before), ops[|ops| - 1], ForJob, jobId, p);
    }
  }

  lemma {:induction false} OccurrencesCount(ps: seq<Permission>, p: Permission)
    ensures Occurrences(ps, p) == multiset(ps)[p]
  {
    if ps != [] {
      OccurrencesCount(ps[..|ps| - 1], p);
      assert ps == ps[..|ps| - 1] + [ps[|ps| - 1]];
    }
  }

  predicate Allows(d: Decision) {
    d == AllowOnce || d == AllowForJob
  }

  /** All a decision changes. A request that waits leaves the queue. If it is allowed, one active grant is added for each
      permission that it names, in order, for its job and in the scope of the decision; a denial adds none. A request that
      does not wait changes nothing at all. */
  lemma DecisionAddsExactly(g: Gate, id: string, d: Decision)
    requires Sound(g)
    ensures var (g', result) := Decide(g, id, d);
      && (result == NotFound <==> id !in g.requests.data)
      && (result == DecidedAs(d) <==> id in g.requests.data && g.queue.data[id] == Waiting)
      && (!result.DecidedAs? ==> g' == g)
      && (result.DecidedAs? ==>
            var r := g.requests.data[id];
            var n, m := |g.grants|, if Allows(d) then |r.requestedPermissions| else 0;
            && g'.requests == g.requests && g'.queue.data == g.queue.data[id := Decided] && g'.grantSeq == g.grantSeq + m
            && g.grants <= g'.grants && |g'.grants| == n + m
            && forall i :: 0 <= i < m ==>
                 g'.grants[n + i] == Grant(g.grantSeq + i + 1, id, r.jobId, r.requestedPermissions[i], if d == AllowOnce then Once else ForJob, true))
  {
  }

  /** So an allowance makes every permission it names usable, and the usable grants rise by exactly as many as it names the
      permission. */
  lemma DecisionGrantsExactly(g: Gate, id: string, d: Decision, scope: Scope, jobId: string, p: Permission)
    requires Sound(g) && id in g.requests.data && g.queue.data[id] == Waiting
    ensures var g', r := Decide(g, id, d).0, g.requests.data[id];
      && (Allows(d) && p in r.requestedPermissions ==> Covered(g'.grants, r.jobId, p))
      && Usable(g'.grants, scope, jobId, p) == Usable(g.grants, scope, jobId, p)
           + (if Allows(d) && jobId == r.jobId && scope == (if d == AllowOnce then Once else ForJob) then multiset(r.requestedPermissions)[p] else 0)
  {
    DecisionAddsExactly(g, id, d);
    if Allows(d) {
      var r, g' := g.requests.data[id], Decide(g, id, d).0;
      var made := if d == AllowOnce then Once else ForJob;
      var added := NewGrants(r, r.requestedPermissions, made, g.grantSeq);
      assert g'.grants == g.grants + added;
      hide Decide, Sound, Usable, NewGrants, Occurrences;
      UsableAppend(g.grants, added, scope, jobId, p);
      UsableNew(r, r.requestedPermissions, made, g.grantSeq, scope, jobId, p);
      OccurrencesCount(r.requestedPermissions, p);
      if p in r.requestedPermissions {
        var k :| 0 <= k < |r.requestedPermissions| && r.requestedPermissions[k] == p;
        assert Covers(g'.grants[|g.grants| + k], r.jobId, p);
      }
    }
  }

  // ----- revocation -----

  /** Nothing usable and nothing waiting for a job. */
  ghost predicate Quiet(g: Gate, jobId: string) {
    && (forall p :: !HasGrant(g, jobId, p))
    && !HasPendingForJob(g, jobId)
  }

  lemma RevokeQuiets(g: Gate, jobId: string)
    ensures Quiet(RevokeForJob(g, jobId), jobId)
  {
    forall p ensures !HasGrant(RevokeForJob(g, jobId), jobId, p) {
      NoMatchNoGrant(RevokeForJob(g, jobId), jobId, p);
    }
  }

  /** What asking, expiring and revoking change. A request is taken in exactly if its id is new, and then waits. Expiry and
      revocation take exactly the waiting requests of the job or affair out of the queue, and only a revocation touches
      grants: those of its job are gone, those of other jobs stay usable as they were. */
  lemma OtherOpsExactly(g: Gate, op: Op, id: string, scope: Scope, jobId: string, p: Permission)
    requires Sound(g) && !op.OpDecide? && !op.OpCheck?
    ensures op.OpRevokeAll? ==> Step(g, op) == EMPTY_GATE.(grantSeq := g.grantSeq)
    ensures !op.OpRevokeAll? ==> var g', hit := Step(g, op), id in g.queue.data && g.queue.data[id] == Waiting;
      && (id in g'.queue.data <==> id in g.queue.data || (op.OpEnqueue? && op.request.permissionRequestId == id))
      && (op.OpEnqueue? ==>
            && (Enqueue(g, op.request).1 <==> op.request.permissionRequestId !in g.requests.data)
            && g'.requests.data == (if Enqueue(g, op.request).1 then g.requests.data[op.request.permissionRequestId := op.request] else g.requests.data)
            && (id in g'.queue.data ==> g'.queue.data[id] == if id in g.queue.data then g.queue.data[id] else Waiting))
      && (!op.OpEnqueue? ==> g'.requests == g.requests)
      && (op.OpRevokeJob? && id in g.queue.data ==>
            g'.queue.data[id] == if hit && g.requests.data[id].jobId == op.job then Expired else g.queue.data[id])
      && (op.OpExpireJob? && id in g.queue.data ==>
            g'.queue.data[id] == if hit && g.requests.data[id].jobId == op.job then Expired else g.queue.data[id])
      && (op.OpExpireAffair? && id in g.queue.data ==>
            g'.queue.data[id] == if hit && g.requests.data[id].affairId == Some(op.affair) then Expired else g.queue.data[id])
      && (!op.OpRevokeJob? ==> g'.grants == g.grants)
      && (op.OpRevokeJob? ==> Usable(g'.grants, scope, jobId, p) == if jobId == op.job then 0 else Usable(g.grants, scope, jobId, p))
  {
    if op.OpRevokeJob? {
      UsableKeepOthers(g.grants, op.job, scope, jobId, p);
    }
  }

  lemma NoMatchNoGrant(g: Gate, jobId: string, p: Permission)
    ensures HasGrant(g, jobId, p) <==> exists grant :: grant in g.grants && Matches(grant, jobId, p)
  {
    var i := FirstMatch(g.grants, jobId, p);
    if i < |g.grants| {
      assert g.grants[i] in g.grants;
    }
  }

  lemma StepKeepsQuiet(g: Gate, op: Op, jobId: string)
    requires Sound(g) && Quiet(g, jobId)
    requires op.OpEnqueue? ==> op.request.jobId != jobId
    ensures Quiet(Step(g, op), jobId)
  {
    forall p ensures !HasGrant(Step(g, op), jobId, p) {
      NoMatchNoGrant(g, jobId, p);
      NoMatchNoGrant(Step(g, op), jobId, p);
      if grant :| grant in Step(g, op).grants && Matches(grant, jobId, p) {
        GrantsComeFromAllowing(g, op, grant);
      }
    }
  }

  function RunFrom(g: Gate, ops: seq<Op>): Gate {
    if ops == [] then g else Step(RunFrom(g, ops[..|ops| - 1]), ops[|ops| - 1])
  }

  lemma RevokeIsAStep(g: Gate, jobId: string)
    ensures Step(g, OpRevokeJob(jobId)) == RevokeForJob(g, jobId)
  {
  }

  /** After a revocation the job has no grant, in any continuation, until a request for it is enqueued. */
  lemma {:induction false} RevokedUntilAskedAgain(g: Gate, jobId: string, ops: seq<Op>, p: Permission)
    requires Sound(g)
    requires forall i :: 0 <= i < |ops| && ops[i].OpEnqueue? ==> ops[i].request.jobId != jobId
    ensures var after := RunFrom(RevokeForJob(g, jobId), ops);
      Sound(after) && Quiet(after, jobId) && !HasGrant(after, jobId, p)
  {
    hide Sound, Quiet, Step, RevokeForJob;
    if ops == [] {
      StepKeepsSound(g, OpRevokeJob(jobId));
      RevokeIsAStep(g, jobId);
      RevokeQuiets(g, jobId);
    } else {
      RevokedUntilAskedAgain(g, jobId, ops[..|ops| - 1], p);
      var prev := RunFrom(RevokeForJob(g, jobId), ops[..|ops| - 1]);
      StepKeepsSound(prev, ops[|ops| - 1]);
      StepKeepsQuiet(prev, ops[|ops| - 1], jobId);
    }
  }

  // ----- persistence -----

  /** Restoring a dumped gate is the identity. */
  lemma RestoreAfterSnapshot(g: Gate)
    requires Sound(g)
    ensures RestoreGate(SnapshotGate(g)) == g
  {
    SaveAndRefill(g.requests, RequestKey);
    SaveAndRefill(Entries(g.queue), EntryKey);
    assert RestoreGate(SnapshotGate(g)).queue.data == g.queue.data;
  }
}
