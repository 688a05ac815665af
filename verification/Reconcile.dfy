/** Startup repair of affairs from the jobs that were saved with them. */
module Reconcile {
  import opened Option
  import opened JsMap
  import opened Reach
  import opened Status
  import opened Types
  import opened Store

  predicate IsExecution(job: Job) {
    job.purpose.GetOr(Execution) != Exploration
  }

  /** The last execution job of an affair, in the order jobs were first registered. */
  function LastExecution(jobs: seq<Job>, affairId: string): (r: Option<Job>)
    ensures r.Some? ==> r.value in jobs && r.value.affairId == affairId && IsExecution(r.value)
    ensures r.None? ==> forall i :: 0 <= i < |jobs| ==> !(jobs[i].affairId == affairId && IsExecution(jobs[i]))
  {
    if jobs == [] then None
    else
      var last := jobs[|jobs| - 1];
      if last.affairId == affairId && IsExecution(last) then Some(last)
      else LastExecution(jobs[..|jobs| - 1], affairId)
  }

  function SelectReconciliationJob(jobs: JsMap<string, Job>, affair: Affair): Option<Job> {
    var current := if Truthy(affair.currentJobId) then Get(jobs, affair.currentJobId.value) else None;
    if current.Some? && IsExecution(current.value) then current
    else if Truthy(affair.currentJobId) then None
    else LastExecution(Values(jobs), affair.affairId)
  }

  ghost function ReconcileOne(jobs: JsMap<string, Job>, affair: Affair): Affair {
    var job := SelectReconciliationJob(jobs, affair);
    if job.None? || TerminalAffair(affair.status) then affair
    else
      var next := ProjectAffair(affair, job.value, AffairStatusForJob(job.value.status));
      if AffairReachable(affair.status, next.status) then next else affair
  }

  ghost function ReconciledAffairs(b: Backend): JsMap<string, Affair> {
    JsMap(b.affairs.order, map a | a in b.affairs.data :: ReconcileOne(b.jobs, b.affairs.data[a]))
  }

  ghost function Reconciled(b: Backend, now: int): Backend {
    b.(affairs := ReconciledAffairs(b), updatedAt := if ReconciledAffairs(b) == b.affairs then b.updatedAt else now)
  }

  /** `affairNeedsRepair`: the four fields a projection can change. */
  predicate NeedsRepair(left: Affair, right: Affair) {
    || left.status != right.status
    || left.currentJobId != right.currentJobId
    || left.blockedReason != right.blockedReason
    || left.resumeCondition != right.resumeCondition
  }

  method FindLastExecution(jobs: seq<Job>, affairId: string) returns (fallback: Option<Job>)
    ensures fallback == LastExecution(jobs, affairId)
  {
    fallback := None;
    for i := 0 to |jobs|
      invariant fallback == LastExecution(jobs[..i], affairId)
    {
      assert jobs[..i + 1][..i] == jobs[..i];
      if jobs[i].affairId == affairId && IsExecution(jobs[i]) {
        fallback := Some(jobs[i]);
      }
    }
    assert jobs[..|jobs|] == jobs;
  }

  method SelectJob(jobs: JsMap<string, Job>, affair: Affair) returns (r: Option<Job>)
    ensures r == SelectReconciliationJob(jobs, affair)
  {
    var current := if Truthy(affair.currentJobId) then Get(jobs, affair.currentJobId.value) else None;
    if current.Some? && IsExecution(current.value) {
      return current;
    }
    if Truthy(affair.currentJobId) {
      return None;
    }
    r := FindLastExecution(Values(jobs), affair.affairId);
  }

  method RepairOne(state: CompanionState, id: string) returns (repaired: bool)
    requires id in state.affairs.data && state.affairs.data[id].affairId == id
    modifies state`affairs
    ensures state.affairs == Set(old(state.affairs), id, ReconcileOne(state.jobs, old(state.affairs.data[id])))
    ensures repaired <==> ReconcileOne(state.jobs, old(state.affairs.data[id])) != old(state.affairs.data[id])
    ensures !repaired ==> state.affairs == old(state.affairs)
  {
    var affair := state.affairs.data[id];
    var job := SelectJob(state.jobs, affair);
    assert state.affairs == Set(state.affairs, id, affair);
    if job.None? {
      return false;
    }
    var target := AffairStatusForJob(job.value.status);
    if TerminalAffair(affair.status) {
      return false;
    }
    var next := ProjectAffair(affair, job.value, target);
    var reaches := CanReach(CanTransitionAffair, AFFAIR_STATUSES, affair.status, next.status);
    if !reaches {
      return false;
    }
    repaired := NeedsRepair(affair, next);
    if repaired {
      state.affairs := Set(state.affairs, affair.affairId, next);
    }
  }

  /** The affairs after the first `n` have been looked at. */
  ghost function RepairedUpTo(b: Backend, n: nat): JsMap<string, Affair>
    requires n <= |b.affairs.order|
  {
    JsMap(b.affairs.order,
          map a | a in b.affairs.data :: if a in b.affairs.order[..n] then ReconcileOne(b.jobs, b.affairs.data[a]) else b.affairs.data[a])
  }

  lemma RepairedNext(b: Backend, n: nat)
    requires Ordered(b.affairs) && n < |b.affairs.order|
    ensures var a := b.affairs.order[n];
      && a in RepairedUpTo(b, n).data && RepairedUpTo(b, n).data[a] == b.affairs.data[a]
      && RepairedUpTo(b, n + 1) == Set(RepairedUpTo(b, n), a, ReconcileOne(b.jobs, RepairedUpTo(b, n).data[a]))
  {
    OrderedMeans(b.affairs);
    var a := b.affairs.order[n];
    assert b.affairs.order[..n + 1] == b.affairs.order[..n] + [a];
    assert a !in b.affairs.order[..n];
  }

  lemma RepairedAll(b: Backend)
    requires Ordered(b.affairs)
    ensures RepairedUpTo(b, 0) == b.affairs
    ensures RepairedUpTo(b, |b.affairs.order|) == ReconciledAffairs(b)
  {
    OrderedMeans(b.affairs);
    assert b.affairs.order[..|b.affairs.order|] == b.affairs.order;
    assert RepairedUpTo(b, 0).data == b.affairs.data;
    assert RepairedUpTo(b, |b.affairs.order|).data == ReconciledAffairs(b).data;
  }

  lemma ReconciledDiffers(b: Backend, a: string)
    requires a in b.affairs.data && ReconcileOne(b.jobs, b.affairs.data[a]) != b.affairs.data[a]
    ensures ReconciledAffairs(b) != b.affairs
  {
    assert ReconciledAffairs(b).data[a] != b.affairs.data[a];
  }

  method RepairNext(state: CompanionState, ghost b: Backend, i: nat) returns (repaired: bool)
    requires WellKeyed(b) && Ordered(b.affairs) && i < |b.affairs.order|
    requires state.affairs == RepairedUpTo(b, i) && state.jobs == b.jobs
    modifies state`affairs
    ensures state.affairs == RepairedUpTo(b, i + 1)
    ensures repaired ==> ReconciledAffairs(b) != b.affairs
    ensures !repaired ==> state.affairs == old(state.affairs)
  {
    RepairedNext(b, i);
    repaired := RepairOne(state, state.affairs.order[i]);
    if repaired {
      ReconciledDiffers(b, b.affairs.order[i]);
    }
  }

  /** The repair loop, over the affairs of a mutable store. */
  method ReconcileAffairsFromJobs(state: CompanionState, now: int) returns (changed: nat)
    requires WellKeyed(state.Value()) && Ordered(state.affairs)
    modifies state`affairs, state`updatedAt
    ensures state.Value() == Reconciled(old(state.Value()), now)
    ensures changed == 0 <==> state.affairs == old(state.affairs)
  {
    changed := 0;
    ghost var start := state.Value();
    var n := |state.affairs.order|;
    RepairedAll(start);
    for i := 0 to n
      invariant state.affairs == RepairedUpTo(start, i) && state.updatedAt == start.updatedAt
      invariant if changed == 0 then state.affairs == start.affairs else ReconciledAffairs(start) != start.affairs
    {
      var repaired := RepairNext(state, start, i);
      changed := if repaired then changed + 1 else changed;
    }
    if changed > 0 {
      state.updatedAt := now;
    }
  }

  /** A repair never touches a terminal affair, never ends one, moves only along legal transitions,
      and leaves the affair's identity alone. */
  lemma ReconcileIsLegal(jobs: JsMap<string, Job>, affair: Affair)
    ensures var r := ReconcileOne(jobs, affair);
      && AffairReachable(affair.status, r.status)
      && (TerminalAffair(affair.status) ==> r == affair)
      && (!TerminalAffair(affair.status) ==> !TerminalAffair(r.status))
      && r.affairId == affair.affairId && r.rest == affair.rest
  {
    SelfReaches(CanTransitionAffair, AFFAIR_STATUSES, affair.status);
  }

  /** A second repair finds nothing to do. */
  lemma ReconcileIsIdempotent(b: Backend, affair: Affair)
    requires WellKeyed(b) && Ordered(b.jobs)
    ensures ReconcileOne(b.jobs, ReconcileOne(b.jobs, affair)) == ReconcileOne(b.jobs, affair)
  {
    var next := ReconcileOne(b.jobs, affair);
    if next != affair {
      var job := SelectReconciliationJob(b.jobs, affair).value;
      InValues(b.jobs, job);
      assert Get(b.jobs, job.jobId) == Some(job);
      SelfReaches(CanTransitionAffair, AFFAIR_STATUSES, next.status);
      assert SelectReconciliationJob(b.jobs, next) == Some(job);
    }
  }

  lemma SecondPassRepairsNothing(b: Backend, first: int, second: int)
    requires WellKeyed(b) && WellOrdered(b)
    ensures Reconciled(Reconciled(b, first), second) == Reconciled(b, first)
  {
    forall a | a in b.affairs.data ensures ReconcileOne(b.jobs, ReconcileOne(b.jobs, b.affairs.data[a])) == ReconcileOne(b.jobs, b.affairs.data[a]) {
      ReconcileIsIdempotent(b, b.affairs.data[a]);
    }
    assert ReconciledAffairs(Reconciled(b, first)).data == ReconciledAffairs(b).data;
  }
}
