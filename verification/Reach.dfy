/** Reachability in a transition table, and the breadth-first search the source uses for it. */
module Reach {

  /** `p` walks from its first to its last entry by allowed steps, landing only on listed statuses. */
  ghost predicate IsWalk<S>(can: (S, S) -> bool, statuses: seq<S>, p: seq<S>) {
    && |p| > 0
    && forall i :: 0 <= i < |p| - 1 ==> StepAt(can, statuses, p, i)
  }

  ghost predicate StepAt<S>(can: (S, S) -> bool, statuses: seq<S>, p: seq<S>, i: nat)
    requires i + 1 < |p|
  {
    can(p[i], p[i + 1]) && p[i + 1] in statuses
  }

  ghost predicate Reachable<S(!new)>(can: (S, S) -> bool, statuses: seq<S>, from: S, to: S) {
    exists p: seq<S> :: IsWalk(can, statuses, p) && p[0] == from && p[|p| - 1] == to
  }

  lemma StepReaches<S(!new)>(can: (S, S) -> bool, statuses: seq<S>, from: S, mid: S, to: S)
    requires Reachable(can, statuses, from, mid) && can(mid, to) && to in statuses
    ensures Reachable(can, statuses, from, to)
  {
    var p :| IsWalk(can, statuses, p) && p[0] == from && p[|p| - 1] == mid;
    var q := p + [to];
    assert IsWalk(can, statuses, q) by {
      forall i | 0 <= i < |q| - 1 ensures StepAt(can, statuses, q, i) {
        if i < |p| - 1 { assert StepAt(can, statuses, p, i); }
      }
    }
    assert q[0] == from && q[|q| - 1] == to;
  }

  lemma SelfReaches<S(!new)>(can: (S, S) -> bool, statuses: seq<S>, s: S)
    ensures Reachable(can, statuses, s, s)
  {
    assert IsWalk(can, statuses, [s]) && [s][0] == s;
  }

  /** A set that no step leaves contains everything reachable from its members. */
  lemma {:induction false} ClosedContainsWalk<S(!new)>(can: (S, S) -> bool, statuses: seq<S>, closed: set<S>, p: seq<S>, i: nat)
    requires IsWalk(can, statuses, p) && i < |p| && p[0] in closed
    requires forall s, t :: s in closed && t in statuses && can(s, t) ==> t in closed
    ensures p[i] in closed
  {
    if i > 0 {
      ClosedContainsWalk(can, statuses, closed, p, i - 1);
      assert StepAt(can, statuses, p, i - 1);
    }
  }

  /** The queue/seen search: it answers true exactly when a walk exists, for any table and any status list. */
  method CanReach<S(!new,==)>(can: (S, S) -> bool, statuses: seq<S>, from: S, to: S) returns (found: bool)
    requires to in statuses
    ensures found <==> Reachable(can, statuses, from, to)
  {
    SelfReaches(can, statuses, from);
    if from == to {
      return true;
    }
    if can(from, to) {
      StepReaches(can, statuses, from, from, to);
      return true;
    }
    var queue := [from];
    var seen := {from};
    ghost var all := (set s | s in statuses) + {from};
    while queue != []
      invariant forall s :: s in queue ==> s in seen
      invariant from in seen && to !in seen && seen <= all
      invariant forall s :: s in seen ==> Reachable(can, statuses, from, s)
      invariant forall s, t :: s in seen && s !in queue && t in statuses && can(s, t) ==> t in seen
      decreases all - seen, |queue|
    {
      var cur := queue[0];
      ghost var before := seen;
      ghost var rest := queue[1..];
      queue := queue[1..];
      assert forall s :: s in seen && s !in queue && s != cur ==> s !in [cur] + rest;
      for n := 0 to |statuses|
        invariant forall s :: s in queue ==> s in seen
        invariant from in seen && to !in seen && before <= seen <= all
        invariant seen == before ==> queue == rest
        invariant forall s :: s in seen ==> Reachable(can, statuses, from, s)
        invariant forall s :: s in seen && s !in before ==> s in queue
        invariant forall s :: s in rest ==> s in queue
        invariant forall s, t :: s in seen && s !in queue && s != cur && t in statuses && can(s, t) ==> t in seen
        invariant forall m :: 0 <= m < n && can(cur, statuses[m]) ==> statuses[m] in seen
      {
        var next := statuses[n];
        if next in seen || !can(cur, next) {
          continue;
        }
        StepReaches(can, statuses, from, cur, next);
        if next == to {
          return true;
        }
        seen := seen + {next};
        queue := queue + [next];
      }
      assert all - seen <= all - before;
      if seen != before {
        var s :| s in seen && s !in before;
        assert s in all - before && s !in all - seen;
      }
    }
    if Reachable(can, statuses, from, to) {
      var p :| IsWalk(can, statuses, p) && p[0] == from && p[|p| - 1] == to;
      ClosedContainsWalk(can, statuses, seen, p, |p| - 1);
    }
    return false;
  }
}
