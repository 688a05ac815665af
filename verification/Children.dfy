/** What a cancellation did to every child before it committed. */
module Children {
  import opened Option
  import opened JsMap
  import opened Status
  import opened Types
  import opened Store
  import opened Mirror
  import opened Closing
  import opened Coordinator
  import opened Authority
  import opened Invariant
  import opened Guarantees
  import opened Endings

  function NextChild(phase: RunPhase): (seq<Job>, nat) {
    match phase
    case Cancelling(children, next) => (children, next)
    case AwaitingPort(children, next) => (children, next)
    case _ => ([], 0)
  }

  /** How a child that a run passes in one step came to be stopped: by itself; or it was blocked for one of the
      three reasons that mean its run is over, and is now marked canceled; or the executor was asked, answered
      without throwing, and its registered status is terminal and on file. */
  predicate StoppedSafely(s: System, st: Step, s': System, j: string) {
    && j in s.live.jobs.data
    && (|| (st.SChild? && TerminalJob(s.live.jobs.data[j].status) && s'.live == s.live)
        || (&& st.SChild? && EndedBlocked(s.live.jobs.data[j]) && j in s'.live.jobs.data
            && s'.live.jobs.data[j].status == JobCanceled && s'.live.jobs.data[j].statusReasonCode == Some(CancelAfterEndedBlockedJob))
        || (st.SPort? && !st.threw && TerminalJob(s.live.jobs.data[j].status) && s'.disk == Snapshot(s.live, s.pending)))
  }

  lemma ChildStepPasses(s: System, key: Key, hasPort: bool, saved: bool, children: seq<Job>, next: nat)
    requires Inv(s) && key in s.running && s.running[key].phase == Cancelling(children, next) && next < |children|
    requires var s' := ChildStep(s, key, hasPort, saved); key in s'.running && s'.running[key].phase == Cancelling(children, next + 1)
    ensures StoppedSafely(s, SChild(key, hasPort, saved), ChildStep(s, key, hasPort, saved), children[next].jobId)
  {
    KeysAndOrder(s);
    ChildIsRegistered(s, key, children, next);
    hide Inv, Snapshot;
  }

  lemma PortPasses(s: System, key: Key, threw: bool, saved: bool, children: seq<Job>, next: nat)
    requires key in s.running && s.running[key].phase == AwaitingPort(children, next) && next < |children|
    requires var s' := PortReturns(s, key, threw, saved); key in s'.running && s'.running[key].phase == Cancelling(children, next + 1)
    ensures StoppedSafely(s, SPort(key, threw, saved), PortReturns(s, key, threw, saved), children[next].jobId)
  {
    hide Snapshot;
  }

  lemma PortPhase(s: System, key: Key, threw: bool, saved: bool, children: seq<Job>, next: nat)
    requires key in s.running && s.running[key].phase == AwaitingPort(children, next) && next < |children|
    ensures var s' := PortReturns(s, key, threw, saved);
      && key in s'.running && s'.running[key].record == s.running[key].record
      && (s'.running[key].phase.Done? || s'.running[key].phase == Cancelling(children, next + 1))
  {
    hide Snapshot;
  }

  /** One step of a run that is under way: it is left alone, ends, turns to the executor or the last check,
      or passes its next child, which is then safely stopped. */
  lemma RunAdvances(s: System, st: Step, key: Key)
    requires Inv(s) && Enabled(s, st) && key in s.running && key in Next(s, st).running
    requires s.running[key].phase.Cancelling? || s.running[key].phase.AwaitingPort?
    ensures var (children, next) := NextChild(s.running[key].phase);
      var run' := Next(s, st).running[key];
      && next <= |children| && run'.record == s.running[key].record
      && (|| run' == s.running[key] || run'.phase.Done?
          || (run'.phase == AwaitingPort(children, next) && next < |children|) || (run'.phase == Confirming && next == |children|)
          || (&& run'.phase == Cancelling(children, next + 1) && next < |children| && (st.SChild? || st.SPort?) && st.key == key
              && StoppedSafely(s, st, Next(s, st), children[next].jobId)))
  {
    hide Inv, StoppedSafely, Begin, Confirm, Execute, ChildStep, PortReturns, Deliver, Supervise, Register, DecideByUser, Restart;
    OnlyItsOwnStepsMoveARun(s, st, key);
    NextInRange(s, key);
    var (children, next) := NextChild(s.running[key].phase);
    if Next(s, st).running[key] != s.running[key] {
      if st.SChild? {
        ChildStepPhase(s, key, st.hasPort, st.saved);
        if Next(s, st).running[key].phase == Cancelling(children, next + 1) {
          ChildStepPasses(s, key, st.hasPort, st.saved, children, next);
        }
      } else {
        assert st.SPort?;
        PortPhase(s, key, st.threw, st.saved, children, next);
        if Next(s, st).running[key].phase == Cancelling(children, next + 1) {
          PortPasses(s, key, st.threw, st.saved, children, next);
        }
      }
    }
  }

  lemma NextInRange(s: System, key: Key)
    requires Inv(s) && key in s.running
    ensures NextChild(s.running[key].phase).1 <= |NextChild(s.running[key].phase).0|
  {
    assert RunOk(s.live, s.running[key]);
  }

  // ----- whole runs -----

  ghost predicate PassedAt(ss: seq<System>, steps: seq<Step>, t: nat, key: Key, j: string)
    requires |ss| == |steps| + 1
  {
    t < |steps| && (steps[t].SChild? || steps[t].SPort?) && steps[t].key == key && StoppedSafely(ss[t], steps[t], ss[t + 1], j)
  }

  /** The children were listed by the run's first step `b`, and the first `next` of them have been passed since. */
  ghost predicate History(ss: seq<System>, steps: seq<Step>, b: nat, n: nat, key: Key, children: seq<Job>, next: nat)
    requires |ss| == |steps| + 1 && n < |ss|
  {
    && b < n && next <= |children| && steps[b].SBegin? && steps[b].key == key
    && key in ss[b].running && ss[b].running[key].phase.InLine? && key in ss[n].running && ss[n].running[key].record == ss[b].running[key].record
    && children == JobsOf(ss[b].live, ss[b].running[key].record.command.affairId)
    && forall i :: 0 <= i < next ==> PassedBetween(ss, steps, b, n, key, children[i].jobId)
  }

  ghost predicate PassedBetween(ss: seq<System>, steps: seq<Step>, b: nat, n: nat, key: Key, j: string)
    requires |ss| == |steps| + 1
  {
    exists t :: b < t < n && PassedAt(ss, steps, t, key, j)
  }

  /** Where a run stands: which children it has passed. */
  function Standing(phase: RunPhase, children: seq<Job>): (next: nat) {
    match phase
    case Cancelling(_, next) => next
    case AwaitingPort(_, next) => next
    case _ => |children|
  }

  predicate ListedIn(phase: RunPhase, children: seq<Job>) {
    && (phase.Cancelling? || phase.AwaitingPort? ==> phase.children == children)
    && Standing(phase, children) <= |children|
  }

  lemma {:induction false} RunHistory(ss: seq<System>, steps: seq<Step>, n: nat, key: Key) returns (b: nat, children: seq<Job>)
    requires IsRun(ss, steps) && n < |ss| && key in ss[n].running && PastChecks(ss[n].running[key].phase)
    ensures ListedIn(ss[n].running[key].phase, children)
    ensures History(ss, steps, b, n, key, children, Standing(ss[n].running[key].phase, children))
    decreases n
  {
    hide Inv, Next, Enabled, StoppedSafely, JobsOf;
    assert n > 0 by { EmptyAtFirst(ss, steps); }
    var s, st := ss[n - 1], steps[n - 1];
    RunKeepsInv(ss, steps, n - 1);
    CameFrom(s, st, key);
    if s.running[key].phase.InLine? {
      b, children := n - 1, JobsOf(s.live, s.running[key].record.command.affairId);
    } else {
      b, children := RunHistory(ss, steps, n - 1, key);
      if !s.running[key].phase.Confirming? {
        RunAdvances(s, st, key);
      }
      HistoryGrows(ss, steps, b, n, key, children, Standing(s.running[key].phase, children), Standing(ss[n].running[key].phase, children));
    }
  }

  lemma EmptyAtFirst(ss: seq<System>, steps: seq<Step>)
    requires IsRun(ss, steps)
    ensures ss[0].running == map[]
  {
  }

  /** The step before: either the run's first step, or the run was past its checks already. */
  lemma CameFrom(s: System, st: Step, key: Key)
    requires Inv(s) && Enabled(s, st) && key in Next(s, st).running && PastChecks(Next(s, st).running[key].phase)
    ensures key in s.running && Next(s, st).running[key].record == s.running[key].record
    ensures s.running[key].phase.InLine? || PastChecks(s.running[key].phase)
    ensures s.running[key].phase.InLine? ==>
      (&& st.SBegin? && st.key == key
       && Next(s, st).running[key].phase == Cancelling(JobsOf(s.live, s.running[key].record.command.affairId), 0))
    ensures s.running[key].phase.Confirming? ==> Next(s, st).running[key] == s.running[key]
  {
    hide Inv, Begin, Confirm, Execute, ChildStep, PortReturns, Deliver, Supervise, Register, DecideByUser, Restart, JobsOf;
    RunsAfter(s, st, key);
    OnlyItsOwnStepsMoveARun(s, st, key);
    if Next(s, st).running[key] != s.running[key] {
      OwnMove(s, st, key);
    }
  }

  /** What the run's own steps can do to it. */
  lemma OwnMove(s: System, st: Step, key: Key)
    requires Inv(s) && Enabled(s, st) && key in s.running && (st.SBegin? || st.SChild? || st.SPort? || st.SConfirm?) && st.key == key
    ensures key in Next(s, st).running
    ensures st.SConfirm? ==> Next(s, st).running[key].phase.Done?
    ensures st.SBegin? ==>
      (|| Next(s, st).running[key].phase.Done?
       || Next(s, st).running[key] == s.running[key].(phase := Cancelling(JobsOf(s.live, s.running[key].record.command.affairId), 0)))
    ensures st.SChild? || st.SPort? ==>
      (&& PastChecks(s.running[key].phase) && !s.running[key].phase.Confirming?
       && Next(s, st).running[key].record == s.running[key].record)
  {
    hide Inv, Begin, Confirm, ChildStep, PortReturns, JobsOf;
    match st {
      case SBegin(k, saved, published) => BeginPhase(s, k, saved, published);
      case SChild(k, hasPort, saved) => ChildStepPhase(s, k, hasPort, saved);
      case SPort(k, threw, saved) => PortPhase(s, k, threw, saved, s.running[k].phase.children, s.running[k].phase.next);
      case SConfirm(k, saved, published) => ConfirmEnds(s, k, saved, published);
    }
  }

  lemma HistoryGrows(ss: seq<System>, steps: seq<Step>, b: nat, n: nat, key: Key, children: seq<Job>, next: nat, next': nat)
    requires |ss| == |steps| + 1 && 0 < n < |ss| && History(ss, steps, b, n - 1, key, children, next)
    requires key in ss[n].running && ss[n].running[key].record == ss[n - 1].running[key].record
    requires next' == next || (next' == next + 1 && next < |children| && PassedAt(ss, steps, n - 1, key, children[next].jobId))
    ensures History(ss, steps, b, n, key, children, next')
  {
    hide PassedAt, JobsOf;
    forall i | 0 <= i < next' ensures PassedBetween(ss, steps, b, n, key, children[i].jobId) {
      if i < next {
        assert PassedBetween(ss, steps, b, n - 1, key, children[i].jobId);
        var t :| b < t < n - 1 && PassedAt(ss, steps, t, key, children[i].jobId);
      }
    }
  }

  /** For any executor behaviour: when a cancellation commits, every job that was live under its affair at the
      run's first step has been passed by it in between, safely stopped in one of the three ways. */
  lemma CommittedCancelStoppedEveryChild(ss: seq<System>, steps: seq<Step>, n: nat, key: Key) returns (b: nat)
    requires IsRun(ss, steps) && n < |steps| && key in ss[n].running && ss[n].running[key].record.command.status == ToCanceled
    requires (steps[n].SBegin? || steps[n].SConfirm?) && steps[n].key == key
    requires key in ss[n + 1].running && ss[n + 1].running[key].phase.Done? && ss[n + 1].running[key].phase.outcome.Ok?
    ensures b < n && steps[b].SBegin? && steps[b].key == key && key in ss[b].running
    ensures forall j :: LiveJobOf(ss[b].live, j, ss[n].running[key].record.command.affairId) ==> PassedBetween(ss, steps, b, n, key, j)
  {
    hide Inv, Next, Enabled, JobsOf, WellKeyed, WellOrdered, PassedBetween;
    RunKeepsInv(ss, steps, n);
    CommitsFromConfirming(ss[n], steps[n], key);
    var children;
    b, children := RunHistory(ss, steps, n, key);
    RunKeepsInv(ss, steps, b);
    KeysAndOrder(ss[b]);
    var a := ss[n].running[key].record.command.affairId;
    ChildrenCoverAffair(ss[b].live, a);
    forall j | LiveJobOf(ss[b].live, j, a) ensures PassedBetween(ss, steps, b, n, key, j) {
      assert Ahead(Cancelling(children, 0), j);
      var i :| 0 <= i < |children| && children[i].jobId == j;
    }
  }

  lemma CommitsFromConfirming(s: System, st: Step, key: Key)
    requires Inv(s) && Enabled(s, st) && key in s.running && s.running[key].record.command.status == ToCanceled
    requires (st.SBegin? || st.SConfirm?) && st.key == key
    requires key in Next(s, st).running && Next(s, st).running[key].phase.Done? && Next(s, st).running[key].phase.outcome.Ok?
    ensures s.running[key].phase.Confirming?
  {
    hide Inv, Precheck, JobsOf, RevokeAllOf, Snapshot;
  }
}
