/** The executor's store of records, shared by create, read and cancel calls. A read or a cancellation merges the
    runtime's answer into the record that it found when it began, so calls about one job that overlap can undo
    each other; calls that take turns cannot. */
module Executor {
  import opened Option
  import opened Status
  import opened Types
  import opened Publisher
  import opened Adapter

  datatype CreateInput = CreateInput(jobId: string, affairId: string, goal: string, purpose: Option<Purpose>, allowedPermissions: seq<string>, rest: string)

  /** A call that waits for the runtime; `base` is the record as the call found it. */
  datatype Call = Creating(input: CreateInput) | Asking(base: AdapterJob) {
    function JobId(): string {
      match this
      case Creating(input) => input.jobId
      case Asking(base) => base.job.jobId
    }
  }

  datatype Records = Records(jobs: map<string, AdapterJob>, calls: map<nat, Call>)

  datatype Reply = Waiting | NotOk | Has(a: AdapterJob)

  predicate ValidInput(rules: Rules, input: CreateInput) {
    && !Blank(input.jobId) && !Blank(input.affairId) && !Blank(input.goal) && input.allowedPermissions != []
    && forall i :: 0 <= i < |input.allowedPermissions| ==> rules.known(input.allowedPermissions[i]) && !Blank(input.allowedPermissions[i])
  }

  predicate SameOrder(a: AdapterJob, input: CreateInput) {
    a.job.affairId == input.affairId && a.job.goal == input.goal && a.job.purpose.GetOr(Execution) == input.purpose.GetOr(Execution)
  }

  function NewRecord(input: CreateInput): AdapterJob {
    AdapterJob(
      Job(input.jobId, input.affairId, Queued, Some(input.purpose.GetOr(Execution)), input.goal, input.allowedPermissions,
          Some(Given("")), None, Some(Missing), None, None, None, None, None, [], input.rest),
      None)
  }

  /** The record that a call's answer is merged into. */
  function BaseOf(call: Call): AdapterJob {
    match call
    case Creating(input) => NewRecord(input)
    case Asking(base) => base
  }

  /** The snapshot belongs to the job of the record. */
  predicate Identified(a: AdapterJob, snapshot: Snapshot) {
    (Truthy(a.runId) ==> a.runId == Some(snapshot.runId)) && snapshot.ofThisJob
  }

  // ----- the calls, up to their await and after it -----

  function Create(rules: Rules, e: Records, n: nat, input: CreateInput): (Records, Reply) {
    if !ValidInput(rules, input) then (e, NotOk)
    else if input.jobId in e.jobs then (e, if SameOrder(e.jobs[input.jobId], input) then Has(e.jobs[input.jobId]) else NotOk)
    else (e.(calls := e.calls[n := Creating(input)]), Waiting)
  }

  function Read(e: Records, n: nat, jobId: string, refresh: bool): (Records, Reply) {
    if jobId !in e.jobs then (e, NotOk)
    else if !refresh || !Truthy(e.jobs[jobId].runId) then (e, Has(e.jobs[jobId]))
    else (e.(calls := e.calls[n := Asking(e.jobs[jobId])]), Waiting)
  }

  function CanceledLocally(a: AdapterJob): AdapterJob {
    a.(job := a.job.(status := JobCanceled, statusReasonCode := Some(OtherReason("openclaw.cancel_before_run")),
                     progressSummary := if ShownText(a.job.progressSummary) then a.job.progressSummary else Some(Given("canceled_before_run"))))
  }

  function Cancel(e: Records, n: nat, jobId: string): (Records, Reply) {
    if jobId !in e.jobs then (e, NotOk)
    else
      var a := e.jobs[jobId];
      if TerminalJob(a.job.status) then (e, Has(a))
      else if Truthy(a.runId) then (e.(calls := e.calls[n := Asking(a)]), Waiting)
      else if !CanTransitionJob(a.job.status, JobCanceled) then (e, NotOk)
      else (e.(jobs := e.jobs[jobId := CanceledLocally(a)]), Has(CanceledLocally(a)))
  }

  /** The runtime answers a call, or the call throws. */
  function Answered(rules: Rules, e: Records, n: nat, answer: Option<Snapshot>): (Records, Reply)
    requires n in e.calls
  {
    var base := BaseOf(e.calls[n]);
    var e1 := e.(calls := e.calls - {n});
    if answer.None? || !Identified(base, answer.value) then (e1, NotOk)
    else
      var a := ApplySnapshot(rules, base, answer.value);
      (e1.(jobs := e1.jobs[a.job.jobId := a]), Has(a))
  }

  datatype Step =
    | XCreate(op: nat, input: CreateInput)
    | XRead(op: nat, jobId: string, refresh: bool)
    | XCancel(op: nat, jobId: string)
    | XAnswered(op: nat, answer: Option<Snapshot>)

  predicate Enabled(e: Records, st: Step) {
    if st.XAnswered? then st.op in e.calls else st.op !in e.calls
  }

  function Perform(rules: Rules, e: Records, st: Step): (Records, Reply)
    requires Enabled(e, st)
  {
    match st
    case XCreate(n, input) => Create(rules, e, n, input)
    case XRead(n, jobId, refresh) => Read(e, n, jobId, refresh)
    case XCancel(n, jobId) => Cancel(e, n, jobId)
    case XAnswered(n, answer) => Answered(rules, e, n, answer)
  }

  /** The job a step is about. */
  function JobOf(e: Records, st: Step): string
    requires Enabled(e, st)
  {
    match st
    case XCreate(_, input) => input.jobId
    case XRead(_, jobId, _) => jobId
    case XCancel(_, jobId) => jobId
    case XAnswered(n, _) => e.calls[n].JobId()
  }

  // ----- the store as an object -----

  class AdapterJobStore {
    var jobs: map<string, AdapterJob>
    var calls: map<nat, Call>

    function Value(): Records
      reads this
    {
      Records(jobs, calls)
    }

    constructor ()
      ensures Value() == Records(map[], map[]) && Keyed(Value())
    {
      jobs, calls := map[], map[];
    }

    method CreateAdapterJob(rules: Rules, n: nat, input: CreateInput) returns (reply: Reply)
      requires Keyed(Value())
      modifies this`calls
      ensures (Value(), reply) == Create(rules, old(Value()), n, input)
      ensures Keyed(Value()) && (reply.Has? ==> reply.a.job.jobId == input.jobId)
    {
      if !ValidInput(rules, input) {
        return NotOk;
      }
      if input.jobId in jobs {
        var existing := jobs[input.jobId];
        return if SameOrder(existing, input) then Has(existing) else NotOk;
      }
      calls := calls[n := Creating(input)];
      return Waiting;
    }

    method CancelAdapterJob(n: nat, jobId: string) returns (reply: Reply)
      requires Keyed(Value())
      modifies this
      ensures (Value(), reply) == Cancel(old(Value()), n, jobId)
      ensures Keyed(Value()) && (reply.Has? ==> reply.a.job.jobId == jobId && TerminalJob(reply.a.job.status))
    {
      if jobId !in jobs {
        return NotOk;
      }
      var existing := jobs[jobId];
      if TerminalJob(existing.job.status) {
        return Has(existing);
      }
      if !Truthy(existing.runId) {
        if !CanTransitionJob(existing.job.status, JobCanceled) {
          return NotOk;
        }
        var canceled := CanceledLocally(existing);
        jobs := jobs[jobId := canceled];
        return Has(canceled);
      }
      calls := calls[n := Asking(existing)];
      return Waiting;
    }

    /** What every call does with the runtime's answer. */
    method TakeAnswer(rules: Rules, n: nat, answer: Option<Snapshot>) returns (reply: Reply)
      requires Keyed(Value()) && n in calls
      modifies this
      ensures (Value(), reply) == Answered(rules, old(Value()), n, answer)
      ensures Keyed(Value()) && (reply.Has? ==> reply.a.job.jobId == old(calls[n].JobId()))
    {
      var call := calls[n];
      calls := calls - {n};
      var base := BaseOf(call);
      if answer.None? || !Identified(base, answer.value) {
        return NotOk;
      }
      MergeKeepsFinal(rules, base, answer.value);
      var job := ApplyRunSnapshotToJob(rules, base, answer.value);
      hide ApplySnapshot, Identified;
      jobs := jobs[job.job.jobId := job];
      return Has(job);
    }
  }

  // ----- any interleaving -----

  predicate Keyed(e: Records) {
    forall j :: j in e.jobs ==> e.jobs[j].job.jobId == j
  }

  /** Records stay under their own id and none is forgotten; a step writes the record of its own job only, and
      its reply is about that job. */
  lemma StepIsAboutOneJob(rules: Rules, e: Records, st: Step)
    requires Keyed(e) && Enabled(e, st)
    ensures var (e', reply) := Perform(rules, e, st);
      && Keyed(e')
      && (forall j :: j in e.jobs ==> j in e'.jobs)
      && (forall j :: j != JobOf(e, st) && j in e'.jobs ==> j in e.jobs && e'.jobs[j] == e.jobs[j])
      && (reply.Has? ==> reply.a.job.jobId == JobOf(e, st) && JobOf(e, st) in e'.jobs && e'.jobs[JobOf(e, st)] == reply.a)
  {
    if st.XAnswered? && st.answer.Some? {
      MergeKeepsFinal(rules, BaseOf(e.calls[st.op]), st.answer.value);
    }
    hide ApplySnapshot, ValidInput, Identified, SameOrder, CanceledLocally;
  }

  /** The step is the answer to a call that found the job with another status than it has now, and what it found was
      terminal already or the verdict on the answer is another status than the present one. */
  predicate Overtaken(rules: Rules, e: Records, st: Step, j: string)
    requires j in e.jobs
  {
    && st.XAnswered? && st.op in e.calls && e.calls[st.op].JobId() == j && st.answer.Some?
    && Identified(BaseOf(e.calls[st.op]), st.answer.value)
    && BaseOf(e.calls[st.op]).job.status != e.jobs[j].job.status
    && (|| TerminalJob(BaseOf(e.calls[st.op]).job.status)
        || rules.decide(BaseOf(e.calls[st.op]), st.answer.value).status != e.jobs[j].job.status)
  }

  /** A failed or canceled record changes its status exactly by the answer to a call that was overtaken. */
  lemma FinalStatusLostExactly(rules: Rules, e: Records, st: Step, j: string)
    requires Keyed(e) && Enabled(e, st) && j in e.jobs && (e.jobs[j].job.status == Failed || e.jobs[j].job.status == JobCanceled)
    ensures j in Perform(rules, e, st).0.jobs
    ensures Perform(rules, e, st).0.jobs[j].job.status != e.jobs[j].job.status <==> Overtaken(rules, e, st, j)
  {
    StepIsAboutOneJob(rules, e, st);
    if st.XAnswered? && st.answer.Some? {
      MergeKeepsFinal(rules, BaseOf(e.calls[st.op]), st.answer.value);
    }
    hide ValidInput, Identified, SameOrder, CanceledLocally;
  }

  /** It does happen: while a read waits for the runtime, a cancellation of the same job is answered as canceled;
      then the read's older answer puts the job back to running. */
  lemma OverlappingReadUndoesCancellation(rules: Rules, e: Records, j: string, r: nat, c: nat, early: Snapshot, stopped: Snapshot)
    requires Keyed(e) && e.calls == map[] && r != c && j in e.jobs && e.jobs[j].job.status == JobRunning && Truthy(e.jobs[j].runId)
    requires Identified(e.jobs[j], early) && Identified(e.jobs[j], stopped)
    requires rules.decide(e.jobs[j], early).status == JobRunning && rules.decide(e.jobs[j], stopped).status == JobCanceled
    ensures var e1 := Perform(rules, e, XRead(r, j, true)).0;
      && Enabled(e1, XCancel(c, j)) && (var e2 := Perform(rules, e1, XCancel(c, j)).0;
      && Enabled(e2, XAnswered(c, Some(stopped))) && (var e3 := Perform(rules, e2, XAnswered(c, Some(stopped))).0;
      && j in e3.jobs && e3.jobs[j].job.status == JobCanceled
      && Enabled(e3, XAnswered(r, Some(early)))
      && j in Perform(rules, e3, XAnswered(r, Some(early))).0.jobs
      && Perform(rules, e3, XAnswered(r, Some(early))).0.jobs[j].job.status == JobRunning))
  {
  }

  // ----- what each call does, exactly -----

  /** An order names job, affair and goal, and some permissions, all of them known. */
  predicate IsOrder(rules: Rules, input: CreateInput) {
    && SaysSomething(input.jobId) && SaysSomething(input.affairId) && SaysSomething(input.goal) && |input.allowedPermissions| > 0
    && forall i :: 0 <= i < |input.allowedPermissions| ==> SaysSomething(input.allowedPermissions[i]) && rules.known(input.allowedPermissions[i])
  }

  /** The record was made for the same affair, goal and purpose, a missing purpose meaning execution. */
  predicate MadeFor(job: Job, input: CreateInput) {
    && job.affairId == input.affairId && job.goal == input.goal
    && (job.purpose == Some(Exploration) <==> input.purpose == Some(Exploration))
  }

  predicate HasRun(a: AdapterJob) {
    a.runId.Some? && a.runId.value != ""
  }

  lemma OrdersExactly(rules: Rules, input: CreateInput)
    ensures ValidInput(rules, input) <==> IsOrder(rules, input)
  {
    BlankSaysNothing(input.jobId);
    BlankSaysNothing(input.affairId);
    BlankSaysNothing(input.goal);
    forall i | 0 <= i < |input.allowedPermissions| ensures Blank(input.allowedPermissions[i]) <==> !SaysSomething(input.allowedPermissions[i]) {
      BlankSaysNothing(input.allowedPermissions[i]);
    }
    hide Blank, SaysSomething;
  }

  /** The record that a first answer is merged into: queued, with nothing to show and no run. */
  predicate IsBlankRecord(a: AdapterJob, input: CreateInput) {
    && a.runId.None? && a.job.jobId == input.jobId && a.job.affairId == input.affairId && a.job.goal == input.goal && a.job.status == Queued
    && a.job.purpose == Some(if input.purpose.Some? then input.purpose.value else Execution) && a.job.allowedPermissions == input.allowedPermissions
    && a.job.evidenceQuality == Some(Missing) && a.job.progressSummary == Some(Given("")) && a.job.recentSteps == [] && a.job.rest == input.rest
    && a.job.resultDigest.None? && a.job.blockedReason.None? && a.job.resumeCondition.None? && a.job.permissionRequestId.None?
    && a.job.taskIntentId.None? && a.job.statusReasonCode.None?
  }

  /** The runtime is asked exactly for a new order, a refreshing read of a job with a run, and the cancellation of a job with a run that is
      not over. Everything else is answered from the records: a repeated order and a read with the present record, a changed
      order and an unknown job not at all, and a cancellation of a job that was never run by canceling it here. */
  lemma AskedExactly(rules: Rules, e: Records, st: Step)
    requires Keyed(e) && Enabled(e, st) && !st.XAnswered?
    ensures var (e', reply) := Perform(rules, e, st);
      var j := JobOf(e, st);
      var asks := if st.XCreate? then IsOrder(rules, st.input) && j !in e.jobs
                  else j in e.jobs && HasRun(e.jobs[j]) && (if st.XRead? then st.refresh else e.jobs[j].job.status !in {Completed, Failed, JobCanceled});
      var here := st.XCancel? && j in e.jobs && !HasRun(e.jobs[j]) && e.jobs[j].job.status !in {Completed, Failed, JobCanceled};
      && (asks <==> reply == Waiting)
      && e'.calls == (if asks then e.calls[st.op := if st.XCreate? then Creating(st.input) else Asking(e.jobs[j])] else e.calls)
      && (if here then j in e'.jobs && e'.jobs == e.jobs[j := e'.jobs[j]] && StoppedHere(e.jobs[j], e'.jobs[j]) && reply == Has(e'.jobs[j])
          else
            && e'.jobs == e.jobs
            && (reply.Has? <==> !asks && j in e.jobs && (st.XCreate? ==> IsOrder(rules, st.input) && MadeFor(e.jobs[j].job, st.input)))
            && (reply.Has? ==> reply.a == e.jobs[j]))
  {
    if st.XCreate? {
      OrdersExactly(rules, st.input);
    }
    hide ValidInput, IsOrder;
  }

  predicate StoppedHere(before: AdapterJob, after: AdapterJob) {
    && after.runId == before.runId && after.job.status == JobCanceled
    && after.job == before.job.(status := JobCanceled, statusReasonCode := after.job.statusReasonCode, progressSummary := after.job.progressSummary)
    && after.job.statusReasonCode.Some? && after.job.progressSummary.Some?
    && (before.job.progressSummary.Some? && before.job.progressSummary.value != Given("") ==> after.job.progressSummary == before.job.progressSummary)
  }

  /** An answer is taken exactly if there is one, it comes from the run that the call knows, if it knows one, and its evidence is of this
      job. Then the merge of it into what the call found, or into a blank record, is stored and returned. */
  lemma AnswerTakenExactly(rules: Rules, e: Records, st: Step)
    requires Enabled(e, st) && st.XAnswered?
    ensures var (e', reply) := Perform(rules, e, st);
      var base := BaseOf(e.calls[st.op]);
      && (e.calls[st.op].Creating? ==> IsBlankRecord(base, e.calls[st.op].input))
      && (e.calls[st.op].Asking? ==> base == e.calls[st.op].base)
      && e'.calls == e.calls - {st.op}
      && (if st.answer.Some? && (HasRun(base) ==> base.runId.value == st.answer.value.runId) && st.answer.value.ofThisJob
          then var a := ApplySnapshot(rules, base, st.answer.value); reply == Has(a) && e'.jobs == e.jobs[base.job.jobId := a]
          else reply == NotOk && e'.jobs == e.jobs)
  {
    if st.answer.Some? {
      MergeKeepsFinal(rules, BaseOf(e.calls[st.op]), st.answer.value);
    }
    hide ApplySnapshot;
  }

  // ----- calls that take turns -----

  predicate Busy(e: Records, j: string) {
    exists n :: n in e.calls && e.calls[n].JobId() == j
  }

  /** Calls about one job do not overlap, and a waiting call still has the present record as its base. */
  ghost predicate InTurn(e: Records) {
    && Keyed(e)
    && (forall n, m :: n in e.calls && m in e.calls && e.calls[n].JobId() == e.calls[m].JobId() ==> n == m)
    && (forall n :: n in e.calls ==> BaseIsCurrent(e, e.calls[n]))
  }

  predicate BaseIsCurrent(e: Records, call: Call) {
    match call
    case Creating(input) => input.jobId !in e.jobs
    case Asking(base) => base.job.jobId in e.jobs && e.jobs[base.job.jobId] == base
  }

  predicate TakesTurn(e: Records, st: Step)
    requires Enabled(e, st)
  {
    st.XAnswered? || !Busy(e, JobOf(e, st))
  }

  lemma StepKeepsTurns(rules: Rules, e: Records, st: Step)
    requires InTurn(e) && Enabled(e, st) && TakesTurn(e, st)
    ensures InTurn(Perform(rules, e, st).0)
  {
    StepIsAboutOneJob(rules, e, st);
    CallsAfter(rules, e, st);
    var e' := Perform(rules, e, st).0;
    hide Perform;
    forall n | n in e'.calls ensures BaseIsCurrent(e', e'.calls[n]) {
      if n in e.calls {
        assert BaseIsCurrent(e, e.calls[n]);
        assert e.calls[n].JobId() != JobOf(e, st);
      }
    }
  }

  lemma CallsAfter(rules: Rules, e: Records, st: Step)
    requires Keyed(e) && Enabled(e, st)
    ensures var e' := Perform(rules, e, st).0;
      && (forall n :: n in e'.calls ==> (n in e.calls && e'.calls[n] == e.calls[n] && (st.XAnswered? ==> n != st.op))
                                        || (!st.XAnswered? && n == st.op && e'.calls[n].JobId() == JobOf(e, st) && BaseIsCurrent(e', e'.calls[n])))
  {
    hide ApplySnapshot, ValidInput, Identified, SameOrder, CanceledLocally;
  }

  /** The step repairs the hollow completion of the job's present record. */
  predicate Repairs(rules: Rules, e: Records, st: Step, j: string) {
    && st.XAnswered? && st.op in e.calls && e.calls[st.op].JobId() == j && st.answer.Some? && j in e.jobs
    && IsHollowCompletedRepair(rules, e.jobs[j], rules.decide(e.jobs[j], st.answer.value))
  }

  lemma StepMovesStatus(rules: Rules, e: Records, st: Step, j: string)
    requires InTurn(e) && Enabled(e, st) && j in e.jobs
    ensures j in Perform(rules, e, st).0.jobs
    ensures var s, t := e.jobs[j].job.status, Perform(rules, e, st).0.jobs[j].job.status;
      && (s == Failed || s == JobCanceled ==> t == s)
      && (s == Completed && t != s ==> Repairs(rules, e, st, j))
      && JobReachable(s, t)
  {
    hide ApplySnapshot, ValidInput, Identified, SameOrder, JobReachable, IsHollowCompletedRepair;
    StepIsAboutOneJob(rules, e, st);
    var s := e.jobs[j].job.status;
    JobReachableExactly(s, s);
    JobReachableExactly(s, JobCanceled);
    if st.XAnswered? {
      assert BaseIsCurrent(e, e.calls[st.op]);
      if st.answer.Some? {
        MergeKeepsFinal(rules, BaseOf(e.calls[st.op]), st.answer.value);
        VerdictAdoptedExactly(rules, BaseOf(e.calls[st.op]), st.answer.value);
      }
    }
    hide InTurn;
  }

  ghost predicate IsTurnRun(rules: Rules, es: seq<Records>, steps: seq<Step>) {
    && |es| == |steps| + 1 && InTurn(es[0])
    && forall i :: 0 <= i < |steps| ==> Enabled(es[i], steps[i]) && TakesTurn(es[i], steps[i]) && es[i + 1] == Perform(rules, es[i], steps[i]).0
  }

  lemma {:induction false} RunKeepsTurns(rules: Rules, es: seq<Records>, steps: seq<Step>, n: nat)
    requires IsTurnRun(rules, es, steps) && n < |es|
    ensures InTurn(es[n])
  {
    hide Enabled, Perform, InTurn, TakesTurn;
    if n > 0 {
      RunKeepsTurns(rules, es, steps, n - 1);
      StepKeepsTurns(rules, es[n - 1], steps[n - 1]);
    }
  }

  /** If the calls about a job take turns, its record is never forgotten, a failed or canceled one stays so for
      good, a completed one stays so until a hollow completion is repaired, and every later status can be reached
      in the job table. */
  lemma {:induction false} RecordsStayFinal(rules: Rules, es: seq<Records>, steps: seq<Step>, j: string, i: nat, k: nat)
    requires IsTurnRun(rules, es, steps) && i <= k < |es| && j in es[i].jobs
    ensures j in es[k].jobs
    ensures var s, t := es[i].jobs[j].job.status, es[k].jobs[j].job.status;
      && (s == Failed || s == JobCanceled ==> t == s)
      && (s == Completed ==> t == s || exists m :: i <= m < k && Repairs(rules, es[m], steps[m], j))
      && JobReachable(s, t)
    decreases k
  {
    hide Enabled, Perform, InTurn, TakesTurn, JobReachable, Repairs;
    JobReachableExactly(es[i].jobs[j].job.status, es[i].jobs[j].job.status);
    if i < k {
      RecordsStayFinal(rules, es, steps, j, i, k - 1);
      RunKeepsTurns(rules, es, steps, k - 1);
      StepMovesStatus(rules, es[k - 1], steps[k - 1], j);
      ReachableTwice(es[i].jobs[j].job.status, es[k - 1].jobs[j].job.status, es[k].jobs[j].job.status);
    }
  }
}
