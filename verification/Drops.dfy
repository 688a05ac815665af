/** Exactly when a held result is lost, and when results of a job are tried out of order: an answer comes, or a call
    drops the job's entry, after another result came to be held or was tried while that very call was suspended. The
    operation queue makes ticks, restores, cancellations asked for by the phone or by a close, and the grants of
    requests that name their affair take turns; rejections, cancellations after unpairing and unnamed requests do not
    queue, and they are what is left. */
module Drops {
  import opened Option
  import opened JsMap
  import opened Status
  import opened Types
  import opened Store
  import opened Publisher
  import opened Polling
  import opened Delegation
  import opened AtMostOnce
  import opened Retained
  import opened Turns

  // ----- one step -----

  /** The step puts a result about the job in the place of the held one that was asked for before it. */
  ghost predicate OlderReplaces(w: World, st: Step, j: string, pub: Publication)
    requires Enabled(w, st)
  {
    Handed(w, st).Some? && JobOf(w, st) == j && Moment(w, st) < pub.asOf
  }

  /** The step loses the held publication: it is neither held any longer, nor committed by its own tick, nor
      followed by a result of the job that was asked for no earlier. */
  ghost predicate Lost(w: World, st: Step, j: string, pub: Publication)
    requires Enabled(w, st)
  {
    && !Held(Next(w, st).p, j, pub)
    && !(st.STickStarts? && JobOf(w, st) == j && TryCommit(w.p, pub, st.x).1)
    && !(Handed(w, st).Some? && JobOf(w, st) == j && pub.asOf <= Moment(w, st))
  }

  lemma DroppedIsNotHeld(w: World, st: Step, j: string, pub: Publication)
    requires WorldOk(w) && Enabled(w, st) && DropsEntry(w, st) && JobOf(w, st) == j
    ensures Handed(w, st).None? && !st.STickStarts? && !Held(Next(w, st).p, j, pub)
  {
    if st.SCachedResumes? {
      CachedJobIs(w, st.op, st.cached);
    }
    if st.SCreateReturns? {
      assert OpOk(w, w.ops[st.op]);
    }
    hide Accept, AcceptFailure, FreshPorts, CanExecute, Spend, OutsideOk, WorldOk, PublishCreated, TryCommit;
  }

  lemma OlderIsNotIt(w: World, st: Step, j: string, pub: Publication)
    requires WorldOk(w) && Enabled(w, st) && OlderReplaces(w, st, j, pub)
    ensures !st.STickStarts? && !Held(Next(w, st).p, j, pub)
  {
    hide WorldOk, TryCommit, Next, Enabled;
    EveryResultIsKept(w, st);
    HandedIsAboutJob(w, st);
  }

  /** A held publication is lost by a step exactly if the step drops its job's entry, or puts an older result of
      the job in its place. */
  lemma LostExactlyByStep(w: World, st: Step, j: string, pub: Publication)
    requires WorldOk(w) && TrackOk(w) && Enabled(w, st) && Held(w.p, j, pub)
    ensures Lost(w, st, j, pub) <==> (DropsEntry(w, st) && JobOf(w, st) == j) || OlderReplaces(w, st, j, pub)
  {
    hide WorldOk, TrackOk, TryCommit, Next, Enabled, Handed, DropsEntry;
    HeldUntilCommittedOrReplaced(w, st, j, pub);
    if DropsEntry(w, st) && JobOf(w, st) == j {
      DroppedIsNotHeld(w, st, j, pub);
    }
    if OlderReplaces(w, st, j, pub) {
      OlderIsNotIt(w, st, j, pub);
    }
  }

  // ----- where a held result came from -----

  /** A publication that is held after a step and was not before came in that step: it was handed over and not
      committed, or a tick has just read it. */
  lemma NewlyHeld(w: World, st: Step, j: string, pub: Publication)
    requires WorldOk(w) && TrackOk(w) && Enabled(w, st) && Held(Next(w, st).p, j, pub) && !Held(w.p, j, pub)
    ensures JobOf(w, st) == j
    ensures st.STickResumes?
      || (Handed(w, st).Some? && (var (base, p, x) := Handed(w, st).value; p == pub && !TryCommit(base, pub, x).1))
  {
    hide TryCommit, FreshPorts, OutsideOk, SameElsewhere, TrackOk, WorldOk, Next, Enabled, Handed;
    StepTouchesOneJob(w, st);
    SameEntryElsewhere(w.p, Next(w, st).p, JobOf(w, st), j, pub);
    if Handed(w, st).Some? {
      EveryResultIsKept(w, st);
      HandedIsAboutJob(w, st);
    } else if !st.STickResumes? {
      NothingNewWithoutResult(w, st, j, pub);
    }
  }

  lemma SameEntryElsewhere(p: Polls, p': Polls, k: string, j: string, pub: Publication)
    requires SameElsewhere(p, p', k)
    ensures j != k ==> (Held(p', j, pub) <==> Held(p, j, pub))
  {
  }

  lemma NothingNewWithoutResult(w: World, st: Step, j: string, pub: Publication)
    requires WorldOk(w) && TrackOk(w) && Enabled(w, st) && Handed(w, st).None? && !st.STickResumes? && Held(Next(w, st).p, j, pub)
    ensures Held(w.p, j, pub)
  {
    hide TryCommit, Accept, AcceptFailure, FreshPorts, OutsideOk, TrackOk, CreateReturns, RegisteredResumes, CachedResumes, TickStarts, Grant;
    if st.STickStarts? {
      TickHoldsNothingNew(w, st.op, st.x, j, pub);
    } else if st.SCreateReturns? {
      CreateHoldsNothingNew(w, st, j, pub);
    } else if st.SRegisteredResumes? {
      RegisteredTouches(w, st);
    } else if st.SCachedResumes? {
      CachedHoldsNothingNew(w, st, j, pub);
    } else if st.SGrant? {
      GrantHoldsNothingNew(w, st, j, pub);
    }
    hide WorldOk;
  }

  lemma TickHoldsNothingNew(w: World, n: nat, x: Ports, j: string, pub: Publication)
    requires WorldOk(w) && n in w.ops && w.ops[n].TickQueued? && Held(TickStarts(w, n, x).p, j, pub)
    ensures Held(w.p, j, pub)
  {
    var TickQueued(k, pid) := w.ops[n];
    if Live(w.p, k, pid) && w.p.active[k].poll.pending.Some? {
      AboutOf(w);
      assert PollAbout(w.p.active[k].poll, k);
      RetryEffect(w.p, k, x);
      hide Retry, TryCommit;
    }
  }

  lemma CreateHoldsNothingNew(w: World, st: Step, j: string, pub: Publication)
    requires WorldOk(w) && Enabled(w, st) && st.SCreateReturns? && Handed(w, st).None? && Held(Next(w, st).p, j, pub)
    ensures Held(w.p, j, pub)
  {
    assert OpOk(w, w.ops[st.op]);
    hide FreshPorts, CanExecute, Spend, OutsideOk, WorldOk, PublishCreated, Accept;
  }

  lemma CachedHoldsNothingNew(w: World, st: Step, j: string, pub: Publication)
    requires Enabled(w, st) && st.SCachedResumes? && Handed(w, st).None? && Held(Next(w, st).p, j, pub)
    ensures Held(w.p, j, pub)
  {
    hide FreshPorts, OutsideOk, AcceptFailure;
  }

  lemma GrantHoldsNothingNew(w: World, st: Step, j: string, pub: Publication)
    requires Enabled(w, st) && st.SGrant? && Handed(w, st).None? && Held(Next(w, st).p, j, pub)
    ensures Held(w.p, j, pub)
  {
    hide FreshPorts, OutsideOk, AcceptFailure, CanExecute, AllGranted, Blank;
  }

  // ----- how calls go on -----

  /** The step begins call `n`, which then is `o`. */
  predicate Begun(w: World, st: Step, n: nat, o: Op) {
    || (st.SGrant? && st.op == n && (o.AwaitCreate? || o.CreateSettled?) && o.since == w.clock
        && st.requestId in w.p.s.gate.requests.data && o.request == w.p.s.gate.requests.data[st.requestId])
    || (st.SRestore? && st.op == n && o == AwaitRestore(st.jobId, w.clock) && st.jobId !in w.p.active)
    || (st.SCancel? && st.op == n && o.AwaitRegistered? && o.jobId == st.jobId && o.since == w.clock && o.queued == st.queued)
    || (st.SSchedule? && o.TickQueued?)
  }

  /** The step is the next piece of call `n`, which then waits as `o`. */
  predicate Continued(w: World, st: Step, n: nat, o: Op) {
    && n in w.ops && o.JobId() == w.ops[n].JobId()
    && (|| (st.SRunCreated? && st.op == n && w.ops[n].AwaitCreate? && o.CreateSettled? && o.request == w.ops[n].request && o.since == w.ops[n].since)
        || (st.SRestoreResumes? && st.op == n && w.ops[n].AwaitRestore? && o.AwaitCached? && o.since == w.ops[n].since)
        || (st.SCreateReturns? && st.op == n && w.ops[n].CreateSettled? && o.AwaitRegistered? && o.since == w.clock && o.queued == !Unnamed(w.ops[n].request))
        || (st.SRegisteredResumes? && st.op == n && w.ops[n].AwaitRegistered? && o.AwaitCancel? && o.since == w.clock && o.queued == w.ops[n].queued)
        || (st.STickStarts? && st.op == n && w.ops[n].TickQueued? && o.AwaitTick? && o.since == w.clock))
  }

  /** A suspended call is what it was before the step, or the step began it, or the step is its next piece. */
  lemma CallAfter(w: World, st: Step, n: nat)
    requires Enabled(w, st) && n in Next(w, st).ops
    ensures (n in w.ops && Next(w, st).ops[n] == w.ops[n]) || Begun(w, st, n, Next(w, st).ops[n]) || Continued(w, st, n, Next(w, st).ops[n])
  {
    hide Accept, AcceptFailure, FreshPorts, CanExecute, OutsideOk, AllGranted, Blank, TryCommit, PublishCreated, Publish, ProjectToPhone, TickStart, TickResume,
      Track, Spend, HasStatus, Restorable, CanceledBefore, Schedule, FailureFor, Dropped;
  }

  lemma EnabledBegins(w: World, st: Step, n: nat)
    requires Enabled(w, st) && n in w.ops
    ensures (st.SGrant? || st.SRestore? || st.SCancel?) ==> st.op != n
  {
  }

  lemma BegunCreateHoldsNothing(w: World, st: Step, j: string, pub: Publication)
    requires Enabled(w, st) && st.SGrant? && st.op in Next(w, st).ops && Next(w, st).ops[st.op].JobId() == j
    ensures !Held(Next(w, st).p, j, pub)
  {
    hide AcceptFailure, FreshPorts, CanExecute, AllGranted, Blank, HasStatus;
  }

  lemma RestoreChangesNoPoll(w: World, st: Step)
    requires Enabled(w, st) && st.SRestore?
    ensures Next(w, st).p == w.p
  {
  }

  // ----- whole runs -----

  /** The suspended calls that can still drop an entry; each began when nothing was held. */
  predicate Droppable(o: Op) {
    o.AwaitCreate? || o.CreateSettled? || o.AwaitRestore? || o.AwaitCached?
  }

  predicate UnderWay(w: World, n: nat, j: string) {
    n in w.ops && (Droppable(w.ops[n]) || w.ops[n].AwaitCancel?) && w.ops[n].JobId() == j
  }

  /** At step `m`, while call `n` about the job is suspended and stays so, `pub` comes to be held. */
  ghost predicate ComesAt(ws: seq<World>, m: nat, n: nat, j: string, pub: Publication) {
    m + 1 < |ws| && UnderWay(ws[m], n, j) && UnderWay(ws[m + 1], n, j) && !Held(ws[m].p, j, pub) && Held(ws[m + 1].p, j, pub)
  }

  ghost predicate AllAlong(ws: seq<World>, m: nat, i: nat, n: nat, j: string) {
    m <= i < |ws| && forall k :: m <= k <= i ==> UnderWay(ws[k], n, j)
  }

  ghost predicate CameMeanwhile(ws: seq<World>, i: nat, n: nat, j: string, pub: Publication) {
    exists m :: 0 <= m < i && ComesAt(ws, m, n, j, pub) && AllAlong(ws, m, i, n, j)
  }

  /** The call can lose `pub`: it can drop the entry, or its answer is older. */
  predicate CanLose(w: World, n: nat, j: string, pub: Publication) {
    UnderWay(w, n, j) && (Droppable(w.ops[n]) || w.ops[n].since < pub.asOf)
  }

  /** Such a call was there before; or it begins, and then nothing newer is held. */
  lemma UnderWayBefore(w: World, st: Step, n: nat, j: string, pub: Publication)
    requires WorldOk(w) && TrackOk(w) && Enabled(w, st) && CanLose(Next(w, st), n, j, pub) && Held(Next(w, st).p, j, pub)
    ensures CanLose(w, n, j, pub)
  {
    hide TrackOk, WorldOk, Next, Enabled, Held, CanLose, Begun, Continued;
    NextKeepsTracks(w, st);
    HeldBefore(Next(w, st), j, pub);
    LoserIsThere(Next(w, st), n, j, pub);
    CallAfter(w, st, n);
    ClockMoves(w, st);
    if Next(w, st).ops[n] == GetOp(w, n) {
      SameLoser(w, Next(w, st), n, j, pub);
    } else if Begun(w, st, n, Next(w, st).ops[n]) {
      BegunLosesNothing(w, st, n, j, pub);
    } else {
      ContinuedLoser(w, Next(w, st), st, n, j, pub);
    }
  }

  function GetOp(w: World, n: nat): Op {
    if n in w.ops then w.ops[n] else TickQueued("", 0)
  }

  lemma LoserIsThere(w: World, n: nat, j: string, pub: Publication)
    requires CanLose(w, n, j, pub)
    ensures n in w.ops && !w.ops[n].TickQueued?
  {
  }

  lemma SameLoser(w: World, w': World, n: nat, j: string, pub: Publication)
    requires CanLose(w', n, j, pub) && w'.ops[n] == GetOp(w, n)
    ensures CanLose(w, n, j, pub)
  {
  }

  lemma ContinuedLoser(w: World, w': World, st: Step, n: nat, j: string, pub: Publication)
    requires CanLose(w', n, j, pub) && Continued(w, st, n, w'.ops[n]) && pub.asOf <= w.clock
    ensures CanLose(w, n, j, pub)
  {
  }

  lemma BegunLosesNothing(w: World, st: Step, n: nat, j: string, pub: Publication)
    requires Enabled(w, st) && n in Next(w, st).ops && Begun(w, st, n, Next(w, st).ops[n]) && CanLose(Next(w, st), n, j, pub)
    ensures !Held(Next(w, st).p, j, pub)
  {
    hide Next, Enabled;
    if st.SGrant? {
      BegunCreateHoldsNothing(w, st, j, pub);
    } else if st.SRestore? {
      RestoreChangesNoPoll(w, st);
    }
  }

  lemma HeldBefore(w: World, j: string, pub: Publication)
    requires TrackOk(w) && Held(w.p, j, pub)
    ensures pub.asOf < w.clock
  {
    assert EntryOk(w.p, w.clock, j);
  }

  lemma ClockMoves(w: World, st: Step)
    requires Enabled(w, st)
    ensures w.clock <= Next(w, st).clock <= w.clock + 1
  {
    hide Accept, AcceptFailure, FreshPorts, CanExecute, OutsideOk, AllGranted, Blank, TryCommit, PublishCreated, Publish, ProjectToPhone, TickStart, TickResume,
      Track, Spend, HasStatus, Restorable, CanceledBefore, Schedule, FailureFor, Dropped;
  }

  /** What is held while such a call is suspended came after the call had begun. */
  lemma {:induction false} HeldCameMeanwhile(ws: seq<World>, steps: seq<Step>, i: nat, n: nat, j: string, pub: Publication)
    requires IsFreshRun(ws, steps) && i < |ws| && CanLose(ws[i], n, j, pub) && Held(ws[i].p, j, pub)
    ensures CameMeanwhile(ws, i, n, j, pub)
  {
    hide Enabled, Next, Held, UnderWay, TrackOk, WorldOk;
    if i == 0 {
      NothingHeldAtFirst(ws, steps, j, pub);
    } else {
      RunKeepsTracks(ws, steps, i - 1);
      UnderWayBefore(ws[i - 1], steps[i - 1], n, j, pub);
      if Held(ws[i - 1].p, j, pub) {
        HeldCameMeanwhile(ws, steps, i - 1, n, j, pub);
        Later(ws, i - 1, n, j, pub);
      } else {
        assert ComesAt(ws, i - 1, n, j, pub) && AllAlong(ws, i - 1, i, n, j);
      }
    }
  }

  lemma Later(ws: seq<World>, i: nat, n: nat, j: string, pub: Publication)
    requires CameMeanwhile(ws, i, n, j, pub) && i + 1 < |ws| && UnderWay(ws[i + 1], n, j)
    ensures CameMeanwhile(ws, i + 1, n, j, pub)
  {
    hide UnderWay, ComesAt;
    var m :| 0 <= m < i && ComesAt(ws, m, n, j, pub) && AllAlong(ws, m, i, n, j);
    assert AllAlong(ws, m, i + 1, n, j);
  }

  lemma NothingHeldAtFirst(ws: seq<World>, steps: seq<Step>, j: string, pub: Publication)
    requires IsFreshRun(ws, steps)
    ensures !Held(ws[0].p, j, pub)
  {
  }

  /** The steps that can lose a held result. */
  predicate OfCall(st: Step) {
    st.SCreateThrows? || st.SCreateReturns? || st.SRestoreResumes? || st.SCachedResumes? || st.SCancelResumes?
  }

  lemma LoserIsUnderWay(w: World, st: Step, j: string, pub: Publication)
    requires TrackOk(w) && Enabled(w, st) && Held(w.p, j, pub) && (OlderReplaces(w, st, j, pub) || (DropsEntry(w, st) && JobOf(w, st) == j))
    ensures OfCall(st) && CanLose(w, st.op, j, pub)
  {
    assert EntryOk(w.p, w.clock, j);
    hide TrackOk, FreshPorts, CanExecute, OutsideOk, TryCommit, Judge;
  }

  /** In any run, whatever its calls and their order: a held publication is lost exactly by a step that drops its
      job's entry (an exception of the create call, the withdrawal of a created run, a restore whose read failed for
      the moment with a record to fall back on), or by one that puts a result in its place which was asked for
      earlier; and then it came to be held while that very call was suspended. */
  lemma LostExactlyWhen(ws: seq<World>, steps: seq<Step>, i: nat, j: string, pub: Publication)
    requires IsFreshRun(ws, steps) && i < |steps| && Held(ws[i].p, j, pub)
    ensures Lost(ws[i], steps[i], j, pub) <==>
      (DropsEntry(ws[i], steps[i]) && JobOf(ws[i], steps[i]) == j) || OlderReplaces(ws[i], steps[i], j, pub)
    ensures Lost(ws[i], steps[i], j, pub) ==> OfCall(steps[i]) && CameMeanwhile(ws, i, steps[i].op, j, pub)
  {
    RunKeepsTracks(ws, steps, i);
    hide WorldOk, TrackOk, Enabled, Next, Held, CanLose, Lost, DropsEntry, CameMeanwhile, JobOf, OlderReplaces;
    LostExactlyByStep(ws[i], steps[i], j, pub);
    if Lost(ws[i], steps[i], j, pub) {
      LoserIsUnderWay(ws[i], steps[i], j, pub);
      HeldCameMeanwhile(ws, steps, i, steps[i].op, j, pub);
    }
  }

  // ----- turns -----

  /** The calls that the operation queue lets through one at a time. */
  predicate Queued(o: Op) {
    || o.AwaitTick? || o.AwaitRestore? || o.AwaitCached?
    || ((o.AwaitCreate? || o.CreateSettled?) && !Unnamed(o.request))
    || ((o.AwaitRegistered? || o.AwaitCancel?) && o.queued)
  }

  predicate Busy(w: World, j: string) {
    exists n :: n in w.ops && Queued(w.ops[n]) && w.ops[n].JobId() == j
  }

  predicate InLine(w: World, st: Step) {
    || st.STickStarts? || st.SRestore? || (st.SCancel? && st.queued)
    || (st.SGrant? && st.requestId in w.p.s.gate.requests.data && !Unnamed(w.p.s.gate.requests.data[st.requestId]))
  }

  /** What the operation queue provides: a tick, a restore, a queued cancellation, or the grant of a request that
      names the job's affair begins only when no other such call about the job is under way. Everything else is
      free to come. */
  predicate TakesTurn(w: World, st: Step) {
    InLine(w, st) ==> !Busy(w, JobOf(w, st))
  }

  predicate OneCallPerJob(w: World) {
    forall n, m :: n in w.ops && m in w.ops && Queued(w.ops[n]) && Queued(w.ops[m]) && w.ops[n].JobId() == w.ops[m].JobId() ==> n == m
  }

  lemma QueuedAfter(w: World, st: Step, n: nat)
    requires Enabled(w, st) && n in Next(w, st).ops && Queued(Next(w, st).ops[n])
    ensures || (n in w.ops && Queued(w.ops[n]) && w.ops[n].JobId() == Next(w, st).ops[n].JobId())
            || (InLine(w, st) && n == st.op && Next(w, st).ops[n].JobId() == JobOf(w, st))
  {
    hide Next, Enabled;
    CallAfter(w, st, n);
  }

  lemma NextKeepsOneCall(w: World, st: Step)
    requires Enabled(w, st) && OneCallPerJob(w) && TakesTurn(w, st)
    ensures OneCallPerJob(Next(w, st))
  {
    var w' := Next(w, st);
    hide Next, Enabled, InLine;
    forall n, m | n in w'.ops && m in w'.ops && Queued(w'.ops[n]) && Queued(w'.ops[m]) && w'.ops[n].JobId() == w'.ops[m].JobId() ensures n == m {
      QueuedAfter(w, st, n);
      QueuedAfter(w, st, m);
    }
  }

  ghost predicate QueuedRun(ws: seq<World>, steps: seq<Step>) {
    IsFreshRun(ws, steps) && forall i :: 0 <= i < |steps| ==> TakesTurn(ws[i], steps[i])
  }

  lemma {:induction false} RunKeepsOneCall(ws: seq<World>, steps: seq<Step>, n: nat)
    requires QueuedRun(ws, steps) && n < |ws|
    ensures OneCallPerJob(ws[n])
  {
    hide Enabled, Next, TakesTurn;
    if n > 0 {
      hide OneCallPerJob;
      RunKeepsOneCall(ws, steps, n - 1);
      NextKeepsOneCall(ws[n - 1], steps[n - 1]);
    }
  }

  /** The steps that bring a result about a job, or drop its entry, without waiting in the line of its affair: a
      rejection, what follows a cancellation that did not queue, and what becomes of a request that names no affair. */
  predicate OutOfLine(w: World, st: Step) {
    || st.SReject? || (st.SGrant? && !InLine(w, st))
    || ((st.SRegisteredResumes? || st.SCancelResumes? || st.SCreateReturns? || st.SCreateThrows?) && st.op in w.ops && !Queued(w.ops[st.op]))
  }

  /** Of all steps that bring a result or drop an entry, the others belong to a queued call about their job. */
  lemma OwnStepOfQueuedCall(w: World, st: Step)
    requires Enabled(w, st) && !OutOfLine(w, st) && (OfCall(st) || st.STickResumes? || st.SRegisteredResumes?)
    ensures st.op in w.ops && Queued(w.ops[st.op]) && w.ops[st.op].JobId() == JobOf(w, st)
  {
    hide FreshPorts, OutsideOk;
  }

  lemma TurnTaken(w: World, st: Step, n: nat)
    requires Enabled(w, st) && OneCallPerJob(w) && TakesTurn(w, st) && !OutOfLine(w, st)
    requires n in w.ops && Queued(w.ops[n]) && w.ops[n].JobId() == JobOf(w, st)
    ensures !InLine(w, st) && (OfCall(st) || st.STickResumes? || st.SRegisteredResumes? ==> st.op == n)
  {
    hide Enabled, InLine, OutOfLine;
    if OfCall(st) || st.STickResumes? || st.SRegisteredResumes? {
      OwnStepOfQueuedCall(w, st);
    }
  }

  lemma StepEndsItsCall(w: World, st: Step)
    requires Enabled(w, st) && (st.STickResumes? || Handed(w, st).Some?) && !st.SGrant? && !st.SReject?
    ensures (OfCall(st) || st.STickResumes?) && st.op !in Next(w, st).ops
  {
    hide Accept, AcceptFailure, FreshPorts, CanExecute, OutsideOk, TryCommit, TickResume, PublishCreated;
  }

  /** A step in line brings nothing while another queued call about the job stays suspended. */
  lemma OnlyOutOfLine(w: World, st: Step, n: nat, j: string, pub: Publication)
    requires WorldOk(w) && TrackOk(w) && Enabled(w, st) && OneCallPerJob(w) && TakesTurn(w, st)
    requires UnderWay(w, n, j) && Queued(w.ops[n]) && UnderWay(Next(w, st), n, j) && !Held(w.p, j, pub) && Held(Next(w, st).p, j, pub)
    ensures OutOfLine(w, st) && JobOf(w, st) == j
  {
    NewlyHeld(w, st, j, pub);
    hide WorldOk, TrackOk, Held, TakesTurn, Next, Enabled, Handed, InLine, OneCallPerJob, TryCommit;
    if !OutOfLine(w, st) {
      TurnTaken(w, st, n);
      if !st.SGrant? && !st.SReject? {
        StepEndsItsCall(w, st);
      }
    }
  }

  ghost predicate ComesOutOfLine(ws: seq<World>, steps: seq<Step>, m: nat, n: nat, j: string, pub: Publication) {
    ComesAt(ws, m, n, j, pub) && m < |steps| && OutOfLine(ws[m], steps[m]) && JobOf(ws[m], steps[m]) == j
  }

  /** A suspended call stays in line or out of it. */
  lemma StaysQueued(w: World, st: Step, n: nat, j: string)
    requires Enabled(w, st) && UnderWay(w, n, j) && UnderWay(Next(w, st), n, j) && Queued(Next(w, st).ops[n])
    ensures Queued(w.ops[n])
  {
    EnabledBegins(w, st, n);
    hide Next, Enabled;
    CallAfter(w, st, n);
  }

  lemma {:induction false} QueuedAllAlong(ws: seq<World>, steps: seq<Step>, m: nat, i: nat, n: nat, j: string)
    requires IsFreshRun(ws, steps) && AllAlong(ws, m, i, n, j) && UnderWay(ws[i], n, j) && Queued(ws[i].ops[n])
    ensures UnderWay(ws[m], n, j) && Queued(ws[m].ops[n])
    decreases i
  {
    hide Enabled, Next, Queued;
    if m < i {
      StaysQueued(ws[i - 1], steps[i - 1], n, j);
      QueuedAllAlong(ws, steps, m, i - 1, n, j);
    }
  }

  lemma LoserInOrOutOfLine(w: World, st: Step)
    requires Enabled(w, st) && OfCall(st)
    ensures OutOfLine(w, st) || (st.op in w.ops && Queued(w.ops[st.op]))
  {
  }

  /** With the operation queue at work, a held publication is lost only out of line: by a step that did not queue, or
      because such a step brought it while the call that loses it was suspended. */
  lemma LostOnlyOutOfLine(ws: seq<World>, steps: seq<Step>, i: nat, j: string, pub: Publication)
    requires QueuedRun(ws, steps) && i < |steps| && Held(ws[i].p, j, pub) && Lost(ws[i], steps[i], j, pub)
    ensures OfCall(steps[i])
    ensures OutOfLine(ws[i], steps[i]) || exists m :: 0 <= m < i && ComesOutOfLine(ws, steps, m, steps[i].op, j, pub)
  {
    LostExactlyWhen(ws, steps, i, j, pub);
    LoserInOrOutOfLine(ws[i], steps[i]);
    var n := steps[i].op;
    hide Lost, DropsEntry, Held, JobOf, Enabled, Next, Queued, UnderWay, OutOfLine, TakesTurn, OneCallPerJob, WorldOk, TrackOk, OlderReplaces;
    if !OutOfLine(ws[i], steps[i]) {
      var m :| 0 <= m < i && ComesAt(ws, m, n, j, pub) && AllAlong(ws, m, i, n, j);
      QueuedAllAlong(ws, steps, m, i, n, j);
      RunKeepsTracks(ws, steps, m);
      RunKeepsOneCall(ws, steps, m);
      OnlyOutOfLine(ws[m], steps[m], n, j, pub);
      assert ComesOutOfLine(ws, steps, m, n, j, pub);
    }
  }

  // ----- order -----

  predicate QueuedCall(w: World, n: nat, j: string) {
    n in w.ops && Queued(w.ops[n]) && w.ops[n].JobId() == j
  }

  /** Something about the job was tried that is newer than what the call waits for. */
  predicate Overtaken(w: World, n: nat, j: string) {
    QueuedCall(w, n, j) && j in w.p.attempted && w.ops[n].since < w.p.attempted[j]
  }

  /** At step `m`, out of line, call `n` is overtaken. */
  ghost predicate OvertakenAt(ws: seq<World>, steps: seq<Step>, m: nat, n: nat, j: string) {
    m < |steps| && m + 1 < |ws| && OutOfLine(ws[m], steps[m]) && JobOf(ws[m], steps[m]) == j && QueuedCall(ws[m], n, j) && Overtaken(ws[m + 1], n, j)
  }

  /** The moment at which the call asked. */
  function AskedAt(w: World, n: nat): nat {
    if n in w.ops && !w.ops[n].TickQueued? then w.ops[n].since else w.clock
  }

  /** The call waits for the same answer as before, or it began to wait just now. */
  lemma SameQuestion(w: World, st: Step, n: nat, j: string)
    requires Enabled(w, st) && QueuedCall(Next(w, st), n, j)
    ensures AskedAt(Next(w, st), n) == w.clock || (QueuedCall(w, n, j) && AskedAt(w, n) == AskedAt(Next(w, st), n))
  {
    hide Next, Enabled;
    CallAfter(w, st, n);
  }

  /** A call that keeps waiting for the same answer is overtaken out of line only. */
  lemma OvertakenOutOfLine(w: World, st: Step, n: nat, j: string)
    requires WorldOk(w) && TrackOk(w) && Enabled(w, st) && OneCallPerJob(w) && TakesTurn(w, st)
    requires QueuedCall(w, n, j) && Overtaken(Next(w, st), n, j) && AskedAt(w, n) == AskedAt(Next(w, st), n) && !Overtaken(w, n, j)
    ensures OutOfLine(w, st) && JobOf(w, st) == j
  {
    hide WorldOk, TrackOk, Next, Enabled, InLine, OneCallPerJob, SameElsewhere;
    StepTouchesOneJob(w, st);
    AttemptedElsewhere(w.p, Next(w, st).p, JobOf(w, st), j);
    AskedBefore(w, n);
    if !OutOfLine(w, st) {
      TurnTaken(w, st, n);
      OwnStepKeepsUp(w, st, n, j);
    }
  }

  lemma AttemptedElsewhere(p: Polls, p': Polls, k: string, j: string)
    requires SameElsewhere(p, p', k)
    ensures j != k ==> (j in p'.attempted <==> j in p.attempted) && (j in p.attempted ==> p'.attempted[j] == p.attempted[j])
  {
  }

  lemma OwnStepKeepsUp(w: World, st: Step, n: nat, j: string)
    requires TrackOk(w) && Enabled(w, st) && QueuedCall(w, n, j) && JobOf(w, st) == j && !InLine(w, st) && !OutOfLine(w, st)
    requires OfCall(st) || st.STickResumes? || st.SRegisteredResumes? ==> st.op == n
    requires QueuedCall(Next(w, st), n, j) && AskedAt(w, n) == AskedAt(Next(w, st), n)
    ensures Next(w, st).p.attempted == w.p.attempted
  {
    AskedBefore(w, n);
    CallAfter(w, st, n);
    if OfCall(st) || st.STickResumes? || st.SRegisteredResumes? {
      OwnPieceTriesNothing(w, st, n);
    } else {
      OtherPieceTriesNothing(w, st);
    }
    hide TrackOk, Next, Enabled, InLine, OutOfLine;
  }

  lemma OwnPieceTriesNothing(w: World, st: Step, n: nat)
    requires Enabled(w, st) && (OfCall(st) || st.STickResumes? || st.SRegisteredResumes?) && st.op == n && n in Next(w, st).ops
    requires AskedAt(w, n) == AskedAt(Next(w, st), n) < w.clock
    ensures Next(w, st).p.attempted == w.p.attempted
  {
    hide Accept, AcceptFailure, FreshPorts, CanExecute, OutsideOk, TryCommit, PublishCreated, Publish, ProjectToPhone, TickResume, Track, Spend;
  }

  lemma OtherPieceTriesNothing(w: World, st: Step)
    requires Enabled(w, st) && !InLine(w, st) && !OutOfLine(w, st) && !OfCall(st) && !st.STickResumes? && !st.SRegisteredResumes?
    ensures Next(w, st).p.attempted == w.p.attempted
  {
    hide FreshPorts, CanExecute, OutsideOk;
  }

  lemma {:induction false} OvertakenEarlier(ws: seq<World>, steps: seq<Step>, i: nat, n: nat, j: string)
    requires QueuedRun(ws, steps) && i < |ws| && Overtaken(ws[i], n, j)
    ensures exists m :: 0 <= m < i && OvertakenAt(ws, steps, m, n, j)
  {
    hide Enabled, Next, OutOfLine, TakesTurn, OneCallPerJob, WorldOk, TrackOk;
    RunKeepsTracks(ws, steps, i);
    AttemptedBefore(ws[i], j);
    if i > 0 {
      SameQuestion(ws[i - 1], steps[i - 1], n, j);
      ClockMoves(ws[i - 1], steps[i - 1]);
      if Overtaken(ws[i - 1], n, j) {
        OvertakenEarlier(ws, steps, i - 1, n, j);
      } else {
        RunKeepsTracks(ws, steps, i - 1);
        RunKeepsOneCall(ws, steps, i - 1);
        OvertakenOutOfLine(ws[i - 1], steps[i - 1], n, j);
        assert OvertakenAt(ws, steps, i - 1, n, j);
      }
    }
  }

  lemma AttemptedBefore(w: World, j: string)
    requires TrackOk(w) && j in w.p.attempted
    ensures w.p.attempted[j] < w.clock
  {
    assert EntryOk(w.p, w.clock, j);
  }

  lemma LateIsOvertaken(w: World, st: Step, j: string)
    requires WorldOk(w) && TrackOk(w) && Enabled(w, st) && Late(w, st, j)
    ensures OutOfLine(w, st) || (OfCall(st) && Overtaken(w, st.op, j)) || (st.SRegisteredResumes? && Overtaken(w, st.op, j))
  {
    AttemptedBefore(w, j);
    hide WorldOk, TrackOk, FreshPorts, CanExecute, OutsideOk, TryCommit, Judge;
  }

  /** With the operation queue at work, results are tried out of order only out of line: by a step that did not queue,
      or because such a step tried a newer one while the queued call was suspended. */
  lemma LateOnlyOutOfLine(ws: seq<World>, steps: seq<Step>, i: nat, j: string)
    requires QueuedRun(ws, steps) && i < |steps| && Late(ws[i], steps[i], j)
    ensures OutOfLine(ws[i], steps[i]) || exists m, n :: 0 <= m < i && OvertakenAt(ws, steps, m, n, j)
  {
    hide Enabled, Next, OutOfLine, TakesTurn, WorldOk, TrackOk, Queued, Late, Overtaken;
    RunKeepsTracks(ws, steps, i);
    LateIsOvertaken(ws[i], steps[i], j);
    if !OutOfLine(ws[i], steps[i]) {
      OvertakenEarlier(ws, steps, i, steps[i].op, j);
    }
  }

  /** Queued calls alone lose nothing and keep the order. */
  lemma QueuedCallsAloneLoseNothing(ws: seq<World>, steps: seq<Step>, i: nat, j: string, pub: Publication)
    requires QueuedRun(ws, steps) && i < |steps|
    requires forall m :: 0 <= m < |steps| && JobOf(ws[m], steps[m]) == j ==> !OutOfLine(ws[m], steps[m])
    ensures Held(ws[i].p, j, pub) ==> !Lost(ws[i], steps[i], j, pub)
    ensures !Late(ws[i], steps[i], j)
  {
    hide Enabled, Next, OutOfLine, TakesTurn, Queued;
    if Held(ws[i].p, j, pub) && Lost(ws[i], steps[i], j, pub) {
      LostExactlyWhen(ws, steps, i, j, pub);
      LostOnlyOutOfLine(ws, steps, i, j, pub);
    }
    hide Lost, Held;
    if Late(ws[i], steps[i], j) {
      LateOnlyOutOfLine(ws, steps, i, j);
    }
    hide Late;
  }

  // ----- it happens -----

  /** A rejection while a restore of the same job is reading: if it cannot be committed it is held. */
  lemma RejectedMeanwhile(w: World, n: nat, id: string, detail: Job, x: Ports) returns (w2: World)
    requires Starts(w) && id in w.p.s.gate.requests.data && FreshPorts(w.p, x)
    requires w.p.s.gate.requests.data[id].jobId != "" && HasStatus(w.p.s.live, w.p.s.gate.requests.data[id].jobId, NeedsPermission)
    requires var r := w.p.s.gate.requests.data[id];
      !TryCommit(Stop(w.p, r.jobId), Failure(FailureFor(r, detail), w.clock + 1), x).1
    ensures var r := w.p.s.gate.requests.data[id];
      && Enabled(w, SRestore(n, r.jobId)) && Enabled(Next(w, SRestore(n, r.jobId)), SReject(id, detail, x))
      && w2 == Next(Next(w, SRestore(n, r.jobId)), SReject(id, detail, x))
      && n in w2.ops && w2.ops[n] == AwaitRestore(r.jobId, w.clock) && Held(w2.p, r.jobId, Failure(FailureFor(r, detail), w.clock + 1))
  {
    var r := w.p.s.gate.requests.data[id];
    FailureEffect(w.p, FailureFor(r, detail), w.clock + 1, x);
    hide TryCommit, AcceptFailure, FreshPorts, SameElsewhere;
    w2 := Next(Next(w, SRestore(n, r.jobId)), SReject(id, detail, x));
  }

  /** A restore whose read failed for the moment puts a fresh poll in the place of whatever is tracked: what
      was held is neither held any longer nor committed. */
  lemma RestoreDropsWhatIsHeld(w: World, n: nat, j: string, pub: Publication, message: string, code: string, cached: AdapterJob, y: Ports)
    returns (w2: World)
    requires n in w.ops && w.ops[n].AwaitRestore? && w.ops[n].jobId == j && Held(w.p, j, pub) && cached.job.jobId == j && FreshPorts(w.p, y)
    ensures Enabled(w, SRestoreResumes(n, NotGot(message, code, true), y))
      && Enabled(Next(w, SRestoreResumes(n, NotGot(message, code, true), y)), SCachedResumes(n, Some(cached), y))
      && w2 == Next(Next(w, SRestoreResumes(n, NotGot(message, code, true), y)), SCachedResumes(n, Some(cached), y))
    ensures !Held(w2.p, j, pub) && w2.p.attempted == w.p.attempted && w2.p.s == w.p.s
  {
    hide FreshPorts;
    w2 := Next(Next(w, SRestoreResumes(n, NotGot(message, code, true), y)), SCachedResumes(n, Some(cached), y));
  }

  /** A restore whose earlier read succeeds publishes that older answer and gives up what was held meanwhile. */
  lemma RestoreReplacesWhatIsNewer(w: World, n: nat, j: string, pub: Publication, a: AdapterJob, y: Ports) returns (w2: World)
    requires n in w.ops && w.ops[n].AwaitRestore? && w.ops[n].jobId == j && w.ops[n].since < pub.asOf && a.job.jobId == j && FreshPorts(w.p, y)
    requires Held(w.p, j, pub) && j in w.p.attempted && w.p.attempted[j] == pub.asOf
    ensures Enabled(w, SRestoreResumes(n, Got(a), y)) && w2 == Next(w, SRestoreResumes(n, Got(a), y))
    ensures !Held(w2.p, j, pub) && Lost(w, SRestoreResumes(n, Got(a), y), j, pub)
    ensures j in w2.p.attempted && w2.p.attempted[j] < pub.asOf && Late(w, SRestoreResumes(n, Got(a), y), j)
  {
    AcceptEffect(w.p, a, w.ops[n].since, y);
    hide TryCommit, Accept, FreshPorts, SameElsewhere;
    w2 := Next(w, SRestoreResumes(n, Got(a), y));
  }
}
