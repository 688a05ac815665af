/** A held result is given up only for another result of its job, or by three kinds of step; and exactly when
    attempts about one job go back in time. */
module Turns {
  import opened Option
  import opened JsMap
  import opened Status
  import opened Types
  import opened Store
  import opened Publisher
  import opened Polling
  import opened Delegation
  import opened AtMostOnce
  import opened Retained

  /** The job a step is about. */
  function JobOf(w: World, st: Step): string {
    match st
    case SGrant(_, id, _, _, _, _, _) => if id in w.p.s.gate.requests.data then w.p.s.gate.requests.data[id].jobId else ""
    case SReject(id, _, _) => if id in w.p.s.gate.requests.data then w.p.s.gate.requests.data[id].jobId else ""
    case SSchedule(_, j) => j
    case SRestore(_, j) => j
    case SCancel(_, j, _, _) => j
    case SOutside(_) => ""
    case _ => if st.op in w.ops then w.ops[st.op].JobId() else ""
  }

  lemma SameTable(p: Polls, p': Polls, j: string)
    requires p'.active == p.active && p'.attempted == p.attempted && p'.nextPid == p.nextPid
    ensures SameElsewhere(p, p', j)
  {
  }

  lemma SameTwice(p0: Polls, p1: Polls, p2: Polls, j: string)
    requires SameElsewhere(p0, p1, j) && SameElsewhere(p1, p2, j)
    ensures SameElsewhere(p0, p2, j)
  {
  }

  lemma EntrySame(p: Polls, j: string, entry: Entry)
    ensures SameElsewhere(p, p.(active := p.active[j := entry]), j) && SameElsewhere(p, Dropped(p, j), j)
  {
  }

  lemma HandedIsAboutJob(w: World, st: Step)
    requires WorldOk(w) && Enabled(w, st) && Handed(w, st).Some?
    ensures Handed(w, st).value.1.Job().jobId == JobOf(w, st)
  {
    if st.SCreateReturns? {
      assert OpOk(w, w.ops[st.op]);
    }
    hide CanExecute, Judge, Spend, OutsideOk, FreshPorts, AcceptFailure, PendingAbout;
  }

  lemma HandedTouchesOneJob(w: World, st: Step)
    requires WorldOk(w) && Enabled(w, st) && Handed(w, st).Some?
    ensures SameElsewhere(w.p, Next(w, st).p, JobOf(w, st))
  {
    hide TryCommit, Accept, AcceptFailure, FreshPorts, CanExecute, Judge, Spend, OutsideOk, WorldOk, SameElsewhere;
    HandedIsAboutJob(w, st);
    var (base, pub, x) := Handed(w, st).value;
    if pub.FromAdapter? {
      HandedResultIsKept(w, st);
      AcceptEffect(base, pub.a, pub.asOf, x);
      BaseSame(w, st);
      SameTwice(w.p, base, Next(w, st).p, JobOf(w, st));
    } else {
      HandedFailureIsKept(w, st);
      var p0 := if st.SCreateReturns? then Dropped(w.p, pub.job.jobId) else w.p;
      FailureEffect(p0, pub.job, pub.asOf, x);
      EntrySame(w.p, JobOf(w, st), Placeholder);
      SameTable(w.p, w.p, JobOf(w, st));
      SameTwice(w.p, p0, Next(w, st).p, JobOf(w, st));
    }
  }

  lemma BaseSame(w: World, st: Step)
    requires Enabled(w, st) && Handed(w, st).Some? && Handed(w, st).value.1.FromAdapter?
    ensures SameElsewhere(w.p, Handed(w, st).value.0, JobOf(w, st))
  {
    hide CanExecute, Judge, Spend, OutsideOk, FreshPorts;
  }

  /** The steps that give up an entry without a newer result: an unexpected exception of the create call, the
      withdrawal of a created run, and a restore whose read failed for the moment with a record to fall back on. */
  ghost predicate DropsEntry(w: World, st: Step)
    requires Enabled(w, st)
  {
    || st.SCreateThrows?
    || (st.SCreateReturns? && w.ops[st.op].result.Got? && Handed(w, st).None?)
    || (st.SCachedResumes? && w.ops[st.op].retryable && Previous(w, st.op, st.cached).Some?)
  }

  /** What a failed restore falls back on: the executor's cached record, or the registered job. */
  function Previous(w: World, n: nat, cached: Option<AdapterJob>): Option<Job>
    requires n in w.ops && w.ops[n].AwaitCached?
  {
    if cached.Some? then Some(cached.value.job) else Get(w.p.s.live.jobs, w.ops[n].jobId)
  }

  lemma CachedJobIs(w: World, n: nat, cached: Option<AdapterJob>)
    requires WorldOk(w) && n in w.ops && w.ops[n].AwaitCached? && (cached.Some? ==> cached.value.job.jobId == w.ops[n].jobId)
    ensures Previous(w, n, cached).Some? ==> Previous(w, n, cached).value.jobId == w.ops[n].jobId
  {
  }

  /** A held publication stays held by its poll through every step but its own commit, another result of the
      same job, newer or older, or one of the three steps that drop the entry. */
  lemma HeldUntilCommittedOrReplaced(w: World, st: Step, j: string, pub: Publication)
    requires WorldOk(w) && TrackOk(w) && Enabled(w, st) && Held(w.p, j, pub)
    ensures
      || (Held(Next(w, st).p, j, pub) && Next(w, st).p.active[j].poll.pid == w.p.active[j].poll.pid)
      || (st.STickStarts? && JobOf(w, st) == j && TryCommit(w.p, pub, st.x).1)
      || (Handed(w, st).Some? && JobOf(w, st) == j)
      || (DropsEntry(w, st) && JobOf(w, st) == j)
  {
    hide TryCommit, Accept, AcceptFailure, FreshPorts, CanExecute, Spend, OutsideOk, SameElsewhere, TrackOk, WorldOk;
    if Handed(w, st).Some? {
      HandedTouchesOneJob(w, st);
      if JobOf(w, st) != j {
        HeldElsewhere(w.p, Next(w, st).p, JobOf(w, st), j, pub);
      }
    } else if st.STickStarts? {
      HeldTick(w, st.op, st.x, j, pub);
    } else if st.STickResumes? {
      HeldRead(w, st.op, st.r, st.x, j, pub);
    } else {
      HeldOther(w, st, j, pub);
    }
  }

  lemma HeldElsewhere(p: Polls, p': Polls, k: string, j: string, pub: Publication)
    requires SameElsewhere(p, p', k) && Held(p, j, pub) && j != k
    ensures Held(p', j, pub) && p'.active[j].poll.pid == p.active[j].poll.pid
  {
  }

  lemma HeldTick(w: World, n: nat, x: Ports, j: string, pub: Publication)
    requires WorldOk(w) && n in w.ops && w.ops[n].TickQueued? && Held(w.p, j, pub)
    ensures var p' := TickStarts(w, n, x).p;
      || (Held(p', j, pub) && p'.active[j].poll.pid == w.p.active[j].poll.pid)
      || (w.ops[n].jobId == j && TryCommit(w.p, pub, x).1)
  {
    var TickQueued(k, pid) := w.ops[n];
    if Live(w.p, k, pid) && w.p.active[k].poll.pending.Some? {
      AboutOf(w);
      assert PollAbout(w.p.active[k].poll, k);
      RetryEffect(w.p, k, x);
      hide Retry, TryCommit;
      if j != k {
        HeldElsewhere(w.p, Retry(w.p, k, x), k, j, pub);
      }
    }
  }

  lemma HeldRead(w: World, n: nat, r: ReadResult, x: Ports, j: string, pub: Publication)
    requires WorldOk(w) && TrackOk(w) && n in w.ops && w.ops[n].AwaitTick? && Answers(r, w.ops[n].jobId) && Held(w.p, j, pub)
    ensures var p' := TickResume(w.p, w.ops[n].jobId, w.ops[n].pid, r, w.ops[n].since, x);
      Held(p', j, pub) && p'.active[j].poll.pid == w.p.active[j].poll.pid
  {
    var AwaitTick(k, pid, since) := w.ops[n];
    assert TickOk(w.p, w.ops[n]) && EntryOk(w.p, w.clock, k) && since < w.clock;
    AboutOf(w);
    TickResumeEnds(w.p, k, pid, r, since, w.clock, x);
    hide TickResume, TrackOk, WorldOk;
    if j != k {
      HeldElsewhere(w.p, TickResume(w.p, k, pid, r, since, x), k, j, pub);
    }
  }

  lemma HeldCreateReturns(w: World, st: Step, j: string, pub: Publication)
    requires WorldOk(w) && Enabled(w, st) && Held(w.p, j, pub) && st.SCreateReturns? && Handed(w, st).None?
    ensures (Held(Next(w, st).p, j, pub) && Next(w, st).p.active[j].poll.pid == w.p.active[j].poll.pid) || JobOf(w, st) == j
  {
    assert OpOk(w, w.ops[st.op]);
    hide Accept, AcceptFailure, FreshPorts, CanExecute, Spend, OutsideOk, WorldOk, PublishCreated;
  }

  lemma HeldCached(w: World, st: Step, j: string, pub: Publication)
    requires WorldOk(w) && Enabled(w, st) && Held(w.p, j, pub) && st.SCachedResumes? && Handed(w, st).None?
    ensures (Held(Next(w, st).p, j, pub) && Next(w, st).p.active[j].poll.pid == w.p.active[j].poll.pid)
      || (w.ops[st.op].retryable && Previous(w, st.op, st.cached).Some? && JobOf(w, st) == j)
  {
    CachedJobIs(w, st.op, st.cached);
    hide AcceptFailure, FreshPorts, OutsideOk, WorldOk;
  }

  lemma HeldGrant(w: World, st: Step, j: string, pub: Publication)
    requires Enabled(w, st) && Held(w.p, j, pub) && st.SGrant? && Handed(w, st).None?
    ensures Held(Next(w, st).p, j, pub) && Next(w, st).p.active[j].poll.pid == w.p.active[j].poll.pid
  {
    hide AcceptFailure, FreshPorts, CanExecute, AllGranted, Blank;
  }

  lemma HeldOther(w: World, st: Step, j: string, pub: Publication)
    requires WorldOk(w) && Enabled(w, st) && Held(w.p, j, pub) && Handed(w, st).None? && !st.STickStarts? && !st.STickResumes?
    ensures (Held(Next(w, st).p, j, pub) && Next(w, st).p.active[j].poll.pid == w.p.active[j].poll.pid)
      || (DropsEntry(w, st) && JobOf(w, st) == j)
  {
    hide TryCommit, Accept, AcceptFailure, FreshPorts, OutsideOk, WorldOk, PublishCreated, ProjectToPhone, Publish, Judge, CreateReturns, CachedResumes, Grant;
    if st.SCachedResumes? {
      HeldCached(w, st, j, pub);
    } else if st.SCreateReturns? {
      HeldCreateReturns(w, st, j, pub);
    } else if st.SGrant? {
      HeldGrant(w, st, j, pub);
    }
  }

  /** A local cancellation, or none: the table stays, and only the job's own attempt is noted. */
  lemma RegisteredEffect(w: World, n: nat, found: bool, x: Ports)
    requires n in w.ops && w.ops[n].AwaitRegistered? && (w.ops[n].local.Some? ==> w.ops[n].local.value.jobId == w.ops[n].jobId)
    ensures var p' := RegisteredResumes(w, n, found, x).0.p;
      && SameElsewhere(w.p, p', w.ops[n].jobId) && p'.active == w.p.active
      && (p'.attempted == if CancelsLocally(w, w.ops[n].jobId, w.ops[n].local, found) then w.p.attempted[w.ops[n].jobId := w.ops[n].since] else w.p.attempted)
  {
    hide Publish, ProjectToPhone;
  }

  // ----- order -----

  /** The step tries a result about its job that a call has waited for, or that the user or a check decides now. */
  ghost predicate Brings(w: World, st: Step)
    requires Enabled(w, st)
  {
    || Handed(w, st).Some? || st.SCreateReturns?
    || (st.SRegisteredResumes? && CancelsLocally(w, w.ops[st.op].jobId, w.ops[st.op].local, st.found))
  }

  /** The step tries a result about `j` that was asked for before the last one tried about `j`. */
  ghost predicate Late(w: World, st: Step, j: string)
    requires Enabled(w, st)
  {
    Brings(w, st) && JobOf(w, st) == j && j in w.p.attempted && Moment(w, st) < w.p.attempted[j]
  }

  /** Counting a result as of the moment it was asked for, attempts about a job go back in time exactly when a call
      hands over an answer that it asked for before the last attempt. A tick never does, stale or not. */
  lemma OrderBreaksExactly(w: World, st: Step, j: string)
    requires WorldOk(w) && TrackOk(w) && Enabled(w, st) && j in w.p.attempted
    ensures j in Next(w, st).p.attempted
    ensures Next(w, st).p.attempted[j] < w.p.attempted[j] <==> Late(w, st, j)
  {
    hide TryCommit, Accept, AcceptFailure, FreshPorts, CanExecute, Spend, OutsideOk, SameElsewhere, TrackOk, WorldOk;
    if Handed(w, st).Some? {
      EveryResultIsKept(w, st);
      HandedIsAboutJob(w, st);
      HandedTouchesOneJob(w, st);
      OrderWhenHanded(w, Next(w, st), JobOf(w, st), j);
    } else if st.STickStarts? {
      OrderTick(w, st.op, st.x, j);
    } else if st.STickResumes? {
      OrderRead(w, st.op, st.r, st.x, j);
    } else {
      OrderOther(w, st, j);
    }
  }

  lemma OrderWhenHanded(w: World, w': World, k: string, j: string)
    requires SameElsewhere(w.p, w'.p, k) && k in w'.p.attempted && j in w.p.attempted
    ensures j in w'.p.attempted && (j != k ==> w'.p.attempted[j] == w.p.attempted[j])
  {
  }

  lemma OrderTick(w: World, n: nat, x: Ports, j: string)
    requires WorldOk(w) && TrackOk(w) && n in w.ops && w.ops[n].TickQueued? && j in w.p.attempted
    ensures j in TickStarts(w, n, x).p.attempted && w.p.attempted[j] <= TickStarts(w, n, x).p.attempted[j]
  {
    var TickQueued(k, pid) := w.ops[n];
    if Live(w.p, k, pid) && w.p.active[k].poll.pending.Some? {
      AboutOf(w);
      assert PollAbout(w.p.active[k].poll, k) && EntryOk(w.p, w.clock, k);
      RetryEffect(w.p, k, x);
      hide Retry, TryCommit;
    }
  }

  lemma OrderRead(w: World, n: nat, r: ReadResult, x: Ports, j: string)
    requires WorldOk(w) && TrackOk(w) && n in w.ops && w.ops[n].AwaitTick? && Answers(r, w.ops[n].jobId) && j in w.p.attempted
    ensures var p' := TickResume(w.p, w.ops[n].jobId, w.ops[n].pid, r, w.ops[n].since, x);
      j in p'.attempted && w.p.attempted[j] <= p'.attempted[j]
  {
    var AwaitTick(k, pid, since) := w.ops[n];
    assert TickOk(w.p, w.ops[n]) && EntryOk(w.p, w.clock, k);
    AboutOf(w);
    TickResumeEnds(w.p, k, pid, r, since, w.clock, x);
    if j == k && Live(w.p, k, pid) {
      ReadAttempt(w.p, w.ops[n], r, x);
    }
    hide TickResume, TrackOk, WorldOk;
  }

  /** A live tick leaves the attempts alone, or tries what it read, as of the start of its read. */
  lemma ReadAttempt(p: Polls, o: Op, r: ReadResult, x: Ports)
    requires o.AwaitTick? && Live(p, o.jobId, o.pid) && PendingAbout(p) && ShownOk(p.active[o.jobId].poll) && Answers(r, o.jobId)
    ensures var p' := TickResume(p, o.jobId, o.pid, r, o.since, x);
      p'.attempted == p.attempted || (o.jobId in p'.attempted && p'.attempted[o.jobId] == o.since)
  {
    var AwaitTick(j, pid, since) := o;
    var poll := p.active[j].poll;
    var pub := ReadPublication(p, o, r);
    if pub.Some? {
      var lastJob := if r.Got? then r.a.job else poll.lastJob;
      HandOverEffect(p, j, pid, lastJob, pub.value, since + 1, x);
      if r.Got? {
        assert p.active[j := Tracking(poll.(lastJob := r.a.job))][j := Tracking(poll.(lastJob := r.a.job, pending := pub))]
            == p.active[j := Tracking(poll.(lastJob := r.a.job, pending := pub))];
      } else {
        assert poll.(lastJob := poll.lastJob, pending := pub) == poll.(pending := pub);
      }
    }
    hide Retry, TryCommit, TickEnded, Tried, FingerprintOf;
  }

  lemma CreateReturnsAttempts(w: World, st: Step)
    requires Enabled(w, st) && st.SCreateReturns? && Handed(w, st).None?
    ensures w.ops[st.op].result.Got? && Next(w, st).p.attempted == w.p.attempted[w.ops[st.op].result.a.job.jobId := w.ops[st.op].since]
  {
    hide Accept, AcceptFailure, FreshPorts, CanExecute, Spend, OutsideOk, PublishCreated;
  }

  lemma OthersAttemptNothing(w: World, st: Step)
    requires Enabled(w, st) && Handed(w, st).None? && !st.STickStarts? && !st.STickResumes? && !st.SCreateReturns? && !st.SRegisteredResumes?
    ensures Next(w, st).p.attempted == w.p.attempted
  {
    hide Accept, AcceptFailure, FreshPorts, CanExecute, OutsideOk, AllGranted, Blank, CreateReturns, RegisteredResumes;
  }

  lemma OrderOther(w: World, st: Step, j: string)
    requires WorldOk(w) && Enabled(w, st) && Handed(w, st).None? && !st.STickStarts? && !st.STickResumes? && j in w.p.attempted
    ensures j in Next(w, st).p.attempted
    ensures Next(w, st).p.attempted[j] < w.p.attempted[j] <==> Late(w, st, j)
  {
    hide Handed, FreshPorts, OutsideOk, CreateReturns, RegisteredResumes;
    if st.SCreateReturns? {
      assert OpOk(w, w.ops[st.op]);
      CreateReturnsAttempts(w, st);
    } else if st.SRegisteredResumes? {
      assert OpOk(w, w.ops[st.op]);
      RegisteredEffect(w, st.op, st.found, st.x);
    } else {
      OthersAttemptNothing(w, st);
    }
    hide WorldOk;
  }

  // ----- one job per step -----

  /** Every step is about one job. */
  lemma StepTouchesOneJob(w: World, st: Step)
    requires WorldOk(w) && TrackOk(w) && Enabled(w, st)
    ensures SameElsewhere(w.p, Next(w, st).p, JobOf(w, st))
  {
    hide TryCommit, Accept, AcceptFailure, FreshPorts, CanExecute, Spend, OutsideOk, SameElsewhere, TrackOk, WorldOk;
    if Handed(w, st).Some? {
      HandedTouchesOneJob(w, st);
    } else if st.STickStarts? {
      TickStartTouches(w, st.op, st.x);
    } else if st.STickResumes? {
      TickResumeTouches(w, st.op, st.r, st.x);
    } else {
      OtherTouchesOneJob(w, st);
    }
  }

  lemma TickStartTouches(w: World, n: nat, x: Ports)
    requires WorldOk(w) && n in w.ops && w.ops[n].TickQueued?
    ensures SameElsewhere(w.p, TickStarts(w, n, x).p, w.ops[n].jobId)
  {
    var TickQueued(k, pid) := w.ops[n];
    if Live(w.p, k, pid) && w.p.active[k].poll.pending.Some? {
      AboutOf(w);
      assert PollAbout(w.p.active[k].poll, k);
      RetryEffect(w.p, k, x);
      hide Retry, TryCommit;
    }
  }

  lemma TickResumeTouches(w: World, n: nat, r: ReadResult, x: Ports)
    requires WorldOk(w) && TrackOk(w) && n in w.ops && w.ops[n].AwaitTick? && Answers(r, w.ops[n].jobId)
    ensures SameElsewhere(w.p, TickResume(w.p, w.ops[n].jobId, w.ops[n].pid, r, w.ops[n].since, x), w.ops[n].jobId)
  {
    assert TickOk(w.p, w.ops[n]) && EntryOk(w.p, w.clock, w.ops[n].jobId);
    AboutOf(w);
    TickResumeEnds(w.p, w.ops[n].jobId, w.ops[n].pid, r, w.ops[n].since, w.clock, x);
    hide TickResume, TrackOk, WorldOk;
  }

  lemma WithdrawnEffect(w: World, n: nat, detail: Job, x: Ports)
    requires n in w.ops && w.ops[n].CreateSettled? && w.ops[n].result.Got? && w.ops[n].result.a.job.jobId == w.ops[n].request.jobId
    requires var r := w.ops[n].request;
      !CanExecute(w.p.s.live, AffairOf(r), r.jobId)
    ensures SameElsewhere(w.p, CreateReturns(w, n, detail, x).p, w.ops[n].request.jobId)
  {
    hide Accept, CanExecute, Spend, PublishCreated;
  }

  lemma CreateReturnsTouches(w: World, st: Step)
    requires WorldOk(w) && Enabled(w, st) && st.SCreateReturns? && Handed(w, st).None?
    ensures SameElsewhere(w.p, Next(w, st).p, JobOf(w, st))
  {
    assert OpOk(w, w.ops[st.op]);
    hide FreshPorts, CanExecute, Spend, OutsideOk, WorldOk, CreateReturns, SameElsewhere, OpOk;
    WithdrawnEffect(w, st.op, st.detail, st.x);
  }

  lemma RegisteredTouches(w: World, st: Step)
    requires WorldOk(w) && Enabled(w, st) && st.SRegisteredResumes?
    ensures SameElsewhere(w.p, Next(w, st).p, JobOf(w, st)) && Next(w, st).p.active == w.p.active
  {
    assert OpOk(w, w.ops[st.op]);
    hide FreshPorts, OutsideOk, WorldOk, RegisteredResumes, SameElsewhere, OpOk;
    RegisteredEffect(w, st.op, st.found, st.x);
  }

  lemma CachedTouches(w: World, st: Step)
    requires WorldOk(w) && Enabled(w, st) && st.SCachedResumes? && Handed(w, st).None?
    ensures SameElsewhere(w.p, Next(w, st).p, JobOf(w, st))
  {
    CachedJobIs(w, st.op, st.cached);
    hide AcceptFailure, FreshPorts, OutsideOk, WorldOk;
  }

  lemma OtherTouchesOneJob(w: World, st: Step)
    requires WorldOk(w) && Enabled(w, st) && Handed(w, st).None? && !st.STickStarts? && !st.STickResumes?
    ensures SameElsewhere(w.p, Next(w, st).p, JobOf(w, st))
  {
    hide Next, Enabled, Handed, SameElsewhere, WorldOk;
    if st.SCreateReturns? {
      CreateReturnsTouches(w, st);
    } else if st.SRegisteredResumes? {
      RegisteredTouches(w, st);
    } else if st.SCachedResumes? {
      CachedTouches(w, st);
    } else if st.SGrant? {
      GrantTouches(w, st);
    } else {
      RestTouchesOneJob(w, st);
    }
  }

  lemma GrantTouches(w: World, st: Step)
    requires Enabled(w, st) && st.SGrant? && Handed(w, st).None?
    ensures SameElsewhere(w.p, Next(w, st).p, JobOf(w, st))
  {
    hide AcceptFailure, FreshPorts, CanExecute, AllGranted, Blank;
  }

  lemma RestTouchesOneJob(w: World, st: Step)
    requires WorldOk(w) && Enabled(w, st) && Handed(w, st).None? && !st.STickStarts? && !st.STickResumes?
    requires !st.SCreateReturns? && !st.SRegisteredResumes? && !st.SCachedResumes? && !st.SGrant?
    ensures SameElsewhere(w.p, Next(w, st).p, JobOf(w, st))
  {
    hide Accept, AcceptFailure, FreshPorts, OutsideOk, WorldOk, CreateReturns, RegisteredResumes, CachedResumes, Grant;
  }
}
