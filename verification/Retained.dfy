/** Results are not lost and not reordered: what a job's poll holds is kept until it is committed or replaced
    by a newer result, the runtime is not read meanwhile, and no older result is tried after a newer one. */
module Retained {
  import opened Option
  import opened JsMap
  import opened Status
  import opened Types
  import opened Store
  import opened Coordinator
  import opened Publisher
  import opened Polling
  import opened Delegation
  import opened AtMostOnce

  // ----- what the polling functions do to the table -----

  /** Nothing but job `j` changes in the table and the record of attempts. */
  ghost predicate SameElsewhere(p: Polls, p': Polls, j: string) {
    && (forall k :: k != j ==> (k in p.active <==> k in p'.active) && (k in p.attempted <==> k in p'.attempted))
    && (forall k :: k != j && k in p.active ==> p'.active[k] == p.active[k])
    && (forall k :: k != j && k in p.attempted ==> p'.attempted[k] == p.attempted[k])
    && p.nextPid <= p'.nextPid
  }

  /** A poll shows the fingerprint of a result that did not stop polling, or none. */
  predicate ShownOk(poll: Poll) {
    poll.lastFingerprint.Some? ==> !StopStatus(poll.lastFingerprint.value.status)
  }

  /** The job's entry is gone, or a new poll that holds the publication exactly if it was not committed. */
  predicate Renewed(p: Polls, p': Polls, pub: Publication, committed: bool) {
    var j := pub.Job().jobId;
    && j in p'.attempted && p'.attempted[j] == pub.asOf
    && (j !in p'.active ==> committed)
    && (j in p'.active ==> p'.active[j].Tracking? && p'.active[j].poll.pid == p.nextPid < p'.nextPid && !p'.active[j].poll.inFlight
                           && ShownOk(p'.active[j].poll)
                           && p'.active[j].poll.pending == if committed then None else Some(pub))
  }

  lemma TryCommitFrame(p: Polls, pub: Publication, x: Ports)
    ensures var p' := TryCommit(p, pub, x).0;
      p'.active == p.active && p'.nextPid == p.nextPid && p'.attempted == p.attempted[pub.Job().jobId := pub.asOf]
  {
    hide CommitJob, ProjectToPhone;
  }

  lemma AcceptEffect(p: Polls, a: AdapterJob, asOf: nat, x: Ports)
    ensures var (p', committed) := Accept(p, a, asOf, x);
      && SameElsewhere(p, p', a.job.jobId) && Renewed(p, p', FromAdapter(a, asOf), committed)
      && committed == TryCommit(p, FromAdapter(a, asOf), x).1
  {
    hide TryCommit;
    TryCommitFrame(p, FromAdapter(a, asOf), x);
    assert FingerprintOf(a.job).status == a.job.status;
    hide FingerprintOf;
  }

  lemma FailureEffect(p: Polls, job: Job, asOf: nat, x: Ports)
    ensures var p' := AcceptFailure(p, job, asOf, x);
      && SameElsewhere(p, p', job.jobId)
      && Renewed(p, p', Failure(job, asOf), TryCommit(Stop(p, job.jobId), Failure(job, asOf), x).1)
  {
    TryCommitFrame(Stop(p, job.jobId), Failure(job, asOf), x);
    hide TryCommit;
  }

  lemma AttemptElsewhere(p: Polls, p1: Polls, j: string, asOf: nat, entry: Entry)
    requires p1.active == p.active && p1.nextPid == p.nextPid && p1.attempted == p.attempted[j := asOf]
    ensures SameElsewhere(p, p1, j)
    ensures SameElsewhere(p, p1.(active := p1.active - {j}), j)
    ensures SameElsewhere(p, p1.(active := p1.active[j := entry]), j)
  {
  }

  /** How a tried publication leaves its poll. */
  predicate Tried(p: Polls, p': Polls, j: string, poll: Poll, pub: Publication, committed: bool) {
    && p'.nextPid == p.nextPid && j in p'.attempted && p'.attempted[j] == pub.asOf
    && (if committed
        then (j in p'.active ==> p'.active[j].Tracking? && p'.active[j].poll.pid == poll.pid && p'.active[j].poll.pending.None?
                                 && p'.active[j].poll.inFlight == poll.inFlight && ShownOk(p'.active[j].poll))
        else j in p'.active && p'.active[j] == Tracking(poll))
  }

  /** Trying a held publication: it stays held by the same poll, or it is committed and the poll ends or goes on without it. */
  lemma RetryEffect(p: Polls, j: string, x: Ports)
    requires j in p.active && p.active[j].Tracking? && PollAbout(p.active[j].poll, j)
    ensures var p', poll := Retry(p, j, x), p.active[j].poll;
      && SameElsewhere(p, p', j)
      && (poll.pending.None? ==> p' == p)
      && (poll.pending.Some? ==> Tried(p, p', j, poll, poll.pending.value, TryCommit(p, poll.pending.value, x).1))
  {
    var poll := p.active[j].poll;
    if poll.pending.Some? {
      TryCommitFrame(p, poll.pending.value, x);
      AttemptElsewhere(p, TryCommit(p, poll.pending.value, x).0, j, poll.pending.value.asOf,
                       Tracking(poll.(pending := None, lastFingerprint := Some(FingerprintOf(poll.pending.value.Job())))));
    }
    hide TryCommit, FingerprintOf, Stops, SameElsewhere;
    SameAsItself(p, j);
  }

  lemma SameAsItself(p: Polls, j: string)
    ensures SameElsewhere(p, p, j)
  {
  }

  // ----- the invariant -----

  predicate IsTick(o: Op) {
    o.TickQueued? || o.AwaitTick?
  }

  /** A tick whose poll is still live has it marked as under way; while it reads, the poll holds nothing
      and nothing about the job was tried since the read began. */
  predicate TickOk(p: Polls, o: Op)
    requires IsTick(o)
  {
    && o.pid < p.nextPid
    && (Live(p, o.jobId, o.pid) ==>
          && p.active[o.jobId].poll.inFlight
          && (o.AwaitTick? ==> p.active[o.jobId].poll.pending.None? && (o.jobId in p.attempted ==> p.attempted[o.jobId] <= o.since)))
  }

  ghost predicate EntryOk(p: Polls, clock: nat, j: string) {
    && (j in p.attempted ==> p.attempted[j] < clock)
    && (j in p.active && p.active[j].Tracking? ==>
          && p.active[j].poll.pid < p.nextPid && ShownOk(p.active[j].poll)
          && (p.active[j].poll.pending.Some? ==> j in p.attempted && p.attempted[j] == p.active[j].poll.pending.value.asOf))
  }

  predicate SamePoll(p: Polls, o: Op, q: Op) {
    IsTick(o) && IsTick(q) && o.jobId == q.jobId && o.pid == q.pid && Live(p, o.jobId, o.pid)
  }

  ghost predicate TrackOk(w: World) {
    && (forall j :: EntryOk(w.p, w.clock, j))
    && (forall n :: n in w.ops && IsTick(w.ops[n]) ==> TickOk(w.p, w.ops[n]))
    && (forall n, m :: n in w.ops && m in w.ops && SamePoll(w.p, w.ops[n], w.ops[m]) ==> n == m)
    && (forall n :: n in w.ops && !w.ops[n].TickQueued? ==> w.ops[n].since < w.clock)
  }

  /** Calls that `w'` has beyond `w` are not ticks, and what they await was asked for by now. */
  ghost predicate NoNewTicks(w: World, w': World) {
    forall n :: n in w'.ops ==> (n in w.ops && w'.ops[n] == w.ops[n]) || (!IsTick(w'.ops[n]) && w'.ops[n].since <= w.clock)
  }

  lemma AskedBefore(w: World, n: nat)
    requires TrackOk(w) && n in w.ops && !w.ops[n].TickQueued?
    ensures w.ops[n].since < w.clock
  {
  }

  /** A step about one job that leaves no poll of it from before. */
  lemma RenewingStep(w: World, w': World, j: string)
    requires TrackOk(w) && SameElsewhere(w.p, w'.p, j) && NoNewTicks(w, w') && w'.clock == w.clock + 1
    requires j in w'.p.active && w'.p.active[j].Tracking? ==> w.p.nextPid <= w'.p.active[j].poll.pid
    requires EntryOk(w'.p, w'.clock, j)
    ensures TrackOk(w')
  {
    forall k ensures EntryOk(w'.p, w'.clock, k) {
      assert EntryOk(w.p, w.clock, k);
    }
    forall n | n in w'.ops && IsTick(w'.ops[n]) ensures TickOk(w'.p, w'.ops[n]) {
      assert TickOk(w.p, w.ops[n]);
    }
    forall n, m | n in w'.ops && m in w'.ops && SamePoll(w'.p, w'.ops[n], w'.ops[m]) ensures n == m {
      assert TickOk(w.p, w.ops[n]);
      assert SamePoll(w.p, w.ops[n], w.ops[m]);
    }
  }

  /** A step that leaves the table and the attempts alone. */
  lemma TableUntouched(w: World, w': World)
    requires TrackOk(w) && w'.p.active == w.p.active && w'.p.attempted == w.p.attempted && w'.p.nextPid == w.p.nextPid
    requires NoNewTicks(w, w') && (w'.clock == w.clock + 1 || (w'.clock == w.clock && w'.ops == w.ops))
    ensures TrackOk(w')
  {
    forall k ensures EntryOk(w'.p, w'.clock, k) {
      assert EntryOk(w.p, w.clock, k);
    }
    forall n | n in w'.ops && IsTick(w'.ops[n]) ensures TickOk(w'.p, w'.ops[n]) {
      assert TickOk(w.p, w.ops[n]);
    }
    forall n, m | n in w'.ops && m in w'.ops && SamePoll(w'.p, w'.ops[n], w'.ops[m]) ensures n == m {
      assert SamePoll(w.p, w.ops[n], w.ops[m]);
    }
  }

  lemma AcceptStep(w: World, w': World, a: AdapterJob, asOf: nat, x: Ports, n: nat)
    requires TrackOk(w) && asOf <= w.clock && w' == End(w, n, Accept(w.p, a, asOf, x).0)
    ensures TrackOk(w')
  {
    AcceptEffect(w.p, a, asOf, x);
    hide Accept, TryCommit, TrackOk;
    RenewingStep(w, w', a.job.jobId);
  }

  /** A failure reported about a job, after its entry may have been dropped. */
  lemma FailureStep(w: World, w': World, p: Polls, job: Job, asOf: nat, x: Ports)
    requires TrackOk(w) && asOf <= w.clock && (p == w.p || p == Dropped(w.p, job.jobId))
    requires w'.p == AcceptFailure(p, job, asOf, x) && NoNewTicks(w, w') && w'.clock == w.clock + 1
    ensures TrackOk(w')
  {
    hide AcceptFailure, TryCommit, TrackOk;
    FailureEffect(p, job, asOf, x);
    assert SameElsewhere(w.p, w'.p, job.jobId);
    hide SameElsewhere;
    RenewingStep(w, w', job.jobId);
  }

  /** An entry dropped or replaced by the placeholder, with or without an attempt on the way. */
  lemma EntryGoneStep(w: World, w': World, j: string)
    requires TrackOk(w) && SameElsewhere(w.p, w'.p, j) && NoNewTicks(w, w') && w'.clock == w.clock + 1
    requires j in w'.p.active ==> w'.p.active[j].Placeholder?
    requires j in w'.p.attempted ==> w'.p.attempted[j] <= w.clock || (j in w.p.attempted && w'.p.attempted[j] == w.p.attempted[j])
    ensures TrackOk(w')
  {
    assert EntryOk(w.p, w.clock, j);
    RenewingStep(w, w', j);
  }

  lemma TrackStep(w: World, w': World, job: Job, n: nat)
    requires TrackOk(w) && w' == End(w, n, Track(w.p, job, None, None))
    ensures TrackOk(w')
  {
    assert EntryOk(w.p, w.clock, job.jobId);
    RenewingStep(w, w', job.jobId);
  }

  lemma GrantKeepsTracks(w: World, n: nat, id: string, scoped: bool, validInput: bool, reuse: ReadResult, detail: Job, x: Ports)
    requires TrackOk(w) && n !in w.ops
    ensures TrackOk(Grant(w, n, id, scoped, validInput, reuse, detail, x))
  {
    var w' := Grant(w, n, id, scoped, validInput, reuse, detail, x);
    match Judge(w.p, id, scoped) {
      case Ignore =>
      case RefuseWithFailure =>
        hide Judge, TrackOk, AcceptFailure;
        FailureStep(w, w', w.p, FailureFor(w.p.s.gate.requests.data[id], detail), w.clock, x);
      case Delegate =>
        hide TrackOk, CanExecute, AllGranted;
        EntryGoneStep(w, w', w.p.s.gate.requests.data[id].jobId);
    }
  }

  lemma FailedCreateKeepsTracks(w: World, n: nat, detail: Job, x: Ports)
    requires TrackOk(w) && n in w.ops && w.ops[n].CreateSettled? && w.ops[n].result.NotGot?
    ensures TrackOk(CreateReturns(w, n, detail, x))
  {
    var r := w.ops[n].request;
    AskedBefore(w, n);
    hide TrackOk, AcceptFailure, Dropped;
    FailureStep(w, CreateReturns(w, n, detail, x), Dropped(w.p, r.jobId), FailureFor(r, detail), w.ops[n].since, x);
  }

  lemma MadeCreateKeepsTracks(w: World, n: nat, detail: Job, x: Ports)
    requires TrackOk(w) && n in w.ops && w.ops[n].CreateSettled? && w.ops[n].result.Got? && Answers(w.ops[n].result, w.ops[n].request.jobId)
    ensures TrackOk(CreateReturns(w, n, detail, x))
  {
    hide TrackOk, Accept, PublishCreated, CanExecute, Spend, StartCancel;
    var r, a := w.ops[n].request, w.ops[n].result.a;
    var w' := CreateReturns(w, n, detail, x);
    var w1 := w.(p := w.p.(s := w.p.s.(gate := Spend(w.p.s.gate, r.jobId, r.requestedPermissions))));
    AskedBefore(w, n);
    TableUntouched(w, w1);
    if CanExecute(w1.p.s.live, AffairOf(r), r.jobId) {
      AcceptStep(w1, w', a, w.ops[n].since, x, n);
    } else {
      WithdrawnKeepsTracks(w1, n, a, x);
    }
  }

  lemma WithdrawnKeepsTracks(w: World, n: nat, a: AdapterJob, x: Ports)
    requires TrackOk(w) && n in w.ops && w.ops[n].CreateSettled? && a.job.jobId == w.ops[n].request.jobId
    ensures var r := w.ops[n].request;
      TrackOk(StartCancel(w.(p := Withdrawn(w, n, a, x)), n, r.jobId, AffairOf(r), !Unnamed(r)))
  {
    hide TrackOk, PublishCreated;
    AskedBefore(w, n);
    var r := w.ops[n].request;
    EntryGoneStep(w, StartCancel(w.(p := Withdrawn(w, n, a, x)), n, r.jobId, AffairOf(r), !Unnamed(r)), r.jobId);
  }

  lemma CreateReturnsKeepsTracks(w: World, n: nat, detail: Job, x: Ports)
    requires TrackOk(w) && n in w.ops && w.ops[n].CreateSettled? && Answers(w.ops[n].result, w.ops[n].request.jobId)
    ensures TrackOk(CreateReturns(w, n, detail, x))
  {
    hide TrackOk, CreateReturns;
    if w.ops[n].result.Got? {
      MadeCreateKeepsTracks(w, n, detail, x);
    } else {
      FailedCreateKeepsTracks(w, n, detail, x);
    }
  }

  lemma RegisteredKeepsTracks(w: World, n: nat, found: bool, x: Ports)
    requires TrackOk(w) && n in w.ops && w.ops[n].AwaitRegistered? && (w.ops[n].local.Some? ==> w.ops[n].local.value.jobId == w.ops[n].jobId)
    ensures TrackOk(RegisteredResumes(w, n, found, x).0)
  {
    var w' := RegisteredResumes(w, n, found, x).0;
    var AwaitRegistered(jobId, local, affairId, since, queued) := w.ops[n];
    AskedBefore(w, n);
    hide TrackOk, Publish, ProjectToPhone;
    if CancelsLocally(w, jobId, local, found) {
      EntryGoneStep(w, w', jobId);
    } else {
      TableUntouched(w, w');
    }
  }

  // ----- ticks -----

  lemma ScheduleKeepsTracks(w: World, n: nat, j: string)
    requires TrackOk(w) && n !in w.ops && Schedule(w.p, j).1.Some?
    ensures TrackOk(Go(w, n, TickQueued(j, Schedule(w.p, j).1.value), Schedule(w.p, j).0))
  {
    var w' := Go(w, n, TickQueued(j, Schedule(w.p, j).1.value), Schedule(w.p, j).0);
    forall k ensures EntryOk(w'.p, w'.clock, k) {
      assert EntryOk(w.p, w.clock, k);
    }
    assert EntryOk(w.p, w.clock, j);
    forall m | m in w.ops && IsTick(w.ops[m]) ensures TickOk(w'.p, w.ops[m]) && !(w.ops[m].jobId == j && w.ops[m].pid == w'.ops[n].pid) {
      assert TickOk(w.p, w.ops[m]);
    }
    forall l, m | l in w'.ops && m in w'.ops && SamePoll(w'.p, w'.ops[l], w'.ops[m]) ensures l == m {
      if l != n && m != n {
        assert SamePoll(w.p, w.ops[l], w.ops[m]);
      }
    }
  }

  /** A tick that ends, leaving its own poll at rest, gone, or holding what was last tried. */
  ghost predicate TickEnded(p: Polls, p': Polls, j: string, pid: nat, clock: nat) {
    && SameElsewhere(p, p', j) && p'.nextPid == p.nextPid
    && (if Live(p, j, pid)
        then (j in p'.active ==> Live(p', j, pid) && ShownOk(p'.active[j].poll)
                                 && (p'.active[j].poll.pending.Some? ==> j in p'.attempted && p'.attempted[j] == p'.active[j].poll.pending.value.asOf))
        else p' == p)
    && (j in p'.attempted ==> p'.attempted[j] < clock)
  }

  lemma EndedTickKeepsTracks(w: World, n: nat, p: Polls)
    requires TrackOk(w) && n in w.ops && IsTick(w.ops[n]) && TickEnded(w.p, p, w.ops[n].jobId, w.ops[n].pid, w.clock + 1)
    ensures TrackOk(End(w, n, p))
  {
    var w', j := End(w, n, p), w.ops[n].jobId;
    forall k ensures EntryOk(w'.p, w'.clock, k) {
      assert EntryOk(w.p, w.clock, k);
    }
    forall m | m in w'.ops && IsTick(w'.ops[m]) ensures TickOk(w'.p, w'.ops[m]) {
      assert TickOk(w.p, w.ops[m]) && TickOk(w.p, w.ops[n]);
      assert SamePoll(w.p, w.ops[n], w.ops[m]) ==> n == m;
    }
    forall l, m | l in w'.ops && m in w'.ops && SamePoll(w'.p, w'.ops[l], w'.ops[m]) ensures l == m {
      assert TickOk(w.p, w.ops[l]);
      assert SamePoll(w.p, w.ops[l], w.ops[m]);
    }
  }

  lemma FinishEffect(p: Polls, p0: Polls, j: string, pid: nat, clock: nat)
    requires SameElsewhere(p, p0, j) && p0.nextPid == p.nextPid && Live(p, j, pid)
    requires j in p0.active ==> Live(p0, j, pid) && ShownOk(p0.active[j].poll) && (p0.active[j].poll.pending.Some? ==>
      j in p0.attempted && p0.attempted[j] == p0.active[j].poll.pending.value.asOf)
    requires j in p0.attempted ==> p0.attempted[j] < clock
    ensures TickEnded(p, Finish(p0, j, pid), j, pid, clock)
  {
  }

  /** Handing a result to a live poll that holds nothing, and trying it. */
  lemma HandOverEffect(p: Polls, j: string, pid: nat, lastJob: Job, pub: Publication, clock: nat, x: Ports)
    requires Live(p, j, pid) && ShownOk(p.active[j].poll) && lastJob.jobId == j && pub.Job().jobId == j && pub.asOf < clock
    ensures var p0 := WithPoll(p, j, p.active[j].poll.(lastJob := lastJob, pending := Some(pub)));
      && Live(p0, j, pid) && TickEnded(p, Finish(Retry(p0, j, x), j, pid), j, pid, clock)
      && Tried(p0, Retry(p0, j, x), j, p0.active[j].poll, pub, TryCommit(p0, pub, x).1)
      && j in Finish(Retry(p0, j, x), j, pid).attempted && Finish(Retry(p0, j, x), j, pid).attempted[j] == pub.asOf
  {
    var p0 := WithPoll(p, j, p.active[j].poll.(lastJob := lastJob, pending := Some(pub)));
    RetryEffect(p0, j, x);
    hide Retry, TryCommit;
    FinishEffect(p, Retry(p0, j, x), j, pid, clock);
  }

  lemma HeldTickEnds(p: Polls, j: string, pid: nat, clock: nat, x: Ports)
    requires EntryOk(p, clock, j) && Live(p, j, pid) && p.active[j].poll.pending.Some? && PollAbout(p.active[j].poll, j)
    ensures TickEnded(p, Finish(Retry(p, j, x), j, pid), j, pid, clock + 1)
  {
    RetryEffect(p, j, x);
    hide Retry, TryCommit;
    FinishEffect(p, Retry(p, j, x), j, pid, clock + 1);
  }

  lemma IdleTickEnds(p: Polls, j: string, pid: nat, clock: nat, lastJob: Job)
    requires EntryOk(p, clock, j) && Live(p, j, pid)
    ensures TickEnded(p, Finish(p, j, pid), j, pid, clock + 1)
    ensures TickEnded(p, Finish(WithPoll(p, j, p.active[j].poll.(lastJob := lastJob)), j, pid), j, pid, clock + 1)
  {
  }

  lemma StaleTickEnds(p: Polls, j: string, pid: nat, clock: nat)
    requires EntryOk(p, clock, j) && !Live(p, j, pid)
    ensures TickEnded(p, p, j, pid, clock + 1)
  {
  }

  lemma TickStartsKeepsTracks(w: World, n: nat, x: Ports)
    requires TrackOk(w) && PendingAbout(w.p) && n in w.ops && w.ops[n].TickQueued?
    ensures TrackOk(TickStarts(w, n, x))
  {
    var TickQueued(j, pid) := w.ops[n];
    assert EntryOk(w.p, w.clock, j);
    hide TrackOk, EntryOk, Retry;
    if !Live(w.p, j, pid) {
      StaleTickEnds(w.p, j, pid, w.clock);
      EndedTickKeepsTracks(w, n, w.p);
    } else if w.p.active[j].poll.pending.Some? {
      HeldTickEnds(w.p, j, pid, w.clock, x);
      hide Finish, TickEnded;
      EndedTickKeepsTracks(w, n, Finish(Retry(w.p, j, x), j, pid));
    } else {
      ReadingKeepsTracks(w, n);
    }
  }

  lemma ReadingKeepsTracks(w: World, n: nat)
    requires TrackOk(w) && n in w.ops && w.ops[n].TickQueued? && Live(w.p, w.ops[n].jobId, w.ops[n].pid)
    requires w.p.active[w.ops[n].jobId].poll.pending.None?
    ensures TrackOk(Go(w, n, AwaitTick(w.ops[n].jobId, w.ops[n].pid, w.clock), w.p))
  {
    var w' := Go(w, n, AwaitTick(w.ops[n].jobId, w.ops[n].pid, w.clock), w.p);
    assert EntryOk(w.p, w.clock, w.ops[n].jobId) && TickOk(w.p, w.ops[n]);
    forall k ensures EntryOk(w'.p, w'.clock, k) {
      assert EntryOk(w.p, w.clock, k);
    }
    forall m | m in w'.ops && IsTick(w'.ops[m]) ensures TickOk(w'.p, w'.ops[m]) {
      assert IsTick(w.ops[m]) && TickOk(w.p, w.ops[m]);
    }
    forall l, m | l in w'.ops && m in w'.ops && SamePoll(w'.p, w'.ops[l], w'.ops[m]) ensures l == m {
      assert SamePoll(w.p, w.ops[l], w.ops[m]);
    }
  }

  lemma TickResumesKeepsTracks(w: World, n: nat, r: ReadResult, x: Ports)
    requires TrackOk(w) && PendingAbout(w.p) && n in w.ops && w.ops[n].AwaitTick? && Answers(r, w.ops[n].jobId)
    ensures TrackOk(End(w, n, TickResume(w.p, w.ops[n].jobId, w.ops[n].pid, r, w.ops[n].since, x)))
  {
    var AwaitTick(j, pid, since) := w.ops[n];
    assert EntryOk(w.p, w.clock, j) && since < w.clock;
    TickResumeEnds(w.p, j, pid, r, since, w.clock, x);
    hide TrackOk, TickResume, TickEnded;
    EndedTickKeepsTracks(w, n, TickResume(w.p, j, pid, r, since, x));
  }

  lemma TickResumeEnds(p: Polls, j: string, pid: nat, r: ReadResult, since: nat, clock: nat, x: Ports)
    requires EntryOk(p, clock, j) && PendingAbout(p) && since < clock && Answers(r, j)
    ensures TickEnded(p, TickResume(p, j, pid, r, since, x), j, pid, clock + 1)
  {
    assert Live(p, j, pid) ==> ShownOk(p.active[j].poll);
    hide EntryOk, Retry, TickEnded;
    if !Live(p, j, pid) {
      StaleTickEnds(p, j, pid, clock);
    } else {
      var poll := p.active[j].poll;
      match r {
        case NotGot(message, code, retryable) =>
          IdleTickEnds(p, j, pid, clock, poll.lastJob);
          HandOverEffect(p, j, pid, poll.lastJob, Failure(ReadFailure(poll.lastJob, message, code), since), clock + 1, x);
          assert poll.(lastJob := poll.lastJob, pending := Some(Failure(ReadFailure(poll.lastJob, message, code), since)))
              == poll.(pending := Some(Failure(ReadFailure(poll.lastJob, message, code), since)));
        case Got(a) =>
          IdleTickEnds(p, j, pid, clock, a.job);
          HandOverEffect(p, j, pid, a.job, FromAdapter(a, since), clock + 1, x);
          var p1 := WithPoll(p, j, poll.(lastJob := a.job));
          assert WithPoll(p1, j, p1.active[j].poll.(pending := Some(FromAdapter(a, since))))
              == WithPoll(p, j, poll.(lastJob := a.job, pending := Some(FromAdapter(a, since)))) by {
            assert p.active[j := Tracking(poll.(lastJob := a.job))][j := Tracking(poll.(lastJob := a.job, pending := Some(FromAdapter(a, since))))]
                == p.active[j := Tracking(poll.(lastJob := a.job, pending := Some(FromAdapter(a, since))))];
          }
      }
    }
  }

  // ----- all steps, all runs -----

  lemma NextKeepsTracks(w: World, st: Step)
    requires WorldOk(w) && TrackOk(w) && Enabled(w, st)
    ensures TrackOk(Next(w, st))
  {
    AboutOf(w);
    AnswersOf(w, st);
    hide WorldOk, TrackOk, FreshPorts, OutsideOk, PendingAbout, Accept, AcceptFailure, TickStarts, TickResume, Judge, SameElsewhere, CachedResumes,
      RegisteredResumes, RejectPermission, CreateReturns, StartCancel;
    match st {
      case SGrant(n, id, scoped, validInput, reuse, detail, x) => GrantKeepsTracks(w, n, id, scoped, validInput, reuse, detail, x);
      case SRunCreated(n, made) => UntouchedKeepsTracks(w, st);
      case SCreateReturns(n, detail, x) => CreateReturnsKeepsTracks(w, n, detail, x);
      case SCreateThrows(n) => ThrownKeepsTracks(w, n);
      case SReject(id, detail, x) => RejectKeepsTracks(w, id, detail, x);
      case SSchedule(n, j) => ScheduleStep(w, n, j);
      case STickStarts(n, x) => TickStartsKeepsTracks(w, n, x);
      case STickResumes(n, r, x) => TickResumesKeepsTracks(w, n, r, x);
      case SRestore(n, j) => UntouchedKeepsTracks(w, st);
      case SRestoreResumes(n, r, x) => RestoreResumesKeepsTracks(w, n, r, x);
      case SCachedResumes(n, cached, x) => CachedKeepsTracks(w, n, cached, x);
      case SCancel(n, j, affairId, queued) => UntouchedKeepsTracks(w, st);
      case SRegisteredResumes(n, found, x) => RegisteredKeepsTracks(w, n, found, x);
      case SCancelResumes(n, r, x) => CancelResumesKeepsTracks(w, n, r, x);
      case SOutside(s) => UntouchedKeepsTracks(w, st);
    }
  }

  lemma UntouchedKeepsTracks(w: World, st: Step)
    requires TrackOk(w) && Enabled(w, st) && (st.SRunCreated? || st.SRestore? || st.SCancel? || st.SOutside?)
    ensures TrackOk(Next(w, st))
  {
    if st.SRunCreated? {
      AskedBefore(w, st.op);
    }
    hide TrackOk, OutsideOk;
    TableUntouched(w, Next(w, st));
  }

  lemma ThrownKeepsTracks(w: World, n: nat)
    requires TrackOk(w) && n in w.ops && Outstanding(w.ops[n])
    ensures TrackOk(End(w, n, Dropped(w.p, w.ops[n].request.jobId)))
  {
    hide TrackOk;
    EntryGoneStep(w, End(w, n, Dropped(w.p, w.ops[n].request.jobId)), w.ops[n].request.jobId);
  }

  /** What the world's invariant says about the call that a step resumes. */
  lemma AnswersOf(w: World, st: Step)
    requires WorldOk(w) && Enabled(w, st)
    ensures st.SCreateReturns? ==> Answers(w.ops[st.op].result, w.ops[st.op].request.jobId)
    ensures st.SRegisteredResumes? ==> (w.ops[st.op].local.Some? ==> w.ops[st.op].local.value.jobId == w.ops[st.op].jobId)
  {
    if st.SCreateReturns? || st.SRegisteredResumes? {
      assert OpOk(w, w.ops[st.op]);
    }
  }

  lemma RejectKeepsTracks(w: World, id: string, detail: Job, x: Ports)
    requires TrackOk(w)
    ensures TrackOk(RejectPermission(w, id, detail, x))
  {
    if RejectPermission(w, id, detail, x) != w {
      hide TrackOk, AcceptFailure;
      FailureStep(w, RejectPermission(w, id, detail, x), w.p, FailureFor(w.p.s.gate.requests.data[id], detail), w.clock, x);
    }
  }

  lemma ScheduleStep(w: World, n: nat, j: string)
    requires TrackOk(w) && n !in w.ops
    ensures TrackOk(Next(w, SSchedule(n, j)))
  {
    hide TrackOk;
    if Schedule(w.p, j).1.Some? {
      ScheduleKeepsTracks(w, n, j);
    }
  }

  lemma RestoreResumesKeepsTracks(w: World, n: nat, r: ReadResult, x: Ports)
    requires TrackOk(w) && n in w.ops && w.ops[n].AwaitRestore?
    ensures TrackOk(if r.Got? then End(w, n, Accept(w.p, r.a, w.ops[n].since, x).0)
                    else Go(w, n, AwaitCached(w.ops[n].jobId, r.message, r.code, r.retryable, w.ops[n].since), w.p))
  {
    AskedBefore(w, n);
    hide TrackOk, Accept;
    if r.Got? {
      AcceptStep(w, End(w, n, Accept(w.p, r.a, w.ops[n].since, x).0), r.a, w.ops[n].since, x, n);
    } else {
      TableUntouched(w, Go(w, n, AwaitCached(w.ops[n].jobId, r.message, r.code, r.retryable, w.ops[n].since), w.p));
    }
  }

  lemma CancelResumesKeepsTracks(w: World, n: nat, r: ReadResult, x: Ports)
    requires TrackOk(w) && n in w.ops && w.ops[n].AwaitCancel?
    ensures TrackOk(CancelResumes(w, n, r, x).0)
  {
    AskedBefore(w, n);
    hide TrackOk, Accept;
    if r.Got? {
      AcceptStep(w, CancelResumes(w, n, r, x).0, r.a, w.ops[n].since, x, n);
    } else {
      TableUntouched(w, CancelResumes(w, n, r, x).0);
    }
  }

  lemma CachedKeepsTracks(w: World, n: nat, cached: Option<AdapterJob>, x: Ports)
    requires TrackOk(w) && n in w.ops && w.ops[n].AwaitCached?
    ensures TrackOk(CachedResumes(w, n, cached, x))
  {
    var AwaitCached(jobId, message, code, retryable, since) := w.ops[n];
    var previous := if cached.Some? then Some(cached.value.job) else Get(w.p.s.live.jobs, jobId);
    AskedBefore(w, n);
    hide TrackOk, AcceptFailure, Track;
    if previous.None? {
      TableUntouched(w, CachedResumes(w, n, cached, x));
    } else {
      var job := previous.value.(progressSummary := Some(previous.value.progressSummary.GetOr(Given(""))));
      if retryable {
        TrackStep(w, CachedResumes(w, n, cached, x), job, n);
      } else {
        FailureStep(w, CachedResumes(w, n, cached, x), w.p, ReadFailure(job, message, code), since, x);
      }
    }
  }

  ghost predicate IsFreshRun(ws: seq<World>, steps: seq<Step>) {
    IsRun(ws, steps) && ws[0].p.attempted == map[]
  }

  lemma {:induction false} RunKeepsTracks(ws: seq<World>, steps: seq<Step>, n: nat)
    requires IsFreshRun(ws, steps) && n < |ws|
    ensures WorldOk(ws[n]) && TrackOk(ws[n])
  {
    RunKeepsOk(ws, steps, n);
    if n > 0 {
      hide WorldOk, TrackOk, Enabled, Next;
      RunKeepsTracks(ws, steps, n - 1);
      NextKeepsTracks(ws[n - 1], steps[n - 1]);
    }
  }

  // ----- what is never lost -----

  predicate Held(p: Polls, j: string, pub: Publication) {
    j in p.active && p.active[j].Tracking? && p.active[j].poll.pending == Some(pub)
  }

  /** The publication that a step hands to `accept` or `fail`, with the table and ports it finds there. */
  ghost function Handed(w: World, st: Step): Option<(Polls, Publication, Ports)>
    requires Enabled(w, st)
  {
    match st
    case SGrant(_, id, scoped, _, _, detail, x) =>
      if Judge(w.p, id, scoped) == RefuseWithFailure then
        var job := FailureFor(w.p.s.gate.requests.data[id], detail);
        Some((Stop(w.p, job.jobId), Failure(job, w.clock), x))
      else None
    case SReject(id, detail, x) =>
      if RejectPermission(w, id, detail, x) == w then None
      else
        var job := FailureFor(w.p.s.gate.requests.data[id], detail);
        Some((Stop(w.p, job.jobId), Failure(job, w.clock), x))
    case SCreateReturns(n, detail, x) =>
      var r := w.ops[n].request;
      (match w.ops[n].result
       case NotGot(_, _, _) => Some((Stop(Dropped(w.p, r.jobId), r.jobId), Failure(FailureFor(r, detail), w.ops[n].since), x))
       case Got(a) =>
         var p1 := w.p.(s := w.p.s.(gate := Spend(w.p.s.gate, r.jobId, r.requestedPermissions)));
         if CanExecute(p1.s.live, AffairOf(r), r.jobId) then Some((p1, FromAdapter(a, w.ops[n].since), x)) else None)
    case SRestoreResumes(n, r, x) => if r.Got? then Some((w.p, FromAdapter(r.a, w.ops[n].since), x)) else None
    case SCachedResumes(n, cached, x) =>
      var previous := if cached.Some? then Some(cached.value.job) else Get(w.p.s.live.jobs, w.ops[n].jobId);
      if previous.None? || w.ops[n].retryable then None
      else
        var job := ReadFailure(previous.value.(progressSummary := Some(previous.value.progressSummary.GetOr(Given("")))), w.ops[n].message, w.ops[n].code);
        Some((Stop(w.p, job.jobId), Failure(job, w.ops[n].since), x))
    case SCancelResumes(n, r, x) => if r.Got? then Some((w.p, FromAdapter(r.a, w.ops[n].since), x)) else None
    case _ => None
  }

  lemma HandedResultIsKept(w: World, st: Step)
    requires Enabled(w, st) && Handed(w, st).Some? && Handed(w, st).value.1.FromAdapter?
    ensures var (base, pub, x) := Handed(w, st).value;
      && Next(w, st).p == Accept(base, pub.a, pub.asOf, x).0 && base.nextPid == w.p.nextPid
  {
    hide TryCommit, Accept, AcceptFailure, FreshPorts, CanExecute, Judge, Spend, OutsideOk, RejectPermission;
  }

  lemma HandedFailureIsKept(w: World, st: Step)
    requires Enabled(w, st) && Handed(w, st).Some? && Handed(w, st).value.1.Failure?
    ensures var (base, pub, x) := Handed(w, st).value;
      var p0 := if st.SCreateReturns? then Dropped(w.p, pub.job.jobId) else w.p;
      base == Stop(p0, pub.job.jobId) && Next(w, st).p == AcceptFailure(p0, pub.job, pub.asOf, x)
  {
    hide TryCommit, Accept, AcceptFailure, FreshPorts, CanExecute, Judge, Spend, OutsideOk, Dropped;
  }

  /** The moment that a result which a step hands over counts as of: when the call that brings it asked for it,
      or now for a refusal by the user or by the checks of a grant. */
  function Moment(w: World, st: Step): nat
    requires Enabled(w, st)
  {
    if st.SGrant? || st.SReject? || st.SOutside? || st.op !in w.ops || w.ops[st.op].TickQueued? then w.clock else w.ops[st.op].since
  }

  /** Whatever is handed to `accept` or `fail` is committed in that very step, or held from then on by a new
      poll of its job, which is the job's only one. */
  lemma EveryResultIsKept(w: World, st: Step)
    requires Enabled(w, st) && Handed(w, st).Some?
    ensures var (base, pub, x) := Handed(w, st).value;
      Renewed(w.p, Next(w, st).p, pub, TryCommit(base, pub, x).1) && pub.asOf == Moment(w, st)
  {
    var (base, pub, x) := Handed(w, st).value;
    if pub.FromAdapter? {
      HandedResultIsKept(w, st);
      AcceptEffect(base, pub.a, pub.asOf, x);
    } else {
      HandedFailureIsKept(w, st);
      FailedFromBase(w, base, pub.job, pub.asOf, x);
    }
    MomentOfHanded(w, st);
    hide TryCommit, Accept, AcceptFailure, Enabled, Next, Handed;
  }

  lemma MomentOfHanded(w: World, st: Step)
    requires Enabled(w, st) && Handed(w, st).Some?
    ensures Handed(w, st).value.1.asOf == Moment(w, st)
  {
    hide TryCommit, CanExecute, Judge, Spend, OutsideOk, FreshPorts, RejectPermission;
  }

  lemma FailedFromBase(w: World, base: Polls, job: Job, asOf: nat, x: Ports)
    ensures Renewed(w.p, AcceptFailure(w.p, job, asOf, x), Failure(job, asOf), TryCommit(Stop(w.p, job.jobId), Failure(job, asOf), x).1)
    ensures Renewed(w.p, AcceptFailure(Dropped(w.p, job.jobId), job, asOf, x), Failure(job, asOf),
                    TryCommit(Stop(Dropped(w.p, job.jobId), job.jobId), Failure(job, asOf), x).1)
  {
    FailureEffect(w.p, job, asOf, x);
    FailureEffect(Dropped(w.p, job.jobId), job, asOf, x);
    hide TryCommit, AcceptFailure;
  }

  /** The publication that a tick makes of what it has read, if anything about it is new. */
  function ReadPublication(p: Polls, o: Op, r: ReadResult): Option<Publication>
    requires o.AwaitTick?
  {
    if !Live(p, o.jobId, o.pid) then None
    else
      var poll := p.active[o.jobId].poll;
      match r
      case NotGot(message, code, retryable) =>
        if retryable then None else Some(Failure(ReadFailure(poll.lastJob, message, code), o.since))
      case Got(a) => if Some(FingerprintOf(a.job)) == poll.lastFingerprint then None else Some(FromAdapter(a, o.since))
  }

  /** What a tick has read is committed before the tick ends, or held by the very poll that read it. */
  lemma TickResultIsKept(w: World, n: nat, r: ReadResult, x: Ports)
    requires TrackOk(w) && PendingAbout(w.p) && n in w.ops && w.ops[n].AwaitTick? && Answers(r, w.ops[n].jobId)
    requires ReadPublication(w.p, w.ops[n], r).Some?
    ensures var AwaitTick(j, pid, since) := w.ops[n];
      var pub := ReadPublication(w.p, w.ops[n], r).value;
      var p0 := WithPoll(w.p, j, w.p.active[j].poll.(lastJob := if r.Got? then r.a.job else w.p.active[j].poll.lastJob, pending := Some(pub)));
      var p' := TickResume(w.p, j, pid, r, since, x);
      if TryCommit(p0, pub, x).1 then !Held(p', j, pub) else Held(p', j, pub) && Live(p', j, pid)
  {
    var AwaitTick(j, pid, since) := w.ops[n];
    var poll := w.p.active[j].poll;
    assert EntryOk(w.p, w.clock, j) && ShownOk(poll);
    hide TrackOk, EntryOk, Retry, TryCommit, ShownOk, TickEnded, FingerprintOf;
    var pub := ReadPublication(w.p, w.ops[n], r).value;
    var lastJob := if r.Got? then r.a.job else poll.lastJob;
    HandOverEffect(w.p, j, pid, lastJob, pub, since + 1, x);
    var p0 := WithPoll(w.p, j, poll.(lastJob := lastJob, pending := Some(pub)));
    assert TickResume(w.p, j, pid, r, since, x) == Finish(Retry(p0, j, x), j, pid) by {
      if r.Got? {
        assert w.p.active[j := Tracking(poll.(lastJob := r.a.job))][j := Tracking(poll.(lastJob := r.a.job, pending := Some(pub)))]
            == w.p.active[j := Tracking(poll.(lastJob := r.a.job, pending := Some(pub)))];
      } else {
        assert poll.(lastJob := poll.lastJob, pending := Some(pub)) == poll.(pending := Some(pub));
      }
    }
  }

  /** While a poll holds a result the runtime is not read for it. */
  lemma NoReadWhileHeld(ws: seq<World>, steps: seq<Step>, m: nat, n: nat)
    requires IsFreshRun(ws, steps) && m < |ws| && n in ws[m].ops && ws[m].ops[n].AwaitTick?
    ensures Live(ws[m].p, ws[m].ops[n].jobId, ws[m].ops[n].pid) ==> ws[m].p.active[ws[m].ops[n].jobId].poll.pending.None?
  {
    RunKeepsTracks(ws, steps, m);
    assert TickOk(ws[m].p, ws[m].ops[n]);
  }
}
