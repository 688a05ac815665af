/** What every reachable state of the authority machine keeps, and why every step keeps it. */
module Invariant {
  import opened Option
  import opened JsMap
  import opened Status
  import opened Types
  import opened Store
  import opened Reconcile
  import opened Mirror
  import opened Closing
  import opened Coordinator
  import opened Authority
  import C = Create
  import G = Gate

  // ----- close records against affairs -----

  predicate CommitMatches(b: Backend, c: CloseCommand, result: CloseResult) {
    && c.affairId in b.affairs.data && b.affairs.data[c.affairId].status == c.status.Affair()
    && result.affair.affairId == c.affairId && result.affair.status == c.status.Affair()
    && forall i :: 0 <= i < |result.jobs| ==> result.jobs[i].affairId == c.affairId
  }

  /** A record's outcome fits its phase, and a committed one fits the affair. */
  predicate RecordOk(b: Backend, r: Record) {
    ValidCommand(r.command) &&
    match r.phase
    case Pending => r.outcome == None
    case Rejected => r.outcome.Some? && r.outcome.value.Err? && !r.outcome.value.retryable
    case Committed => r.outcome.Some? && r.outcome.value.Ok? && !r.outcome.value.duplicate && CommitMatches(b, r.command, r.outcome.value.result)
  }

  predicate PendingAt(records: map<Key, Record>, k: Key, a: string) {
    k in records && IsPendingFor(records[k], a)
  }

  predicate CommittedAt(records: map<Key, Record>, k: Key, a: string) {
    k in records && records[k].phase == Committed && records[k].command.affairId == a
  }

  ghost predicate HasCommit(records: map<Key, Record>, a: string) {
    exists k :: CommittedAt(records, k, a)
  }

  /** Records and affairs agree: at most one pending and at most one committed close per affair, and an
      affair has ended exactly if one is committed. */
  ghost predicate Consistent(b: Backend) {
    && (forall k :: k in b.actions.data ==> RecordOk(b, b.actions.data[k]))
    && (forall a, k, l :: PendingAt(b.actions.data, k, a) && PendingAt(b.actions.data, l, a) ==> k == l)
    && (forall a, k, l :: CommittedAt(b.actions.data, k, a) && CommittedAt(b.actions.data, l, a) ==> k == l)
    && (forall a :: AffairEnded(b, a) ==> HasCommit(b.actions.data, a))
  }

  /** Registered jobs have real ids, as the validators demand of every message. */
  ghost predicate Named(b: Backend) {
    forall j :: j in b.jobs.data ==> j != "" && b.jobs.data[j].affairId != ""
  }

  ghost predicate Good(b: Backend) {
    WellKeyed(b) && WellOrdered(b) && Consistent(b) && Named(b)
  }

  // ----- runs and the mirror file -----

  predicate Held(b: Backend, r: Record) {
    r.key in b.actions.data && b.actions.data[r.key] == r && r.phase == Pending
  }

  predicate ChildrenKnown(b: Backend, children: seq<Job>) {
    forall i :: 0 <= i < |children| ==> children[i].jobId in b.jobs.data
  }

  /** A run that is past its first check holds the affair's only pending record, and the affair has not ended. */
  ghost predicate Progressing(b: Backend, run: Run) {
    && Held(b, run.record) && run.record.command.status == ToCanceled
    && !AffairEnded(b, run.record.command.affairId)
  }

  predicate AnswerRecorded(b: Backend, r: Record, outcome: Outcome) {
    if outcome == UNCONFIRMED then Held(b, r)
    else
      && r.key in b.actions.data
      && b.actions.data[r.key] == r.(phase := if outcome.Ok? then Committed else Rejected, outcome := Some(outcome))
  }

  ghost predicate RunOk(b: Backend, run: Run) {
    match run.phase
    case InLine => Held(b, run.record)
    case Cancelling(children, next) => Progressing(b, run) && next <= |children| && ChildrenKnown(b, children)
    case AwaitingPort(children, next) => Progressing(b, run) && next < |children| && ChildrenKnown(b, children)
    case Confirming => Progressing(b, run)
    case Done(outcome) => AnswerRecorded(b, run.record, outcome)
  }

  ghost predicate RunsOk(s: System) {
    forall key :: key in s.running ==> s.running[key].record.key == key && RunOk(s.live, s.running[key])
  }

  function OnDisk(s: System): Backend {
    Hydrate(EMPTY_BACKEND, s.disk)
  }

  /** Between steps the file holds the very records that memory holds. */
  ghost predicate DiskOk(s: System) {
    OnDisk(s).actions == s.live.actions && Good(OnDisk(s))
  }

  ghost predicate Inv(s: System) {
    Good(s.live) && RunsOk(s) && DiskOk(s)
  }

  const INITIAL := System(EMPTY_BACKEND, [], Snapshot(EMPTY_BACKEND, []), G.EMPTY_GATE, map[])

  lemma InitialInv()
    ensures Inv(INITIAL)
  {
    HydrateAfterSnapshot(EMPTY_BACKEND, EMPTY_BACKEND, []);
  }

  predicate SameCore(b: Backend, b': Backend) {
    b.actions == b'.actions && b.affairs == b'.affairs && b.jobs == b'.jobs
  }

  lemma SameCoreSameGood(b: Backend, b': Backend)
    requires Good(b) && SameCore(b, b')
    ensures Good(b')
  {
    forall a | AffairEnded(b', a) ensures HasCommit(b'.actions.data, a) {
      assert AffairEnded(b, a);
    }
  }

  lemma SaveKeepsDisk(s: System, saved: bool)
    requires Good(s.live) && (saved || DiskOk(s))
    ensures DiskOk(Save(s, saved))
  {
    if saved {
      HydrateAfterSnapshot(EMPTY_BACKEND, s.live, s.pending);
      SameCoreSameGood(s.live, OnDisk(Save(s, true)));
    }
  }

  // ----- changes that end no affair -----

  /** A lawful change that keeps order and names. */
  ghost predicate Quiet(b: Backend, b': Backend) {
    Lawful(b, b') && WellOrdered(b') && Named(b')
  }

  lemma LawfulKeepsConsistent(b: Backend, b': Backend)
    requires WellKeyed(b) && Consistent(b) && Lawful(b, b')
    ensures Consistent(b')
  {
    forall k | k in b'.actions.data ensures RecordOk(b', b'.actions.data[k]) {
      var r := b.actions.data[k];
      assert RecordOk(b, r);
      if r.phase == Committed {
        LawfulKeepsEndings(b, b', r.command.affairId);
      }
    }
    forall a | AffairEnded(b', a) ensures AffairEnded(b, a) {
      LawfulKeepsEndings(b, b', a);
    }
  }

  lemma QuietKeepsRun(b: Backend, b': Backend, run: Run)
    requires RunOk(b, run) && Quiet(b, b')
    ensures RunOk(b', run)
  {
    if PastChecks(run.phase) {
      LawfulKeepsEndings(b, b', run.record.command.affairId);
    }
  }

  /** Quiet changes keep the invariant, saved or not. */
  lemma QuietStep(s: System, b': Backend, pending: seq<PendingItem>, gate: G.Gate, saved: bool)
    requires Inv(s) && Quiet(s.live, b')
    ensures Inv(Save(s.(live := b', pending := pending, gate := gate), saved))
  {
    LawfulKeepsConsistent(s.live, b');
    forall key | key in s.running ensures RunOk(b', s.running[key]) {
      QuietKeepsRun(s.live, b', s.running[key]);
    }
    SaveKeepsDisk(s.(live := b', pending := pending, gate := gate), saved);
  }

  lemma UnchangedIsQuiet(s: System, b': Backend)
    requires Inv(s) && SameCore(s.live, b')
    ensures Quiet(s.live, b')
  {
  }

  // ----- the coordinator's own steps -----

  /** Putting back what is there changes nothing. */
  lemma PutSameRecord(s: System, r: Record)
    requires Held(s.live, r)
    ensures PutRecord(s, r) == s
  {
    assert s.live.actions.data[r.key := r] == s.live.actions.data;
  }

  lemma PutTwice(s: System, r: Record, r': Record)
    requires Held(s.live, r) && r'.key == r.key
    ensures PutRecord(PutRecord(s, r'), r) == s
  {
    assert s.live.actions.data[r.key := r'][r.key := r] == s.live.actions.data;
  }

  lemma NewPendingKeepsGood(b: Backend, r: Record)
    requires Good(b) && r.key !in b.actions.data && r.phase == Pending && r.outcome == None && ValidCommand(r.command)
    requires !IsClosing(b, r.command.affairId)
    ensures Good(b.(actions := Set(b.actions, r.key, r)))
  {
    var b' := b.(actions := Set(b.actions, r.key, r));
    hide ValidCommand, Ordered;
    SetOrdered(b.actions, r.key, r);
    forall k | k in b'.actions.data ensures RecordOk(b', b'.actions.data[k]) {
      assert k != r.key ==> RecordOk(b, b.actions.data[k]);
    }
    forall a, k, l | PendingAt(b'.actions.data, k, a) && PendingAt(b'.actions.data, l, a) ensures k == l {
      assert k != r.key ==> PendingAt(b.actions.data, k, a);
      assert l != r.key ==> PendingAt(b.actions.data, l, a);
    }
    CommitsSurvive(b, b', r.key);
  }

  /** Changing one uncommitted record leaves the committed ones and the endings in agreement. */
  lemma CommitsSurvive(b: Backend, b': Backend, key: Key)
    requires Consistent(b) && b'.affairs == b.affairs
    requires forall k :: k != key ==> (k in b'.actions.data <==> k in b.actions.data)
    requires forall k :: k != key && k in b.actions.data ==> b'.actions.data[k] == b.actions.data[k]
    requires key in b.actions.data ==> b.actions.data[key].phase != Committed
    requires key in b'.actions.data ==> b'.actions.data[key].phase != Committed
    ensures forall a, k :: CommittedAt(b'.actions.data, k, a) <==> CommittedAt(b.actions.data, k, a)
    ensures forall a :: AffairEnded(b', a) ==> HasCommit(b'.actions.data, a)
  {
    forall a | AffairEnded(b', a) ensures HasCommit(b'.actions.data, a) {
      assert AffairEnded(b, a);
      var k :| CommittedAt(b.actions.data, k, a);
      assert CommittedAt(b'.actions.data, k, a);
    }
  }

  lemma RejectKeepsGood(b: Backend, r: Record, code: Code)
    requires Good(b) && Held(b, r)
    ensures Good(b.(actions := Set(b.actions, r.key, r.(phase := Rejected, outcome := Some(Err(code, false))))))
  {
    var r' := r.(phase := Rejected, outcome := Some(Err(code, false)));
    var b' := b.(actions := Set(b.actions, r.key, r'));
    SetOrdered(b.actions, r.key, r');
    forall k | k in b'.actions.data ensures RecordOk(b', b'.actions.data[k]) {
      assert RecordOk(b, b.actions.data[k]);
    }
    assert forall a, k :: PendingAt(b'.actions.data, k, a) ==> PendingAt(b.actions.data, k, a);
    CommitsSurvive(b, b', r.key);
  }

  /** The other runs do not notice a step of this one. */
  lemma OtherRunKept(s: System, b': Backend, key: Key, other: Key)
    requires RunsOk(s) && Consistent(s.live) && key in s.running && other in s.running && other != key
    requires Held(s.live, s.running[key].record)
    requires b'.jobs == s.live.jobs
    requires forall k :: k != key && k in s.live.actions.data ==> k in b'.actions.data && b'.actions.data[k] == s.live.actions.data[k]
    requires forall a :: a != s.running[key].record.command.affairId ==> (AffairEnded(b', a) <==> AffairEnded(s.live, a))
    ensures RunOk(b', s.running[other])
  {
    var run := s.running[other];
    if PastChecks(run.phase) {
      var a := run.record.command.affairId;
      if a == s.running[key].record.command.affairId {
        assert PendingAt(s.live.actions.data, key, a) && PendingAt(s.live.actions.data, other, a);
        assert false;
      }
    }
  }

  lemma NewRecordKeepsRun(b: Backend, run: Run, r: Record)
    requires RunOk(b, run) && (r.key in b.actions.data ==> b.actions.data[r.key] == r)
    ensures RunOk(b.(actions := Set(b.actions, r.key, r)), run)
  {
  }

  predicate HoldsTurn(s: System, key: Key) {
    key in s.running && s.running[key].record.key == key && Held(s.live, s.running[key].record)
  }

  lemma TurnOfRun(s: System, key: Key)
    requires Inv(s) && key in s.running && !s.running[key].phase.Done?
    ensures HoldsTurn(s, key)
  {
    assert RunOk(s.live, s.running[key]);
  }

  lemma UnconfirmedKeepsInv(s: System, key: Key)
    requires Inv(s) && HoldsTurn(s, key)
    ensures Inv(Unconfirmed(s, key))
  {
    hide Good;
  }

  /** Saving a good state. */
  lemma SavedKeepsInv(s: System, published: bool)
    requires Good(s.live) && RunsOk(s)
    ensures Inv(Save(Save(s, true), published))
  {
    SaveKeepsDisk(s, true);
    SaveKeepsDisk(Save(s, true), published);
  }

  lemma NewRecordKeepsRuns(s: System, record: Record)
    requires RunsOk(s) && record.phase == Pending
    requires record.key in s.live.actions.data ==> s.live.actions.data[record.key] == record
    ensures RunsOk(PutRecord(s, record).(running := s.running[record.key := Run(record, InLine)]))
  {
    forall other | other in s.running ensures RunOk(PutRecord(s, record).live, s.running[other]) {
      NewRecordKeepsRun(s.live, s.running[other], record);
    }
  }

  lemma ExecuteKeepsInv(s: System, key: Key, command: CloseCommand, saved: bool, published: bool)
    requires Inv(s)
    ensures Inv(Execute(s, key, command, saved, published).0)
  {
    var s' := Execute(s, key, command, saved, published).0;
    if s' != s {
      var existing := Get(s.live.actions, key);
      var record := existing.GetOr(Record(key, command, Pending, None));
      if existing.Some? {
        assert RecordOk(s.live, record);
        PutSameRecord(s, record);
      } else {
        NewPendingKeepsGood(s.live, record);
        DeleteUndoesInsert(s.live.actions, key, record);
      }
      NewRecordKeepsRuns(s, record);
      SavedKeepsInv(PutRecord(s, record).(running := s.running[key := Run(record, InLine)]), published);
    }
  }

  /** A change to one record, one affair and one run. */
  lemma OneRunChanges(s: System, b': Backend, key: Key, phase: RunPhase)
    requires RunsOk(s) && Consistent(s.live) && HoldsTurn(s, key)
    requires b'.jobs == s.live.jobs
    requires forall k :: k != key && k in s.live.actions.data ==> k in b'.actions.data && b'.actions.data[k] == s.live.actions.data[k]
    requires forall a :: a != s.running[key].record.command.affairId ==> (AffairEnded(b', a) <==> AffairEnded(s.live, a))
    requires RunOk(b', s.running[key].(phase := phase))
    ensures RunsOk(WithRun(s.(live := b'), key, phase))
  {
    forall other | other in s.running && other != key ensures RunOk(b', s.running[other]) {
      OtherRunKept(s, b', key, other);
    }
  }

  lemma SavedRejectionKeepsInv(s: System, key: Key, code: Code)
    requires Inv(s) && HoldsTurn(s, key)
    ensures var rejected := s.running[key].record.(phase := Rejected, outcome := Some(Err(code, false)));
      Inv(Save(WithRun(PutRecord(s, rejected), key, Done(Err(code, false))), true))
  {
    var record := s.running[key].record;
    var s1 := PutRecord(s, record.(phase := Rejected, outcome := Some(Err(code, false))));
    hide Good, DiskOk, RunsOk, Snapshot;
    RejectKeepsGood(s.live, record, code);
    RejectionKeepsRuns(s, key, code);
    SavedKeepsInv(WithRun(s1, key, Done(Err(code, false))), false);
  }

  lemma RejectionKeepsRuns(s: System, key: Key, code: Code)
    requires Inv(s) && HoldsTurn(s, key)
    ensures var rejected := s.running[key].record.(phase := Rejected, outcome := Some(Err(code, false)));
      RunsOk(WithRun(PutRecord(s, rejected), key, Done(Err(code, false))))
  {
    hide DiskOk, Snapshot, Consistent, RunsOk;
    OneRunChanges(s, PutRecord(s, s.running[key].record.(phase := Rejected, outcome := Some(Err(code, false)))).live, key, Done(Err(code, false)));
  }

  lemma FinishRejectedKeepsInv(s: System, key: Key, code: Code, saved: bool)
    requires Inv(s) && HoldsTurn(s, key)
    ensures Inv(FinishRejected(s, key, code, saved))
  {
    var record := s.running[key].record;
    var rejected := record.(phase := Rejected, outcome := Some(Err(code, false)));
    hide Inv, Snapshot;
    if saved {
      SavedRejectionKeepsInv(s, key, code);
      hide RunOk;
    } else {
      PutTwice(s, record, rejected);
      UnconfirmedKeepsInv(s, key);
    }
  }

  /** The state a commit leaves in memory. */
  function AfterCommit(b: Backend, r: Record): Backend
    requires r.command.affairId in b.affairs.data
  {
    var result := ResultOf(b, r.command);
    b.(affairs := Set(b.affairs, b.affairs.data[r.command.affairId].affairId, result.affair),
       actions := Set(b.actions, r.key, r.(phase := Committed, outcome := Some(Ok(result, false)))))
  }

  lemma CommittedRecordOk(b: Backend, r: Record)
    requires Good(b) && Held(b, r) && r.command.affairId in b.affairs.data
    ensures RecordOk(AfterCommit(b, r), AfterCommit(b, r).actions.data[r.key])
  {
    var jobs := ResultOf(b, r.command).jobs;
    JobsOfMembers(b, r.command.affairId);
    forall i | 0 <= i < |jobs| ensures jobs[i].affairId == r.command.affairId {
      assert jobs[i] in jobs;
    }
    assert RecordOk(b, r);
  }

  lemma CommitKeepsRecords(b: Backend, r: Record)
    requires Good(b) && Held(b, r) && r.command.affairId in b.affairs.data && !AffairEnded(b, r.command.affairId)
    ensures forall k :: k in AfterCommit(b, r).actions.data ==> RecordOk(AfterCommit(b, r), AfterCommit(b, r).actions.data[k])
    ensures forall k :: !CommittedAt(b.actions.data, k, r.command.affairId)
  {
    var b', a := AfterCommit(b, r), r.command.affairId;
    CommittedRecordOk(b, r);
    forall k ensures !CommittedAt(b.actions.data, k, a) {
      assert CommittedAt(b.actions.data, k, a) ==> RecordOk(b, b.actions.data[k]);
    }
    forall k | k in b'.actions.data ensures RecordOk(b', b'.actions.data[k]) {
      if k != r.key {
        assert RecordOk(b, b.actions.data[k]);
        assert !CommittedAt(b.actions.data, k, a);
      }
    }
  }

  lemma CommitKeepsConsistent(b: Backend, r: Record)
    requires Good(b) && Held(b, r) && r.command.affairId in b.affairs.data && !AffairEnded(b, r.command.affairId)
    ensures Consistent(AfterCommit(b, r))
  {
    var b', a0 := AfterCommit(b, r), r.command.affairId;
    hide RecordOk, WellOrdered, Named, JobsOf, Snapshot, Precheck;
    CommitKeepsRecords(b, r);
    assert forall a, k :: PendingAt(b'.actions.data, k, a) ==> PendingAt(b.actions.data, k, a);
    assert forall a, k :: CommittedAt(b'.actions.data, k, a) <==> CommittedAt(b.actions.data, k, a) || (k == r.key && a == a0);
    forall a | AffairEnded(b', a) ensures HasCommit(b'.actions.data, a) {
      if a == a0 {
        assert CommittedAt(b'.actions.data, r.key, a0);
      } else {
        assert AffairEnded(b, a);
        var k :| CommittedAt(b.actions.data, k, a);
        assert CommittedAt(b'.actions.data, k, a);
      }
    }
  }

  lemma CommitKeepsGood(b: Backend, r: Record)
    requires Good(b) && Held(b, r) && r.command.affairId in b.affairs.data && !AffairEnded(b, r.command.affairId)
    ensures Good(AfterCommit(b, r))
  {
    hide Consistent, Ordered, JobsOf;
    CommitKeepsConsistent(b, r);
    SetOrdered(b.affairs, r.command.affairId, ResultOf(b, r.command).affair);
    SetOrdered(b.actions, r.key, r.(phase := Committed, outcome := Some(Ok(ResultOf(b, r.command), false))));
  }

  /** A commit whose save failed is undone completely. */
  lemma FailedCommitUndone(s: System, key: Key, published: bool)
    requires WellKeyed(s.live) && HoldsTurn(s, key) && s.running[key].record.command.affairId in s.live.affairs.data
    ensures Commit(s, key, false, published) == Unconfirmed(s, key)
  {
    var record := s.running[key].record;
    var previous := s.live.affairs.data[record.command.affairId];
    var closed := ResultOf(s.live, record.command).affair;
    var committed := record.(phase := Committed, outcome := Some(Ok(ResultOf(s.live, record.command), false)));
    assert s.live.affairs.data[previous.affairId := closed][previous.affairId := previous] == s.live.affairs.data;
    assert s.live.actions.data[key := committed][key := record] == s.live.actions.data;
  }

  lemma CommitKeepsRuns(s: System, key: Key)
    requires RunsOk(s) && Consistent(s.live) && WellKeyed(s.live) && HoldsTurn(s, key)
    requires s.running[key].record.command.affairId in s.live.affairs.data
    ensures var record := s.running[key].record;
      RunsOk(WithRun(s.(live := AfterCommit(s.live, record)), key, Done(Ok(ResultOf(s.live, record.command), false))))
  {
    var record := s.running[key].record;
    OneRunChanges(s, AfterCommit(s.live, record), key, Done(Ok(ResultOf(s.live, record.command), false)));
  }

  lemma CommitKeepsInv(s: System, key: Key, saved: bool, published: bool)
    requires Inv(s) && HoldsTurn(s, key)
    requires s.running[key].record.command.affairId in s.live.affairs.data && !AffairEnded(s.live, s.running[key].record.command.affairId)
    ensures Inv(Commit(s, key, saved, published))
  {
    var record := s.running[key].record;
    if saved {
      CommitKeepsGood(s.live, record);
      CommitKeepsRuns(s, key);
      SavedKeepsInv(WithRun(s.(live := AfterCommit(s.live, record)), key, Done(Ok(ResultOf(s.live, record.command), false))), published);
    } else {
      FailedCommitUndone(s, key, published);
      UnconfirmedKeepsInv(s, key);
    }
  }

  lemma ConfirmKeepsInv(s: System, key: Key, saved: bool, published: bool)
    requires Inv(s) && HoldsTurn(s, key)
    requires s.running[key].phase.InLine? ==> s.running[key].record.command.status == ToClosed
    requires s.running[key].phase.InLine? || s.running[key].phase.Confirming?
    ensures Inv(Confirm(s, key, saved, published))
  {
    hide Consistent, DiskOk;
    var command := s.running[key].record.command;
    var changed := Precheck(s.live, command);
    if changed.Some? {
      FinishRejectedKeepsInv(s, key, changed.value, saved);
    } else {
      PrecheckMeans(s.live, command);
      CommitKeepsInv(s, key, saved, published);
    }
  }

  /** The list of children taken at the start holds every live job of the affair. */
  lemma ChildrenCoverAffair(b: Backend, a: string)
    requires WellKeyed(b) && WellOrdered(b)
    ensures ChildrenKnown(b, JobsOf(b, a))
    ensures forall j :: LiveJobOf(b, j, a) ==> Ahead(Cancelling(JobsOf(b, a), 0), j)
  {
    var children := JobsOf(b, a);
    JobsOfMembers(b, a);
    forall i | 0 <= i < |children| ensures children[i].jobId in b.jobs.data {
      assert children[i] in children;
    }
    forall j | LiveJobOf(b, j, a) ensures Ahead(Cancelling(children, 0), j) {
      assert b.jobs.data[j] in children;
      var i :| 0 <= i < |children| && children[i] == b.jobs.data[j];
    }
  }

  /** A step that changes only the gate and this run's phase. */
  lemma PhaseKeepsRuns(s: System, key: Key, gate: G.Gate, phase: RunPhase)
    requires RunsOk(s) && key in s.running && RunOk(s.live, s.running[key].(phase := phase))
    ensures RunsOk(WithRun(s.(gate := gate), key, phase))
  {
  }

  lemma BeginCancelKeepsInv(s: System, key: Key, gate: G.Gate, saved: bool)
    requires Inv(s) && HoldsTurn(s, key) && s.running[key].record.command.status == ToCanceled
    requires Precheck(s.live, s.running[key].record.command).None?
    ensures var children := JobsOf(s.live, s.running[key].record.command.affairId);
      Inv(if saved then Save(WithRun(s.(gate := gate), key, Cancelling(children, 0)), true) else Unconfirmed(s.(gate := gate), key))
  {
    if saved {
      var phase := Cancelling(JobsOf(s.live, s.running[key].record.command.affairId), 0);
      PrecheckMeans(s.live, s.running[key].record.command);
      ChildrenCoverAffair(s.live, s.running[key].record.command.affairId);
      PhaseKeepsRuns(s, key, gate, phase);
      SavedKeepsInv(WithRun(s.(gate := gate), key, phase), false);
    } else {
      SameCoreKeepsInv(s, s.live, s.pending, gate, false);
      UnconfirmedKeepsInv(s.(gate := gate), key);
    }
  }

  lemma BeginKeepsInv(s: System, key: Key, saved: bool, published: bool)
    requires Inv(s) && HoldsTurn(s, key) && s.running[key].phase.InLine?
    ensures Inv(Begin(s, key, saved, published))
  {
    var command := s.running[key].record.command;
    var rejected := Precheck(s.live, command);
    if rejected.Some? {
      FinishRejectedKeepsInv(s, key, rejected.value, saved);
    } else if command.status == ToClosed {
      ConfirmKeepsInv(s, key, saved, published);
    } else {
      BeginCancelKeepsInv(s, key, RevokeAllOf(s.gate, JobsOf(s.live, command.affairId)), saved);
    }
  }

  // ----- children of a cancellation -----

  /** A run that goes on to another child, or to its last check. */
  lemma ChildPhaseOk(b: Backend, run: Run, phase: RunPhase, children: seq<Job>, next: nat)
    requires RunOk(b, run) && next <= |children|
    requires run.phase == Cancelling(children, next) || (next < |children| && run.phase == AwaitingPort(children, next))
    requires || (phase == Cancelling(children, next + 1) && next < |children|)
             || (phase == AwaitingPort(children, next) && next < |children|) || phase == Confirming
    ensures RunOk(b, run.(phase := phase))
  {
  }

  /** Marking an ended blocked job as canceled is a quiet change. */
  lemma MarkCanceledIsQuiet(b: Backend, job: Job)
    requires WellKeyed(b) && WellOrdered(b) && Named(b)
    requires job.jobId in b.jobs.data && b.jobs.data[job.jobId] == job && job.status == JobBlocked
    ensures Quiet(b, MarkCanceled(b, job))
  {
    MarkCanceledIsLawful(b, job);
    MarkCanceledKeepsOrder(b, job);
    MarkCanceledKeepsNames(b, job);
    hide Lawful, WellOrdered, Named, WellKeyed, MarkCanceled;
  }

  lemma MarkCanceledIsLawful(b: Backend, job: Job)
    requires WellKeyed(b) && job.jobId in b.jobs.data && b.jobs.data[job.jobId] == job && job.status == JobBlocked
    ensures Lawful(b, MarkCanceled(b, job))
  {
  }

  lemma MarkCanceledKeepsOrder(b: Backend, job: Job)
    requires WellOrdered(b)
    ensures WellOrdered(MarkCanceled(b, job))
  {
    SetOrdered(b.jobs, job.jobId, MarkCanceled(b, job).jobs.data[job.jobId]);
    hide Ordered;
  }

  lemma MarkCanceledKeepsNames(b: Backend, job: Job)
    requires Named(b) && job.jobId in b.jobs.data && b.jobs.data[job.jobId] == job
    ensures Named(MarkCanceled(b, job))
  {
  }

  lemma AdvanceKeepsInv(s: System, key: Key, phase: RunPhase, saved: bool)
    requires Inv(s) && key in s.running && RunOk(s.live, s.running[key].(phase := phase))
    ensures Inv(Save(WithRun(s, key, phase), saved))
  {
    PhaseKeepsRuns(s, key, s.gate, phase);
    SaveKeepsDisk(WithRun(s, key, phase), saved);
  }

  lemma PassChildKeepsInv(s: System, key: Key, children: seq<Job>, next: nat, saved: bool)
    requires Inv(s) && key in s.running && next < |children|
    requires s.running[key].phase == Cancelling(children, next) || s.running[key].phase == AwaitingPort(children, next)
    ensures Inv(Save(WithRun(s, key, Cancelling(children, next + 1)), saved))
  {
    assert RunOk(s.live, s.running[key]);
    hide Good, DiskOk;
    ChildPhaseOk(s.live, s.running[key], Cancelling(children, next + 1), children, next);
    AdvanceKeepsInv(s, key, Cancelling(children, next + 1), saved);
  }

  lemma LookAtChildKeepsInv(s: System, key: Key, children: seq<Job>, next: nat)
    requires Inv(s) && key in s.running && s.running[key].phase == Cancelling(children, next)
    ensures Inv(WithRun(s, key, if next < |children| then AwaitingPort(children, next) else Confirming))
  {
    assert RunOk(s.live, s.running[key]);
    hide Good, DiskOk;
    ChildPhaseOk(s.live, s.running[key], if next < |children| then AwaitingPort(children, next) else Confirming, children, next);
    AdvanceKeepsInv(s, key, if next < |children| then AwaitingPort(children, next) else Confirming, false);
  }

  lemma ChildIsRegistered(s: System, key: Key, children: seq<Job>, next: nat)
    requires RunsOk(s) && key in s.running && next < |children|
    requires s.running[key].phase == Cancelling(children, next) || s.running[key].phase == AwaitingPort(children, next)
    ensures children[next].jobId in s.live.jobs.data
  {
    assert RunOk(s.live, s.running[key]);
  }

  /** What one round of the child loop amounts to. */
  lemma ChildStepCases(s: System, key: Key, hasPort: bool, saved: bool)
    requires RunsOk(s) && Enabled(s, SChild(key, hasPort, saved))
    ensures var Cancelling(children, next) := s.running[key].phase;
      var s' := ChildStep(s, key, hasPort, saved);
      || s' == Unconfirmed(s, key)
      || s' == WithRun(s, key, if next < |children| then AwaitingPort(children, next) else Confirming)
      || (&& next < |children| && children[next].jobId in s.live.jobs.data && TerminalJob(s.live.jobs.data[children[next].jobId].status)
          && s' == Save(WithRun(s, key, Cancelling(children, next + 1)), false))
      || (next < |children| && EndedBlocked(Current(s.live, children[next])) && s' == MarkedChild(s, key, children, next, saved))
  {
    var Cancelling(children, next) := s.running[key].phase;
    if next < |children| {
      ChildIsRegistered(s, key, children, next);
    }
  }

  function MarkedChild(s: System, key: Key, children: seq<Job>, next: nat, saved: bool): System
    requires key in s.running && next < |children|
  {
    var s1 := s.(live := MarkCanceled(s.live, Current(s.live, children[next])));
    if saved then Save(WithRun(s1, key, Cancelling(children, next + 1)), true) else Unconfirmed(s1, key)
  }

  lemma ChildStepKeepsInv(s: System, key: Key, hasPort: bool, saved: bool)
    requires Inv(s) && Enabled(s, SChild(key, hasPort, saved))
    ensures Inv(ChildStep(s, key, hasPort, saved))
  {
    hide Good, RunOk, DiskOk;
    var Cancelling(children, next) := s.running[key].phase;
    ChildStepCases(s, key, hasPort, saved);
    TurnOfRun(s, key);
    UnconfirmedKeepsInv(s, key);
    LookAtChildKeepsInv(s, key, children, next);
    if next < |children| && children[next].jobId in s.live.jobs.data && TerminalJob(s.live.jobs.data[children[next].jobId].status) {
      PassChildKeepsInv(s, key, children, next, false);
    }
    if next < |children| && EndedBlocked(Current(s.live, children[next])) {
      MarkChildKeepsInv(s, key, children, next, saved);
    }
  }

  lemma MarkChildKeepsInv(s: System, key: Key, children: seq<Job>, next: nat, saved: bool)
    requires Inv(s) && key in s.running && s.running[key].phase == Cancelling(children, next) && next < |children|
    requires EndedBlocked(Current(s.live, children[next]))
    ensures Inv(MarkedChild(s, key, children, next, saved))
  {
    ChildIsRegistered(s, key, children, next);
    var current := Current(s.live, children[next]);
    var s1 := s.(live := MarkCanceled(s.live, current));
    MarkCanceledIsQuiet(s.live, current);
    QuietStep(s, s1.live, s.pending, s.gate, false);
    if saved {
      PassChildKeepsInv(s1, key, children, next, true);
    } else {
      TurnOfRun(s1, key);
      UnconfirmedKeepsInv(s1, key);
    }
  }

  lemma PortReturnsKeepsInv(s: System, key: Key, threw: bool, saved: bool)
    requires Inv(s) && Enabled(s, SPort(key, threw, saved))
    ensures Inv(PortReturns(s, key, threw, saved))
  {
    hide Good, RunOk, DiskOk;
    var AwaitingPort(children, next) := s.running[key].phase;
    var job := Get(s.live.jobs, children[next].jobId);
    TurnOfRun(s, key);
    UnconfirmedKeepsInv(s, key);
    if !threw && job.Some? && TerminalJob(job.value.status) && saved {
      PassChildKeepsInv(s, key, children, next, true);
      assert PortReturns(s, key, threw, saved) == Save(WithRun(s, key, Cancelling(children, next + 1)), true);
    } else {
      assert PortReturns(s, key, threw, saved) == Unconfirmed(s, key);
    }
  }

  // ----- messages, supervision, registration, restart -----

  lemma MessageIsQuiet(b: Backend, e: Envelope, now: int)
    requires WellKeyed(b) && WellOrdered(b) && Named(b) && IntroducesNoEnding(b, e)
    ensures Quiet(b, Apply(b, e, now).0)
  {
    ApplyIsLawful(b, e, now);
    ApplyKeepsOrder(b, e, now);
    ApplyKeepsNamed(b, e, now);
  }

  lemma ApplyKeepsNamed(b: Backend, e: Envelope, now: int)
    requires WellKeyed(b) && Named(b)
    ensures Named(Apply(b, e, now).0)
  {
    forall j | j in Apply(b, e, now).0.jobs.data ensures j != "" && Apply(b, e, now).0.jobs.data[j].affairId != "" {
      JobAfterMessage(b, e, now, j);
    }
  }

  lemma SameCoreKeepsInv(s: System, b': Backend, pending: seq<PendingItem>, gate: G.Gate, saved: bool)
    requires Inv(s) && SameCore(s.live, b')
    ensures Inv(Save(s.(live := b', pending := pending, gate := gate), saved))
  {
    UnchangedIsQuiet(s, b');
    QuietStep(s, b', pending, gate, saved);
  }

  lemma AfterAppliedKeepsInv(s: System, e: Envelope, applied: bool, saved: bool)
    requires Inv(s)
    ensures Inv(Save(if applied then AfterApplied(s, e) else s, saved))
  {
    var s2 := if applied then AfterApplied(s, e) else s;
    SameCoreKeepsInv(s, s2.live, s2.pending, s2.gate, saved);
  }

  lemma DeliverKeepsInv(s: System, e: Envelope, now: int, saved: bool)
    requires Inv(s) && Enabled(s, SDeliver(e, now, saved))
    ensures Inv(Deliver(s, e, now, saved).0)
  {
    if IntroducesNoEnding(s.live, e) && !PhoneMayNotSend(s.live, e) {
      var b' := Apply(s.live, e, now).0;
      MessageIsQuiet(s.live, e, now);
      QuietStep(s, b', s.pending, s.gate, false);
      AfterAppliedKeepsInv(s.(live := b'), e, Apply(s.live, e, now).1 == Applied, saved);
    }
  }

  /** A mark never names a terminal status the affair does not already have. */
  lemma MarkedEndsNothing(affair: Affair, mark: Mark)
    ensures Marked(affair, mark).affairId == affair.affairId
    ensures TerminalAffair(Marked(affair, mark).status) ==> Marked(affair, mark).status == affair.status
  {
  }

  lemma SuperviseKeepsInv(s: System, affairId: string, mark: Mark, messageId: string, now: int, saved: bool)
    requires Inv(s)
    ensures Inv(Supervise(s, affairId, mark, messageId, now, saved))
  {
    hide RunsOk, DiskOk, Consistent, Quiet, Snapshot, Apply;
    if affairId in s.live.affairs.data {
      var next := Marked(s.live.affairs.data[affairId], mark);
      var e := Envelope(messageId, false, true, AffairEvent(AffairUpdate, next));
      MarkedEndsNothing(s.live.affairs.data[affairId], mark);
      MessageIsQuiet(s.live, e, now);
      QuietStep(s, Apply(s.live, e, now).0, s.pending, s.gate, saved);
    }
    SameCoreKeepsInv(s, s.live, s.pending, s.gate, saved);
  }

  /** An accepted creation is one job message applied to a draft that differs from the state only in the
      affair's current job. */
  lemma CreatedIsOneMessage(b: Backend, g: G.Gate, command: Envelope, x: C.CreateInput) returns (d: Backend, e: Envelope)
    requires WellKeyed(b) && command.body.JobEvent? && C.HandleJobCreate(b, g, command, x).2 == C.Created
    ensures var payload := command.body.job;
      && payload.affairId in b.affairs.data && !IsClosing(b, payload.affairId)
      && d == C.Draft(b, b.affairs.data[payload.affairId], payload)
      && payload.jobId !in b.jobs.data
      && e.body.JobEvent? && e.body.job.jobId == payload.jobId && e.body.job.affairId == payload.affairId && e.body.job.status == NeedsPermission
      && SameCore(C.HandleJobCreate(b, g, command, x).0, Apply(d, e, x.now).0)
  {
    var payload := command.body.job;
    var request := C.RequestFor(payload, x.requested.value, x.newRequestId);
    var events := C.EventsFor(payload, request.permissionRequestId, x);
    d, e := C.Draft(b, b.affairs.data[payload.affairId], payload), events[0];
    assert events == [events[0], events[1]];
    TwoEvents(d, events[0], events[1], x.now);
  }

  lemma TwoEvents(d: Backend, e: Envelope, other: Envelope, now: int)
    requires other.body.OtherBody?
    ensures !C.ApplyAll(d, [e, other], now).1.Refused? ==> SameCore(C.ApplyAll(d, [e, other], now).0, Apply(d, e, now).0)
  {
    var d1 := Apply(d, e, now).0;
    assert [e, other][1..] == [other] && [other][1..] == [];
    assert C.ApplyAll(d1, [other], now) == C.ApplyAll(Apply(d1, other, now).0, [], now) || Apply(d1, other, now).1.Refused?;
  }

  lemma DraftKeeps(b: Backend, affair: Affair, payload: Job)
    requires WellKeyed(b) && WellOrdered(b) && Named(b)
    requires affair.affairId in b.affairs.data && b.affairs.data[affair.affairId] == affair
    ensures var d := C.Draft(b, affair, payload);
      && WellKeyed(d) && WellOrdered(d) && Named(d) && d.jobs == b.jobs && d.actions == b.actions
      && (forall a :: a in d.affairs.data <==> a in b.affairs.data)
      && (forall a :: a in d.affairs.data ==> d.affairs.data[a].status == b.affairs.data[a].status)
  {
    SetOrdered(b.affairs, affair.affairId, affair.(currentJobId := Some(payload.jobId)));
    hide Ordered;
  }

  /** A change after one that kept every status. */
  lemma LawfulAfterSameStatuses(b: Backend, d: Backend, b': Backend)
    requires Lawful(d, b') && d.jobs == b.jobs && d.actions == b.actions
    requires forall a :: a in d.affairs.data <==> a in b.affairs.data
    requires forall a :: a in d.affairs.data ==> d.affairs.data[a].status == b.affairs.data[a].status
    ensures Lawful(b, b')
  {
  }

  lemma CreationIsQuiet(s: System, command: Envelope, x: C.CreateInput)
    requires Inv(s) && command.body.JobEvent? && C.HandleJobCreate(s.live, s.gate, command, x).2 == C.Created
    ensures Quiet(s.live, C.HandleJobCreate(s.live, s.gate, command, x).0)
  {
    hide Apply, C.HandleJobCreate, Consistent, RunsOk, DiskOk, IsClosing, C.Draft;
    var payload := command.body.job;
    var d, e := CreatedIsOneMessage(s.live, s.gate, command, x);
    DraftKeeps(s.live, s.live.affairs.data[payload.affairId], payload);
    MessageIsQuiet(d, e, x.now);
    LawfulAfterSameStatuses(s.live, d, Apply(d, e, x.now).0);
  }

  lemma RegisterKeepsInv(s: System, command: Envelope, x: C.CreateInput)
    requires Inv(s) && command.body.JobEvent?
    ensures Inv(Register(s, command, x))
  {
    var (b', g', reply) := C.HandleJobCreate(s.live, s.gate, command, x);
    if reply == C.Created {
      CreationIsQuiet(s, command, x);
      QuietStep(s, b', s.pending, g', true);
    } else {
      C.CreationIsAtomic(s.live, s.gate, command, x);
      SameCoreKeepsInv(s, b', s.pending, g', false);
    }
  }

  /** The startup repair moves no affair into or out of a terminal status. */
  lemma RepairKeepsEndings(b: Backend, now: int)
    ensures forall a :: AffairEnded(Reconciled(b, now), a) <==> AffairEnded(b, a)
    ensures forall a :: AffairEnded(b, a) ==> Reconciled(b, now).affairs.data[a] == b.affairs.data[a]
    ensures forall a :: a in Reconciled(b, now).affairs.data <==> a in b.affairs.data
    ensures forall a :: a in b.affairs.data ==> Reconciled(b, now).affairs.data[a].affairId == b.affairs.data[a].affairId
  {
    forall a | a in b.affairs.data
      ensures TerminalAffair(ReconcileOne(b.jobs, b.affairs.data[a]).status) <==> TerminalAffair(b.affairs.data[a].status)
      ensures TerminalAffair(b.affairs.data[a].status) ==> ReconcileOne(b.jobs, b.affairs.data[a]) == b.affairs.data[a]
      ensures ReconcileOne(b.jobs, b.affairs.data[a]).affairId == b.affairs.data[a].affairId
    {
      ReconcileIsLegal(b.jobs, b.affairs.data[a]);
    }
  }

  lemma RepairKeepsConsistent(b: Backend, now: int)
    requires Consistent(b)
    ensures Consistent(Reconciled(b, now))
  {
    hide ReconcileOne;
    var b' := Reconciled(b, now);
    RepairKeepsEndings(b, now);
    forall k | k in b'.actions.data ensures RecordOk(b', b'.actions.data[k]) {
      assert RecordOk(b, b.actions.data[k]);
      assert b.actions.data[k].phase == Committed ==> AffairEnded(b, b.actions.data[k].command.affairId);
    }
    forall a | AffairEnded(b', a) ensures HasCommit(b'.actions.data, a) {
      assert AffairEnded(b, a);
    }
  }

  lemma RepairKeepsGood(b: Backend, now: int)
    requires Good(b)
    ensures Good(Reconciled(b, now))
  {
    hide ReconcileOne, Consistent;
    RepairKeepsEndings(b, now);
    RepairKeepsConsistent(b, now);
    assert Reconciled(b, now).affairs.data.Keys == b.affairs.data.Keys;
  }

  lemma RestartKeepsInv(s: System, gate: G.Gate, now: int)
    requires Inv(s)
    ensures Inv(Restart(s, gate, now))
  {
    RepairKeepsGood(OnDisk(s), now);
  }

  // ----- all steps, all runs -----

  lemma NextKeepsInv(s: System, st: Step)
    requires Inv(s) && Enabled(s, st)
    ensures Inv(Next(s, st))
  {
    hide Inv, RunOk, Good, Execute, Begin, ChildStep, PortReturns, Confirm, Deliver, Supervise, Register, DecideByUser, Restart;
    match st {
      case SExecute(key, command, saved, published) => ExecuteKeepsInv(s, key, command, saved, published);
      case SBegin(key, saved, published) => TurnOfRun(s, key); BeginKeepsInv(s, key, saved, published);
      case SChild(key, hasPort, saved) => ChildStepKeepsInv(s, key, hasPort, saved);
      case SPort(key, threw, saved) => PortReturnsKeepsInv(s, key, threw, saved);
      case SConfirm(key, saved, published) => TurnOfRun(s, key); ConfirmKeepsInv(s, key, saved, published);
      case SSettle(key) => SettleKeepsInv(s, key);
      case SDeliver(e, now, saved) => DeliverKeepsInv(s, e, now, saved);
      case SSupervise(a, mark, id, now, saved) => SuperviseKeepsInv(s, a, mark, id, now, saved);
      case SRegister(command, x) => RegisterKeepsInv(s, command, x);
      case SDecide(id, decision, saved) => DecideKeepsInv(s, id, decision, saved);
      case SGate(op) => SameCoreKeepsInv(s, s.live, s.pending, G.Step(s.gate, op), false);
      case SOther(b, pending, saved) => SameCoreKeepsInv(s, b, pending, s.gate, saved);
      case SRestart(gate, now) => RestartKeepsInv(s, gate, now);
    }
  }

  lemma DecideKeepsInv(s: System, id: string, decision: G.Decision, saved: bool)
    requires Inv(s)
    ensures Inv(DecideByUser(s, id, decision, saved))
  {
    hide Inv;
    SameCoreKeepsInv(s, s.live, s.pending, G.Decide(s.gate, id, decision).0, saved);
  }

  lemma SettleKeepsInv(s: System, key: Key)
    requires Inv(s)
    ensures Inv(Settle(s, key))
  {
    hide Good, RunOk;
  }
}
