# Affair, job and permission authority of the desktop companion

An affair is a user's task; jobs under it run on an untrusted executor. This project models the part of the companion
that decides what may happen to affairs, jobs, permission grants and messages, and proves what it guarantees however
calls interleave, saves fail, executors answer and the process restarts.

Three machines carry the main results, each with one step per piece of code between two awaits:

- `Authority` (over `Store`, `Create`, `Closing`, `Coordinator`, `Gate`, `Mirror`, `Reconcile`): every writer of affairs,
  jobs, close records, grants and the mirror file. `Invariant` is what every step keeps, with no premise on the messages.
  `Guarantees`, `Fence`, `Registration`, `Children`, `Progress`, `Endings` and `Frozen` are statements about its runs, and
  `Witness` holds the runs in which a promise fails. `Acceptance`, `Decisions`, `Projection` and `Creation` say of each of
  its operations when exactly it goes through and what it leaves, in statuses, evidence and permissions.
- `Delegation` (over `Polling`, `Publisher`): grants, create calls, ticks, restores, rejections and cancellations, any
  number of them suspended at once. `AtMostOnce`, `Retained`, `Turns`, `Drops` and `Spending` are statements about its
  runs; `Calls`, `Ticks` and `Looks` say the same of its operations.
- `Serial`: the promise tails of the operation queue, proved to be one FIFO lock per affair.

`Composition` joins them: which steps of `Authority` may come between two steps of `Delegation`, and that queued calls which
run inside operations of `Serial` take turns, which is what `Drops` asks of them.

Beside them stand `Adapter` and `Executor` (the executor's own records), `Outbox` (messages and receipts, inside the
`Authority` machine) and `Discovery` (the TXT advertisement). Objects that the source updates in place are classes
(`CompanionState`, `PermissionGate`, `AffairOperationQueue`, `AffairActionCoordinator`, `CompanionRuntime`,
`JobStatusPublisher`, `JobPolling`, `AdapterJobStore`, `PendingContextQueue`); their methods are proved to compute the
functions that the machines use, and those of the coordinator and the runtime to keep the invariant.

Some members only read a guard or a table back and serve the others: `Fence.FenceStopsEverything`,
`AtMostOnce.EveryCallIsJustified`, `Status.OnlyRevival`, `Status.AffairTableShape`, `Status.TablesAgree`,
`Types.MessageTypesAgree`, `Option.SpaceCodes`.

Ids, times, validator verdicts, save results, executor answers and the verdict on run evidence are parameters of the steps.
A failing save leaves the mirror file as it was.

## Model

| member | source | states |
|---|---|---|
| Guarantees.AnswerIsForever | apps/companion/src/affairs/actions/coordinator.ts:39-102 | Once a close request has its final answer, in every later state of any run (failed saves, crashes, restarts) the file holds its record, an accepted close shows in the affair's status in memory and on file, the same request gets the same answer and changes nothing, and the same key with another command is refused and changes nothing |
| Guarantees.EndingIsForever | apps/companion/src/backend/runtime.ts:120-141 | An ended affair stays ended with the same status, in memory and on file, through every later step of any run |
| Guarantees.EveryEndingIsACommit | apps/companion/src/affairs/actions/coordinator.ts:81-166 | Any step that newly ends an affair is the final decision of a close request whose checks pass at that moment, saved with the new status; acceptance finds the current job finished with evidence and no live job under the affair |
| Guarantees.RecordStep | apps/companion/src/affairs/actions/coordinator.ts:47-79 | Over every step, a close record is left alone, newly accepted, or decided from the facts of that moment |
| Guarantees.DecidedStays | apps/companion/src/affairs/actions/coordinator.ts:56-60 | A decided record is never touched again by any step |
| Invariant.NextKeepsInv | apps/companion/src/backend/runtime.ts:53-141 | Every step of the machine, with no premise on messages, keeps: records under their own ids in insertion order, every ended affair backed by a committed record, at most one pending close per affair, runs consistent with their records, and a file that hydrates to such a state |
| Invariant.FailedCommitUndone | apps/companion/src/affairs/actions/coordinator.ts:145-166 | A commit whose save throws leaves affair, record and file exactly as they were |
| Invariant.ChildrenCoverAffair | apps/companion/src/affairs/actions/coordinator.ts:104-109 | The children listed at the start of a cancellation include every live job of the affair |
| Invariant.CreatedIsOneMessage | apps/companion/src/backend/jobs/create.ts:17-40 | An accepted creation equals one job message applied to a state that differs only in the affair's current job |
| Actions.AffairActionCoordinator.Request | apps/companion/src/affairs/actions/coordinator.ts:47-79 | The scan and the saves on the live objects give the state and reply of `Execute`, and keep the invariant |
| Actions.AffairActionCoordinator.BeginRun | apps/companion/src/affairs/actions/coordinator.ts:81-109 | Check, revocation loop, save: the state of `Begin`, and the invariant kept |
| Actions.AffairActionCoordinator.VisitChild | apps/companion/src/affairs/actions/coordinator.ts:104-143 | One look at the next child: the state of `ChildStep`, and the invariant kept |
| Actions.AffairActionCoordinator.PortAnswered | apps/companion/src/affairs/actions/coordinator.ts:115-123 | After the executor's answer only a registered terminal job counts as stopped; the invariant kept |
| Actions.AffairActionCoordinator.ConfirmRun | apps/companion/src/affairs/actions/coordinator.ts:88-97 | Re-check, then commit or reject with rollback on a failed save; the invariant kept |
| Actions.AffairActionCoordinator.ScanForPending | apps/companion/src/affairs/actions/coordinator.ts:27-37 | The scan finds a pending record exactly if one exists for the affair |
| Endings.BringsToLifeExactly | apps/companion/src/state/store.ts:180-228 | A message makes a job live under an affair that has not ended exactly if it is unseen and valid and either registers or moves a job there with a live status or reports a completed job of it as blocked |
| Endings.PlainMessagesAreTame | apps/companion/src/state/store.ts:180-228 | Every message that keeps its job under its registered affair and does not report a completed job as blocked is tame, whatever is running |
| Endings.NextKeepsSettled | apps/companion/src/affairs/actions/coordinator.ts:104-166 | Tame steps keep: ended affairs have only terminal jobs, and a run past its checks still has every live job of its affair ahead |
| Endings.EndedAffairsAreStill | apps/companion/src/affairs/actions/coordinator.ts:81-166 | In every state reached by tame messages, in memory and on file, an ended affair has only terminal jobs, and every committed close reported only terminal jobs |
| Endings.LiveJobSurvivesExactlyIf | apps/companion/src/affairs/actions/coordinator.ts:88-124 | One message between the last child and the commit leaves a live job under the affair that the commit ends if and only if it brings one to life |
| Endings.FileAfterStep | apps/companion/src/state/mirror/backend-mirror.ts:80-101 | A step leaves the file alone or makes it the snapshot of the new memory |
| Witness.AnUntamedMessageLeavesALiveJob | apps/companion/src/affairs/actions/coordinator.ts:104-124 | A run of eight steps from startup, for any affair and any job: a completed job already passed by a cancellation reports itself blocked, and the cancellation commits over a live job |
| Witness.NamingNoJobCanFail | apps/companion/src/affairs/actions/guards/precheck.ts:6-18 | A run from startup, for any affair and any job, to a valid cancellation naming no current job that an executor stopping everything does not bring to commit |
| Frozen.FrozenForever | apps/companion/src/state/terminal-job-guard.ts:20-56 | In runs whose job messages are tame and about registered jobs under their registered affair, no registered job is lost or moved, and once its affair has ended its status never changes, across failed saves and restarts |
| Store.EndedAffairFreezesItsJobs | apps/companion/src/state/terminal-job-guard.ts:20-56 | One message never changes the status of a job that stays under its ended affair |
| Store.FreezeIsLostExactlyByMoving | apps/companion/src/state/store.ts:180-228 | Without that premise the freeze is lost exactly by a `blocked` message that names an affair which has not ended, about a completed job |
| Store.MovingAJobRevivesIt | apps/companion/src/state/store.ts:180-228 | Such a state and message exist |
| Store.ApplyIsLawful | apps/companion/src/state/store.ts:64-228 | Behind the runtime gate a message moves statuses along the tables, removes nothing, and ends no affair |
| Store.ApplyKeepsSettled | apps/companion/src/state/store.ts:180-228 | A message that keeps registrations never leaves a live job under an ended affair if there was none |
| Store.JobAfterMessage | apps/companion/src/state/store.ts:180-228 | A job record after a message was there before or was written by it, and under an ended affair the written one is a cancellation |
| Projection.JobMessageAnsweredExactly | apps/companion/src/state/terminal-job-guard.ts:20-56 | Which job messages are applied, taken for repetitions and refused, and why: under an ended affair only cancellations are applied and what is stored already is a repetition; otherwise the table of job statuses decides |
| Projection.JobMessageWrites | apps/companion/src/state/affair-job-projection.ts:86-109 | What an applied job message writes: its job, and the affair exactly if the job is an execution that the affair is at (or it is at none) and the table leads there; the affair's status, current job, reason and way on are given for each job status, a failed, blocked or canceled job always blocking it with a reason |
| Projection.OtherMessagesWrite | apps/companion/src/state/store.ts:64-178 | Refused and repeated messages leave affairs and jobs alone; an affair message is applied exactly along the table and writes just its affair |
| Store.CompanionState.ApplyProtocolEnvelope | apps/companion/src/state/store.ts:64-150 | The store as an object gives the state and result of `Apply` for every message |
| Fence.FenceIsDurable | apps/companion/src/affairs/actions/coordinator.ts:27-79 | A pending close is on file: it fences its affair after any crash and restart, and only one request holds it |
| Fence.OnlyOwnWritersChangeFencedAffair | apps/companion/src/backend/runtime.ts:120-141 | A fenced affair's record changes only by the companion's own messages, supervision, a restart or the pending close's own decision |
| Fence.FenceStandsUntilDecided | apps/companion/src/affairs/actions/coordinator.ts:145-175 | The fence falls only by the final decision of the request that raised it |
| Fence.FenceStands | apps/companion/src/affairs/actions/coordinator.ts:27-79 | It stands in every later state of a run until that decision, across failed saves and restarts |
| Fence.OnlyDecisionsGrant | apps/companion/src/permissions/gate/apply-decision.ts:35-96 | Over the whole machine a usable grant appears only by a user's decision that passed the bridge's check, for the request it names |
| Fence.FencedAffairGainsNoGrant | apps/companion/src/backend/bridge-action-policy.ts:73-112 | Over any stretch of a run without restart during which a close is pending, no usable grant appears for a request that names the affair |
| Fence.NoGrantThroughFence | apps/companion/src/permissions/gate/persistence/snapshot.ts:27-40 | Restarts included: a usable grant for such a request at the end of the stretch was there in some state no later than its beginning, whichever earlier dump of the gate each restart brings back |
| Fence.GateStaysSound | apps/companion/src/permissions/gate/permission-gate.ts:56-110 | Every step keeps grants tied to decided requests, a restart included |
| Fence.EscapesFenceExactly | apps/companion/src/backend/bridge-action-policy.ts:73-112 | While a close of the job's affair is pending, an allowing decision passes exactly if its request names no affair and it would pass were there no close |
| Decisions.DecisionCountsExactlyWhen | apps/companion/src/backend/bridge-action-policy.ts:73-112 | A user's decision counts if and only if its request waits, no close of the affair it names is pending and, for an allowance, its job still waits for permission as the current one or an exploration of an affair that goes on; then the request leaves the queue and an allowance makes each permission it names usable; otherwise nothing changes |
| Decisions.MessageTakenExactly | apps/companion/src/backend/runtime.ts:120-167 | At the runtime's gate a message is refused exactly if only a close request may cause it: an ending that is not the stored one, and from the phone any ending or any update of an affair being closed; all else goes to the store, expires the requests of an ended affair, notes trouble and is saved |
| Decisions.MarkTakenExactly | apps/companion/src/supervision/apply-actions.ts:40-73 | A mark of supervision moves its affair exactly if the table leads there, with the supervised job, the reason and the way on, and touches nothing else |
| Fence.UnconfirmedCanBeRetried | apps/companion/src/affairs/actions/coordinator.ts:47-102 | A run that ended unconfirmed left its request pending on file; repeating it, also after a restart, starts a new run under the same key |
| Registration.RegistersExactly | apps/companion/src/state/store.ts:180-228 | A message puts a job under an affair exactly if it is unseen, accepted by the store and names that affair for an unregistered or elsewhere registered job |
| Registration.FenceLetsInExactly | apps/companion/src/protocol-server/job-create-precheck.ts:59-62 | What one step under a pending close, short of a restart, registers under the affair is exactly the job of a message that the store accepts as registering or moving it there |
| Registration.FencedAffairGainsOnlyByMessage | apps/companion/src/backend/runtime.ts:120-141 | In any run, restarts and failed saves included and with no premise on messages: a job under the affair, in memory or on file, after a stretch with a pending close was there before it or came by such a message |
| Registration.FencedAffairGainsNoJob | apps/companion/src/protocol-server/job-create-precheck.ts:59-62 | So in runs whose job messages keep registrations no job is registered under a fenced affair |
| Children.RunAdvances | apps/companion/src/affairs/actions/coordinator.ts:104-143 | Each step leaves a run alone, ends it, moves it to the executor or the last check, or passes its next child, which is then safely stopped |
| Children.CommittedCancelStoppedEveryChild | apps/companion/src/affairs/actions/coordinator.ts:81-143 | For any executor: when a cancellation commits, every job live at its first step was passed in between, having stopped by itself, being blocked with one of the three ended reasons, or registered terminal after the executor's answer |
| Progress.IdealCancelCommitsExactlyWhen | apps/companion/src/affairs/actions/coordinator.ts:81-124 | With an executor that stops what it is asked to and saves that succeed, a cancellation that passed its first check commits if it named the current job; if it named none, exactly when no child that must be stopped is an execution whose stop moves the affair to blocked |
| Acceptance.AcceptanceCommitsExactlyWhen | apps/companion/src/affairs/actions/coordinator.ts:47-102 | A fresh request to accept, saves succeeding, commits if and only if it is well-formed, no close of the affair is pending, the affair waits for acceptance at the job the user saw, that job is a completed execution with evidence and a result, and every job of the affair is completed, failed or canceled; then the affair is closed in memory and on file and nothing else changes; otherwise nothing changes, and a request that was tried is durably refused for the first hindrance |
| Acceptance.CancellationStartsExactlyWhen | apps/companion/src/affairs/actions/coordinator.ts:47-109 | A fresh request to cancel goes on to the children if and only if it is well-formed, no close is pending, and the affair is as the user saw it and not ended; from then on no job of the affair has a usable grant or a waiting request, and other jobs keep theirs; otherwise it is durably refused |
| Acceptance.CancellationCommitsExactlyWhen | apps/companion/src/affairs/actions/coordinator.ts:47-124 | From the arrival of a fresh request, with an ideal executor: it commits if and only if it may start and either the user saw a current job, or the affair is not delegated yet, or no execution of it must be stopped |
| Acceptance.ChildHandledExactly | apps/companion/src/affairs/actions/coordinator.ts:104-143 | What becomes of the next child, in statuses and reasons: passed, marked canceled with nothing left to wait for, handed to the executor, or the run ends unconfirmed; after the answer it passes exactly if that came normally, the registered job is over and the save succeeds |
| Acceptance.KnownRequestExactly | apps/companion/src/affairs/actions/coordinator.ts:47-79 | A request under a known key: refused with other content, answered as it was decided, joined to its run, or tried again under the same record, and nothing else changes |
| Acceptance.UnsavedRequestLeavesNothing | apps/companion/src/affairs/actions/coordinator.ts:67-73 | A fresh request whose first save fails is answered retryably and leaves no trace |
| Acceptance.OfferedOnlyWhenCompleted | apps/companion/src/state/affair-job-projection.ts:19-35 | Over every step of the companion an affair comes to wait for acceptance only by a report that a job of it completed, an update that says so, supervision, or a repair that goes by a completed job; never by a failed, blocked or canceled job |
| Reconcile.ReconcileIsLegal | apps/companion/src/state/affair-job-projection.ts:69-138 | Startup repair leaves terminal affairs alone, ends none, moves only to statuses reachable in the table, and keeps identities |
| Reconcile.SecondPassRepairsNothing | apps/companion/src/state/affair-job-projection.ts:43-67 | A second repair pass changes nothing |
| Projection.RepairFollows | apps/companion/src/state/affair-job-projection.ts:43-138 | What startup repair makes of each affair, in statuses: an ended one, or one that goes by no job, stays; any other follows its current execution, or without a current job its execution registered last, unless that job is not started yet and the affair is past delegation |
| Reconcile.ReconcileAffairsFromJobs | apps/companion/src/state/affair-job-projection.ts:43-67 | The repair loop over the mutable store repairs every affair and reports a change exactly if one was needed |
| Reach.CanReach | apps/companion/src/state/affair-job-projection.ts:118-138 | The queue-and-seen search answers true exactly when a walk exists, for any table and status list |
| Mirror.HydrateAfterSnapshot | apps/companion/src/state/mirror/backend-mirror.ts:80-126 | Saving and refilling gives back every saved collection in the same order; what is not saved stays as it was |
| Mirror.HydratedIsWellFormed | apps/companion/src/state/mirror/backend-mirror.ts:103-126 | Whatever a file holds, the refilled state has every record under its own id, once |
| Create.CreationIsAtomic | apps/companion/src/protocol-server/handlers/job-handlers.ts:31-84 | A creation that is not accepted leaves the state exactly as it was, whichever event or save refused it |
| Create.RefusedCreationChangesNothing | apps/companion/src/backend/jobs/create.ts:17-40 | The commit alone is atomic for any events without chat messages |
| Create.ChatEventSurvivesRefusal | apps/companion/src/backend/jobs/create.ts:17-40 | The commit alone is not atomic for chat messages, which the job handler never passes |
| Create.AcceptedCreation | apps/companion/src/backend/jobs/create.ts:17-40 | A creation that passed its checks succeeds exactly when the mirror saves; then the job waits for permission, command and events count as seen, and it is current exactly if it is an execution or none was current |
| Creation.CreatedExactlyWhen | apps/companion/src/protocol-server/job-create-precheck.ts:36-82 | A command creates its job if and only if it is unseen, the affair is open, the job is unknown, no other execution of the affair would be pushed aside alive, the executor is capable, no request of the job waits, what it asks for is acceptable under a new request id, its messages validate and the save succeeds; it counts as done exactly if seen or ordered in the same words; what is not created changes nothing and leaves no new request waiting |
| Creation.CreationWrites | apps/companion/src/protocol-server/handlers/job-handlers.ts:31-150 | What an accepted creation writes: one job that waits for permission under the queued request, the affair at that job and delegated if it was ready, three message ids, and nothing else |
| Create.KnownJobIsNeverRecreated | apps/companion/src/protocol-server/job-create-precheck.ts:41-82 | A create for a registered job id never changes state or gate |
| Create.CommitJobCreationOn | apps/companion/src/backend/jobs/create.ts:17-40 | Draft, swap and rollback on the mutable store give the state and result of `CommitJobCreation` |
| Gate.OneShotConservation | apps/companion/src/permissions/gate/permission-gate.ts:142-178 | Over any history without a job-wide grant for the pair, successful checks and still usable grants together never exceed the one-shot grants issued |
| Gate.GrantsComeFromAllowing | apps/companion/src/permissions/gate/permission-gate.ts:78-104 | A usable grant appears only by an allowing decision on the waiting request that it names, in that decision's scope, for the request's job and one of its permissions |
| Gate.DecisionAddsExactly | apps/companion/src/permissions/gate/apply-decision.ts:35-96 | All a decision changes: a waiting request leaves the queue, and an allowance adds one active grant per permission named, in order, for its job and in its scope; a denial and a request that does not wait add none |
| Gate.DecisionGrantsExactly | apps/companion/src/permissions/gate/apply-decision.ts:76-87 | So every permission named becomes usable, and the usable grants of a pair and scope rise by exactly as many as the request names the permission |
| Gate.CheckSpendsExactly | apps/companion/src/permissions/gate/permission-gate.ts:142-178 | A check succeeds exactly if an active grant covers the pair, and then at most the first such grant changes: a one-shot grant is switched off |
| Gate.OtherOpsExactly | apps/companion/src/permissions/gate/permission-gate.ts:56-313 | Asking, expiring and revoking: which requests are taken in and leave the queue, and that a revocation removes exactly the usable grants of its job |
| Gate.NeverWaitsAgain | apps/companion/src/permissions/gate/permission-gate.ts:78-104 | A request that left the queue never waits again, short of revoking everything |
| Gate.RevokedUntilAskedAgain | apps/companion/src/permissions/gate/permission-gate.ts:231-238 | After a revocation the job has no grant in any continuation until a request for it is enqueued |
| Gate.RestoreAfterSnapshot | apps/companion/src/permissions/gate/persistence/snapshot.ts:27-40 | Restoring a dumped gate is the identity |
| Gate.StepKeepsSound | apps/companion/src/permissions/gate/permission-gate.ts:56-315 | Every operation keeps ids equal to keys, a stage for every request, and every grant tied to a decided request for its job and permission |
| Serial.RefinesFifoLock | apps/companion/src/affairs/actions/serial.ts:3-15 | Move by move, the map of promise tails is one FIFO lock per affair: calls join the end, only the head starts and releases, whether or not the one before it threw, and no other affair's line changes |
| Serial.StartInOrderAndNeverOverlap | apps/companion/src/affairs/actions/serial.ts:3-15 | Two operations of one affair never overlap and start in call order, in any run |
| Serial.HeadCanStart | apps/companion/src/affairs/actions/serial.ts:3-15 | A waiting operation can start exactly when it heads its affair's line |
| Serial.MissingTailMeansIdle | apps/companion/src/affairs/actions/serial.ts:10-13 | A missing map entry means every operation called for the affair has settled |
| Serial.AffairOperationQueue.Run | apps/companion/src/affairs/actions/serial.ts:6-15 | Calling `run` on the object appends an operation behind the affair's present tail |
| Serial.HeadAlwaysAdvances | apps/companion/src/affairs/actions/serial.ts:6-15 | No line is ever stuck: in any run the head of a line can make its own next move, and starting, settling (thrown or not) and releasing it makes way for the next |
| Serial.CleanupForgetsExactly | apps/companion/src/affairs/actions/serial.ts:10-13 | The map forgets an affair exactly when the latest operation called for it cleans up |
| Publisher.PublishCreatedBridges | apps/companion/src/jobs/delegation/projection/job-status-publisher.ts:25-55 | Whatever faults occur, publishing a record moves the job's status only along edges, through running if at all; success means it arrived, and without faults it succeeds |
| Publisher.RepeatingArrives | apps/companion/src/jobs/delegation/projection/job-status-publisher.ts:25-55 | Repeating after any first attempt, faults gone, arrives at the record's status |
| Publisher.RepeatingGivesTheSameRecord | apps/companion/src/jobs/delegation/projection/job-status-publisher.ts:25-55 | What record the repetition leaves: the one that one clean attempt leaves, or the executor's own after the acceptance of a running record was stored |
| Publisher.RepetitionDiffersExactly | apps/companion/src/jobs/delegation/projection/job-status-publisher.ts:25-55 | The two records differ exactly if the record says running, the job was waiting for permission, the first acceptance message was valid, and the record does not look as acceptance shows it |
| Witness.RepeatingChangesTheRecord | apps/companion/src/jobs/delegation/projection/job-status-publisher.ts:25-49 | From startup, with one failing save: the repetition leaves another record than one clean attempt |
| Ticks.PublishedExactly | apps/companion/src/jobs/delegation/projection/job-status-publisher.ts:25-49 | Field by field what record a successful publication leaves, that a waiting job is never accepted without its run's identity, and that it succeeds without faults |
| Ticks.CommitMeans | apps/companion/src/jobs/delegation/polling/job-polling.ts:77-82 | A committed publication: the phone was told the status that the affair has, and if it ends the tracking the job has the status reported; no other affair is told |
| Ticks.ToldExactly | apps/companion/src/jobs/delegation/projection/job-status-publisher.ts:68-74 | The phone is told of an affair exactly if it was last told another status, and it counts as told exactly if that was valid, saved and sent |
| AtMostOnce.CreateCallsNeverOverlap | apps/companion/src/jobs/delegation/delegator.ts:63-159 | Under any interleaving two create calls for one job are never outstanding together |
| AtMostOnce.OneRunPerJob | packages/openclaw-adapter/src/jobs/create-job.ts:124-215 | At most one created run is ever registered for a job, and none is forgotten |
| AtMostOnce.FenceStopsCreateCalls | apps/companion/src/jobs/delegation/permission-execution-precheck.ts:19-45 | Under a pending close no create call is issued for a request of the affair |
| AtMostOnce.UnnamedRequestGetsNoRun | packages/openclaw-adapter/src/jobs/create-job.ts:69-115 | In any run, the create call of a request without an affair was refused by the executor at once, so it gains no run |
| AtMostOnce.CancelReturnsOnlyWhenStopped | apps/companion/src/jobs/delegation/delegator.ts:229-249 | `cancelJob` returns normally only if the job's registered status is now terminal |
| AtMostOnce.GrantLeadsExactly | apps/companion/src/jobs/delegation/delegator.ts:63-132 | A granted request leads to a create call exactly if its job waits with no call outstanding, its affair lets it run, all it names is covered by active grants and its workspace is in scope; it reaches the runtime exactly if the input is valid and the executor does not know the job; otherwise it is ignored or reported as failed, and it is said when |
| Spending.AnswerSpendsExactly | apps/companion/src/jobs/delegation/delegator.ts:134-149 | The answer to a create call that made a run switches off one-shot grants only, of its job and for permissions named, as many of each as it is named or as come before a job-wide one; a failed call spends nothing; what stays usable is said exactly |
| Spending.OnlyAnswersSpend | apps/companion/src/jobs/delegation/delegator.ts:63-249 | No other step of delegation touches a grant or a request |
| Spending.OneAllowanceOneRun | apps/companion/src/permissions/gate/permission-gate.ts:142-178 | In any run: after a run was created with all its one-shot grants of a permission, no request naming it for the job leads to another create call until something outside grants it anew |
| Calls.AnswerLeadsExactly | apps/companion/src/jobs/delegation/delegator.ts:120-159 | A refused create call is handed over as the job's failure; a created run is handed over if its affair still lets it run, and otherwise published once and canceled |
| Calls.RunStoredExactly | packages/openclaw-adapter/src/jobs/create-job.ts:150-215 | The executor comes to know a job exactly when the runtime identified the run that was asked for |
| Calls.RestoreLeadsExactly | apps/companion/src/jobs/delegation/polling/job-polling.ts:42-66 | When a restore reads, and what becomes of its answer: handed over, tracked anew with nothing held, handed over as a failed read, or nothing |
| Calls.CancellationLeadsExactly | apps/companion/src/jobs/delegation/delegator.ts:229-249 | When a job is canceled without the executor and when by it, what is written, and when the call returns normally |
| Calls.RejectionLeadsExactly | apps/companion/src/jobs/delegation/delegator.ts:167-183 | A rejection is handed over as the job's failure exactly if the request is known and its job waits for permission |
| Composition.OutsideOkExactly | apps/companion/src/backend/runtime.ts:53-141 | What delegation relies on holds across a step of the companion, short of a restart, exactly if it is not a job message that puts a registered job back to waiting for permission |
| Composition.RunsInsideAreQueued | apps/companion/src/affairs/actions/serial.ts:3-15 | Where queued calls run inside operations of a run of the queue, in the line of their job's affair, they take turns |
| Retained.EveryResultIsKept | apps/companion/src/jobs/delegation/polling/job-polling.ts:25-40 | A result handed to `accept` or `fail` is committed in that step or held by a new poll, the job's only one |
| Retained.TickResultIsKept | apps/companion/src/jobs/delegation/polling/job-polling.ts:104-136 | What a tick read is committed before it ends or held by the poll that read it |
| Retained.NoReadWhileHeld | apps/companion/src/jobs/delegation/polling/job-polling.ts:104-112 | In any run the runtime is not read for a poll that holds a result |
| Retained.RunKeepsTracks | apps/companion/src/jobs/delegation/polling/job-polling.ts:77-136 | In any run each live poll has at most one tick, marked as under way, which finds nothing tried since its read began |
| Ticks.TickDoesExactly | apps/companion/src/jobs/delegation/polling/job-polling.ts:104-136 | What a tick tries, holds and shows: a held result first, else what it read exactly if that looks different from what is shown or the read failed for good; a stale poll does nothing; the poll is free for the next tick |
| Calls.TimerQueuesExactly | apps/companion/src/jobs/delegation/polling/job-polling.ts:90-102 | The timer queues a tick exactly for a tracked job that has none under way |
| Ticks.HandedOverExactly | apps/companion/src/jobs/delegation/polling/job-polling.ts:25-40 | A result handed over is tried at once; the job is then untracked, tracked with the result as shown, or tracked holding it |
| Looks.FingerprintTellsExactly | apps/companion/src/jobs/delegation/projection/job-status-fingerprint.ts:37-53 | A record's fingerprint tells it from every record that looks different if and only if it has at most one step or no step text spells another step (a bar, a kind and a colon) |
| Looks.AmbiguousHides | apps/companion/src/jobs/delegation/projection/job-status-fingerprint.ts:37-53 | For any other list of steps a different list of the same number and joined text |
| Turns.OrderBreaksExactly | apps/companion/src/jobs/delegation/polling/job-polling.ts:43-136 | Counting every answer as of the moment it was asked for, attempts about a job go back in time exactly when a call hands over an answer asked for before the last attempt; a tick never does |
| Turns.HeldUntilCommittedOrReplaced | apps/companion/src/jobs/delegation/polling/job-polling.ts:57-136 | A held result leaves its poll only by its own commit, another result of the job, newer or older, or one of three kinds of step that drop the entry |
| Drops.LostExactlyWhen | apps/companion/src/jobs/delegation/polling/job-polling.ts:25-66 | In any run a held result is lost exactly by an exception of the create call, the withdrawal of a created run, a restore whose read failed for the moment with a record to fall back on, or a hand-over of an answer asked for earlier; and then it came to be held while that very call was suspended |
| Drops.LostOnlyOutOfLine | apps/companion/src/jobs/delegation/delegator.ts:167-183 | With the operation queue at work, one is lost only by a step that did not queue, or because such a step brought it while the call that loses it was suspended |
| Drops.LateOnlyOutOfLine | apps/companion/src/jobs/delegation/polling/job-polling.ts:43-55 | Likewise results are tried out of order only by a step that did not queue, or because such a step tried a newer one meanwhile |
| Drops.QueuedCallsAloneLoseNothing | apps/companion/src/protocol-server/router.ts:117-125 | Ticks, restores, grants of named requests and queued cancellations alone lose no held result and keep the order |
| Drops.RejectedMeanwhile | apps/companion/src/jobs/delegation/delegator.ts:167-183 | A rejection that cannot commit while a restore of the job is reading is held by a poll |
| Drops.RestoreDropsWhatIsHeld | apps/companion/src/jobs/delegation/polling/job-polling.ts:57-66 | If that read fails for the moment, the restore drops it, neither held nor tried again |
| Drops.RestoreReplacesWhatIsNewer | apps/companion/src/jobs/delegation/polling/job-polling.ts:43-55 | If that read, begun earlier, succeeds, its older answer takes the place of what was held |
| Adapter.ResolveNextJobStatus | packages/openclaw-adapter/src/mapping/apply-run-snapshot.ts:68-93 | The search returns the target exactly if a path of the job table leads there, and otherwise no move |
| Adapter.VerdictAdoptedExactly | packages/openclaw-adapter/src/mapping/apply-run-snapshot.ts:102-173 | A verdict's status is adopted exactly if it changes nothing, the record is not terminal and a path leads there, or it repairs a hollow completion; every written status is reachable |
| Adapter.MergedExactly | packages/openclaw-adapter/src/mapping/apply-run-snapshot.ts:102-173 | Field by field what a snapshot makes of a record, and which records it leaves untouched |
| Adapter.StreamKeepsFinal | packages/openclaw-adapter/src/mapping/apply-run-snapshot.ts:49-173 | For any verdict function and any stream of snapshots, failed and canceled records stay so, completed ones until a hollow repair, and every later status is reachable |
| Adapter.ApplyRunSnapshotToJob | packages/openclaw-adapter/src/mapping/apply-run-snapshot.ts:162-173 | The merge with its search loop gives the record of `ApplySnapshot` |
| Executor.FinalStatusLostExactly | packages/openclaw-adapter/src/jobs/read-job.ts:32-67 | With overlapping calls a failed or canceled record changes status exactly by the identified answer to a call that found another status, when that was terminal already or the verdict is another status than the present one |
| Executor.OverlappingReadUndoesCancellation | packages/openclaw-adapter/src/jobs/cancel-job.ts:72-91 | It happens: a read's older answer puts a canceled job back to running |
| Executor.RecordsStayFinal | packages/openclaw-adapter/src/jobs/cancel-job.ts:28-101 | If calls about a job take turns, its record is never forgotten, failed and canceled stay, completed stays until a hollow repair, and every later status is reachable |
| Executor.StepIsAboutOneJob | packages/openclaw-adapter/src/jobs/create-job.ts:151-215 | Every call writes only the record of its own job, forgets none, and answers with that job's present record |
| Executor.AskedExactly | packages/openclaw-adapter/src/jobs/create-job.ts:69-150 | The runtime is asked exactly for a new valid order, a refreshing read of a job with a run and the cancellation of one that is not over; all else is answered from the records, and a job never run is canceled there |
| Executor.AnswerTakenExactly | packages/openclaw-adapter/src/jobs/read-job.ts:32-67 | An answer is taken exactly if it is of the known run and of this job; then its merge into what the call found, or into a blank record, is stored and returned |
| Executor.AdapterJobStore.CancelAdapterJob | packages/openclaw-adapter/src/jobs/cancel-job.ts:28-71 | The object takes the step of `Cancel`; an immediate answer is a terminal record of the job asked about |
| Outbox.EveryMessageIsKept | apps/companion/src/backend/chat/message-receipts.ts:6-44 | In any run of the companion, with restarts and failing saves, a queued message is from then on either waiting or consumed, never both, and once consumed stays so |
| Outbox.ReceiptAnsweredExactly | apps/companion/src/backend/chat/message-receipts.ts:6-44 | Exactly which receipts are accepted, repeated and refused, and for which reason; whatever is not accepted changes nothing |
| Outbox.WaitingMessageIsConsumedExactly | apps/companion/src/backend/chat/message-receipts.ts:6-44 | In every state a run can reach, the receipt of a waiting message is accepted if and only if it is valid, comes from the phone, its id is free and the save succeeds; then just this message is out of the queue, the receipt is on record, and the same receipt again is a repetition that changes nothing |
| Outbox.SentWhileWaiting | apps/companion/src/protocol-server/message-outbox.ts:34-73 | A message is queued exactly if it says something, names the affair it goes to and is saved; a reconnect sends exactly the waiting messages of the present parties, with their kind, id, text and affair |
| Outbox.MailStepKeepsConserved | apps/companion/src/chat/channel/pending-context.ts:49-99 | Queuing a fresh message and taking any receipt keep waiting messages separate and none of them consumed |
| Outbox.ReceiptRemovesOnlyItsMessage | apps/companion/src/backend/chat/message-receipts.ts:24-35 | A receipt takes out exactly the message it is for |
| Outbox.OthersLeaveMailAlone | apps/companion/src/backend/runtime.ts:53-141 | No close, message, creation, supervision or decision touches the pending queue or the receipts |
| Outbox.ResendingChangesNothing | apps/companion/src/protocol-server/message-outbox.ts:34-73 | Flushing again what still waits adds no chat entry and alters none |
| Outbox.ChatOnlyAppends | apps/companion/src/state/chat-events.ts:5-28 | A chat event only appends, never replaces a stored text, and a second one with the same id changes nothing |
| Outbox.PendingContextQueue.ApplyMessageReceipt | apps/companion/src/backend/chat/message-receipts.ts:6-44 | On the live objects: both lists as `Receive` says, rolled back together when the save throws, and the file written exactly when accepted |
| Discovery.RoundTripExactly | packages/protocol/src/discovery/advertisement.ts:71-141 | An advertisement survives printing and parsing exactly if its texts are trimmed and not empty, its version is the protocol's, and its list items are trimmed, not empty and free of commas |
| Discovery.DecodedIsWellFormed | packages/protocol/src/discovery/advertisement.ts:89-141 | Every successfully parsed record is of that form and named no sensitive key |
| Discovery.ValidatingAgainChangesNothing | packages/protocol/src/discovery/advertisement.ts:149-214 | A parsed or validated advertisement passes validation again unchanged |
| Status.JobReachableExactly | packages/protocol/src/states/job-status.ts:24-58 | Reachability in the job table in closed form |
| Status.AffairReachableExactly | packages/protocol/src/states/affair-status.ts:26-60 | Reachability in the affair table in closed form |

## Findings

Properties that fail as one would first state them, each with its input and its exact condition.

- A cancellation can commit over a live job. Job messages that follow a cancellation after unpairing
  (apps/companion/src/shell/desktop/runtime-wiring.ts:71-77) or a rejection do not wait in the operation queue; those of the
  phone do (apps/companion/src/protocol-server/router.ts:122-125). A completed job that the run has passed and that then
  reports itself blocked is live when the close commits (`Witness.AnUntamedMessageLeavesALiveJob`);
  `Endings.LiveJobSurvivesExactlyIf` with `Endings.BringsToLifeExactly` says exactly which messages do it.
- A completed job of an ended affair can be revived by a `blocked` message that names another affair
  (`Store.MovingAJobRevivesIt`, `Store.FreezeIsLostExactlyByMoving`).
- A job can be registered under an affair whose close is pending by a job message, though never by a create command
  (`Registration.RegistersExactly`, `Registration.FenceLetsInExactly`, `Registration.FencedAffairGainsOnlyByMessage`).
- A valid cancellation that names no current job can fail with an executor that stops everything, because stopping an
  execution makes it the current job (`Witness.NamingNoJobCanFail`, `Progress.IdealCancelCommitsExactlyWhen`).
- A permission request without an affair id escapes the fence at the decision (`Fence.EscapesFenceExactly`); it gains no run
  (`AtMostOnce.UnnamedRequestGetsNoRun`).
- A held failure can be lost, and an older answer published after it. The user rejects a request while a restore of its job
  is reading, and the failure cannot be committed (`Drops.RejectedMeanwhile`). Then the read fails for the moment
  (`Drops.RestoreDropsWhatIsHeld`), or it succeeds with the older answer (`Drops.RestoreReplacesWhatIsNewer`).
  `Drops.LostExactlyWhen` and `Turns.OrderBreaksExactly` say when this happens, `Drops.LostOnlyOutOfLine` and
  `Drops.LateOnlyOutOfLine` that it takes a call which does not queue.
- Repeating a publication reaches the same status but can leave another record (`Witness.RepeatingChangesTheRecord`, exactly
  when in `Publisher.RepetitionDiffersExactly`).
- In the executor's own store an older read can undo a cancellation that was answered meanwhile
  (`Executor.OverlappingReadUndoesCancellation`, `Executor.FinalStatusLostExactly`).
- A changed step of a job can go unnoticed by the phone, although every change of a step is meant to be told
  (apps/companion/src/jobs/delegation/projection/job-status-fingerprint.ts:27): the texts of the steps are joined
  with bars before they are compared. `Looks.FingerprintTellsExactly` says for which records, and `Looks.AmbiguousHides` gives
  the other list for every one of them.
- The commit of a job creation keeps chat messages although it is refused (`Create.ChatEventSurvivesRefusal`); its only caller
  passes none.

## Left out

- Frozen.FrozenForever: leaves out messages about unregistered jobs as well as messages that move one; either kind may be lost by a restart.
- Endings.EndedAffairsAreStill: premises tame messages; the exact converse is proved for one message before a commit (`Endings.LiveJobSurvivesExactlyIf`), not for every continuation of a run.
- Fence.FencedAffairGainsNoGrant: speaks of stretches without restart; `Fence.NoGrantThroughFence` speaks of all, with the gate that each restart brings back as a parameter, since the gate's own file is not modelled.
- Registration.FencedAffairGainsNoJob: premises that job messages keep registrations; `Registration.FencedAffairGainsOnlyByMessage` has no such premise.
- Executor.RecordsStayFinal: premises that calls about one job take turns; without it `Executor.FinalStatusLostExactly` says what is lost.
- Discovery.Decode: whether a key outside the seven is sensitive is an arbitrary predicate, so the list of forbidden fragments and the folding of key names are not modelled.
- Operation lines: that a queued call runs inside an operation of its affair's line is a premise (`Composition.RunsInsideAreQueued`); everything about `Authority` holds without turns.
- Ticks.TickDoesExactly: premises that the steps last shown are unambiguous; for others `Looks.AmbiguousHides` shows that a change can be missed.
- `findPending` and `recoverPending`: repetitions of `execute` for pending records, of which `Fence.UnconfirmedCanBeRetried` speaks one by one.
- Texts and reason codes of the failures that the delegator reports: the parameter `detail` of a step.
- Snapshots carry no order of their own: an answer counts as of the moment it was asked for.
- The file and change callback of the permission gate, and deciding requests again after a restart.
- `decideJobFromEvidence` and the reading of run evidence: an arbitrary function.
- Payload validators: an arbitrary verdict, apart from non-empty ids and the statuses that a job message type may carry. The refusal of an `affair.close` body before the store is not modelled.
- Connection, pairing and session events: they are `OtherBody` messages.
- The in-flight claim set of job creation: taken and released within one step, so never observed.
- Equality of permission lists is compared as multisets instead of sorted, comma-joined texts.
- Text redaction, audit records, logging, snapshots for the user interface, delivery records beyond their list, and workspace scopes, whose verdict is a parameter.
- `stop`, `stopAll`, timers and intervals of polling: a tick may come at any time.
- Browser-first wrapping of goals, session keys and idempotency keys of runs, and how evidence is matched to a job: a flag on the snapshot.
- `take` and `drain` of the pending queue, which nothing calls; broadcasting, of which only the chat events are modelled; and delivery receipts.
- Mirror files written by earlier versions with fields missing.
- Time stamps inside records, and the time of the last error.
