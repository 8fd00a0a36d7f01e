# NovaForge protocols in Dafny

NovaForge drives deployments, agent runs and CI jobs from PostgreSQL rows while Kubernetes, other
services and its own replicas fail at any point. This project models those protocols and proves what
they promise over every run. `dafny verify dfyconfig.toml` checks all of it.

How the models are built:

- Every database transaction is one step, given as a function from rows to rows. Where the source
  runs statements or loops, a class or method carries them out and is proved equal to that function.
- Every remote effect (a Job or Secret create or delete, an owner call, a stream append) is a step of
  its own. It may be lost, be applied late, or be applied with its reply lost.
- Processes crash between any two steps. A database session may die while its process goes on: its
  writes then fail, its calls to Kubernetes do not.
- `Exec(steps)` is the state in which a run from the empty system ends (`Traces`). A step that is not enabled changes
  nothing, so every sequence of steps is a run and every theorem about `Exec` holds of all runs.
  `Exec(a + b)` continues `Exec(a)`.

| file | what it holds |
|---|---|
| `Traces`, `Wrappers`, `Text` | runs of a state machine, optional values, operations on text |
| `Expiry`, `DeploymentStore`, `StoreStatements` | authority ceilings; operations, attempts, obligations, the outbox and their transactions |
| `Delivery`, `DeliveryInvariant`, `DeliverySteps`, `DeliverySafety`, `DeliveryExample` | the delivery protocol under a lockable destination, its invariant, its promises, and a run that succeeds |
| `DeliveryAdmission`, `DeliveryProgress`, `DeliveryExecution` | when an attempt starts, and that deliveries, observations, cleanup and recovery can be carried through |
| `HelmScan` | the scans that name an operation's deliveries |
| `Materialization`, `MaterializationProgress`, `MaterializationExample` | one deployment Secret: prepare, revoke, late creates and deletes; when both can finish; a run through both ends |
| `CredentialHorizon` | both protocols of a credential together |
| `Capability`, `CapabilityAccess` | the grant owner: intents, grants, tombstones; whom it lets in |
| `Runs`, `RunProtocol`, `RunSteps`, `RunSafety`, `RunProgress`, `RunExample` | agent runs, the Work owner, cleanup workers and purges; what is recorded and that cleanup finishes; a run from admission to purge |
| `BranchLocks` | branch locks and write grants |
| `CiJournal`, `CiLaws`, `CiExample` | CI jobs, runner incarnations and the log journal; what their transactions store, exactly; a run to a closed journal |
| `Names`, `Workflow` | the order of a workflow's jobs |
| `Audit`, `AuditSafety`, `AuditProgress` | the tool-call log, its paging and its notifications; what is stored, and that notifications catch up |
| `Budget`, `BudgetThreads` | prices, saturating counters, concurrent adds and checks |

What the models take for granted: fresh identifiers are fresh; bindings, digests and receipts are
injective; clocks may show anything; a Kubernetes Job or UID that existed is never reused, a Job once
created stays, and a terminal Pod stays terminal; a definite "already exists" means that the create
did not happen.

Properties that do not hold everywhere are given with their exact condition and an input that fails:

- A load of a budget check bounds the sum it reads only if the limit is below the largest 64-bit
  value and, for costs, above zero (`LimitIsExact`, `BlindLimit`).
- A repeated receipt gets its answer again only if it is not a success whose tool evidence or
  workspace has become unresolved (`CompletionIsIdempotent`, `SuccessReplayRefused`, `ReceiptReplays`).
- State changes follow the transition table only if no receipt ends a queued run as a success or over
  its budget (`TableIsKept`, `QueuedSucceeds`). The table lets a queued run fail, which the comments above it and on
  `SetRunState` leave out (`internal/agents/store.go:126-134`).
- A revocation can finish only if its create is accounted for: none was begun, its UID is recorded, or
  its Secret stands there marked (`CanBeRevoked`, `CannotBeRevokedAlone`, `LostIsNeverRevoked`). A
  delivery whose create was lost with its process is never settled (`EndedCanBeSettled`, `LostIsStuck`).
- A lock and its grant agree only on prefixes that end in a slash, are empty or have ".."
  (`AgreeIffSlash`).
- A workflow is sorted only if it also knows all its needs (`SortsAcyclic`), which `ParseWorkflow`
  makes sure of.

## Model

| member | source | states |
|---|---|---|
| Expiry.EarlierExpiry | internal/deployment/expiry.go:7-16 | the narrower of a ceiling and an instant; a rounded instant loses less than a microsecond and never gains |
| Expiry.Least | internal/deployment/store.go:154 | SQL LEAST ignores NULL, so the result is one of the two and within both |
| DeploymentStore.StartCeiling | internal/deployment/store.go:145-153 | an attempt's ceiling is within the request's, the narrowed one and the caller's current authority |
| StoreStatements.Store.Insert | internal/deployment/store.go:13-46 | a destination belongs to its first organization; a foreign request leaves no trace, a replay changes nothing |
| DeliveryAdmission.RequestsExactly | internal/deployment/store.go:13-46 | a request is stored once, with its ceiling, on a destination of its own organization; a replay changes nothing |
| DeliverySafety.NarrowingBinds | internal/deployment/service.go:136-150 | a narrowing replay bounds every attempt that starts after it, and so every later credential, in all longer runs |
| StoreStatements.Store.Start | internal/deployment/store.go:110-177 | a start that is not admitted or is blocked rolls back; otherwise one new numbered attempt, with its obligation unless it only recovers |
| DeliveryAdmission.StartsExactly | internal/deployment/store.go:110-177 | an attempt starts exactly when the lock holder asks for work that suits its operation, undisputed on its destination; it holds the narrowest ceiling and the earlier deadline, what still ran becomes uncertain, and a refused start leaves no trace |
| DeliveryAdmission.PreparedInTime | internal/deployment/helm.go:160-186 | an executor is prepared only while five minutes of its attempt's credential are left |
| DeliveryAdmission.WorksUnderObligation | internal/deployment/helm.go:147-189 | an executor goes on only under the lock with its own obligation open, and a Job is watched only under an open obligation with its marker |
| StoreStatements.Store.Finish | internal/deployment/store.go:179-210 | only the running attempt of a running operation is settled, and a success carries its outbox event in the same transaction or not at all |
| DeliverySafety.JournalIsOneWay | internal/deployment/credentials.go:60-80 | a marker may come again, an acknowledgement is the last update of its attempt, no other attempt is touched, and what is refused once is refused in every longer run |
| DeliverySteps.RunKeepsInv | internal/deployment/service.go:190-331 | the invariant of the protocol holds in every reachable state |
| DeliverySafety.ExclusiveDelivery | internal/deployment/helm.go:143-237 | at most one execute attempt per destination has a Job that may run or a create on its way, even by a process that lost its lock |
| DeliverySafety.FinalStatesSound | internal/deployment/service.go:303-322 | a succeeded or failed operation has no open obligation and no executor that may still run |
| DeliverySafety.ResolvedIsQuiet | internal/deployment/credentials.go:146-197 | a resolved obligation means that its Job ended or is absent; resolved in preparation it rules that Job out for ever |
| DeliverySafety.ResolvedNeverDispatched | internal/deployment/credentials.go:154-175 | an attempt acknowledged without a Job never gets one in any longer run |
| DeliverySafety.SuccessIsProven | internal/deployment/helm.go:330-371 | a success rests on the ended executor of the newest delivery, and its event carries the recorded release |
| DeliverySafety.RecordsAreReported | internal/deployment/helm.go:330-371 | every recorded release was named by the report of an ended executor of that delivery or of an observation of it: deployed for a success, broken for a failure |
| DeliverySafety.OutcomeIsReported | internal/deployment/helm.go:330-371 | an operation succeeded only on a report that its release is deployed, and failed with a release only on a report that it is broken |
| DeliverySafety.FailureIsProven | internal/deployment/helm.go:499-511 | a failed operation recorded its newest delivery's release exactly when that delivery had a Job |
| DeliverySafety.OneEvent | internal/deployment/outbox.go:37-53 | the outbox has an event under an attempt exactly when the operation succeeded and that attempt is its newest delivery |
| DeliverySafety.EventsStay | internal/deployment/outbox.go:37-53 | a committed event is never withdrawn or changed |
| DeliverySafety.AttemptsCoherent | internal/deployment/store.go:140-166 | attempts are numbered 1..n, only the last may run, and the operation is in the state of the last |
| DeliverySafety.SupersededFinishIsVoid | internal/deployment/store.go:188-196 | the result of an attempt that is not the last changes nothing |
| DeliverySafety.RecoveryNeverBlocked | internal/deployment/store.go:120-139 | a running or uncertain operation can always be observed or recovered |
| DeliverySafety.NothingRollsBack | internal/deployment/store.go:127-139 | the creation times of operations that start on a destination never decrease along a run |
| DeliverySafety.AuthorityNarrows | internal/deployment/store.go:145-165 | later attempts hold no more authority; a credential ends within twelve minutes and within every earlier ceiling |
| DeliverySafety.OperationsEvolve | internal/deployment/store.go:110-210 | no step forgets an operation or reopens an obligation; effective authority only narrows; success is final |
| DeliveryExample.ADeliverySucceeds | internal/deployment/service.go:190-331 | the protocol reaches a success with its event, so the promises are not kept by doing nothing |
| DeliveryProgress.ReportDecides | internal/deployment/helm.go:186-215 | a session whose own ended Job is its last obligation settles its attempt exactly as the report says, and as uncertain if it cannot be read |
| DeliveryProgress.UnconfirmedStaysOpen | internal/deployment/helm.go:190-196 | if the Pod cannot be confirmed again, the release is recorded, nothing is acknowledged and nothing decided |
| DeliveryProgress.UnacknowledgedIsUncertain | internal/deployment/helm.go:197-200 | an acknowledgement that failed, or whose reply was lost, forgets the executor's answer: the attempt ends uncertain |
| DeliveryProgress.GivenUpIsUncertain | internal/deployment/helm.go:186-232 | an error leaves the attempt uncertain and every obligation as it was |
| DeliveryProgress.EndedCanBeSettled | internal/deployment/service.go:190-331 | from every reachable state in which the executors are over, cleanup and recovery settle the operation as its newest delivery came out |
| DeliveryProgress.LostIsStuck | internal/deployment/credentials.go:154-180 | a dispatched create that was lost with its process keeps its operation active and its destination blocked for ever |
| DeliveryExecution.CanBeDelivered | internal/deployment/helm.go:143-232 | every admitted delivery with time left can be carried out and comes out as its executor reports |
| DeliveryExecution.CanBeObserved | internal/deployment/helm.go:112-142 | every unfinished operation whose delivery ended can be observed: earlier obligations are acknowledged and the observation decides |
| DeliveryExecution.UnpreparedIsRefused | internal/deployment/helm.go:158-179 | without time or credential no Job is created, the obligation is acknowledged, and a delivery fails unless the issuer may have issued |
| DeliveryExecution.UndeliveredIsFailed | internal/deployment/helm.go:499-511 | an observation of a delivery that was given up in preparation fails the operation without an executor |
| HelmScan.Latest | internal/deployment/helm.go:424-431 | the scan returns the number of the newest execute attempt, or 0 |
| HelmScan.Previous | internal/deployment/helm.go:433-443 | the scan returns the delivery of the newest earlier release that differs from the current delivery |
| HelmScan.RetryBase | internal/deployment/helm.go:433-443 | in every reachable state that is the most recent earlier delivery that ran, and none exactly when none ran |
| Materialization.Table.FindOrInsert | internal/deployment/materialization.go:72-113 | the row is inserted once; a different intent is refused without a trace; closing is permanent |
| Materialization.RightIsTakenOnce | internal/deployment/materialization.go:162-169 | a claim that succeeds or is refused lets no later claim succeed, and a claim that succeeds finds no create sent |
| Materialization.RecordedForever | internal/deployment/materialization.go:192-201 | a recorded UID is the created Secret's, is never replaced, and only the same marked Secret can be recorded again |
| Materialization.AbsenceIsFinal | internal/deployment/materialization.go:172-273 | absence is final and true: the one create was refused, or the Secret that it made is gone; no marked Secret exists and nothing is claimed or recorded again |
| Materialization.RunKeepsInv | internal/deployment/materialization.go:131-273 | row, Secret, create and every process stay consistent in all interleavings |
| Materialization.RevocationIsFinal | internal/deployment/materialization.go:220-266 | after a successful revocation no marked Secret exists, no create is out, and the issuer is fenced, now and ever after |
| Materialization.OneCreateOneDelete | internal/deployment/materialization.go:162-266 | at most one create is ever issued, and only the Secret it made is ever deleted |
| MaterializationProgress.CanBeRevoked | internal/deployment/materialization.go:220-273 | from every reachable state in which the create is accounted for, an undisturbed revocation succeeds, whatever earlier processes left behind |
| MaterializationProgress.CannotBeRevokedAlone | internal/deployment/materialization.go:236-256 | otherwise no run of the process alone succeeds, however lucky |
| MaterializationProgress.LostIsNeverRevoked | internal/deployment/materialization.go:242-245 | a lost create is never accounted for: no revocation of its row ever succeeds |
| MaterializationProgress.UnconfirmedIsNotRevoked | internal/deployment/materialization.go:225-234 | a revocation whose issuer did not confirm its fence goes on to remove the Secret but never reports success |
| MaterializationProgress.RefusedIsAbsent | internal/deployment/materialization.go:172-178 | a process that learns that its create was refused records the absence |
| Materialization.CredentialIsReal | internal/deployment/materialization.go:202-218 | a credential handed out has a Secret that was really made and expires within its request, as recorded |
| MaterializationProgress.CanBePrepared | internal/deployment/materialization.go:131-201 | a request that nothing bars is prepared, with the lifetime the issuer gave |
| MaterializationProgress.CanBeRecovered | internal/deployment/materialization.go:202-218 | a credential whose holder crashed is found again with its recorded lifetime while its row is open |
| MaterializationProgress.IssuedInTime | internal/deployment/materialization.go:139-161 | the issuer is asked only for an open row with five minutes left, and its answer is used only unfenced, within the request and with five minutes left |
| MaterializationProgress.HandedOutInTime | internal/deployment/materialization.go:213-217 | a credential is handed out only over an open row with five minutes left |
| Materialization.ClosedIsClosed | internal/deployment/materialization.go:213-217 | once the row is closed, no preparation that has not returned a credential ever does |
| CredentialHorizon.CredentialWithinAuthority | internal/deployment/materialization.go:83-86 | a credential handed out ends within twelve minutes of its attempt's start and within every ceiling up to that attempt |
| CredentialHorizon.NarrowingBoundsCredentials | internal/deployment/materialization.go:83-86 | no attempt that starts after a narrowing replay ever gets a credential that outlives it |
| MaterializationExample.PreparedThenRevoked | internal/deployment/materialization.go:131-273 | one run reaches a credential in use and then its completed revocation |
| Capability.OneIntentPerId | internal/capability/issuance.go:29-83 | after a call that succeeded, every later lookup of the id finds that very intent and stores nothing, or is denied |
| Capability.Owner.IssueIntent | internal/capability/issuance.go:96-132 | issuing is denied for cancelled, expired or too long grants and then leaves no trace |
| CapabilityAccess.IssuesExactly | internal/capability/issuance.go:29-132 | a grant is issued exactly to the issuer, or the runtime for a user, of the grant's own organization, for an agent's grant of at most a day under an id that is free or its own, and as asked |
| CapabilityAccess.GrantsAreNarrow | internal/capability/issuance.go:36 | every grant from an intent is an agent's, without secrets or deployment rights, beneath a prefix of the agents' namespace without ".." |
| CapabilityAccess.OrganizationsApart | internal/capability/issuance.go:32-38 | no call changes a row of another organization than its caller's, and what it adds is its own |
| CapabilityAccess.IssuesFreshExactly | internal/capability/grant.go:69-83 | the generic issue stores its grant under an id no table has seen |
| CapabilityAccess.RevokedIsDead | internal/capability/grant.go:146-159 | a grant revoked by its organization is dead in every longer run |
| Capability.Owner.CancelIssuance | internal/capability/issuance.go:146-159 | cancelling marks the intent and expires the grant together, even before any issue |
| CapabilityAccess.CancelsExactly | internal/capability/issuance.go:146-159 | a cancellation succeeds exactly for its caller and id, fences the intent, kills its grant and touches no other |
| Capability.LegacyCancelsOnce | internal/capability/legacy.go:45-52 | a legacy tombstone answers for ever: the same binding succeeds and changes nothing, any other is denied |
| CapabilityAccess.CancelsLegacyExactly | internal/capability/legacy.go:31-82 | a legacy tombstone is set exactly by the runtime of the grant's organization for the grant's own agent and branch |
| Capability.AuthorityOnlyDescends | internal/capability/issuance.go:96-159 | along any run grants keep their identity and only lose time; intents, cancellations and tombstones are permanent |
| Capability.NoResurrection | internal/capability/issuance.go:134-159 | a fenced id is never live again, and every later issue of it is denied |
| Capability.CancellationFences | internal/capability/issuance.go:146-159 | a cancellation that reports success has fenced its id |
| Capability.LegacyCancellationFences | internal/capability/legacy.go:45-81 | a legacy cancellation that reports success has fenced its id |
| Capability.NeverBoth | internal/capability/legacy.go:68-77 | no id is both issued by intent and cancelled as legacy |
| Capability.GrantWithinIntent | internal/capability/issuance.go:110-127 | a stored grant is its intent's grant or has lost all its time |
| Capability.IssuedIsStored | internal/capability/issuance.go:85-132 | what a successful call returns is what the owner holds: replays never renew |
| Capability.IntentIsForever | internal/capability/issuance.go:59-64 | a different intent for a stored id neither issues nor cancels, ever |
| Runs.TableIsKept | internal/agents/store.go:375-425 | every writer keeps to the transition table, exactly unless a receipt ends a queued run as a success or over its budget |
| RunExample.QueuedSucceeds | internal/agents/completion.go:64-70 | a reachable queued run is ended as a success by its receipt, without ever having started |
| Runs.AtMostTwoChanges | internal/agents/store.go:126-142 | whoever writes, in whatever order, a run changes its state at most twice and never after its end |
| Runs.CompletionRace | internal/agents/completion.go:22-80 | a receipt survives every race with another writer unless the run had already ended otherwise than cancelled or failed; the earlier end decides the state, and the order nothing else but spend counters |
| Runs.SpendIsLargest | internal/agents/completion.go:71-76 | the recorded tokens and cost are the largest ever reported and counted, never a sum |
| RunProgress.RunSpendIsLargest | internal/agents/store.go:549-562 | the same over every run of the protocol, starting from zero |
| Runs.StateAfter | internal/agents/store.go:126-142 | each writer takes its transition exactly when its guard holds |
| Runs.TimesAreStamped | internal/agents/store.go:397-417 | starts and ends are stamped once, with the time of the write that made them |
| Runs.Table.Recover | internal/agents/recover.go:67-128 | each listed id is settled only if its guard still holds |
| Runs.RecoverAllIs | internal/agents/recover.go:91-123 | the outcome of a recovery does not depend on how the scan listed the rows |
| Runs.RecoveryIsExact | internal/agents/recover.go:91-123 | recovery fails a run exactly when its admission lease ran out or its wall clock and fifteen minutes passed without a receipt |
| RunProgress.RecoveredInTime | internal/agents/recover.go:36-66 | no run is recovered within a minute of its creation, nor within its own wall clock and fifteen minutes of its start |
| Runs.WriteSound | internal/agents/store.go:117-142 | every writer keeps a row sound: endings, receipts and starts are final, counters never fall |
| Runs.CompletionIsIdempotent | internal/agents/completion.go:49-62 | a replay gives the stored answer and changes nothing if and only if it is the same receipt and not a success whose evidence has become unresolved |
| Runs.SuccessReplayRefused | internal/agents/completion.go:52-57 | a stored success is refused on an identical replay once tool evidence is unresolved again |
| Runs.AckSound | internal/agents/grant_cleanup.go:135-153 | an acknowledgement clears flags and never raises one |
| Runs.ClaimIsExact | internal/agents/grant_cleanup.go:22-48 | a worker gets the row of an ended run that owes something exactly when no lease runs, for two minutes |
| Runs.LeaseKeepsOut | internal/agents/grant_cleanup.go:22-61 | while a lease runs no writer takes the claim away and no second worker gets the row |
| RunProgress.LeaseExcludes | internal/agents/grant_cleanup.go:22-61 | over all runs a lease keeps every other worker out until it ends or its worker acknowledges |
| RunProgress.CleanupFinishes | internal/agents/grant_cleanup.go:22-157 | a cleanup that nothing disturbs fences the grant, releases Work with the outcome, and clears what is owed |
| RunSteps.RunKeepsInv | internal/agents/grant_cleanup.go:22-157 | rows, owner, Work, workers and purges stay consistent in every reachable state |
| RunSafety.ReleasedInOrder | internal/agents/grant_cleanup.go:96-117 | Work is released only for an ended run whose grant is fenced and which never started or has finished, with that outcome |
| RunSafety.ReleasedHasNoAuthority | internal/agents/grant_cleanup.go:96-117 | after a release the run never starts or goes on, and its grant is never live again |
| RunSafety.ClearedIsConfirmed | internal/agents/grant_cleanup.go:135-153 | a cleared flag of an ended run means that its owner confirmed, whichever worker acknowledged |
| RunSafety.RunsEvolve | internal/agents/store.go:117-142 | terminal states are absorbing under every writer, obligations of an ended run never return, releases are never taken back |
| RunSafety.ReceiptIsFinal | internal/agents/completion.go:58-75 | at most one receipt is stored, and the recorded spend never falls below it |
| RunSafety.ReceiptReplays | internal/agents/completion.go:49-62 | in every longer run the stored receipt gets the stored answer, exactly unless it is a success that lost its evidence; any other receipt is refused |
| RunSafety.DeletedIsDischarged | internal/agents/purge.go:99-142 | a row is deleted only when it ended, its grant is fenced and its Work claim released |
| RunSafety.PurgeIsFinal | internal/agents/purge.go:52-152 | after a purge returns success no run of its scope exists in any later state |
| RunProgress.PurgeCancelsExactly | internal/agents/purge.go:76-90 | a purge ends every unfinished run of its scope as cancelled, with its cleanup owed, and touches no other |
| RunProgress.PurgeFinishes | internal/agents/purge.go:91-152 | a scope whose runs are all cleaned up can be purged; exactly its runs are gone |
| RunSafety.OneHolder | internal/agents/lock.go:42-69 | a branch is held by at most one running run |
| RunProgress.AcquiresExactly | internal/agents/lock.go:42-69 | a queued run takes its branch exactly when no other running run of the repository holds it |
| RunProgress.CreatesExactly | internal/agents/store.go:230-297 | a run is admitted exactly for a new id outside deleted scopes with a grant of its own organization and agent, and stored as asked |
| RunExample.ReleasedThenPurged | internal/agents/purge.go:52-152 | one run is executed, cleaned up, released to Work and purged |
| RunProtocol.MovesKeepsWorker | internal/agents/grant_cleanup.go:49-61 | whatever the others do, what a cleanup worker read and confirmed stays good until it acknowledges |
| RunSteps.ReleaseIs | internal/work/execution.go:138-234 | a release is final and may only be repeated with its own outcome |
| BranchLocks.Check | internal/agents/lock.go:101-131 | the scan reports a holder exactly when some running run's lock covers the ref |
| BranchLocks.CoversExactly | internal/agents/lock.go:83-131 | a lock covers its branch and all beneath it, and a run's own branch all beneath its prefix |
| BranchLocks.OneRunPerRef | internal/agents/lock.go:83-131 | with slash-free keys at most one running run of a repository covers any ref |
| BranchLocks.AgreeIffSlash | internal/capability/grant.go:44-56 | the grant permits exactly the covered refs without ".." if and only if its prefix ends in a slash, is empty or has ".." |
| CiJournal.AcceptedFrameReplays | internal/ci/runner_journal.go:38-71 | an accepted line answers for ever: its replay is accepted without effect, another digest under its number is refused |
| CiLaws.AppendsExactly | internal/ci/runner_journal.go:38-71 | a frame is taken exactly as a replay or as the next line of an open job, and a new line is stored as sent |
| CiLaws.AcceptedFrameStays | internal/ci/runner_journal.go:59-70 | a new accepted frame stays in the journal with its text and digest in every longer run |
| CiLaws.LinesAreFrames | internal/ci/runner_journal.go:59-70 | every line of every journal, text and digest, is a frame that was accepted under its number |
| CiJournal.ReceiptReplays | internal/ci/runner_journal.go:73-120 | an accepted final receipt answers for ever: only itself may come again, without effect, and no line is added |
| CiLaws.ReceiptsExactly | internal/ci/runner_journal.go:73-120 | a status is taken exactly for an open job, if final with its exact number of lines, or as a replay of the stored receipt |
| CiJournal.Row.Snapshot | internal/ci/runner_journal.go:125-156 | a reader gets every stored line in sequence order |
| CiJournal.RunKeepsInv | internal/ci/connections.go:15-54 | jobs, incarnations, reservations and deliveries stay consistent in every reachable state |
| CiJournal.GapFree | internal/ci/runner_journal.go:38-71 | the journal holds exactly the sequences 1 to log_sequence, and a receipt counts all of them |
| CiJournal.JournalOnlyGrows | internal/ci/runner_journal.go:38-120 | stored lines are immutable and an ended job is frozen |
| CiJournal.IncarnationsFence | internal/ci/store.go:536-622 | every reserved or running journal job carries its runner's current connection |
| CiLaws.ConnectionsInterrupt | internal/ci/connections.go:15-54 | a new connection fails exactly the unfinished jobs of its runner, one that ends exactly its own, and nothing else changes |
| CiLaws.ClaimsExactly | internal/ci/store.go:536-622 | a job is reserved exactly when it waits with its needs met, for a runner of its organization on the connection that asked |
| CiLaws.OwnRunnersOnly | internal/ci/store.go:566-572 | a job is only ever with a runner of its own organization |
| CiLaws.StartedFirst | internal/ci/pump.go:102-206 | a reservation goes on only if its start was applied and answered |
| CiLaws.GivenBack | internal/ci/store.go:627-644 | a reservation that was not sent is given back, and its job waits again unless it ended |
| CiJournal.SentStaysWith | internal/ci/connections.go:88-123 | a job that was sent is with the incarnation it was sent to, still current, or has ended |
| CiJournal.OnlyItsIncarnation | internal/ci/runner_journal.go:23-36 | frames and receipts change a sent job only if they come from the incarnation it was sent to |
| CiJournal.SentOnce | internal/ci/pump.go:102-206 | in every run a job is sent at most once, whichever pump and incarnation, and no pump holds what was sent |
| CiJournal.DeliveryStays | internal/ci/pump.go:102-206 | a sent job stays with the incarnation it was sent to |
| CiExample.AJournalCloses | internal/ci/runner_journal.go:38-120 | a run reaches a journal that its receipt closed with all that was printed |
| CiJournal.NeedsFirst | internal/ci/store.go:566-590 | a job that was ever reserved and not given back has all its needs in success |
| CiJournal.JournalIsEmission | internal/ci/runner_journal.go:38-120 | for a runner that numbers its lines the journal is a prefix of what it printed; closed by its receipt it is all of it, for ever |
| CiLaws.LinesAreEmission | internal/ci/runner_journal.go:38-71 | for such a runner each stored line has the digest of what was printed there and the text of an accepted frame of it |
| Names.Sort | internal/ci/workflow.go:105-115 | names come out sorted and none is lost or added |
| Workflow.TopoSort | internal/ci/workflow.go:92-132 | Kahn's algorithm returns the greedy least-name order, or fails when it cannot place every job |
| Workflow.SortsAcyclic | internal/ci/workflow.go:78-132 | it succeeds exactly on workflows without a cycle that know all their needs |
| Workflow.GreedyIsValid | internal/ci/workflow.go:89-131 | the result is a permutation of the jobs in which everything follows its needs |
| Workflow.SortIsLeast | internal/ci/workflow.go:89-131 | it is the lexicographically least of all valid orders, so map order cannot show |
| Audit.RunKeepsInv | internal/agents/audit.go:64-121 | calls, events, writers and publishers stay consistent in every reachable state |
| AuditProgress.WritesExactly | internal/agents/audit.go:46-121 | a write stores exactly the call and outcome it asks for, with one event exactly if it is new, and a conflicting one leaves no trace |
| AuditProgress.AbortsExactly | internal/agents/audit.go:64-71 | a rolled back write leaves nothing but its number and frees the lock |
| AuditProgress.CallWasRecorded | internal/agents/audit.go:75-85 | every stored call has the content that some committed write recorded |
| AuditProgress.OutcomeWasReported | internal/agents/audit.go:108-121 | every terminal outcome is the one that some committed write reported |
| AuditSafety.HistoryIsFixed | internal/agents/audit.go:89-121 | committed events never change or move, and a call's terminal outcome is immutable |
| AuditSafety.CommitsAscend | internal/agents/audit.go:64-85 | numbers are taken under the row lock, so commits are in number order |
| AuditSafety.TwoPhases | internal/agents/audit.go:46-121 | each stored call has its opening event exactly once, and an end event exactly when it ended, once and later, with its outcome; there are no other events |
| AuditSafety.PublishedInOrder | internal/agents/audit_events.go:189-256 | the stream's first occurrences are a prefix of the log without gap, and nothing is marked published before it was in the stream |
| AuditProgress.BatchIsPublished | internal/agents/audit_events.go:189-256 | one undisturbed publisher announces the next hundred unpublished events in order and marks exactly them |
| AuditProgress.AllCanBePublished | internal/agents/audit_events.go:135-256 | from every state without a live publisher all events can be announced and marked |
| AuditSafety.PagingIsExact | internal/agents/audit_events.go:55-97 | the page after a cursor is exactly what follows, however much later it is asked for |
| AuditSafety.FollowPages | internal/agents/audit_events.go:55-97 | following cursors to the first empty page reads the whole log once |
| Budget.CostRoundsUp | internal/agents/pricing.go:34-52 | one response costs its input at the input rate and its output at the output rate, rounded up by less than a micro-unit; overflow and what cannot be priced are flagged exactly |
| Budget.Charged | internal/agentrun/loop.go:252-265 | a response is charged the largest of zero, its total and, if they are known, its parts |
| Budget.Counter.AddTokens | internal/agents/budget.go:53-69 | a negative delta or a sum that does not fit raises the flag, and the counter saturates |
| Budget.Counter.AccountUsage | internal/agentrun/loop.go:243-276 | one response is charged its total or its parts, whichever is more, and its rounded price |
| Budget.MeterIs | internal/agentrun/loop.go:243-276 | both counters are their true sums cut off at the largest value, and the flag says exactly when a cut was made |
| Budget.UnpricedMeterIs | internal/agentrun/loop.go:243-276 | without a price only tokens are counted, cut off and flagged in the same way |
| Budget.BillIsBounded | internal/agentrun/loop.go:243-276 | while the flag is down the cost of n responses is never below the exact price and exceeds it by less than n micro-units |
| BudgetThreads.CountersAreSums | internal/agents/budget.go:53-69 | under any interleaving a counter is the sum of the deltas whose calls returned, with no call under way of all that were asked for, cut off at the largest value; every cut and every negative delta is flagged |
| BudgetThreads.OverflowIsExact | internal/agents/budget.go:53-72 | the flag has a cause whenever it is up, and once every call has returned it is up exactly when there is one |
| BudgetThreads.CheckIsSound | internal/agents/budget.go:92-106 | a check that passes proves that all that had come through was within both limits when it began, and at its later loads unless a limit is the largest value |
| BudgetThreads.ChecksExactly | internal/agents/budget.go:92-106 | a check alone passes exactly while the flag is down and both counters are within their limits, and changes nothing |
| BudgetThreads.AddsExactly | internal/agents/budget.go:48-69 | an addition alone adds its delta, cut off and flagged if it does not fit; a negative one is only flagged |
| BudgetThreads.LimitIsExact | internal/agents/budget.go:92-106 | a passing load bounds the sum at that moment if and only if the limit is below the largest value, and for costs above zero |
| BudgetThreads.BlindLimit | internal/agents/budget.go:92-106 | a whole check passes although its limit is exceeded when it reads the counter |

## Left out

- Approvals, authorization of the caller, target lookup and legacy agent requests without an original ceiling: they only keep a call from reaching the modelled protocol.
- Executors other than Helm, and more than one provider binding per operation.
- Job, Pod and image matching: a Job that does not match is the step that gives up.
- The publication of the success outbox and the periodic janitor that calls credential cleanup.
- The issuer behind the Secret beyond its fence: its leases are not part of this model.
- Runs without a grant intent, agents, provenance, statistics, notifications of state changes and the frozen work item.
- The workspace-cleanup flag and pending tool evidence, which enter as conditions that may hold or not: the flag can be raised again after termination.
- The polling loops of the Helm executor and the loops of `PurgeRuns`, `ReconcileGrantCleanup` and `publishRun` appear as repeated steps of their protocols, because other processes act between any two of their calls.
- The batch limit and retry delay of the cleanup sweep: any row may be claimed at any time its lease allows.
- `BranchLock.Release`, `ClaimJob`, `Dispatcher.Unregister` and the unconditional `SetJobStatus`, so nothing is claimed about CI states reached through them.
- The `run.summary` row that `CompleteRun` writes straight into the tool calls, without events, and the deletion of a purged run's tool calls.
- Agent jobs of a workflow, which `ClaimAgentJob` takes without a runner.
- Credential cleanup phases of CI jobs, workflow run rows, log sealing and retention.
- The order in which a pump picks among claimable jobs, and the delay before a job given back may be claimed again.
- The availability flags of tokens and cost beside the meter.
- Step cap, cancellation checks and verification of the run loop, the wall-clock limit and the parsing of prices.
- Negative prices, which parsing refuses, in the exact statements about bills.
