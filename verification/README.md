# Verified model of the stateful protocols

This project models the parts of the repository whose correctness depends on the order of events, and proves what they
keep over every run. Each protocol is a state machine: a function gives the state after one step (the code between two
awaits, one database statement, one durable write, or one answer of a server), a run is a sequence of steps in any
order, and the theorems speak about all runs. Where the source changes an object in place there is a class with the
same fields, and each method is proved to make exactly the step of the machine; the router's `Perform` also keeps, as
`Valid()`, what the theorems say of every run.

| protocol | files | what is proved about every run |
|---|---|---|
| Connector delivery | `TurnStore`, `ConnectorDelivery`, `ConnectorRouter`, `ConnectorSafety`, `ConnectorCancel` | a QQ reply is not sent again while the first send is open; delivered is final; a QQ failure is a refusal; cancelled means never sent |
| QQ admission | `QqAdmission`, `ConnectorGate`, `ConnectorReservation`, `ConnectorAdmission` | over the routes themselves: every 60-second window is bounded, no reservation leaks, and exactly when the set in flight is exact |
| Chat repository | `ChatSchema`, `ChatRepository`, `Repository`, `RepositoryInvariant`, `Branching` | counters and links are exact after every sequence of calls; branching agrees with truncation |
| Concurrent repository calls | `PairInsert`, `ContextRevision` | one pair for every caller; workspace updates are serializable with one winner per revision |
| Product metrics and export | `ProductMetrics`, `ProductTransport`, `ProductExport`, `ProductExporter` | loops equal declared sets; revocation is write-ahead; the journal tells the truth about the receiver |
| Resumable download | `HttpHeaders`, `ResumableDownload`, `ArchiveDownload`, `ModelInstall` | the file stays a beginning of the content; one restart at most; requests are bounded, whatever the server answers; a second run installs |
| Perception authority | `PerceptionBridge`, `PerceptionSafety`, `AuthorizedPerceptionBridge` | one-shot, current and faithful evidence |
| Visual capture jobs | `VisualJobs`, `VisualSafety`, `VisualOnce`, `VisualCapture` | correlated maps; each job ends once and none is lost, evictions included |
| Permission replies | `Permissions`, `PermissionDesk` | correlated maps; only the registrant resolves, each registration once; exactly when a reply is accepted |
| Turn cache | `TurnCache`, `RealtimeRouter` | duplicates are stored turns; no turn with a key is stored twice |

`Wrappers` and `Text` hold an option type and the stripping of blanks. `dafny verify dfyconfig.toml` checks everything.

## What turned out false

Some claims one would make do not hold of the code. Each has a lemma with a concrete run, and the exact condition or the
premise under which the claim holds is proved beside it.

- The done callback of a QQ task discards its event once more after the attempt has ended. If a later attempt holds the
  same event by then, its reservation is lost and one attempt too many runs (`LateCallbackRunsTooMany`). The bookkeeping
  stays exact if and only if no action of the run releases what another attempt holds (`StepKeepsExactIff`,
  `AlwaysExactIff`, `OnlyACallbackRobs`).
- A webhook asks for admission twice and ignores the second answer; at two clock readings the answers can differ
  (`LaterReserveMayDisagree`, exactly when: `LaterReserveRefusedIff`, `CheckThenReserveAgree`).
- A turn that replies although its cancellation was requested is sent, and the cancel request is still answered
  "cancelled" (`ImpoliteTurnIsSent`, `ImpoliteTurnIsConfirmed`, exactly when: `StepKeepsApartIff`).
- The fence against blind resending is QQ's alone (`TelegramMayResendBlindly`, exactly when:
  `OtherConnectorsReclaimAfterExpiry`).
- The unique index on turn keys is per session while the lookup is per workspace (`TwoSessionsStoreTwoPairs`, exactly
  when: `SecondInsertBreaksIff`).
- Two overlapping saves for different turns of one session write the row that each has read: the counter rises by two for
  four messages, or in a new session the second save fails (`OverlappingTurns`, exactly when: `InsertCountsIff`,
  `OtherTurnBreaksIff`).
- A workspace update writes the revision it has read plus one, so writers that name no revision, or a guessed one, can
  overwrite a commit without raising it (`WithoutExpectedOneIsLost`, `GuessedExpectedIsNotEnough`, exactly when:
  `WriteIsSerialIff`).
- A revocation that is interrupted between saving the decision and removing the file leaves the file, and the next
  revocation reports success without removing it (`CrashedRevocationKeepsTheFile`, `RevokedMeansNoFileIff`).
- Download metadata that is a JSON scalar or list, and only that, stops every run before its first request
  (`ScalarMetadataBlocks`, `ScalarMetadataBlocksIff`).
- The restart after a partial answer for the wrong place stands inside the `try` of the activation that makes it. If the
  last attempt of the inner call, with no file there, is refused with a 416 that names the size the outer one had seen,
  the outer one returns as complete with the file gone and its metadata left (`StaleRefusalReturnsNothing`,
  `StaleRefusalKeepsMetadata`, exactly when: `StepLosesFileIff`, `ReturnLosesFileIff`, `VerifiedUnlessLost`).
- The download itself does not bound its restarts (`RestartsAreUnbounded`): it makes one for each answer of three kinds
  (exactly which: `StepStartsOverIff`, `RestartsAreCounted`). An honest server gives at most one (`AtMostOneRestart`).
- The perception clock is read twice, so evidence can be captured after its session has expired
  (`CapturedAfterExpiry`, exactly when: `CapturedInTimeIff`, `EveryRunIsInTime`).
- A visual job that has ended and was evicted while its request was pending is created again by a frame that still
  matches the request, and ends again (`EvictedJobMayEndTwice`, exactly when: `StepKeepsSoundIff`, `AlwaysSoundIff`).
- Workspace ids with colons confuse the turn cache (`ColonsConfuse`, exactly when: `KeyIsSharedIff`), and a blank turn id
  is accepted but is no key (`BlankTurnIsStoredAgain`, exactly when: `SecondCallStoresNothingIff`).

## Assumptions

- Random identifiers are not drawn twice. Digests are injective: a batch key stands for its batch, the locked digest for
  its archive.
- Clocks, network answers, turn outcomes and provider answers are inputs of the steps and otherwise arbitrary. Where a
  theorem needs a premise about them (a clock that does not fall, a range-honest server, honest receipts, a turn service
  that lets a cancellation through) the premise is a named predicate.
- A request that reaches the receiver of product events does so within its own try.
- Database statements are atomic; a refused statement rolls back whole. Reading and writing are separate statements in
  `PairInsert` and `ContextRevision`.

## Model

| member | source | states |
|---|---|---|
| TurnStore.TurnCommitStore.RecordConnectorTurnPending | python/modules/agent/turn_store.py:582-612 | inserts a processing row with a fresh lease where there is none, and reports whether it did |
| TurnStore.TurnCommitStore.MarkConnectorTurnFailed | python/modules/agent/turn_store.py:614-625 | only the owner of a processing row may fail it |
| TurnStore.TurnCommitStore.DiscardConnectorTurnPending | python/modules/agent/turn_store.py:627-636 | only the owner's own processing row is deleted |
| TurnStore.TurnCommitStore.RecoverStaleConnectorTurn | python/modules/agent/turn_store.py:638-650 | a processing row becomes failed and unowned exactly when its lease has expired |
| TurnStore.TurnCommitStore.ClaimConnectorDelivery | python/modules/agent/turn_store.py:652-718 | the compare-and-set claim for sending, with its refusals, attempt count, lease and the QQ fence |
| TurnStore.TurnCommitStore.ClaimConnectorTurnRetry | python/modules/agent/turn_store.py:720-761 | the claim of a failed turn for another run |
| TurnStore.TurnCommitStore.PromoteConnectorTurnRetry | python/modules/agent/turn_store.py:763-782 | the owner of a retried turn moves it to sending with its reply |
| TurnStore.TurnCommitStore.ReleaseConnectorTurnRetry | python/modules/agent/turn_store.py:784-800 | the owner gives a retried turn back as failed |
| TurnStore.TurnCommitStore.MarkConnectorDeliverySent | python/modules/agent/turn_store.py:802-812 | the owner of a sending row records the delivery |
| TurnStore.TurnCommitStore.MarkConnectorDeliveryFailed | python/modules/agent/turn_store.py:897-912 | the owner of a sending row records the failure |
| TurnStore.TurnCommitStore.ResolveConnectorDelivery | python/modules/agent/turn_store.py:814-845 | an operator settles a row that is not delivered |
| TurnStore.TurnCommitStore.ResetConnectorDeliveryForRetry | python/modules/agent/turn_store.py:875-895 | a failed row loses its owner and lease |
| TurnStore.OtherRowsUntouched | python/modules/agent/turn_store.py:582-912 | no store operation changes a row of another key |
| TurnStore.DeliveredIsFinal | python/modules/agent/turn_store.py:652-912 | no operation by anyone changes any column of a delivered row |
| TurnStore.QqSendingFence | python/modules/agent/turn_store.py:652-718 | a sending QQ row changes only by its owner's recorded result or by an operator, whatever the clock |
| TurnStore.SendingIsAcquired | python/modules/agent/turn_store.py:652-782 | a row enters sending only by a successful claim or promotion of the owner it then carries |
| TurnStore.LiveLeaseExcludesOthers | python/modules/agent/turn_store.py:638-718 | while a lease is live nobody but its holder or an operator changes the row |
| TurnStore.OtherConnectorsReclaimAfterExpiry | python/modules/agent/turn_store.py:652-718 | a held sending row is handed to another claimant exactly when the connector is not QQ and the lease has expired |
| ConnectorRouter.Router.ReceiveConnectorWebhook | python/routes/connector_api.py:956-1090 | a webhook from the parsed message to its task: active task, stale recovery, row status, both admission questions, early record, the three maps |
| ConnectorRouter.Router.Admit | python/routes/connector_api.py:1022-1085 | the two admission questions, the turn service, and the reservation that a failed early record gives back |
| ConnectorRouter.Router.StartTask | python/routes/connector_api.py:1060-1321 | the early record, then a queued worker enters the task, phase and event-id maps together |
| ConnectorRouter.Router.Attach | python/routes/connector_api.py:1059-1310 | a QQ task gets its done callback, and its closure what the admission answered |
| ConnectorRouter.Router.Leave | python/routes/connector_api.py:1299-1303 | an attempt that has run releases its event, whether or not it holds it |
| ConnectorRouter.Router.RunCallback | python/routes/connector_api.py:1308-1310 | the done callback releases the event of a task that has ended |
| ConnectorRouter.Router.RunConnector | python/routes/connector_api.py:1091-1123 | the worker up to its first await, with its own pending record |
| ConnectorRouter.Router.TurnFinished | python/routes/connector_api.py:1124-1212 | what a webhook worker does with each turn outcome, its refund of a replayed turn included |
| ConnectorRouter.Router.SendAfterTurn | python/routes/connector_api.py:1159-1212 | the claim of the row and the start of the send that only a granted claim allows |
| ConnectorRouter.Router.RetryTurnFinished | python/routes/connector_api.py:696-714 | what a retried turn does with each outcome |
| ConnectorRouter.Router.ProviderAnswered | python/routes/connector_api.py:1212-1297 | what a worker records for each answer, with the answer itself, or leaves unrecorded; a blank reply has only the registry's own refusal |
| ConnectorRouter.Router.CancellationRaised | python/routes/connector_api.py:1269-1274 | where a cancellation lands and what it leaves in the row; inside the `try` it also interrupts a status update and makes another |
| ConnectorRouter.Router.CancelConnectorEvent | python/routes/connector_api.py:830-871 | the cancel route: refusal while sending, otherwise a cancellation request |
| ConnectorRouter.Router.CancelAnswered | python/routes/connector_api.py:872-892 | what the waiting cancel request answers once the worker has ended |
| ConnectorRouter.Router.RetryConnectorDelivery | python/routes/connector_api.py:605-629 | the retry route's refusals, its reservation, and its release when no attempt was started |
| ConnectorRouter.Router.RetryRow | python/routes/connector_api.py:631-663 | the checks of a retry and its recovery of a stale row |
| ConnectorRouter.Router.ClaimRetry | python/routes/connector_api.py:663-714 | a retry claims the turn or the stored reply and sends only after a successful claim |
| ConnectorRouter.Router.ResolveConnectorEvent | python/routes/connector_api.py:766-821 | resolution is refused while a task is active |
| ConnectorRouter.Router.ScanProcessingRow | python/routes/connector_api.py:133-184 | the recovery scan of one row: a row it recovers is retried at once, every other is left alone |
| ConnectorRouter.Router.ListRow | python/routes/connector_api.py:540-547 | a listing recovers a stale row and retries nothing |
| ConnectorRouter.Router.Perform | python/routes/connector_api.py:581-1350 | any action of the routes keeps the safety of the log, the agreement of the maps and the ownership of reservations |
| ConnectorSafety.OpenOrSettled | python/routes/connector_api.py:1091-1297 | a QQ send that has started is the open one of its key, or has been settled since |
| ConnectorSafety.SendEvent | python/routes/connector_api.py:1161-1212 | a send may start when the last one of its key is settled, nothing is delivered, and its owner has just acquired the row |
| ConnectorSafety.AcquisitionIsClear | python/routes/connector_api.py:652-763 | a successful claim or promotion proves that no send is open and nothing was delivered |
| ConnectorSafety.StepKeepsSafe | python/routes/connector_api.py:581-1350 | each step between two awaits keeps the store and the log safe, and every barred row barred and unsent |
| ConnectorSafety.EveryRunIsSafe | python/routes/connector_api.py:604-1350 | in every run two QQ sends of one key are separated by a refusal of the provider that the first owner recorded or by a resolution, each send follows its owner's acquisition at once, and a delivered key is never sent again |
| ConnectorSafety.EveryQqFailureIsARefusal | python/routes/connector_api.py:1212-1297 | in every run each failure that a QQ worker has recorded was a refusal |
| ConnectorSafety.UnrefusedFailureIff | python/routes/connector_api.py:1212-1297 | a send that comes back is recorded as failed without a refusal exactly for a raised call of another connector whose reply was not blank and whose worker holds the row |
| ConnectorSafety.BlankReplyIsBarred | python/modules/system/message_connectors.py:1108-1111 | the registry refuses a blank reply, and its worker leaves a failed row with the reason of an empty reply |
| ConnectorSafety.BarredForever | python/routes/connector_api.py:663-763 | a row that failed for its blank reply is in no continuation of any run acquired or sent again |
| ConnectorCancel.StepMoves | python/routes/connector_api.py:581-1350 | every action of the routes is one of seven abstract moves on the maps and the log |
| ConnectorCancel.EveryRunKeeps | python/routes/connector_api.py:1091-1321 | the task, phase and event-id maps keep equal key sets and every entry describes its task |
| ConnectorCancel.SendingIsRefused | python/routes/connector_api.py:859-867 | a cancel request for a started send is refused and changes nothing else |
| ConnectorCancel.CancelledMeansNeverSent | python/routes/connector_api.py:830-892 | if the turn service lets a cancellation through or reports it, an attempt answered cancelled never starts a send |
| ConnectorCancel.RequestComesFirst | python/routes/connector_api.py:830-892 | in every run an accepted cancellation precedes any send of that attempt |
| ConnectorCancel.StepKeepsApartIff | python/routes/connector_api.py:1123-1212 | a step sends for a requested attempt if and only if its turn replies all the same and the row can be claimed |
| ConnectorCancel.ImpoliteTurnIsSent | python/routes/connector_api.py:1123-1212 | a turn that replies after its cancellation was requested is sent |
| ConnectorCancel.ImpoliteTurnIsConfirmed | python/routes/connector_api.py:876-892 | and the waiting request is then answered cancelled |
| ConnectorCancel.TelegramMayResendBlindly | python/routes/connector_api.py:631-763 | another connector's expired send is sent again while its first result is unknown |
| QqAdmission.Admission.AdmitQq | python/routes/connector_api.py:581-602 | the admission decision, its pruning loop and its reservation |
| QqAdmission.Admission.Release | python/routes/connector_api.py:1302-1303 | ending an attempt takes its event out of the set in flight |
| QqAdmission.Admission.Refund | python/routes/connector_api.py:1125-1126 | a refund takes back the rate entry |
| QqAdmission.EveryWindowIsBounded | python/routes/connector_api.py:581-602 | with a non-decreasing clock every 60-second window of every session holds at most the limit of counted, non-refunded admissions, and at most the limit of keys is in flight |
| QqAdmission.CheckThenReserveAgree | python/routes/connector_api.py:1022-1059 | at one clock reading the reservation decides as the check did |
| QqAdmission.LaterReserveRefusedIff | python/routes/connector_api.py:1022-1059 | at a later reading the answer turns to no exactly when an event rated before was forgotten in between and the session is at its limit |
| QqAdmission.LaterReserveMayDisagree | python/routes/connector_api.py:1022-1059 | such a pair of readings |
| ConnectorReservation.LeavesIff | python/routes/connector_api.py:1123-1310 | a started QQ attempt ends exactly where its turn ends in no send, its send comes back, or it is cancelled |
| ConnectorReservation.StepMakes | python/routes/connector_api.py:581-1350 | every action of the routes makes one of six moves on the reservations, and exactly which actions release |
| ConnectorReservation.PassMakes | python/routes/connector_api.py:1022-1085 | only a task that is made keeps what was reserved for it; a failed early record gives it back |
| ConnectorReservation.NothingLeaks | python/routes/connector_api.py:1299-1310 | in every run a reserved event belongs to a running attempt or to a task whose callback is still to come; where neither is left, nothing is reserved |
| ConnectorReservation.CancelledBeforeStart | python/routes/connector_api.py:1308-1310 | a task cancelled before it has run keeps its reservation until its callback gives it back |
| ConnectorReservation.StepKeepsExactIff | python/routes/connector_api.py:1299-1310 | an action keeps the set in flight equal to the held events if and only if it does not release what another attempt holds |
| ConnectorReservation.AlwaysExactIff | python/routes/connector_api.py:581-1310 | over a whole run likewise |
| ConnectorAdmission.EveryRunIsBounded | python/routes/connector_api.py:594-599 | at any clock no more events are reserved than the limit allows |
| ConnectorAdmission.EveryRunIsRated | python/routes/connector_api.py:581-602 | over every run of the routes with readings that never fall, each 60-second window of each session is bounded |
| ConnectorAdmission.RunningIsBounded | python/routes/connector_api.py:581-629 | with one reading per webhook and no late callback, no more attempts run than the limit allows |
| ConnectorAdmission.OnlyACallbackRobs | python/routes/connector_api.py:1308-1310 | where every running attempt is reserved, only a late callback can release what is not its own |
| ConnectorAdmission.LateCallbackRunsTooMany | python/routes/connector_api.py:1299-1310 | a concrete run of the routes in which the late callback lets two attempts run with a limit of one |
| Repository.DatabaseRepository.SaveMessage | python/database/repository.py:171-235 | the saved row, the session it goes to and its counters, or the error and no change |
| Repository.DatabaseRepository.GetMessagePair | python/database/repository.py:346-384 | the pair stored under a turn key in a workspace, nothing, or an incomplete pair |
| Repository.DatabaseRepository.SaveMessagePair | python/database/repository.py:237-344 | the idempotent insertion of a pair when calls do not overlap |
| Repository.DatabaseRepository.DeleteMessage | python/database/repository.py:577-609 | the row goes and its session's counters fall |
| Repository.DatabaseRepository.SplitAfter | python/database/repository.py:655-668 | one pass keeps the rows up to a message and totals the rest |
| Repository.DatabaseRepository.DeleteMessagesAfter | python/database/repository.py:642-686 | truncation after a message |
| Repository.DatabaseRepository.ClearSessionMessages | python/database/repository.py:688-714 | a session loses its messages and its counters return to zero |
| Repository.DatabaseRepository.DeleteSession | python/database/repository.py:716-746 | a session goes with its messages |
| Repository.DatabaseRepository.BranchChatSession | python/database/repository.py:1291-1351 | the copy of a session up to a message, with its counters and its links |
| Repository.DatabaseRepository.CreateWorkspace | python/database/repository.py:1078-1103 | a new workspace with revision one when it has a context |
| Repository.DatabaseRepository.CreateChatSession | python/database/repository.py:1245-1266 | an empty session in an existing workspace |
| Repository.DatabaseRepository.UpdateWorkspace | python/database/repository.py:1105-1183 | the conditional update of a workspace and its revision conflict |
| Repository.DatabaseRepository.ImportWorkspaceContext | python/database/repository.py:1185-1202 | a context is seeded only where none was ever written |
| Repository.DatabaseRepository.DeleteWorkspace | python/database/repository.py:1204-1233 | sessions move to the default workspace, which itself cannot go |
| Repository.DatabaseRepository.DeleteCompanion | python/database/repository.py:1442-1460 | workspaces are rebound to the default companion, which itself cannot go |
| RepositoryInvariant.DeleteMessageKeeps | python/database/repository.py:590-597 | deleting keeps the invariant and the counters never reach the clamp at zero |
| RepositoryInvariant.DeleteAfterKeeps | python/database/repository.py:655-674 | truncating keeps the invariant and the counters never reach the clamp at zero |
| RepositoryInvariant.BranchKeeps | python/database/repository.py:1291-1351 | branching keeps the invariant |
| RepositoryInvariant.SavePairKeeps | python/database/repository.py:273-314 | saving a pair keeps the invariant |
| RepositoryInvariant.CallKeeps | python/database/repository.py:171-1460 | each call keeps the invariant |
| RepositoryInvariant.EveryRunKeeps | python/database/repository.py:171-1460 | after every sequence of calls each session's counters equal the count and token sum of its messages and every link resolves |
| RepositoryInvariant.FirstIsGood | python/database/repository.py:171-1460 | a new database satisfies what the calls keep |
| Branching.BranchAgreesWithTruncation | python/database/repository.py:1315-1345 | a branch holds in order what the source would hold after truncation, with the same counters |
| Branching.BranchLeavesTheRest | python/database/repository.py:1291-1351 | branching changes no existing session, counter or message |
| Branching.BranchAnswersAsBefore | python/database/repository.py:1325-1340 | branching copies no turn key: every idempotency lookup answers as before |
| Branching.SavedPairIsFound | python/database/repository.py:254-314 | a saved pair is found again under its key with exactly its two rows |
| Branching.SavingAgainIsIdempotent | python/database/repository.py:275-278 | a second save under the key stores nothing, whatever it says |
| PairInsert.AloneIsSerial | python/database/repository.py:273-338 | with nobody interleaving, the four database steps are the serial call |
| PairInsert.FirstMove | python/database/repository.py:279-320 | the first insert wins, and until then nothing is stored |
| PairInsert.LaterMove | python/database/repository.py:321-335 | once a pair is stored every later insert is refused and every reload finds it |
| PairInsert.OnePairForEveryCaller | python/database/repository.py:254-338 | in every interleaving one pair is stored, the count rises by two once, no call fails and every answer is that pair |
| PairInsert.FourStepsAnswer | python/database/repository.py:273-338 | a call that has been given four steps has its answer |
| PairInsert.TwoSessionsStoreTwoPairs | python/database/models.py:33-39 | the index is per session: one key in two sessions of a workspace can be stored twice |
| PairInsert.SecondInsertBreaksIff | python/database/models.py:33-39 | after one call has stored its pair, the insert of another that checked before is refused exactly in the same session |
| PairInsert.InsertCountsIff | python/database/repository.py:280-320 | an insert leaves the counter exact if and only if the row it read was exact |
| PairInsert.OtherTurnBreaksIff | python/database/repository.py:280-338 | an overlapping save for another turn is refused exactly when the session was new |
| PairInsert.OverlappingTurns | python/database/repository.py:280-338 | in a known session both are stored and the counter rises by two for four messages; in a new one the second fails |
| ContextRevision.WriteIsSerial | python/database/repository.py:1152-1160 | an informed writer's conditional update is the serial update |
| ContextRevision.EveryRunIsSerial | python/database/repository.py:1105-1183 | the database is what the committed calls produce one by one in commit order |
| ContextRevision.EveryAnswerIsSerial | python/database/repository.py:1160-1175 | each answer is the serial call's at that moment; a loser is told the stored revision and context and changes nothing |
| ContextRevision.ExpectedIsReplaced | python/database/repository.py:1156-1159 | a committed change replaced exactly the revision it expected |
| ContextRevision.OneWinnerPerRevision | python/database/repository.py:1156-1159 | over one revision at most one context writer commits, and every committed context names the revision it replaced |
| ContextRevision.RevisionIsCommitCount | python/database/repository.py:1150-1153 | the revision rises by exactly one per committed context |
| ContextRevision.WithoutExpectedOneIsLost | python/database/repository.py:1150-1158 | two writers without an expected revision both commit over one revision |
| ContextRevision.GuessedExpectedIsNotEnough | python/database/repository.py:1150-1158 | a guessed revision, one ahead, commits without raising it |
| ContextRevision.WriteIsSerialIff | python/database/repository.py:1150-1160 | a context write is the serial one, and raises the revision by exactly one, if and only if the revision read is the stored one |
| ContextRevision.UntouchedRunIsSerial | python/database/repository.py:1105-1183 | runs of any writers are serial while no context commit comes between a read and its update |
| ProductMetrics.NormalizeAgain | python/evals/product_metrics.py:62-83 | normalising is idempotent |
| ProductMetrics.FirstTalkIsFirst | python/evals/product_metrics.py:156-160 | the chosen conversation is of the earliest day, and the first listed of that day |
| ProductMetrics.Classify | python/evals/product_metrics.py:108-122 | dropped, outside and kept events equal their declared sets |
| ProductMetrics.GroupByUser | python/evals/product_metrics.py:124-140 | the per-user dictionaries equal the declared days and conversations |
| ProductMetrics.CountActions | python/evals/product_metrics.py:127-154 | every counter of the loop equals the number of positions it declares |
| ProductMetrics.CountFirstSuccesses | python/evals/product_metrics.py:156-160 | the sum equals the number of users whose first conversation succeeded |
| ProductMetrics.FindCohort | python/evals/product_metrics.py:166-175 | eligible and retained users equal their declared sets |
| ProductMetrics.ComputeProductMetrics | python/evals/product_metrics.py:86-207 | the report equals the declared one, or the retention days are invalid |
| ProductMetrics.ReportIsSound | python/evals/product_metrics.py:108-207 | accepted, dropped and outside events add up, retained are among eligible among active users, and successes never exceed attempts |
| ProductMetrics.ReadBackKeeps | python/evals/product_metrics.py:301-337 | reading a log of accepted events gives back exactly these |
| ProductMetrics.LogMetricsAgree | python/evals/product_metrics.py:382-383 | the metrics of the log are those of the raw events with nothing dropped |
| ProductTransport.ReceiptNamesOneBatch | python/evals/product_metrics_transport.py:30-78 | a batch receipt acknowledges one key and one count, and never a deletion |
| ProductTransport.HttpProductEventTransport.Request | python/evals/product_metrics_transport.py:158-185 | the retry loop stops at the first final answer or the last attempt and sleeps `0.25 * (2^(n-1) - 1)` seconds over `n` tries |
| ProductTransport.HttpProductEventTransport.SendBatch | python/evals/product_metrics_transport.py:187-199 | success only with an accepted answer and, when required, a receipt with that key and count |
| ProductTransport.HttpProductEventTransport.DeleteBatch | python/evals/product_metrics_transport.py:206-215 | success only with an accepted answer and, when required, a deletion receipt for that key |
| ProductTransport.UsedIsFirst | python/evals/product_metrics_transport.py:168-184 | the number of tries is determined by where the loop may stop |
| ProductTransport.SleepIsBounded | python/evals/product_metrics_transport.py:168-183 | at most `max_attempts` tries and at most `0.25 * (2^(max_attempts-1) - 1)` seconds of sleep |
| ProductTransport.TouchingTwiceIsOnce | python/evals/product_metrics_transport.py:158-185 | however many tries arrive, the receiver changes as if one had |
| ProductTransport.SentIsStored | python/evals/product_metrics_transport.py:187-199 | a reported send has stored exactly this batch |
| ProductTransport.RequestKeepsBalance | python/evals/product_metrics_transport.py:158-215 | one request stores or erases at most its own batch, once |
| ProductExport.EveryRunIsWritten | python/evals/product_metrics.py:703-750 | with stops between any two effects, every batch whose file a revocation removed stands in the journal until it is exported again |
| ProductExport.EveryRunIsTruthful | python/evals/product_metrics.py:569-750 | with honest receipts the receiver keeps nothing the journal does not know, everything it calls sent and nothing it calls deleted, each batch stored once |
| ProductExport.EachBatchIsStoredOnce | python/evals/product_metrics_transport.py:158-199 | while nothing is deleted, any sequence of exports, retries and timeouts stores each distinct batch exactly once |
| ProductExport.UnusedIsTruthful | python/evals/product_metrics.py:569-593 | before the first export the premises of these runs hold |
| ProductExport.SentIsStoredOnce | python/evals/product_metrics.py:673-701 | a batch the journal calls sent is kept by the receiver and stored once more than erased |
| ProductExport.ExportIsItsSteps | python/evals/product_metrics.py:673-701 | the uninterrupted export is the run of its steps |
| ProductExport.RevokeIsItsSteps | python/evals/product_metrics.py:703-731 | the uninterrupted revocation is the run of its steps |
| ProductExport.RevokedMeansNoFileIff | python/evals/product_metrics.py:703-719 | a revocation reported as done leaves no event file exactly when collection was on or there was none |
| ProductExport.CrashedRevocationKeepsTheFile | python/evals/product_metrics.py:355-363 | a stop between the decision and the removal leaves the file, and the next revocation reports success without removing it |
| ProductExport.PassStep | python/evals/product_metrics.py:742-749 | one retried deletion settles its key and no other |
| ProductExport.PassLeavesTheFailed | python/evals/product_metrics.py:613-618 | after a pass exactly the failed keys are pending |
| ProductExporter.JsonlProductEventStore.Append | python/evals/product_metrics.py:301-317 | an event is appended only with consent, normalised and below the capacity |
| ProductExporter.JsonlProductEventStore.PurgeBefore | python/evals/product_metrics.py:339-353 | records before the cutoff go and the number removed is returned |
| ProductExporter.JsonlProductEventStore.RevokeConsent | python/evals/product_metrics.py:355-363 | consent is off and the file is gone |
| ProductExporter.JsonProductExportJournal.Record | python/evals/product_metrics.py:569-593 | one entry is written; only a new key can meet the capacity |
| ProductExporter.ConsentGatedProductEventExporter.Export | python/evals/product_metrics.py:673-701 | the export with each of its results |
| ProductExporter.ConsentGatedProductEventExporter.RevokeConsent | python/evals/product_metrics.py:703-731 | the revocation with each of its results |
| ProductExporter.ConsentGatedProductEventExporter.RetryPendingDeletions | python/evals/product_metrics.py:733-750 | attempted is deleted plus failed, the failed keys are the pending ones, and no other entry changes |
| HttpHeaders.ContentRangeRoundTrip | python/scripts/resource_archive.py:63-72 | a partial answer's header is read as its first position and total |
| HttpHeaders.UnsatisfiedRoundTrip | python/scripts/resource_archive.py:75-82 | an unsatisfied range's header is read as its total |
| HttpHeaders.UnsatisfiedIsNoRange | python/scripts/resource_archive.py:63-82 | an unsatisfied range is never read as a partial answer |
| ResumableDownload.StepKeepsGood | python/scripts/resource_archive.py:85-204 | each step against an honest server keeps the file a beginning of the content |
| ResumableDownload.EveryRunStaysGood | python/scripts/resource_archive.py:85-204 | so does every run, at every point where it may stop |
| ResumableDownload.ReturnIsComplete | python/scripts/resource_archive.py:92-102 | a return leaves a file, and with a known total exactly the content |
| ResumableDownload.AtMostOneRestart | python/scripts/resource_archive.py:122-192 | from any files an honest server causes at most one restart, suspends no activation, and a return leaves a file |
| ResumableDownload.RequestsAreBounded | python/scripts/resource_archive.py:104-203 | whatever the server answers, a call makes at most `max_retries + 1` requests for each of its activations, suspended ones that go on included |
| ResumableDownload.RaiseReturnsIff | python/scripts/resource_archive.py:113-203 | a failing inner call makes its caller return exactly for a 416 that names the size the caller had seen |
| ResumableDownload.StepLosesFileIff | python/scripts/resource_archive.py:113-203 | a step returns with no file exactly when the last attempt of a call inside a `try`, with no file there, is refused with a 416 for the size seen outside |
| ResumableDownload.ReturnLosesFileIff | python/scripts/resource_archive.py:85-203 | a call returns with no file exactly when such an answer arrives in it |
| ResumableDownload.ReturnLeavesAFile | python/scripts/resource_archive.py:122-203 | without a partial answer for the wrong place nothing is suspended and a return leaves a file |
| ResumableDownload.StaleRefusalReturnsNothing | python/scripts/resource_archive.py:122-190 | for any number of attempts, a concrete call that returns as complete with its file gone |
| ResumableDownload.RunStaysMeasured | python/scripts/resource_archive.py:127-191 | whatever the server answers, a returned file that has bytes agrees with its recorded total |
| ResumableDownload.StepStartsOverIff | python/scripts/resource_archive.py:113-203 | exactly which answers make a call start over: a partial one for another place, and a 416 for another size than the one it is compared with |
| ResumableDownload.RestartsAreCounted | python/scripts/resource_archive.py:85-203 | the restarts of a call are just those answers, but for a last one not yet cleared |
| ResumableDownload.RestartsAreUnbounded | python/scripts/resource_archive.py:178-192 | a server that refuses without naming a size can cause any number of restarts |
| ResumableDownload.ScalarMetadataBlocksIff | python/scripts/resource_archive.py:40-102 | a call fails before its first request exactly for metadata that is well-formed but no record; any other reaches a request or a return |
| ResumableDownload.ScalarMetadataBlocks | python/scripts/resource_archive.py:40-48 | and then it stays so, however the run goes on |
| ArchiveDownload.Archive.Prepare | python/scripts/resource_archive.py:92-95 | reading the metadata and dropping a file whose metadata is not this URL's |
| ArchiveDownload.Archive.ReadBody | python/scripts/resource_archive.py:149-176 | the body is appended piece by piece, a partial read included |
| ArchiveDownload.Archive.TakeBody | python/scripts/resource_archive.py:124-182 | metadata first, then the file opened to append or anew, then the completeness check |
| ArchiveDownload.Archive.TakeResponse | python/scripts/resource_archive.py:113-182 | what each response leads to: the end of the call, or a fault for the handlers |
| ArchiveDownload.Archive.CallAgain | python/scripts/resource_archive.py:122-126 | the call inside the `try` ends the outer call, or leaves it a fault with its own metadata, attempt and size |
| ArchiveDownload.Archive.HandleUnsatisfied | python/scripts/resource_archive.py:178-192 | a 416 is compared with the size seen before the request: complete, or start over |
| ArchiveDownload.Archive.DownloadArchive | python/scripts/resource_archive.py:85-204 | the whole call, its retry loop, its two restarts and the fault it raises, is the run of the machine |
| ModelInstall.ModelInstaller.Install | python/scripts/download_sherpa_sensevoice.py:42-66 | download, verify, discard on a mismatch, install; with no file there is nothing to verify or to discard |
| ModelInstall.ReturnedIsVerifiedOrRemoved | python/scripts/download_sherpa_streaming_zipformer.py:92-100 | a returned download is verified, removed, or was no file to begin with |
| ModelInstall.VerifiedUnlessLost | python/scripts/download_sherpa_streaming_zipformer.py:92-100 | a returned download is verified or removed exactly when no such refusal took its file |
| ModelInstall.VerifiedUnlessMismatched | python/scripts/download_sherpa_streaming_zipformer.py:92-100 | without a partial answer for the wrong place it is always verified or removed |
| ModelInstall.StaleRefusalKeepsMetadata | python/scripts/download_sherpa_streaming_zipformer.py:92-100 | for any number of attempts, a concrete run that has no file to verify and keeps its metadata |
| ModelInstall.SecondRunInstalls | python/scripts/download_sherpa_sensevoice.py:42-66 | from any files and after any first run that returned, an archive that could not be used included, a second honest run with a known total installs the content |
| ModelInstall.UnknownTotalMayStopShort | python/scripts/resource_archive.py:124-127 | without an announced total a short body is noticed only by the digest |
| AuthorizedBridge.AuthorizedPerceptionBridge.IssueSession | electron/src/main/authorized-perception-bridge.ts:105-128 | a session is issued exactly under the guards, with its clamped lifetime |
| AuthorizedBridge.AuthorizedPerceptionBridge.AuthorizeFromHost | electron/src/main/authorized-perception-bridge.ts:131-140 | a target window waits for a selection, everything else is issued at once |
| AuthorizedBridge.AuthorizedPerceptionBridge.ResumeAuthorization | electron/src/main/authorized-perception-bridge.ts:145-151 | a settled selection is issued under the same guards, or dropped |
| AuthorizedBridge.AuthorizedPerceptionBridge.Interrupt | electron/src/main/authorized-perception-bridge.ts:154-170 | the minimum rises, the fence falls, older sessions, collections and selections are aborted |
| AuthorizedBridge.AuthorizedPerceptionBridge.BeginStopFence | electron/src/main/authorized-perception-bridge.ts:172-178 | everything is aborted and the fence is up |
| AuthorizedBridge.AuthorizedPerceptionBridge.Dispose | electron/src/main/authorized-perception-bridge.ts:180-187 | everything is aborted for good |
| AuthorizedBridge.AuthorizedPerceptionBridge.BeginCollect | electron/src/main/authorized-perception-bridge.ts:218-232 | the id is used up first, then the refusals in their order |
| AuthorizedBridge.AuthorizedPerceptionBridge.EndCollect | electron/src/main/authorized-perception-bridge.ts:245-280 | the answer after the await, with the two clock readings |
| PerceptionBridge.Ttl | electron/src/main/authorized-perception-bridge.ts:118 | the lifetime lies between one and fifteen seconds |
| PerceptionSafety.EveryRunIsSafe | electron/src/main/authorized-perception-bridge.ts:97-280 | un-aborted sessions belong to the current epoch, outside any fence, before disposal |
| PerceptionSafety.EvidenceIsOneShot | electron/src/main/authorized-perception-bridge.ts:218-269 | each id yields at most one evidence object, faithful in scope, capability and both expiry bounds |
| PerceptionSafety.EvidenceIsCurrent | electron/src/main/authorized-perception-bridge.ts:240-269 | a step returns evidence only of a session current at that step |
| PerceptionSafety.NothingStaleLater | electron/src/main/authorized-perception-bridge.ts:154-187 | the minimum never falls, later evidence is no older than it, and a disposed bridge returns nothing more |
| PerceptionSafety.FenceHolds | electron/src/main/authorized-perception-bridge.ts:172-178 | until the next interruption a fenced bridge issues and returns nothing |
| PerceptionSafety.SpentYieldsNothing | electron/src/main/authorized-perception-bridge.ts:218-223 | a used identifier yields nothing more |
| PerceptionSafety.WrongCapabilitySpends | electron/src/main/authorized-perception-bridge.ts:218-223 | a collect with the wrong capability uses up the id |
| PerceptionSafety.CapturedInTimeIff | electron/src/main/authorized-perception-bridge.ts:244-268 | returned evidence was captured before it expires exactly when it was captured before its session expires |
| PerceptionSafety.EveryRunIsInTime | electron/src/main/authorized-perception-bridge.ts:244-268 | in every run where the check and the capture read the same time all evidence is captured before it expires |
| PerceptionSafety.CapturedAfterExpiry | electron/src/main/authorized-perception-bridge.ts:244-248 | one run with two readings in which it is not |
| VisualCapture.VisualServer.CompleteVisualJob | python/socket_server.py:1681-1698 | a record is completed once, its job ends only if active, its image goes |
| VisualCapture.VisualServer.ResolveVisualCaptureRequest | python/socket_server.py:1516-1521 | a waiter is answered once and only for its own client |
| VisualCapture.VisualServer.RequestVisualCapture | python/socket_server.py:1337-1378 | a request is registered unless the log is full or the client has one pending |
| VisualCapture.VisualServer.FinishVisualCapture | python/socket_server.py:1379-1421 | timeout, cancellation, failure or answer, then both maps lose the job |
| VisualCapture.VisualServer.DiscardPendingVisualRequests | python/socket_server.py:1536-1549 | the pending requests of a client are completed and answered with nothing |
| VisualCapture.VisualServer.ClearVisualContext | python/socket_server.py:1551-1566 | requests, latest frame and analysis of a client are given up |
| VisualCapture.VisualServer.CancelVisualTurnForInterrupt | python/socket_server.py:1568-1590 | the same for an interrupted turn |
| VisualCapture.VisualServer.OnFrame | python/socket_server.py:2794-2826 | a frame is accepted only for its pending request and supersedes the latest one |
| VisualCapture.VisualServer.OnAnalysisAnswer | python/socket_server.py:1874-1917 | a stale analysis ends the job of its copy, a current one goes on |
| VisualSafety.EveryRunIsPaired | python/socket_server.py:1337-1590 | waiters and requests have equal keys, a client has one pending capture, and an answer is the frame asked for |
| VisualSafety.EndedFramesHoldNoImage | python/socket_server.py:1681-1698 | a frame marked terminal holds no image |
| VisualOnce.StepKeepsSoundIff | python/socket_server.py:1337-1941 | a step keeps the job log and the maps sound if and only if it is no frame for an expected capture whose job was evicted; such a frame makes an ended job active again |
| VisualOnce.AlwaysSoundIff | python/socket_server.py:1337-1941 | over a whole run likewise |
| VisualOnce.EveryJobEndsOnce | python/modules/agent/companion_events.py:578-591 | while only jobs without a pending request are evicted, each job ends at most once, and one that has not is still awaited or held |
| VisualOnce.EvictedJobMayEndTwice | python/modules/agent/companion_events.py:578-591 | a job evicted while its request is pending can end twice |
| PermissionDesk.Desk.RequestPermission | python/socket_handlers/tool.py:196-203 | the three maps gain the request together |
| PermissionDesk.Desk.ResolvePending | python/modules/agent/policy_engine.py:318-357 | the policy engine resolves a waiting request once |
| PermissionDesk.Desk.OnPermissionResponse | python/socket_handlers/system.py:82-149 | the reply handler with each of its answers |
| PermissionDesk.Desk.EvictOldest | python/socket_handlers/system.py:147-148 | the oldest entries give way until the bound holds |
| PermissionDesk.Desk.ClearPermissionRequests | python/socket_server.py:658-673 | a disconnected client's requests and replays go |
| PermissionDesk.Desk.ForgetToolRequests | python/socket_handlers/tool.py:239-245 | a cancelled tool's requests leave the three maps |
| Permissions.EveryRunKeeps | python/socket_handlers/system.py:82-149 | equal keys, at most 256 replays, and no registration resolved twice |
| Permissions.OnlyTheRegistrantResolves | python/socket_handlers/system.py:108-141 | only the registering client resolves, and decides only for its tool and scope |
| Permissions.ReplayIsHarmless | python/socket_handlers/system.py:97-106 | an answered request is only replayed with its original acknowledgement |
| Permissions.AcceptedIsKept | python/socket_handlers/system.py:145-149 | an accepted answer is the newest replay entry |
| Permissions.EachIdIsResolvedOnce | python/modules/agent/policy_engine.py:179 | identifiers being fresh, each registration is resolved at most once and is pending no more after that |
| Permissions.AcceptedIff | python/socket_handlers/system.py:97-141 | identifiers being fresh, a reply is accepted if and only if its client registered the request, it is pending, the policy engine still waits and the decision can be stored |
| RealtimeRouter.TranscriptEndpoint.PersistTranscript | python/routes/realtime_api.py:325-373 | the endpoint with each of its answers |
| RealtimeRouter.TranscriptEndpoint.Remember | python/routes/realtime_api.py:370-373 | set and queue gain the turn and lose the oldest together |
| TurnCache.PersistKeepsCache | python/routes/realtime_api.py:370-373 | set and queue hold the same turns once each, at most 256 |
| TurnCache.KeyNamesOneTurn | python/routes/realtime_api.py:330 | without colons in workspace ids a cache key names one workspace and turn |
| TurnCache.EveryRunKeeps | python/routes/realtime_api.py:325-373 | over requests and restarts every cached turn with a key is stored, and no turn key has more than one pair |
| TurnCache.DuplicateIsStored | python/routes/realtime_api.py:330-332 | a turn with a key is answered as a duplicate only if it is stored |
| TurnCache.FirstIsKept | python/routes/realtime_api.py:325-373 | a new database with an empty cache satisfies what the runs keep |
| TurnCache.SecondCallStoresNothingIff | python/routes/realtime_api.py:325-373 | after a restart the same request leaves the database unchanged if and only if its turn id is not blank |
| TurnCache.KeyIsSharedIff | python/routes/realtime_api.py:330 | two different turns share a cache key exactly when one workspace is the other, a colon and a beginning that the turn ids account for |
| TurnCache.SharedKeyIsDuplicate | python/routes/realtime_api.py:330-373 | once a turn is saved, any other turn with its cache key is called a duplicate |
| TurnCache.ColonsConfuse | python/routes/realtime_api.py:330-373 | a concrete run of two requests: the second is called a duplicate with nothing stored for it |
| TurnCache.BlankTurnIsStoredAgain | python/routes/realtime_api.py:53 | any blank turn id is accepted but is no key: after a restart it is stored again |

## Left out

- HTTP routing, response texts, logging, socket emission, signature checks, bridge processes and provider calls: they
  decide nothing here beyond the inputs of the steps.
- Connector admission by allowlist, enablement and snapshot decoding: one boolean of a visit, because it only refuses the
  request before anything is stored. Turn-service availability and a failing early record are two more, because they
  decide what becomes of a reservation. A failure to store the
  record of a worker that has started is left out.
- The connector routes without a delivery store, and delivery rows whose event differs from their key: the store is
  taken as present and rows as consistent with their key.
- The recovery controller's totals and its loop over rows: the scan is one step per row, in any order, and the retry of a
  recovered row begins in that step.
- ConnectorRouter.Router.ProviderAnswered: what the registry makes of a provider's reply is the input of the step, except
  its own refusal of a blank one; health records and the Discord status text are not modelled, and the await for the
  latter is a step of its own.
- ConnectorAdmission.EveryRunIsRated: a restart empties the tables, so a window that spans one is not bounded.
- ResumableDownload.RestartsAreUnbounded: the interpreter's recursion limit, which ends a long chain of restarts with an
  error that no handler catches, is not modelled.
- Errors of the local file system during a download.
- Message updates, searches, statistics, settings, exports and voice profiles of the repository: no counter, link or
  key depends on them.
- Workspace columns other than name, companion, context and revision; the JSON form of traces and contexts.
- ContextRevision.EveryRunIsSerial: the premise shuts out `import_workspace_context`, which names no expected revision
  and writes unconditionally; it is modelled as a serial call only.
- The database's own locking: a stricter isolation than one statement at a time would only allow fewer runs.
- ProductMetrics.Declared: ratios are pairs of counters, not rounded quotients, and days are integers.
- The cohort report and its suppression threshold; payload size and bearer token checks, which fail before the first
  request.
- ProductExport.EveryRunIsWritten: the exporter without a journal announces nothing, so nothing is claimed for it; the
  consent decision is taken as stored in its file.
- ProductExport.EveryRunIsTruthful: earlier, different batches stay exported after a revocation, which deletes only the
  batch it holds.
- HttpHeaders.ParseInt: digit groups with underscores and blanks other than spaces are not accepted.
- The bytes of archives: extraction, file search and model validation are one boolean; progress output and back-off
  sleeps of the download are not modelled.
- Redaction and the providers of perception evidence: a provider's payload is its size. A selection is its source id.
- VisualOnce.EveryJobEndsOnce: the analysis checks the frame id and not also the epoch, because a frame id belongs to
  one request and so to one epoch.
- Captions, OCR texts, analysis scheduling decisions and observation caches of visual frames.
- Job log events other than creation and the terminal event; `running` changes no map.
- The policy engine's audit list and its decisions before a request is registered.
- TurnCache.EveryRunKeeps: deletions between requests are shut out, as is another writer of the same turn keys.
