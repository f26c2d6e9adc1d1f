# Durable project agent: a verified model

The system is an agent platform whose runs survive crashes. An API call records a run and enqueues a job; workers
lease jobs, drive a graph of model calls, and write the outcome back in separate transactions; a browser follows the run's
event log; tools with side effects wait for a human confirmation; answers may only cite evidence the user may see. What
surrounds the language model is deterministic, and this project models that part in Dafny and proves what it keeps.

Whatever the code does not determine (clock readings, who calls when, which request is lost, what retrieval and the
language model answer, which worker dies) is an argument of a step. A history is a sequence of steps, so "for every
history" is a quantifier over sequences. Operations the source performs in place are class methods or loops, each proved
equal to a function on values; the theorems are about those functions.

| module | what it models |
|---|---|
| `Jobs`, `QueueLocks` | the leased queue: claim, heartbeat, complete, fail, reap, back-off; and its transactions, open side by side under row locks |
| `Runs`, `RunRows` | one run and its append-only log: lifecycle operations as functions, and as a class changing its fields |
| `Engine`, `EngineInvariant`, `EngineSafety`, `EngineProvenance`, `Stranding` | API calls, handler attempts, graph outcomes, crashes and the reaper, interleaved; where the events of a log come from; and what a FAILED job says about its run |
| `EventStream` | the server-sent event loop and resumption (section 9.2 of the WHATWG HTML Living Standard) |
| `IssueCreation`, `IssueDecisions`, `IssueInvariant`, `IssueSafety`, `IssueRecovery` | decisions and confirmation, idempotency barrier, provider, reconciliation, one program counter per `await` |
| `Evidence`, `Governance`, `ConflictPolicy`, `AuthorityPolicy` | admission, duplicates, conflict resolution, capped selection, labels |
| `CitationGuard`, `Access`, `Catalogue`, `QaGraph`, `QaTermination`, `QaGrounding`, `QaRouting` | the guard, least privilege around retrieval, metadata and scope read off the document library, and the graph that uses them |
| `Documents` | lifecycle, publication, supersession, the scan for current versions |
| `TokenBucket`, `PromptCache`, `CrossProject` | rate limiting, prompt caching, two counters that should agree |
| `Common`, `Text` | shared vocabulary; trimming and decimal notation |

Four properties one might expect do not hold of the code. Each has a counterexample and the exact condition under which
it does hold:

- A FAILED job does not imply a finished run. A job comes to fail in seven ways; in exactly one of them, when the graph
  raised on the last attempt and that was recorded, is the run always over. The reaper, a failed transaction of the
  handler, an outcome that breaks its contract, and a late failure of an earlier attempt whose worker owns the job again
  each leave runs behind (`Stranding.FailedMeansFinishedExactly`, with one history per cause).
- A stream closed by the status check has not always sent the terminal event
  (`EventStream.StatusEndCanMissTheTerminalEvent`). It has missed it exactly when it was opened before that event
  (`EventStream.StatusEndMissesExactly`), and one more session from the last id delivers it
  (`EventStream.OneMoreSessionDelivers`).
- A document may have any number of PUBLISHED versions at once (`Documents.AnyNumberPublished`), although the docstring of
  `SqlAlchemyDocumentWorkflowRepository` speaks of "the old PUBLISHED version". At most one stays at most one exactly when
  a publication finds none, or supersedes it (`Documents.AtMostOneExactly`).
- The two cross-project counters are not always zero together (`CrossProject.ShadowedDisagreement`). They are whenever an
  evidence id names one artifact (`CrossProject.ZeroTogether`), and in general except on exactly the trials whose only
  trouble is shadowed by a later artifact with the same id (`CrossProject.ZeroTogetherExactly`).

The engine treats a queue transaction as one step. `QueueLocks.LocksSerialize` is why it may, and
`QueueLocks.LostUpdateWithoutLocks` why the row locks are needed for it.

## Model

| member | source | states |
|---|---|---|
| Jobs.DelayDoubles | src/project_agent/infrastructure/jobs/postgres.py:24-34 | The delays are the capped doubling sequence: the base first, then twice the one before, never above the maximum |
| Jobs.JobQueue.Enqueue | src/project_agent/infrastructure/jobs/postgres.py:58-77 | Appends one PENDING row with no attempts, nobody's and due now, or rejects a maximum below one and changes nothing |
| Jobs.SelectForUpdate | src/project_agent/infrastructure/jobs/postgres.py:41-55 | Returns distinct candidates in the ORDER BY order, as many as the limit allows, and passes over none that sorts before one it takes |
| Jobs.ClaimTakesEarliest | src/project_agent/infrastructure/jobs/postgres.py:41-55 | A claim takes PENDING, due, unlocked rows, ordered by due time, creation and id, and leaves one only when it has as many as it may take, none of them later |
| Jobs.ReapTakesEarliest | src/project_agent/infrastructure/jobs/postgres.py:234-246 | The same for RUNNING rows whose lease ran out, ordered by lease |
| Jobs.JobQueue.Claim | src/project_agent/infrastructure/jobs/postgres.py:145-167 | Exactly the returned rows become RUNNING: one attempt more, held by this worker, with a whole lease from now; they are the first claimable rows nobody has locked, as many as the limit allows; the effect is that of claiming them one by one |
| Jobs.JobQueue.Heartbeat | src/project_agent/infrastructure/jobs/postgres.py:169-176 | Succeeds exactly when the worker holds the RUNNING row; the lease then ends a whole lease from now and nothing else changes but the heartbeat |
| Jobs.JobQueue.Complete | src/project_agent/infrastructure/jobs/postgres.py:178-191 | Succeeds exactly when the worker holds the RUNNING row, which becomes SUCCEEDED and free; no other row changes |
| Jobs.JobQueue.Fail | src/project_agent/infrastructure/jobs/postgres.py:193-213 | Succeeds exactly for the holder; the row is free again with this error, due after its back-off while attempts remain, otherwise FAILED |
| Jobs.JobQueue.ReapExpired | src/project_agent/infrastructure/jobs/postgres.py:234-267 | Frees exactly the returned rows, due at once while attempts remain, otherwise FAILED: the unlocked rows with an expired lease, earliest first, as many as the limit allows |
| Jobs.ClaimBatch | src/project_agent/infrastructure/jobs/postgres.py:149-159 | Claiming distinct claimable rows one after another is claiming them all at once |
| Jobs.ReapBatch | src/project_agent/infrastructure/jobs/postgres.py:247-267 | The same for freeing expired leases |
| Jobs.QueueSafety | src/project_agent/infrastructure/jobs/postgres.py:145-294 | In every history: RUNNING exactly with owner and lease, PENDING has attempts left, FAILED has none; claims counted from the rows equal the attempt count and never exceed the maximum; `complete` succeeded once if SUCCEEDED, else never |
| Jobs.SettledIsAbsorbing | src/project_agent/infrastructure/jobs/postgres.py:178-213 | A SUCCEEDED or FAILED row never changes again, whatever happens later |
| Jobs.LeaseIsLastRenewal | src/project_agent/infrastructure/jobs/postgres.py:145-176 | In every history a RUNNING row is held by whoever took it last, and its lease ends one lease after its last claim or heartbeat |
| Jobs.ReapsExactly | src/project_agent/infrastructure/jobs/postgres.py:234-267 | The reaper moves a row if and only if it is RUNNING and more than a lease has passed since its last claim or heartbeat |
| Jobs.NeverReapedEarly | src/project_agent/infrastructure/jobs/postgres.py:169-176 | Under an ordered clock, a row taken or renewed at s is not moved by any reaper that comes by s plus the lease, whatever happens in between |
| Jobs.OnlyTheHolderSettles | src/project_agent/infrastructure/jobs/postgres.py:277-294 | A row is completed, failed or renewed only by the worker that took it last, while it is RUNNING |
| QueueLocks.Reachable | src/project_agent/infrastructure/jobs/postgres.py:145-294 | Every interleaving of opening, committing and rolling back queue transactions keeps the invariant over rows, reads, locks and hand-outs |
| QueueLocks.OpenTransactionsAreDisjoint | src/project_agent/infrastructure/jobs/postgres.py:41-55 | No two open transactions hold the same row, so overlapping claims have selected disjoint jobs |
| QueueLocks.ReadsStayCurrent | src/project_agent/infrastructure/jobs/postgres.py:149-159 | While a transaction is open, its rows are as it read them, and still claimable, expired or owned |
| QueueLocks.CommitIsSerial | src/project_agent/infrastructure/jobs/postgres.py:151-159 | Writing back values worked out from earlier reads, without looking again, is running the operations at the moment of the commit |
| QueueLocks.EveryAttemptHandedOutOnce | src/project_agent/infrastructure/jobs/postgres.py:145-167 | Over any history no attempt of a job is returned by two claims |
| QueueLocks.LocksSerialize | src/project_agent/infrastructure/jobs/postgres.py:247-294 | Under row locks, interleaved transactions have the effect of running their operations one by one in the order of the commits |
| QueueLocks.LostUpdateWithoutLocks | src/project_agent/infrastructure/jobs/postgres.py:54 | Without the locks two claims read the same job, the second write wipes out the first, which no serial run does, and one attempt goes to two workers |
| Jobs.DelayIsMonotone | src/project_agent/infrastructure/jobs/postgres.py:24-34 | Later attempts never wait less |
| Jobs.NeverClaimedEarly | src/project_agent/infrastructure/jobs/postgres.py:193-213 | Under an ordered clock, a job failed on attempt k at time t is never claimed before t plus the delay of k, whatever happens in between |
| Jobs.BackoffGeometric | src/project_agent/infrastructure/jobs/postgres.py:202-212 | The waiting read off a job's rows over its whole life is at most the geometric sum |
| Jobs.BackoffCapped | src/project_agent/infrastructure/jobs/postgres.py:202-212 | ... and at most the cap once per retry |
| Runs.PrepareExecuteKeeps | src/project_agent/application/services/run_execution.py:42-89 | Keeps the run invariant; invokes the graph exactly when the run is neither parked nor asked to resume; a QUEUED run then becomes RUNNING, started now, with a RUN_STARTED event, and nothing else ever changes |
| Runs.PrepareResumeKeeps | src/project_agent/application/services/run_execution.py:91-131 | Keeps the invariant; resumes exactly when the run is not parked and a resume has been queued; a QUEUED run then becomes RUNNING with a RUN_RESUMED event, and nothing else ever changes |
| Runs.ResumePayloadIsNewest | src/project_agent/application/services/run_execution.py:98-131 | The payload handed to the graph is that of the newest RUN_RESUME_QUEUED event, and its hash is that of the newest WAITING_CONFIRMATION event before it |
| Runs.PersistOutcomeKeeps | src/project_agent/application/services/run_execution.py:133-194 | Keeps the invariant and leaves a parked run alone; any other ends in the very status of the outcome, with its terminal event, reference and summary, now, or waits for the hash of the payload; the one error is an interruption without a hash |
| Runs.MarkFinalFailureKeeps | src/project_agent/application/services/run_execution.py:196-225 | Keeps the invariant; a run that is not terminal ends FAILED now, with this code in its RUN_FAILED event; a terminal one is not touched |
| Runs.ResumeRunKeeps | src/project_agent/application/services/runs.py:132-182 | Accepts exactly the run's own authorized user, in issue mode, while waiting, with the hash last asked about, and queues exactly that user's answer; each refusal has its exact cause; the two "no durable event" conflicts cannot occur |
| Runs.CreateRunIsEnqueued | src/project_agent/application/services/runs.py:70-120 | A run is created exactly from a query that is not blank, QUEUED, with one RUN_QUEUED event holding the stripped text |
| Runs.DigestIsFaithful | src/project_agent/application/services/run_execution.py:47-71 | Reading the log in one pass agrees with looking up the newest event of each type |
| Runs.LatestIsNewest | src/project_agent/application/services/run_execution.py:47-71 | No event of a type stands after the newest one found, and none at all when none is found |
| Runs.StatusIsProjection | src/project_agent/evaluation/collector.py:265-277 | The log is a word of the lifecycle automaton, the status is that of its last lifecycle event, at most one terminal event, `finished_at` exactly in terminal states, resumes bound to their question |
| RunRows.RunRow.LatestEventOfType | src/project_agent/application/services/run_execution.py:47-71 | The backward search finds the newest event of a type, or none |
| RunRows.RunRow.PrepareExecute | src/project_agent/application/services/run_execution.py:42-89 | The step-by-step form has exactly the effect of the function the theorems are about and keeps the run invariant; it invokes exactly when the run is neither parked nor asked to resume, and then starts a QUEUED run now |
| RunRows.RunRow.PrepareResume | src/project_agent/application/services/run_execution.py:91-131 | The same for resuming, which happens exactly when the run is not parked and a resume has been queued |
| RunRows.RunRow.PersistOutcome | src/project_agent/application/services/run_execution.py:133-179 | The same for persisting: the row ends in the status of the outcome with its event, or waits for the hash; a parked row and one whose outcome breaks the contract stay as they were |
| RunRows.RunRow.MarkFinalFailure | src/project_agent/application/services/run_execution.py:196-210 | The same for a final failure: FAILED now with this code, unless the row was terminal already |
| RunRows.RunRow.ResumeRun | src/project_agent/application/services/runs.py:132-175 | The same for the resume call, which is accepted under the same condition and queues exactly the answer given; a refusal leaves the row as it was |
| EngineInvariant.Reachable | src/project_agent/workers/run_execution.py:47-93 | Every interleaving of API calls, claims, handlers, crashes and reaping keeps the invariant over jobs, runs and attempts |
| EngineSafety.NoLostWakeup | src/project_agent/workers/run_execution.py:52-93 | In every history, a QUEUED or RUNNING run has a most recent job and that job is not SUCCEEDED |
| EngineSafety.StatusIsAlwaysProjection | src/project_agent/application/services/run_execution.py:42-225 | In every history, stale workers included, each run row is the projection of its log |
| EngineSafety.HistoryIsMonotone | src/project_agent/application/services/run_execution.py:133-225 | Between any two moments the log only grows, a terminal status is never left, `started_at` and `finished_at` are written once |
| EngineSafety.NoExecuteAfterResume | src/project_agent/application/services/run_execution.py:54-66 | Once a resume is queued, `prepare_execute` never invokes the graph again |
| EngineSafety.ResumeInputsAreDurable | src/project_agent/workers/run_execution.py:72-88 | Whatever any attempt is resuming with stands in the log and answers the question that was newest then |
| EngineSafety.FailuresHaveCauses | src/project_agent/workers/main.py:94-102 | Whatever step settles a job as FAILED, it is the reaper or the failure of an attempt of that job, with one of seven causes |
| EngineSafety.FinalGraphFailureEndsRun | src/project_agent/workers/run_execution.py:47-49 | In every history, a job that fails because the graph raised on its last attempt belongs to a run that is over |
| EngineSafety.JobsAreAQueueHistory | src/project_agent/workers/main.py:94-102 | The engine's job table is a history of the queue, so every queue theorem holds of it |
| EngineProvenance.EventsHaveOrigins | src/project_agent/workers/run_execution.py:35-93 | In every history, each event of a run's log goes back to an earlier step: a terminal event or a question to the graph returning that very outcome inside an attempt for that run, a failure to the graph raising that code, a resume to the run's own user giving that answer, the first event to the query |
| EngineProvenance.ResumeGetsItsInput | src/project_agent/workers/run_execution.py:72-88 | Inside the graph, an attempt has a resume payload exactly when its job is a resume job |
| Stranding.EveryOtherCauseStrands | src/project_agent/workers/run_execution.py:52-93 | For each of the other six causes, a history that leaves the run unfinished with its only job FAILED |
| Stranding.FailedMeansFinishedExactly | src/project_agent/workers/run_execution.py:35-93 | A cause of failure guarantees a finished run if and only if it is the graph raising on the last attempt |
| Stranding.FinalGraphFailureHappens | src/project_agent/workers/run_execution.py:47-49 | That cause does occur |
| EventStream.LastEventIdRoundTrip | src/project_agent/api/v1/runs.py:87-92 | A client that echoes the id it was sent resumes exactly there |
| EventStream.ParseLastEventIdExactly | src/project_agent/api/v1/runs.py:87-92 | No id or an empty one means the beginning; an id is refused exactly when it has a character that is no digit |
| EventStream.FirstTimeSeesTheBeginning | src/project_agent/api/v1/runs.py:87-131 | A client without an id receives the log from its first event on |
| EventStream.EmptyTurnEndsExactly | src/project_agent/api/v1/runs.py:125-131 | A turn without new events ends the stream if and only if the run is missing or its log holds a terminal event |
| EventStream.SendPage | src/project_agent/api/v1/runs.py:119-123 | The inner loop sends the page up to and including a terminal event |
| EventStream.SentIsMaximal | src/project_agent/api/v1/runs.py:114-123 | A page stops only at a terminal event, at the limit, or at the end of the log |
| EventStream.IterSseEvents | src/project_agent/api/v1/runs.py:104-131 | The polling loop delivers what the specification function says, message by message, and stops for the same reason |
| EventStream.StreamIsContiguous | src/project_agent/api/v1/runs.py:112-126 | While the log grows, one stream sends a gapless, ordered run of it, each event under its own number |
| EventStream.NothingAfterTerminal | src/project_agent/api/v1/runs.py:119-123 | A stream sends nothing after a terminal event |
| EventStream.ChainIsContiguous | src/project_agent/api/v1/runs.py:87-131 | Any chain of streams, each resumed from the last id sent, shows every event once and in order |
| EventStream.CheckReadsTheLog | src/project_agent/application/services/run_execution.py:163-179 | The status the check reads is terminal exactly when the log holds a terminal event |
| EventStream.StatusEndMissesExactly | src/project_agent/api/v1/runs.py:125-131 | A stream closed by the status check of an existing run has missed the terminal event if and only if it was opened before it |
| EventStream.OneMoreSessionDelivers | src/project_agent/api/v1/runs.py:87-131 | ... and one more session from the last id, with enough turns, ends with exactly that event |
| EventStream.StatusEndCanMissTheTerminalEvent | src/project_agent/api/v1/runs.py:125-131 | The race exists: a log on which the terminal event is never sent |
| IssueCreation.Find | src/project_agent/infrastructure/project_tracker/sandbox.py:154-177 | Finds an issue of the project and request if there is one |
| IssueInvariant.Reachable | src/project_agent/application/services/issue_creation.py:105-264 | Any number of concurrent `execute` and `reconcile` calls, with lost requests, lost responses and writes that land long after their caller has given up, keep the invariant over drafts, receipts, records, issues, attempts and requests in flight |
| IssueDecisions.DecisionChanges | src/project_agent/application/services/issue_confirmation.py:64-107 | An accepted decision sets its draft CONFIRMED or CANCELLED as decided and leaves a matching receipt on file; any other changes nothing |
| IssueDecisions.ReceiptsAreDecisions | src/project_agent/application/services/issue_confirmation.py:80-96 | In every history, each receipt was stored by an accepted decision with the same verdict, user, hash, instant and deadline |
| IssueDecisions.StatusIsLastDecision | src/project_agent/application/services/issue_confirmation.py:97-102 | In every history a CONFIRMED draft is one whose last accepted decision confirmed, a CANCELLED one had its last decision cancel, an open one was never decided |
| IssueSafety.AtMostOneIssue | src/project_agent/infrastructure/project_tracker/sandbox.py:84-152 | The provider holds at most one issue, and exactly as many CREATED events, per request id, even when a late write races with a reconciliation |
| IssueSafety.KeysAreUnique | src/project_agent/infrastructure/project_tracker/sandbox.py:103-146 | In every history no two issues of a project have the same key |
| IssueSafety.OutcomesAgreeWithProvider | src/project_agent/application/services/issue_creation.py:235-282 | Every outcome that carries a key carries the key of the provider's issue for that request |
| IssueSafety.OutcomesAreBacked | src/project_agent/application/services/issue_creation.py:235-282 | ... and that issue exists, once |
| IssueSafety.PendingIsQueued | src/project_agent/application/services/issue_creation.py:156-197 | An outcome without a key is PENDING_RECONCILIATION, and then its barrier and its reconciliation job are on record |
| IssueSafety.AtMostOneCreated | src/project_agent/application/services/issue_creation.py:146-203 | At most one attempt ever reports CREATED for a request |
| IssueSafety.ImpossibleFailures | src/project_agent/infrastructure/project_tracker/sandbox.py:132-136 | No attempt ever reaches "conflict could not be reconciled", a vanished reservation, or a completion without one |
| IssueSafety.NoUnconfirmedSideEffect | src/project_agent/application/services/issue_creation.py:112-150 | Behind every issue of every history stands an earlier accepted decision to confirm, by the very user who executed it, for exactly the payload the provider got, within the draft's deadline; its execution was checked against that deadline and against an allowed role |
| IssueSafety.IssueIsTheDraft | src/project_agent/application/services/issue_drafts.py:78-109 | Every issue, its content and its event say what the draft says, field by field |
| IssueSafety.RequestSaysItAll | src/project_agent/application/services/issue_drafts.py:88-98 | The description of a request begins with that of the draft and mentions every reproduction step, the expected and the actual behaviour |
| IssueSafety.CreatedHasIssue | src/project_agent/application/services/issue_creation.py:235-264 | A draft is CREATED only when the provider holds its one issue |
| IssueSafety.ReceiptCoversOneDraft | src/project_agent/application/services/issue_drafts.py:110-130 | One receipt lets through at most one draft |
| IssueSafety.ReconcileNeedsBarrier | src/project_agent/application/services/issue_creation.py:205-216 | Without the barrier, reconciliation writes nothing and goes no further |
| IssueSafety.StorageIsDurable | src/project_agent/infrastructure/project_tracker/sandbox.py:131-146 | Over any stretch of time issues, events and receipts stay, records are never withdrawn, completed records never change |
| IssueRecovery.ReconcileRecovers | src/project_agent/application/services/issue_creation.py:205-233 | From every reachable state, an undisturbed reconciliation of a reserved request ends with its issue recorded and reported, if and only if it is recorded, held by the provider, or can be created; the draft is then marked CREATED |
| IssueRecovery.ExecuteSettlesExactly | src/project_agent/application/services/issue_creation.py:105-203 | From every reachable state, an undisturbed execution is let through exactly when its user confirmed this payload, the draft is not cancelled and a role allows it; then it ends CREATED, expired, ALREADY_CREATED, pending or failed, each under its exact condition; otherwise it writes nothing |
| IssueRecovery.CancelledIsRefused | src/project_agent/application/services/issue_creation.py:124-125 | A call that starts after its draft was cancelled, before there is a reservation, is refused whatever happens between its awaits |
| IssueRecovery.TimeoutIsPending | src/project_agent/application/services/issue_creation.py:187-197 | A call that times out leaves an execution PENDING with its job queued, and a reconciliation failed |
| IssueRecovery.LateWriteLands | src/project_agent/application/services/issue_creation.py:187-197 | A request that timed out can still create its issue after the execution has ended PENDING |
| IssueRecovery.SandboxTracker.GetIssueByRequestId | src/project_agent/infrastructure/project_tracker/sandbox.py:154-177 | The search loop agrees with the lookup the protocol relies on |
| IssueRecovery.SandboxTracker.Insert | src/project_agent/infrastructure/project_tracker/sandbox.py:103-146 | A new row with its event, nothing on a conflict, or a failed statement |
| IssueRecovery.SandboxTracker.CreateIssue | src/project_agent/infrastructure/project_tracker/sandbox.py:76-152 | Whatever other sessions commit between its lookup and its insert, it returns what the table holds for the request; losing the race is always reconciled, and an issue and its event appear together or not at all |
| Evidence.SortSorted | src/project_agent/application/services/evidence_governance.py:137-144 | The sort by authority, score, version number and id sorts |
| Evidence.SortPermutes | src/project_agent/application/services/evidence_governance.py:137-144 | ... is a permutation |
| Evidence.SortIsStable | src/project_agent/application/services/evidence_governance.py:137-144 | ... and keeps items that tie in order |
| Evidence.RankIsOrder | src/project_agent/application/services/evidence_governance.py:38-49 | One authority has a lower rank than another exactly when it stands before it in the authority order |
| Evidence.AtMostIsStandsBefore | src/project_agent/application/services/evidence_governance.py:137-144 | The sort key orders by that list, then higher score, higher version number, lower id |
| Governance.Collect | src/project_agent/application/services/evidence_governance.py:71-134 | The admitting loop with its seen set collects the specified candidates |
| Governance.CandidatesAre | src/project_agent/application/services/evidence_governance.py:89-104 | One candidate, and only one, for every admissible (version, stripped content) |
| Governance.AdmitExactly | src/project_agent/application/services/evidence_governance.py:73-134 | A chunk is admitted exactly when it is of the project and of a PUBLISHED, current version of it that is in effect today, first and last day included; the item carries the authority, number, status and dates of the version and the content, score, space and claim of the chunk |
| AuthorityPolicy.CandidatesAreFirst | src/project_agent/application/services/evidence_governance.py:71-104 | The candidates are exactly the first admissible chunks of each version and stripped content, in the order they came |
| Governance.ResolveConflicts | src/project_agent/application/services/evidence_governance.py:184-212 | The grouping loops agree with the specification, group order included |
| Governance.Select | src/project_agent/application/services/evidence_governance.py:137-168 | Cut, protected keys, re-insertion and second sort amount to the best `max_evidence` items followed by the unresolved rest |
| Governance.SelectedSorted | src/project_agent/application/services/evidence_governance.py:161-168 | What is taken past the cap leaves the list sorted: the second sort changes nothing |
| ConflictPolicy.PackEvidence | src/project_agent/application/services/evidence_governance.py:64-182 | The whole service computes the evidence pack all theorems are about |
| ConflictPolicy.ResolveExactly | src/project_agent/application/services/evidence_governance.py:184-212 | Authority dominance over candidates: an item survives exactly when no rival of more authority overrules it in a disagreement, and is marked exactly when an equally authoritative rival contradicts it |
| AuthorityPolicy.AuthorityDecides | src/project_agent/application/services/evidence_governance.py:184-212 | Said of the chunks and the authorities of their documents: a chunk contradicted while a document earlier in the authority order speaks about the same thing is not in the pack; one contradicted by its equals is in it and marked; any other is in it unmarked, unless the pack is full of items that stand before it |
| AuthorityPolicy.PackIsFirstChunks | src/project_agent/application/services/evidence_governance.py:136-171 | Every item of the pack is such a first chunk that nothing overrules, marked exactly when its conflict is unsettled, numbered in the order of authority, score, version number and id |
| AuthorityPolicy.SomethingIsShown | src/project_agent/application/services/evidence_governance.py:64-182 | Any admissible chunk leaves the pack non-empty |
| ConflictPolicy.ResolveDistinct | src/project_agent/application/services/evidence_governance.py:184-212 | Resolution introduces no duplicates |
| ConflictPolicy.PackIsSound | src/project_agent/application/services/evidence_governance.py:136-171 | Sorted, labelled E1 to En, no two items with the same version and stripped content, only survivors, beyond the cap only unresolved items |
| ConflictPolicy.NoHiddenConflict | src/project_agent/application/services/evidence_governance.py:145-158 | Every contested candidate is in the evidence pack, whatever the cap |
| ConflictPolicy.CapKeepsTheBest | src/project_agent/application/services/evidence_governance.py:137-145 | A survivor that is left out is no better than any of the first `max_evidence` items |
| ConflictPolicy.PackIsAdmitted | src/project_agent/application/services/evidence_governance.py:73-99 | Every item comes from an admissible chunk, with the authority, version number and dates of its document and the score, conflict key and claim of the chunk |
| ConflictPolicy.UnresolvedExactly | src/project_agent/application/services/evidence_governance.py:173-181 | `unresolved_conflicts` has exactly the keys under which candidates are contested |
| ConflictPolicy.UnresolvedLabels | src/project_agent/application/services/evidence_governance.py:173-181 | ... and maps each to exactly the labels of its marked items |
| ConflictPolicy.EveryConflictIsReal | src/project_agent/application/services/evidence_governance.py:177-181 | The test for more than one claim value never drops a key |
| ConflictPolicy.LoadConflicts | src/project_agent/infrastructure/db/repositories/qa_graph.py:320-348 | The loading loop rebuilds conflicts from the marks of the rows |
| ConflictPolicy.ConflictsSurviveStorage | src/project_agent/infrastructure/db/repositories/qa_graph.py:257-393 | Saving and loading a pack gives back its unresolved conflicts |
| CitationGuard.Validate | src/project_agent/application/services/citation_guard.py:19-85 | The accumulating loops report exactly the faults there are, each once, list exactly the used labels, and accept exactly the drafts that satisfy the declarative predicate |
| CitationGuard.UsedIs | src/project_agent/application/services/citation_guard.py:32-69 | Used labels are the cited labels that exist, each once |
| CitationGuard.FaultlessPasses | src/project_agent/application/services/citation_guard.py:70-85 | No fault at all implies the draft passes |
| CitationGuard.PassesFaultless | src/project_agent/application/services/citation_guard.py:70-85 | A draft that passes has no fault |
| CitationGuard.SomeDraftPasses | src/project_agent/application/services/citation_guard.py:26-85 | For every non-empty pack, saved and loaded, some draft passes |
| Access.PostfilterExactly | src/project_agent/agent/policies/access.py:49-67 | Exactly the chunks inside the granted project, versions and spaces get through |
| Access.PostfilterKeepsOrder | src/project_agent/agent/policies/access.py:61-67 | ... as often as they came and in the order they came, with project, version and space spelled out |
| Access.ConstrainExactly | src/project_agent/agent/policies/access.py:13-47 | A constrained request asks for exactly what was both granted and asked for, and is absent exactly when that is nothing |
| QaTermination.EveryRunEnds | src/project_agent/agent/graph.py:215-266 | From any carried-over round and revision counts, every execution ends within fifteen nodes |
| QaTermination.MoveDescends | src/project_agent/agent/graph.py:50-82 | Whatever the services answer, every node decreases the measure |
| QaTermination.BoundedWork | src/project_agent/agent/nodes/revise_answer.py:19-21 | At most two retrievals, two gradings and two drafts; the revision node never reaches its own refusal |
| QaRouting.SelectRoutes | src/project_agent/agent/nodes/select_project.py:66-98 | The user is asked, refused or taken to the project exactly as the selection says |
| QaRouting.ScopeAndPlan | src/project_agent/agent/nodes/identifier_node.py:33-47 | The scope is read off the library for the run's project; a plan allows a second round only if the configuration does |
| QaRouting.RetrieveRoutes | src/project_agent/agent/nodes/retrieve.py:23-72 | Retrieval goes on to grading exactly in the first two rounds and when something granted may be asked for, with exactly the allowed chunks; otherwise to a refusal |
| QaRouting.GradeRoutes | src/project_agent/agent/nodes/grade_retrieval.py:82-110 | Governance exactly for an adequate grade; back to retrieval, with the refined query, exactly for a justified and allowed second round; a refusal otherwise |
| QaRouting.GovernRoutes | src/project_agent/agent/nodes/govern_evidence.py:25-45 | In every execution a draft is written exactly when some retrieved chunk is evidence in force, and the run refused otherwise |
| QaRouting.DraftRoutes | src/project_agent/agent/nodes/generate_answer.py:127-147 | In every execution a draft, first or revised, goes to the guard as the model wrote it |
| QaRouting.GuardRoutes | src/project_agent/agent/nodes/citation_guard.py:37-88 | In every execution exactly the drafts that pass are answered; the first that fails is revised, the second refused |
| QaRouting.AnsweredWasAdequate | src/project_agent/agent/nodes/grade_retrieval.py:82-87 | In every history, the last grade of a run that ends answered was adequate |
| QaRouting.SecondRoundNeedsLeave | src/project_agent/agent/nodes/grade_retrieval.py:88-93 | Without leave in the configuration there is no second retrieval, whatever the grades say |
| QaRouting.EndIsAnswer | src/project_agent/agent/nodes/refuse.py:11-22 | A run that ends has a grounded answer or a refusal |
| QaRouting.SomeDraftIsAnswered | src/project_agent/agent/graph.py:215-266 | From every state about to retrieve, and every chunk that is allowed, asked for and in force on some day, some continuation ends answered |
| QaGrounding.BundleIsSafe | src/project_agent/agent/nodes/govern_evidence.py:16-45 | At every node, for every retrieval result, the bundle holds only allowed evidence of the run's project, and the one drafts are written from and checked against is the governed pack |
| QaGrounding.GuardNeverFails | src/project_agent/agent/nodes/citation_guard.py:53-60 | No label is without a number or without a stored row |
| QaGrounding.CitationsAre | src/project_agent/agent/nodes/citation_guard.py:53-60 | Citation numbers and used labels determine each other |
| Catalogue.InForceIsHighest | src/project_agent/infrastructure/db/repositories/evidence_governance.py:21-72 | Metadata in force describes the highest PUBLISHED version of its document |
| Catalogue.MetadataIs | src/project_agent/infrastructure/db/repositories/evidence_governance.py:21-71 | Every version of a known document has metadata: the library's project, status and number, its own authority and dates, and PUBLISHED and current exactly for the highest PUBLISHED version |
| Catalogue.HighestIsUnique | src/project_agent/infrastructure/db/models/schema.py:188-190 | In every history of the library a document has at most one such version |
| Catalogue.ScopeIsCurrent | src/project_agent/infrastructure/db/repositories/authorization.py:101-131 | The scope has the project's code and the granted spaces, and its versions are exactly the granted ones that are the highest PUBLISHED of the project: the scan and the metadata's `is_current` agree |
| QaGrounding.AnswersAreGrounded | src/project_agent/agent/nodes/citation_guard.py:37-71 | If a run ends answered, each saved citation points to a stored row of the run's project, with its version in the authorized scope, in effect on the packing day, and the highest PUBLISHED one of its document both when the scope was resolved and at packing; its number recovers its label |
| QaGrounding.ClaimsAreCited | src/project_agent/infrastructure/db/repositories/qa_graph.py:395-420 | ... every claim is cited, and the saved citations are exactly those of the claims and of the disclosure |
| Documents.DocumentRepository.CreateDraft | src/project_agent/infrastructure/db/repositories/documents.py:36-78 | Exactly when document, project, category and predecessor fit, adds one DRAFT with the next number of its document, and the document if it is new; otherwise refuses and changes nothing |
| Documents.DocumentRepository.SetStatus | src/project_agent/infrastructure/db/repositories/documents.py:84-98 | Changes exactly one status, only along the table and only from the expected status |
| Documents.DocumentRepository.Publish | src/project_agent/application/use_cases/publish_document.py:99-143 | Changes exactly the version and the one it supersedes, or nothing |
| Documents.AddDraftExactly | src/project_agent/infrastructure/db/repositories/documents.py:36-78 | The same of the function: the new number is one more than the highest of the document, or 1 |
| Documents.WaysInto | src/project_agent/domain/documents.py:10-59 | The statuses from which each status can be reached: deletion from every one but its own two, publication from APPROVED only, and so on |
| Documents.FindMaxVersion | src/project_agent/infrastructure/db/repositories/documents.py:58-65 | The highest version number of a document, whatever its status |
| Documents.NeverRepublished | src/project_agent/domain/documents.py:10-59 | In every history, a version that has left PUBLISHED is never published again |
| Documents.SupersedingSwapsOne | src/project_agent/infrastructure/db/repositories/documents.py:100-130 | A superseding publication swaps one version of the same document for another of a higher number; every document keeps its count of published versions |
| Documents.AtMostOneExactly | src/project_agent/infrastructure/db/repositories/documents.py:84-130 | A document with at most one published version keeps at most one after an accepted operation if and only if the operation publishes nothing of it, or finds nothing published, or supersedes it |
| Documents.DisciplineKeepsOne | src/project_agent/infrastructure/db/repositories/documents.py:100-130 | Histories that publish only so never have two published versions of a document |
| Documents.AnyNumberPublished | src/project_agent/infrastructure/db/repositories/documents.py:100-130 | For every number there is a history with that many published versions of one document |
| Documents.PublicationTakesEffectExactly | src/project_agent/application/use_cases/publish_document.py:99-143 | A publication takes effect exactly for an APPROVED version with a finished ingestion and a predecessor, if any, that is PUBLISHED and of the same document; that version is then PUBLISHED now, the predecessor SUPERSEDED, and every other row as before; any other attempt leaves the library as it was |
| Documents.QueryIsResult | src/project_agent/infrastructure/db/repositories/authorization.py:104-118 | The query yields exactly the PUBLISHED versions of the project, by document and descending number |
| Documents.ListPublishedAccess | src/project_agent/infrastructure/db/repositories/authorization.py:101-131 | The ordered scan yields exactly the current versions of the project, one per document |
| Documents.LeadersAreCurrent | src/project_agent/infrastructure/db/repositories/evidence_governance.py:32-72 | The first row of each document is the version the evidence metadata calls current |
| Documents.SwapMovesTheScope | src/project_agent/infrastructure/db/repositories/documents.py:100-130 | A published version becomes current exactly when no later one of its document is published |
| TokenBucket.Limiter.Acquire | src/project_agent/workers/rate_limit.py:33-51 | Uncontended, succeeds exactly when the deficit can refill within what is left of the timeout, and takes exactly its amount |
| TokenBucket.Limiter.TakeBy | src/project_agent/workers/rate_limit.py:39-51 | The loop takes the amount exactly when the deficit can refill before the deadline |
| TokenBucket.Limiter.Refill | src/project_agent/workers/rate_limit.py:53-58 | The in-place refill is the specified one |
| TokenBucket.SplitRefill | src/project_agent/workers/rate_limit.py:53-58 | Two refills equal one |
| TokenBucket.TokensStayInRange | src/project_agent/workers/rate_limit.py:33-58 | Under any interleaving tokens stay between zero and the capacity |
| TokenBucket.WindowBound | src/project_agent/workers/rate_limit.py:33-58 | From any state a bucket can be in, what a window of turns grants is at most capacity plus rate times its length |
| TokenBucket.GrantsAdd | src/project_agent/workers/rate_limit.py:33-58 | A window splits off a trace without changing what either part grants |
| TokenBucket.WaitSuffices | src/project_agent/workers/rate_limit.py:45-51 | Whoever sleeps out its deficit finds what it asked for |
| TokenBucket.RefillsAtTheRate | src/project_agent/workers/rate_limit.py:53-58 | ... and nobody sooner: the bucket holds an amount it is short of exactly from the moment on at which the rate has made up the deficit |
| PromptCache.PromptConfigService.Get | src/project_agent/application/services/prompt_config.py:45-50 | On a faithful cache, finds an answer exactly under a stamp no older than `ttl`, namely the text of the version it names, and never a missing entry |
| PromptCache.PromptConfigService.Store | src/project_agent/application/services/prompt_config.py:51-63 | Returns the record it was given; lookups of the key find it for `ttl` and no longer, lookups of other keys find what they did; the cache stays faithful |
| PromptCache.PromptConfigService.Invalidate | src/project_agent/application/services/prompt_config.py:65-72 | Removes exactly the entries and the pointer of the key, or everything: no lookup of it finds anything, other keys are found as before |
| PromptCache.DropForcesARead | src/project_agent/application/services/prompt_config.py:65-72 | A lookup that begins right after an invalidation of its key reads the repository |
| PromptCache.FinishServesTheNext | src/project_agent/application/services/prompt_config.py:45-63 | What a lookup brought in answers the next lookup of its key at once, within `ttl` of the start of the first |
| PromptCache.NeverDangling | src/project_agent/application/services/prompt_config.py:47-50 | Under every interleaving, no lookup follows a latest pointer to a missing entry |
| PromptCache.StaleByAtMostTtl | src/project_agent/application/services/prompt_config.py:45-63 | What a lookup returned is what the repository would have answered at some moment no more than `ttl` before the lookup began and no later than it returned |
| CrossProject.CountViolations | src/project_agent/evaluation/metrics.py:401-440 | The metric's loops compute the specified count of one trial |
| CrossProject.CountCase | src/project_agent/evaluation/scoring.py:90-126 | The per-case loops compute the specified count |
| CrossProject.CaseAtMostMetric | src/project_agent/evaluation/scoring.py:100-126 | The per-case count never exceeds the metric's |
| CrossProject.ViolationsAreZeroExactly | src/project_agent/evaluation/metrics.py:401-440 | The metric is zero exactly when no artifact retrieved or governed, and no document cited, belongs to another project |
| CrossProject.ZeroTogether | src/project_agent/evaluation/metrics.py:420-440 | Both are zero on the same trials whenever an evidence id names one artifact |
| CrossProject.ZeroTogetherExactly | src/project_agent/evaluation/metrics.py:401-440 | In general they are, with the exception of exactly the trials whose only foreign artifacts are shadowed |
| CrossProject.ShadowedDisagreement | src/project_agent/evaluation/scoring.py:90-97 | A trial on which one counter is zero and the other is not |
| Text.DecimalRoundTrip | src/project_agent/api/v1/runs.py:87-92 | Reading back a number written in decimal gives the number |
| Text.StripTrims | src/project_agent/application/services/runs.py:76 | Stripping takes off the white space at both ends, all of it and nothing else |

## Left out

- Jobs: delays and leases are exact reals; float rounding and overflow of `2.0 **` are not modelled, nor are the blank `aggregate_id` check, namespaces, metrics and the `updated_at` column.
- Engine: a transition system on values, because what is proved is about every interleaving of committed transactions; the transactions themselves also appear in place, in `Jobs.JobQueue` and `RunRows.RunRow`.
- Engine: only EXECUTE and RESUME jobs; the worker's heartbeat task appears as free heartbeat steps, graphs as arbitrary outcomes, and a graph's own writes to the run as artifact events.
- Runs.CreateRun: does not model thread lookup and the company checks before the run is created; authorization is a verdict passed in.
- RunRows: logging, metrics and the optional columns of the run row are left out; the repository is an append-only log with consecutive numbers.
- EventStream: rendering of an event as text and the pause between polls are left out; that a run has disappeared is an answer of the check.
- QueueLocks: a transaction reads committed rows under its locks, all at once; waiting of an owner's operation for a lock is the absence of its step, and deadlocks cannot arise, since no transaction waits while it holds a lock.
- IssueCreation: the payload hash is taken to be injective, so SHA-256 and canonical JSON are not modelled; the identifier extractor's finding is a field of the draft; the upper-casing of the stored error code is left out.
- IssueCreation: rolling back the sandbox tracker's transaction after the idempotency record was completed lies outside the model, in which a `create_issue` that returned is durable.
- IssueCreation: modelled as a transition system on values, because what is proved is about every interleaving between `await`s; only the provider also appears as a class.
- IssueRecovery.SandboxTracker.CreateIssue: other sessions interfere only between its lookup and its insert; all other interleavings are steps of the protocol.
- Evidence: scores are reals, so NaN and rounding in storage are left out; ids compare as numbers, which is how canonical UUID texts of one length compare.
- Governance: titles, categories, page numbers, sections and provider references are passed along by the source and left out here.
- Governance.Select: the sort of the standard library is a specification function with its own lemmas, not a loop.
- CitationGuard.Validate: the coverage ratio is given as the number of covered claims; the order of errors about conflicts follows the dictionary and is not specified.
- CitationGuard: disclosure labels are not checked for currency, because the guard does not check them; for packs it follows from `ConflictPolicy.PackIsAdmitted`.
- QaGraph: prompt texts, usage records, saved grades and the text of answers; checkpoint storage is represented by a start state with arbitrary left-overs; an exception in a node ends the run.
- QaGraph: nodes return state updates, so they are functions on the state; a refusal does not delete the citations of an earlier answer in the same row, which the model does not follow.
- QaGraph: which projects a user may select, which of the current versions are granted, and how identifiers constrain a plan are arbitrary inputs.
- Documents: titles, hashes, audit records and permissions; versions are never removed, so ids are positions.
- Documents.ListPublishedAccess: takes the ordered rows as a parameter; `Documents.Query` is a function that computes them, not a loop, since the database sorts.
- TokenBucket: floats are reals; the registry that makes one pair of buckets per model alias is left out, as are competing callers inside `Limiter.TakeBy`, whose turns are covered by the trace theorems.
- PromptCache: a repository failure is a call that finds nothing; content never changes for a version.
- CrossProject: target status, case ids and notes around the metric's count.
- The retrieval client, model adapters, HTTP routing, authentication, the object store, retention, cost estimates, regular-expression identifier extraction, and the evaluation runner are not modelled.
