# Agent platform: governance protocol and algorithms, verified

A Dafny model of the parts of an enterprise agent platform whose correctness is hardest to see
by reading: the durable ledger through which workers, human deciders and crash recovery share one
Run, and the algorithms around it (scheduling, incremental event consumption, canonicalisation,
redaction, failover, schema comparison, framing, budgets).

## How the model is built

**Ledger.** `LedgerState` holds the tables (sessions, Runs, tool executions, approvals,
interactions) and an append-only event log, with the single-row writes. `LedgerSteps` gives every
governance transaction as a function from tables to a commit or an abort; any interleaving of
workers, deciders, responders, cancellers and crashes is a sequence of these steps.
`LedgerInvariant` and `LedgerSafety` prove what every step keeps, `LedgerTheorems` that rows only
move forward, and `LedgerGuarantees` states the promises over every history. `LedgerEffects` says of
each transaction exactly when it commits on a reachable ledger, in terms of rows a caller can look
up beforehand, and exactly which rows and events it leaves. `LedgerStore` is the same set of transactions in the services' own form: a class whose methods rewrite rows one
statement at a time, roll back on a late failure, and are proved against the step functions.

**Run attempts.** `RunLease` interleaves job deliveries under an exclusive Run lease with every
ledger transaction, crashes and redeliveries; `RunContinuation` follows an answered interaction
through them.

**Algorithms.** `CronSchedule`, `CronScheduler`, `SteerController`, `DedupeRecorder`,
`CanonicalJson`, `PathRedaction`, `SchemaManifest`, `SchemaBuild`, `EndpointFailover`,
`QueryBytes`, `DbpmFrame` and `ToolBudget` each pair the code's form (loops, mutable fields) with
an independent definition. `JsonTree` holds ordered JSON values and their text, `JsonReader` reads
such text back by the grammar of RFC 8259, `Text` and `Sorting` shared string and ordering facts, `Statuses` the vocabularies and transition tables.

Verify with `dafny verify dfyconfig.toml`.

## Where the code does not do what one would expect

- A plain object that owns a `__proto__` key loses it: `out[k] = …` on a fresh object creates no
  own key. `CanonicalJson.ProtoKeyIsDropped` gives an input, `CanonicalJson.FullUnfoldingIff` the
  exact condition under which the result is the whole unfolding.
- A root such as `workspace/` contains a slash, but after trimming the token `<workspace>` spells
  it. `PathRedaction.TrimmedSlashIsNotEnough` gives the input, `PathRedaction.RootSurvivesIff` the
  exact condition. Redacting twice is then not redacting once:
  `PathRedaction.TokenRootIsNotIdempotent` gives the input, `PathRedaction.IdempotentIff` the exact
  condition.
- The schema comparison asks `name in expected`, which is true for every name plain objects
  inherit. An extra object named `constructor` is not reported
  (`SchemaManifest.InheritedExtraIsOverlooked`); `SchemaManifest.EmptyDiffIff` says exactly what an
  empty result means, `SchemaManifest.OrdinaryDiffIsExact` that it is exact otherwise, and
  `SchemaManifest.EmptyDiffIsTrueIff` exactly when an empty result is still true.
- A comment in the start transaction says an approval is a claim on a parked call; the code does
  not look at the approval id when the row is still PROPOSED.
  `LedgerGuarantees.UncheckedApprovalOnProposedRow` gives a reachable input,
  `LedgerGuarantees.PresentingStartCommitsIff` the exact condition.
- An answer can become APPLIED between an attempt's take-up and its entry into the executor, and
  the entry still happens. `RunContinuation.AppliedAtEntryIff` gives the exact window.
- A manual run at the very instant of a pending slot makes every later batch that contains the job
  fail, for the other due jobs as well: `CronScheduler.ManualRunCanStick`,
  `CronScheduler.StuckIsForever`.
- Approval requests are not restricted to calls that have not started: the safety results hold
  without that restriction.

## Model

| member | source | states |
|---|---|---|
| `LedgerGuarantees.ParkedCallStartsOnce` | agent/src/application/fenced-tool-governance-recorder.ts:916-1040 | Over every history a call parked for approval enters RUNNING at most once, by a start that presents an APPROVED approval of that same execution with its recorded name and arguments under the current fence |
| `LedgerGuarantees.ParkedCallStartsIff` | agent/src/application/fenced-tool-governance-recorder.ts:901-1046 | Exactly which step moves a parked call into RUNNING, both directions |
| `LedgerGuarantees.ApprovalConsumedOnce` | agent/src/application/approved-replay-claim.ts:91-106 | Of any number of racing starts that present an approval for one call, at most one commits, whether or not the approval was looked at |
| `LedgerGuarantees.PresentingStartCommitsIff` | agent/src/application/fenced-tool-governance-recorder.ts:916-1046 | Exactly when a start that presents an approval commits: on a parked row with its granted approval, or on a PROPOSED row whatever the approval |
| `LedgerGuarantees.PresentedApprovalCountsIffParked` | agent/src/application/fenced-tool-governance-recorder.ts:922-955 | In every history a committed start that presents an approval rests on a granted one if and only if the row was parked |
| `LedgerGuarantees.UncheckedApprovalOnProposedRow` | agent/src/application/fenced-tool-governance-recorder.ts:1004-1024 | A reachable start that names a non-existent approval on a PROPOSED row and commits |
| `LedgerGuarantees.RejectedCallNeverRuns` | agent/src/application/approval-decision-service.ts:206-281 | A call whose approval is rejected at any point of a history is RUNNING at no point of it, before or after |
| `LedgerGuarantees.VerdictsAreFinal` | agent/src/infrastructure/mysql/repositories/approval-repository.ts:320-365 | Settled approvals, given answers and terminal results never change; a call's name, arguments, policy fingerprint and dispatch binding are written once |
| `LedgerGuarantees.AnsweredToolSucceeded` | agent/src/application/interaction-response-service.ts:151-196 | In every state an answered interaction's tool is SUCCEEDED with exactly that answer as result |
| `LedgerGuarantees.OpenQuestionsParkTheRun` | agent/src/application/fenced-tool-governance-recorder.ts:502-647 | A Run has at most one pending approval and one pending interaction, and waits in the matching status while it has one |
| `LedgerGuarantees.RunningRunHasNoOpenQuestion` | agent/src/application/execute-run-service.ts:892-1110 | A RUNNING Run has no pending approval and no pending interaction, in every reachable state |
| `LedgerGuarantees.ToolEventsAreStartThenEnd` | agent/src/application/fenced-tool-governance-recorder.ts:1004-1062 | Any two tool events of one execution are a start followed by an end: at most one of each, none after the end |
| `LedgerGuarantees.TerminalEventMatchesStatus` | agent/src/application/fenced-tool-governance-recorder.ts:1163-1260 | A completed event means stored SUCCEEDED, a failed event FAILED, UNKNOWN or CANCELLED, a started event at least RUNNING |
| `LedgerGuarantees.EndedToolIsAnnounced` | agent/src/application/fenced-tool-governance-recorder.ts:1371-1438 | Every ended execution has its terminal event, unless policy denied it before it began |
| `LedgerGuarantees.QuestionEventsMatchRows` | agent/src/application/fenced-tool-governance-recorder.ts:607-647 | Requested, resolved, answered and cancelled events occur exactly as often as the rows say |
| `LedgerGuarantees.LogReplaysRuns` | agent/src/application/run-transition.ts:42-160 | Replaying the log gives every Run's stored status, along legal edges only |
| `LedgerGuarantees.CancelledRunHasNoOpenTool` | agent/src/application/run-open-tools-close.ts:33-72 | Every way of reaching CANCELLED leaves all tool executions of the Run terminal |
| `LedgerGuarantees.StaleHolderNeverCommits` | agent/src/infrastructure/mysql/repositories/agent-session-repository.ts:610-645 | Once a session's fence has passed a holder's token nothing that holder attempts commits, for ever after |
| `LedgerGuarantees.AcquireMakesEarlierHoldersStale` | agent/src/application/dsh-run-executor.ts:363-378 | Acquiring a fence makes every earlier token of the session ineffective |
| `LedgerGuarantees.LogIsFenceOrdered` | agent/src/application/fenced-run-event-recorder.ts:198-271 | Recorder events of a session appear in non-decreasing fence order |
| `LedgerGuarantees.AskDecideResume` | agent/src/application/approval-decision-service.ts:147-288 | The protocol gets through: from any invariant state with a proposed call, asking, deciding and resuming all commit, the Run is RUNNING again, and the presented replay starts the call if and only if it was approved |
| `LedgerGuarantees.AskAnswerResumeApply` | agent/src/application/interaction-response-service.ts:93-212 | A question to the user gets through: asking, answering, resuming and checkpointing all commit, the tool carries the answer and the interaction ends APPLIED |
| `LedgerEffects.FirstDecisionCommitsIff` | agent/src/application/fenced-tool-governance-recorder.ts:262-440 | A first policy decision is accepted exactly under the current fence, for the recorder's own call, on a row that has none and is untouched |
| `LedgerEffects.FirstDecisionDecides` | agent/src/application/fenced-tool-governance-recorder.ts:283-363 | What a first decision leaves: a denied call is FAILED, an allowed one RUNNING if its start was already announced and PROPOSED otherwise, one that needs approval PROPOSED; the decision is stored and audited once, and a start event appears only with a start |
| `LedgerEffects.ReplayCommitsIff` | agent/src/application/durable-policy-replay.ts:47-152 | A decision on a decided call is accepted exactly if it is the recorded one and the call stands where that decision can have left it |
| `LedgerEffects.DecisionReplaysSilently` | agent/src/application/durable-policy-replay.ts:47-152 | Repeating a first decision at once commits again and changes nothing |
| `LedgerEffects.DeniedCallNeverRuns` | agent/src/application/fenced-tool-governance-recorder.ts:283-363 | A call whose first decision was a denial is RUNNING in no state of the history, before or after |
| `LedgerEffects.StaleIffNotFenced` | agent/src/infrastructure/mysql/repositories/agent-session-repository.ts:610-645 | A recorder is turned away for its fence exactly when its token is not the current one |
| `LedgerEffects.PlainStartCommitsIff` | agent/src/application/fenced-tool-governance-recorder.ts:878-1068 | Exactly when a start without an approval commits; never on a parked call |
| `LedgerEffects.PreflightLeavesParkedCalls` | agent/src/application/fenced-tool-governance-recorder.ts:916-955 | Exactly when a preflight of a parked call succeeds, and that it changes nothing |
| `LedgerEffects.StartBinds` | agent/src/application/tool-dispatch-binding.ts:27-63 | A committed start leaves a dispatched sandbox call bound to this request and fence, and any other binding alone |
| `LedgerEffects.EndCommitsIff` | agent/src/application/fenced-tool-governance-recorder.ts:1079-1275 | Exactly when an end commits, a repeated end with the same outcome included |
| `LedgerEffects.EndIsAnnouncedIffMoved` | agent/src/application/fenced-tool-governance-recorder.ts:1163-1260 | An end that moves the row announces it once and then the artifact of a success; a repeated end is silent |
| `LedgerEffects.UnknownCommitsIff` | agent/src/application/fenced-tool-governance-recorder.ts:1294-1444 | Exactly when an unknown outcome is recorded, and that the row is then UNKNOWN with the given result |
| `LedgerEffects.ApprovalRequestCommitsIff` | agent/src/application/fenced-tool-governance-recorder.ts:469-660 | Exactly when an approval request commits: an own call of a RUNNING Run with nothing asked, or of a waiting Run with this very approval pending |
| `LedgerEffects.ApprovalRequestParks` | agent/src/application/fenced-tool-governance-recorder.ts:502-647 | A first request parks the call, asks once and suspends the Run; a repeated one changes nothing at all |
| `LedgerEffects.InputRequestCommitsIff` | agent/src/application/fenced-tool-governance-recorder.ts:684-870 | Exactly when a question to the user commits |
| `LedgerEffects.InputRequestParks` | agent/src/application/fenced-tool-governance-recorder.ts:684-870 | A first question starts the call silently, asks once and suspends the Run; a repeated one asks nothing |
| `LedgerEffects.DecisionCommitsIff` | agent/src/application/approval-decision-service.ts:147-288 | Exactly when a verdict commits, repeated verdicts included |
| `LedgerEffects.DecisionIsAnnouncedOnce` | agent/src/application/approval-decision-service.ts:224-281 | The rows and events a verdict leaves; a repeated verdict changes nothing |
| `LedgerEffects.AnswerCommitsIff` | agent/src/application/interaction-response-service.ts:93-212 | Exactly when an answer commits |
| `LedgerEffects.AnswerIsAnnouncedOnce` | agent/src/application/interaction-response-service.ts:151-212 | The end of the call and the answer are announced once each; a repeated answer is silent |
| `LedgerEffects.ApprovalResumeCommitsIff` | agent/src/application/execute-run-service.ts:892-997 | Exactly when an approval resume commits: parked, nothing pending, and the newest approval granted with its call parked or rejected with its call FAILED |
| `LedgerEffects.InputResumeCommitsIff` | agent/src/application/execute-run-service.ts:999-1119 | Exactly when an input resume commits: parked, nothing pending, and the newest answer not applied with its call SUCCEEDED; it claims that answer |
| `LedgerEffects.CheckpointCommitsIff` | agent/src/infrastructure/mysql/repositories/interaction-repository.ts:422-458 | Exactly when a checkpoint commits and what it leaves |
| `LedgerEffects.CasEffect` | agent/src/application/run-open-tools-close.ts:33-72 | A compare-and-set moves the Run and nothing else, except that reaching CANCELLED closes every open call of the Run: a RUNNING one as UNKNOWN, any other as CANCELLED |
| `LedgerEffects.CancelParkedApprovalEffect` | agent/src/application/parked-approval-cancel.ts:44-186 | Commits exactly while the Run is parked on approvals; withdraws its pending approvals, cancels its open calls and ends it CANCELLED |
| `LedgerEffects.CancelParkedInputEffect` | agent/src/application/parked-interaction-cancel.ts:68-260 | Commits exactly while the Run is parked and the question's call has no unknown outcome; withdraws the open question, cancels its call and closes the others |
| `LedgerEffects.FenceCommitsIff` | agent/src/infrastructure/mysql/repositories/agent-session-repository.ts:497-608 | A fence is handed out exactly to an active session for its own RUNNING Run, and is always the next number |
| `LedgerEffects.NotFoundIff` | agent/src/infrastructure/mysql/repositories/tool-execution-repository.ts:573-765 | On a reachable ledger every operation answers "not found" exactly when a row it is about is missing |
| `LedgerEffects.PolicyConflictIff` | agent/src/application/durable-policy-replay.ts:47-152 | A policy conflict is the answer exactly to another decision on a decided call |
| `LedgerEffects.SettledConflictIff` | agent/src/application/fenced-tool-governance-recorder.ts:560-606 | And to an approval request about a call whose approval is settled |
| `LedgerSteps.PolicyReplayOnlyDenies` | agent/src/application/durable-policy-replay.ts:47-152 | When a re-evaluated decision is accepted (if and only if) and that it then at most denies an unstarted call, without event or audit |
| `LedgerSteps.StartIsAnnouncedIffMoved` | agent/src/application/fenced-tool-governance-recorder.ts:1004-1062 | A start event is written exactly when the row moved into RUNNING |
| `LedgerSteps.EndRecordsOutcome` | agent/src/application/fenced-tool-governance-recorder.ts:1163-1223 | A committed end leaves the reported status and result |
| `LedgerSteps.DecisionIsRecorded` | agent/src/application/approval-decision-service.ts:224-267 | A committed decision is stored as made; approving keeps the call parked, rejecting fails it |
| `LedgerTheorems.StepAdvance` | agent/src/infrastructure/mysql/repositories/tool-execution-repository.ts:1020-1107 | No transaction moves a row backwards, rewrites a settled one, a policy fingerprint or a dispatch binding, or truncates the log |
| `LedgerSafety.StepKeeps` | agent/src/application/fenced-tool-governance-recorder.ts:262-1444 | Every transaction of every actor keeps the whole ledger invariant |
| `LedgerStore.Ledger.RecordPolicyDecision` | agent/src/application/fenced-tool-governance-recorder.ts:262-440 | The policy transaction, write by write with rollback, equals its step and keeps the invariant |
| `LedgerStore.Ledger.AskApproval` | agent/src/application/fenced-tool-governance-recorder.ts:469-660 | The approval request transaction, including the rollback of a park that finds the Run already waiting |
| `LedgerStore.Ledger.AskInput` | agent/src/application/fenced-tool-governance-recorder.ts:684-870 | The interaction request transaction |
| `LedgerStore.Ledger.RecordToolStarted` | agent/src/application/fenced-tool-governance-recorder.ts:878-1068 | The start transaction: transition, binding, then event, or nothing |
| `LedgerStore.Ledger.BindRequest` | agent/src/application/tool-dispatch-binding.ts:27-63 | The write-once dispatch binding |
| `LedgerStore.Ledger.GetOrCreateTool` | agent/src/infrastructure/mysql/repositories/tool-execution-repository.ts:573-765 | Insert-if-absent with identity check and one-time policy adoption |
| `LedgerStore.Ledger.RecordToolEnded` | agent/src/application/fenced-tool-governance-recorder.ts:1079-1275 | The end transaction |
| `LedgerStore.Ledger.RecordToolUnknown` | agent/src/application/fenced-tool-governance-recorder.ts:1294-1444 | The unknown-outcome transaction |
| `LedgerStore.Ledger.Resolve` | agent/src/application/approval-decision-service.ts:147-288 | The decision transaction |
| `LedgerStore.Ledger.Answer` | agent/src/application/interaction-response-service.ts:93-212 | The answer transaction, rolled back when the tool cannot take the answer |
| `LedgerStore.Ledger.ResumeAfterApproval` | agent/src/application/execute-run-service.ts:892-997 | The approval resume transaction |
| `LedgerStore.Ledger.ResumeAfterInput` | agent/src/application/execute-run-service.ts:999-1119 | The input resume transaction with its claim |
| `LedgerStore.Ledger.CloseOpenTools` | agent/src/application/run-open-tools-close.ts:33-72 | The closing loop equals its recursive definition |
| `LedgerStore.Ledger.CancelWaitingApproval` | agent/src/application/parked-approval-cancel.ts:44-186 | Cancelling a Run parked on an approval, loops included |
| `LedgerStore.Ledger.CancelWaitingInput` | agent/src/application/parked-interaction-cancel.ts:68-260 | Cancelling a Run parked on an interaction |
| `LedgerStore.Ledger.FindResolvedByDigest` | agent/src/application/approved-replay-claim.ts:51-89 | The oldest claimable approval for a name and argument fingerprint, or none exactly when there is none |
| `LedgerStore.Ledger.Consume` | agent/src/application/approved-replay-claim.ts:91-106 | Claiming: refused on a fingerprint mismatch, otherwise the start transaction; success means RUNNING |
| `RunLease.ExecutorEntryIsEarned` | agent/src/application/execute-run-service.ts:423-583 | Whatever crashes, redeliveries and other transactions happen, an attempt that entered the executor moved the Run into RUNNING itself, or found it RUNNING and continues an answer that is CLAIMED or by now APPLIED and whose tool SUCCEEDED |
| `RunLease.PromptsRestOnDistinctMoves` | agent/src/application/execute-run-service.ts:543-555 | No two attempts rest on the same move into RUNNING |
| `RunLease.OneAttemptAtATime` | agent/src/application/execute-run-service.ts:190-255 | At most one attempt is between lease and release |
| `RunLease.OnlyTheLeaseHolderStarts` | agent/src/application/run-recovery-service.ts:575-800 | No transaction outside the lease brings a Run into RUNNING |
| `RunLease.ContinuationByPhase` | agent/src/application/execute-run-service.ts:1126-1181 | A continuation is taken up if and only if the newest one is CLAIMED with a SUCCEEDED tool; APPLIED goes to the finishing branch |
| `RunLease.AppliedFinishesTheRun` | agent/src/application/execute-run-service.ts:1183-1210 | The applied branch ends the Run without a prompt |
| `RunContinuation.UnmovedPromptTookUpAClaim` | agent/src/application/execute-run-service.ts:1126-1181 | An attempt that entered the executor without a move of its own took up, at a definite step of its own, the newest continuation in phase exactly CLAIMED with its tool SUCCEEDED |
| `RunContinuation.AppliedIsNeverTakenUp` | agent/src/application/execute-run-service.ts:1059-1080 | Once APPLIED, an interaction is never again taken up or claimed by any attempt |
| `RunContinuation.LaterAttemptsLeaveItAlone` | agent/src/application/execute-run-service.ts:1126-1181 | An attempt delivered after an interaction was APPLIED never continues it |
| `RunContinuation.FoundAppliedNeverPrompts` | agent/src/application/execute-run-service.ts:489-500 | An attempt that finds the newest continuation APPLIED prompts at no later time |
| `RunContinuation.AppliedIffCheckpointed` | agent/src/infrastructure/mysql/repositories/interaction-repository.ts:422-458 | From its claim on an interaction is APPLIED if and only if a checkpoint of it has committed, and CLAIMED otherwise |
| `RunContinuation.AppliedAtEntryIff` | agent/src/application/execute-run-service.ts:489-583 | The exact window: at entry the continued answer is APPLIED if and only if its checkpoint committed between take-up and entry |
| `RunContinuation.AppliedMeanwhileStillPrompts` | agent/src/application/dsh-run-resume.ts:215-265 | The window is real: such a checkpoint does not stop the entry |
| `RunLease.WithoutExclusionTheLoserPrompts` | agent/src/application/execute-run-service.ts:543-583 | Without exclusion the attempt that loses the race to RUNNING would prompt too: the lease is needed |
| `RunLease.AttemptPromptsIff` | agent/src/application/execute-run-service.ts:379-583 | A delivery that has the Run to itself enters the executor if and only if the Run can be carried on: from ACCEPTED, RETRYING and QUEUED always, from WAITING_APPROVAL and WAITING_INPUT exactly when the resume commits, from RUNNING exactly with a claimed answer; on its own move into RUNNING, or with that answer |
| `RunLease.RedeliveryPromptsIff` | agent/src/application/execute-run-service.ts:190-255 | When a holder of the lease is gone, wherever it stood, the next delivery carries the Run on under the same condition |
| `RunLease.CancelSeenNeverPrompts` | agent/src/application/execute-run-service.ts:401-569 | A cancellation seen at any check sends that attempt to settle the Run and keeps it out of the executor for ever after |
| `RunLease.GoesOnToSettle` | agent/src/application/execute-run-service.ts:451-453 | An attempt on a CANCELLING Run, and one that comes out of the executor, go on to settle the Run |
| `RunLease.SettleMovesIff` | agent/src/application/run-transition.ts:42-160 | Settling moves the Run exactly along an edge from the status it is in |
| `RunLease.SettlesOnlyForAReason` | agent/src/application/execute-run-service.ts:392-583 | An attempt comes to settle the Run only out of the executor, after a cancellation it saw, or on a Run it found CANCELLING |
| `RunLease.RecoveryCancelIff` | agent/src/application/run-recovery-service.ts:575-800 | Recovery closes a Run exactly when it is STARTING and nobody holds its lease |
| `CronSchedule.ParseField` | agent/src/application/cron-schedule.ts:62-98 | A field is rejected exactly when an item is malformed, and otherwise holds exactly its denotation |
| `CronSchedule.FieldRoundTrip` | agent/src/application/cron-schedule.ts:67-96 | A written-out list of items parses to the union of their ranges |
| `CronSchedule.ItemRoundTrip` | agent/src/application/cron-schedule.ts:70-93 | Numbers, ranges, stars and steps parse to what they stand for |
| `CronSchedule.ItemAcceptedIff` | agent/src/application/cron-schedule.ts:48-95 | An item is accepted, with its range, if and only if it spells a star, a number in range or an ascending span, with or without a step, blanks and leading zeros allowed |
| `CronSchedule.InRangeIff` | agent/src/application/cron-schedule.ts:95-95 | A value is in a range exactly when a number of steps from its start leads to it |
| `CronSchedule.WordsOfSpaced` | agent/src/application/cron-schedule.ts:108-108 | However the fields are set apart by blanks, they are found again |
| `CronSchedule.ParseCronExpression` | agent/src/application/cron-schedule.ts:104-121 | Five well-formed fields, or rejection |
| `CronSchedule.MatchesTraditionalCron` | agent/src/application/cron-schedule.ts:146-163 | Day fields combine by OR when both are constrained and by AND otherwise; Sunday is 0 or 7 |
| `CronSchedule.NextCronOccurrence` | agent/src/application/cron-schedule.ts:169-187 | The least firing whole minute strictly after the instant, or failure exactly when none lies in the 370-day window |
| `CronScheduler.RowsAreTheFirstOccurrences` | agent/src/application/cron-job-service.ts:369-430 | After any batches at any clock times the scheduler-made rows stand at exactly the first occurrences since creation, in order, none skipped, none repeated |
| `CronScheduler.NextRunFollowsTheRows` | agent/src/application/cron-job-service.ts:229-234 | The next run is the occurrence right after the latest row |
| `CronScheduler.OnceRunsOnce` | agent/src/application/cron-job-service.ts:229-234 | A one-time job gets at most one scheduler row, at exactly its own instant |
| `CronScheduler.CreatedIff` | agent/src/application/cron-job-service.ts:229-234 | A job is taken on unless it is enabled and its expression fires nowhere in the search window; a disabled one has no next run |
| `CronScheduler.JobStaysLive` | agent/src/application/cron-job-service.ts:181-234 | A job keeps the terms it was created with, and one created enabled stays live until deleted: a recurring job always has a next slot and stays enabled, a one-time job until it has its row |
| `CronScheduler.DeletedJobGetsNoRows` | agent/src/application/cron-job-service.ts:317-323 | A deleted job gets no further row, scheduled or manual |
| `CronScheduler.BatchFailsIff` | agent/src/application/cron-job-service.ts:399-416 | A batch is rolled back exactly when a job has no next occurrence in the window or a manual run took its slot |
| `CronScheduler.BatchCommitsIff` | agent/src/application/cron-job-service.ts:369-430 | A batch commits exactly when none of its jobs is stuck, and then every job has its row, SKIPPED exactly for lateness or overlap |
| `CronScheduler.StuckIsForever` | agent/src/application/cron-job-service.ts:399-416 | A stuck job stays stuck and every later batch that contains it is rolled back, other due jobs included |
| `CronScheduler.ManualRunCanStick` | agent/src/application/cron-job-service.ts:432-452 | A manual run at the instant of a pending slot sticks its job |
| `CronScheduler.ManualRunIff` | agent/src/application/cron-job-service.ts:432-452 | Exactly when a manual run is taken on, and the row it gets |
| `CronScheduler.ClaimAllRows` | agent/src/application/cron-job-service.ts:390-411 | A batch adds one row per claimed job at its due instant, SKIPPED exactly when late under the skip policy or overlapping under the forbid policy, otherwise CLAIMED |
| `CronScheduler.ForbiddenOverlapNeverHappens` | agent/src/application/cron-job-service.ts:384-389 | A job that forbids overlap never has two open executions, scheduled or manual, as long as no status update reopens one |
| `CronScheduler.CronStore.ClaimDueJobs` | agent/src/application/cron-job-service.ts:369-430 | The claim loop commits as a whole or leaves no trace; handed out are exactly the executions whose new row is CLAIMED, each once and in order; its residual-token check never fires |
| `SteerController.FoldIsOutstanding` | agent/src/application/durable-steer-controller.ts:115-127 | The event-by-event state is exactly the accepted requests without a delivered event, in order |
| `SteerController.ReadOne` | agent/src/application/durable-steer-controller.ts:114-127 | Reading one more event keeps step with the one-shot fold even after deliveries whose events are still unread |
| `SteerController.Controller.ReadNewEvents` | agent/src/application/durable-steer-controller.ts:105-131 | After paging, with events arriving between pages, the pending list is what is outstanding in the log |
| `SteerController.Controller.PollOnce` | agent/src/application/durable-steer-controller.ts:137-159 | With events arriving between pages and between deliveries: up to the first failure every outstanding request is steered and then recorded, in order; the failed one and all later ones are kept |
| `DedupeRecorder.OneEventPerKey` | agent/src/application/fenced-run-event-recorder.ts:116-146 | In every interleaving at most one event per dedupe key commits |
| `DedupeRecorder.SeenIsReleasedCommits` | agent/src/application/fenced-run-event-recorder.ts:116-146 | The seen set is exactly the released commits' keys and disjoint from the keys in flight |
| `DedupeRecorder.JoinersGetTheOwnersResult` | agent/src/application/fenced-run-event-recorder.ts:178-187 | A joiner returns what the owner of its key released |
| `DedupeRecorder.FailureLeavesKeyClaimable` | agent/src/application/fenced-run-event-recorder.ts:130-146 | After a failed owner the next call owns the key |
| `DedupeRecorder.CommittedKeyStaysClosed` | agent/src/application/fenced-run-event-recorder.ts:117-119 | A released commit closes its key for good |
| `DedupeRecorder.OwnReturnIff` | agent/src/application/fenced-run-event-recorder.ts:271-287 | Over every interleaving a call that joined nobody returns an event exactly when its release found it committed and emitting it did not throw, and it is the event this call wrote |
| `DedupeRecorder.WriterReturnsItsEvent` | agent/src/application/fenced-run-event-recorder.ts:190-292 | Every event, with or without a key, has one writer that wrote nothing else and ends by returning it, or by throwing because emitting it threw |
| `DedupeRecorder.DuplicateIff` | agent/src/application/fenced-run-event-recorder.ts:178-183 | A call that joined nobody is told "duplicate" exactly when its key had been recorded when it began |
| `DedupeRecorder.ThrewIff` | agent/src/application/fenced-run-event-recorder.ts:287-295 | A call throws exactly when its transaction failed or emitting its event threw |
| `DedupeRecorder.FreshCallRecords` | agent/src/application/fenced-run-event-recorder.ts:164-287 | An undisturbed call with a new key, or none, records one event and returns it |
| `DedupeRecorder.FailedCallThrows` | agent/src/application/fenced-run-event-recorder.ts:287-295 | A failed call leaves no event and frees its key |
| `DedupeRecorder.JoinerReturnsIff` | agent/src/application/fenced-run-event-recorder.ts:184-186 | A woken joiner returns exactly when the owner has let go |
| `DedupeRecorder.Recorder.BeginRecord` | agent/src/application/fenced-run-event-recorder.ts:116-185 | Claim, join or duplicate, as its step |
| `DedupeRecorder.Recorder.ReleaseClaim` | agent/src/application/fenced-run-event-recorder.ts:130-146 | Mark on success, always drop the claim, settle the promise, return the event |
| `CanonicalJson.Canonicalizer.Canonicalize` | agent/src/application/canonical-json.ts:46-118 | The stack-based walk terminates, equals its recursive definition, property order included, and restores the stack on every way out |
| `CanonicalJson.AcceptedIff` | agent/src/application/canonical-json.ts:46-118 | Accepted exactly when nothing unsupported is reachable and no walk meets a node twice |
| `CanonicalJson.CircularIffCycle` | agent/src/application/canonical-json.ts:82-86 | On plain data the circular error is raised exactly when a cycle is reachable; shared nodes are fine |
| `CanonicalJson.AcyclicFaultIsUnsupported` | agent/src/application/canonical-json.ts:53-78 | Without a cycle only unsupported values are refused |
| `CanonicalJson.CanonUnfolds` | agent/src/application/canonical-json.ts:84-113 | The result is the unfolding in enumeration order, less own `__proto__` keys |
| `CanonicalJson.CanonIsSorted` | agent/src/application/canonical-json.ts:101-109 | Every object in the result lists its keys in order: array indices by value, then the rest sorted |
| `CanonicalJson.UnfoldingIsUnique` | agent/src/application/canonical-json.ts:84-113 | A value has one unfolding, property order included |
| `CanonicalJson.FullUnfoldingIff` | agent/src/application/canonical-json.ts:101-109 | The full unfolding is returned exactly when no reachable object owns `__proto__` |
| `CanonicalJson.ProtoKeyIsDropped` | agent/src/application/canonical-json.ts:101-109 | A concrete input whose key is lost |
| `CanonicalJson.LookAlikesHaveOneForm` | agent/src/application/canonical-json.ts:46-118 | Bisimilar inputs, however shared or ordered, are accepted together with the same ordered form |
| `CanonicalJson.LookAlikesHaveOneText` | agent/src/application/canonical-json.ts:126-138 | Inputs that differ only in sharing and key order give the same string |
| `CanonicalJson.SameTextMeansSameTree` | agent/src/application/canonical-json.ts:126-138 | Two accepted inputs give the same string if and only if they have a common unfolding |
| `CanonicalJson.TextReadsBack` | agent/src/application/canonical-json.ts:126-138 | A text that comes out fits the byte limit in UTF-8 and reads back, by the grammar of RFC 8259, as the key-sorted unfolding of the value |
| `CanonicalJson.TooLargeIff` | agent/src/application/canonical-json.ts:129-137 | Refused as too large exactly if accepted and its UTF-8 text passes the limit |
| `JsonTree.SameTextIffSameTree` | agent/src/application/canonical-json.ts:128-129 | JSON text determines the value and its property order |
| `JsonReader.ValueReadsBack` | agent/src/application/canonical-json.ts:129-129 | Reading by the grammar of RFC 8259 gives back every printed value, whatever follows it |
| `JsonTree.IndexIff` | agent/src/application/canonical-json.ts:101-109 | The keys that enumerate first are exactly the decimals below 2^32 - 1 |
| `JsonTree.PutKeepsOrder` | agent/src/application/canonical-json.ts:102-108 | Assigning keys in sorted order keeps an object in enumeration order |
| `CanonicalJson.KeyOrderIsIrrelevant` | agent/src/application/canonical-json.ts:101-109 | Key order of the input is invisible in the ordered result and in which error is raised |
| `PathRedaction.RedactPhysicalPaths` | contract/src/errors.ts:103-123 | No given or default root with a slash after trimming is readable in the output |
| `PathRedaction.NoRootSurvives` | contract/src/errors.ts:117-120 | Nested, overlapping and prefix-related roots included |
| `PathRedaction.RootSurvivesIff` | contract/src/errors.ts:107-123 | Exactly when a bracket-free root is still readable |
| `PathRedaction.RedactIsIdempotent` | contract/src/errors.ts:117-123 | Redacting twice equals redacting once when no root is spelled by the token |
| `PathRedaction.IdempotentIff` | contract/src/errors.ts:103-123 | For bracket-free roots, redacting twice equals once if and only if no root is spelled by the token or the text mentions neither a root nor the token |
| `PathRedaction.WholeRootBecomesToken` | contract/src/errors.ts:115-120 | Longest first: a text that is a root becomes one token |
| `PathRedaction.ReplaceAtFirst` | contract/src/errors.ts:117-120 | Replacing goes on behind the first occurrence and keeps what is in front of it |
| `PathRedaction.CollapseAtFirst` | contract/src/errors.ts:121-122 | Collapsing drops one token of the first adjacent pair and goes on with the other |
| `PathRedaction.SurroundingsAreKept` | contract/src/errors.ts:117-123 | A root in a text that mentions no other becomes one token and the text around it is kept to the letter |
| `PathRedaction.NormaliseRoots` | contract/src/errors.ts:107-115 | Trimmed, non-empty, distinct roots with the defaults, longest first, those of one length in the order given |
| `PathRedaction.TrimmedSlashIsNotEnough` | contract/src/errors.ts:108-113 | A root whose only slash is trimmed stays readable |
| `PathRedaction.TokenRootIsNotIdempotent` | contract/src/errors.ts:117-123 | And redacting again changes the text |
| `SchemaManifest.DiffSchemaManifest` | contract/src/schema-manifest.ts:328-373 | The reported drifts, exactly, and when the list is empty |
| `SchemaManifest.DiffNamed` | contract/src/schema-manifest.ts:303-325 | The drifts of one named collection, exactly |
| `SchemaManifest.EmptyDiffIff` | contract/src/schema-manifest.ts:328-373 | No drift exactly when what the comparison sees matches the release |
| `SchemaManifest.OrdinaryDiffIsExact` | contract/src/schema-manifest.ts:328-373 | Sound and complete when no extra object has an inherited name |
| `SchemaManifest.EmptyDiffIsTrueIff` | contract/src/schema-manifest.ts:328-373 | An empty diff means a match if and only if every overlooked extra is an allowed table or lies inside a bookkeeping table |
| `SchemaManifest.InheritedExtraIsOverlooked` | contract/src/schema-manifest.ts:322-324 | A concrete extra object that goes unreported |
| `SchemaBuild.BuildSchemaManifest` | contract/src/schema-manifest.ts:139-257 | The map-filling loops build the manifest defined table by table, with the key order of every record |
| `SchemaBuild.RecordsAreSorted` | contract/src/schema-manifest.ts:134-136 | Every record lists exactly its keys, sorted |
| `SchemaBuild.RowsAsRead` | contract/src/schema-manifest.ts:139-257 | A table, column or trigger row is in the manifest, as read, exactly if it is among the rows |
| `SchemaBuild.GroupsAsRead` | contract/src/schema-manifest.ts:165-235 | Every table carries exactly its own indexes and foreign keys, each with its head and all its parts in the order of their positions |
| `SchemaBuild.BuildIgnoresRowOrder` | contract/src/schema-manifest.ts:139-257 | Permuted metadata rows build the same manifest with the same key order in every record |
| `EndpointFailover.PlanIsGood` | contract/src/endpoint-failover.ts:122-130 | Unblocked endpoints once each, an unblocked primary first and the others by index; all of them as a probe when all are blocked |
| `EndpointFailover.GoodPlanIsUnique` | contract/src/endpoint-failover.ts:122-130 | That leaves no choice: there is one such plan |
| `EndpointFailover.AcquireEndsAt` | contract/src/endpoint-failover.ts:195-261 | The first turn that is out of budget, out of endpoints or ends other than by a network fault decides the result and what was tried |
| `EndpointFailover.FailedEndpointSitsOut` | contract/src/endpoint-failover.ts:138-150 | An endpoint that met a network fault is in a later plan exactly once its blacklist time has passed, or all are blocked |
| `EndpointFailover.AcquireFacts` | contract/src/endpoint-failover.ts:195-261 | Endpoints are tried at most once in plan order; what success, a fatal error, expiry and total failure change and leave alone |
| `EndpointFailover.PrimaryIsTheLastSuccess` | contract/src/endpoint-failover.ts:132-136 | Over any acquires the primary is the most recently successful endpoint |
| `EndpointFailover.EndpointSelector.Plan` | contract/src/endpoint-failover.ts:122-130 | The planning loops |
| `EndpointFailover.EndpointSelector.AcquireWithFailover` | contract/src/endpoint-failover.ts:195-261 | The acquire loop equals its definition |
| `QueryBytes.SameBytesIffSameParams` | contract/src/skill-manifest.ts:147-153 | Equal bytes if and only if equal parameter maps |
| `QueryBytes.OrderIsIrrelevant` | contract/src/skill-manifest.ts:147-153 | Insertion order is invisible |
| `QueryBytes.KeysAscend` | contract/src/skill-manifest.ts:147-153 | The bytes list every parameter once, keys ascending by code unit, each as encoded key, `=` and encoded value |
| `QueryBytes.UnitsRoundTrip` | contract/src/skill-manifest.ts:150-150 | Every sequence of Unicode scalar values has a string that is read as these code points |
| `QueryBytes.EncodedIsSafe` | contract/src/skill-manifest.ts:150-150 | Encoded keys and values never contain `&` or `=` (percent-encoding as in section 2.1 of RFC 3986) |
| `QueryBytes.DecodesFirst` | contract/src/skill-manifest.ts:150-150 | Percent-encoded UTF-8 is a prefix code |
| `DbpmFrame.ChunkingIsIrrelevant` | contract/src/dbpm.ts:133-185 | Any way of cutting the stream gives the outcome of the stream in one piece |
| `DbpmFrame.ReplyIffFramed` | contract/src/dbpm.ts:133-185 | The outcome is the one the bytes call for: waiting exactly for at most max newline-free bytes, too large exactly when the first max bytes hold no newline and more came, otherwise what the first line says |
| `DbpmFrame.ReplyIsTheFirstLine` | contract/src/dbpm.ts:179-181 | A line that fits is parsed without its newline; what follows it does not matter |
| `DbpmFrame.PasswordIff` | contract/src/dbpm.ts:110-125 | The password comes back exactly if the decoded line is the prefix and a non-empty password free of control characters |
| `DbpmFrame.SettledStays` | contract/src/dbpm.ts:141-151 | Later bytes never change a settled outcome |
| `DbpmFrame.OutcomeIsFinal` | contract/src/dbpm.ts:141-151 | Nor do later chunks |
| `DbpmFrame.ParseLine` | contract/src/dbpm.ts:110-125 | When a line is a password, and which |
| `DbpmFrame.Request.Data` | contract/src/dbpm.ts:167-185 | The data handler keeps the outcome at what the bytes so far call for |
| `ToolBudget.CallsStayWithinBudget` | agent/src/application/dsh-run-tool-budget.ts:139-184 | Over every hook sequence at most maxToolCalls calls, and maxIdenticalToolCalls per fingerprint, are let through |
| `ToolBudget.CountsAddUp` | agent/src/application/dsh-run-tool-budget.ts:176-178 | The per-fingerprint counts sum to the total |
| `ToolBudget.ExhaustionIsFinal` | agent/src/application/dsh-run-tool-budget.ts:133-209 | Once exhausted the first reason stays, no call passes, no turn offers tools |
| `ToolBudget.LimitsExhaust` | agent/src/application/dsh-run-tool-budget.ts:179-192 | Reaching the call or turn limit exhausts the budget at once |
| `ToolBudget.TurnsAreCounted` | agent/src/application/dsh-run-tool-budget.ts:188-192 | The turn counter is the number of model turns so far |
| `ToolBudget.OpenIff` | agent/src/application/dsh-run-tool-budget.ts:127-209 | From the hooks alone: the budget is open exactly while no limit on calls, repetitions, turns or time was used up |
| `ToolBudget.AllowedIff` | agent/src/application/dsh-run-tool-budget.ts:139-184 | A call is let through exactly when policy does not block it and it and everything before it stay within the limits |
| `ToolBudget.OffersToolsIff` | agent/src/application/dsh-run-tool-budget.ts:188-209 | A turn gets tools exactly when nothing is used up, this turn included |
| `ToolBudget.ReasonIsTheFirstLimit` | agent/src/application/dsh-run-tool-budget.ts:127-192 | The reason kept for good names the limit that the first hook over the line hit |
| `ToolBudget.PolicyBlocksAreFree` | agent/src/application/dsh-run-tool-budget.ts:139-143 | Leaving all policy-blocked calls out of any hook sequence gives the same budget |
| `ToolBudget.KeyOrderIsIrrelevant` | agent/src/application/dsh-run-tool-budget.ts:50-62 | Arguments that differ in key order have one fingerprint |
| `ToolBudget.SameFingerprintIff` | agent/src/application/dsh-run-tool-budget.ts:50-70 | Two calls count as the same exactly when tool and arguments agree up to key order |
| `ToolBudget.OnlyKeyOrderIsForgotten` | agent/src/application/dsh-run-tool-budget.ts:50-62 | And only such arguments do |
| `ToolBudget.Guard.BeforeToolCall` | agent/src/application/dsh-run-tool-budget.ts:139-184 | The tool-call hook |
| `ToolBudget.Guard.PrepareNextTurn` | agent/src/application/dsh-run-tool-budget.ts:186-209 | The model-turn hook |

## Left out

- Owner scoping of every query (organisation and user): a filter in front of each look-up.
- Payload redaction, size limits and response validation by interaction type; rows carry fingerprints that are only compared.
- Ties in `created_at`: approvals and interactions are taken in creation order.
- Cancel intent and its signal store: whether a cancel is seen is a free choice at each check.
- The lease manager itself: exclusion is assumed in `RunLease`, and an attempt that lost its lease takes no further step; `RunLease.WithoutExclusionTheLoserPrompts` shows why it matters.
- What an attempt that resumed a parked Run hands to the executor besides the Run: the approval or answer of the resume that committed.
- Commit acknowledgements lost in transit: a transaction is reported as it ended.
- Cron job edits (which would also release a stuck job), claim recovery and run reconciliation; the order in which due jobs are picked is any order, since no result depends on it.
- Time-zone rules: a zone is a function from minutes to local fields.
- Reading the clock more than once within one plan or hook call.
- Column, trigger and referential-action normalisers: rows enter the manifest builder normalised; specifications are compared as values rather than as JSON text.
- The order in which schema drifts are reported, and their detail texts.
- UTF-8 decoding of the password line, including byte-order marks: a parameter.
- Strings outside `QueryBytes` are sequences of Unicode scalar values: lone surrogates do not occur in them, and they are ordered by scalar value, which differs from UTF-16 code-unit order for supplementary characters only. No result depends on which of the two orders is used.
- Numbers in `JsonTree` are identified with the text they print to; the conversion is not modelled.
- SHA-256 of the canonical text: a function of the text.
- HTTP routing, queues, Redis, sockets, startup, configuration readers, browser authentication, catalogue and presentation code.
