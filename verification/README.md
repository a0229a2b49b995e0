# Verified model of the xira runtime's durable protocols

This project models, in Dafny, the parts of `apps/xira` whose correctness depends on state kept
over time, and proves what they promise over whole runs:

- the **flow kernel** (`FlowDefinition`, `FlowRun`, `FlowKernel`): `Start`, `Advance` and `Resume` over a
  persisted run, each one a sequence of separate store writes of which only the first few may happen.
  `FlowInvariant`, `FlowBounds`, `FlowEffects`, `FlowStranding` and `FlowTermination` hold what every write, every
  operation and every run keeps, where a run gets stuck and when it comes to rest; `FlowLaws` states what each
  operation leaves in the run file, field by field;
- the **human-request store** (`HumanRequest`, `HumanRequestStore`): request, delivery and resume status, the
  append-only audit log, responses and recovery; `HumanRequestHistory` holds what every history keeps,
  `HumanRequestLaws` when each operation is accepted and what it records;
- **durable resume** (`DurableResume`, `ResumeService`): claim, dispatch into the flow, finish, with a crash
  possible between any two steps, startup recovery and reconciliation; `EffectivelyOnce` adds that reconciliation does end a pause, and
  `StrandedRequest` is one concrete run;
- smaller stateful parts: progress towards a chat (`Progress`), session histories in memory and on disk
  (`Session`, `SessionStore`, `SessionRuns`), TTL de-duplication and Observe (`Dedupe`), quoting of identity values (`IdentityQuote`), owner
  binding (`OwnerBind`), the repeated-failure guard (`FailureGuard`), spawn slots and the cancel registry
  (`Spawn`).

`dafny verify dfyconfig.toml` checks everything.

## How to read it

Code that assigns fields is a class whose methods assign them in the same branches; each method's `ensures`
equates the new state with a function of the old one. The lemmas prove what the source promises about those
functions, over every run. A flow or store operation is the list of files it writes one after the other
(`AdvanceWrites`, `ResumeWrites`, `EventWrites`, …); a `budget` says how many of them happen. A crash and a store
error leave the same file behind, so "for every budget" covers both.

## Assumptions

- A flow id keeps one definition for the life of a run (`registerDefinition` overwrites by id).
- Executor results are completed, failed, waiting for a human, or empty. For durable resume: a waiting result
  names its requests, and the executor never returns a request that is used up, that is, one that has already
  ended a pause of this run or whose resume work on it is done (`DurableResume.Honest`). A request answered or even
  claimed while the executor still runs is covered.
- Request and response ids are fresh (`Create` does not look for an existing file under a caller's id).
- Clocks do not run backwards where a lemma says so; a file write happens whole or not at all.
- Identifiers and texts that the source trims or folds on entry are taken as already normalised, except where
  trimming decides something (request ids, messages, keys).

## Findings

- **A completed request can become pending again.** If an Advance is cut between its result write and its pause
  write, the run is not yet waiting: a dispatched resume of the linked request then succeeds without effect, is
  recorded as completed, and the next Advance pauses the run on that very request (`HalfPauseStrands`; one
  concrete run from a fresh system in `StrandedRequest`). `PauseHalvedExactly` and `DonePendedExactly` say exactly
  when this happens; without such a cut it never does (`CompletedNeverPending`).
- **A run can be stranded for good.** A running run whose current step is recorded as failed is never changed again
  by any operation (`StrandedForever`). `StrandedExactly` says which operations lead there: an Advance with a failed
  result cut between the result write and the failure's write, whatever attempts are left; a refused or failed agent
  resume cut after its first write; and any transition or failure route into a step already recorded as failed.
- **A cancel needs both of its writes.** Between the approval write and the cancel write the run is running with
  a completed step; if the second write is lost the run goes on as if approved (`CancelNeedsBothWrites`).
- **A run can go round for ever.** Where success transitions form a cycle, Advance passes completed steps without
  executing or ending anything, as often as it is called (`CycleNeverRests`; an accepted two-step definition in
  `LoopNeverRests`). Without such a cycle every run comes to rest within a fixed number of operations
  (`ChangesBounded`, `AdvancingEnds`); cycles through failure routes do no harm.
- **A failed append can reappear.** When a turn's lines are written and its agent meta is not, an error is returned
  and nothing is published, yet a reload shows the messages (`ReloadAfterCut`, exactly then), and a retry stores them
  a second time (`RetryStoresTwice`).
- **A lost save repeats a message.** The deduper ignores failed saves; after a restart, a key whose save failed is
  admitted again at once (`LostSaveRepeats`). `RestartKeepsExactly` says exactly when a restart forgets nothing.
- The comment at `runtime/spawn_turn.go:443-445` says a second release would underflow; the code at
  `runtime/delegation.go:579-588` removes the counter instead, so it would free another child's slot. The once-only
  guard prevents either, and the model follows the code.

## Model

| member | source | states |
|---|---|---|
| FlowDefinition.ValidateDefinition | apps/xira/internal/flow/definition.go:37-112 | accepts exactly the definitions with unique, well-formed steps and entrypoints whose transitions all name known steps |
| FlowDefinition.CheckTransitions | apps/xira/internal/flow/definition.go:143-172 | accepts exactly the steps whose every branch, success, failure and exhaustion target is known |
| FlowDefinition.CollectSteps | apps/xira/internal/flow/definition.go:50-75 | succeeds exactly on unique well-formed steps and then returns the set of their ids |
| FlowDefinition.ValidIsClosed | apps/xira/internal/flow/definition.go:143-180 | every transition edge of an accepted definition leads to a declared step |
| FlowDefinition.ValidEntrypointStarts | apps/xira/internal/flow/definition.go:187-202 | every entrypoint of an accepted definition resolves to a declared start step |
| FlowRun.PendingMembers | apps/xira/internal/flow/kernel.go:799-816 | the pending list of a pause holds each non-blank trimmed request id exactly once |
| FlowRun.PendingCleared | apps/xira/internal/flow/kernel_resume.go:344-360 | leaving a pause removes from the pending list exactly what entering it added |
| FlowRun.AppendUniqueStrings | apps/xira/internal/flow/kernel.go:799-816 | the loop with its seen set computes the specified list |
| FlowRun.RemoveStrings | apps/xira/internal/flow/kernel_resume.go:344-360 | the loop with its removal set computes the specified list |
| FlowRun.RunRecord.MarkStepRunning | apps/xira/internal/flow/store.go:480-512 | refuses blank ids and completed steps; otherwise starts the step, counting an attempt unless one is already started |
| FlowRun.RunRecord.ApplyStepResult | apps/xira/internal/flow/kernel.go:339-372 | records a result in place, keeping requests and outputs the result leaves nil |
| FlowKernel.Kernel.Start | apps/xira/internal/flow/kernel.go:107-170 | creates the run and begins its first step, or leaves no file, for every cut |
| FlowKernel.Kernel.Advance | apps/xira/internal/flow/kernel.go:217-306 | the file and the outcome after every cut, in every branch, and whether the step was handed to the executor |
| FlowKernel.Kernel.Execute | apps/xira/internal/flow/kernel.go:266-306 | mark running, execute, record, settle: the file after any cut and the step handed over |
| FlowKernel.Kernel.HandleStepFailure | apps/xira/internal/flow/kernel.go:409-462 | retries, routes or fails the run with one write |
| FlowKernel.Kernel.Transition | apps/xira/internal/flow/kernel.go:464-523 | enters the next step, completes the run or fails the transition with one write |
| FlowKernel.Kernel.Resume | apps/xira/internal/flow/kernel_resume.go:46-110 | refuses in the source's order, is a no-op unless waiting, otherwise leaves the prescribed file after any cut |
| FlowKernel.Kernel.ResumeExplicitApproval | apps/xira/internal/flow/kernel_resume.go:114-161 | approval write, then cancel or transition, under any cut |
| FlowKernel.Kernel.ResumeAgentGenerated | apps/xira/internal/flow/kernel_resume.go:168-249 | deny and cancel fail the step; otherwise the agent's status decides whether anything is written |
| FlowInvariant.AdvanceKeeps | apps/xira/internal/flow/kernel.go:217-306 | from any state a crash can leave, every write of Advance keeps the run invariant and follows a declared edge, the last one reaches a boundary state, and "current step not found" never occurs |
| FlowInvariant.ResumeKeeps | apps/xira/internal/flow/kernel_resume.go:46-276 | the same for Resume, which never finds its current step missing |
| FlowInvariant.RunsStaySound | apps/xira/internal/flow/kernel.go:217-523 | the run invariant over every sequence of operations each cut anywhere; the boundary invariant when none is cut; finished runs never change |
| FlowInvariant.StartedRunsStaySound | apps/xira/internal/flow/kernel.go:107-306 | the same from a started entrypoint of an accepted definition |
| FlowInvariant.BoundaryMeaning | apps/xira/internal/flow/kernel.go:374-523 | non-current steps are completed or failed; the run waits exactly when its current step does; the pending list is exactly the non-blank request ids of that pause; ended runs have no current step; a failed run's step is failed |
| FlowInvariant.OverStays | apps/xira/internal/flow/kernel.go:236-238 | no operation changes a completed, failed or canceled run |
| FlowStranding.StrandedForever | apps/xira/internal/flow/kernel.go:259-261 | no sequence of operations changes a running run whose current step is recorded as failed |
| FlowStranding.StrandedExactly | apps/xira/internal/flow/kernel.go:281-303 | exactly which Advance or Resume, cut where, strands a run: a failed result or a refusal recorded without its follow-up, or entering a step already recorded as failed |
| FlowStranding.CutFailureLosesRetries | apps/xira/internal/flow/kernel.go:409-440 | a failed execution cut after its result write strands the run for good, whatever attempts are left |
| FlowStranding.AdvanceRepairs | apps/xira/internal/flow/kernel.go:246-264 | one uncut Advance restores the boundary invariant after any history of cuts, and the run can go on unless it was stranded before or this Advance enters a step already recorded as failed |
| FlowInvariant.ValidatedRunsStayOnGraph | apps/xira/internal/flow/kernel.go:246-253 | the current step of every run of an accepted definition is declared and reachable from the start step |
| FlowBounds.ExecutionsAccounted | apps/xira/internal/flow/store.go:480-512 | executions of a step are exactly its recorded attempts plus the results lost to cuts |
| FlowBounds.StepExecutionsBounded | apps/xira/internal/flow/kernel.go:409-440 | from any started run, its Start cut or not: a step is executed at most max_attempts times (once without a policy that allows more) plus once per lost result, cycles included |
| FlowBounds.TotalExecutionsBounded | apps/xira/internal/flow/kernel.go:255-306 | likewise all executions are bounded by the sum over the declared steps plus the lost results |
| FlowBounds.SettledNeverRunsAgain | apps/xira/internal/flow/kernel.go:255-264 | a settled step is never executed again and keeps its outputs |
| FlowBounds.CancelNeedsBothWrites | apps/xira/internal/flow/kernel_resume.go:126-148 | an approval that cancels ends the run as canceled exactly when both its writes happen |
| FlowTermination.ChangesBounded | apps/xira/internal/flow/kernel.go:217-306 | if success transitions form no cycle, at most a fixed number of uncut operations ever change a run, human pauses included, whatever executor and conditions answer |
| FlowTermination.AdvancingEnds | apps/xira/internal/flow/kernel.go:255-306 | more uncut Advances than that bring such a run to rest: over, waiting for a human, or stranded |
| FlowTermination.AtRestExactly | apps/xira/internal/flow/kernel.go:236-264 | an uncut Advance changes nothing exactly when the run is at rest |
| FlowTermination.WalkFollowed | apps/xira/internal/flow/kernel.go:255-258 | a run can be advanced along any walk of success edges, however long, completed steps being passed without execution |
| FlowTermination.CycleNeverRests | apps/xira/internal/flow/kernel.go:255-264 | a cycle of success transitions within reach of the start lets a run advance as often as one likes without coming to rest |
| FlowTermination.LoopNeverRests | apps/xira/internal/flow/kernel.go:255-264 | an accepted definition of two steps for which this happens |
| FlowEffects.ApprovalTakesEffect | apps/xira/internal/flow/kernel_resume.go:114-161 | after the first write: the signal is the step's only output, its requests and the pending list are gone, the run no longer waits, attempts and all other recorded steps are unchanged |
| FlowLaws.ExecutionLaw | apps/xira/internal/flow/kernel.go:266-303 | an executing Advance write by write: the step started and its attempt counted; the executor's answer on record (an error is a failure, an empty status success, missing requests and outputs kept); then waiting with exactly the non-blank request ids, or retried, routed or failed, or completed along the declared edge |
| FlowLaws.UnbranchedStepLeads | apps/xira/internal/flow/kernel.go:576-579 | a completing step without branches goes to on_success, keeping status and all recorded steps, a new target pending; without on_success the run is completed |
| FlowLaws.CompletedStepLaw | apps/xira/internal/flow/kernel.go:255-258 | a completed current step is left by on_success or by the first branch that applies, or fails the run if none does, without executing |
| FlowLaws.PauseLaw | apps/xira/internal/flow/kernel.go:262-264 | a half-recorded pause is completed and pends exactly the step's non-blank request ids |
| FlowLaws.IdleLaw | apps/xira/internal/flow/kernel.go:236-261 | in every other state Advance writes nothing |
| FlowLaws.SuccessEdgeExactly | apps/xira/internal/flow/kernel.go:553-581 | completing a step can lead exactly to its on_success, or to the target of a branch whose condition no earlier branch repeats |
| FlowLaws.RetriesExactly | apps/xira/internal/flow/kernel.go:409-440 | with a policy of m >= 1 attempts a failing step is executed exactly m times, without one or with m <= 0 once; then on_exhausted, else on_failure, else the run fails |
| FlowLaws.ApprovalLaw | apps/xira/internal/flow/kernel_resume.go:114-161 | an answered approval write by write: its only output, in the first declared slot or "approval_signal", is the declared option or its mapped signal; then canceled, or on as a completed step |
| FlowLaws.CanceledExactly | apps/xira/internal/flow/kernel_resume.go:143-149 | the run is canceled exactly if the answer is "cancel", no branch quotes it, and both writes happen |
| FlowLaws.AgentLaw | apps/xira/internal/flow/kernel_resume.go:168-249 | a denied or canceled agent request fails step and run with its message; otherwise the agent's status completes or fails the step, or nothing happens |
| FlowLaws.ResumeIdleLaw | apps/xira/internal/flow/kernel_resume.go:63-93 | a resume that brings no answer to the paused step changes nothing |
| FlowLaws.StartLaw | apps/xira/internal/flow/kernel.go:107-170 | exactly the declared entrypoints start, at their start step, first created and then running with that step pending |
| FlowLaws.AdvanceTold | apps/xira/internal/flow/kernel.go:217-306 | Advance reports an error exactly if a write is lost or a completed step cannot decide its branches |
| FlowLaws.ResumeTold | apps/xira/internal/flow/kernel_resume.go:46-161 | Resume reports success exactly if the run does not wait, or the answer was brought, every write made and the transition decided |
| FlowEffects.FirstMatchExactly | apps/xira/internal/flow/kernel.go:553-581 | the first matching branch decides, provided every earlier one evaluates to no match |
| FlowEffects.BranchesExhaustive | apps/xira/internal/flow/kernel.go:555-573 | declared branches of which none applies fail the step and the run |
| FlowEffects.OneFailure | apps/xira/internal/flow/kernel.go:409-462 | a failed attempt makes the step ready again while attempts remain, otherwise failure routing takes effect |
| FlowEffects.FailsExactly | apps/xira/internal/flow/kernel.go:409-440 | a step that keeps failing, no write lost, is executed exactly max_attempts times (once without a policy) before its failure takes effect |
| HumanRequest.RequestRecord.ApplyDeliveryAttempt | apps/xira/internal/humanrequest/interaction_store.go:99-128 | records the attempt in place or refuses it and changes nothing |
| HumanRequest.RequestRecord.ApplyTerminalDeliveryFailure | apps/xira/internal/humanrequest/interaction_store.go:76-97 | records the failed attempt and fails the request, or refuses |
| HumanRequest.RequestRecord.ApplyResumeClaim | apps/xira/internal/humanrequest/interaction_store.go:164-186 | grants the claim, reports it taken, or refuses |
| HumanRequest.RequestRecord.ApplyResumeFinish | apps/xira/internal/humanrequest/interaction_store.go:233-255 | completes or fails running work; completing twice changes nothing |
| HumanRequest.RequestRecord.RecoverInterruptedResume | apps/xira/internal/humanrequest/interaction_store.go:335-344 | turns running work into failed work and nothing else |
| HumanRequest.RequestRecord.ApplyResponse | apps/xira/internal/humanrequest/store.go:150-197 | the answer in place: accepted, an idempotent repeat, or refused |
| HumanRequestHistory.HistorySound | apps/xira/internal/humanrequest/interaction_store.go:76-255 | over every history: the lifecycle invariant, folding the audit log gives back status, delivery, resume, attempts and answer, and started records balance completed, failed, recovered and running ones |
| HumanRequestHistory.CreatedSound | apps/xira/internal/humanrequest/store.go:65-109 | a created request satisfies all of that |
| HumanRequestHistory.LogAppendOnly | apps/xira/internal/humanrequest/interaction_store.go:76-255 | every change appends, nothing else does, and no earlier record is edited |
| HumanRequestHistory.HistoryStable | apps/xira/internal/humanrequest/store.go:150-197 | over every history an answer, its authority and the delivery receipt stay; completed and failed requests are frozen |
| HumanRequestHistory.FirstAnswerWins | apps/xira/internal/humanrequest/store.go:160-204 | whatever follows, the first answer stays, its keyed repeat is accepted without change until an exact one expires, and no other answer is ever recorded |
| HumanRequestHistory.ExactResponseAuthorized | apps/xira/internal/humanrequest/store.go:211-257 | an accepted exact response agrees with every non-empty responder field and the delivery message id, carries the correlation and is not expired |
| HumanRequestHistory.ClaimsExclude | apps/xira/internal/humanrequest/interaction_store.go:164-186 | after a granted claim a second one is not granted until the work fails or is recovered |
| HumanRequestLaws.AnswerExactly | apps/xira/internal/humanrequest/store.go:150-169 | an answer is recorded exactly if the request is pending, a free answer is not blank, and an exact one carries the correlation, matches every non-empty authority field and meets the deadline; repeats and errors exactly |
| HumanRequestLaws.AnswerRecorded | apps/xira/internal/humanrequest/store.go:170-197 | what is recorded: this kind, actor, message, key and envelope, resume work pending, one audit record; nothing else changes |
| HumanRequestLaws.DeliveryExactly | apps/xira/internal/humanrequest/interaction_store.go:99-128 | exactly when a delivery attempt is accepted, with the message id, error, times and counter it records |
| HumanRequestLaws.AbandonExactly | apps/xira/internal/humanrequest/interaction_store.go:76-97 | exactly when a delivery is given up; the request fails and has no resume work |
| HumanRequestLaws.ClaimExactly | apps/xira/internal/humanrequest/interaction_store.go:164-186 | a claim is granted exactly to answered requests whose work is pending or failed, counting an attempt |
| HumanRequestLaws.FinishExactly | apps/xira/internal/humanrequest/interaction_store.go:233-255 | exactly running work finishes, as completed or failed with its error |
| HumanRequestLaws.RecoverExactly | apps/xira/internal/humanrequest/interaction_store.go:335-344 | exactly running work is recovered, as failed with the fixed error |
| HumanRequestLaws.CreatedExactly | apps/xira/internal/humanrequest/store.go:65-109 | a created request holds every field asked for, the expiry and responder among them, and nothing answered |
| HumanRequestLaws.CreateStores | apps/xira/internal/humanrequest/store.go:45-64 | a create writes exactly one request unless it is invalid or repeats open work |
| HumanRequestLaws.EventStores | apps/xira/internal/humanrequest/store.go:198-204 | exactly which files an event writes under which cut |
| HumanRequestLaws.NewestFirst | apps/xira/internal/humanrequest/store.go:396-403 | a listing is newest first, requests of the same time by id |
| Text.LessExactly | apps/xira/internal/humanrequest/store.go:396-403 | the order of ids: a proper beginning, or smaller at the first difference |
| Text.TrimExactly | apps/xira/internal/flow/kernel.go:799-816 | trimming takes white space off both ends and nothing else |
| HumanRequestStore.StoreOpConsistent | apps/xira/internal/humanrequest/store.go:198-203 | at every crash point of every operation: no two pending twins, every answered request has its response file with equal content, every request is sound |
| HumanRequestStore.StoreStaysConsistent | apps/xira/internal/humanrequest/store.go:55-59 | the same over every run of operations cut anywhere |
| HumanRequestStore.Store.List | apps/xira/internal/humanrequest/store.go:370-405 | exactly the requests that satisfy the filter, newest first, ties by id |
| HumanRequestStore.Store.Create | apps/xira/internal/humanrequest/store.go:45-109 | validates, returns a pending duplicate, or writes the new request |
| HumanRequestStore.Store.Resolve | apps/xira/internal/humanrequest/store.go:130-209 | the files after any cut of filing the response and then the request, and the reply |
| HumanRequestStore.Store.RecordDelivery | apps/xira/internal/humanrequest/interaction_store.go:13-42 | the files and the reply of one delivery attempt |
| HumanRequestStore.Store.FailDelivery | apps/xira/internal/humanrequest/interaction_store.go:44-74 | the files and the reply of a terminal delivery failure |
| HumanRequestStore.Store.ClaimResume | apps/xira/internal/humanrequest/interaction_store.go:133-162 | claimed exactly when the table grants it and the write succeeds |
| HumanRequestStore.Store.FinishResume | apps/xira/internal/humanrequest/interaction_store.go:189-231 | the files and the reply of completing or failing a resume |
| HumanRequestStore.Store.ListResumable | apps/xira/internal/humanrequest/interaction_store.go:259-287 | exactly the resolved requests whose work is pending or failed, in order |
| HumanRequestStore.Store.FindByCorrelation | apps/xira/internal/humanrequest/store.go:278-311 | succeeds exactly when one request carries the token, conflicts exactly when several do |
| HumanRequestStore.Store.RecoverInterruptedResumes | apps/xira/internal/humanrequest/interaction_store.go:289-333 | the files after recovery with any writes failing and any cut-off, a count of exactly the requests persisted, and the joined error: the requests that could not be written and the cancellation |
| HumanRequestStore.RecoverEachMeans | apps/xira/internal/humanrequest/interaction_store.go:312-333 | recovery rewrites exactly the listed running requests whose file is writable |
| HumanRequestStore.UnwrittenIdsMean | apps/xira/internal/humanrequest/interaction_store.go:312-333 | reported are exactly the running requests whose file could not be written, and none of them is counted |
| HumanRequestStore.RecoveryComplete | apps/xira/internal/humanrequest/interaction_store.go:312-344 | with every file writable nothing is left running; requests not running or not writable are untouched |
| HumanRequestStore.RecoveryConsistent | apps/xira/internal/humanrequest/interaction_store.go:289-333 | recovery keeps the store consistent |
| DurableResume.NextSafe | apps/xira/internal/runtime/human_requests.go:302-349 | every step of the system keeps: the run invariant, sound requests, exclusive claims, at most one effect per request |
| DurableResume.ResumeAtMostOnce | apps/xira/internal/runtime/human_requests.go:281-349 | over any interleaving of creating, resolving (also while the executor still runs), claiming, dispatching, finishing, crashing, recovering and advancing, a request takes a step out of its pause at most once and no two workers hold one request |
| DurableResume.PauseEndsByResume | apps/xira/internal/flow/kernel_resume.go:46-161 | a waiting run changes only by such an effect, so each pause ends by exactly one request |
| DurableResume.CompletedNeverPending | apps/xira/internal/runtime/human_requests.go:302-333 | if no Advance is cut between its result write and its pause write, a request whose resume is completed is never pending |
| DurableResume.PauseHalvedExactly | apps/xira/internal/flow/kernel.go:281-297 | an Advance leaves a half-recorded pause exactly when it executes, the result waits, and only its first two writes happen |
| DurableResume.DonePendedExactly | apps/xira/internal/flow/kernel.go:262-264 | an Advance pends a request that is used up exactly when it completes a half-recorded pause that links it |
| DurableResume.HalfPauseStrands | apps/xira/internal/flow/kernel_resume.go:63-66 | from every half-recorded pause, claim, dispatch and finish complete the linked request without effect and the next Advance makes it pending |
| DurableResume.FreshSystemSafe | apps/xira/internal/flow/kernel.go:107-170 | a started run, its Start cut or not, beside an empty store satisfies all premises of the theorems above |
| StrandedRequest.StrandingReached | apps/xira/internal/runtime/human_requests.go:302-333 | seven admissible steps from a fresh system end with the run waiting for a request whose resume is recorded as completed |
| ResumeService.Service.DispatchResume | apps/xira/internal/runtime/human_requests.go:335-349 | dispatches by source and changes the run exactly as the protocol's dispatch step |
| ResumeService.Service.ResumeResolved | apps/xira/internal/runtime/human_requests.go:302-333 | one attempt: the files, the run and whether an error is returned, for every failing write |
| ResumeService.Service.Reconcile | apps/xira/internal/runtime/human_requests.go:281-300 | attempts every resumable request in order up to a cancellation; the error joins exactly the failed ones and the cancellation if it cut the list short |
| ResumeService.AttemptIsSteps | apps/xira/internal/runtime/human_requests.go:302-333 | undisturbed, an attempt is exactly the protocol's claim, dispatch and finish steps |
| ResumeService.ReconcileSafe | apps/xira/internal/runtime/human_requests.go:281-300 | reconciliation keeps every guarantee of the protocol |
| ResumeService.ReconcileReachesAll | apps/xira/internal/runtime/human_requests.go:281-300 | with writable files every resumable request is attempted once and its outcome recorded, whatever happens to the others; reported failures are exactly the failed ones; other requests are untouched |
| EffectivelyOnce.ReconcileEndsPause | apps/xira/internal/runtime/human_requests.go:281-349 | from a waiting run with an answered, linked approval that no worker holds, an uncanceled reconciliation with writable files takes the run out of that pause, by exactly one linked request, and no request ever does so twice |
| EffectivelyOnce.DecisionReachesRun | apps/xira/internal/runtime/human_requests.go:335-349 | dispatching a linked, answered approval leaves the step with one output, the stored decision in the step's own options: approve, deny, cancel, or the text of a free answer |
| EffectivelyOnce.DispatchExactly | apps/xira/internal/runtime/human_requests.go:335-349 | where an answer goes and what is told: to the flow for an approval of this run, elsewhere for other approvals and agent requests, an error for an approval that names no run, success without effect for any other source |
| EffectivelyOnce.PassEnds | apps/xira/internal/runtime/human_requests.go:281-349 | a reconciliation changes the run exactly if one of the listed requests is linked to the step it waits at |
| Progress.ChatContext.CheckDrained | apps/xira/internal/channelrunner/progress/chatcontext.go:92-114 | lets an event pass exactly when not drained and not final; a final event sets the flag |
| Progress.ChatContext.Push | apps/xira/internal/channelrunner/progress/chatcontext.go:116-144 | queues, evicts for or turns away the event |
| Progress.ChatContext.EvictFor | apps/xira/internal/channelrunner/progress/chatcontext.go:148-162 | removes exactly the first event of lower priority, if there is one |
| Progress.ChatContext.Dispatch | apps/xira/internal/channelrunner/progress/chatcontext.go:207-259 | sends exactly when quota and de-duplication allow, and counts it |
| Progress.ChatContext.Stop | apps/xira/internal/channelrunner/progress/chatcontext.go:262-274 | closes the queue and dispatches all that was accepted, in order |
| Progress.ChatRunsSound | apps/xira/internal/channelrunner/progress/chatcontext.go:92-205 | for every interleaving: at most 256 queued; dispatched plus queued is a subsequence of accepted with every critical event in it; the chat sees the governed dispatched events |
| Progress.ChatsSound | apps/xira/internal/channelrunner/progress/chatcontext.go:67-79 | the same for every chat from its construction on |
| Progress.TurnedAwayExactly | apps/xira/internal/channelrunner/progress/chatcontext.go:120-162 | an open queue turns an event away exactly when it is full and, for a critical event, all 256 queued are critical |
| Progress.NothingAfterFinal | apps/xira/internal/channelrunner/progress/chatcontext.go:97-114 | after the drain flag is set, everything still dispatched was queued or in flight then |
| Progress.QuotaAndDedupHold | apps/xira/internal/channelrunner/progress/chatcontext.go:213-247 | a positive quota bounds the non-waiting sends per bucket and no kind and text are sent together twice |
| Progress.ShownExactly | apps/xira/internal/channelrunner/progress/chatcontext.go:207-247 | over any stream an event is shown exactly if it renders, its kind and text were not sent before, and it asks for a human or its bucket has no quota or is below it |
| Progress.KeyTells | apps/xira/internal/channelrunner/progress/chatcontext.go:232-236 | for kinds without a bar the de-duplication key tells kind and text apart |
| Progress.WaitingIsShown | apps/xira/internal/channelrunner/progress/chatcontext.go:216-235 | a rendered request for a human is always shown, whatever the quotas |
| Progress.IMEventRenderer.GovernRaw | apps/xira/internal/channelrunner/progress/im_renderer.go:128-181 | under the state lock: the text passes exactly when quota and de-duplication allow, and is counted |
| Progress.IMEventRenderer.PlaceText | apps/xira/internal/channelrunner/progress/im_renderer.go:183-197 | under the queue lock: queues the text, or drops it once stopped |
| Progress.IMEventRenderer.DeliverRaw | apps/xira/internal/channelrunner/progress/im_renderer.go:128-197 | one whole call is these two sections |
| Progress.RendererConserves | apps/xira/internal/channelrunner/progress/im_renderer.go:128-223 | for concurrent calls too: every governed text is sent, queued, in flight or dropped at the end, exactly once, and nothing else is |
| Progress.IMEventRenderer.Stop | apps/xira/internal/channelrunner/progress/im_renderer.go:92-104 | closes the queue and sends what is left in order |
| Progress.PipelinesAgree | apps/xira/internal/channelrunner/progress/im_renderer.go:128-223 | fed the same events before the first final one and flushed, without overflow, both pipelines send the same texts in the same order |
| Session.CompactTwice | apps/xira/internal/session/file_store.go:329-350 | compacting compacted messages changes nothing |
| SessionStore.FileStore.AppendAgentMessages | apps/xira/internal/session/file_store.go:74-104 | the directories after any of the three writes fails; success exactly when all happened |
| SessionStore.FileStore.LoadHistories | apps/xira/internal/session/file_store.go:106-200 | per session and per agent exactly the messages of their directories, timed ones in order, no empty entries; session histories interleave the agents' histories and owe each message to its directory |
| SessionStore.Manager.AppendAgentMessages | apps/xira/internal/session/manager.go:271-314 | stamps, compacts, persists and only then publishes to both histories |
| SessionStore.Manager.constructor | apps/xira/internal/session/manager.go:99-117 | a new manager holds exactly what loading the disk gives |
| SessionRuns.PreparedExactly | apps/xira/internal/session/manager.go:275-293 | an append stores exactly its messages with a role and a content, in order, stamped where blank and trimmed; without session or agent nothing |
| SessionRuns.AppendExactly | apps/xira/internal/session/file_store.go:74-104 | a complete append extends the session, the agent and the directory by those messages and counts them; nothing else changes |
| SessionRuns.RunsBacked | apps/xira/internal/session/manager.go:295-314 | over appends and restarts, whichever writes fail: every session history interleaves its agents' histories, and its messages are on disk in the directories their turns named, as often as published |
| SessionRuns.RunsAgree | apps/xira/internal/session/manager.go:271-314 | over appends and restarts without failed writes, with directories not shared and growing times, memory and disk hold the same messages per session and agent |
| SessionRuns.ReloadRebuilds | apps/xira/internal/session/file_store.go:106-200 | loading after such a run rebuilds both history maps exactly |
| SessionRuns.SessionsFromEmpty | apps/xira/internal/session/manager.go:92-117 | both hold of every such run from the empty store, with no premise on the starting state |
| SessionRuns.ReloadAfterCut | apps/xira/internal/session/file_store.go:84-103 | a reload shows more than was published exactly when an append's lines were written and its agent meta was not; then the unpublished messages, once each |
| SessionRuns.RetryStoresTwice | apps/xira/internal/session/file_store.go:84-103 | retrying such an append leaves its messages in the directory twice and in memory once |
| SessionRuns.CountsMatch | apps/xira/internal/session/file_store.go:223-237 | after such a run every agent's message count is the number of its stored lines |
| Dedupe.MessageDeduper.constructor | apps/xira/internal/channelrunner/dedupe/dedupe.go:24-35 | a non-positive ttl becomes an hour and only live saved entries are loaded |
| Dedupe.MessageDeduper.Prune | apps/xira/internal/channelrunner/dedupe/dedupe.go:118-124 | removes exactly the expired entries |
| Dedupe.MessageDeduper.Begin | apps/xira/internal/channelrunner/dedupe/dedupe.go:37-52 | admits exactly blank keys and keys without a live entry |
| Dedupe.BeginsSpaced | apps/xira/internal/channelrunner/dedupe/dedupe.go:37-74 | two successful Begins of one non-empty key are a ttl apart or separated by a Forget, whichever saves fail, over restarts that find the live entries in the file |
| Dedupe.SavedRunsTimely | apps/xira/internal/channelrunner/dedupe/dedupe.go:104-116 | that premise holds without restarts whatever the saves do, and with restarts if each save before the last one succeeded |
| Dedupe.RestartKeepsExactly | apps/xira/internal/channelrunner/dedupe/dedupe.go:76-102 | a restart forgets no live key, now or later, exactly when the file holds every live entry for at least as long |
| Dedupe.LostSaveRepeats | apps/xira/internal/channelrunner/dedupe/dedupe.go:46-51 | an admission whose save failed is granted again right after a restart |
| Dedupe.AdmittedExactly | apps/xira/internal/channelrunner/dedupe/dedupe.go:37-74 | over any calls of a fresh deduper a key is admitted exactly if it is blank, never renewed, forgotten since, or renewed at least a ttl ago |
| Dedupe.GateExactly | apps/xira/internal/channelrunner/ingest/ingest.go:146-163 | exactly which messages are observed and which dispatched |
| Dedupe.PersistedExactly | apps/xira/internal/channelrunner/ingest/ingest.go:194-256 | a message is persisted exactly if it is observable, its key is admitted and the store accepts it |
| Dedupe.Ingest.HasKnownAddressTarget | apps/xira/internal/channelrunner/ingest/ingest.go:167-175 | true exactly when the agent or the owner is addressed |
| Dedupe.Ingest.ObserveMessage | apps/xira/internal/channelrunner/ingest/ingest.go:194-256 | gate, begin, persist, then complete or forget, with the deduper's saves succeeding or failing |
| Dedupe.PersistsSpaced | apps/xira/internal/channelrunner/ingest/ingest.go:146-256 | two successful persists of one key are a ttl apart, whichever saves fail, over restarts that find the live entries in the file; only authorised, unaddressed group messages are persisted |
| Dedupe.FailedPersistAdmits | apps/xira/internal/channelrunner/ingest/ingest.go:213-226 | a failed persist leaves its key admissible; a successful one blocks it for exactly the ttl |
| IdentityQuote.QuoteSessionIdentityValue | apps/xira/internal/runtime/service_adk.go:451-481 | the loop writes the specified literal |
| IdentityQuote.QuotedReads | apps/xira/internal/runtime/service_adk.go:451-481 | a reader of section 7 of RFC 8259 gets the value back and stops at the end of the literal |
| IdentityQuote.EscapeForms | apps/xira/internal/runtime/service_adk.go:456-477 | which runes stand for themselves, which take a two-character escape and which four lower-case hexadecimal digits |
| IdentityQuote.QuotedPrefixFree | apps/xira/internal/runtime/service_adk.go:446-450 | literals followed by anything are equal only for equal values: no literal is a prefix of another |
| IdentityQuote.QuotedOneLine | apps/xira/internal/runtime/service_adk.go:446-450 | a literal holds no control character, DEL, C1 control or line separator |
| OwnerBind.EncodeBindCode | apps/xira/internal/runtime/owner_bind.go:83-96 | shifting out eight groups of five bits gives the specified code with its dash |
| OwnerBind.CodeSpelled | apps/xira/internal/runtime/owner_bind.go:83-96 | the code character by character: eight five-bit groups of the 40 bits, high first, a dash after the fourth |
| OwnerBind.LettersSpelled | apps/xira/internal/runtime/owner_bind.go:16-18 | the letters of the 32 groups spell the source's alphabet |
| OwnerBind.CodesInjective | apps/xira/internal/runtime/owner_bind.go:83-96 | different bytes give different codes |
| OwnerBind.SortOwnerBindings | apps/xira/internal/runtime/owner_bind.go:225-232 | in place: an ordered permutation |
| OwnerBind.OwnerBinder.Persist | apps/xira/internal/runtime/owner_bind.go:199-219 | success writes an ordered file that loads back as the bindings; failure leaves the file |
| OwnerBind.OwnerBinder.constructor | apps/xira/internal/runtime/owner_bind.go:325-338 | startup loads the file and draws codes exactly for entrypoints without an owner |
| OwnerBind.OwnerBinder.HandleOwnerBind | apps/xira/internal/runtime/owner_bind.go:252-305 | every branch, with rollback of memory when saving fails |
| OwnerBind.ListingLoads | apps/xira/internal/runtime/owner_bind.go:142-160 | reading back a listing gives the bindings again |
| OwnerBind.RunsSound | apps/xira/internal/runtime/owner_bind.go:252-348 | over any attempts and restarts memory equals the file, owners never change, a bound entrypoint has no live code |
| OwnerBind.UsedCodeIsDead | apps/xira/internal/runtime/owner_bind.go:293-303 | once a code bound an owner, no attempt on that entrypoint ever binds again |
| OwnerBind.BindingRecorded | apps/xira/internal/runtime/owner_bind.go:258-303 | what a successful attempt records, in memory and in the file, and that every other one changes nothing |
| OwnerBind.RepliesExactly | apps/xira/internal/runtime/owner_bind.go:258-303 | which reply an attempt gets, each exactly when |
| OwnerBind.ChangesExactly | apps/xira/internal/runtime/owner_bind.go:258-303 | an attempt binds exactly when the entrypoint is free, has a code, the code matches and saving succeeds |
| FailureGuard.TrailingRunLongest | apps/xira/internal/runtime/service.go:951-972 | the counter's specification is the longest trailing run of failures of one key |
| FailureGuard.ToolFailureGuard.Record | apps/xira/internal/runtime/service.go:951-972 | the counter and key keep tracking that run |
| FailureGuard.ToolFailureGuard.ExecuteToolCall | apps/xira/internal/runtime/service.go:1181-1209 | executes exactly when the two latest keyed outcomes are not failures of this command; a blocked call counts as a failure |
| FailureGuard.ExecuteAll | apps/xira/internal/runtime/service.go:1181-1209 | over any calls sharing a guard, exactly those calls are really executed |
| FailureGuard.BlockedUntilOther | apps/xira/internal/runtime/service.go:938-949 | a blocked command stays blocked until another keyed command intervenes |
| FailureGuard.AtMostTwoInARow | apps/xira/internal/runtime/service.go:938-972 | a command that keeps failing is blocked from its third consecutive call on |
| Spawn.SlotTable.EvaluateSpawnGuardrails | apps/xira/internal/runtime/spawn_turn.go:429-452 | admits exactly within depth, outstanding and parallel limits; a rejection reserves nothing |
| Spawn.SlotTable.Release | apps/xira/internal/runtime/delegation.go:579-588 | the first call frees the slot, later calls change nothing |
| Spawn.ReservesExactly | apps/xira/internal/runtime/delegation.go:555-564 | a slot is handed out exactly while fewer than the limit are counted |
| Spawn.ReleasesExactly | apps/xira/internal/runtime/delegation.go:579-588 | the first release of a handle lowers its parent's counter by one and no other |
| Spawn.SlotsBalanced | apps/xira/internal/runtime/delegation.go:555-588 | over any interleaving a parent's counter is the number of its unreleased slots and at most its limit |
| Spawn.ChildCancelRegistry.DrawToken | apps/xira/internal/channelrunner/progress/child_cancel_registry.go:66-67 | outside the lock: a token no other call has |
| Spawn.ChildCancelRegistry.Add | apps/xira/internal/channelrunner/progress/child_cancel_registry.go:68-70 | under the lock: appends the child under its drawn token, in whatever order tokens arrive; the entries stay exactly the live children |
| Spawn.ChildCancelRegistry.Register | apps/xira/internal/channelrunner/progress/child_cancel_registry.go:66-75 | one whole call is these two sections |
| Spawn.ChildCancelRegistry.Remove | apps/xira/internal/channelrunner/progress/child_cancel_registry.go:78-90 | takes out only the entry with the token; the entries stay exactly the live children |
| Spawn.ChildCancelRegistry.CancelAll | apps/xira/internal/channelrunner/progress/child_cancel_registry.go:97-109 | cancels exactly the children registered since the last reset and not unregistered |
| Spawn.ChildCancelRegistry.Reset | apps/xira/internal/channelrunner/progress/child_cancel_registry.go:115-119 | forgets the key's children without canceling them |
| Spawn.StaleUnregister | apps/xira/internal/channelrunner/progress/child_cancel_registry.go:78-90 | an unregister after a reset removes no other live child |

## Left out

- FlowKernel.Kernel.Advance: the event log (`AppendEvents`, whose errors are ignored), artifacts and interrupt payloads are not modelled, because no decision reads them.
- FlowKernel.Kernel.Start: input validation (`validateStartInputs`), run id generation and the saved copy of the definition are not modelled.
- FlowKernel.SignalFor: option labels are compared without case folding; kinds and options are taken as lower case.
- FlowEffects.FirstMatchExactly: the branch expression language (`evalWhen`, `compare`) is an arbitrary function yielding match, no match or error.
- FlowBounds.TotalExecutionsBounded: YAML and JSON encoding, locks and the temporary-file rename are replaced by whole-or-nothing writes.
- HumanRequestStore.Store.Create: `validateCreate` and `validateResponderPolicy` are modelled for the run id and the owner policy only; the other required fields are taken as present. Caller-chosen ids are taken as fresh.
- HumanRequestStore.Store.List: one workspace and no status, chat or limit filters beyond the ones the operations need.
- DurableResume.Dispatch: work outside the run at hand (agent requests, other runs) ends with an arbitrary result; a flow error's text is one constant.
- DurableResume.ResumeAtMostOnce: actions are interleaved at the store's and the run's lock boundaries; real threads and liveness are not modelled.
- ResumeService.Service.Reconcile: the joined error is reduced to the ids of the failed requests and a flag for the cancellation.
- Requests from before durable resume (empty resume status) are dispatched without a claim, as in the code, and never reconciled; nothing more is claimed about them.
- Text responses, owner authorisation of inbound senders and delivery itself (`runtime/human_requests.go:90-267`) are not modelled.
- Progress.ChatContext.Dispatch: rendering, the quota table and the event mapping are arbitrary functions; send errors are only logged by the source and ignored here.
- Progress.PipelinesAgree: one Deliver call at a time; with concurrent calls texts may overtake each other between the two locks of DeliverRaw, and only RendererConserves holds.
- `ChatContext.Reset` and a cancelled context (which closes the queue and dispatches the rest, like Stop) have no step of their own.
- SessionStore.FileStore.LoadHistories: malformed JSON lines and directory walking are not modelled; the order of directories is arbitrary. With zero times the sort's comparator is not an order, and the model fixes insertion.
- SessionStore.Manager.AppendAgentMessages: a manager without a store and the memory-only `AppendMessage` are not modelled; message fields that no rule reads are one field, and `MessageType` is not lower-cased.
- SessionRuns.ReloadRebuilds: the names computed for directories are inputs; that different sessions and agents get different ones is a premise.
- Dedupe.MessageDeduper.Begin: the file's JSON form is not modelled; a save succeeds or fails without telling the caller.
- Dedupe.PersistsSpaced: Observe calls are atomic and only Observe uses the deduper.
- IdentityQuote.QuotedReads: invalid UTF-8, which Go replaces before the loop, is not modelled.
- OwnerBind.OwnerBinder.HandleOwnerBind: reply texts, the lower-casing of the identity type and the test-only setters are not modelled; random bytes are inputs.
- FailureGuard.ToolFailureGuard.ExecuteToolCall: how the key is built from the tool's input, permission checks, tracing and audit records are not modelled.
- Spawn.SlotTable.EvaluateSpawnGuardrails: the check against `max_outstanding` and the reservation are separate steps in the code, so no bound by `max_outstanding` is claimed under concurrency.
- Spawn.ChildCancelRegistry.Remove: the 64-bit token counter does not wrap.
- HTTP, WebSocket, CLI, adapters, the model loop, configuration, profiles and usage accounting.
