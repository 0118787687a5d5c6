# Verification of the compensation subsystem

A Dafny model of the compensation services of this repository, with proofs, and of the forensic bundle
hashing beside them. `dafny verify dfyconfig.toml` checks everything.

## What is modelled

A *compensation action* undoes one recorded side effect. Actions of many tenants live in one store; each
carries a `lock_version`, and every write is a compare-and-swap on it. An action is planned as Pending,
then approved or waived; an approved one is executed and becomes Executed or Failed; a failed one may be
reapproved while its retry budget lasts and its error is transient, and is otherwise a dead letter.

The files follow the program:

- `Base`, `Actions`, `ActionStore`, `CallContracts`: values, the status matrix, the retry policy, the
  three repository writes, and the four guarded calls (approve, waive, reapprove, execute) as atomic
  steps.
- `Protocol`, `History`, `Linearization`, `RecordIntegrity`, `Lifecycle`, `Provenance`, `Refusals`,
  `DeadLetters`: the calls as they are really made. Any number of clients interleave reading and
  validating a snapshot, waiting for an executor, the compare-and-swap and the rollback record, with
  each other and with unvalidated writers. A *guarded* run uses only the four calls on freshly
  constructed actions.
- `Indexes`, `Sorting`, `ActionRepository`, `RollbackRecordRepository`, `SideEffectLedger`: the
  in-memory repositories as classes with hand-maintained indexes. Their invariant says that every index
  query is a scan of the primary map.
- `Planner`, `Executors`, `ActionService`, `EndToEnd`: from recorded effects to executed actions.
- `Sweeps`, `PassRecords`, `Orchestration`, `OrchestrationRuns`, `RuntimeSpec`, `Runtime`: dry runs,
  batch commands and the single-shot runtime, all as passes over arbitrary identifier lists.
- `Policy`, `Simulator`: the read-only views and predictions.
- `Forensics`: bundle generation and verification.
- `Descriptions`: where descriptions and code differ, exactly when they agree, with witnesses.

Three kinds of statement connect these. State machines and specification functions carry the theorems.
Classes and loops are proved equal to those functions. Where something holds only sometimes, the exact
condition is proved with it.

## Modelling decisions

- UUIDs are natural numbers and instants are integers; new identifiers, clock readings and executor
  answers are parameters, quantified over by every theorem.
- Integers are unbounded; the source uses `i32`. On guarded runs `lock_version` stays within `3 * max(1,
  max_retries) - 1` (`Lifecycle.GuardedRunsKeepLifecycle`), which fits exactly if `max_retries <=
  715827882` (`Descriptions.VersionBoundFitsIff`); beyond that it is exceeded with executors that answer
  retryable failures (`Descriptions.LargeBudgetOverflows`). The shipped ones never do, and keep it at 2
  or below (`DeadLetters.ShippedFailuresAreDead`). Unvalidated writers can raise it without bound, so
  wrap-around or overflow panics are outside the model there.
- Budgets are stated for every `max_retries`, zero and negative included: the first execution needs no
  budget, so the bounds use `max(1, max_retries)`.
- In `Protocol`, each repository operation is one step, because the in-memory repositories hold all
  their locks for the whole operation. A caller presents a token it was shown by an earlier read or
  write; `Linearization.AtomicIffTokenNotAhead` says what goes wrong otherwise. A rollback-record
  repository, optional in the source, is assumed there; the classes have it optional.
- A rejected compare-and-swap reports a conflict; the atomic refusal that `Refusals` finds for it may be
  of another kind, such as an invalid transition.
- The rollback executor accepts a side effect of any class; the other three check it.
- In `Runtime` and `Orchestration`, the service is used by one caller at a time. `Runtime.BookedInStep`
  needs no such assumption.
- The digest is a parameter standing for SHA-256 (section 6.2 of FIPS 180-4) of the JSON text. Lemmas
  that need it assume only that it tells the particular values in question apart. Serialization never
  fails for these types.
- Simulator probabilities are reals and draws are millionths.

## Where the code and its descriptions differ

The model follows the code.

- `create` overwrites a repeated identifier and spoils the indexes; see the `Create` methods.
- `auto_executable_count` is described as a subset of eligible or ready and is not; see
  `Policy.AutomaticSubsetIff` and `Policy.AutomaticIsNoSubset`.
- The skipped counter never counts a skip, and the failed counter never counts an execution that ends in
  Failed: both are booked as successes. `Descriptions.SkippedCounterRightOnStoreIff` and
  `Descriptions.FailedCounterRightOnLedgerIff` say for which stores and ledgers the counters are right.
- `execute_existing_run` accepts a run of any status, so counters equal the total only after exactly one
  execution; see `Descriptions.CountersEqualTotalIffOnce` and `Descriptions.SecondExecutionCountsTwice`.
- Step 2 of the description of `execute_action` takes Automatic feasibility as enough; the code, like
  the list further down in the same description, wants Rollback with it. See
  `Descriptions.ExecutionAsDescribedIff` and `Descriptions.AutomaticCounterActionIsRefused`.
- Ready is described as Approved and Automatic, and the runtime's execute choice by two pairs; the code
  uses all four pairs. See `Descriptions.ReadyAsDescribedIff` and `Descriptions.ChoiceAsDescribedIff`,
  with their witnesses.
- A bundle's manifest hash is computed in status Generating, and the verifier that reads the manifest
  requires Ready; see `Forensics.ReadyBundleFailsManifestCheck`.

## Model

| member | source | states |
|---|---|---|
| `Linearization.TwoPhasesAreOne` | crates/compensation-service/src/compensation_action_service.rs:351-453 | a call validated on an old snapshot whose compare-and-swap succeeds now finds exactly the action it validated, untouched since, and equals one atomic guarded call made now |
| `Linearization.RunKeepsInv` | crates/compensation-service/src/compensation_action_service.rs:351-453 | every state of every interleaving (any clients, raw writers included) keeps the protocol invariant: store = history, snapshots were current when read, no token runs ahead of its snapshot |
| `Linearization.RunsLinearize` | crates/compensation-service/src/compensation_action_service.rs:351-453 | over every interleaving the store is the one a single client gets by performing the committed calls atomically in commit order |
| `Linearization.CommitsAreAtomic` | crates/compensation-service/src/compensation_action_service.rs:790-833 | each committed call, performed by itself at its place in that order, succeeds with the answer the concurrent caller got, and nobody wrote its action between snapshot and commit |
| `Linearization.AtomicIffTokenNotAhead` | crates/compensation-service/src/compensation_action_service.rs:351-382 | a successful write lands on the validated snapshot if and only if the caller's token is not ahead of that snapshot |
| `Linearization.GuessedTokenLandsElsewhere` | crates/compensation-service/src/compensation_action_service.rs:351-382 | the failing side of that condition, with a witness: a token the caller never read lets an approval overwrite an action the validation would have refused |
| `Linearization.RunKeepsBalance` | crates/compensation-service/src/compensation_action_service.rs:420-450 | for each action and record kind, records written plus clients between commit and record equal the committed calls owing such a record, over every interleaving |
| `RecordIntegrity.StepKeepsIdentity` | crates/compensation-service/src/compensation_action_repo.rs:286-315 | no step of any run removes an action or changes its tenant, effect, intent, strategy or budget |
| `RecordIntegrity.RecordsAlwaysMatch` | crates/compensation-service/src/rollback_record.rs:87-184 | over every interleaving each rollback record names a stored action, carries its tenant, effect and intent, and has an error code exactly if it records a failure |
| `Refusals.RejectionsLinearize` | crates/compensation-service/src/compensation_action_service.rs:494-652 | over every guarded interleaving, a rejected compare-and-swap has a moment between the call's snapshot and now at which the same call, made atomically, would have been refused |
| `Refusals.DenialsLinearize` | crates/compensation-service/src/compensation_action_service.rs:357-370 | a call turned away by its own validation is refused atomically at that moment with the same error, over every interleaving |
| `Refusals.RejectedTokenIsRefusedNow` | crates/compensation-service/src/compensation_action_service.rs:372-381 | a rejected call with a caller's token would be refused atomically now, raw writers included |
| `Refusals.ExecutionRefusedIffNotApproved` | crates/compensation-service/src/compensation_action_service.rs:539-540 | a rejected execution has an atomic counterpart at a moment of its window if and only if the action was not Approved then |
| `Refusals.RawWriterBreaksRefusals` | crates/compensation-service/src/compensation_action_service.rs:311-341 | the witness that this needs guarded writers: an unvalidated rewrite as Approved makes an execution fail that would succeed atomically at every moment |
| `RecordIntegrity.RecordsAlwaysTell` | crates/compensation-service/src/compensation_action_service.rs:705-740 | over every interleaving each rollback record tells kind, code, actor and identity of a call that was committed on its action |
| `RecordIntegrity.RecordTells` | crates/compensation-service/src/rollback_record.rs:87-184 | the record the service builds, field by field, with the identifier and time it is given |
| `History.VersionsTell` | crates/compensation-service/src/compensation_action_repo.rs:266-433 | versions never fall, and equal versions at two moments mean no write to the action in between (no ABA) |
| `ActionStore.ApplyFrame` | crates/compensation-service/src/compensation_action_repo.rs:286-315 | every accepted write raises lock_version by one and leaves the identity fields alone |
| `CallContracts.TransitionsTell` | crates/compensation-service/src/compensation_action.rs:326-401 | the four permitted transitions written out; a status is terminal iff no transition leads out of it |
| `CallContracts.RetryableIffTransient` | crates/compensation-service/src/compensation_action.rs:158-196 | a code is retryable iff it is one of the twelve listed strings |
| `CallContracts.RetryPolicyTells` | crates/compensation-service/src/compensation_action.rs:209-293 | reapprovable iff Failed with budget left and no code or a transient one; dead letter iff Failed otherwise |
| `CallContracts.WriteFailsIff` | crates/compensation-service/src/compensation_action_repo.rs:266-433 | a write fails on a missing action, then on a stale token, then on reopening what has not failed, each with its own error and the store unchanged; otherwise it succeeds |
| `CallContracts.StatusUpdateTells` | crates/compensation-service/src/compensation_action_repo.rs:286-315 | every field a status update leaves: the timestamp of the new status, a name only if one was given |
| `CallContracts.ResultTells` | crates/compensation-service/src/compensation_action_repo.rs:348-372 | every field a recorded result leaves: the executor's answer itself, one more attempt, the time the answer reports |
| `CallContracts.ApproveTells` | crates/compensation-service/src/compensation_action_service.rs:351-382 | the whole contract of an approval: which error comes first, or who approved and when |
| `CallContracts.WaiveTells` | crates/compensation-service/src/compensation_action_service.rs:394-453 | the whole contract of a waiver |
| `CallContracts.ExecuteTells` | crates/compensation-service/src/compensation_action_service.rs:494-652 | the whole contract of an execution, with the answer recorded unchanged |
| `CallContracts.ReapproveTells` | crates/compensation-service/src/compensation_action_service.rs:790-833 | the whole contract of a reapproval, which leaves approval, waiver, attempts and result alone |
| `CallContracts.ReapprovableAfterFailureIff` | crates/compensation-service/src/compensation_action.rs:240-260 | after a failure with budget left the next reapproval succeeds iff the executor gave no code or a transient one |
| `Provenance.FieldsStemFromCalls` | crates/compensation-service/src/compensation_action_repo.rs:286-421 | over every guarded interleaving: approver, waiver and executor are the last ones named by a committed call, the timestamps and the result those of the last such call, whatever was reapproved in between |
| `Lifecycle.CallKeepsLifecycle` | crates/compensation-service/src/compensation_action.rs:326-390 | every permitted call keeps the closed-form lifecycle predicate |
| `Lifecycle.GuardedRunsKeepLifecycle` | crates/compensation-service/src/compensation_action_repo.rs:286-421 | in every state of every guarded interleaving lock_version is 3*attempts, +1 or -1 by status, attempts stay within max(1, max_retries), lock_version never exceeds 3*max(1, max_retries)-1, and each timestamp is set exactly in its status |
| `Lifecycle.LogCounts` | crates/compensation-service/src/compensation_action_service.rs:494-652 | the committed approvals, executions and owed records of an action are determined by its attempt count and status |
| `Lifecycle.ApprovalsMatchAttempts` | crates/compensation-service/src/compensation_action_service.rs:494-652 | successful approvals = attempt_count + 1 if currently Approved, over every guarded interleaving |
| `Lifecycle.OneResultPerApproval` | crates/compensation-service/src/compensation_action_service.rs:539-652 | between two recorded results lies an approval, and the later result comes from a snapshot read after it: racing or slow executors record at most one result per approval |
| `Lifecycle.LedgerConservation` | crates/compensation-service/src/compensation_action_service.rs:705-740 | rollback records + clients about to write one = attempt_count + 1 if Waived; at most one Success record, and when nobody is in between there is one exactly if Executed |
| `DeadLetters.FailedIsReapprovableOrDead` | crates/compensation-service/src/compensation_action.rs:209-293 | Failed = reapprovable or dead letter, never both; the denial reason exists exactly when reapproval is impossible |
| `DeadLetters.QuiescentIffAllDenied` | crates/compensation-service/src/compensation_action.rs:326-401 | terminal, dead-lettered or approved-but-unexecutable actions are exactly those every guarded call refuses |
| `DeadLetters.QuiescentForever` | crates/compensation-service/src/compensation_action_service.rs:790-833 | absorption: once quiescent (dead letters included) an action never changes again, whatever guarded calls follow in whatever interleaving |
| `DeadLetters.ShippedFailuresAreDead` | crates/compensation-service/src/compensation_action_service.rs:551-622 | with the shipped executors, over all actions, ledgers and guarded interleavings: every failure is a dead letter, reapproval is always refused, attempts <= 1 and lock_version <= 2 |
| `Executors.CheckedIsFinal` | crates/compensation-service/src/counter_action_executor.rs:34-132 | whichever gate of an executor fails, its error code is permanent |
| `Executors.ShippedResultsAreFinal` | crates/compensation-service/src/compensation_action_service.rs:551-622 | whatever the action and the ledger, the chosen executor succeeds or fails with a code off the retry list |
| `Executors.ShippedSucceedsIff` | crates/compensation-service/src/rollback_executor.rs:30-113 | the shipped executors succeed if and only if the pair is executable and the ledger, where there is one, holds the effect with the action's tenant and intent and the class the strategy calls for (any, for Rollback) |
| `Executors.FailureCodeTells` | crates/compensation-service/src/counter_action_executor.rs:34-132 | the code of a failed execution names the first failing check: effect missing, other tenant, other intent, wrong class |
| `Executors.FallbackTells` | crates/compensation-service/src/compensation_action_service.rs:573-621 | without a ledger executable pairs succeed; any other pair fails with its own code |
| `Executors.ExecutorGatesTell` | crates/compensation-service/src/followup_notice_executor.rs:34-134 | called on its own each executor refuses another strategy first and another feasibility next |
| `Indexes.PushExactIffNew` | crates/compensation-service/src/compensation_action_repo.rs:148-170 | inserting a row keeps a secondary index exact if and only if its identifier is new |
| `Indexes.MoveKeepsExact` | crates/compensation-service/src/compensation_action_repo.rs:317-324 | retain-then-push moves a rewritten row between index lists and keeps every list exact |
| `Indexes.LookupIsScan` | crates/compensation-service/src/compensation_action_repo.rs:226-264 | an exact index answers a query with the scan of the primary map: each matching row once, nothing else |
| `Sorting.NewestFirstSorts` | crates/compensation-service/src/compensation_action_repo.rs:190-203 | the newest-first sort is ordered, a permutation and stable |
| `Sorting.NewestFirstUnique` | crates/compensation-service/src/compensation_action_repo.rs:190-203 | order and stability determine the result: any two such sequences are equal |
| `Sorting.NewestOfTells` | crates/compensation-service/src/compensation_action_repo.rs:191-203 | a limited listing is a newest-first prefix: nothing left out is newer than anything returned |
| `Indexes.ScanSize` | crates/compensation-service/src/compensation_action_repo.rs:181-203 | a scan has as many rows as the table has matches |
| `ActionRepositories.ActionRepository.Create` | crates/compensation-service/src/compensation_action_repo.rs:138-171 | stores the action; all four indexes stay exact if and only if the identifier was new |
| `ActionRepositories.ActionRepository.ListByTenant` | crates/compensation-service/src/compensation_action_repo.rs:181-203 | rows of the tenant, each once, newest first; as many as there are or as the limit allows; no matching row left out is newer than one returned |
| `ActionRepositories.ActionRepository.ListBySideEffect` | crates/compensation-service/src/compensation_action_repo.rs:205-224 | exactly the tenant's actions for the side effect, each once |
| `ActionRepositories.ActionRepository.ListByIntent` | crates/compensation-service/src/compensation_action_repo.rs:226-244 | exactly the tenant's actions of the intent, each once |
| `ActionRepositories.ActionRepository.ListByStatus` | crates/compensation-service/src/compensation_action_repo.rs:246-264 | exactly the tenant's actions in the status, each once |
| `ActionRepositories.ActionRepository.UpdateStatus` | crates/compensation-service/src/compensation_action_repo.rs:266-327 | is the compare-and-swap of the specification, accepted or rejected, and keeps every index exact |
| `ActionRepositories.ActionRepository.RecordResult` | crates/compensation-service/src/compensation_action_repo.rs:329-384 | the same for recording a result |
| `ActionRepositories.ActionRepository.Reapprove` | crates/compensation-service/src/compensation_action_repo.rs:386-433 | the same for reopening, which also refuses anything not Failed |
| `RollbackRecordRepositories.RollbackRecordRepository.Create` | crates/compensation-service/src/rollback_record_repo.rs:113-158 | stores the record; all five indexes stay exact if and only if the identifier was new |
| `RollbackRecordRepositories.RollbackRecordRepository.ListByTenant` | crates/compensation-service/src/rollback_record_repo.rs:167-189 | rows of the tenant, each once, newest first; as many as there are or as the limit allows; no matching row left out is newer than one returned |
| `RollbackRecordRepositories.RollbackRecordRepository.ListByCompensationAction` | crates/compensation-service/src/rollback_record_repo.rs:191-211 | exactly the tenant's records of the action |
| `RollbackRecordRepositories.RollbackRecordRepository.ListByResult` | crates/compensation-service/src/rollback_record_repo.rs:254-272 | exactly the tenant's records of the kind |
| `SideEffectLedger.LedgerKeysStayUnique` | crates/compensation-service/src/side_effect_service.rs:58-111 | over any sequence of service calls at most one effect exists per tenant and idempotency key |
| `SideEffectLedger.RepeatedKeyReturnsFirst` | crates/compensation-service/src/side_effect_repo.rs:121-159 | a later call with the same tenant and key, whatever its payload and whatever came between, returns what the first returned and stores nothing |
| `SideEffectLedger.FirstWithKeyScans` | crates/compensation-service/src/side_effect_repo.rs:190-206 | the first effect with a key is found exactly when a scan of the ledger finds one |
| `SideEffectLedger.AppendRefinesIffNew` | crates/compensation-service/src/side_effect_repo.rs:99-119 | storing keeps the three maps in step with the ledger if and only if the id is new and the key not taken |
| `SideEffectLedger.SideEffectRepository.Create` | crates/compensation-service/src/side_effect_repo.rs:99-119 | appends to the ledger; the indexes survive if and only if id and key are new |
| `SideEffectLedger.SideEffectRepository.GetOrCreateIdempotent` | crates/compensation-service/src/side_effect_repo.rs:121-159 | returns the first effect with that key or stores this one |
| `SideEffectLedger.SideEffectRepository.ListByIntent` | crates/compensation-service/src/side_effect_repo.rs:168-188 | the stable newest-first permutation of the tenant's effects of the intent |
| `SideEffectLedger.SideEffectRepository.FindByIdempotencyKey` | crates/compensation-service/src/side_effect_repo.rs:190-206 | agrees with a scan of the ledger |
| `SideEffectLedger.SideEffectService.RecordSideEffect` | crates/compensation-service/src/side_effect_service.rs:58-76 | one step of the ledger's history with a keyless effect |
| `SideEffectLedger.SideEffectService.RecordSideEffectWithIdempotency` | crates/compensation-service/src/side_effect_service.rs:90-111 | one step of the ledger's history with a keyed effect |
| `ActionServices.ActionService.ApproveAction` | crates/compensation-service/src/compensation_action_service.rs:351-382 | without other writers, equals the atomic guarded call; indexes stay exact |
| `ActionServices.ActionService.WaiveAction` | crates/compensation-service/src/compensation_action_service.rs:394-453 | the same, and leaves exactly one rollback record exactly when it succeeds |
| `ActionServices.ActionService.ExecuteAction` | crates/compensation-service/src/compensation_action_service.rs:494-743 | the same with the shipped executors' answer, and one rollback record of the right kind exactly when a result was recorded |
| `ActionServices.ActionService.ReapproveAction` | crates/compensation-service/src/compensation_action_service.rs:790-833 | equals the atomic guarded call, whatever the clock and executor say |
| `ActionServices.ActionService.PlanCompensationActions` | crates/compensation-service/src/compensation_action_service.rs:159-190 | stores exactly the plan for the tenant's effects of the intent and returns it in order; without a ledger nothing changes |
| `ActionServices.ActionService.ListDlqCandidates` | crates/compensation-service/src/compensation_action_service.rs:849-865 | exactly the tenant's dead letters |
| `ActionServices.ActionService.ListBatchCandidates` | crates/compensation-service/src/compensation_action_service.rs:895-941 | four scans that partition the tenant's Pending, executable Approved and Failed actions without overlap |
| `Planner.PlanCoversEffects` | crates/compensation-service/src/compensation_planner.rs:132-252 | one fresh, pending, service-executable action per effect that is no pure read, in order, under distinct identifiers |
| `Planner.PlannedPairTells` | crates/compensation-service/src/compensation_planner.rs:149-252 | the strategy and feasibility each effect class is planned with, written out; none for a pure read |
| `EndToEnd.PlanFitsExecutors` | crates/compensation-service/src/escalation_executor.rs:34-132 | the executor of a planned action succeeds: planner pairs, service gate and executor checks agree |
| `EndToEnd.EffectsAreTheTenants` | crates/compensation-service/src/side_effect_repo.rs:168-188 | planning reads exactly the tenant's effects of the intent |
| `EndToEnd.PlanApproveExecute` | crates/compensation-service/src/compensation_action_service.rs:159-190 | for any ledger, store and fresh identifiers: plan, batch approve, batch execute leaves one Executed action with attempt_count 1 per effect that is no pure read, and everything else unchanged |
| `EndToEnd.CompensationGainsOneSuccess` | crates/compensation-service/src/compensation_action_service.rs:705-740 | approving and executing a planned action leaves exactly one new record of it, a success with its identity |
| `EndToEnd.PlanApproveExecuteOn` | crates/compensation-service/src/compensation_action_service.rs:159-190 | the three calls on a live service: every planned action ends compensated by its first attempt, the rest of the store is unchanged; without a ledger nothing happens; each planned action gains exactly one record, of its success |
| `Sweeps.SweepIsTrail` | crates/compensation-service/src/orchestration_runtime.rs:119-157 | a pass adds and removes nothing, leaves other tenants alone, and moves each owned action once per listing independently of the others |
| `Sweeps.DistinctSweep` | crates/compensation-service/src/orchestration_runtime.rs:119-157 | over a list without repeats each listed owned action takes exactly one step |
| `Sweeps.HitsAreTargets` | crates/compensation-service/src/compensation_action_orchestration.rs:190-262 | a command that exhausts its own eligibility acts once per distinct eligible listed action, however often it is listed |
| `Orchestration.ProposalIffCallSucceeds` | crates/compensation-service/src/compensation_action_orchestration.rs:78-170 | a proposal is made exactly when that call, with the version just read, succeeds on the current store |
| `Orchestration.PlanOrchestrationActions` | crates/compensation-service/src/compensation_action_orchestration.rs:29-75 | the dry run lists every owned identifier with its proposal and every other as missing, and its counters are exact and add up |
| `Orchestration.CommandConsumes` | crates/compensation-service/src/compensation_action_orchestration.rs:190-423 | an action a batch command has acted on is no longer eligible for it; others are left alone |
| `Orchestration.BatchItemIsStep` | crates/compensation-service/src/compensation_action_orchestration.rs:190-423 | an item succeeds exactly on an owned eligible action and then makes the specified step |
| `Orchestration.BatchActsOnce` | crates/compensation-service/src/compensation_action_orchestration.rs:190-423 | over any list, repeats included: each owned eligible listed action takes one step at its first listing, every other action is unchanged |
| `Orchestration.RunBatch` | crates/compensation-service/src/compensation_action_orchestration.rs:190-423 | outcomes match identifiers position by position, succeeded + failed = total, missing identifiers are exactly the unowned ones and counted as failed, succeeded = number of distinct eligible owned listed actions at the start; with a record repository, exactly the records of its executions are added |
| `Orchestration.CommandTells` | crates/compensation-service/src/compensation_action_orchestration.rs:190-423 | what each batch command makes of an action, field by field, with the actor and the clock of its position |
| `Orchestration.BatchRecordsMatch` | crates/compensation-service/src/compensation_action_service.rs:705-740 | whatever the list, each action gains as many rollback records as attempts; old records stay; approving and reapproving leave none |
| `Orchestration.BatchRecordsTell` | crates/compensation-service/src/compensation_action_service.rs:705-740 | each new record is of a tenant's listed action and tells success or failure and code of the execution at its position |
| `PassRecords.GainedMatchAttempts` | crates/compensation-service/src/compensation_action_service.rs:705-740 | for any pass: new records per action equal the rise of its attempts, old records are unchanged |
| `PassRecords.GainedTell` | crates/compensation-service/src/compensation_action_service.rs:705-740 | for any pass: each new record carries the identity of the action it met and how that execution ended |
| `OrchestrationRuns.BookedOne` | crates/compensation-service/src/orchestration_run.rs:152-214 | each recorded item bumps exactly one counter |
| `OrchestrationRuns.CountsCover` | crates/compensation-service/src/orchestration_run.rs:152-214 | the counters together count every item once |
| `Runtime.StatusTells` | crates/compensation-service/src/orchestration_run.rs:140-149 | if nothing failed, the final status is Completed iff no identifier was missing, Failed iff the list is nonempty and all were, else CompletedWithErrors |
| `OrchestrationRuns.RunRepository.Create` | crates/compensation-service/src/orchestration_run_repo.rs:67-78 | stores the run; the tenant index survives if and only if the identifier was new |
| `OrchestrationRuns.RunRepository.Update` | crates/compensation-service/src/orchestration_run_repo.rs:87-95 | replaces a stored run or reports it missing; the tenant index stays exact if and only if the tenant did not change |
| `OrchestrationRuns.RunRepository.ListByTenant` | crates/compensation-service/src/orchestration_run_repo.rs:97-117 | rows of the tenant, each once, newest first; as many as there are or as the limit allows; no matching row left out is newer than one returned |
| `RuntimeSpec.DecidedCallSucceeds` | crates/compensation-service/src/orchestration_runtime.rs:207-319 | the call a decision leads to succeeds on the action it was decided for |
| `RuntimeSpec.RunFollowsTrails` | crates/compensation-service/src/orchestration_runtime.rs:119-203 | for any list: the decision at a position is the dry run's answer for the action as its earlier listings left it, so k listings take k steps |
| `RuntimeSpec.DryRunPredictsRun` | crates/compensation-service/src/orchestration_runtime.rs:119-203 | without repeats every decision equals the dry run's proposal on the initial store |
| `RuntimeSpec.RunIsOneStepEach` | crates/compensation-service/src/orchestration_runtime.rs:119-203 | without repeats the run moves each listed owned action by one step and changes nothing else |
| `RuntimeSpec.AdvanceTells` | crates/compensation-service/src/orchestration_runtime.rs:207-319 | what one step of a run makes of an action, field by field |
| `RuntimeSpec.RunRecordsMatch` | crates/compensation-service/src/orchestration_runtime.rs:246-253 | whatever the list, a run adds as many rollback records per action as attempts and changes no old one |
| `RuntimeSpec.RunRecordsTell` | crates/compensation-service/src/orchestration_runtime.rs:246-253 | each record a run adds tells the execution at its position |
| `RuntimeSpec.AdvanceLowersRank` | crates/compensation-service/src/compensation_action.rs:240-260 | a step of the runtime strictly lowers the measure of an action unless it is quiescent, and then does nothing |
| `RuntimeSpec.RepeatedRunsConverge` | crates/compensation-service/src/orchestration_runtime.rs:107-164 | whatever the executors answer, after 3*max(1, max_retries)-1 runs over the same list every listed owned action is quiescent and further runs leave the store unchanged |
| `RuntimeSpec.BoundIsTight` | crates/compensation-service/src/orchestration_runtime.rs:107-164 | no smaller number of runs suffices: with retryable failures a fresh executable action is quiescent exactly at the bound |
| `RuntimeSpec.ShippedRunsConverge` | crates/compensation-service/src/compensation_action_service.rs:551-622 | with the shipped executors, whatever the ledgers, clocks and budgets, two runs over a list settle every listed owned action, and further runs change nothing |
| `RuntimeSpec.OneRunSufficesIff` | crates/compensation-service/src/compensation_action_service.rs:551-622 | without repeats one run suffices if and only if no listed owned action is pending and executable, so two is tight |
| `RuntimeSpec.PassesSettle` | crates/compensation-service/src/orchestration_runtime.rs:107-164 | the principle behind both: a measure every step lowers until rest bounds the number of runs |
| `Runtime.OrchestrationRuntime.ProcessSingleAction` | crates/compensation-service/src/orchestration_runtime.rs:170-319 | reports a missing or foreign action as not found, else makes exactly the decided step and reports the status it left; an execution leaves its rollback record and nothing else does |
| `Runtime.OrchestrationRuntime.ExecuteExistingRun` | crates/compensation-service/src/orchestration_runtime.rs:107-164 | one sweep of the store; the stored run takes exactly the values started, after each item, finished; with a record repository, exactly the records of its executions are added |
| `Runtime.OrchestrationRuntime.ExecuteRun` | crates/compensation-service/src/orchestration_runtime.rs:90-101 | a new run stored and executed by such a sweep; the stored run takes exactly the values created, started, after each item, finished |
| `Runtime.OrchestrationRuntime.CreateRun` | crates/compensation-service/src/orchestration_runtime.rs:64-73 | every field of the new run, stored under its identifier |
| `Runtime.StatusOfItems` | crates/compensation-service/src/orchestration_run.rs:140-149 | whatever happened to the items of a first execution: Completed iff all succeeded, Failed iff there were some and none did, else CompletedWithErrors |
| `Runtime.BookedInStep` | crates/compensation-service/src/orchestration_runtime.rs:119-157 | whatever happens to the items, a first execution's item results line up with a prefix of the list and its counters add up to them |
| `Runtime.RunValuesInStep` | crates/compensation-service/src/orchestration_runtime.rs:119-157 | every value a first execution persists is in step in that sense |
| `Runtime.CountersCloseIffFirst` | crates/compensation-service/src/orchestration_run.rs:152-214 | at completion the counters add up to total_count if and only if they started at zero |
| `Runtime.FirstExecutionBooks` | crates/compensation-service/src/orchestration_run.rs:140-149 | without other writers: Completed iff all identifiers were found, Failed iff the list is nonempty and none was, else CompletedWithErrors; nothing is counted as failed or skipped |
| `Runtime.NewRunBooks` | crates/compensation-service/src/orchestration_runtime.rs:90-101 | the same books for a new run executed at once, whose items are those of the sweep |
| `Runtime.RunMatchesDryRun` | crates/compensation-service/src/compensation_action_orchestration.rs:29-75 | the items of a finished first execution without repeats are the dry run's answers on the initial store |
| `Policy.ViewsAgree` | crates/compensation-service/src/compensation_action_policy.rs:107-146 | gate Eligible iff coordination Ready iff proposal Execute; gate Blocked iff coordination Blocked or Terminal iff not Approved and every call refused; coordination Blocked iff dead letter |
| `Policy.EvaluatePolicyGates` | crates/compensation-service/src/compensation_action_policy.rs:53-88 | one evaluation per action in order, every counter exact, the three gate counts add up to the total |
| `Policy.EvaluateCoordination` | crates/compensation-service/src/compensation_action_policy.rs:347-380 | one record per action in order, every counter exact, the five status counts add up to the total |
| `Policy.SummariesAgree` | crates/compensation-service/src/compensation_action_types.rs:430-445 | the two summaries of the same actions determine each other: eligible = ready, blocked = blocked + terminal, dead letters = coordination blocked, pending = awaiting policy |
| `Policy.AutomaticSubsetIff` | crates/compensation-service/src/compensation_action_types.rs:443-444 | the automatic counter counts a subset of the eligible actions if and only if every Automatic action is an approved Rollback (ready: if and only if every executable action is Approved) |
| `Policy.AutomaticIsNoSubset` | crates/compensation-service/src/compensation_action_types.rs:619-620 | a planned rollback awaiting approval is counted as automatic and not as eligible or ready |
| `Descriptions.ExecutionAsDescribedIff` | crates/compensation-service/src/compensation_action_service.rs:459-463 | an approved action is executed as described (Automatic, or one of three pairs) if and only if it is not Automatic with a strategy other than Rollback |
| `Descriptions.AutomaticCounterActionIsRefused` | crates/compensation-service/src/compensation_action_service.rs:459-463 | the witness: an approved Automatic counter-action fits the description and is refused |
| `Descriptions.ReadyAsDescribedIff` | crates/compensation-service/src/compensation_action_types.rs:187-191 | Ready coincides with Approved and Automatic exactly for the listed combinations of status, strategy and feasibility |
| `Descriptions.SemiAutomaticCounterActionIsReady` | crates/compensation-service/src/compensation_action_types.rs:187-191 | the witness: an approved SemiAutomatic counter-action is Ready |
| `Descriptions.ChoiceAsDescribedIff` | crates/compensation-service/src/orchestration_runtime.rs:80-85 | the runtime executes what is described (two pairs) except that it also executes approved notices and escalations |
| `Descriptions.EscalationIsChosen` | crates/compensation-service/src/orchestration_runtime.rs:80-85 | the witness: an approved escalation is executed |
| `Descriptions.SkippedCounterRightIff` | crates/compensation-service/src/orchestration_run.rs:64-65 | for any list, the skipped counter of a first execution is the number of skipped actions if and only if no listed action of the tenant is quiescent when its turn comes |
| `Descriptions.SkippedCounterRightOnStoreIff` | crates/compensation-service/src/orchestration_run.rs:64-65 | without repeats: if and only if no listed action of the tenant is quiescent in the store the run starts from |
| `Descriptions.SkipIsBookedAsSuccess` | crates/compensation-service/src/orchestration_runtime.rs:195-201 | the witness: a terminal action is skipped and counted as a success |
| `Descriptions.FailedCounterRightIff` | crates/compensation-service/src/orchestration_runtime.rs:122-139 | for any list and executors, the failed counter of a first execution is the number of executions that ended in Failed if and only if every listed action due for execution when its turn comes succeeds |
| `Descriptions.FailedCounterRightOnStoreIff` | crates/compensation-service/src/orchestration_runtime.rs:122-139 | without repeats: if and only if the executors succeed on every listed due action of the initial store |
| `Descriptions.FailedCounterRightOnLedgerIff` | crates/compensation-service/src/orchestration_runtime.rs:122-139 | with the shipped executors: if and only if the ledger, where there is one, supports every listed due action |
| `Descriptions.ExecutionIsBookedAsSuccess` | crates/compensation-service/src/orchestration_runtime.rs:246-253 | the witness: a single execution is counted as a success whatever the executor answered, and its status tells the answer |
| `Descriptions.ReexecutionAccumulates` | crates/compensation-service/src/orchestration_runtime.rs:107-164 | whatever the stores and passes, k executions of a stored run count and list every identifier k times |
| `Descriptions.CountersEqualTotalIffOnce` | crates/compensation-service/src/orchestration_runtime.rs:107-164 | for a nonempty run the counters equal total_count, and the items match it in number, if and only if it was executed exactly once |
| `Descriptions.SecondExecutionCountsTwice` | crates/compensation-service/src/orchestration_runtime.rs:107-164 | the witness: a run over one identifier executed twice counts two of one |
| `Descriptions.VersionBoundFitsIff` | crates/compensation-service/src/compensation_action.rs:435-440 | the guarded bound on lock_version fits a 32-bit integer if and only if max_retries <= 715827882 |
| `Descriptions.LargeBudgetOverflows` | crates/compensation-service/src/compensation_action.rs:435-440 | beyond that budget, with executors that answer retryable failures (the shipped ones never do), repeated runs reach lock_version 2^31 |
| `Simulator.Draw` | crates/compensation-service/src/compensation_simulator.rs:43-60 | the seeded draw lies in [0, 1) in millionths |
| `Simulator.ScrambleIsUndone` | crates/compensation-service/src/compensation_simulator.rs:43-48 | the generator step with its constants written out is undone by its inverse, so no two seeds collide before the remainder |
| `Simulator.DefaultWinsTell` | crates/compensation-service/src/compensation_simulator.rs:125-134 | with the default probabilities, the draws below which each class succeeds, in millionths |
| `Simulator.OutcomeTells` | crates/compensation-service/src/compensation_simulator.rs:343-409 | an outcome in full: probability, risk thresholds, and the first reason of a failure |
| `Simulator.SimulateActions` | crates/compensation-service/src/compensation_simulator.rs:931-943 | one outcome per action in order, exact counts, and the worst risk among the outcomes |
| `Simulator.WorstIsMaximum` | crates/compensation-service/src/compensation_simulator.rs:437-442 | the overall risk is attained by an outcome and bounds all of them |
| `Simulator.DeterministicAgrees` | crates/compensation-service/src/compensation_simulator.rs:965-1015 | deterministic success is predicted exactly for service-executable actions, and exactly when the service's fallback execution succeeds |
| `Simulator.PlannedPredictionHolds` | crates/compensation-service/src/compensation_simulator.rs:495-548 | for every action planned from a ledger the prediction and the real executor agree |
| `Simulator.CleanReportIffExecutable` | crates/compensation-service/src/compensation_simulator.rs:432-453 | a deterministic report has no failure iff every action is executable; its overall risk is Low then and High otherwise |
| `Simulator.OneDrawDecidesAll` | crates/compensation-service/src/compensation_simulator.rs:527-546 | in seeded stochastic mode an action succeeds exactly if its pair is valid and its class's probability exceeds the one draw |
| `Simulator.SuccessesAreMonotone` | crates/compensation-service/src/compensation_simulator.rs:527-546 | with the same seed, raising probabilities loses no success |
| `Simulator.DefaultWinsAreDownwardClosed` | crates/compensation-service/src/compensation_simulator.rs:125-134 | with the default probabilities, if a class succeeds so does every milder class |
| `Forensics.Generate` | crates/forensic-service/src/bundle_generator.rs:74-196 | every recorded hash, in the manifest and beside it, is the hash of that section; the manifest check passes; the bundle is Generating and carries the request's fields |
| `Forensics.VerifyBundleIntegrity` | crates/forensic-service/src/bundle_hasher.rs:149-231 | reports exactly the sections whose hashes differ from the recorded ones, in order |
| `Forensics.VerifyBundleWithIntegrity` | crates/forensic-service/src/bundle_replay.rs:341-514 | accepts any status; audit trail and report cover the five sections in order |
| `Forensics.ResultsFail` | crates/forensic-service/src/bundle_replay.rs:129-162 | a report's failing sections are the mismatching ones, and its counters count them |
| `Forensics.ContentVerifiesIffEqual` | crates/forensic-service/src/bundle_hasher.rs:149-231 | content verifies against a generated bundle iff all five sections equal the originals; otherwise exactly the differing sections are reported |
| `Forensics.VerifiersAgree` | crates/forensic-service/src/bundle_replay.rs:527-687 | the replay verifiers agree with the hash verifier section by section; the one reading the manifest answers exactly if the bundle is Ready |
| `Forensics.ManifestDetectsEveryChange` | crates/forensic-service/src/bundle_replay.rs:699-704 | a bundle that keeps the manifest hash of a verified bundle passes the manifest check iff it is that bundle |
| `Forensics.ReadyBundleFailsManifestCheck` | crates/forensic-service/src/bundle_replay.rs:527-704 | a generated bundle moved to Ready fails the manifest check, so no bundle keeping the generated manifest hash passes both the manifest check and the verifier that requires Ready |

## Left out

- The SQLx repositories, transactions and row-level security.
- Audit events, tracing and trace context, which have no effect on returned state.
- Reason, summary and rationale texts; error codes and decisions are kept.
- Rollback-record writes that fail (the in-memory repository never fails) and calls abandoned between two of their steps.
- Overlapping reads inside one listing: `list_batch_candidates` reads three lists that other writers could change in between.
- Two identical concurrent executor calls: the executor runs before the compare-and-swap, so calls to it are not limited, only recorded results are.
- Policy metadata and risk labels other than those the summaries count, and the remaining listings by side effect and intent of rollback records, which repeat the proved pattern.
- The simulator's recommendations, a finite threshold table.
- The unseeded random draw, which depends on the system clock.
- Rounding of floating-point probabilities.
- Conversions between enums and strings, and serde round trips.
- The deprecated `verify_bundle`, `generate_summary`, bundle storage and the bundle repository.
- The stub executor type and `InMemoryCompensationPlanner`.
- `record_skipped`, which nothing calls.
- HTTP handlers and every other crate of the repository.
