# Extrio: verified models of its control protocols

This project models, in Dafny 4.11, the parts of Extrio whose correctness spans many steps, and proves
what they promise over every run:

* **Bounded recovery** (`RecoveryModel`, `RecoverySafety`, `RecoverySteps`, `RecoveryTheorems`, `RecoveryContinuation`,
  `RecoveryVerdicts`, `RecoveryStore`): a persisted batch retries a rate-limited run under quotas, cool-downs, a
  deadline and host exclusion, driven by `start`, `request_stop`, `tick` and whatever else happens in the store.
* **Catalog diagnostics** (`CatalogModel`, `CatalogSafety`, `CatalogMerge`, `CatalogTheorems`, `CatalogBlocks`,
  `CatalogReport`, `CatalogRunner`): up to four row tasks interleave under per-host locks and shared budgets,
  processes are cut off and resumed, and an independent merger re-validates and adds up the ledgers.
* **Model budget and adaptive session** (`ModelBudget`, `BudgetRules`, `AdaptiveCompile`, `SessionTurns`): reservations,
  crash and resume chains, the bounded agent loop, the retry loop with its stall counter, the evidence cache and the
  prompt envelope.
* **Lease-fenced queues** (`SuggestionQueue`, `SuggestionLeases`, `JobControl`, `JobLeases`, `JobStore`): workers that
  crash, run late or finish twice.
* **Plans** (`RulePlan`, `RuleContract`, `DiscoveryPlan`, `DiscoveryMeaning`): untrusted extraction plans are normalized
  and forced onto a frozen contract.
* **Signed evidence** (`Evidence`, `EvidenceVerdict`): a bundle builder and a verifier that trusts nothing in the
  bundle.
* **Commands and history** (`CommandReceipts`, `SuggestionCommands`, `OwnershipHistory`, `OwnershipMeaning`):
  exactly-once commands and write-once attribution.

`Prelude` and `Text` hold shared vocabulary. Each store transaction, and each stretch of asynchronous code between two
suspension points, is one step. A state machine is a function `Step`; the code that changes records in place is a class
whose methods are proved equal to that function, and the promises are lemmas about all sequences of steps. Beside
them stands, for every operation, what one step decides and writes, said of the stored fields alone. Times are
integers, identifiers are opaque values, digests are compared as the digested values unless a proof is about digests.

Four promises turned out to need a condition; the condition is proved exact and a failing input is given:

* Recovery admits a source that still stores a checkpoint of an earlier rule version, which publishing a rule without a
  field migration does not remove (backend/src/extrio/store.py:2623-2625). A continuation takes up the interrupted window,
  progress and checkpoint exactly when its rule digest is the pinned one and there is no such checkpoint
  (`RecoveryContinuation.ResumesExactly`); with one, the batch gets a single attempt and never counts as recovered
  (`RecoveryContinuation.StaleNeverRecovers`, `RecoveryContinuation.StaleSourceAdmitted`).
* A binding that survives the frozen contract need not name an extracted field. It does, exactly unless a role is bound
  to the list date column while that column is neither frozen nor handed over by the `listPublishedAt` role
  (`RulePlan.BindingsSurvive`); a plan the normalizer itself produces fails (`RulePlan.DanglingBinding`). Joining the
  stages is safe even then (`RulePlan.MergeIsComplete`).
* Normalizing a discovered plan twice is not always the same as once: a selector that begins with `containsOwn(` gets a
  prefix in the first pass and is rewritten in the second, and a label or pattern cut behind white space loses it
  (`DiscoveryPlan.DiscoveryFixedPoint`, `DiscoveryPlan.PlanDrifts`, `DiscoveryPlan.LabelDrifts`, `DiscoveryPlan.PatternDrifts`).
  A check on the raw plan tells exactly when that happens (`DiscoveryPlan.GuardIsExact`).
* A bundle is valid exactly when no evidence path holds a line break (`Evidence.BuildVerifies`). The verifier's
  documentation says that any tampered byte surfaces (backend/src/extrio/evidence.py:291), but neither `SHA256SUMS` nor
  `manifest.sig` is covered by a digest or by the signature: a change of either passes exactly when the list still parses
  to the same digests, or the record still makes the same valid claim, and every other change of a member that does not
  collide surfaces (`Evidence.TamperingExactly`, `Evidence.ChangeSurfaces`). On every built bundle the list followed by one
  more line break passes (`Evidence.ExtraBlankLinePasses`), and so does any other text of the same signature record
  (`Evidence.ReformattedSignaturePasses`).

The stall counter of the explorer stops a session exactly when the last four sets of issues are non-empty, nested upward
and found at one revision of the evidence (`AdaptiveCompile.StallMeaning`). Passes that call the model, read nothing new and
alternate between two different sets never trip it (`AdaptiveCompile.AlternatingStallsIffEqual`); the call budget ends
those, as `AdaptiveCompile.CompileLoop` proves.

`dafny verify dfyconfig.toml` checks the whole project.

## Model

| member | source | states |
|---|---|---|
| RecoverySafety.RecoveryInvariant | backend/src/extrio/bounded_recovery.py:108-307 | over every interleaving of start, request_stop, tick and outside changes: 120 requests are reserved per attempt, at most three attempts and 360 requests; a cooling batch is idle with its next attempt before the deadline; a running or cancelling batch waits for its last attempt; active batches hold disjoint hosts; each seed has one batch and each tagged run belongs to its batch |
| RecoveryTheorems.TerminalForever | backend/src/extrio/bounded_recovery.py:65-69 | a recovered, abandoned or cancelled batch is never changed by anything that follows |
| RecoveryTheorems.StopIsFinal | backend/src/extrio/bounded_recovery.py:195-217 | after a stop request no attempt is ever dispatched again and the batch never ends recovered |
| RecoveryTheorems.DispatchIsDue | backend/src/extrio/bounded_recovery.py:284-305 | only a tick dispatches, one attempt at a time and never a fourth; an attempt starts no earlier than the stored next-attempt time and no earlier than the previous run's finish plus the larger of its scheduled delay and the server's wait, and never in the tick that first reads an ended run without a finish time; strictly before the deadline, with the source unchanged and no other batch holding its hosts |
| RecoveryTheorems.DeadlineTick | backend/src/extrio/bounded_recovery.py:250-285 | a tick at or after the deadline leaves every batch finished, or cancelling with a run that has not ended |
| RecoveryTheorems.RecoveredMeansVerified | backend/src/extrio/bounded_recovery.py:220-235 | a batch becomes recovered only from running, in a tick, when its last attempt ended, took up what the batch was authorised to continue, and left verified progress that agrees with the source |
| RecoveryTheorems.RepeatedOnlyUntouched | backend/src/extrio/bounded_recovery.py:262-279 | a running batch cools down or starts another attempt only after its run met the rate limit under the authorised rule and policy and left no item, checkpoint or progress |
| RecoveryTheorems.SeedBudget | backend/src/extrio/bounded_recovery.py:46-53 | one rate-limited run causes at most three continuation runs and 360 reserved requests over any run of the system, and neither the seed nor a continuation can seed recovery again |
| RecoveryTheorems.StartIsExclusive | backend/src/extrio/bounded_recovery.py:126-192 | a new batch takes hosts that no active batch, no running server wait and no queued work holds |
| RecoveryTheorems.AdmittedRunsApart | backend/src/extrio/bounded_recovery.py:310-323 | two runs the worker admits at the same time belong to batches with disjoint hosts, each the hosts its own source may contact |
| RecoverySteps.StepOutcome | backend/src/extrio/bounded_recovery.py:238-307 | every effect a tick has on one batch is one of: unchanged, stopped, cooling down until exactly the time its run asks for, cancelling or a due dispatch, and its identity and quotas stay |
| RecoveryVerdicts.TickVerdict | backend/src/extrio/bounded_recovery.py:250-305 | over a tick a running batch whose run has ended recovers exactly when context and schedule are unchanged and the run took up what was authorised, stayed in its budget and advanced to where the source is; waits or starts again exactly when it met the rate limit, left nothing and is within quota and deadline; and is given up in all other cases |
| RecoveryVerdicts.EndedTick | backend/src/extrio/bounded_recovery.py:258-305 | the row so judged has exactly the stated reason, times, attempts and reserved requests |
| RecoveryVerdicts.CoolingVerdict | backend/src/extrio/bounded_recovery.py:284-305 | over a tick a cooling batch is given up at its deadline or when source, progress or checkpoint have moved, waits until its time has come, and is then dispatched exactly when the dispatch is admitted |
| RecoveryVerdicts.OtherwiseMeans | backend/src/extrio/bounded_recovery.py:244-261 | a batch of a missing source is given up; a run still under way is told to stop exactly at the deadline or after a stop request; a cancelling batch ends with its run |
| RecoveryVerdicts.LaunchWrites | backend/src/extrio/app.py:2409-2470 | a dispatch adds one queued run of the batch under the active rule and policy, one open operation its source points at, and one queued job |
| RecoveryVerdicts.LaunchBegins | backend/src/extrio/app.py:2381-2407 | a dispatched run begins at saved progress and checkpoint exactly when they fit the proved digest and the policy, with the window of the progress, or else counted back from checkpoint or today |
| RecoveryVerdicts.QuotaGuards | backend/src/extrio/bounded_recovery.py:292-293 | even of a damaged record no dispatch exceeds the stored quotas |
| RecoveryVerdicts.AdmissionMeans | backend/src/extrio/app.py:2360-2377 | a dispatch is admitted exactly for a stored, open, published source with rule, policy and proof, with no unfinished run, open operation or queued job, and with hosts no other batch holds |
| RecoveryVerdicts.StartAccepted | backend/src/extrio/bounded_recovery.py:126-178 | a start is accepted exactly for the latest run of a published, unscheduled, idle source that met the rate limit with saved progress and left nothing else, when no batch claims it and nobody else uses its hosts |
| RecoveryVerdicts.StartAnswers | backend/src/extrio/bounded_recovery.py:131-178 | which refusal a start gets, by the first check that fails |
| RecoveryVerdicts.HostsMean | backend/src/extrio/bounded_recovery.py:72-75 | the hosts of a source are its own and those its active rule allows |
| RecoveryVerdicts.StartWrites | backend/src/extrio/bounded_recovery.py:178-192 | a start stores a day to live, three attempts, 360 requests, the pinned source and the first wait, or gives up at once when the wait outlasts the day |
| RecoveryVerdicts.StopWrites | backend/src/extrio/bounded_recovery.py:195-217 | a stop ends an idle batch at once, marks the running operation of a busy one, leaves an ended one alone and is refused for an unknown one |
| RecoveryVerdicts.ForRunExactly | backend/src/extrio/bounded_recovery.py:46-53 | the lookup by run finds nothing exactly when no batch owns the run or was seeded by it |
| RecoveryContinuation.ContinuationsResume | backend/src/extrio/bounded_recovery.py:242-306 | over any run every attempt keeps the pinned window and progress when its rule digest is the pinned one; every attempt that was followed by another wait, another attempt or a recovery took up the interrupted window, progress and checkpoint |
| RecoveryContinuation.ResumesExactly | backend/src/extrio/app.py:2381-2407 | a dispatched run takes up window, progress and checkpoint exactly when its rule digest is the pinned one and the stored checkpoint is absent or belongs to that rule and policy |
| RecoveryContinuation.StaleNeverRecovers | backend/src/extrio/bounded_recovery.py:264-271 | a batch that pinned a checkpoint of another rule or policy gets at most one attempt and never counts as recovered |
| RecoveryContinuation.StaleSourceAdmitted | backend/src/extrio/bounded_recovery.py:142-152 | a concrete source with such a checkpoint is admitted to recovery |
| RecoverySafety.StepKeeps | backend/src/extrio/bounded_recovery.py:126-307 | every transition keeps the recovery invariant |
| RecoverySafety.ForRunSeesAll | backend/src/extrio/bounded_recovery.py:46-53 | the lookup by run finds a batch whenever one owns the run or was seeded by it |
| RecoveryStore.Control.Start | backend/src/extrio/bounded_recovery.py:126-192 | starting recovery in place is the idempotent command over the stored records, a repeated key replays, and the invariant is kept |
| RecoveryStore.Control.RequestStop | backend/src/extrio/bounded_recovery.py:195-217 | requesting a stop in place is the idempotent command over the stored records, a repeated key replays, and the invariant is kept |
| RecoveryStore.CommandsAnswer | backend/src/extrio/bounded_recovery.py:126-217 | the first use of a key stores, answers and audits what was decided, with its status and action, and a refusal leaves no trace |
| RecoveryStore.Control.CreateRunOperation | backend/src/extrio/app.py:2360-2470 | a recovery dispatch creates exactly one tagged run and operation when every guard passes, with the window of the progress it takes up, or else counted back from its checkpoint or from today, and changes nothing otherwise |
| RecoveryStore.Control.TickRow | backend/src/extrio/bounded_recovery.py:242-306 | one loop iteration on a row read before the loop is the transition of that batch and creates a run exactly when it says so |
| RecoveryStore.Control.Tick | backend/src/extrio/bounded_recovery.py:238-307 | the tick advances exactly the batches that were active when it began, keeps the invariant, and its result is the number of runs it created |
| RecoveryStore.RecoveryHistory | backend/src/extrio/bounded_recovery.py:126-307 | over any interleaving of start and stop commands, retried or new, with ticks and outside changes the recovery invariant holds and each scope and key is audited once if it has a receipt and never otherwise |
| CommandReceipts.OneAuditEventPerKey | backend/src/extrio/collection_workflows.py:33-47 | over any sequence of commands each scope and key has exactly one audit event if it has a receipt, and none otherwise |
| CommandReceipts.RepeatsReplay | backend/src/extrio/collection_workflows.py:21-30 | once a command committed, the same key and body always gets the stored reply and another body conflicts, both without any change |
| CommandReceipts.ExactlyOnce | backend/src/extrio/collection_workflows.py:21-47 | at most one command of a sequence commits under one scope and key |
| CommandReceipts.ReceiptsPersist | backend/src/extrio/collection_workflows.py:21-47 | no later command rewrites or withdraws a receipt, and a failed command leaves none |
| CommandReceipts.EffectsCarryInvariant | backend/src/extrio/collection_workflows.py:124-191 | a property that every command effect keeps survives all retries, conflicts and refusals |
| CommandReceipts.HistoryKeeps | backend/src/extrio/collection_workflows.py:21-47 | with any other changes between the commands, an invariant that all of them keep holds at the end, and each scope and key is audited once if it has a receipt and never otherwise |
| CommandReceipts.RepeatsForever | backend/src/extrio/collection_workflows.py:21-30 | a command that committed, repeated after any commands and other changes, gets its stored reply and changes nothing |
| CatalogSafety.CatalogInvariant | scripts/tender_sources/catalog_run.py:211-305 | every interleaving of row tasks, over any number of processes cut off at any point, keeps counters, attribution, host locks and the physical request history consistent |
| CatalogTheorems.RequestsBounded | scripts/tender_sources/catalog_run.py:211-242 | the requests on the wire equal the counted ones and the sum of the row counters, never exceed the batch limit or a row's cap, and two requests to one host are at least the spacing apart, across restarts too |
| CatalogTheorems.QuietForGood | scripts/tender_sources/catalog_run.py:486-498 | once a host is blocked or the batch has a stop reason, no later step and no later process sends a request to that host, or to any |
| CatalogTheorems.IssuedWhileOpen | scripts/tender_sources/catalog_run.py:214-229 | a step adds at most one request, only before any stop and only to an unblocked host; blocks and stops are never lifted |
| CatalogTheorems.RowsBehindBlock | scripts/tender_sources/catalog_run.py:625-654 | once a host is blocked, every row of it that neither ran nor ended before ends, if at all, untested and without a request, also after restarts |
| CatalogBlocks.FailuresStayBlocked | scripts/tender_sources/catalog_run.py:655-709 | over every interleaving and restart the host of every row that was restricted after testing, went wrong or was cut off is blocked, and so is the host of every row ended because of it |
| CatalogBlocks.QuietAfterFailure | scripts/tender_sources/catalog_run.py:211-216 | once such a row has ended, nothing is sent to its host any more, by this process or any later one |
| CatalogBlocks.FailureMeans | scripts/tender_sources/catalog_run.py:669-700 | a failing row ends with the reported reason; a failure that is not batch-wide blocks its own host with that reason, a batch-wide one leaves all hosts alone and the batch stopped |
| CatalogBlocks.FailureStops | scripts/tender_sources/catalog_run.py:675-681 | a failure past the time limit stops the batch for time, used-up bytes stop it for bytes, and no other failure stops it |
| CatalogBlocks.EndingMeans | scripts/tender_sources/catalog_run.py:658-709 | an unexpected error and a cancellation end their row and block its host |
| CatalogBlocks.ReturnMeans | scripts/tender_sources/catalog_run.py:513-584 | a row returns only after an answer, with a verdict its sampling allows, and a restricted one blocks its host |
| CatalogBlocks.EnterMeans | scripts/tender_sources/catalog_run.py:613-654 | with a free slot a row is skipped, stops at a used-up budget, is refused, inherits a block or runs, exactly in the stated cases and with the stated record |
| CatalogBlocks.AskMeans | scripts/tender_sources/catalog_run.py:211-229 | a row goes to wait exactly while its host is open, the batch within budget and the row below its own limit, until the spacing of the host has passed |
| CatalogBlocks.WakeMeans | scripts/tender_sources/catalog_run.py:230-236 | a row that slept long enough sends exactly while the batch is within budget, and the three counters move together |
| CatalogBlocks.AnswerMeans | scripts/tender_sources/catalog_run.py:256-291 | bytes count towards the batch, and an answer that shows a restriction blocks the host of the row |
| CatalogBlocks.LockMeans | scripts/tender_sources/catalog_run.py:612-613 | a row takes the lock of its host exactly when no other row holds it |
| CatalogBlocks.BudgetMeans | scripts/tender_sources/catalog_run.py:486-498 | which budget stops the batch, by the first that is used up |
| CatalogBlocks.RestartMeans | scripts/tender_sources/catalog_run.py:424-437 | a process that takes over ends exactly the rows under way as interrupted, blocks their hosts, keeps all else and works on the selected rows without a result |
| CatalogTheorems.LiveRowsBounded | scripts/tender_sources/catalog_run.py:464 | at no time are more than the smaller of four and the configured concurrency of rows under way |
| CatalogSafety.PerformOk | scripts/tender_sources/catalog_run.py:512-709 | a step of one row leaves every other row, counter and host alone and keeps its own result and request accounting sound |
| CatalogSafety.PerformCounts | scripts/tender_sources/catalog_run.py:227-234 | only a row that slept long enough, within budget, issues a request, and nothing else moves the counters |
| CatalogSafety.CloseOk | scripts/tender_sources/catalog_run.py:586-600 | ending a live row records its own counter and scope and never reports a readable page without a counted request |
| CatalogTheorems.LedgerAccepted | scripts/tender_sources/catalog_merge.py:47-166 | of all ledgers the runner ever persists the merger accepts exactly those with no row under way and no interrupted row |
| CatalogTheorems.ExchangeSums | scripts/tender_sources/catalog_merge.py:83-87 | summing requests by entry over all batches equals summing the batch totals |
| CatalogTheorems.GroupsSplit | scripts/tender_sources/catalog_merge.py:270-292 | the two groups split every count, status by status, of the whole catalog |
| CatalogTheorems.StatusesPartition | scripts/tender_sources/catalog_merge.py:269-283 | the status counts of the catalog and of each group add up to its entries |
| CatalogTheorems.LatestIsLast | scripts/tender_sources/catalog_merge.py:221-256 | the latest record of an entry repeats status, reason, requests and testing of the result in the last batch that has one, and is empty exactly when there is none |
| CatalogTheorems.HistoryStarts | scripts/tender_sources/catalog_merge.py:225-243 | a history begins with the result of the earliest batch that has one for the entry, and has two records exactly when two batches have one |
| CatalogTheorems.HistoryCopies | scripts/tender_sources/catalog_merge.py:225-243 | every record of a history repeats status, reason, requests and testing of the result in the batch it names |
| CatalogTheorems.HistoryComplete | scripts/tender_sources/catalog_merge.py:225-243 | every batch with a result for an entry has a record in its history |
| CatalogTheorems.HistoryIsOrdered | scripts/tender_sources/catalog_merge.py:225-243 | the records are in the order of the batches |
| CatalogReport.RowsMean | scripts/tender_sources/catalog_merge.py:257-269 | there is one row for every manifest entry, in order, with what the first batch said, what was said last, and the history between |
| CatalogReport.SummaryMeans | scripts/tender_sources/catalog_merge.py:309-322 | for every status, and for the entries no batch holds, the summary counts exactly the manifest entries whose last result has it; tested entries and attributed requests are those of the last results |
| CatalogReport.GroupMeans | scripts/tender_sources/catalog_merge.py:271-296 | the same of each group, which is reported exactly when the manifest has an entry of it |
| CatalogReport.BatchesAdd | scripts/tender_sources/catalog_merge.py:291-319 | physical requests of an entry, and requests and bytes of the report, are sums over the batches |
| CatalogReport.TotalsReported | scripts/tender_sources/catalog_merge.py:315-319 | the reported totals are those sums over all batches |
| CatalogReport.AcceptedAgrees | scripts/tender_sources/catalog_merge.py:47-166 | a ledger is accepted exactly if it is at rest, knows no entry but its own, and every count, scope and status in it agrees with every other |
| CatalogTheorems.GapsAreRevisits | scripts/tender_sources/catalog_merge.py:297-314 | the report lists as revisited gaps exactly the entries whose earliest result was a failure of the tool and for which a later batch has a result, no more than the overlaid entries |
| CatalogTheorems.AttributedWithinPhysical | scripts/tender_sources/catalog_merge.py:134-137 | no entry is attributed more requests by its latest result than were physically made for it |
| CatalogTheorems.MergeConserves | scripts/tender_sources/catalog_merge.py:221-322 | in every accepted merge group totals add up to batch totals, counts partition the catalog, and attributed requests stay within physical ones |
| CatalogTheorems.MergedTotalsArePhysical | scripts/tender_sources/catalog_merge.py:301-305 | ledgers of uninterrupted runs over one manifest pass every content check of the merger, and the merged totals are the requests that really went out, per entry and overall |
| CatalogMerge.MergeLedgers | scripts/tender_sources/catalog_merge.py:196-335 | the merger succeeds exactly on accepted ledgers of one manifest, in time order, without duplicates and with a new output, and its rows and summary, overlays and revisited gaps included, are the specified ones |
| CatalogMerge.Check | scripts/tender_sources/catalog_merge.py:197-220 | the first failing check, in the source's order, decides the error |
| CatalogRunner.Runner.CheckBudget | scripts/tender_sources/catalog_run.py:486-498 | the first exhausted budget becomes the stop reason, and a recorded one stays |
| CatalogRunner.Runner.RowEnter | scripts/tender_sources/catalog_run.py:618-654 | entering a row in place is the entry step: skip, stop, refuse, inherit a block or start running |
| CatalogRunner.Runner.RequestAsked | scripts/tender_sources/catalog_run.py:211-228 | the guards before the sleep and the moment it ends are those of the step |
| CatalogRunner.Runner.RequestDue | scripts/tender_sources/catalog_run.py:229-234 | after the sleep the budget is checked again and one request is counted for batch, row and host together |
| CatalogRunner.Runner.RowFailed | scripts/tender_sources/catalog_run.py:674-703 | a failure blocks the host or stops the batch, and ends the row, as the step says |
| CatalogRunner.Runner.Resume | scripts/tender_sources/catalog_run.py:392-433 | resuming turns exactly the rows under way into interrupted ones and blocks their hosts |
| CatalogRunner.Runner.OpenRun | scripts/tender_sources/catalog_run.py:316-463 | opening succeeds exactly for distinct entries, limits within bounds, chosen review entries and a permitted output, and on a stored run only under the same manifest, limits, code and an undamaged sampling policy; the first failing check decides the refusal, and every process of a run has one and the same setup |
| RulePlan.ConstrainRulePlan | backend/src/extrio/collection_fields.py:210-257 | the in-place edit with deletions and updates computes the specified plan or reports exactly the missing frozen fields |
| RulePlan.ConstrainTwice | backend/src/extrio/harvest.py:536-540 | applying the frozen contract to its own result changes nothing |
| RulePlan.FrozenSemantics | backend/src/extrio/collection_fields.py:222-250 | the contract succeeds exactly when every frozen field is available, and then each stage holds frozen fields with frozen semantics, otherwise only the hand-off columns, all extracted as before |
| RuleContract.ConstrainMeans | backend/src/extrio/collection_fields.py:222-257 | the contract fails exactly for the frozen fields no stage extracts and names them; otherwise every stage keeps exactly its frozen and hand-off fields, frozen ones with label, type, obligation, failure, format and zone of the version, every binding is kept exactly when its key survives, and identity is that of the version |
| RuleContract.HandoverMeans | backend/src/extrio/collection_fields.py:213-221 | an extracted list date column that is not frozen is copied under the agreed name, optional and as text, and its role follows it; otherwise nothing changes |
| RulePlan.NormalizedIsIntegral | backend/src/extrio/model_gateway.py:532-560 | whatever the model answered, a normalized list and detail plan binds roles to extracted fields only |
| RuleContract.AnswerStandsAlways | backend/src/extrio/model_gateway.py:532-541 | an answer that names an extracted field, renamed detail fields followed, is the binding of its role |
| RuleContract.FallbackMeans | backend/src/extrio/model_gateway.py:542-551 | without one the role goes to the best match by name in its own stage, then by part of a name, then to nothing |
| RuleContract.RolesMean | backend/src/extrio/model_gateway.py:552-563 | every role is bound by itself, from its own answer |
| RuleContract.RolesDistinct | backend/src/extrio/model_gateway.py:552-559 | there are six distinct roles, three of each stage |
| RulePlan.BindingsSurvive | backend/src/extrio/collection_fields.py:251-256 | the surviving bindings name extracted fields if and only if no role is bound to a list date column that the contract drops |
| RulePlan.DanglingBinding | backend/src/extrio/collection_fields.py:229-256 | a concrete plan, whose bindings the normalizer produces from a concrete answer and which are sound, loses a field that a surviving binding names |
| RulePlan.MergeIsComplete | backend/src/extrio/harvest.py:515-529 | joining the stages of a constrained plan yields every frozen field and never a field without a rule |
| RulePlan.MergeStageFields | backend/src/extrio/harvest.py:515-529 | the loop gives a field the rule of the stage its same-name binding names, and otherwise the detail rule where there is one |
| RuleContract.JoinMeans | backend/src/extrio/harvest.py:515-529 | a field bound under its own name takes the rule of that stage, any other the detail rule where there is one and the list rule otherwise |
| DiscoveryPlan.SelectorShape | backend/src/extrio/model_gateway.py:205-213 | a normalized selector is trimmed and prefixed, and still holds a containsOwn call exactly when the bare selector began with one |
| DiscoveryPlan.SelectorTwice | backend/src/extrio/model_gateway.py:205-213 | a second pass keeps a normalized selector exactly when no containsOwn call is left in it |
| DiscoveryPlan.ReplaceCleans | backend/src/extrio/model_gateway.py:207-208 | one replacement pass leaves no occurrence behind |
| DiscoveryPlan.TransformsTwice | backend/src/extrio/model_gateway.py:223-250 | a second pass keeps the transform list exactly when no pattern was cut behind white space |
| DiscoveryPlan.RuleTwice | backend/src/extrio/model_gateway.py:216-279 | a second pass keeps a normalized field rule, under any key, exactly when selector, label and patterns are settled |
| DiscoveryPlan.FieldsTwice | backend/src/extrio/model_gateway.py:412-418 | a second pass keeps the order and keys of the fields, and the fields themselves exactly when all rules are settled |
| DiscoveryPlan.CanonicalTwice | backend/src/extrio/model_gateway.py:359-393 | resolving a canonical key again changes nothing |
| DiscoveryPlan.DiscoveryFixedPoint | backend/src/extrio/model_gateway.py:43-47 | renormalizing an accepted discovery plan changes nothing if and only if its selectors, labels and patterns are settled |
| DiscoveryPlan.NormalizedInDialect | backend/src/extrio/model_gateway.py:396-441 | whatever the model answered, an accepted plan has distinct keys, a hand-off column where one is needed, and only selectors, types, failure rules, transforms and pagination the runtime executes |
| DiscoveryPlan.ContainsOwnDrifts | backend/src/extrio/model_gateway.py:205-213 | a concrete selector that the second pass rewrites |
| DiscoveryPlan.PlanDrifts | backend/src/extrio/model_gateway.py:43-47 | a concrete accepted plan that its second normalization changes |
| DiscoveryPlan.LabelDrifts | backend/src/extrio/model_gateway.py:269-279 | a label cut at 100 characters behind a space is changed by the second pass, in any rule |
| DiscoveryPlan.PatternDrifts | backend/src/extrio/model_gateway.py:236-248 | a pattern cut at 512 characters behind a space is changed by the second pass |
| DiscoveryPlan.RuleGuarded | backend/src/extrio/model_gateway.py:216-279 | exactly which raw rules normalize to a rule that a second pass keeps |
| DiscoveryPlan.GuardIsExact | backend/src/extrio/model_gateway.py:396-441 | exactly which raw plans, once accepted, normalize to a plan that a second pass keeps: a check on the top-level selectors and on the last rule of each canonical key |
| DiscoveryPlan.FieldsMeaning | backend/src/extrio/model_gateway.py:412-418 | the normalized fields are exactly the last raw field of each canonical key, each normalized under that key |
| DiscoveryPlan.CollectFields | backend/src/extrio/model_gateway.py:412-418 | the loop over the raw fields computes the normalized fields, in which a later rule takes the place of an earlier one under the same canonical key |
| DiscoveryMeaning.RuleMeans | backend/src/extrio/model_gateway.py:216-279 | of a field rule every answer in the dialect is kept, a synonym becomes the word it stands for, and anything else the default: type, obligation, failure, policy, selector, label, format and time zone |
| DiscoveryMeaning.SelectorMeans | backend/src/extrio/model_gateway.py:205-213 | a selector that names its language stays as it is stripped, any other is a JSON path or a CSS selector by page and first character |
| DiscoveryMeaning.SelectorReplaces | backend/src/extrio/model_gateway.py:206-208 | outdated calls are replaced before anything else is looked at |
| DiscoveryMeaning.ReplaceFirst | backend/src/extrio/model_gateway.py:207-208 | the first outdated call is replaced and the rest is treated the same way |
| DiscoveryMeaning.TransformMeans | backend/src/extrio/model_gateway.py:226-250 | known transforms stay, synonyms become what they stand for, patterns are stripped and cut, groups are clamped, and the rest is dropped |
| DiscoveryMeaning.CollectMeans | backend/src/extrio/model_gateway.py:226-250 | a transform is collected exactly when some listed one normalizes to it |
| DiscoveryMeaning.CollectOrder | backend/src/extrio/model_gateway.py:226-250 | one more listed transform adds at most one collected one, at the end |
| DiscoveryMeaning.TransformsMean | backend/src/extrio/model_gateway.py:223-225 | a rule that lists none is trimmed, and a link is always made absolute |
| DiscoveryMeaning.FieldsOrder | backend/src/extrio/model_gateway.py:412-418 | the fields are in the order in which their canonical keys are first mentioned |
| DiscoveryMeaning.KeyMeans | backend/src/extrio/model_gateway.py:359-393 | a key is stripped, five folded keys stay although they are synonyms, and any other synonym becomes the name it stands for |
| DiscoveryMeaning.AdoptFirst | backend/src/extrio/model_gateway.py:419-423 | the first link column becomes the hand-off column at the end, and the other columns keep their order |
| DiscoveryMeaning.HandOffMeans | backend/src/extrio/model_gateway.py:419-425 | a hand-off column is looked for exactly in lists with details that have none by name |
| DiscoveryMeaning.PagesMean | backend/src/extrio/model_gateway.py:282-306 | a known way of paging keeps its numbers within their bounds and gets the defaults for the rest, an unknown one is refused |
| DiscoveryMeaning.PlanMeans | backend/src/extrio/model_gateway.py:396-441 | a plan is accepted exactly with a known mode, format and paging, fields and a hand-off column where one is needed, and keeps what it says |
| DiscoveryMeaning.PlanAnswers | backend/src/extrio/model_gateway.py:400-425 | which part of a refused plan is named, by the first check that fails |
| DiscoveryPlan.CollectTransforms | backend/src/extrio/model_gateway.py:226-250 | the loop over raw transforms drops unknown ones and repetitions, keeping the first of each |
| ModelBudget.AdmissionFits | backend/src/extrio/model_budget.py:34-37 | an admitted call leaves room for its output, the reasoning allowance and the margin in the context, and charged totals stay within the task caps |
| BudgetRules.AdmissionMeans | backend/src/extrio/model_budget.py:83-108 | a call is admitted exactly within time, totals and calls of the task, with an output and an input the model has room for, and every refusal gives the first reason |
| BudgetRules.ChargeMeans | backend/src/extrio/model_budget.py:100-117 | a call is charged with its estimate and, once metered, with what it used |
| BudgetRules.ResumeMeans | backend/src/extrio/adaptive_compile.py:43-46 | a session that continues another starts with its calls and tokens and no more calls than it had |
| BudgetRules.MarginMeans | backend/src/extrio/model_budget.py:34-37 | the margin is the least that is a twentieth of the context and 256 tokens at least |
| ModelBudget.CallsBounded | backend/src/extrio/adaptive_compile.py:40-52 | over any chain of crashes and resumed sessions every issued call was counted in a persisted summary first, so no more than the allowed calls are issued |
| BudgetRules.StepsMean | backend/src/extrio/adaptive_compile.py:175-200 | a call is sent only after it was reserved and then reported, reports hold the budget with that call, and only reservations charge and settlements correct |
| BudgetRules.CrashKeepsCalls | backend/src/extrio/adaptive_compile.py:40-52 | a session that takes over after a crash has counted every call that was sent |
| ModelBudget.UnreportedCallsUnbounded | backend/src/extrio/adaptive_compile.py:103-105 | why the report before each call is needed: a session object without a callback persists nothing, and a chain of crashing ones would issue any number of calls |
| ModelBudget.TaskBudget.Reserve | backend/src/extrio/model_budget.py:83-108 | a reservation is refused for the first failing reason, recorded as the stop reason, and otherwise charges one call and its tokens |
| ModelBudget.TaskBudget.Settle | backend/src/extrio/model_budget.py:110-117 | only the first settlement of a reservation replaces its estimate by the metered usage |
| ModelBudget.TaskBudget.SettleTwice | backend/src/extrio/model_gateway.py:686-688 | the settlement of the gateway stands when the session settles again without usage |
| AdaptiveCompile.Agent.Run | backend/src/extrio/adaptive_compile.py:175-220 | the agent loop terminates, because every turn that does not end it costs a call, and does what the specified run does |
| SessionTurns.BarredMeans | backend/src/extrio/adaptive_compile.py:178-183 | a turn ends the run before any call for the first of time, tokens, calls, reserved calls and room |
| SessionTurns.CallMeans | backend/src/extrio/adaptive_compile.py:184-196 | an input that is too long costs its call and goes on, a failed call counts as no progress and ends the run, and time and tokens are looked at before the answer |
| SessionTurns.ProposalMeans | backend/src/extrio/adaptive_compile.py:198-207 | a proposed rule is returned, new or not, unless it is the third answer in a row that adds nothing |
| SessionTurns.ReadMeans | backend/src/extrio/adaptive_compile.py:208-213 | a read that adds something goes on with all it added remembered |
| SessionTurns.IdleMeans | backend/src/extrio/adaptive_compile.py:208-222 | a read that adds nothing and an answer that is no action go on until the third in a row |
| AdaptiveCompile.RunWithinBudget | backend/src/extrio/adaptive_compile.py:88-90 | a run never exceeds its calls, and a discovery run stops before the calls reserved for compilation |
| AdaptiveCompile.DiscoveryLeavesCalls | backend/src/extrio/explorer.py:343-388 | however often discovery is retried, compilation keeps at least the smaller of four calls and half the budget |
| AdaptiveCompile.NoProgressMeansThree | backend/src/extrio/adaptive_compile.py:72-79 | a run reports no progress exactly when three counted answers in a row added nothing, and it forgets no signature |
| AdaptiveCompile.CompileLoop | backend/src/extrio/explorer.py:445-477 | the compile and validate loop terminates within a bound on its passes, spends no more than the allowed calls, and ends exactly for its cause: a pass without issues inside its time and tokens, time or tokens used up, the first pass that brings the stall counter to three, or no call left |
| AdaptiveCompile.AlternatingStallsIffEqual | backend/src/extrio/adaptive_compile.py:107-122 | passes that call the model, read nothing new and alternate between two sets of issues trip the stall counter if and only if the sets are equal |
| AdaptiveCompile.StallMeaning | backend/src/extrio/adaptive_compile.py:107-122 | for any sequence of passes the stall counter has reached k exactly when each of the last k passes found issues that include the non-empty issues of the pass before it, at the same revision of the evidence |
| SessionTurns.ValidationMeans | backend/src/extrio/adaptive_compile.py:107-120 | issues count as no better exactly when they include all of a non-empty last set and nothing was read since |
| AdaptiveCompile.CacheIsLru | backend/src/extrio/adaptive_compile.py:250-254 | after any reads the evidence cache is the twelve most recently read distinct keys |
| SessionTurns.ReadCached | backend/src/extrio/adaptive_compile.py:250-254 | after a read its key is the newest, the others keep their order, and never more than twelve stay |
| AdaptiveCompile.LatestMeaning | backend/src/extrio/adaptive_compile.py:250-252 | distinct keys in order of their last read means exactly the last read of every key, with its latest value |
| AdaptiveCompile.EvidenceCache.Remember | backend/src/extrio/adaptive_compile.py:250-254 | one read moves its key to the end and drops the entries read longest ago |
| AdaptiveCompile.FillEnvelope | backend/src/extrio/adaptive_compile.py:153-158 | included and omitted evidence together are the cached evidence, chosen newest first |
| AdaptiveCompile.EnvelopeIsFaithful | backend/src/extrio/adaptive_compile.py:152-158 | the included evidence keeps its order and fits, the newest item is in it whenever it fits alone, and nothing is left out when everything fits |
| SessionTurns.OlderIsTried | backend/src/extrio/adaptive_compile.py:153-158 | older evidence is tried beside everything newer that fitted, and an item that does not fit keeps no other out |
| SuggestionQueue.QueueInvariant | backend/src/extrio/field_suggestions.py:77-235 | every run of requests, claims, finishes, applications and edits keeps the queue invariant |
| SuggestionQueue.QueueSafety | backend/src/extrio/field_suggestions.py:88-105 | a collection has at most one active suggestion and at most five created in any closed hour; each suggestion is claimed at most three times, committed at most once and applied at most once |
| SuggestionQueue.LatestAttemptCommits | backend/src/extrio/field_suggestions.py:219-235 | only the attempt handed out last commits a result, only while it runs, and the commit ends the suggestion |
| SuggestionQueue.FinishedForever | backend/src/extrio/field_suggestions.py:182-235 | a suggestion that succeeded or failed is never claimed, finished or reopened again |
| SuggestionQueue.AppliedToItsBase | backend/src/extrio/field_suggestions.py:150-164 | a suggestion is applied only to the revision it was made from, and moves the revision on |
| SuggestionQueue.MergeKeepsOthers | backend/src/extrio/field_suggestions.py:158-162 | applying replaces the selected fields and leaves every other field alone |
| SuggestionQueue.SuggestionStore.RequestSuggestion | backend/src/extrio/field_suggestions.py:77-134 | requesting in place is the queue step, with the refusal the checks give in order |
| SuggestionLeases.RequestMeans | backend/src/extrio/field_suggestions.py:83-131 | a request is accepted exactly for an open collection at its current revision with no active suggestion and fewer than five in the last hour, and queues one fresh suggestion |
| SuggestionLeases.FiveAnHour | backend/src/extrio/field_suggestions.py:94-100 | over any run no closed hour holds six suggestions of one collection |
| SuggestionLeases.RequestAnswers | backend/src/extrio/field_suggestions.py:85-100 | which refusal a request gets, by the first check that fails |
| SuggestionQueue.SuggestionStore.ClaimSuggestion | backend/src/extrio/field_suggestions.py:182-216 | claiming in place takes the oldest due suggestion, hands out its next attempt, or fails it when its attempts are used up |
| SuggestionLeases.ClaimRespectsLease | backend/src/extrio/field_suggestions.py:187 | a claim leaves every running suggestion whose lease has not ended unchanged and adds no claim for it |
| SuggestionLeases.ClaimTakesOldest | backend/src/extrio/field_suggestions.py:186-210 | a claim takes the oldest suggestion that is queued or whose lease has ended: its next attempt with the new lease, or failed after three, and changes nothing else |
| SuggestionLeases.ClaimFindsNone | backend/src/extrio/field_suggestions.py:192-193 | with nothing waiting a claim changes nothing |
| SuggestionLeases.LeaseLasts | backend/src/extrio/field_suggestions.py:206 | a lease lasts two minutes at least |
| SuggestionLeases.LeaseProtects | backend/src/extrio/field_suggestions.py:182-216 | over any run nobody else is handed a suggestion between its claim and the end of the lease |
| SuggestionQueue.SuggestionStore.FinishSuggestion | backend/src/extrio/field_suggestions.py:219-235 | finishing in place commits exactly when it returns true |
| SuggestionLeases.FinishMeans | backend/src/extrio/field_suggestions.py:227-235 | the attempt that still runs ends its suggestion with its result, any other changes nothing |
| SuggestionQueue.SuggestionStore.ApplySuggestion | backend/src/extrio/field_suggestions.py:140-179 | applying in place is the queue step, with the refusal the checks give in order |
| SuggestionLeases.ApplyMeans | backend/src/extrio/field_suggestions.py:140-179 | an application succeeds exactly for a succeeded, unapplied suggestion made from the current revision of its open collection with distinct offered keys, and merges exactly those fields |
| SuggestionLeases.ApplyAnswers | backend/src/extrio/field_suggestions.py:85-157 | which refusal an application gets, by the first check that fails |
| SuggestionLeases.EditMeans | backend/src/extrio/store.py:924-960 | an edit replaces the draft and moves the revision on |
| SuggestionCommands.SuggestionHistory | backend/src/extrio/field_suggestions.py:77-179 | over any interleaving of requests and applications, retried or new, with claims, finishes and edits the queue invariant holds, each scope and key is audited once if it has a receipt and never otherwise, and there are exactly as many suggestions and applications as audit events that say so |
| JobControl.LeaseSafety | backend/src/extrio/job_control.py:19-91 | over any run committed writes of a job have non-decreasing attempt numbers, claims stay within the allowed attempts, job, operation and run end together and no source points at an ended operation |
| JobControl.EffectIsOwned | backend/src/extrio/job_control.py:19-37 | whoever writes holds the newest claim and an unexpired lease on an open operation; after a cancel request only the write that ends it as cancelled passes |
| JobControl.EndedForever | backend/src/extrio/job_control.py:46-53 | an ended operation keeps its status for good and its job is never claimed and never writes again |
| JobControl.CancelWins | backend/src/extrio/job_control.py:94-130 | after a cancel request the operation can only end as cancelled |
| JobControl.FinishKeeps | backend/src/extrio/job_control.py:46-91 | ending the resources of a job keeps job, operation and run in agreement |
| JobControl.StepKeeps | backend/src/extrio/store.py:1931-1982 | every claim, write, failure and cancellation keeps the lease invariant |
| JobStore.Jobs.ClaimJob | backend/src/extrio/store.py:1931-1982 | claiming in place hands out the next attempt of the first due job with a new lease, or ends a cancelled or exhausted one |
| JobLeases.ClaimRespectsLease | backend/src/extrio/store.py:1939-1947 | a claim leaves every job alone that is not available yet, has ended or is held by a lease that has not ended |
| JobLeases.ClaimMeans | backend/src/extrio/store.py:1948-1982 | the first claimable job is completed when its operation is gone or ended, ends as cancelled or failed when that was requested or its attempts are used up, and otherwise gets its next attempt and the new lease |
| JobLeases.ClaimFindsNone | backend/src/extrio/store.py:1948-1949 | with nothing claimable a claim changes nothing |
| JobLeases.LeaseProtects | backend/src/extrio/store.py:1931-1982 | over any run nobody else is handed a job between its claim and the end of its lease, renewals included |
| JobStore.Jobs.Owns | backend/src/extrio/job_control.py:19-36 | an owned transaction admits exactly the newest attempt of a processing job while its lease lasts and its operation is open; a cancel request is the only other obstacle and is reported as such |
| JobStore.OneOwner | backend/src/extrio/job_control.py:19-36 | at any moment at most one attempt of a job is admitted, the one claimed last |
| JobLeases.OwnershipCases | backend/src/extrio/job_control.py:19-37 | who may write, and who is told that a cancellation came between, in terms of status, attempt, lease and operation |
| JobLeases.CommitMeans | backend/src/extrio/job_control.py:19-43 | an allowed write is recorded and does its work, a renewal, a success of operation, record, pointer and job, or progress; any other changes nothing |
| JobStore.Jobs.RenewJob | backend/src/extrio/job_control.py:40-43 | renewing in place extends the lease exactly when the attempt still owns it |
| JobStore.Jobs.EndResources | backend/src/extrio/job_control.py:46-91 | operation, run, source pointer and job end in one transaction, and an ended operation is left alone |
| JobLeases.EndingMeans | backend/src/extrio/job_control.py:46-91 | ending an open operation ends its record, its job and the pointer of its collector with it; an ended or missing one is left alone |
| JobStore.Jobs.FailJob | backend/src/extrio/worker.py:581-593 | the failure path ends the job as cancelled when that was requested, and only while the attempt owns the lease |
| JobLeases.FailMeans | backend/src/extrio/worker.py:581-593 | the failure path ends operation, record, pointer and job as cancelled when that was requested or reported, as timed out when time ran out, and otherwise as failed |
| JobStore.Jobs.CancelOperation | backend/src/extrio/job_control.py:94-130 | a cancel request marks the operation and ends it at once when no worker holds it |
| JobLeases.RequestCancelMeans | backend/src/extrio/job_control.py:94-130 | a cancel request marks an open operation and ends its job at once exactly when no live lease holds it |
| JobLeases.CreateMeans | backend/src/extrio/store.py:1818-1930 | a new job waits without an attempt, with its operation open and its collector pointing there, and an identifier in use or a busy collector refuses it |
| Evidence.BuildVerifies | backend/src/extrio/evidence.py:124-273 | every bundle the builder makes is valid under the signer's key if and only if no evidence path holds a line break |
| Evidence.ChecksumsRoundTrip | backend/src/extrio/evidence.py:269-285 | parsing the printed checksum list gives back every path with its digest |
| Evidence.SumsNameLines | backend/src/extrio/evidence.py:276-285 | no accepted checksum list names a path with a line break |
| Evidence.VerifyEvidenceBundle | backend/src/extrio/evidence.py:288-394 | the verifier reports no problem exactly of the valid bundles, and otherwise exactly every offending entry, file and digest and the signature |
| EvidenceVerdict.ValidIsSigned | backend/src/extrio/evidence.py:368-394 | in a valid bundle the record read from manifest.sig has algorithm ed25519, the fingerprint of the key, the digest of manifest.json as it stands, and a signature the key accepts for it |
| EvidenceVerdict.NoForgery | backend/src/extrio/evidence.py:383-391 | if only the texts of a set were ever signed, the digest of every manifest judged valid is among them |
| EvidenceVerdict.ValidIsListed | backend/src/extrio/evidence.py:324-345 | in a valid bundle every listed file is there with its digest and size, and every file but the three of the bundle itself is listed |
| EvidenceVerdict.ValidIsSummed | backend/src/extrio/evidence.py:347-365 | in a valid bundle the checksum list names exactly the files but itself and the signature, each by its digest |
| EvidenceVerdict.ShownIsValid | backend/src/extrio/evidence.py:288-394 | these conditions suffice, with digests in either case and blank lines anywhere |
| EvidenceVerdict.OffencesMean | backend/src/extrio/evidence.py:331-345 | the verifier names exactly the entries that do not match their file, the files no entry lists, and a record that does not hold |
| EvidenceVerdict.SumOffencesMean | backend/src/extrio/evidence.py:347-365 | it names exactly the files whose digest the checksum list does not give and the paths the list should not name |
| EvidenceVerdict.LinesReadable | backend/src/extrio/evidence.py:276-285 | a checksum list is readable exactly when every line is blank or has 64 characters, the first two spaces of the line and a path |
| EvidenceVerdict.BlankMeans | backend/src/extrio/evidence.py:279 | a line is skipped exactly when stripping leaves nothing of it |
| EvidenceVerdict.LinesName | backend/src/extrio/evidence.py:276-285 | a readable list names exactly the paths of its lines |
| EvidenceVerdict.LinesDigest | backend/src/extrio/evidence.py:284 | a path has the digest, in lower case, of the last line that names it |
| EvidenceVerdict.TextSplits | backend/src/extrio/evidence.py:278 | a text splits at every line end, and a carriage return with a line feed ends one line only |
| EvidenceVerdict.LastLine | backend/src/extrio/evidence.py:278 | what follows the last line end is a line unless it is empty |
| EvidenceVerdict.BuiltContents | backend/src/extrio/evidence.py:236-273 | the builder changes no evidence file and adds exactly the manifest, which lists them in order, the signature of its digest and the checksum list |
| Evidence.VerifyManifest | backend/src/extrio/evidence.py:327-345 | the manifest checks report exactly every entry that does not match its file and every file that no entry lists |
| Evidence.SameDigestSameEvidence | backend/src/extrio/evidence.py:327-345 | two bundles valid under one key with the same manifest digest hold the same manifest and evidence, unless two of their members collide |
| Evidence.TamperingDetected | backend/src/extrio/evidence.py:327-365 | changing the digest of a member other than signature and checksum list, or adding one, makes a valid bundle invalid |
| Evidence.RemovalDetected | backend/src/extrio/evidence.py:305-365 | removing any member makes a valid bundle invalid |
| Evidence.TamperingExactly | backend/src/extrio/evidence.py:288-394 | for every member, present or new, and every replacement: exactly when a valid bundle stays valid |
| Evidence.ChangeSurfaces | backend/src/extrio/evidence.py:291 | a change that does not collide surfaces exactly unless it leaves the digests of the checksum list, or the claim of the signature record, as they were |
| Evidence.SignatureTampered | backend/src/extrio/evidence.py:376-394 | another signature file passes if and only if it reads as a record that makes a valid claim for the same manifest and key |
| Evidence.ExtraBlankLinePasses | backend/src/extrio/evidence.py:276-285 | on every built bundle with sound paths the checksum list followed by one more line break is another file that passes |
| Evidence.ReformattedSignaturePasses | backend/src/extrio/evidence.py:309-311 | any other text of the same signature record passes, with other white space, key order or further keys |
| Evidence.ChecksumListUnsigned | backend/src/extrio/evidence.py:347-365 | a rewritten checksum list passes if and only if it parses to the same digests |
| OwnershipHistory.WrittenOnce | backend/src/extrio/collector_history.py:17-39 | no creation, edit, reassignment or deletion ever changes an ownership record |
| OwnershipHistory.CommandsKeepRecords | backend/src/extrio/collector_lifecycle.py:305-333 | the same over any sequence of idempotent commands with retries, conflicts and refusals |
| OwnershipHistory.ReassignmentFreezes | backend/src/extrio/collector_lifecycle.py:314-332 | after a successful reassignment every run, AI run and operation of the source has its one record, and every later command keeps it |
| OwnershipHistory.ReassignmentRecordsAll | backend/src/extrio/collector_lifecycle.py:314-332 | right after a successful reassignment no run, AI run or operation of the source is without a record |
| OwnershipHistory.OldWorkStays | backend/src/extrio/collector_history.py:63-90 | at the first move of a source, AI runs and operations without a record or a rule stay with the requirement the source leaves |
| OwnershipHistory.NewWorkRecorded | backend/src/extrio/collector_history.py:27-39 | new work is attributed at creation to its rule's requirement, or else the source's current one, for good |
| OwnershipMeaning.WorkMeans | backend/src/extrio/collector_history.py:42-90 | a run belongs where its record says, else where its own source's rule says, and an AI run of a source that never moved with the source |
| OwnershipMeaning.OperationMeans | backend/src/extrio/collector_history.py:60-90 | an operation belongs where its record says, else with the last AI run that names it, then the last run that does, then the source that never moved |
| OwnershipMeaning.CreateMeans | backend/src/extrio/collector_history.py:27-39 | new work gets at most one record, a run the one its rule names and otherwise the one its source names, and everything else stays |
| OwnershipMeaning.CreateRefused | backend/src/extrio/collector_history.py:29-30 | work of an unknown or deleted source is not stored, nor is the same work twice |
| OwnershipMeaning.MoveMeans | backend/src/extrio/collector_lifecycle.py:229-333 | a source moves exactly when nothing blocks it, both sides are open and all its records and rules resolve; the move adds exactly the resolved records and points the source at its target |
| OwnershipMeaning.DeleteMeans | backend/src/extrio/collector_lifecycle.py:154-180 | deleting adds the records that resolve, needs no owner for the rest and archives the source |
| OwnershipMeaning.UpdateMeans | backend/src/extrio/collector_history.py:17-24 | an update changes neither the source nor the record of work |
| OwnershipMeaning.OtherMeans | backend/src/extrio/collector_history.py:17-24 | whatever else is edited, published or migrated touches neither work nor records |
| OwnershipHistory.HistorySnapshot | backend/src/extrio/collector_history.py:42-90 | the nested loops resolve every record of the source, operations through the last run that names them, and list exactly the unresolved ones |
| OwnershipHistory.FreezeHistory | backend/src/extrio/collector_history.py:111-113 | freezing saves every resolved owner and replaces no record |

## Left out

- RecoverySafety.WorldKeeps: what the rest of the store does between transitions is limited to changes that leave batches, their tags, published rules and the finish time and wait of ended runs alone; those writers are not modelled.
- RecoveryTheorems.DispatchIsDue: a run record without a finish time counts as finished when it is read, as the code does, and the wait is then measured from that reading; the finish time and wait of an ended run are assumed not to change.
- RecoveryTheorems.AdmittedRunsApart: the admission check is stated as a predicate over the store; the worker's reading of it is not modelled.
- RecoveryContinuation.ContinuationsResume: the window, progress, checkpoint and rule digest a run began with are assumed not to be rewritten by the rest of the store.
- RecoveryStore.Control.CreateRunOperation: dates are day numbers, the date of today comes in as an input, and retrying rejected items, which recovery never asks for, is not modelled.
- RecoveryStore.Control.Tick: an unexpected exception in the middle of a tick rolls the whole transaction back and is not modelled.
- CommandReceipts.RepeatsReplay: request bodies are compared directly instead of by their SHA-256, and locking between concurrent transactions is taken as serialization.
- CatalogTheorems.RequestsBounded: the clock never runs backwards, atomic replacement of the ledger never fails, and a request counts as sent when it is counted, even if the process dies before the first byte.
- CatalogTheorems.LedgerAccepted: the schema checks on JSON types, the code and policy fingerprints and the finite floating-point start time are not modelled; a page counts as fetched only after a response arrived.
- CatalogMerge.MergeLedgers: the CSV and JSON files, the digest of the merger's own code and the byte and sample evidence copied into each record are not modelled.
- CatalogRunner.Runner.OpenRun: manifest, code and policy are compared themselves instead of by their fingerprints, what stands at the output path is an input, and the limits on row time and page size are checked but reached only as failures of a row.
- RulePlan.ConstrainRulePlan: the order of fields in a stage is not modelled, and a plan is assumed to carry both stages and its bindings.
- DiscoveryPlan.DiscoveryFixedPoint: expected fields are absent, values have the types the normalizer converts to, numbers that do not parse are missing numbers, and case folding is a parameter with its values on the six canonical names.
- BudgetRules.MarginMeans: a twentieth of the context is computed exactly, without the rounding of a binary fraction.
- ModelBudget.CallsBounded: elapsed time appears only as a flag that a reservation finds the time used up, and limits come in as natural numbers.
- AdaptiveCompile.Agent.Run: page reads, prompts and token counts are inputs of a turn; the directory hints are left out of the envelope.
- AdaptiveCompile.CompileLoop: what a pass does, and whether it uses up time or tokens, is an input; a pass without a model call is assumed to be decided by the repair specification and the samples, which do not change.
- SuggestionCommands.SuggestionHistory: a command whose clock runs behind the last transaction is refused, and applying a template counts as an edit.
- SuggestionQueue.QueueSafety: clock readings do not decrease from one transaction to the next, and the order of draft fields is not modelled.
- JobControl.LeaseSafety: a job executes one run or one AI run, AI attempts are not modelled, and operations are ended only by the transactions modelled here.
- JobStore.Jobs.EndResources: the AI attempts it ends, the status an exploration gives back to its source, the flags of a migration and of a run's integrity are not modelled.
- Evidence.BuildVerifies: ZIP storage, UTF-8 and JSON are assumed to round-trip, Ed25519 (section 5.1 of RFC 8032) to verify its own signatures, and the assembly of evidence from the store and the secret scan are not modelled.
- Evidence.SameDigestSameEvidence: collisions are ruled out only among the members of the two bundles, because no hash to 64 digits is injective.
- OwnershipHistory.ReassignmentFreezes: the review of field changes, plan digests and active-work blockers are one flag, and items inherit the owner of their run without a record of their own.
- Collection migrations, publishing, the dispatch of schedule occurrences, deliveries, HTTP routes, authentication, the MCP server, metrics and the web interface are not modelled.
- HTML, selectors, URL rules and page evidence are inputs; none of the parsing libraries is modelled.
