# Surface Export, verified

Surface Export moves a space platform from one game server to another. A controller asks the source
instance to lock and export the platform, sends it to the destination, waits for the destination's
verdict, and then deletes the source or unlocks it. Around that it keeps an audit ledger and a bounded
store of detailed logs, shows where a transfer's time went, and lets an operator link gateways between
instances on a canvas. This project models those parts in Dafny and proves what they promise. Verify it
with `dafny verify dfyconfig.toml`.

**Transfers** (`Transfer*.dfy`). `TransferModel` holds the controller's memory as a value and one function
for each stretch of code between two awaits. `TransferWorld` puts it beside source, destination, disk and
clock as a state machine whose events include refused and failed sends, session loss, timeouts, late and
repeated verdicts, retries under the same id, pruning and controller restarts. `TransferDelete`,
`TransferUnlock` and `TransferIntents` prove safety over every run. `TransferRetry`, `TransferCopies`,
`TransferIntentGuards` and `TransferUnlockGuards` prove what needs an order of events, stated for one id at a
time as `Disciplined`: no other event of the id comes between its admission and its new record, pruning drops
its record only when that is settled, and two verdict handlers for it do not overlap. `TransferOutcomes`,
`TransferAnswers` and `TransferEffects` say what the orchestrator does rather than what it avoids: what a
record's status means, what a request is answered, what is asked for and what is dropped. `TransferWatch` and
`TransferProgress` are about getting on: who settles an awaiting record, and that a refused import can be tried
again. `TransferIntentRuns` and `TransferUnlockRuns` have the runs that lose an intent or free a source.
`TransferOrchestrator` is the class itself, and `TransferService` puts it into the environment: each of its
methods resumes the class with one event and ends in a state that keeps the main theorems about runs.

**Timeline** (`Intervals`, `TimelineIntervals`, `TimelineTrim`, `Timeline`). Milliseconds are integers and
an interval is the set of unit cells it covers, so every reported sum is compared with a count of cells.
Rows are objects shared between the row list, the sorted list and the detail windows, and the trim and
clamp loops rewrite them in place.

**Audit ledger and retention** (`Audit*.dfy`, `Retention`, `DetailStore`). `AuditLedger` takes one file operation at a
time, with a queue of writes, failures and crashes between any two of them. `AuditLog` is the code that
drives it, with a parameter for the operation at which it is stopped. `AuditLimits` and `AuditKeeps` say in
bytes when it rotates and how much it keeps. `AuditIndex` is the fold over the rows. `Retention` is the quota selection and `DetailStore` the store that it bounds.

**Gateways** (`Gateway*.dfy`). `GatewayServer` and `GatewayController` are the controller's side,
`GatewayEdits`, `GatewayBulk`, `GatewaySave` and `GatewayEdges` the canvas, `GatewayText` the texts it compares.

**Quoting** (`Quoting*.dfy`). JSON made ASCII, cut into chunks and quoted as Lua long brackets, with a
reader for the brackets and a lexer for the strings. Texts are sequences of UTF-16 code units.

Assumptions about what is not in this repository's TypeScript: a destination that reports success holds a
validated copy and keeps it; a source reports a deletion or an unlock only after it took place; an unlock
that fails as already unlocked counts as unlocked.

Where the code does less than its documentation suggests, the exact condition is proved:

- Pending intents account for the sources of landed imports exactly when two guards hold that the code does
  not test: a handler that ends removes only an intent of its own attempt or one that is no longer needed,
  and a restart finds in the file every intent still needed (`TransferIntents.IntentsAccountExactly`). The
  first fails when a retry lands before an old handler ends (`TransferIntentRuns.LateEndLosesIntent`), the
  second because recording an intent does not wait for its write (`TransferIntentRuns.RestartLosesIntent`).
- Rotation overwrites nothing exactly when at least one old generation is kept or nothing rotates
  (`AuditLedger.OverwritesNothingIff`).
- A reloaded index gives the answer of the full history for an id exactly unless all its rows, or all its
  terminal rows, were dropped (`AuditIndex.ReloadAnswers`, `AuditLedger.IndexAnswersIff`); a transfer that
  started and never ended can be forgotten (`AuditIndex.DroppedStartIsForgotten`).
- While the record of a source's id is live, its source is unlocked only for its own attempt exactly when no
  call for it is turned away before the record is looked up (`TransferUnlockGuards.UnlocksOnlyOwnIff`). A
  second request that finds the destination offline is, and its refusal frees a source whose import has
  landed (`TransferUnlockRuns.RefusalFreesSource`).
- A long bracket reads back exactly texts without carriage return and without a leading newline
  (`QuotingBracket.BracketRoundTrip`); configuration JSON has neither.
- The edge view shows every link and nothing else exactly when links with the same id join the same two
  endpoints (`GatewayEdges.EdgesAreExactIff`). Names without the id's separator make it so, but the names
  of target gateways are not checked anywhere, and two requests that the controller accepts hide a link
  (`GatewayEdges.AcceptedLinksCanBeHidden`).

## Model

| member | source | states |
|---|---|---|
| TransferDelete.NeverBothGone | docker/seed-data/external_plugins/surface_export/lib/transfer-orchestrator.ts:319-444 | over every run of the whole system, with handlers split at every await and timeouts, late or duplicate verdicts, retries, pruning and restarts in any order: a delete request exists for an id only if a success verdict with both counts matching was taken for it while its record awaited validation, and every deleted source has a validated destination copy |
| TransferDelete.RunKeepsHandlersSound | docker/seed-data/external_plugins/surface_export/lib/transfer-orchestrator.ts:383-475 | the invariant behind delete authority: a handler that deletes, completes or stores serves a success verdict, one that unlocks or reports serves a failure verdict, and a completing handler's source is gone; kept by every run |
| TransferDelete.StepKeepsHandlersSound | docker/seed-data/external_plugins/surface_export/lib/transfer-orchestrator.ts:319-475 | every single event keeps that invariant, whichever handler or call it resumes |
| TransferDelete.AnnouncingStaysSound | docker/seed-data/external_plugins/surface_export/lib/transfer-orchestrator.ts:404-416 | after the first broadcast only a success verdict with its authority goes on to the delete request, and only a failure verdict to the unlock |
| TransferDelete.DeletingStaysSound | docker/seed-data/external_plugins/surface_export/lib/transfer-orchestrator.ts:419-443 | whatever the delete request brings, a handler goes on to complete only for a source that is gone |
| TransferDelete.CompletingStaysSound | docker/seed-data/external_plugins/surface_export/lib/transfer-orchestrator.ts:429-436 | dropping the stored export leaves the authority of every handler as it was |
| TransferDelete.UnlockingStaysSound | docker/seed-data/external_plugins/surface_export/lib/transfer-orchestrator.ts:456-461 | a handler reports a rollback that worked only for a source that is unlocked or gone |
| TransferDelete.ReportingStaysSound | docker/seed-data/external_plugins/surface_export/lib/transfer-orchestrator.ts:463-474 | so does the handler that then waits to remove the intent |
| TransferDelete.ReachableIsWellFormed | docker/seed-data/external_plugins/surface_export/lib/transfer-orchestrator.ts:162-175 | in every reachable state each id names a record that exists and carries that id, so no stretch of a handler is ever stuck |
| TransferModel.FormVerdict | docker/seed-data/external_plugins/surface_export/instance.ts:630-668 | a verdict is a success exactly if the report had a validation payload, said success with a boolean, and both counts matched; the reported flags are carried over, and without a payload everything is false |
| TransferUnlock.UnlockAuthority | docker/seed-data/external_plugins/surface_export/lib/transfer-orchestrator.ts:69-242 | over every run and on both entry paths: a reply with safeToUnlockSource belongs to a call that sent no import; a call whose import was accepted or lost with its session never unlocks by itself; every unlock comes from a call that is known not to have landed or from the handler of a failure verdict for the same id, and that call may be another one for the same source |
| TransferUnlockGuards.UnlocksOnlyOwnIff | docker/seed-data/external_plugins/surface_export/lib/transfer-orchestrator.ts:69-96 | for one source, over every run that is disciplined for its id: while its record is live every unlock asked for belongs to the attempt it names, as the rollback of its import or after a failed verdict on it, exactly if meanwhile no start request for it finds the export missing or the destination offline or fails before these tests, and no instance acts on a refusal |
| TransferUnlockGuards.UnlocksInUseIff | docker/seed-data/external_plugins/surface_export/lib/transfer-orchestrator.ts:69-96 | the same for one event |
| TransferUnlockGuards.LiveIsRefusedIff | docker/seed-data/external_plugins/surface_export/lib/transfer-orchestrator.ts:73-96 | with a live record a call is refused exactly if the export is missing or the destination is offline, since these two tests come before the record is looked up |
| TransferUnlockGuards.LiveCallUnlocksIff | docker/seed-data/external_plugins/surface_export/lib/transfer-orchestrator.ts:73-96 | so, on both entry paths, a call for an id with a live record comes to unlock its source exactly if it fails one of the two tests |
| TransferUnlockRuns.RefusalFreesSource | docker/seed-data/external_plugins/surface_export/instance.ts:228-251 | a run in which the import has landed and awaits its verdict, a second request for the same export finds the destination offline, and its instance then unlocks the source |
| TransferUnlock.StepEvolves | docker/seed-data/external_plugins/surface_export/lib/transfer-orchestrator.ts:487-607 | calls only move forward: once past sending, the outcome of a call is final, its id and caller never change, and handlers keep the verdict they started with |
| TransferUnlock.StepKeepsUnlocksSound | docker/seed-data/external_plugins/surface_export/lib/transfer-orchestrator.ts:446-475 | every event keeps the justification of all unlocks issued so far |
| TransferIntents.IntentsAccountExactly | docker/seed-data/external_plugins/surface_export/lib/transfer-orchestrator.ts:383-393 | over every run and for every id, the last attempt whose import may have landed has its own intent, or its own handler was told that the source is deleted or not locked, or it is older than the retention window: in every state of the run exactly if no handler removes an intent of another attempt that still needs it and every restart finds in the file the intents still needed |
| TransferIntents.StepIsExact | docker/seed-data/external_plugins/surface_export/lib/transfer-orchestrator.ts:383-393 | the same for one event: it keeps the account exactly if its guard holds, and only the end of a handler and a restart have one |
| TransferIntents.EndingIsExact | docker/seed-data/external_plugins/surface_export/lib/transfer-orchestrator.ts:390-392 | the end of a handler keeps the account exactly if the intent it removes is its own or no longer needed |
| TransferIntents.RestartIsExact | docker/seed-data/external_plugins/surface_export/controller.ts:886-908 | a restart keeps the account exactly if the file has every intent that is still needed; the write is not awaited, so it may not |
| TransferIntents.NewlyLandedHasIntent | docker/seed-data/external_plugins/surface_export/lib/transfer-orchestrator.ts:197-216 | an import starts to count as possibly landed in the step, acceptance or session loss, that makes it the last of its id and records this call's own intent |
| TransferIntentRuns.LateEndLosesIntent | docker/seed-data/external_plugins/surface_export/lib/transfer-orchestrator.ts:383-393 | a run of fifteen events: the first attempt fails and is unlocked, its handler waits for the log write, the retry is accepted, and the old handler then removes the retry's intent while the retry awaits its verdict |
| TransferIntentRuns.RestartLosesIntent | docker/seed-data/external_plugins/surface_export/controller.ts:919-923 | a run in which a restart between recording and writing loses the intent of an accepted import |
| TransferIntentGuards.OrderlyRunsLoseNothingElse | docker/seed-data/external_plugins/surface_export/lib/transfer-orchestrator.ts:383-393 | when, besides the orderings above, no import lands while a handler of its id has yet to end, the account is kept exactly if every restart finds in the file the intents still needed |
| TransferIntentGuards.StepKeepsLatest | docker/seed-data/external_plugins/surface_export/lib/transfer-orchestrator.ts:325-393 | in such runs the awaiting attempt and every attempt a handler still judges are the last that landed for the id |
| TransferIntents.AttemptsAreNamed | docker/seed-data/external_plugins/surface_export/lib/transfer-orchestrator.ts:197-216 | in every reachable state the history behind that account is true: every import that may have landed has a last attempt of its id, and a resolved attempt's source was deleted or unlocked |
| TransferIntents.PrunedIsAged | docker/seed-data/external_plugins/surface_export/controller.ts:934-944 | an intent that pruning drops had outlived the retention window |
| TransferRetry.StepKeepsOwned | docker/seed-data/external_plugins/surface_export/lib/transfer-orchestrator.ts:88-163 | for any one id, whatever happens to others: when its admission is not interrupted by another of its events, its record is evicted only when settled and a verdict is taken only without an open handler, every event keeps its record with one owner at a time, whether a call in transit, a timer that awaits, or an open handler |
| TransferRetry.SliceKeepsOwned | docker/seed-data/external_plugins/surface_export/lib/transfer-orchestrator.ts:88-163 | what leaves the calls, handlers and record of an id alone leaves its owner alone, even if timers are gone |
| TransferRetry.HandlerLeavesSlice | docker/seed-data/external_plugins/surface_export/lib/transfer-orchestrator.ts:319-475 | an event of another id's handler leaves everything of this id as it is |
| TransferRetry.CallLeavesSlice | docker/seed-data/external_plugins/surface_export/lib/transfer-orchestrator.ts:69-242 | so does an event of another id's call |
| TransferRetry.InstallKeepsOwned | docker/seed-data/external_plugins/surface_export/lib/transfer-orchestrator.ts:162-173 | replacing what the id named, after the archive, leaves the new record to its call alone: nothing that guarded the old one is left |
| TransferRetry.SendKeepsOwned | docker/seed-data/external_plugins/surface_export/lib/transfer-orchestrator.ts:175-190 | sending the import leaves the record to its call |
| TransferRetry.ArmingKeepsOwned | docker/seed-data/external_plugins/surface_export/lib/transfer-orchestrator.ts:291-316 | arming the timeout of an unguarded record makes the timer its one owner |
| TransferRetry.TransportingHasOneOwner | docker/seed-data/external_plugins/surface_export/lib/transfer-orchestrator.ts:88-111 | an id whose record is in transit has no open handler, no timer and no second call on its way |
| TransferRetry.ReplaceableHasNoOwner | docker/seed-data/external_plugins/surface_export/lib/transfer-orchestrator.ts:97-111 | a record that a retry may replace is guarded by no timer and no open handler |
| TransferCopies.KnownCopiesBlockReimport | docker/seed-data/external_plugins/surface_export/lib/transfer-orchestrator.ts:319-358 | after any run that is disciplined for the id, once a verdict reporting a destination copy (success, cleanup_failed or destinationPreserved) is taken at awaiting_validation or failed, no event of any continuation that is disciplined for the id sends an import for it until its record is pruned or the controller restarts; other ids may be evicted, overlap or interrupt one another |
| TransferCopies.TakenCopyBlocks | docker/seed-data/external_plugins/surface_export/lib/transfer-orchestrator.ts:319-358 | the same about one sequence of events: after such an event no later one sends an import for the id |
| TransferCopies.TakenCopyIsKnown | docker/seed-data/external_plugins/surface_export/lib/transfer-orchestrator.ts:325-381 | taking such a verdict makes the copy known, through the record itself or through the handler that will settle it |
| TransferCopies.StepKeepsCopy | docker/seed-data/external_plugins/surface_export/lib/transfer-orchestrator.ts:404-475 | a known copy stays known through every event that keeps the record |
| TransferCopies.TimersBelongToTheirAttempt | docker/seed-data/external_plugins/surface_export/lib/transfer-orchestrator.ts:244-247 | an armed timer belongs to the attempt that armed it and that its id names now, in every state of a run that is disciplined for its id, so a timeout never judges a retry |
| TransferOutcomes.StatusesAreTold | docker/seed-data/external_plugins/surface_export/lib/transfer-orchestrator.ts:88-475 | over every run, in any order of events: the status of a record is what last became of its attempt and nothing else. It is in transit exactly while nothing has; completed exactly if the last thing its handlers were told is that the source was deleted; in error exactly if the delete request threw; marked for cleanup exactly if the delete was refused, a reported failure left a destination copy, or a late verdict reported one; failed exactly if an import was refused or a plain failure was reported |
| TransferOutcomes.DeleteAnswerIsFinal | docker/seed-data/external_plugins/surface_export/lib/transfer-orchestrator.ts:404-443 | in runs disciplined for the id, what the source answers about the delete decides the record for good: completed exactly if deleted, marked for cleanup exactly if refused, in error exactly if the request threw, whatever comes after |
| TransferOutcomes.CompletedIsDeleted | docker/seed-data/external_plugins/surface_export/lib/transfer-orchestrator.ts:419-436 | over every run, the source of a completed record is deleted and a handler of this very attempt was told so |
| TransferOutcomes.StepMovesFates | docker/seed-data/external_plugins/surface_export/lib/transfer-orchestrator.ts:191-475 | for an id with one owner, an import lands or is refused once, what landed is judged once, and only what failed plainly can still be corrected by a late verdict |
| TransferOutcomes.RecordsNameTheirExport | docker/seed-data/external_plugins/surface_export/lib/transfer-orchestrator.ts:132-148 | over every run, a record names the export that its own call was made for, and has its id and start time |
| TransferOutcomes.StepKeepsTold | docker/seed-data/external_plugins/surface_export/lib/transfer-orchestrator.ts:69-475 | every event keeps the agreement of records, prepared calls and what became of the attempts |
| TransferAnswers.RequestIsAnswered | docker/seed-data/external_plugins/surface_export/lib/transfer-orchestrator.ts:69-162 | over every run: a request is admitted, with a fresh record, exactly if the export is stored with a positive index, the destination is online and the id names no record or one that failed without a preserved copy; it is told that the transfer is active exactly if the record is in transit or awaits its verdict; otherwise it is refused, with the unlock asked for on the start path |
| TransferAnswers.WhoeverWaitsHasAsked | docker/seed-data/external_plugins/surface_export/lib/transfer-orchestrator.ts:191-242 | over every run: the reply of a call tells what became of its import, a call that waits for an unlock has asked for it, and a handler past its broadcast has sent the delete or the unlock that its verdict calls for |
| TransferProgress.RefusedImportIsRetried | docker/seed-data/external_plugins/surface_export/lib/transfer-orchestrator.ts:193-232 | a refused import does not block its export: after any run disciplined for its id, and after whatever happens to others, the next request is admitted and its import is sent, if the export is stored with a positive index and the destination online |
| TransferProgress.RefusedIsNotLive | docker/seed-data/external_plugins/surface_export/lib/transfer-orchestrator.ts:226-232 | in every reachable state a refused import leaves the record its id names failed and its source asked to be unlocked |
| TransferProgress.OthersLeaveChance | docker/seed-data/external_plugins/surface_export/lib/transfer-orchestrator.ts:97-111 | nothing but an event of the id itself takes a retry away |
| TransferWatch.AwaitingIsWatched | docker/seed-data/external_plugins/surface_export/lib/transfer-orchestrator.ts:244-316 | in runs disciplined for the id, a record that awaits its verdict has either a pending timer or an open handler, and never both |
| TransferWatch.StepKeepsGoing | docker/seed-data/external_plugins/surface_export/lib/transfer-orchestrator.ts:244-475 | every event disciplined for the id keeps it so |
| TransferEffects.CompletionDropsExport | docker/seed-data/external_plugins/surface_export/lib/transfer-orchestrator.ts:429-433 | over every run, once its completion is recorded the export that the attempt was requested for is no longer stored, and every other still is |
| TransferEffects.LandingRecordsIntent | docker/seed-data/external_plugins/surface_export/controller.ts:919-944 | an import that lands puts its own intent among those at most 15 minutes old, drops exactly the others, and has the result written |
| TransferEffects.EndingRemovesIntent | docker/seed-data/external_plugins/surface_export/lib/transfer-orchestrator.ts:390-392 | a handler that ends resolved takes the intent of its id away, on disk too; any other leaves the intents alone |
| TransferEffects.RestartReloads | docker/seed-data/external_plugins/surface_export/controller.ts:886-908 | a new process has the stored exports, exactly the intents of the file that are at most 15 minutes old, no records, and lost calls and handlers |
| TransferEffects.EndingPrunes | docker/seed-data/external_plugins/surface_export/lib/transfer-orchestrator.ts:477-484 | after a handler ends at most 100 records are left, exactly 100 if there were more, and what went is at most as new as what stays |
| TransferEffects.LateVerdictMatters | docker/seed-data/external_plugins/surface_export/lib/transfer-orchestrator.ts:319-358 | a late verdict changes something only if the record has failed and the verdict reports a copy; a failed record that could be retried still can exactly if it reports none |
| TransferEffects.TimeoutFails | docker/seed-data/external_plugins/surface_export/lib/transfer-orchestrator.ts:297-315 | a timer that goes off starts a handler with a plain failure exactly if the record awaits its verdict, and is gone |
| TransferEffects.PreservedWasSaid | docker/seed-data/external_plugins/surface_export/lib/transfer-orchestrator.ts:325-381 | over every run, a record says that a copy was preserved only if a verdict for its id has said so |
| TransferService.TransferService.ResumeCall | docker/seed-data/external_plugins/surface_export/lib/transfer-orchestrator.ts:69-242 | resuming a call on the class leads to the state of a run with this event, and so to what every run promises: authorised deletes and unlocks, one owner for every id whose events were disciplined, copies that block another import, the exact accounts of unlocks and intents, statuses that say what became of each attempt, and replies that say what became of the import |
| TransferService.TransferService.ResumeHandler | docker/seed-data/external_plugins/surface_export/lib/transfer-orchestrator.ts:319-475 | the same for a verdict, a timeout and every stretch of their handler but the last |
| TransferService.TransferService.EndHandler | docker/seed-data/external_plugins/surface_export/lib/transfer-orchestrator.ts:383-393 | the same for the end of a handler, with the eviction that the sort over the class's records picks |
| TransferService.TransferService.StartAgain | docker/seed-data/external_plugins/surface_export/controller.ts:886-908 | the same for a new process that finds the stored exports and the file of intents |
| TransferService.RunKeepsPromises | docker/seed-data/external_plugins/surface_export/lib/transfer-orchestrator.ts:69-475 | what every run promises, put together: authorised deletes and unlocks, one owner for every id whose events were disciplined and the exact account of its unlocks, no import after a verdict that reports a copy, the exact account of intents, in orderly runs too, statuses that say what became of the attempt, completed records with deleted sources, waits that were asked for, and awaiting records that are watched |
| TransferService.TransferService.RecordOperation | docker/seed-data/external_plugins/surface_export/controller.ts:291-303 | an import or export joins the map that is pruned; no transfer takes notice |
| TransferOrchestrator.TransferOrchestrator.TransferPlatform | docker/seed-data/external_plugins/surface_export/lib/transfer-orchestrator.ts:69-162 | the checks up to the first await take the controller to the state of the model: refusals, the live record, the settled one, the preserved one, the missing index, admission |
| TransferOrchestrator.TransferOrchestrator.AfterImportReply | docker/seed-data/external_plugins/surface_export/lib/transfer-orchestrator.ts:191-242 | acceptance and session loss await validation; a refusal fails the record its id names now and unlocks; any other throw unlocks and leaves the status |
| TransferOrchestrator.TransferOrchestrator.EnterAwaitingValidation | docker/seed-data/external_plugins/surface_export/lib/transfer-orchestrator.ts:244-259 | status, timer, pruned intents and the new intent, and one file write |
| TransferOrchestrator.TransferOrchestrator.PrunePendingTransfersInMemory | docker/seed-data/external_plugins/surface_export/controller.ts:934-944 | deleting while walking the map removes exactly the outdated intents and counts them |
| TransferOrchestrator.TransferOrchestrator.HandleTransferValidation | docker/seed-data/external_plugins/surface_export/lib/transfer-orchestrator.ts:319-382 | up to the first await: unknown ids and settled records are only noted, with the late-verdict corrections; an awaiting record adopts the verdict, loses its timer and gets a handler |
| TransferOrchestrator.TransferOrchestrator.ValidationTimeout | docker/seed-data/external_plugins/surface_export/lib/transfer-orchestrator.ts:297-315 | the callback acts only on a record that still awaits |
| TransferOrchestrator.TransferOrchestrator.FinishHandler | docker/seed-data/external_plugins/surface_export/lib/transfer-orchestrator.ts:390-393 | the intent goes exactly when the source is resolved, and then old records are pruned as the model allows |
| TransferOrchestrator.TransferOrchestrator.PruneOldTransfers | docker/seed-data/external_plugins/surface_export/lib/transfer-orchestrator.ts:477-484 | nothing up to 100 records; otherwise sorting and deleting keeps exactly 100 and nothing kept is older than anything dropped |
| TransferOrchestrator.EvictsOldest | docker/seed-data/external_plugins/surface_export/lib/transfer-orchestrator.ts:480-483 | what is deleted from position 100 on is at most as new as whatever stays |
| Timeline.AttributeTime | docker/seed-data/external_plugins/surface_export/shared/transfer-timeline.ts:302-358 | in terms of the rows as they were pushed: attributed time is the measure of the measured spans inside the timeline, attributed plus residual is the total, the overlap is the sum of the lengths minus the measure of the union; the residual rows are exactly the maximal uncovered stretches longer than 2 ms, and with the stretches left out, which are exactly the others, they add up to the residual; the same for the detail rows of each window and what its children left free; children are inside their windows, and each percentage is the share of its whole, 0 when that is 0 |
| Timeline.AccountForMeasured | docker/seed-data/external_plugins/surface_export/shared/transfer-timeline.ts:302-328 | the same for the measured rows alone: after the in-place trim they are apart in time, none starts below zero, the residual rows are exactly the gaps above the floor, and the windows are untouched |
| Timeline.TrimOverlaps | docker/seed-data/external_plugins/surface_export/shared/transfer-timeline.ts:302-317 | the loop over aliased row objects leaves in them exactly the trimmed spans, with durations equal to lengths, and returns exactly what was lost |
| TimelineTrim.TrimConserves | docker/seed-data/external_plugins/surface_export/shared/transfer-timeline.ts:302-317 | the lengths before equal the lengths after plus the reported overlap |
| TimelineTrim.TrimSeparates | docker/seed-data/external_plugins/surface_export/shared/transfer-timeline.ts:305-317 | trimmed rows have disjoint interiors and begin at or after zero; each keeps its end or becomes empty |
| TimelineTrim.TrimCovers | docker/seed-data/external_plugins/surface_export/shared/transfer-timeline.ts:303-317 | from zero on, the trimmed rows cover exactly the points they covered before |
| TimelineTrim.TrimmedMeasure | docker/seed-data/external_plugins/surface_export/shared/transfer-timeline.ts:302-317 | the reported overlap is the sum of the original lengths minus the measure of their union over t >= 0 |
| TimelineTrim.AttributedMeasure | docker/seed-data/external_plugins/surface_export/shared/transfer-timeline.ts:319-321 | the merged covered intervals measure the original spans clipped to the timeline, so trimming does not change attribution |
| TimelineIntervals.MergeIntervals | docker/seed-data/external_plugins/surface_export/shared/transfer-timeline.ts:114-128 | the result is strictly separated and covers exactly the points of the input |
| Intervals.SeparatedIsCanonical | docker/seed-data/external_plugins/surface_export/shared/transfer-timeline.ts:118-127 | a strictly separated sequence is determined by its points, so the merge has one possible answer |
| TimelineIntervals.GapsWithin | docker/seed-data/external_plugins/surface_export/shared/transfer-timeline.ts:130-139 | for any input the reported gaps are exactly the maximal uncovered stretches of [0, total) longer than 2 ms and the ones left out exactly the others, both in order, and with the covered time they add up to the total |
| TimelineIntervals.GapsMeasure | docker/seed-data/external_plugins/surface_export/shared/transfer-timeline.ts:131-138 | free and covered time partition the total |
| Intervals.DisjointMeasure | docker/seed-data/external_plugins/surface_export/shared/transfer-timeline.ts:357 | for intervals without common interior the sum of lengths is the measure of the union |
| Timeline.ClampChildren | docker/seed-data/external_plugins/surface_export/shared/transfer-timeline.ts:334-338 | every child ends up inside its window with start <= end, its duration is cut to its length and a missing one stays missing |
| TimelineTrim.ClampKeepsCoverage | docker/seed-data/external_plugins/surface_export/shared/transfer-timeline.ts:334-338 | clamping changes nothing about what the children cover inside the window |
| Timeline.FreeStretches | docker/seed-data/external_plugins/surface_export/shared/transfer-timeline.ts:339-344 | moved to the window, the reported gaps are exactly the maximal stretches longer than 2 ms that no child covered in it, and with the ones left out they are all that the children left free |
| Timeline.GapsAreDetermined | docker/seed-data/external_plugins/surface_export/shared/transfer-timeline.ts:130-139 | what is reported and what is left out of a window is determined by what its children cover |
| Timeline.DetailIsClose | docker/seed-data/external_plugins/surface_export/shared/transfer-timeline.ts:339-354 | so the detail gap falls short of the free time by at most 2 ms for every stretch left out |
| TimelineTrim.ShiftExact | docker/seed-data/external_plugins/surface_export/shared/transfer-timeline.ts:339-344 | gaps counted from the start of a window are its gaps once they are moved to it |
| Timeline.DescribeWindows | docker/seed-data/external_plugins/surface_export/shared/transfer-timeline.ts:330-354 | window by window the detail rows are exactly the stretches longer than 2 ms that no child covers, in order; their sum with the stretches left out is all the free time; a window without children is passed over |
| Timeline.FreeWithinWindows | docker/seed-data/external_plugins/surface_export/shared/transfer-timeline.ts:355 | the free time of the windows is between zero and their total, so the percentage is at most 100 |
| Timeline.SortByStart | docker/seed-data/external_plugins/surface_export/shared/transfer-timeline.ts:303 | the measured rows, each once, in the order of their starts |
| AuditLedger.LedgerKeepsSuffix | docker/seed-data/external_plugins/surface_export/lib/audit-ledger.ts:73-155 | with maxFiles >= 1 and for every run of queued writes, failures and crashes between any two file operations: what would be loaded is a suffix of everything ever written, in order and never without the newest row, and the next rename overwrites nothing |
| AuditLedger.IndexFollowsHistory | docker/seed-data/external_plugins/surface_export/controller.ts:788-807 | until the controller restarts, for any limits and whatever fails or rotates: the index is the fold and the revisions are the counts of all the rows ever written |
| AuditLedger.IndexSinceRestart | docker/seed-data/external_plugins/surface_export/controller.ts:728-745 | from a restart on the index is the fold of what that restart found, the files or the detail store or nothing readable, and of every row written since |
| AuditLedger.IndexIsExact | docker/seed-data/external_plugins/surface_export/controller.ts:728-807 | every run is covered by one of the two, from its last restart on |
| AuditLedger.NothingIsLost | docker/seed-data/external_plugins/surface_export/lib/persist-queue.ts:3-8 | without failures and restarts the rows handed over are written in order, and the rest still waits |
| AuditLedger.AdvanceEffect | docker/seed-data/external_plugins/surface_export/lib/audit-ledger.ts:117-131 | one file operation leaves what would be loaded as it is, or adds the written row at the end, or drops exactly the oldest generation; no rename finds its target taken |
| AuditLedger.StepKeepsSound | docker/seed-data/external_plugins/surface_export/lib/persist-queue.ts:3-8 | every event keeps the whole invariant, with one write of the queue in progress at a time |
| AuditLedger.OverwritesNothingIff | docker/seed-data/external_plugins/surface_export/lib/audit-ledger.ts:97-133 | in all runs from an empty disk no rename replaces a file, exactly when maxFiles >= 1 or the byte limit never rotates |
| AuditLedger.NoGenerationsOverwrites | docker/seed-data/external_plugins/surface_export/lib/audit-ledger.ts:117-131 | with maxFiles below 1 the second rotation replaces the file of the first |
| AuditLimits.RotatesExactlyWhenFull | docker/seed-data/external_plugins/surface_export/lib/audit-ledger.ts:97-133 | over every run, with failures and restarts and for any limits: a row is appended only to a live file smaller than the byte limit, and a file is removed or renamed only while the live file has reached it |
| AuditLimits.NothingDroppedBelowLimit | docker/seed-data/external_plugins/surface_export/lib/audit-ledger.ts:97-133 | as long as all rows ever written come to fewer bytes than the limit, what would be loaded is every one of them, in order, whatever fails or restarts |
| AuditKeeps.DropsOnlyWhenAllAreFull | docker/seed-data/external_plugins/surface_export/lib/audit-ledger.ts:97-133 | from an empty disk, without failures and restarts: what would be loaded is every row written, or comes to at least the byte limit times the number of generations kept |
| AuditKeeps.StepKeepsEnough | docker/seed-data/external_plugins/surface_export/lib/audit-ledger.ts:117-131 | every operation keeps old generations full and without a gap but for the place a rotation has just emptied |
| AuditLedger.OneRowAFailure | docker/seed-data/external_plugins/surface_export/lib/persist-queue.ts:3-8 | no more rows are missing than operations have failed |
| AuditLedger.IndexAnswersIff | docker/seed-data/external_plugins/surface_export/controller.ts:728-745 | in every reachable state, and so after every restart, the index answers for an id as the full history does, exactly unless the rows it was built from lack all the rows of the id or all its terminal ones |
| AuditLedger.RestartAnswers | docker/seed-data/external_plugins/surface_export/controller.ts:728-742 | after any run and a restart, every transfer that has a loaded terminal row gets the answer the full history gives |
| AuditLedger.ReloadKeepsSound | docker/seed-data/external_plugins/surface_export/controller.ts:728-745 | reloading, or migrating the detail store into an empty ledger, restores the invariant |
| AuditLog.AuditLog.RotateIfNeeded | docker/seed-data/external_plugins/surface_export/lib/audit-ledger.ts:97-133 | stopped after any number of operations, the loop over the generations has the files of the step machine; run to its end it rotated exactly if the live file had reached the byte limit, and then moved every generation by one and dropped the oldest |
| AuditLog.AuditLog.MoveGenerations | docker/seed-data/external_plugins/surface_export/lib/audit-ledger.ts:117-130 | the loop itself, from the oldest generation to the newest |
| AuditLog.AuditLog.AppendAuditRow | docker/seed-data/external_plugins/surface_export/lib/audit-ledger.ts:73-83 | the row is the last of the live file exactly if no operation before it was stopped, and what it was appended to is smaller than the limit |
| AuditLog.AuditLog.RecordAuditRow | docker/seed-data/external_plugins/surface_export/controller.ts:788-807 | the index and the counts take in the row exactly when it was written |
| AuditLog.AuditLog.LoadAuditLedger | docker/seed-data/external_plugins/surface_export/lib/audit-ledger.ts:135-155 | the generations are concatenated from the oldest to the live file |
| AuditLog.AuditLog.LoadAuditIndex | docker/seed-data/external_plugins/surface_export/controller.ts:728-742 | the index and the counts after a restart are those of the step machine |
| AuditIndex.FoldAuditRows | docker/seed-data/external_plugins/surface_export/lib/audit-ledger.ts:196-210 | the loop computes the fold that the incremental index follows |
| AuditIndex.CountRevisions | docker/seed-data/external_plugins/surface_export/lib/audit-ledger.ts:212-221 | the loop computes the counts that the incremental counts follow |
| AuditIndex.FoldSpeaks | docker/seed-data/external_plugins/surface_export/lib/audit-ledger.ts:196-210 | the fold knows exactly the ids mentioned and gives each its last terminal row, else its last row |
| AuditIndex.FoldIsSpeaker | docker/seed-data/external_plugins/surface_export/lib/audit-ledger.ts:196-210 | wherever a row is the last terminal one of an id, or its last row when it never ended, the fold has that row |
| AuditIndex.RevisionsCount | docker/seed-data/external_plugins/surface_export/lib/audit-ledger.ts:212-221 | an id has a count exactly if it ended, and the count is the number of its terminal rows |
| AuditIndex.ReloadAnswers | docker/seed-data/external_plugins/surface_export/lib/audit-ledger.ts:196-210 | for every id a suffix of the rows answers as the whole history does, exactly unless it lacks all the rows of the id or all its terminal ones |
| AuditIndex.DroppedStartIsForgotten | docker/seed-data/external_plugins/surface_export/lib/audit-ledger.ts:196-210 | two rows of which the first, the start of a transfer that never ended, is dropped: the history knows that transfer and the reload does not |
| Retention.SelectRetainedDetail | docker/seed-data/external_plugins/surface_export/lib/detail-retention.ts:29-77 | the partition, the two sorts, the three claims and the filter make the selection described below, with 25 slots for successes unless the caller says otherwise; everything is kept without a limit of at least one or when there are no more entries than the limit |
| Retention.SelectionIsExact | docker/seed-data/external_plugins/surface_export/lib/detail-retention.ts:41-77 | for distinct entries more than the cap, in statuses, times and counts: exactly the cap is kept, in original order; every n that is at most the slots reserved, the successes there are and half the cap has n successes kept; a failed, cleanup_failed or error log is dropped only if no more successes are kept than such an n; and of each class what is kept is pinned if what is dropped is, and else at least as new |
| Retention.SelectionIsDetermined | docker/seed-data/external_plugins/surface_export/lib/detail-retention.ts:9-11 | these clauses leave one number of successes and one of failures |
| Retention.KeepSetIsBest | docker/seed-data/external_plugins/surface_export/lib/detail-retention.ts:58-74 | the kept entries are the front of each class's ranking, and they number the cap |
| Retention.ThirdClaimAddsNothing | docker/seed-data/external_plugins/surface_export/lib/detail-retention.ts:70-74 | for distinct entries more than the cap, the third claim adds nothing to the first two |
| Retention.SelectionIsIdempotent | docker/seed-data/external_plugins/surface_export/lib/detail-retention.ts:45-51 | selecting again changes nothing, with or without a cap |
| Retention.ClaimTakesTop | docker/seed-data/external_plugins/surface_export/lib/detail-retention.ts:58-69 | a round with enough room takes exactly the first candidates, as many as it has slots |
| DetailStore.StoreStaysBounded | docker/seed-data/external_plugins/surface_export/lib/transaction-logger.ts:343-351 | however logs are saved and pins change: the store has one log for each id, the last one saved for it, pinned as asked at the last write, and never more than the cap |
| DetailStore.StoreKeepsAll | docker/seed-data/external_plugins/surface_export/lib/transaction-logger.ts:343-351 | while no more logs were saved than the cap, or without one, the store has a log for exactly the transfers saved |
| DetailStore.PersistSelects | docker/seed-data/external_plugins/surface_export/lib/transaction-logger.ts:343-351 | every write keeps the merged logs, or of more than the cap the selection of them |
| DetailStore.DetailStore.PersistTransactionLog | docker/seed-data/external_plugins/surface_export/lib/transaction-logger.ts:343-351 | the log of the id is replaced in its place or added at the end, and the retention selection cuts the result |
| DetailStore.UpsertHas | docker/seed-data/external_plugins/surface_export/lib/transaction-logger.ts:343-349 | replacing or adding keeps one log for each id and every log of another id |
| GatewayController.GatewayController.HandleSetGatewayLinkRequest | docker/seed-data/external_plugins/surface_export/controller.ts:1078-1152 | a refused request, with the reason of the first failing check, leaves the links alone; an accepted one stores them, also when the file cannot be written |
| GatewayController.GatewayController.HandleGetGatewaysRequest | docker/seed-data/external_plugins/surface_export/controller.ts:1062-1076 | the rows are the links of the active gateways, each once |
| GatewayServer.RunConforms | docker/seed-data/external_plugins/surface_export/controller.ts:1078-1135 | from a conforming state, whatever requests come under whatever mode switches: no instance links to itself, every multi gateway has at most one target, and no two of an instance share a target instance |
| GatewayServer.RunLeavesOtherMode | docker/seed-data/external_plugins/surface_export/controller.ts:1094-1101 | requests of one mode leave the links of the other as they are |
| GatewayServer.AcceptedIff | docker/seed-data/external_plugins/surface_export/controller.ts:1086-1126 | a request is accepted exactly if it is not empty, its instance is known, its gateways belong to the mode and are named once, and in multi mode the instance would keep the rule |
| GatewayServer.CheckIsExact | docker/seed-data/external_plugins/surface_export/controller.ts:1108-1126 | the pairwise checks reject exactly the requests after which the instance would break the rule |
| GatewayServer.AcceptedConforms | docker/seed-data/external_plugins/surface_export/controller.ts:1128-1135 | an accepted request keeps every instance conforming |
| GatewayServer.OthersUntouched | docker/seed-data/external_plugins/surface_export/controller.ts:1128-1135 | keys of other instances or other gateways keep their links |
| GatewayServer.NormalizeNames | docker/seed-data/external_plugins/surface_export/controller.ts:1094-1106 | normalizing succeeds exactly for gateways of the mode named once each |
| GatewayServer.AcceptedStores | docker/seed-data/external_plugins/surface_export/controller.ts:1098-1135 | after an accepted request each gateway it names has exactly the links that its own targets ask for: integers other than the instance itself, arriving at the gateway given or, without one, at the one it is submitted for |
| GatewayServer.RefusalTells | docker/seed-data/external_plugins/surface_export/controller.ts:1078-1126 | a refusal gives the first reason there is: nothing named, an unknown instance, the first entry that names no gateway of the mode or one named before, or the rule of multi mode |
| GatewayLinks.CheckMultiModeLink | docker/seed-data/external_plugins/surface_export/shared/dto.ts:32-53 | the loop over the other gateways finds a violation exactly if there is one |
| GatewayLinks.NamesAreApart | docker/seed-data/external_plugins/surface_export/shared/dto.ts:8-20 | the names of the two modes have nothing in common |
| GatewaySave.Save | docker/seed-data/external_plugins/surface_export/web/gateway/GatewayCanvas.tsx:600-663 | when the controller holds the baseline and the edits keep the rules of the mode: no request is refused, the active links become the edits up to order and the others stay; in multi mode every instance then keeps the rule, even if the stored links broke it, and a conforming controller stays conforming; swaps between gateways of one instance included |
| GatewaySave.ReloadIsClean | docker/seed-data/external_plugins/surface_export/web/gateway/GatewayCanvas.tsx:600-663 | a canvas that loads again after such a save finds no dirty key |
| GatewaySave.GroupIsAccepted | docker/seed-data/external_plugins/surface_export/controller.ts:1108-1135 | the request of one more instance is accepted in the middle of a save and brings its dirty keys to the edits |
| GatewaySave.GroupByInstance | docker/seed-data/external_plugins/surface_export/web/gateway/GatewayCanvas.tsx:605-621 | each instance gets the entries of its dirty keys in order, and each instance comes once |
| GatewaySave.SendAll | docker/seed-data/external_plugins/surface_export/web/gateway/GatewayCanvas.tsx:633-646 | the requests are sent one after the other, none fails, and each instance sent holds its edits |
| GatewaySave.DirtyKeys | docker/seed-data/external_plugins/surface_export/web/gateway/gateway-graph.ts:293-302 | exactly the keys whose targets are not a permutation of the baseline's, each once |
| GatewayText.SameTargetsIff | docker/seed-data/external_plugins/surface_export/web/gateway/gateway-graph.ts:283-291 | comparing sorted texts holds exactly when the lists are permutations of each other |
| GatewayText.EndpointKeyInjective | docker/seed-data/external_plugins/surface_export/web/gateway/gateway-graph.ts:131-133 | different endpoints have different texts |
| GatewaySave.LoadedHolds | docker/seed-data/external_plugins/surface_export/web/gateway/gateway-graph.ts:269-281 | what the canvas loads is exactly what the controller holds for the active mode |
| GatewaySave.LoadedFills | docker/seed-data/external_plugins/surface_export/web/gateway/gateway-graph.ts:269-281 | whatever the stored targets are called, each active gateway is loaded with all its targets in order, a missing gateway being the one the link starts from |
| GatewaySave.EditsFromLinks | docker/seed-data/external_plugins/surface_export/web/gateway/gateway-graph.ts:269-281 | the loop over the rows fills the edits, a later row of a key replacing an earlier one |
| GatewayBulk.PlanBulkLink | docker/seed-data/external_plugins/surface_export/web/gateway/GatewayCanvas.tsx:118-148 | the nested loops apply the pairs of the selection in order; nothing is refused in one-gate mode or when unlinking, and in multi mode every pair is refused or linked both ways, no link goes and only links of the selection are new |
| GatewayBulk.RefusedIff | docker/seed-data/external_plugins/surface_export/web/gateway/GatewayCanvas.tsx:139-144 | in multi mode, when a pair's turn comes it is refused exactly if an end already has a link or another gateway of that end's instance leads to the other instance; otherwise it is linked both ways and nothing else changes |
| GatewayBulk.BulkLinksOrRefuses | docker/seed-data/external_plugins/surface_export/web/gateway/GatewayCanvas.tsx:127-147 | in multi mode every pair of the selection is refused or linked both ways, only pairs are refused, no link is taken away and only links between selected instances are added |
| GatewayBulk.FirstPairIsLinked | docker/seed-data/external_plugins/surface_export/web/gateway/GatewayCanvas.tsx:127-147 | where there are no links yet, the first two selected instances are linked |
| GatewayBulk.PlanKeepsSymmetry | docker/seed-data/external_plugins/surface_export/web/gateway/GatewayCanvas.tsx:118-148 | symmetric edits stay symmetric, in both modes, linking and unlinking |
| GatewayBulk.PlanKeepsOneToOne | docker/seed-data/external_plugins/surface_export/web/gateway/GatewayCanvas.tsx:118-148 | in multi mode a bulk change keeps one destination for each gateway and one gateway for each destination at both ends |
| GatewayBulk.BulkLinkCompletes | docker/seed-data/external_plugins/surface_export/web/gateway/GatewayCanvas.tsx:127-145 | in one-gate mode linking makes every ordered pair present, removes nothing and keeps the order of what was there |
| GatewayBulk.BulkUnlinkRemoves | docker/seed-data/external_plugins/surface_export/web/gateway/GatewayCanvas.tsx:135-138 | unlinking removes exactly the links between the selected instances and keeps all others in order |
| GatewayEdits.MultiModeViolation | docker/seed-data/external_plugins/surface_export/web/gateway/GatewayCanvas.tsx:95-116 | the check of both ends, with the other gateways gathered from all the edits |
| GatewayEdits.EndIsFree | docker/seed-data/external_plugins/surface_export/web/gateway/GatewayCanvas.tsx:102-113 | an end passes exactly if it is free and no other gateway of the instance leads to the same instance |
| GatewayEdits.ConnectKeepsOneToOne | docker/seed-data/external_plugins/surface_export/web/gateway/gateway-graph.ts:235-253 | a connection that passes the check keeps the rule on every instance |
| GatewayEdits.ConnectHas | docker/seed-data/external_plugins/surface_export/web/gateway/gateway-graph.ts:235-253 | connecting two gateways of two instances adds exactly the link and its way back, and any other request changes nothing |
| GatewayEdits.DisconnectHas | docker/seed-data/external_plugins/surface_export/web/gateway/gateway-graph.ts:255-267 | disconnecting removes exactly the link and its way back |
| GatewayEdits.DisconnectUndoes | docker/seed-data/external_plugins/surface_export/web/gateway/gateway-graph.ts:226-267 | disconnecting undoes a connection that was new at both ends |
| GatewayEdges.BuildEdges | docker/seed-data/external_plugins/surface_export/web/gateway/gateway-graph.ts:165-194 | the loop over the directed links computes the edge map |
| GatewayEdges.EdgesAreExactIff | docker/seed-data/external_plugins/surface_export/web/gateway/gateway-graph.ts:165-194 | for any links the edges show every one of them, and equally show every one and nothing else, exactly if links with the same id join the same two endpoints |
| GatewayEdges.EdgeViewIsExact | docker/seed-data/external_plugins/surface_export/web/gateway/gateway-graph.ts:145-194 | for any edits the edges decode to exactly the links of the edits, each arriving at its own target gateway or, without one, at the gateway it left from, under the same condition |
| GatewayEdges.EdgesSumUp | docker/seed-data/external_plugins/surface_export/web/gateway/gateway-graph.ts:165-194 | every edge has the ends of one link with its id and the directions of all of them |
| GatewayEdges.AcceptedLinksCanBeHidden | docker/seed-data/external_plugins/surface_export/web/gateway/gateway-graph.ts:140-143 | two requests that the controller accepts, with target gateways it does not check: one link is then hidden and a link that nobody made is shown |
| GatewayEdges.FirstLinkIsAccepted | docker/seed-data/external_plugins/surface_export/controller.ts:1094-1106 | the first link of an instance is accepted whatever the gateway at its other end is called |
| GatewayEdges.ProgramTargetsLoseNothing | docker/seed-data/external_plugins/surface_export/web/gateway/gateway-graph.ts:145-194 | nothing is hidden or made up when the targets too are gateways of the program |
| GatewayEdges.PlainLowEndsLoseNothing | docker/seed-data/external_plugins/surface_export/web/gateway/gateway-graph.ts:165-194 | it is enough that the lower end of every link has no separator in its name |
| GatewayEdges.OneEdgeForEachPair | docker/seed-data/external_plugins/surface_export/web/gateway/gateway-graph.ts:165-194 | no two edges join the same two endpoints |
| GatewayEdges.EdgeIdInjective | docker/seed-data/external_plugins/surface_export/web/gateway/gateway-graph.ts:135-143 | edges of different pairs have different ids when their lower ends have no separator in their names |
| GatewayEdges.CollectDirectedLinks | docker/seed-data/external_plugins/surface_export/web/gateway/gateway-graph.ts:145-163 | the loops over keys and targets, with the default arrival gateway |
| GatewayEdges.GatewayUsage | docker/seed-data/external_plugins/surface_export/web/gateway/gateway-graph.ts:199-216 | each gateway is charged with the links that leave it and those that arrive at it |
| GatewayEdges.UsageTotals | docker/seed-data/external_plugins/surface_export/web/gateway/gateway-graph.ts:199-216 | over all endpoints, outgoing and incoming both equal the number of directed links |
| QuotingBracket.BracketWrap | docker/seed-data/external_plugins/surface_export/helpers.ts:30-38 | the lowest level from 1 to 9 that neither the text nor its end with a bracket closes, or none |
| QuotingBracket.BracketRoundTrip | docker/seed-data/external_plugins/surface_export/helpers.ts:30-38 | the long-bracket reader of section 3.1 of the Lua 5.2 Reference Manual returns the text and leaves the rest, exactly if the text has no carriage return and does not start with a newline |
| QuotingBracket.WrappedReads | docker/seed-data/external_plugins/surface_export/helpers.ts:30-38 | what it returns in general: a leading end of line is gone and every other is a newline |
| QuotingBracket.ClosesOnlyAtEnd | docker/seed-data/external_plugins/surface_export/helpers.ts:33 | no closing bracket begins inside the text, not even one completed by what follows |
| QuotingChunks.Chunkify | docker/seed-data/external_plugins/surface_export/helpers.ts:133-139 | the loop cuts the data into the chunks |
| QuotingChunks.ChunksPartition | docker/seed-data/external_plugins/surface_export/helpers.ts:133-139 | the chunks put together are the data; none is empty or too long and only the last may be shorter |
| QuotingChunks.QuoteAll | docker/seed-data/external_plugins/surface_export/lib/lua-interface.ts:62-65 | every chunk gets brackets of its own lowest safe level, or none is sent to the end, exactly if some chunk has no safe level |
| QuotingChunks.PartInheritsLevel | docker/seed-data/external_plugins/surface_export/lib/lua-interface.ts:49-65 | a level that is safe for the whole text, which is wrapped first, is safe for a chunk exactly unless the chunk ends just before a last bracket |
| QuotingChunks.AllArriveIff | docker/seed-data/external_plugins/surface_export/lib/lua-interface.ts:57-66 | what the long-bracket reader finds in the quoted chunks makes up the whole exactly if every chunk is clean |
| QuotingChunks.ConfigArrives | docker/seed-data/external_plugins/surface_export/lib/lua-interface.ts:43-66 | JSON without line ends, made ASCII, cut, quoted chunk by chunk and read back by the long-bracket reader, is its ASCII form and has the same tokens |
| QuotingChunks.PushConfig | docker/seed-data/external_plugins/surface_export/lib/lua-interface.ts:43-66 | the push as it runs: both arguments are quoted whole first; it throws exactly if one of them has no safe level, or the whole does not fit in one script of 7000 code units and some chunk of 40000 has none; otherwise what is read of the one script or of the chunks makes up the ASCII form, with the same tokens |
| QuotingJson.AsciiOnly | docker/seed-data/external_plugins/surface_export/helpers.ts:17-20 | the result is ASCII and has no line end that was not there |
| QuotingJson.AsciiMeansTheSame | docker/seed-data/external_plugins/surface_export/helpers.ts:17-20 | a lexer after section 7 of RFC 8259 reads the same tokens, so every string keeps its value |
| QuotingJson.Escape | docker/seed-data/external_plugins/surface_export/helpers.ts:18-19 | the padded hexadecimal escape reads back as its code unit |

## Left out

- TransferOrchestrator.TransferOrchestrator.TransferPlatform: record objects are named by the number of the call that created them rather than being heap objects; texts, logs, metrics and phases are not modelled.
- TransferUnlock.UnlockAuthority: calls other than sendTo are taken not to throw; the request handler's own catch is modelled only for a failure before an import is sent.
- TransferIntents.IntentsAccountExactly: speaks of the last attempt of each id that may have landed; an earlier one gives its place to it, since there is one intent for each id.
- TransferCopies.KnownCopiesBlockReimport: proved for runs that are disciplined for the id, that is, with no other event of the id between admission and the new record, its record pruned only when settled and no overlapping verdict handlers for it; an overlap can let a later handler write an older verdict's status.
- TransferCopies.TimersBelongToTheirAttempt: proved for the same runs.
- TransferOutcomes.DeleteAnswerIsFinal: proved for the same runs; when two handlers of one attempt overlap, the last answer decides, as TransferOutcomes.StatusesAreTold says of all runs.
- TransferProgress.RefusedImportIsRetried: the run before the refusal is disciplined for the id, and the three stretches of the retry follow one another.
- TransferWatch.AwaitingIsWatched: says that someone is there to settle the record, not when; timers and replies come when the environment lets them.
- AuditKeeps.DropsOnlyWhenAllAreFull: without failures and restarts; a rotation that stops half way leaves a gap, and the next one then drops the oldest generation although not all are there.
- TransferService.TransferService.ResumeCall: which event comes next is the caller's choice, as it is the event loop's; that it is enabled is required.
- TransferOrchestrator.TransferOrchestrator.PruneOldTransfers: import and export operations in the same map appear only by id and start time, and never under the id of a transfer.
- Timeline.AttributeTime: takes the rows already pushed while the events are read; that code pushes a measured row only with a positive length equal to its duration and a child row into one window only, which is what WellBuilt asks. Windows must not end before they start, which holds for non-negative metrics. The final sort of the rows for display, labels, colours and keys are not modelled.
- AuditLedger.LedgerKeepsSuffix: an append is one operation; a torn line, and with it the loader's handling of unreadable lines, is not modelled.
- AuditLog.AuditLog.RecordAuditRow: the fields of a row beyond id, kind, time and size, and the truncation of its error text, are not modelled.
- Retention.SelectRetainedDetail: entries are values told apart by their contents, and the caller's pinning test is a field of the entry.
- DetailStore.StoreStaysBounded: giving a stored log an archival id when its transfer id is used again, and the file write, are not modelled.
- The map of write chains by path (`persist-queue.ts`): it appears as the one queue of the ledger, since only one path matters to it.
- GatewayController.GatewayController.HandleSetGatewayLinkRequest: pushing the configuration to the instance, the texts of refusals and which of several rule violations is reported are not modelled.
- GatewaySave.DirtyKeys: the keys come in some order, not in that of their texts; edit keys are pairs rather than texts joined by a colon.
- GatewaySave.SendAll: the connection and the file write succeed.
- GatewayEdges.BuildEdges: the order of the edges and the handle and node ids of the drawing library are not modelled.
- GatewayEdges.GatewayUsage: link targets are integers; targets that are not finite numbers are not modelled.
- QuotingChunks.PushConfig: the text around the arguments is its length; the begin and commit calls, the checksum and the echo that is compared are not modelled, and a configuration that is not JSON is taken to be refused before.
- TransferUnlockGuards.UnlocksOnlyOwnIff: speaks of unlocks as they are asked for; one asked for by an earlier attempt may reach the source later.
- QuotingBracket.BracketRoundTrip: the texts around the bracket, the transport to the game and its size limits are not modelled.
- The second path for long payloads, sendChunkedJson: it quotes with plain double brackets and a template, not with the bracket wrapper.
- A general claim that no platform exists twice: the code allows a live source beside a destination that turns out late to be live.
- The Lua modules, locks, time-to-live unlocks and the two-phase protocol of the design documents: they are not part of this model.
- The web interface, message classes, permissions, configuration clamping, the checksum of the chunk upload and the loading of other files: one-branch or plumbing members.
