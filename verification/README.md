# Agent Handoff: a verified model of its queue, review cycle and worker lane

Agent Handoff turns Linear state changes into Claude turns. An ingress process records webhook deliveries in a SQLite
store; a worker process polls that store, runs one Claude turn at a time, judges what the turn printed, and records the
result. An issue alternates between execution and review until a review passes or needs a human.

This project models that system in Dafny and proves what its comments claim for whole runs. `dafny verify dfyconfig.toml`
checks everything.

## How the model is organised

- `QueueTables` gives the three tables as values and each store operation as a function on them. `DurableStore.Store` is
  the object: fields updated in place, statements that may be refused, transactions that roll back. Every method is proved
  equal to its function, and against `StoreFields`, which says row by row and field by field what it does to the tables.
- `Protocol` is the whole system as labelled steps over the tables, the worker's volatile state and the Linear comments:
  ingress, poll snapshots, turn starts, arbitrary turn results, persists, the two halves of a recorded failure,
  reconciliation upserts, store errors, operator resets, and crashes that lose all volatile state. A label carries whatever
  the code does not determine. A ghost `History` records what happened.
- `ProtocolInvariant`, `TablesPreserved` and `ProtocolProof` hold the inductive invariant, which couples the tables to the
  history and to the worker's snapshots, and its proof over every step and run. `ProtocolTheorems`, `DeliveryTheorems` and
  `Agreement` draw the consequences. `ReviewTurns` gives review turns an identity, with looking and posting as separate
  steps; `SecondActions` says which decisions can still get a second action. `UnguardedStatements` says exactly when the
  store's unguarded updates are harmless on their own.
- `TurnContracts` says which raw results the worker accepts, `Retries` how long a failed attempt waits, `Listing` which rows
  a reconciliation pass queues and `WebhookRules` which webhooks count. Each is stated on what a turn prints, a webhook
  carries or a row holds, by the member names and texts of the source.
- `ReconciliationRuns` follows a whole reconciliation, both legs, with arbitrary steps of others in between.
- `WorkerTasks` and `Worker` are the worker's methods over the store object, shown to be runs of the protocol when nothing
  interleaves. `Drain` proves that repeated poll passes empty the queue.
- `ExclusiveLane` is the promise chain on its own. `ConcurrentWorker` is the worker as the event loop runs it: polls and
  reconciliations enqueue tasks on that chain, and every started task body has a program position of its own, with nothing
  but the chain to keep two from running. `LaneRefinement` shows that its runs are runs of the protocol and of the chain;
  `LaneTheorems` draws the consequences, and `ShutdownDelivery` says exactly what `shutdown` does not prevent.
- `CompletionSchema` has the three JSON Schemas, a small schema interpreter and the hand-written validators;
  `ClaudeInvoker` the evaluators' gates; `AcceptedTurns` turns they accept; `ChildTurn` the settling of one child process;
  `Tokens` the review action tokens.
- `DedupStore`, `Webhook` and `PipelineSimulation` cover the v1A dedup set and both webhook pipelines; `BusyRetry` the
  retry loop around schema creation.

## Assumptions

- One worker process at a time, as the launcher lock ensures. `maxRevisionCycles` is a natural number, backoffs are
  natural numbers, `maxAttempts` is any integer. The configuration is the same for a whole run, restarts included: after a
  restart with a smaller `maxRevisionCycles`, `maxAttempts` or backoff, what was recorded under the old values may exceed
  the bounds stated for the new ones.
- `randomUUID` values are fresh. Times and counts are mathematical integers.
- A `BEGIN IMMEDIATE` transaction is one step; a crash before its commit leaves nothing.
- `resetToPending` is called on a `needs_review` row. No source file calls it.
- For the agreement with Linear only: only review turns post comments that open with the review marker, and each follows
  the recovery rule of its prompt, looking once and posting at most once. `Agreement` takes the look and the post as one
  step; `ReviewTurns` separates them.
- A poll pass is the only caller that enqueues rows.

## Where the code and its comments differ

The model follows the code.

- A printed JSON `null` makes all three evaluators throw while reading `session_id`, instead of failing closed. The task
  is rejected, the row stays pending and the attempt is not counted; the poll pass ends there (`Throws`, `NullEnvelope`).
- `resetToPending` is described as recovery for a `needs_review` row, but its statement has no status guard; neither has the
  failure update, and `markReviewDelivered` changes the cycle even when no row changed. `UnguardedStatements` gives the
  failing input and the exact condition for each. No run of the protocol leaves that condition.
- The recovery check of the review prompt is described as keeping a decision from being acted on twice. Looking and posting
  are two steps, and a turn survives a crash of the worker: two turns of one decision that both look before either posts
  both post (`SecondActions.DoublePostDisagrees` has the run). A started decision is safe from a second action exactly
  when it has one and none of its turns is between its look and its post (`SecondActions.SecondActionExactlyWhen`). Runs in
  which turns of one decision never overlap there, or no turn outlives its task, agree with Linear
  (`ReviewTurns.ScheduledRunsAgree`).
- A row whose turn keeps printing `null` is not only retried without limit: once due, it ends every poll pass at its
  position, so that no row with a larger id is processed any more (`Drain.UnjudgedRowBlocks`).
- A dedup store configured with `maxEntries <= 0` still keeps the entry it has just set.
- `shutdown` is described as leaving pending whatever was not durably accepted before it was requested. A turn in flight
  may still be accepted and its row delivered while `shutdown` waits. A row whose task was enqueued before is safe from that
  exactly when, as the chain is read, its task is decided: settled, past a failed verdict, or without an identifier to be
  accepted for (`ShutdownDelivery.DeliveredAfterShutdown`). Nothing at all is persisted any more exactly when every such
  task has settled or persisted (`ExclusiveLane.NothingPersistsAfterShutdown`). What always holds is that `shutdown` does
  not return before every such task has finished its last write (`LaneTheorems.ShutdownAwaitsWrites`).
- A relevant delivery for an issue with an active row is recorded but queues nothing; only reconciliation can recover that
  work. "Every transition creates a job" therefore does not hold, and is not claimed.
- v1A marks a delivery id as seen before it looks at the payload; v1B answers with an error when the issue identifier is
  an object, an array or a boolean, which SQLite does not store. Sent twice, such a webhook is a duplicate to v1A and a
  failure to v1B, both times (`UnrecordableWebhooksSplit`). A v1A duplicate is a v1B duplicate exactly when v1B has a
  receipt for its id, and an id in v1A's window lacks one only if v1B once failed to record it.

## Model

| member | source | states |
|---|---|---|
| `ProtocolTheorems.EveryReachableState` | src/worker.js:71-423 | In every state any run from the empty store reaches, active rows are unique, snapshots exact, review decisions exactly-once, revisions bounded, recorded turns of every row and of every review bounded, and scheduled waits bounded |
| `ProtocolProof.StepPreserves` | src/worker.js:146-373 | Every step of ingress, worker, reconciliation, operator, Linear or a crash keeps the invariant that couples tables, history and volatile snapshots |
| `ProtocolProof.RunPreserves` | src/worker.js:71-423 | Every legal run keeps that invariant |
| `ProtocolProof.InitialInv` | src/durableStore.js:117-131 | The empty store with an idle worker satisfies it |
| `ProtocolTheorems.ActiveRows` | src/durableStore.js:243-285 | At most one active row per issue, none once its cycle is terminal, each row's cycle id is its issue's, and rows map one-to-one into accepted deliveries of their issue |
| `ProtocolTheorems.SnapshotsAreStable` | src/worker.js:200-209 | From the poll that listed a row to the write that ends it, the durable row is that same pending row, and a running review's trusted count and cycle id are the durable ones; the missing-cycle fallback is dead |
| `ProtocolProof.RecordHarmless` | src/durableStore.js:243-285 | Whatever ingress or reconciliation records, pending rows and existing cycles are untouched and taken-care-of issues stay so |
| `ProtocolTheorems.ExactlyOnceDecisions` | src/worker.js:200-250 | All turns for one review row compute one decision, no two rows share a token, each row is finalized at most once, with a started decision |
| `ProtocolTheorems.SameTokenSameStart` | src/worker.js:58-69 | Two started decisions with the same token are the same decision of the same row |
| `ProtocolTheorems.CyclesChangeByFinalization` | src/durableStore.js:368-384 | A step alters an existing cycle exactly when it commits a review decision, at that decision's own revision count, with that decision's outcome |
| `ProtocolTheorems.RevisionAccounting` | src/claudeInvoker.js:402-416 | The trusted count is the number of revision rounds finalized and at most the maximum; at most one more review row; recorded review turns at most that many attempt allowances, plus one per manual reset |
| `ProtocolTheorems.RowTurns` | src/durableStore.js:412-421 | Every row, execution or review, gets at most one attempt allowance of recorded turns, plus one per manual reset |
| `ProtocolTheorems.TerminalAbsorbs` | src/durableStore.js:181-183 | Once an issue is done or needs a human, it keeps that status for the rest of every run and never again has an active row |
| `ProtocolTheorems.WaitBound` | src/worker.js:173-184 | A row's total scheduled backoff is at most the uncapped geometric sum and at most a cap per retry |
| `ProtocolTheorems.BackoffBounded` | src/worker.js:170-173 | The closed upper bounds of the summed backoff; `Retries` has its exact value |
| `Retries.BackoffDoubles` | src/worker.js:173 | The wait after the first failure is the smaller of base and cap, and after each further one the smaller of twice the wait before and the cap |
| `Retries.DelaysAddUp` | src/worker.js:173 | While the base doubled n times is within the cap, the first n + 1 waits add up to twice that less the base |
| `Retries.CappedStaysCapped` | src/worker.js:173 | Once a wait is the cap, every later wait is the cap |
| `Retries.SummedBackoff` | src/worker.js:173-184 | The summed backoff of the ledger is the sum of these waits |
| `Retries.DefaultDelays` | src/config.js:67-68 | With the default base and cap the waits are 1, 2, 4, 8, 16, 32 and then 60 minutes |
| `ProtocolProof.JudgeWithinBound` | src/claudeInvoker.js:402-416 | An accepted revision request is below the revision maximum of the running decision, and an accepted review always carries a cycle outcome |
| `Agreement.AgreementWithLinear` | src/prompts.js:50-53 | If every turn obeys the recovery rule, then across any crashes, retries and orphaned turns each token has at most one action and every committed outcome is the one its action records |
| `Agreement.StepAgrees` | src/claudeInvoker.js:394-425 | Each obedient step keeps one action per token and every finalized or about-to-be-finalized outcome recorded by a comment |
| `Agreement.TablesSayWhatWasPosted` | src/prompts.js:50-58 | In every state an obedient run reaches, for each revision round a cycle counts there is a comment on its issue that opens with the marker of that round and says REVISION REQUIRED, for each done cycle one that says PASS, and for each cycle handed over one that says NEEDS HUMAN |
| `ReviewTurns.MostActions` | src/prompts.js:50-53 | In every reachable state, without new turns of a decision, it ends with at most its actions plus its turns between look and post, plus, while it has no action, its turns that have yet to look; and some continuation gets it that many |
| `ReviewTurns.RunReach` | src/prompts.js:50-53 | No continuation without new turns exceeds that number |
| `ReviewTurns.Attained` | src/prompts.js:50-53 | Some continuation attains it |
| `ReviewTurns.ScheduledRunsAgree` | src/prompts.js:50-53 | With looking and posting as separate steps, every run agrees with Linear in which no two turns of a decision are between look and post at once, and every run in which no turn looks or posts after its task has ended |
| `ReviewTurns.AtMostOneAction` | src/worker.js:58-66 | At most one action counted means that no two comments carry the token |
| `SecondActions.SecondActionExactlyWhen` | src/worker.js:58-66 | Over all continuations, crashes and new turns included, a started decision can still get a second action unless it has exactly one and none of its turns is between look and post |
| `SecondActions.RunSettled` | src/prompts.js:51 | Once a decision has an action, only its turns between look and post can add to it |
| `SecondActions.TwoMoreTurns` | src/worker.js:200-222 | A started decision without an action can always be given two more turns that both post |
| `SecondActions.UnactedIsActive` | src/worker.js:232-247 | A decision without an action has not been finalized: its row is still active |
| `SecondActions.DoublePostDisagrees` | src/prompts.js:50-53 | For every review row: queued, started, crashed, started again, two looks, two posts is a run that follows the rule and does not agree with Linear |
| `DeliveryTheorems.RepeatsAreStutters` | src/durableStore.js:243-250 | Deleting every call with an already recorded delivery id from any run leaves a legal run with the same final state |
| `DeliveryTheorems.ReceiptsWriteOnce` | src/durableStore.js:243-285 | A recorded delivery keeps its receipt for the rest of every run |
| `DeliveryTheorems.RepeatsAnswerAsFirst` | src/durableStore.js:246-250 | A repeat, even with other content and after any run, is answered with the first call's outcome: accepted if that call asked for a job, else ignored |
| `DeliveryTheorems.QueuedRowsKeepTheirRequest` | src/durableStore.js:266-276 | In every later state of every run, the row a delivery has queued still has the delivery id, issue, payload and job type of that delivery, and is only ever run in the lane of that job type |
| `DeliveryTheorems.RunKeepsIdentity` | src/durableStore.js:150-166 | No run changes the id, delivery, issue, payload, creation time, job type or cycle id of a row |
| `DeliveryTheorems.ReconciliationCompletes` | src/worker.js:340-358 | After a reconciliation loop over any list, with ingress interleaved, every listed issue has an active row or a terminal cycle |
| `DeliveryTheorems.SplitFailureIsAtomic` | src/durableStore.js:412-421 | The separate read and write of a recorded failure amount to one atomic update of the durable row, whatever interleaved |
| `UnguardedStatements.ResetIsSafe` | src/durableStore.js:164-166 | Resetting a row keeps the queue sound exactly when there is no such row, it is active already, or its issue has neither an active row nor a terminal cycle |
| `UnguardedStatements.FailureWriteIsSafe` | src/durableStore.js:161-163 | The same exact condition for the failure update |
| `UnguardedStatements.FinishIsSafe` | src/durableStore.js:368-384 | Finishing a review keeps the queue sound exactly when it ends no cycle or no other row of that issue is active |
| `UnguardedStatements.StaleRowsBreakTheQueue` | src/durableStore.js:161-166 | On the delivered row of an earlier episode, each of the three unguarded updates breaks a sound queue |
| `QueueTables.EligibleRows` | src/durableStore.js:145-147 | The eligible list holds exactly the pending rows past their backoff |
| `QueueTables.EligibleOrdered` | src/durableStore.js:393-395 | It lists each once, by increasing id |
| `StoreFields.RecordFields` | src/durableStore.js:243-285 | What each answer of `recordDelivery` does: the new row field by field with the requested job type, the old rows unchanged, the receipt, and the cycle kept or opened at count 0 |
| `StoreFields.AnswerFields` | src/durableStore.js:246-265 | When each answer is given: `cycle_exhausted` exactly for a terminal cycle, `already_active` exactly for an active row without one |
| `StoreFields.ReconcileFields` | src/durableStore.js:309-328 | The synthetic delivery of a listed issue, field by field |
| `StoreFields.FinishFields` | src/durableStore.js:368-384 | "pass" makes the cycle done, "needs_human" hands it over, "revision_required" adds one to its count; nothing else changes but the row |
| `StoreFields.FailureFields` | src/durableStore.js:412-421 | The failed row counts one more attempt and waits, or needs review at the limit; its identity and all other rows stay |
| `StoreFields.ListFields` | src/durableStore.js:145-147 | A row is listed exactly when it is pending and its next attempt is not later than now; by increasing id |
| `StoreFields.CountFields` | src/durableStore.js:431-433 | The counter is the number of pending positions |
| `DurableStore.Store.RecordDelivery` | src/durableStore.js:243-285 | Records receipt, cycle and row as one transaction, each field as `StoreFields.RecordsAs` says, or nothing on any refused statement; succeeds when nothing is refused and the keys are consistent |
| `DurableStore.Store.RecordInTransaction` | src/durableStore.js:246-276 | The branches inside the transaction, with the new row, receipt and cycle field by field: duplicate, ignored, exhausted, already active, queued |
| `DurableStore.Store.RunInsertEvent` | src/durableStore.js:58-60 | Inserts exactly when no row has that delivery id |
| `DurableStore.Store.SelectActive` | src/durableStore.js:167-169 | Finds an active row of the issue exactly when there is one |
| `DurableStore.Store.UpsertReconciledIssue` | src/durableStore.js:309-338 | Records the listed issue under a synthetic delivery id, all or nothing, as a row of the leg and scope it was listed for |
| `DurableStore.Store.MarkReviewDelivered` | src/durableStore.js:368-384 | Row and cycle change together or not at all; the cycle by the text of the outcome |
| `DurableStore.Store.MarkDelivered` | src/durableStore.js:401-404 | Delivers exactly an active row, and says whether it did |
| `DurableStore.Store.RecordAttemptFailure` | src/durableStore.js:412-421 | Counts one attempt, schedules the retry or asks for review at the limit, and returns what it wrote; nothing for an unknown row |
| `DurableStore.Store.ResetToPending` | src/durableStore.js:426-429 | Makes any existing row pending and due at once, without a guard |
| `DurableStore.Store.ListEligibleEvents` | src/durableStore.js:393-395 | Returns exactly the pending rows whose next attempt is due, by increasing id |
| `DurableStore.Store.CountPending` | src/durableStore.js:431-433 | Counts the positions whose row is pending |
| `Worker.Worker.ProcessExecuteEvent` | src/worker.js:146-192 | Delivers the row exactly when the turn printed, in the execution session, an end of this issue in the configured scope; throws exactly on a clean null; else the row counts one more attempt and waits the doubled delay |
| `Worker.Worker.ProcessReviewEvent` | src/worker.js:200-271 | Delivers the row exactly when the turn printed, in the reviewer session, a decision of this issue with the token of the durable count; then the cycle becomes what the printed text says, done, handed over or one revision more; else the row counts one more attempt and waits the doubled delay |
| `Worker.Worker.ProcessEvent` | src/worker.js:275-277 | Dispatches by job type; throws exactly when the verdict does |
| `Worker.Worker.PollOnce` | src/worker.js:293-305 | A pass processes the rows listed at its start in order, and ends early exactly at a throwing task |
| `Worker.Worker.ReconcileForState` | src/worker.js:316-359 | After an accepted listing every printed entry's issue has an active row or a terminal cycle, and every new row has the issue, id and link of some entry and the worker's scope and leg; `upserted` is the number of distinct listed issues nothing took care of, and the pending count rises by it |
| `Listing.ListingReads` | src/worker.js:340-352 | The pass reads the printed entries in order, each as its own issue identifier, issue id and link, in the worker's scope and leg |
| `Listing.PassFieldsStep` | src/worker.js:340-352 | Each upsert leaves old rows and cycles alone, queues only what its entry says, and leaves no earlier entry behind |
| `ReconciliationRuns.BothLegsRun` | src/worker.js:316-373 | From its start to its end, whatever others do in between, a reconciliation runs a turn judged as a listing of the pickup state and then, unless that printed null, one judged as a listing of In Review; at its end the issue of every entry of either accepted listing has an active row or a terminal cycle |
| `ReconciliationRuns.SettledUntilEnd` | src/worker.js:340-373 | What is taken care of during a reconciliation stays so until its end |
| `Worker.UpsertEffect` | src/durableStore.js:309-338 | A fresh upsert queues a row exactly when the issue is not taken care of, and takes care of it only |
| `WorkerTasks.ProtocolRunsTask` | src/worker.js:146-277 | The protocol's separate steps of one uninterrupted task are legal and do what the task function says |
| `WorkerTasks.ProtocolRunsPass` | src/worker.js:293-305 | An uninterrupted poll pass is a run of the protocol with the same effect on the tables |
| `Drain.Drains` | src/worker.js:252-263 | As many passes past the backoff times as a row has attempts leave every row delivered or needing review, with none lost or changed in identity |
| `Drain.SpacedPassesDrain` | src/worker.js:170-184 | The same, when each pass begins a full backoff after the clock readings of the one before and the first finds every pending row due |
| `Drain.SpacedPassesAreDue` | src/durableStore.js:412-421 | Then every pass finds every pending row due |
| `Drain.UnjudgedRowBlocks` | src/worker.js:297-300 | A due row whose turns all print null keeps its attempt count and stays eligible through any number of passes, and no row after it is processed |
| `Drain.WorkIsBounded` | src/worker.js:293-305 | However the passes are timed, they process at most the sum of turns left, and lose no row |
| `Drain.PassEffect` | src/durableStore.js:412-421 | A pass processes exactly its rows, and the sum of turns left falls by at least one for each |
| `Drain.TaskEffect` | src/worker.js:146-271 | A judged turn delivers its row or spends one attempt of it, the last of which ends it, and touches no other row |
| `Drain.ReachableQueuesDrain` | src/durableStore.js:412-421 | The tables of every reachable state can be drained |
| `ExclusiveLane.MutualExclusionAndOrder` | src/worker.js:101-111 | For any interleaving of enqueues, reactions and throwing bodies at most one body runs, and bodies start in enqueue order |
| `ExclusiveLane.NextLinear` | src/worker.js:94-111 | Every event keeps the promises in one line with nothing begun past an unsettled one |
| `ExclusiveLane.RejectionNeverBlocks` | src/worker.js:101-111 | While anything is unsettled, the first unsettled promise is a running body or its reaction is ready, also after a rejection |
| `ExclusiveLane.EveryTaskCanSettle` | src/worker.js:101-111 | Some continuation settles every enqueued task, even if every body throws |
| `ExclusiveLane.EveryMaximalRunSettles` | src/worker.js:101-111 | However events without new tasks are ordered, they are bounded in number, and when none is possible any more every task has settled |
| `ExclusiveLane.ProgressFalls` | src/worker.js:101-111 | Every reaction and every settling leaves strictly less to happen |
| `ExclusiveLane.ShutdownWaitsForPersistence` | src/worker.js:411-420 | When the chain shutdown read has settled, every task enqueued before has settled, fulfilled only if it persisted |
| `ExclusiveLane.NothingPersistsAfterShutdown` | src/worker.js:401-410 | No continuation persists a task enqueued before shutdown read the chain and not persisted yet, exactly when every such task had settled or persisted by then |
| `ExclusiveLane.RunningTasksMayPersist` | src/worker.js:401-410 | A body running at that moment may still persist and return |
| `ExclusiveLane.Lane.RunExclusiveTurn` | src/worker.js:101-111 | Appending a task extends the line by its run and its link, and returns the run |
| `ExclusiveLane.Lane.Replay` | src/worker.js:101-111 | The in-place lane follows its specification through any feasible interleaving |
| `ExclusiveLane.Lane.ReplayShutdown` | src/worker.js:411-420 | Shutdown on the object: if the promise it read has settled, every task enqueued before has, fulfilled only if persisted |
| `LaneRefinement.RunFollows` | src/worker.js:89-373 | Every run of the concurrent worker, whose bodies only the chain keeps apart, is a run of the one-lane protocol |
| `LaneRefinement.MovePreserves` | src/worker.js:89-373 | Every move keeps the worker invariant and is a protocol step or invisible to the protocol |
| `LaneRefinement.LineFollows` | src/worker.js:101-111 | Every move is a feasible event of the chain: a task fulfils only after its body has returned by its last write, and is rejected only after its body has thrown |
| `LaneRefinement.ReadyFindsIdle` | src/worker.js:89-94 | A task whose reaction is ready finds no other body running |
| `LaneRefinement.MoveCounts` | src/worker.js:40-53 | Since the worker started, the recorded turns of a row are exactly the tasks of that row whose bodies have returned, one each |
| `LaneTheorems.OneTurnAtATime` | src/worker.js:89-111 | In every state the concurrent worker reaches, a body exists exactly for a running promise, at most one does, and the protocol lane is busy exactly while it works |
| `LaneTheorems.EveryWorkerState` | src/worker.js:71-423 | The whole-run guarantees of the protocol hold of the concurrent worker |
| `LaneTheorems.ShutdownAwaitsWrites` | src/worker.js:411-420 | When the chain shutdown read has settled, every task enqueued before is over, and each that did not throw has returned from its last write and recorded its one turn |
| `ShutdownDelivery.DeliveredAfterShutdown` | src/worker.js:401-410 | The row of a task enqueued before shutdown read the chain may still be delivered exactly when, at that moment, the task waits, its turn is under way or accepted, and the row has an identifier or is past its turn |
| `ShutdownDelivery.DeliverWaiting` | src/worker.js:401-420 | From every reachable state some continuation without a restart delivers the row of an undecided task |
| `ShutdownDelivery.DecidedStays` | src/worker.js:411-420 | No continuation delivers the row of a decided task |
| `ShutdownDelivery.DeliveryDelivers` | src/worker.js:166-168 | The move that counts as delivery takes a pending row and leaves it delivered |
| `ChildTurn.SpawnClaudeTurn` | src/claudeInvoker.js:67-145 | Against any order of timer, abort, output, error and close events the turn resolves with exactly the settlement of the events before its first exit, and requests as many kills as timer and abort fired before it |
| `ChildTurn.SettledTurns` | src/claudeInvoker.js:101-145 | At most one settlement, none exactly when nothing exits, and none that timed out is accepted by any evaluator |
| `ChildTurn.CleanTurns` | src/claudeInvoker.js:101-145 | What the evaluators take for a clean turn is exactly a child whose first exit is a close with code 0 and no signal, before its timer, with the output it had written by then |
| `ClaudeInvoker.CompletionGatesSoundAndComplete` | src/claudeInvoker.js:164-253 | For every raw result but a clean exit that printed null: accepted exactly when every declared requirement holds, else the first failing one is reported |
| `ClaudeInvoker.ReconciliationGatesSoundAndComplete` | src/claudeInvoker.js:255-301 | The same for reconciliation turns |
| `ClaudeInvoker.ReviewGatesSoundAndComplete` | src/claudeInvoker.js:311-426 | The same for review turns, including token and revision bound |
| `ClaudeInvoker.AcceptedReview` | src/claudeInvoker.js:394-425 | An accepted review carries a cycle outcome and this decision's token, and asks for a revision only below the maximum |
| `ClaudeInvoker.ReviewOutcomes` | src/claudeInvoker.js:367-375 | The unexpected-outcome gate is unreachable after validation |
| `ClaudeInvoker.TimedOutIsNeverAccepted` | src/claudeInvoker.js:177 | A timed-out turn is rejected by all three evaluators, whatever it printed |
| `TurnContracts.ReviewAcceptedIff` | src/claudeInvoker.js:311-426 | Accepted exactly when the process ended cleanly in the given session and printed a protocol version 1 review of this issue in its scope, posted, with this token, moved to Done for "pass" and "needs_human" and to Todo for "revision_required" below the maximum |
| `TurnContracts.ExecutionAcceptedIff` | src/claudeInvoker.js:164-253 | The same for executions: "not_eligible", or In Review, posted and in scope with a commit SHA for "completed" and null for "completed_no_commit" |
| `TurnContracts.ReconciliationAcceptedIff` | src/claudeInvoker.js:255-301 | The same for reconciliations: the asked team, project and state, and entries that all name their issue |
| `TurnContracts.ThrowsExactlyOnNull` | src/claudeInvoker.js:188 | All three evaluators throw exactly on a clean exit that printed null |
| `TurnContracts.AcceptedOutcome` | src/claudeInvoker.js:425 | An accepted review returns the printed output itself, so its outcome is the text the turn printed |
| `AcceptedTurns.SomeExecutionIsAccepted` | src/claudeInvoker.js:164-253 | Some raw result finishes an execution row exactly when its issue has an identifier |
| `AcceptedTurns.SomeReviewIsAccepted` | src/claudeInvoker.js:311-426 | Some raw result finishes a review row, whatever the trusted count, exactly when its issue has an identifier |
| `CompletionSchema.ValidateCompletionOutput` | src/completionSchema.js:156-207 | Valid exactly when the value satisfies its JSON Schema, names protocol version 1 and has non-empty strings where demanded; errors are exactly the problems |
| `CompletionSchema.ValidateReconciliationOutput` | src/completionSchema.js:209-255 | The same, including entries of any kind, arrays among them |
| `CompletionSchema.ValidateReviewOutput` | src/completionSchema.js:257-313 | The same for review outputs |
| `CompletionSchema.ChecksMeetSchema` | src/completionSchema.js:43-148 | When a schema and the lists of a validator agree, its field and key checks hold exactly when the interpreted schema and the extra demands do, for any value |
| `CompletionSchema.CompletionListsAgree` | src/completionSchema.js:43-70 | The properties, the required names, the checks and the allowed keys of the completion contract, four separate lists, agree |
| `CompletionSchema.ReviewListsAgree` | src/completionSchema.js:121-148 | The same for the review contract |
| `CompletionSchema.ReconciliationListsAgree` | src/completionSchema.js:76-99 | The same for the reconciliation contract |
| `CompletionSchema.IssueListsAgree` | src/completionSchema.js:85-94 | The same for one listed issue |
| `CompletionSchema.CompletionChecks` | src/completionSchema.js:156-207 | The completion checks pass exactly on values of its schema that name protocol version 1 and have the demanded non-empty strings |
| `CompletionSchema.ReviewChecks` | src/completionSchema.js:257-313 | The same for the review checks |
| `CompletionSchema.ReconciliationChecks` | src/completionSchema.js:209-252 | The same for the reconciliation checks and each listed issue |
| `CompletionSchema.RecordSchemas` | src/completionSchema.js:43-70 | A closed record schema with every property required is the conjunction of its properties plus closure |
| `CompletionSchema.EntryChecks` | src/completionSchema.js:83-95 | The checks of one listed issue accept exactly what the item schema accepts, plus non-empty identifiers |
| `Tokens.TokenInjective` | src/worker.js:67-69 | A token determines cycle id and revision count, for arbitrary cycle ids |
| `Tokens.MarkersPrefixFree` | src/prompts.js:51-53 | For cycle ids without a closing bracket no marker starts with another |
| `Tokens.RevisionOneIsNotTen` | src/prompts.js:51 | A comment of revision 10 does not carry the marker of revision 1 |
| `Tokens.BracketedIdsClash` | src/prompts.js:51 | With a closing bracket in a cycle id, one marker can start with another |
| `Tokens.RecordsOneOutcome` | src/prompts.js:53-58 | A review comment records one outcome only |
| `Tokens.RecordsLiterally` | src/prompts.js:50-58 | A comment records an outcome exactly when it opens with the marker of its decision and the label PASS, REVISION REQUIRED or NEEDS HUMAN of that outcome |
| `Text.DecimalInjective` | src/worker.js:68 | Different revision counts have different decimal texts |
| `Text.DecimalRoundTrip` | src/worker.js:68 | The printed count read as a decimal numeral is the count |
| `Text.IntTextRoundTrip` | src/durableStore.js:311 | The time in a synthetic delivery id reads back as the time |
| `DedupStore.Store.CheckAndRecord` | src/dedupStore.js:19-31 | With a clock that does not run backwards, a call is a duplicate exactly when its id is among the last `maxEntries` fresh recordings and less than the time-to-live old; size never exceeds the bound |
| `DedupStore.Store.EvictExpired` | src/dedupStore.js:11-15 | Deleting while iterating leaves exactly the unexpired entries, in order |
| `DedupStore.ExpiredAreOldest` | src/dedupStore.js:11-15 | The expired entries are the oldest ones, and what is left is the newest part of the log |
| `DedupStore.CallKeeps` | src/dedupStore.js:19-31 | On values: the keys left by eviction are the sliding window, and a call leaves the newest part of the new log |
| `DedupStore.Store.SetFresh` | src/dedupStore.js:24-29 | Makes room by dropping an entry that expires no later than any kept |
| `DedupStore.HasMeansDuplicate` | src/dedupStore.js:22 | Once expired entries are gone, the map's keys are exactly the ids of the sliding window |
| `DedupStore.Recorded` | src/dedupStore.js:24-29 | Recording a fresh id keeps the map the newest part of the log |
| `DedupStore.EvictsEarliest` | src/dedupStore.js:24-27 | Capacity eviction drops the earliest-expiring entry |
| `WebhookRules.EvaluateWebhook` | src/webhook.js:51-117 | On the in-place dedup store, v1A refuses the unverified and the seen, then accepts exactly a webhook that asks for an execution, and otherwise names the first rule it breaks |
| `WebhookRules.Classifies` | src/webhookClassifier.js:55-140 | A webhook is relevant exactly when it is authentic, about an issue with identifier and id, of the team and the project, in the pickup state or In Review, and created there or updated with "stateId" among its old values; an execution exactly in the pickup state; otherwise the reason is the first of these that fails |
| `WebhookRules.Answers` | src/webhook.js:51-117 | The same for v1A, with its window after authentication and the pickup state only |
| `WebhookRules.RequestFields` | src/ingressReceiver.js:108-120 | An authentic webhook leads to a request with its delivery id and the job it asks for, or none and the rule it breaks; it cannot be recorded exactly when its identifier is a boolean, an array or an object |
| `WebhookRules.Receives` | src/ingressReceiver.js:96-140 | For every webhook what v1B answers and what becomes of every field of its tables |
| `PipelineSimulation.PipelinesSimulate` | src/webhookClassifier.js:55-140 | After any joint history, v1A restarts and refused statements included: v1A's duplicates are the ids in its window, v1B's those with a receipt, and an id in the window lacks a receipt only if v1B failed to record it. v1A accepts exactly the execute events not in its window, with v1B's content up to job type. What it accepts and v1B calls a duplicate has left the window, was forgotten by a restart, or was made up by reconciliation |
| `PipelineSimulation.SameRouting` | src/webhook.js:76-116 | v1A accepts exactly what v1B routes as an execute event, with the same content |
| `PipelineSimulation.SameFront` | src/webhook.js:51-74 | Both pipelines refuse the same unverified webhooks for the same reason |
| `PipelineSimulation.UnrecordableWebhooksSplit` | src/durableStore.js:251-254 | Sent twice, any verified webhook whose identifier cannot be stored is a duplicate to v1A and a failure to v1B |
| `BusyRetry.ExecWithBusyRetry` | src/durableStore.js:40-54 | For any delays, terminates when some call is one to stop at; each sleep follows a busy call before the deadline and is the doubled, capped delay or the time left; it gives up on a busy database only past the deadline |
| `BusyRetry.LoopsForever` | src/durableStore.js:43-52 | Without such a call the loop goes on after any number of sleeps |
| `BusyRetry.PositiveDelaysStop` | src/durableStore.js:40-54 | With positive delays there always is such a call |
| `BusyRetry.RetryIsBounded` | src/durableStore.js:40-54 | At most the timeout is slept in all, and with the defaults there are at most 31 calls |
| `BusyRetry.SleepIsBounded` | src/durableStore.js:43-52 | Every sleep but the last is a full delay, these stay below the timeout, and all sleeps fit into it |
| `BusyRetry.ThirtyOneCallsHappen` | src/durableStore.js:40-54 | The bound of 31 calls is reached when the database stays locked |

## Left out

- HTTP servers, body reading and responses: ingress is the step "classify, then record".
- HMAC verification and JSON parsing: a webhook carries the answer of the first and the result of the second; so does a
  turn's captured output.
- The text SQLite stores for a numeric issue identifier: an arbitrary function of the number.
- SQLite itself: locks, WAL, schema migration and prepared statements. Refused statements are modelled in `DurableStore`
  and as `LaneFails` in `Protocol`; the methods of `Worker` take the case in which no statement is refused.
- Row ids start at 0 in the model, so that a row's id is its position; SQLite starts at 1.
- Real child processes, signals and the SIGKILL escalation: a turn is an arbitrary raw result, plus comments it may post
  at any time, even after the worker that started it has crashed. Captured stderr is not kept.
- The wording of validation errors, the order of unexpected-property errors, and the `details` of a rejected verdict. The
  validators' straight-line field checks are one loop over the field list, in the same order.
- JavaScript number limits: times, counts and powers of two are mathematical integers.
- Prompt texts beyond the token marker and the outcome labels; the MCP channel, configuration loading, session-id files,
  the Node version guard, launch scripts and systemd units.
- The order of waiting tasks in `Protocol`, whose lane takes any next task; `ConcurrentWorker` has the exact order.
- Timers of `start` and `stop`: polls and reconciliations may begin at any step.
- Agreement.AgreementWithLinear: takes looking for a marker and posting as one step; with separate steps,
  `ReviewTurns.ScheduledRunsAgree` asks for a schedule, and `SecondActions.SecondActionExactlyWhen` has the exact condition.
- Agreement.StepAgrees: the same.
- ExclusiveLane.EveryTaskCanSettle: states that a settling continuation exists; `ExclusiveLane.EveryMaximalRunSettles`
  covers every order of events. That the runtime runs ready reactions at all, and that bodies return, is assumed.
- BusyRetry.ExecWithBusyRetry: assumes a clock that advances by at least each requested sleep.
- Listing helpers without a decision of their own (`listPendingEvents`, `listNeedsReview`, `countNeedsReview`, `close`).
