# Talk2Data verification model

A Dafny model of the parts of Talk2Data where correctness rests on an argument that spans functions,
and proofs of what those parts promise.

- **The durable run protocol.** `Runs` and `RunTables` hold the records and tables both journals share.
  `PostgresRuns` gives each transaction of the shared store as a function of the tables, `PostgresRunStores`
  is the store as an object whose methods compute those functions, and `RunProtocol` quantifies over every
  interleaving of clients and workers; `DistributedWorkers` is one worker under interference. `SqliteRuns`,
  `RunStores`, `Retention`, `RunCoordinators` and `CsvWorkspaces` are the single-worker form: journal, recovery,
  maintenance check, retention, task lifecycle and the browser session around it. `RunEffects`, `PostgresEffects`,
  `SqliteEffects` and `CoordinatorEffects` say what each transaction does to the columns of its rows, apart from the
  functions the stores compute.
- **Definition governance.** `Governance` is the review machine and the snapshot chain, `DefinitionStores` the
  compare-and-swap table and every interleaving of clients over it, `GovernanceEffects` what each request does to a
  state, column by column.
- **Query meaning.** `Calendar` resolves windows and comparisons. `PeriodQuery` says what one labelled scan over
  daily facts returns and proves it equal to aggregating each whole period; `BigQuerySql` and `ParquetSnapshot`
  are the two compilations, `BigQuery` the result checks, `CsvDemo` the two-query form, `Merging` the join of
  both periods, `QueryMeaning` the facts behind a released group, `Certification` the independent checker and its agreement with the connectors.
- **Event replay.** `EventReplay` is the server's stream and the client's chunked parser (frames as in section 9.2
  of the WHATWG HTML Standard) over the line endings of `LineEndings`, `RunWatch` the reconnecting client, and
  `WatchedStores` the watch from the transactions the server reads in to the runs the caller is shown.
- **Bounded resources.** `AgentRuntime` is the staged run and the providers' retry loop, `RuntimeSecurity` the
  request rate table.

Conventions. A transaction is one atomic step with one reading of a clock that never goes back. SHA-256 over
canonical JSON is injective, so a digest carries what it digests. Identifiers drawn by `uuid4` are never drawn
twice where a theorem says so. Dates are calendar ordinals from `PeriodQuery` on; `Calendar.OrderIsOrdinal` is
the bridge. Metric values are reals.

Where the code and what one might expect of it differ, the model follows the code. Four such places are stated
as lemmas, each with the condition under which the expectation holds: a save can succeed over a stream that was
deleted and seeded again since it was read (`DefinitionStores.NoLostUpdate`, `StaleSaveAfterDeletion`); a carriage
return before a CRLF pair makes the parser's text depend on chunk boundaries (`LineEndings.CutsAnywhereIffStable`,
`EventReplay.ReturnsBreakChunking`); a progress text that spells the loss of access is taken for it
(`EventReplay.LossIsSpelled`); and a year-over-year comparison can overlap its period
(`Calendar.YearOverYearIsEarlier`), which the warehouse and snapshot connectors always refuse and the CSV connector
answers.

## Model

| member | source | states |
|---|---|---|
| Runs.LegalChangeKeepsRange | src/talk2data/services/postgres_runs.py:312-355 | A committed write of a run moves down the status ranks or reports progress below 60; so it decreases a well-founded measure, starts from an unfinished run, and a journal never exceeds 62 events. |
| RunTables.PersistKeeps | src/talk2data/services/postgres_runs.py:186-202 | Updating a run row and inserting its event together keep the whole table invariant: rows match their payloads, events are exactly 1..sequence with only the last terminal, numbering, unique requests, one unfinished run per conversation and only its latest. |
| RunTables.AdmitKeeps | src/talk2data/services/postgres_runs.py:163-183 | Admission keeps that invariant. |
| RunTables.DropKeeps | src/talk2data/services/postgres_runs.py:231-241 | Deleting conversations with everything that cascades from them keeps that invariant. |
| RunTables.OneActive | src/talk2data/services/postgres_runs.py:159-161 | A conversation never has two unfinished runs. |
| RunTables.ReplayIs | src/talk2data/services/postgres_runs.py:218-229 | Events after a cursor come back complete and in order. |
| RunTables.FoldShowsPast | src/talk2data/services/postgres_runs.py:186-202 | Folding events 1..k of any later journal gives the status, sequence and progress that were persisted at sequence k. |
| PostgresRuns.OldestFirst | src/talk2data/services/postgres_runs.py:263-270 | Among rows no other transaction locks, the oldest claimable one is taken; an earlier claimable row is never passed over. |
| PostgresRuns.EnqueueKeeps | src/talk2data/services/postgres_runs.py:133-183 | Every admission attempt keeps the store invariant (tables, leases, capacities, conversation limits) and changes existing runs in no way a transaction may not. |
| RunTables.RevisionCounts | src/talk2data/services/postgres_runs.py:155-163 | A conversation's revision is its number of runs, so the 64-run limit counted over rows is a limit on the revision. |
| PostgresRuns.CancelKeeps | src/talk2data/services/postgres_runs.py:204-216 | Cancelling keeps the store invariant and releases no answer. |
| PostgresRuns.HeartbeatKeeps | src/talk2data/services/postgres_runs.py:300-310 | A heartbeat keeps the store invariant, fences, authority ends and all payloads. |
| PostgresRuns.FinishKeeps | src/talk2data/services/postgres_runs.py:322-355 | Finishing keeps the store invariant; an answer or COMPLETED appears only if the fence holder acted before lease and authority end, and never after a cancellation request. |
| PostgresRuns.SweepKeeps | src/talk2data/services/postgres_runs.py:243-256 | Interrupting all overdue runs keeps the store invariant and releases nothing. |
| PostgresRuns.SweepPeels | src/talk2data/services/postgres_runs.py:247-256 | Interrupting one more overdue row is one more committed write, so the order of the loop does not matter. |
| PostgresRuns.ClaimKeeps | src/talk2data/services/postgres_runs.py:243-279 | A claim keeps the store invariant; it writes at most one fence, onto a queued run that had none, and hands that run out. |
| PostgresRuns.ClaimedInTime | src/talk2data/services/postgres_runs.py:243-279 | After the sweep nothing is overdue; a claimed run still has authority and its new lease is running. |
| PostgresEffects.ClaimEffect | src/talk2data/services/postgres_runs.py:243-279 | A claim hands out a job exactly when a slot is free and an unlocked queued row of the worker's binding waits whose authority lasts and whose tenant has a slot; it is the first such row in admission order, under its own grant, with the lease it is due. Every row in flight with its lease over or queued with its authority over is interrupted, and nothing else changes. |
| PostgresEffects.NothingLeft | src/talk2data/services/postgres_runs.py:243-279 | A claim that hands out nothing leaves nothing it could have handed out. |
| PostgresEffects.FinishEffect | src/talk2data/services/postgres_runs.py:322-355 | A terminal write takes effect exactly for the holder of a running lease: cancelled if that was asked for, interrupted if the authority is over, and otherwise with exactly the status, answer and code that were wanted; one event, no other row. |
| PostgresEffects.ProgressEffect | src/talk2data/services/postgres_runs.py:312-320 | Exactly when a report is recorded, dropped or refused, and that it is this report. |
| PostgresEffects.HeartbeatEffect | src/talk2data/services/postgres_runs.py:281-310 | Exactly when a heartbeat moves the end of the lease, and where to. |
| PostgresEffects.CancelEffect | src/talk2data/services/postgres_runs.py:204-216 | For whom, and that a queued run ends cancelled, a running one is asked to stop, and any other stays. |
| PostgresEffects.CreateEffect | src/talk2data/services/postgres_runs.py:64-77 | The conversation made, or which limit refuses it. |
| PostgresEffects.EnqueueEffect | src/talk2data/services/postgres_runs.py:133-183 | A question is admitted exactly when authority, conversation, revision, idleness, identifier and both capacities allow it; then the conversation, row, order and journal are as stated, otherwise nothing is written. |
| PostgresEffects.DeleteEffect | src/talk2data/services/postgres_runs.py:231-241 | Exactly who may delete what, and that everything of that conversation and nothing else goes. |
| PostgresRunStores.PostgresRunStore.CreateConversation | src/talk2data/services/postgres_runs.py:64-77 | The new tables and the answer, with both limits and the identifier conflict. |
| PostgresRunStores.PostgresRunStore.Lookup | src/talk2data/services/postgres_runs.py:117-131 | The run an earlier identical request created, a conflict if it differed, or none. |
| PostgresRunStores.PostgresRunStore.Enqueue | src/talk2data/services/postgres_runs.py:133-183 | The new tables and the answer in every branch, in the order of the checks; keeps the store invariant. |
| PostgresRunStores.PostgresRunStore.Write | src/talk2data/services/postgres_runs.py:186-202 | One more sequence number, the row updated and its event inserted. |
| PostgresRunStores.PostgresRunStore.Cancel | src/talk2data/services/postgres_runs.py:204-216 | Queued runs end, running ones are asked to stop, others are left alone; keeps the store invariant. |
| PostgresRunStores.PostgresRunStore.Replay | src/talk2data/services/postgres_runs.py:218-229 | The row is read and the cursor tested in one transaction, the events are selected in a later one: whatever commits in between, the answer is everything after the cursor by then, complete and in order, nothing if the run was deleted meanwhile, or a refusal when the cursor is outside the journal. |
| PostgresRunStores.PostgresRunStore.Delete | src/talk2data/services/postgres_runs.py:231-241 | Only an owned conversation without an unfinished run is deleted, with its runs and events. |
| PostgresRunStores.PostgresRunStore.InterruptExpired | src/talk2data/services/postgres_runs.py:247-256 | The loop interrupts exactly the overdue runs, each with one event. |
| PostgresRunStores.PostgresRunStore.Claim | src/talk2data/services/postgres_runs.py:243-279 | Sweep, capacity test, selection, fence and start as one transaction; the new tables and the job. |
| PostgresRunStores.PostgresRunStore.NextClaimable | src/talk2data/services/postgres_runs.py:262-272 | The search returns the first claimable row not locked elsewhere. |
| PostgresRunStores.PostgresRunStore.Heartbeat | src/talk2data/services/postgres_runs.py:281-310 | The lease is extended only for the owner of a running lease, and not once cancellation was requested or authority ended. |
| PostgresRunStores.PostgresRunStore.Progress | src/talk2data/services/postgres_runs.py:312-320 | Progress is recorded for the owner below 60 events, silently dropped after a cancellation request, and refused otherwise. |
| PostgresRunStores.PostgresRunStore.Finish | src/talk2data/services/postgres_runs.py:322-355 | The terminal write of the owner: cancellation and ended authority override the wanted ending. |
| PostgresRunStores.ReplayFollows | src/talk2data/services/postgres_runs.py:218-229 | What a client replays from its cursor is exactly what its journal lacks. |
| RunProtocol.Reachable | src/talk2data/services/postgres_runs.py:43-358 | Every state reachable by any interleaving of clients and workers, holding stale jobs or none, satisfies the store invariant, and every job ever handed out still names its fence. |
| RunProtocol.History | src/talk2data/services/postgres_runs.py:43-358 | Between any two states of a run of the system, a surviving run only moved forward: same request and binding, growing sequence, kept journal, kept fence. |
| RunProtocol.ClaimedAtMostOnce | src/talk2data/services/postgres_runs.py:243-279 | Two claims in one run of the system never hand out the same run. |
| RunProtocol.FenceWrittenOnce | src/talk2data/services/postgres_runs.py:274-277 | A fence never changes once written. |
| RunProtocol.ReleasedOnlyByHolder | src/talk2data/services/postgres_runs.py:281-355 | COMPLETED or an answer is committed only by the one job the run was handed out with, strictly before lease and authority end. |
| RunProtocol.CancellationIsFinal | src/talk2data/services/postgres_runs.py:204-216 | After a cancellation request no answer and no COMPLETED ever follows. |
| RunProtocol.AnswerStays | src/talk2data/services/postgres_runs.py:322-355 | What a job's holder commits in time is what every later state shows: its status, answer and code. |
| RunProtocol.ClaimedForItsSource | src/talk2data/services/postgres_runs.py:262-279 | Whatever the interleaving, a worker is only ever given runs bound to its own source, under the grant they were admitted with, while that lasts. |
| RunProtocol.BoundForGood | src/talk2data/services/postgres_runs.py:166-181 | A run's binding is the source of its snapshot in every reachable state. |
| RunProtocol.TerminalIsFinal | src/talk2data/services/postgres_runs.py:204-216 | A finished run never changes again. |
| RunProtocol.JournalShowsEveryState | src/talk2data/services/postgres_runs.py:186-202 | Folding the first k events of any later journal shows the run as it was at sequence k. |
| RunProtocol.WritesDecrease | src/talk2data/services/postgres_runs.py:312-355 | Every committed write of a run decreases its measure. |
| RunProtocol.RetryReturnsTheRun | src/talk2data/services/postgres_runs.py:117-183 | An identical retry returns the admitted run, as it is now, and writes nothing; no other run carries its request identifier. |
| RunProtocol.ConversationNumbering | src/talk2data/services/postgres_runs.py:155-183 | The k-th run of a conversation was submitted against revision k, the revision is the number of runs, at most 64, and the latest run is the last. |
| RunProtocol.CapacityHolds | src/talk2data/services/postgres_runs.py:64-77 | All limits of the settings, per system, tenant, owner and conversation, hold in every reachable state. |
| RunProtocol.LeaseExtendedOnlyByOwner | src/talk2data/services/postgres_runs.py:300-310 | Between a worker's own calls, no step of anyone else can make its job owned again. |
| DistributedWorkers.DistributedWorker.Tick | src/talk2data/services/distributed_runs.py:56-62 | Claims fill the pool up to its limit; unless the worker is stopping it ends with a full pool or with nothing left in the store it could claim. |
| DistributedWorkers.DistributedWorker.Execute | src/talk2data/services/distributed_runs.py:84-124 | Under interference at every step, and cancelled at any await or by its monitor, a job commits the one ending its course calls for unless the store overrides it; COMPLETED is committed only with authority checked before the operation, in every round of the monitor, and after it; afterwards the job owns nothing. |
| DistributedWorkers.WantedExactly | src/talk2data/services/distributed_runs.py:84-115 | Exactly when a worker asks for COMPLETED with the operation's answer, for INTERRUPTED and for FAILED. |
| DistributedWorkers.DistributedWorker.Close | src/talk2data/services/distributed_runs.py:126-139 | Shutdown cancels every task: those entered write their own ending, even beside a COMPLETED already on its way, the others are fenced; no job held before can be owned any more. |
| DistributedWorkers.EverythingElseIsElsewhere | src/talk2data/services/distributed_runs.py:36-139 | What the worker assumes of others between its calls is what every step of the protocol guarantees. |
| SqliteRuns.ConsistentValidates | src/talk2data/operations/database.py:46-107 | The table invariant implies every check of the state validator. |
| SqliteRuns.ReachableValidates | src/talk2data/operations/database.py:46-107 | Every state the single-worker store reaches, through any transactions, crashes, recovery, deletion, pruning and retention, passes the validator. |
| SqliteRuns.CommitKeeps | src/talk2data/services/run_store.py:92-374 | Every transaction keeps the table invariant and changes each surviving run by at most one legal write. |
| SqliteEffects.StartEffect | src/talk2data/services/run_store.py:236-243 | Exactly a queued run is started, with one event. |
| SqliteEffects.ProgressEffect | src/talk2data/services/run_store.py:245-253 | Exactly when a report is recorded, ignored or refused, and that it is this report. |
| SqliteEffects.FinishEffect | src/talk2data/services/run_store.py:255-281 | A finished run stays; one asked to stop ends cancelled without an answer unless it is interrupted; any other takes exactly the wanted status, answer and code. |
| SqliteEffects.CancelEffect | src/talk2data/services/run_store.py:283-290 | For whom, and that exactly a queued or running run is asked to stop. |
| SqliteEffects.CreateEffect | src/talk2data/services/run_store.py:102-116 | The conversation made, or which limit refuses it. |
| SqliteEffects.EnqueueEffect | src/talk2data/services/run_store.py:176-215 | Exactly which questions are admitted, and the whole new state. |
| SqliteEffects.DeleteEffect | src/talk2data/services/run_store.py:323-332 | Exactly who may delete what, and that everything of that conversation and nothing else goes. |
| SqliteEffects.RecoveredIs | src/talk2data/services/run_store.py:305-321 | A restart interrupts exactly the unfinished runs. |
| SqliteEffects.PruneEffect | src/talk2data/services/run_store.py:357-374 | A checkpoint is pruned exactly when it is due and nothing of its conversation is unfinished; those conversations go with it, and no others. |
| SqliteEffects.RetainEffect | src/talk2data/operations/retention.py:26-91 | Retention removes exactly the conversations older than the cutoff with all their runs, all finished. |
| SqliteEffects.CancellationIsFinal | src/talk2data/services/run_store.py:255-290 | Over whole histories with restarts: after a cancellation request no answer and no COMPLETED ever follows, given that answers are only passed along with COMPLETED. |
| SqliteEffects.AnswerStays | src/talk2data/services/run_store.py:255-281 | What is concluded for a run nobody cancelled is what every later state shows. |
| SqliteRuns.RunsOnlyMoveForward | src/talk2data/services/run_store.py:217-290 | Between any two states a surviving run only moved forward. |
| SqliteRuns.JournalShowsEveryState | src/talk2data/services/run_store.py:217-234 | Folding the first k events of any later journal shows the run as it was at sequence k. |
| SqliteRuns.WritesDecrease | src/talk2data/services/run_store.py:245-290 | Every committed write decreases the measure and appends one event. |
| SqliteRuns.PruneSpares | src/talk2data/services/run_store.py:357-374 | Pruning never removes a conversation that is active or that no due checkpoint names. |
| RunStores.RunStore.constructor | src/talk2data/services/run_store.py:45-90 | Opening a state file recovers it: same runs, none unfinished, and the file passes the validator. |
| RunStores.RunStore.CreateConversation | src/talk2data/services/run_store.py:102-116 | The new tables and the answer, with both limits. |
| RunStores.RunStore.Existing | src/talk2data/services/run_store.py:163-174 | The run of an identical request, a conflict, or none. |
| RunStores.RunStore.Enqueue | src/talk2data/services/run_store.py:176-215 | The new tables and the answer in every branch. |
| RunStores.RunStore.Write | src/talk2data/services/run_store.py:217-234 | One more sequence number, the row updated and its event inserted. |
| RunStores.RunStore.Start | src/talk2data/services/run_store.py:236-243 | Only a queued run starts. |
| RunStores.RunStore.Progress | src/talk2data/services/run_store.py:245-253 | Progress below 60 events while running. |
| RunStores.RunStore.Finish | src/talk2data/services/run_store.py:255-281 | The terminal write, where a requested cancellation wins over all endings but interruption. |
| RunStores.RunStore.Cancel | src/talk2data/services/run_store.py:283-290 | A cancellation request on an unfinished run. |
| RunStores.RunStore.Recover | src/talk2data/services/run_store.py:305-321 | The loop interrupts exactly the unfinished runs and leaves everything else alone. |
| RunStores.RunStore.Delete | src/talk2data/services/run_store.py:323-332 | Only an owned conversation without an unfinished run is deleted. |
| RunStores.RunStore.SaveCheckpoint | src/talk2data/services/run_store.py:334-344 | A checkpoint is replaced or removed under its token's digest. |
| RunStores.RunStore.PruneCheckpoints | src/talk2data/services/run_store.py:357-374 | The loop removes exactly the due checkpoints of inactive conversations, with those conversations, and returns each user as often as they have such a checkpoint. |
| Retention.StateFile.Validate | src/talk2data/operations/database.py:46-107 | The maintenance check decides exactly the stated conditions, by its loops. |
| Retention.StateFile.Select | src/talk2data/operations/retention.py:17-59 | The candidates and counts are exactly those of the all-terminal conversations older than the cutoff; refusals in order. |
| Retention.StateFile.Retain | src/talk2data/operations/retention.py:62-91 | A preview changes nothing; an apply happens only under the previewed plan, is one transaction that removes exactly the candidates and records it, and keeps the table invariant. |
| Retention.ApplyIsThePreview | src/talk2data/operations/retention.py:62-91 | A plan is accepted only over the very conversations, runs, events, definitions and cutoff it was made for, and removes exactly what its preview showed. |
| Retention.DropValidates | src/talk2data/operations/retention.py:70-91 | Removing whole conversations leaves a file that passes the validator. |
| Retention.RetentionSpares | src/talk2data/operations/retention.py:26-45 | Nothing recent, unfinished or of another conversation is removed. |
| RunCoordinators.RunCoordinator.Submit | src/talk2data/services/run_coordinator.py:26-46 | Either nothing changed, or the run is queued, owed one release, and admission was open; existing requests are answered from the journal. |
| CoordinatorEffects.SubmissionEffect | src/talk2data/services/run_coordinator.py:37-46 | A repeated request gets its run back or a conflict; a new one is admitted exactly when a slot is free and the store admits it. |
| RunCoordinators.RunCoordinator.Enter | src/talk2data/services/run_coordinator.py:48-54 | A run that left the queue before it was entered is concluded at once; otherwise it starts. |
| RunCoordinators.RunCoordinator.Resume | src/talk2data/services/run_coordinator.py:55-75 | Every way an await can end has one course: suspended in the next await, or one terminal write; a completed run's answer comes from its own source. |
| RunCoordinators.RunCoordinator.Conclude | src/talk2data/services/run_coordinator.py:57-76 | The terminal write and then the callback: exactly one release, of a terminal run. |
| RunCoordinators.RunCoordinator.Cancel | src/talk2data/services/run_coordinator.py:78-86 | A run without a task is ended at once; only an entered running task is interrupted. |
| RunCoordinators.RunCoordinator.FinishClose | src/talk2data/services/run_coordinator.py:88-99 | The last part of shutdown: tasks that never started are recovered and released. |
| RunCoordinators.RunCoordinator.Close | src/talk2data/services/run_coordinator.py:88-99 | Shutdown as a whole: every entered task is driven to its end by what its awaits still end with, the others are recovered; each row is then the ending its course calls for, nothing is unfinished, and every accepted run was released exactly once. |
| RunCoordinators.AnswerNeedsBothChecks | src/talk2data/services/run_coordinator.py:55-63 | Through any sequence of wakeups an answer is committed only if authority was granted, the operation produced exactly it, and authority was granted again; every other course ends without one. |
| CoordinatorEffects.LastWakeupDecides | src/talk2data/services/run_coordinator.py:55-73 | The await a coroutine ends with decides its run's end: completed, failed under its code, cancelled, or interrupted at shutdown. |
| CoordinatorEffects.UndisturbedCompletes | src/talk2data/services/run_coordinator.py:55-58 | An undisturbed run passes both checks and ends with its operation's answer. |
| RunCoordinators.ReleaseNext | src/talk2data/services/run_coordinator.py:74-76 | One more release keeps it true that every accepted run is either owed or was released exactly once, terminal. |
| RunCoordinators.SparesTasks | src/talk2data/services/run_store.py:323-332 | Deleting conversations never takes the run of a living task. |
| CsvWorkspaces.CsvSession.Lease | src/talk2data/services/csv_workspace.py:161-171 | A lease is granted exactly when nothing else occupies the session. |
| CsvWorkspaces.CsvSession.Upload | src/talk2data/services/csv_workspace.py:199-209 | A rejected upload changes nothing; an accepted one drops the last answer. |
| CsvWorkspaces.CsvSession.Answered | src/talk2data/services/csv_workspace.py:355-369 | An answer is shown only when it was computed from the selected CSV, and a saved question is remembered among the last four. |
| CsvWorkspaces.CsvSession.SubmitRun | src/talk2data/services/csv_workspace.py:371-416 | A run is accepted only for the selected CSV while the session is idle, and then occupies it; and an idle session accepts every question the coordinator and the store have no reason to refuse. |
| CsvWorkspaces.CsvSession.Advance | src/talk2data/services/csv_workspace.py:396-412 | One coroutine moves as the coordinator says; when the pending run ends, the session becomes free with either that run's answer, which belongs to the selected CSV, or its history restored, and until then nothing but its history changes. |
| CsvWorkspaces.CsvSession.Shutdown | src/talk2data/services/csv_workspace.py:405-412 | The same for a run that shutdown interrupts. |
| CsvWorkspaces.CsvSession.constructor | src/talk2data/services/csv_workspace.py:124-159 | A session restored from its checkpoint is consistent. |
| Governance.ApplyEffect | src/talk2data/services/definition_governance.py:157-176 | An accepted edit adds one definition version and never makes two definitions answer to one word. |
| GovernanceEffects.ApplyChanges | src/talk2data/services/definition_governance.py:157-176 | An accepted edit gives the first definition with its identifier the edit's name, text, owner and aliases and one more version; every other field, definition and part of the pack is unchanged. |
| GovernanceEffects.AppliesExactly | src/talk2data/services/definition_governance.py:157-176 | An edit is accepted exactly when its definition is registered and none of its words is taken by another. |
| Governance.ApplyStaysValid | src/talk2data/services/definition_governance.py:157-176 | Validating the edited pack once more never refuses an edit: a valid pack stays valid. |
| Governance.PublicationsValid | src/talk2data/services/definition_governance.py:227-247 | From a valid bootstrap on, every publication of a chain is a valid pack, so no request on it is ever refused for that reason. |
| Governance.MutateKeeps | src/talk2data/services/definition_governance.py:178-282 | Every granted request keeps the chain: each publication applies one approved draft's edit to its predecessor at the time its event says; events equal publications plus revocations; revisions follow statuses; reviewers are not authors in separate mode; and it only adds to history. |
| Governance.MoveRules | src/talk2data/services/definition_governance.py:192-260 | Who may take a review step, which status it moves from and to, and that nothing but that draft, and a publication's snapshot and event, changes. |
| Governance.WithdrawRules | src/talk2data/services/definition_governance.py:262-282 | Exactly when a revocation is granted. |
| GovernanceEffects.CreateEffect | src/talk2data/services/definition_governance.py:178-190 | Exactly which drafts are accepted, and the draft that is added. |
| GovernanceEffects.ReviewEffect | src/talk2data/services/definition_governance.py:192-260 | Exactly who may submit, approve or reject which draft, and that it moves that draft and nothing else. |
| GovernanceEffects.PublishEffect | src/talk2data/services/definition_governance.py:227-258 | Exactly when an approved draft is published, and the snapshot, event and draft that result; it takes effect at the latest of its wish, its publication and its predecessor. |
| GovernanceEffects.RevokeEffect | src/talk2data/services/definition_governance.py:262-282 | Exactly when a snapshot is revoked, and that only it and its event are recorded. |
| GovernanceEffects.PublicationShowsItsDraft | src/talk2data/services/definition_governance.py:227-258 | Every publication of a chain shows in one definition exactly the texts of the draft it names, and is its predecessor everywhere else. |
| Governance.ReleaseKeeps | src/talk2data/services/definition_governance.py:227-258 | Publishing an approved draft keeps the chain. |
| Governance.DistinctPublications | src/talk2data/services/definition_governance.py:234-247 | Snapshot identifiers never repeat. |
| Governance.BasesDiffer | src/talk2data/services/definition_governance.py:228-229 | No two published drafts were based on the same snapshot. |
| Governance.CurrentIsLastEffective | src/talk2data/services/definition_governance.py:84-88 | The snapshot in force is the last effective one of the chain, and exists exactly when the bootstrap is effective. |
| Governance.CurrentNeverGoesBack | src/talk2data/services/definition_governance.py:84-88 | With time and history moving forward, the snapshot in force never moves back. |
| Governance.ResolveExactly | src/talk2data/services/definition_governance.py:94-111 | Exactly which requests are granted, and which snapshot they get. |
| GovernanceEffects.ResolveEffect | src/talk2data/services/definition_governance.py:84-111 | Exactly which readers get which publication: the one in force, or the one asked for if it is in effect, not revoked and, where required, in force. |
| Governance.RevocationHolds | src/talk2data/services/definition_governance.py:109-110 | A revoked snapshot stays refused, and nothing older is handed out in its place. |
| DefinitionStores.DefinitionStore.Seed | src/talk2data/services/definition_store.py:34-39 | Seeding never replaces a stream. |
| DefinitionStores.DefinitionStore.Read | src/talk2data/services/definition_store.py:41-58 | Exactly the intact streams are returned. |
| DefinitionStores.DefinitionStore.Save | src/talk2data/services/definition_store.py:60-69 | Compare-and-swap on the revision. |
| DefinitionStores.DefinitionStore.Delete | src/talk2data/services/definition_store.py:71-73 | Removes one stream. |
| DefinitionStores.DefinitionGovernance.Open | src/talk2data/services/definition_governance.py:38-63 | Start-up refuses a bootstrap that is not effective or is not the one the stream began with. |
| DefinitionStores.DefinitionGovernance.CreateDraft | src/talk2data/services/definition_governance.py:178-190 | Read, check, append, save; a refusal changes nothing. |
| DefinitionStores.DefinitionGovernance.Transition | src/talk2data/services/definition_governance.py:192-260 | Read, check, move the draft, publish if asked, save; a refusal changes nothing. |
| DefinitionStores.DefinitionGovernance.CannotMove | src/talk2data/services/definition_governance.py:201-226 | Exactly which review steps are open to whom. |
| DefinitionStores.DefinitionGovernance.Revoke | src/talk2data/services/definition_governance.py:262-282 | Read, check, revoke, save; a refusal changes nothing. |
| DefinitionStores.CommittedStatesChain | src/talk2data/services/definition_store.py:60-69 | Under every interleaving of clients between read and save, and any deletions, every committed state is a chain. |
| DefinitionStores.NoLostUpdate | src/talk2data/services/definition_store.py:60-69 | Unless the stream was deleted since its client last read it, an accepted save replaces exactly the state that was read, whatever other clients saved meanwhile and with which copies. |
| DefinitionStores.WithoutDeletion | src/talk2data/services/definition_store.py:60-69 | Without deletion the stream stays in its first generation. |
| DefinitionStores.HistoryGrows | src/talk2data/services/definition_store.py:60-69 | Within one generation history is only added to. |
| DefinitionStores.InForceOnward | src/talk2data/services/definition_governance.py:84-88 | Within one generation the definitions in force never go back. |
| DefinitionStores.StaleSaveAfterDeletion | src/talk2data/services/definition_store.py:60-73 | With a deletion and a new seed between read and save it can fail: revisions restart, and the accepted save drops the new stream's history; a concrete run of five steps. |
| Calendar.OrderIsOrdinal | src/talk2data/connectors/demo_sqlite.py:400-444 | Calendar order is day order; a date is determined by its ordinal. |
| Calendar.MinusIs | src/talk2data/connectors/demo_sqlite.py:400-459 | Subtracting days moves by exactly that many days and fails exactly before 0001-01-01. |
| Calendar.WindowsAreRanges | src/talk2data/connectors/demo_sqlite.py:400-444 | Every window that resolves is a range of valid dates in order; a custom one is the dates it was given. |
| Calendar.PreviousIsWholeUnit | src/talk2data/connectors/demo_sqlite.py:406-437 | Each CURRENT range runs from the first day of the anchor's unit to the anchor; each PREVIOUS_COMPLETE range is exactly one whole day, week, month, quarter or year that ends the day before the matching CURRENT range starts; it fails exactly when that day does not exist. |
| Calendar.RollingThirtyDays | src/talk2data/connectors/demo_sqlite.py:435-436 | Exactly thirty days ending at the anchor. |
| Calendar.RollingTwelveMonths | src/talk2data/connectors/demo_sqlite.py:437-443 | Starts on the first of a month and touches exactly twelve calendar months. |
| Calendar.PriorPeriodIsAdjacent | src/talk2data/connectors/demo_sqlite.py:453-456 | Same length, ends the day before, disjoint. |
| Calendar.ShiftYearMovesAYear | src/talk2data/connectors/demo_sqlite.py:492-495 | A year back is the same day of the year before, 29 February becoming the 28th, and 365 or 366 days earlier. |
| Calendar.ShiftYearMonotone | src/talk2data/connectors/demo_sqlite.py:492-495 | Shifting keeps order. |
| Calendar.YearOverYearIsEarlier | src/talk2data/connectors/demo_sqlite.py:457-458 | Never empty, earlier at both ends, within one day of the same length; the two periods overlap exactly when the current one starts no later than the day on which it ended one year before. |
| BigQuerySql.CompileBigQuery | src/talk2data/services/bigquery_sql.py:46-113 | With its named parameters the statement selects exactly the in-scope facts of both periods, labels them as intended, and limits the rows to the maximum; names never collide. |
| PeriodQuery.CurrentGroupIsWhole | src/talk2data/services/bigquery_sql.py:83-93 | The current label selects the whole current period. |
| PeriodQuery.ComparedGroupIsWhole | src/talk2data/services/bigquery_sql.py:83-93 | The comparison label selects the whole comparison period when the periods are disjoint. |
| PeriodQuery.CoverageIs | src/talk2data/connectors/bigquery.py:219-225 | First day, last day and number of days together say that no day is missing. |
| PeriodQuery.CoveredPeriodsDisjoint | src/talk2data/connectors/bigquery.py:217-225 | If the comparison groups cover their period, the periods share no day. |
| PeriodQuery.ReleasedExactlyWhenReady | src/talk2data/connectors/bigquery.py:206-259 | Rows are released exactly when the facts of both whole periods are ready; overlapping periods never are, and no group is lost to the limit. |
| BigQuery.ValidateRows | src/talk2data/connectors/bigquery.py:206-259 | The loop releases exactly the acceptable results, merges them in order, and reports the update time of one of the rows, which none of them exceeds. |
| BigQuery.ReleasedRowsAreWholePeriods | src/talk2data/connectors/bigquery.py:206-259 | Every released value and compared value is the aggregate of its own whole period; one row per group, all groups. |
| BigQuery.ReportedTimeIsNewest | src/talk2data/connectors/bigquery.py:251-259 | The reported time is that of a fact of the requested periods, and no fact of either is newer. |
| QueryMeaning.GroupHolds | src/talk2data/services/bigquery_sql.py:46-113 | Which facts a group of a period holds, column by column. |
| QueryMeaning.GroupReadyMeans | src/talk2data/connectors/bigquery.py:217-249 | A group is ready exactly with usable facts on every day, named cells and a possible value. |
| QueryMeaning.SumMeans | src/talk2data/services/bigquery_sql.py:91 | A group's value is the sum of its amounts. |
| QueryMeaning.RatioMeans | src/talk2data/services/bigquery_sql.py:87 | Or the number that times the summed denominators is the summed numerators. |
| Merging.Merge | src/talk2data/connectors/demo_sqlite.py:462-489 | The dictionary and the loop compute the merged rows. |
| Merging.MergedRows | src/talk2data/connectors/demo_sqlite.py:462-489 | With a value everywhere, one merged row per current row, in order. |
| ParquetSnapshot.ParquetSnapshotConnector.Compile | src/talk2data/connectors/parquet_snapshot.py:199-267 | Taking positional parameters from left to right binds the path to its marker, selects exactly the in-scope facts and labels them as intended. |
| ParquetSnapshot.SameGroups | src/talk2data/connectors/parquet_snapshot.py:199-267 | The bound statement groups the facts exactly as the warehouse form does. |
| CsvDemo.CheckCoverage | src/talk2data/connectors/csv_demo.py:109-115 | Counting decides whether every requested day occurs. |
| CsvDemo.QueryPeriod | src/talk2data/connectors/csv_demo.py:157-176 | Exactly which rows of one period are accepted. |
| CsvDemo.Execute | src/talk2data/connectors/csv_demo.py:95-198 | Exactly when a CSV question is answered, and with which merged rows. |
| CsvDemo.CsvAnswersWholePeriods | src/talk2data/connectors/csv_demo.py:95-198 | Answered exactly when both periods are covered by every group; then every value is the aggregate of its own whole period, even where periods overlap. |
| Certification.Validate | src/talk2data/services/certification.py:23-124 | All failures, in order, and the verdict. |
| Certification.VerifiedKeys | src/talk2data/services/certification.py:80-118 | A verified receipt has unique valid keys, finite values, and exactly one row when it has no dimensions. |
| Certification.VerifiedExactly | src/talk2data/services/certification.py:23-124 | A receipt is verified exactly when its head is the question's, hash and row count are those of its rows, its coverage spans both periods, no key repeats, and every value and comparison is in range with a change and percentage that follow from them. |
| Certification.Compose | src/talk2data/services/certification.py:172-234 | One claim per row, in order, with the row's own numbers. |
| Certification.ProducersAgree | src/talk2data/services/certification.py:23-166 | A receipt built from released rows fails only on metric bounds or integrality, and is verified exactly when all values meet them. |
| Certification.WarehouseRowsSound | src/talk2data/connectors/bigquery.py:152-204 | Rows released by the warehouse connector and its coverage satisfy what the agreement needs. |
| Certification.SnapshotCovers | src/talk2data/connectors/parquet_snapshot.py:166-174 | The snapshot connector's coverage spans both periods because every comparison is earlier. |
| Certification.CsvCovers | src/talk2data/connectors/csv_demo.py:208-209 | The CSV's own first and last day span both periods. |
| Certification.CsvRowsSound | src/talk2data/connectors/csv_demo.py:194-213 | Answered CSV rows satisfy what the agreement needs. |
| EventReplay.ReadEvents | apps/web/src/lib/runs.ts:41-76 | The nested loops over chunks and frames, with the buffer limit and every refusal. |
| EventReplay.NeverSkips | apps/web/src/lib/runs.ts:41-76 | However a response is garbled, cut or forged, the events taken are of the run and follow the cursor one by one. |
| EventReplay.EventTaken | apps/web/src/lib/runs.ts:62-68 | The next event is taken, an earlier one ignored, one of another run or further ahead ends the reading. |
| LineEndings.CutsAnywhereIffStable | apps/web/src/lib/runs.ts:53-55 | Normalising line endings chunk by chunk gives the same text for every cut exactly when no carriage return comes directly before a CRLF pair. |
| EventReplay.ChunkingDoesNotMatter | apps/web/src/lib/runs.ts:52-72 | For every stream with that property, CRLF line ends included, any two ways of cutting it within the buffer limit give the same events: those of the whole stream normalised at once. |
| EventReplay.ShortStreamsFit | apps/web/src/lib/runs.ts:54 | A response of at most 131072 characters stays within the buffer limit, however it is cut. |
| EventReplay.ReturnsBreakChunking | apps/web/src/lib/runs.ts:55 | Without it the events can differ: one stream, read at once, is an unreadable frame; cut behind the pattern it is two events. |
| EventReplay.LossIsSpelled | apps/web/src/lib/runs.ts:59 | A progress frame is taken for the loss of access exactly when one of its lines spells it. |
| EventReplay.EventStream.Take | src/talk2data/api/run_routes.py:33-58 | One turn of the server sends exactly the events selected, then a heartbeat or nothing, or the loss of access and nothing more; everything sent so far continues the journal from the client's cursor. |
| EventReplay.EventStream.Stream | src/talk2data/api/run_routes.py:33-58 | The whole response, turn after turn while the journal grows, continues the journal from the client's cursor without a gap. |
| EventReplay.TurnFollows | src/talk2data/api/run_routes.py:33-58 | What one turn sends continues the journal from the cursor without a gap. |
| EventReplay.StreamFollows | src/talk2data/api/run_routes.py:33-58 | So do the items of any sequence of turns that each select what the journal has next. |
| EventReplay.CutStreamDelivers | apps/web/src/lib/runs.ts:52-72 | Wherever the stream is cut, the client has received exactly a run of the journal from its cursor on, and never reports a gap. |
| EventReplay.ReplayDelivers | apps/web/src/lib/runs.ts:41-76 | The same for any chunks that arrive. |
| RunWatch.Watch | apps/web/src/lib/runs.ts:81-110 | The loop over at most twelve connections, with snapshots after each. |
| RunWatch.ShownIsOneRun | apps/web/src/lib/runs.ts:81-110 | Whatever a server sends, the caller is only ever shown one run, of one source and one definition snapshot, and never an earlier state after a later one. |
| RunWatch.StreamShows | apps/web/src/lib/runs.ts:88-99 | While a stream of the journal arrives, every run shown agrees with the journal and the client finds no gap and no foreign event. |
| WatchedStores.TurnsGrow | src/talk2data/api/run_routes.py:37-58 | Turns that read the row in one state of a store and select the events in a later one continue one another towards the journal of every state after them. |
| WatchedStores.WatchShowsTheRecord | apps/web/src/lib/runs.ts:81-110 | A watch over any consistent store in which runs only move forward, whatever is refused, cut, deleted or committed in between: every run shown is the record's at its sequence, the sequence never decreases, the client never raises its own inconsistency error, and the run it returns is the run as stored for good, answer included. |
| WatchedStores.WatchEnds | apps/web/src/lib/runs.ts:85-109 | With a server that answers, the watch goes on from connection to connection through lost streams, and once a snapshot shows the run finished it returns that run as stored for good. |
| WatchedStores.StoredRunAgrees | src/talk2data/services/postgres_runs.py:186-202 | Any stored snapshot agrees with the journal of every later state. |
| WatchedStores.SharedStoreChronicles | src/talk2data/services/postgres_runs.py:43-358 | Every run of the shared store's protocol is such a store. |
| WatchedStores.LocalStoreChronicles | src/talk2data/services/run_store.py:92-374 | So is every history of the single-worker store, retention included. |
| AgentRuntime.AgentRun.Start | src/talk2data/services/agent_runtime.py:56-68 | A stage starts exactly when it is the next of the five, in time and within the step budget; recorded steps stay a prefix of the order. |
| AgentRuntime.AgentRun.Reserve | src/talk2data/services/agent_runtime.py:107-121 | A reservation succeeds exactly within calls, tokens and time; the reserved tokens stay the sum of all reservations. |
| AgentRuntime.LanguageRuntime.Propose | src/talk2data/services/claude_interpreter.py:74-138 | For any provider behaviour the loop ends within the call budget, every reservation has the counted size, a proposal is affordable, and the concurrency counter is restored; and a complete, affordable first reply is proposed with its tokens counted. |
| AgentRuntime.LanguageRuntime.RetryRefused | src/talk2data/services/gemini_interpreter.py:131-147 | Exactly when a failed call is repeated. |
| AgentRuntime.LanguageRuntime.ValidateResponse | src/talk2data/services/gemini_interpreter.py:150-204 | Exactly which replies become proposals, including the token accounting. |
| RuntimeSecurity.RuntimeAdmission.AdmitRate | src/talk2data/api/runtime_security.py:118-131 | Expiry, eviction, lookup and charge; the table never holds more than 1024 distinct identities. |
| RuntimeSecurity.RuntimeAdmission.Enter | src/talk2data/api/runtime_security.py:68-81 | The in-flight counter never exceeds its limit. |
| RuntimeSecurity.LimitInEachWindow | src/talk2data/api/runtime_security.py:118-131 | While the table is never full, an identity is admitted at most as often per window as the limit says. |
| RuntimeSecurity.PassedExactly | src/talk2data/api/runtime_security.py:118-131 | While the table is never full, a request passes exactly when it opens its identity's window or is among the first `limit` of it. |
| RuntimeSecurity.RecentIsKept | src/talk2data/api/runtime_security.py:118-131 | Even when the table is full, an identity's count is not forgotten within its window as long as fewer than 1023 other identities ask in between: only the least recently used go. |
| RuntimeSecurity.TwiceInAnyMinute | src/talk2data/api/runtime_security.py:118-131 | And at most twice the limit in any sixty seconds. |

## Left out

- SQL text, drivers, connection pools, lock waits and clock drift inside one transaction: a transaction is one step; SKIP LOCKED is a set of rows locked elsewhere, so no fairness among waiting runs is claimed beyond `PostgresRuns.OldestFirst`.
- Ties of `created_at`: the insertion order of run rows is taken as the claim order.
- Message texts, titles beyond their prefix, and the bodies of answers and agent reports, which are opaque.
- Signed identity, routing, HTTP error mapping and the parsing of `Last-Event-ID`: authority is an arbitrary outcome at each check, and the replay cursor is a number not beyond the journal.
- `database.validate` for release files, and its parsing of definition streams: only the state checks on conversations, runs and events are modelled; definition streams are opaque there.
- Failures of the database inside a coordinator's terminal write: a transaction commits or the process ends.
- `csv_workspace` session expiry, capacity and pruning timers, and the language question counter: they only remove or refuse whole sessions.
- Several CSV sessions sharing one coordinator are not composed: each session's contract speaks of its own pending run, and every coordinator step leaves other runs' rows alone.
- Repeated clock readings inside one governance request: one reading stands for them.
- Names and texts of definitions are compared through given case-folded forms; Unicode case folding itself is not defined here.
- Review notes, and the view of a workspace.
- NaN, infinities and rounding of floating point numbers in query results; `Opaque` cells stand for anything the checker cannot serialise.
- The demonstration and PostgreSQL connectors' own execution, whose checks do not promise complete daily groups.
- Reads of a Parquet file after it was verified; dry runs, budgets, job identity and cancellation of warehouse queries.
- Formatting of claims, headlines and suggested questions; only the numbers and keys of claims are modelled.
- JSON itself: a text is legible when it parses to its event. The replay theorems take progress texts that do not spell `event: access_lost`; `EventReplay.LossIsSpelled` says what happens to the others.
- UTF-8 decoding of chunks and the server's 20-second limit per stream, which only cuts it short.
- Prompt construction, transports and the validation of a proposal's wording; a proposal is an opaque success.
- Step durations and observer notifications of an agent run.
- Buffered request and response sizes, origins and deadlines of the public runtime.
- AgentRuntime.LanguageRuntime.Propose: models both providers in one loop, because the two loops are the same; their replies differ in `ValidateResponse`.
- DistributedWorkers.DistributedWorker.Execute: the operation does not swallow its cancellation. The polling loop, its pauses and the health flag are not modelled.
- DistributedWorkers.DistributedWorker.Others: stands for whatever other processes commit in between and promises only what every step of the protocol guarantees.
- PostgresRunStores.PostgresRunStore.Meanwhile: stands for the transactions that commit between the two of a replay and promises only what `RunProtocol.History` proves of them.
- RunStores.RunStore.constructor: requires a file whose tables are consistent, as `SqliteRuns.CommitKeeps` proves of every file a process leaves behind; a file damaged by other means is opened as well by the code, and what recovery makes of it is not described.
- SqliteEffects.CancellationIsFinal: takes transactions that pass an answer only along with COMPLETED, as the coordinator's all do (`RunCoordinator.Conclude` asks for it); the store alone would keep an answer passed along with INTERRUPTED, as `SqliteEffects.FinishEffect` says.
- RuntimeSecurity.PassedExactly: requires that the table is never full; `RuntimeSecurity.RecentIsKept` says whose window survives a full one.
- RuntimeSecurity.TwiceInAnyMinute: requires that the table is never full, because an evicted identity starts a new window.
- EventReplay.ChunkingDoesNotMatter: both ways of cutting stay within the buffer limit, which is tested per chunk and so can tell them apart.
- WatchedStores.WatchShowsTheRecord: the cursor of the request is the client's own sequence; what the client does after an error of its own is up to its caller.
