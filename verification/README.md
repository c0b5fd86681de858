# Reach: durable state and execution, modelled and proved

Reach keeps tasks, runs and candidates on disk, runs remote commands for its callers, and can move its state between a
file-and-JSON layout and one SQLite database. This project models that core and proves what it keeps.

**Tasks.** A task store has two layouts behind one helper interface. `TaskSpec` is the abstract store: every command,
with its checks in the order the code makes them. `TaskLayout` holds the two layouts and the state each denotes at a
clock value. `TaskStore` is the store class over either layout; each method refines the abstract command, and a ghost
field records every layout a crash could leave. `TaskHistory`, `TaskPending`, `TaskLeases`, `TaskTwins`, `TaskRepair` and
`TaskRefinement` prove what holds over whole runs, what a repair computes, where the layouts agree, and what a crash inside a
close leaves behind. `TaskContents` says what every command stores, field by field, and exactly when it is accepted.

**Runs and the executor.** `Runs`, `RunStore` and `RunHistory` hold the record with its four schema versions, the store
over indexed rows, and its history. `Executor` is the event loop as a state machine: one action is one piece of code
between two suspension points. `ExecutorService` is the class that takes exactly those steps; `ExecutorHistory`,
`ExecutorCancel` and `ExecutorStop` are the guarantees over whole interleavings. `RunContents` and `ExecutorSlots` say what each
step records and who gets a slot, in terms of the requests.

**Server glue.** `Reconciliation` puts the task store and run creation together: a task is marked pending before a
mutating run is created for it. `SkillFiles`, `SkillSnapshot`, `SkillCache`, `SkillQuiet` and `SkillLookup` are the skill-registry
cache: files that change between any two operations, the snapshot and its probes in the order of the code, the callers under one
lock, when what they get is current, and the locked lookup. `SkillAnswers` is the remote state they carry, and `SubmissionFlow`
where the runs of the server come from.

**Candidates, migration, parsers, transactions.** `Candidates` is the compare-and-set store. `NameOrder`, `Base64`,
`EvidenceTree`, `EvidenceTexts`, `Migration`, `Migrator`, `MigrationReach` and `MigrationCycle` are the two-way migration, what it accepts, and
the whole way from migration through service to rollback. `Registry`
and `Argv` (with `Decimal`) are the two small languages, `Transactions` the nested database scopes. `Ranking` is the order of
listings and their pages; `Paging` and `Listings` are the queries and counts of tasks, runs and candidates. `CandidateContents`,
`IndexColumns`, `RegistryContents`, `ListingContents` and `ScopeMemory` say the same in terms of fields, columns, texts and cells.

## Main results

- **What is stored.** For every command of the three stores: exactly when it is accepted, and each field of the record it stores in
  terms of the request and the record before (`UpdateStores`, `CloseStores`, `FinishStores`, `TransitionStores` and their
  neighbours); the columns of every table, in what is written, accepted and published (`LegacyAcceptedIff`,
  `DatabaseAcceptedIff`, `MigratedTasks`, `ExportedTasks`).
- **Tasks.** Both layouts answer a whole run alike exactly when every mark fits (`LayoutsAgreeIff`, `RunBoth`); a crashed close can
  be repeated after anything (`RetryAfterCrash`, `RetryAfterAnything`); repair computes exactly what `RepairExactly` says; the
  pending flag is what the accepted commands make it (`PendingIff`); grants never overlap and only the holder changes a leased
  task (`GrantsNeverOverlap`, `HolderAloneChangesContent`); one winner per revision (`OneWinnerPerRevision`).
- **The whole system.** Before a task is terminal, each of its mutating runs was created while it was open and left pending, then
  reconciled, then closed (`TerminalMeansReconciled`).
- **Runs.** The codec is lossless exactly on valid records (`CodecRoundTripIff`); an ended run is frozen and never removed while
  unsettled, and cleanup removes exactly the settled ones past their cutoff (`EndedIsFrozen`, `UnsettledIsKept`, `RemovedIff`).
- **Executor.** Slots, permits and ownership are conserved by every step (`EveryState`, `OwnedKeptIff`); when a cancellation
  succeeds (`AwaitedCancelIff`), what a stop leaves (`StopLeavesNothingIff`), and that awaiting ends (`AwaitTerminal`). Counted from the
  heavy flags of the submissions, a target never has more heavy jobs than its limit (`HeavyLimit`).
- **Candidates.** Counters are conserved and delivered candidates were approved (`CountersConserved`, `DeliveredWasApproved`).
- **Migration.** Both round trips with their exact conditions (`MigrationRoundTripIff`, `RollbackRoundTripIff`, `RebuildIff`), the
  procedures (`Migrate`, `Export.Run`), and the whole cycle (`MigrateServeRollBack`).
- **Skill registry.** A returned registry is the build of one single moment of the call as long as nobody edits a directory between
  its listing and its first probe (`QuietIsCurrent`, `ReturnedIsCurrent`, `Lookup`); a delivered snapshot shows the files of the
  moment at which its second round began exactly if every path still held, at its first probe, what was read of it (`DeliveredIff`,
  `Snapshot`).
- **Listings.** Successive pages list every match once, in order (`PagesConcatenate`, `RunPagesConcatenate`,
  `CandidatePagesConcatenate`).
- **Parsers and scopes.** `Candidates` and `ReadingIgnoresFences`; `ArgvRoundTrip` and `ArgvShape`; `OutermostDecides`.

## Where the code does less than one would hope

Each of these is a property that fails, with an input where it does and the exact condition under which it holds.

- **The layouts differ on an overfull mark.** `mark_mutation_pending` appends its notice without checking the record
  again. The database layout decodes what it writes and refuses; the file layout stores a record it cannot read back.
  The layouts answer alike on a whole run exactly when every accepted mark fits, and a mark fits exactly when fewer than
  25 other blockers stand and the purpose leaves room for the notice (`LayoutsAgreeIff`, `MarkFitsIff`,
  `OverfullMarkExample`). After an overfull mark no command can read or change that task again, `repair` fails
  while it exists, and so does any `create` whose scan reaches it.
- **Repair stops at the first task it cannot close**, in id order: one that is unreadable, or terminal with a live lease, a
  pending mutation, or content a completed task may not keep. An interrupted close is finished exactly when its task has no
  unexpired lease and no such task comes before it (`RepairExactly`, `RepairAfterCrash`, `RepairStopsEarly`). A crash
  between the rename and the unlink leaves a lease file in the archive; repair looks at the active root only, and the
  migrator refuses that state until the same close is repeated (`InterruptedCloseAcceptedIff`).
- **An update can make two open tasks equivalent.** Creation never does. A command does exactly when it is an accepted update that
  gives a task the identity of another open task (`TwinsIff`, `RenameMakesTwin`).
- **The pending flag is a reserved blocker text**, so an update can raise it too, by writing such a blocker (`PendingIff`).
- **On the socket path a run may be accepted late.** The server marks the task, and another process creates the run
  later without looking at the task. If the task was reconciled and closed in between, a mutating run appears for
  an archived task (`SocketAcceptanceCanComeLate`). It finds the task pending exactly when the flag was raised since, the
  preparation included, and not reconciled after that (`AcceptedWhilePending`). In one process the safety theorem needs no such
  condition.
- **A failed submission may leave a run without an owner.** When spawning fails after the record was created and no
  heavy slot was taken, the record stays running (`OwnedKeptIff`); a later await or restart publishes it.
- **A stop can leave a run running.** From Python 3.12 on, which the project requires, gathering jobs that are all done does not
  suspend, so the store is dropped before their completion callbacks run. A run whose job is done but not yet published then
  stays running (`StopComesTooEarly`). Nothing is left running exactly when the stop had an unfinished job to wait for or
  every done job had been published (`StopLeavesNothingIff`).
- **A cancellation that took effect is not always reported.** A second cancel of an explicitly cancelled run answers no
  (`SecondCancelSaysNo`); a run cancelled in the queue ends as lost ownership (`QueuedCancelIsLost`). A call that waits reports
  success exactly when the job was executing at the call and its execution let the cancellation through
  (`AwaitedCancelIff`).
- **An unprintable error type makes a run unreadable** in schema versions that keep a summary (`EndingKeepsValidIff`).
- **An edit between the listing of a directory and its first probe goes unnoticed.** Every directory but the root of a source is
  listed before it is probed, and the marker of the active organisation is read before it is probed, while the code takes its
  probes to cover every path that can affect the cached snapshot. The snapshot then carries the version after the edit with the
  listing before it, and a file added there is not in it. Later probes find nothing moved, so once a registry is built from the
  files the cache returns it although a file it read has changed since (`MissedEdit`). A delivered snapshot shows the files of the
  moment at which its second round began exactly if every path still held at its first probe what was read of it (`DeliveredIff`),
  and then what is built from it is current whenever the cache returns it (`ReturnedIsCurrent`). That is so if nobody edits a
  directory or the marker from the start of its first reading to its first probe (`QuietIsCurrent`).
- **Remote skill state can be older than the time to live**, since the age of a cached registry counts from the end of its build
  (`RemoteOutlivesTtl`). The bound is the time to live plus the length of that build (`ReturnedIsCurrent`).
- **Candidate files and candidate rows are listed in different orders** when one identifier is another followed by a
  dash and more. Migration and rollback then refuse, since they compare ordered snapshots (`FileOrderIff`,
  `MigrationRoundTripIff`, `RollbackRoundTripIff`).
- **Rollback needs evidence that describes a tree in canonical texts.** A stored map that omits a parent directory, spells one
  path in two ways, has a NUL in a name, or holds a text that is not canonical base64 is accepted by inspection, and the export
  refuses it (`RebuildIff`, `StrayBits`).
- **A failing inner write scope that is caught keeps its writes**, and they are committed with the outer scope
  (`CaughtScopeKeepsWrites`). A read scope is not read-only: a bare write in it is committed exactly when no other owner holds
  the lock (`ReadScopeWrites`).

## Model

| member | source | states |
|---|---|---|
| TaskSpec.ScanFindsLeast | src/hypershell_reach/tasks.py:262-290 | On readable records the duplicate search returns the least identifier among all open tasks with the same identity, and nothing exactly when there is none |
| TaskContents.CreateStores | src/hypershell_reach/tasks.py:624-672 | On readable active tasks a creation returns the least open one with the same title, objective and reference but for white space around them; otherwise it is accepted exactly if the record with the requested fields is valid, and stores that record and nothing else |
| TaskContents.UpdateStores | src/hypershell_reach/tasks.py:892-1007 | A non-closing update is accepted exactly on an open readable task, under its lease and expected revision, within the reconciliation rules, with a valid result; each field stored is the one supplied under its own name or the old one, the evidence is appended to the validation and the pending marks are dropped |
| TaskContents.CloseStores | src/hypershell_reach/tasks.py:1076-1135 | A first close is accepted exactly under the same guards, without pending marks, and if completed without next action or blockers; it stores the supplied fields, the final status and the archive time, in the archive, and ends the lease |
| TaskContents.RepeatedCloseStores | src/hypershell_reach/tasks.py:1044-1099 | A close of a committed task is accepted exactly if every field it supplies is what the record has; the record stays, in the archive |
| TaskContents.MarkStores | src/hypershell_reach/tasks.py:855-890 | A mark is accepted exactly on an open readable task under its lease, in the database if the record stays valid; it changes the blockers only: the pending ones give way to one that ends with the purpose |
| TaskContents.AcquireStores | src/hypershell_reach/tasks.py:451-504 | A lease request tells who holds a live lease, with its identifier exactly for its own executor and scope; otherwise a new lease runs from now for the seconds asked |
| TaskContents.RefreshStores | src/hypershell_reach/tasks.py:506-543 | A refresh extends exactly the live lease it names, from now; holder and start stay |
| TaskContents.ReleaseStores | src/hypershell_reach/tasks.py:545-576 | A release ends exactly the live lease it names, and is accepted when there is none |
| TaskContents.AuthorizeStores | src/hypershell_reach/tasks.py:578-597 | A check is accepted exactly if no lease is live or its own is presented; it answers the holder and changes nothing |
| TaskContents.CleanupStores | src/hypershell_reach/tasks.py:1175-1209 | Retention removes exactly the archived, final, unretained tasks archived so many days ago, in ascending order, and no other |
| TaskContents.StripTrims | src/hypershell_reach/tasks.py:250-260 | Stripping takes white space off both ends and nothing else |
| TaskLayout.ExpiredLeaseUnobservable | src/hypershell_reach/tasks.py:428-435 | Deleting an expired lease file or row leaves the state unchanged at every later clock value |
| TaskStores.TaskStore.Execute | src/hypershell_reach/tasks.py:134-1209 | Every command on either layout gives the reply and the next state of the abstract store, and only extends the sequence of durable layouts |
| TaskStores.TaskStore.Create | src/hypershell_reach/tasks.py:624-672 | Creation returns an equivalent open task if the scan finds one, else writes a valid new record, or fails and changes nothing |
| TaskStores.TaskStore.FindEquivalentOpenTask | src/hypershell_reach/tasks.py:262-290 | The directory scan and the identity-column query give the same answer |
| TaskStores.TaskStore.Update | src/hypershell_reach/tasks.py:892-1007 | An update gives the reply and next state of the abstract update, whose fields TaskContents.UpdateStores and CloseStores state, delegation of final statuses to close included |
| TaskStores.TaskStore.MarkMutationPending | src/hypershell_reach/tasks.py:855-890 | A mark refines the abstract mark of its layout, the missing re-validation of the file layout included |
| TaskStores.TaskStore.CloseTask | src/hypershell_reach/tasks.py:1022-1135 | A close refines the abstract close; on success the record is in the archive without a lease; every layout a crash could leave is one of the three stages of that close or denotes the old state |
| TaskStores.TaskStore.CommitClose | src/hypershell_reach/tasks.py:1106-1135 | A first close makes exactly three layouts durable in order: record written, directory moved, lease gone |
| TaskStores.TaskStore.ReplayClose | src/hypershell_reach/tasks.py:1052-1075 | Closing an archived task again changes no task and no live lease, and removes a left-over lease file |
| TaskStores.TaskStore.AcquireExecutionLease | src/hypershell_reach/tasks.py:451-504 | Acquisition refines the abstract rule: granted, already owned, or busy |
| TaskStores.TaskStore.RefreshExecutionLease | src/hypershell_reach/tasks.py:506-543 | Only the live lease named by the caller is extended |
| TaskStores.TaskStore.ReleaseExecutionLease | src/hypershell_reach/tasks.py:545-576 | Releasing ends the named lease, and is accepted when none is live |
| TaskStores.TaskStore.AuthorizeExecutionLease | src/hypershell_reach/tasks.py:578-597 | Checking a lease never changes what the store denotes |
| TaskStores.TaskStore.Archive | src/hypershell_reach/tasks.py:1137-1142 | Archiving is a close with the status the task already has |
| TaskStores.TaskStore.RepairAll | src/hypershell_reach/tasks.py:1144-1173 | Repair closes every terminal task still active, in order, stopping at the first failure; with nothing to repair it changes nothing |
| TaskStores.TaskStore.CleanupAll | src/hypershell_reach/tasks.py:1175-1209 | Retention removes exactly the archived, terminal, unretained tasks past the cutoff |
| TaskStores.TaskStore.CleanupDirectories | src/hypershell_reach/tasks.py:1175-1209 | The directory loop removes the same tasks as one DELETE would, and reports them in name order |
| TaskHistory.StepEntry | src/hypershell_reach/tasks.py:624-1209 | Every command moves one task by the transition relation: nothing, creation, a revision step under expectation and lease, archiving, or removal |
| TaskHistory.StepLease | src/hypershell_reach/tasks.py:428-576 | Every command moves one lease only by grant, extension by its holder, release by its holder, or the end of its task |
| TaskHistory.CommittedForever | src/hypershell_reach/tasks.py:1022-1135 | Once a final record is committed no later run of commands changes it or brings it back from the archive |
| TaskHistory.RevisionIdentifiesRecord | src/hypershell_reach/tasks.py:781-817 | Revisions never go back, and one revision of a task is one record |
| TaskHistory.OneWinnerPerRevision | src/hypershell_reach/tasks.py:953-956 | Of all callers that expect one revision of a task, in any run, at most one changes it |
| TaskHistory.PendingNeedsReconciliation | src/hypershell_reach/tasks.py:957-988 | A pending mutation is cleared, or its task archived, only after an accepted update with reconciliation evidence |
| TaskPending.PendingIff | src/hypershell_reach/tasks.py:855-988 | At every point of every run a task is open and pending exactly when an accepted mark, or an accepted update that writes a reserved blocker, raised the flag, or it was up at the start, and no reconciling update has been accepted since |
| TaskLeases.GrantsNeverOverlap | src/hypershell_reach/tasks.py:451-576 | Over whole runs no two grants of one task overlap in time, refreshes included |
| TaskLeases.HolderAloneChangesContent | src/hypershell_reach/tasks.py:437-449 | Whenever the content of a task changes while a lease is live, the command is an update, mark or close that presents that lease |
| TaskLeases.LeasesNeverChangeContent | src/hypershell_reach/tasks.py:428-597 | Acquiring, refreshing, releasing, checking or losing a lease changes no task |
| TaskRefinement.LayoutsAgreeIff | src/hypershell_reach/tasks.py:316-365 | Both layouts give equal replies to a whole run, and equal final states, exactly when every accepted mark fits |
| TaskRefinement.MarkFitsIff | src/hypershell_reach/tasks.py:855-890 | An accepted mark fits exactly when fewer than 25 other blockers stand and the purpose is short enough |
| TaskRefinement.OverfullMarkIsPermanent | src/hypershell_reach/tasks.py:599-622 | An unreadable task in the file layout is never read, changed or removed by any later run |
| TaskRefinement.UnreadableStopsRepair | src/hypershell_reach/tasks.py:1144-1173 | One unreadable active record makes repair fail |
| TaskRefinement.UnreadableStopsCreate | src/hypershell_reach/tasks.py:262-290 | A duplicate search that reaches an unreadable record fails |
| TaskRefinement.OverfullMarkExample | src/hypershell_reach/tasks.py:76-76 | A concrete run from the empty store on which the layouts part |
| TaskRefinement.RetryAfterCrash | src/hypershell_reach/tasks.py:1022-1135 | After a crash at any durable step, the same request returns the committed record and ends in the state of an undisturbed close |
| TaskRefinement.RepairAfterCrash | src/hypershell_reach/tasks.py:1144-1173 | Repair after a crash inside a close: before the rename the task reaches the record and location of the original request exactly when it has no unexpired lease and repair stops at no smaller active task, and else keeps the committed record active; after the rename nothing is left to finish |
| TaskRepair.RepairExactly | src/hypershell_reach/tasks.py:1144-1173 | Repair archives exactly the terminal active tasks before the first one it stops at, each with its final record; every other task and every live lease stays; it is accepted exactly when nothing stops it, and then reports what it closed in order |
| TaskRepair.CloseForRepair | src/hypershell_reach/tasks.py:1079-1135 | The close that repair asks for fails exactly on unreadable tasks, live leases, pending mutations and completed tasks that still carry a next action or blockers |
| TaskRepair.AcceptedRepairIsComplete | src/hypershell_reach/tasks.py:1144-1173 | An accepted repair leaves no terminal task active |
| TaskRepair.RepairStopsEarly | src/hypershell_reach/tasks.py:1155-1171 | A concrete state in which a leased smaller task keeps an unleased interrupted close unfinished |
| TaskTwins.TwinsIff | src/hypershell_reach/tasks.py:892-1007 | A command makes two open tasks equivalent exactly when it is an accepted update that gives a task the identity of another open task |
| TaskTwins.NeverTwins | src/hypershell_reach/tasks.py:624-672 | Over a run without such updates no two open tasks are ever equivalent |
| TaskTwins.RenameMakesTwin | src/hypershell_reach/tasks.py:892-1007 | A concrete rename that makes two open tasks equivalent |
| TaskRefinement.RetryAfterAnything | src/hypershell_reach/tasks.py:1022-1135 | Crash, then any run of other commands: unless retention removed the task, the repeated request returns the committed record, its revision one above the original |
| TaskRefinement.NoLeaseForFinal | src/hypershell_reach/tasks.py:451-543 | After a final record is committed, no command gives the task a lease other than the one the close was made under |
| TaskRefinement.RunCommands | src/hypershell_reach/tasks.py:134-1209 | A store of either layout answers any timed run as the abstract store and ends in its state |
| TaskRefinement.RunBoth | src/hypershell_reach/tasks.py:198-449 | A file store and a database store that start alike reply alike to a run exactly when every mark fits |
| Reconciliation.TerminalMeansReconciled | src/hypershell_reach/server.py:515-616 | In every in-process interleaving, each mutating run of a terminal task was created while the task was open and left it pending; later a reconciling update was accepted, and only then was the task closed |
| Reconciliation.AcceptedWhilePending | src/hypershell_reach/server.py:458-461 | On the socket path the run finds its task open and pending exactly when some command accepted since the preparation, that one included, raised the flag and no reconciling update has been accepted after it |
| Reconciliation.SocketAcceptanceCanComeLate | src/hypershell_reach/server.py:458-461 | A concrete trace: prepare, reconcile, close, accept leaves a mutating run on an archived task |
| SubmissionFlow.PreparationMarks | src/hypershell_reach/server.py:515-532 | A preparation goes through exactly on an open readable task, under its lease and with a mark that fits if it mutates, and then marks that task with its own purpose |
| SubmissionFlow.SegmentRecords | src/hypershell_reach/server.py:1655-1724 | Which segments record a run, and with which submission |
| SubmissionFlow.SubmissionsConserved | src/hypershell_reach/server.py:458-461 | On the socket no submission is lost or doubled: what was sent is waiting or was received |
| SubmissionFlow.RunIsSubmission | src/hypershell_reach/server.py:1655-1724 | Every run stands for the submission of the segment that recorded it |
| Runs.CodecRoundTripIff | src/hypershell_reach/runs.py:141-206 | Parsing what is serialised gives the record back exactly when the record is valid for its own schema version |
| Runs.ParseIsStable | src/hypershell_reach/runs.py:293-304 | Whatever was parsed can be written and parsed again without change |
| Runs.Bounded | src/hypershell_reach/runs.py:69-73 | Summaries never exceed the limit, short ones are untouched, long ones keep their beginning |
| Runs.EndingNeverTruncated | src/hypershell_reach/runs.py:107-121 | The notice about a run ended without result always fits, and is printable exactly when the error type is |
| Runs.EndingKeepsValidIff | src/hypershell_reach/runs.py:644-670 | Ending a run without result keeps it valid exactly when its version keeps no summary or the clipped error type is printable |
| RunContents.StartStores | src/hypershell_reach/runs.py:454-494 | A start is accepted exactly if purpose and reference are single printable lines and the timeout is in bounds; the run recorded has every field of its request, is running since now, and has no result |
| RunContents.FinishStores | src/hypershell_reach/runs.py:601-633 | A result is accepted exactly for a readable running run; exit code, timeout, duration, and bytes and truncation of each stream are the execution's own, the summary names them, the request is unchanged, and the record reads back |
| RunContents.EndStores | src/hypershell_reach/runs.py:644-670 | A run ended without a result records the status, now, and at most 200 characters of the error type, with the notice about it; one that ended before is returned as it is |
| RunContents.ReconcileStores | src/hypershell_reach/runs.py:679-688 | A restart ends each running run of the modes it owns, under the name of its mode, and touches no other |
| RunContents.RetainStores | src/hypershell_reach/runs.py:672-677 | Retaining sets one flag of one readable run |
| RunContents.CleanupStores | src/hypershell_reach/runs.py:690-702 | Cleanup removes exactly the unretained certain runs that ended so many days ago, in ascending order |
| RunContents.PayloadKeys | src/hypershell_reach/runs.py:293-304 | Each schema version writes exactly the keys it knows, each with its own field |
| RunContents.PayloadReads | src/hypershell_reach/runs.py:141-206 | A payload reads as a record exactly if that has its fields, defaults for missing keys, trimmed lines, and is valid |
| RunStores.RunStore.Execute | src/hypershell_reach/runs.py:454-702 | Every command over indexed rows takes the abstract step |
| RunStores.RunStore.Get | src/hypershell_reach/runs.py:496-506 | A read returns the stored record, or an error for an unknown or unreadable one |
| RunStores.RunStore.Put | src/hypershell_reach/runs.py:327-342 | Payload and columns are written together and no other run changes |
| RunStores.RunStore.FinishRun | src/hypershell_reach/runs.py:601-633 | A result is recorded for a running run only; any other call is refused without change |
| RunStores.RunStore.FinishWithoutExecution | src/hypershell_reach/runs.py:644-670 | Ending an ended run returns it unchanged |
| RunStores.RunStore.ReconcileIncomplete | src/hypershell_reach/runs.py:679-688 | The loop over running rows interrupts exactly the owned modes at once, and counts them |
| RunStores.RunStore.Cleanup | src/hypershell_reach/runs.py:690-702 | The column filter deletes exactly the settled runs past the cutoff, in order |
| RunHistory.EveryStateWf | src/hypershell_reach/runs.py:601-670 | In every reachable state a run is ambiguous exactly when it may mutate and its status is ambiguous, it has an end exactly when it is not running, and its times are ordered |
| RunHistory.EndedIsFrozen | src/hypershell_reach/runs.py:601-677 | Once a run has ended nothing but its retained flag ever changes |
| RunHistory.EndsOnce | src/hypershell_reach/runs.py:601-670 | A run leaves the running status at most once in any history |
| RunHistory.UnsettledIsKept | src/hypershell_reach/runs.py:690-702 | No history ever loses an interrupted or unknown run, or a mutating one that timed out or lost its transport |
| RunHistory.RemovedIff | src/hypershell_reach/runs.py:690-702 | A run that was stored is gone at a later point of a history exactly when some cleanup in between found it ended with a certain outcome, unretained and past its cutoff |
| RunHistory.OwnersAreDisjoint | src/hypershell_reach/runs.py:679-688 | Sync and async reconciliation touch disjoint runs and commute |
| RunHistory.NothingLeftRunning | src/hypershell_reach/runs.py:679-688 | After reconciliation nothing of the owned modes is running |
| RunHistory.StaysReadable | src/hypershell_reach/runs.py:644-670 | With printable error types every record of every reachable state can be read |
| Executor.LocksKept | src/hypershell_reach/executor.py:288-359 | Every event-loop step keeps the lock table equal to the leases plus other owners' slots, with one holder each and acquisitions equal to releases plus leases held |
| Executor.PermitsKept | src/hypershell_reach/executor.py:383-405 | Free permits plus jobs holding one always equal the configured concurrency |
| Executor.QueueKept | src/hypershell_reach/executor.py:321-330 | A finished job always has its completion callback queued ahead of everyone waiting for it |
| Executor.RunsKept | src/hypershell_reach/executor.py:288-405 | Each job stands for an async run, and that run is running until the job is done |
| Executor.OwnedKeptIff | src/hypershell_reach/executor.py:288-344 | Exactly the submissions that fail to spawn without a heavy slot leave a running async run without owner; no other step ever does |
| Executor.StartInv | src/hypershell_reach/executor.py:85-95 | A new process starts with every async run owned or ended |
| Executor.EveryState | src/hypershell_reach/executor.py:85-405 | The invariants hold after every step of every interleaving |
| ExecutorSlots.SubmissionSlots | src/hypershell_reach/executor.py:288-344 | A submission is accepted exactly if its checks pass, nothing fails and, for a heavy one on a limited target, some slot is free: it takes the first; every other submission leaves the slots as they were |
| ExecutorSlots.FailedSubmission | src/hypershell_reach/executor.py:329-339 | What a failed submission leaves in the store: nothing before the record exists, then an unknown outcome if it had a slot, else a running run |
| ExecutorSlots.HeavyHoldsSlot | src/hypershell_reach/execution.py:30-52 | In every history each accepted heavy submission on a limited target holds a locked slot of it for as long as its job is in the table |
| ExecutorSlots.HeavyLimit | src/hypershell_reach/execution.py:30-52 | Counted from the heavy flags of the submissions, a limited target never has more heavy jobs than its limit |
| ExecutorSlots.ExecutionPublishes | src/hypershell_reach/executor.py:383-405 | What an execution that ends records: its status, or the name of what it raised, or the reason of its cancellation; no other step of a job writes a run |
| ExecutorSlots.CompletionPublishes | src/hypershell_reach/executor.py:346-359 | The completion callback publishes a run nobody published as lost, frees its slot, and removes its job and nothing else |
| ExecutorSlots.CancellationPublishes | src/hypershell_reach/executor.py:361-381 | A cancellation publishes at once exactly where no job can, and otherwise leaves its reason, asks the job to stop, and waits |
| ExecutorSlots.RestartPublishes | src/hypershell_reach/executor.py:85-95 | A new process interrupts what the last one left running asynchronously, and nothing else |
| ExecutorSlots.BeginsExecution | src/hypershell_reach/executor.py:383-385 | A job that nobody asked to stop begins to execute exactly when it was granted a permit or finds one free |
| ExecutorSlots.PermitPasses | src/hypershell_reach/executor.py:383-405 | The permit of an execution that ends passes to the waiter that is woken, or back to the pool |
| ExecutorHistory.TargetLimit | src/hypershell_reach/execution.py:30-52 | A limited target never has more heavy runs at once than its limit |
| ExecutorHistory.ConcurrencyLimit | src/hypershell_reach/executor.py:383-405 | At most the configured number of executions hold a permit at once |
| ExecutorHistory.IdleHoldsNothing | src/hypershell_reach/executor.py:346-359 | An executor without jobs holds no slot, has released all it acquired, has every permit back, and runs nothing |
| ExecutorHistory.TerminalForever | src/hypershell_reach/executor.py:346-405 | No executor step changes a run that has ended |
| ExecutorCancel.CancelAnswersIff | src/hypershell_reach/executor.py:361-381 | A cancel call answers only with the status of an ended run, and says cancelled exactly when it had to wait and the run is recorded as explicitly cancelled |
| ExecutorCancel.AwaitedCancelIff | src/hypershell_reach/executor.py:361-405 | A call that waits reports success exactly when the job was already executing at the call and its execution then ended by letting the cancellation through |
| ExecutorCancel.ExplicitCancelSucceeds | src/hypershell_reach/executor.py:396-399 | Once an execution gave up under an explicit request its run is and stays explicitly cancelled |
| ExecutorCancel.SecondCancelSaysNo | src/hypershell_reach/executor.py:365-366 | Cancelling an explicitly cancelled run again answers at once that it was not cancelled |
| ExecutorCancel.QueuedCancelIsLost | src/hypershell_reach/executor.py:383-385 | A run cancelled while queued never ends as explicitly cancelled, in any continuation |
| ExecutorCancel.QueuedCancelAnswers | src/hypershell_reach/executor.py:361-381 | No later cancel call on such a run answers cancelled |
| ExecutorStop.StopLeavesNothingIff | src/hypershell_reach/executor.py:142-159 | When a stop with no later submission is over, no async run is left running exactly when the stop had an unfinished job to wait for or the run of every finished job had been published |
| ExecutorStop.StopReleasesAll | src/hypershell_reach/executor.py:346-359 | After a stop, once the queued callbacks have run, no job, slot or permit is held, whichever way the stop went |
| ExecutorStop.StopComesTooEarly | src/hypershell_reach/executor.py:148-159 | A concrete trace: a run cancelled in the queue, then a stop before its completion callback, stays running for good |
| ExecutorHistory.StopCompletes | src/hypershell_reach/executor.py:148-159 | At every point of every run, a stop that waits still has a job that will wake it: with no job and no queued callback no stop is left waiting |
| ExecutorHistory.RunsProject | src/hypershell_reach/executor.py:396-405 | The executor's record updates are the run store's, seen through mode, status and error type |
| ExecutorServices.ExecutorService.constructor | src/hypershell_reach/executor.py:85-95 | Starting reconciles async runs and owns nothing |
| ExecutorServices.ExecutorService.AcquireExecutionLease | src/hypershell_reach/execution.py:30-52 | A heavy run on a limited target takes the first free slot of it, or is refused exactly when all are locked; any other run takes none |
| ExecutorServices.ExecutorService.SubmitRun | src/hypershell_reach/executor.py:288-344 | Submission, with its three failure points, takes exactly the submission step |
| ExecutorServices.ExecutorService.Execute | src/hypershell_reach/executor.py:383-405 | Resuming an execution coroutine takes exactly the job step |
| ExecutorServices.ExecutorService.ReconcileCompletedTask | src/hypershell_reach/executor.py:346-359 | The completion callback publishes lost ownership if nothing was published, and releases what the job held |
| ExecutorServices.ExecutorService.RunNext | src/hypershell_reach/executor.py:321-381 | The front callback is run and answers as the state machine does |
| ExecutorServices.ExecutorService.CancelRun | src/hypershell_reach/executor.py:361-381 | A cancellation up to its first await takes exactly the cancel step |
| ExecutorServices.ExecutorService.StopService | src/hypershell_reach/executor.py:142-159 | A stop up to its first suspension cancels every job; with unfinished jobs it gathers them, with none it drops the store at once |
| ExecutorServices.ExecutorService.Perform | src/hypershell_reach/executor.py:64-405 | Any event keeps the invariants and takes the state machine's step |
| ExecutorServices.ExecutorService.Yield | src/hypershell_reach/executor.py:211-214 | Yielding once lets every done job publish its run, whatever other events come between the callbacks |
| ExecutorServices.ExecutorService.AwaitTerminal | src/hypershell_reach/executor.py:172-250 | Awaiting ends by its deadline, reports terminal exactly when the status is not running, names the owner or its loss, and fails only without a store or a run |
| Candidates.CandidateStore.Perform | src/hypershell_reach/candidates.py:339-563 | Every operation over indexed rows decides and changes as the abstract store |
| Candidates.CandidateStore.CreateGenerated | src/hypershell_reach/candidates.py:352-368 | The allocation loop takes the first free generated identifier of at most 32 |
| Candidates.CandidateStore.Put | src/hypershell_reach/candidates.py:297-309 | An invalid record is refused without change; a valid one is stored with its columns |
| Candidates.CandidateStore.GetCurrent | src/hypershell_reach/candidates.py:389-396 | A read at an expected revision returns the stored valid candidate under its own identifier |
| CandidateContents.NamedStores | src/hypershell_reach/candidates.py:370-387 | A named creation is accepted exactly for a free valid name and a valid draft; the candidate carries its draft and nothing else |
| CandidateContents.GeneratedStores | src/hypershell_reach/candidates.py:352-368 | Without a name the first free one of at most 32 drawn identifiers is taken, exactly if there is one and the draft is valid |
| CandidateContents.UpdateStores | src/hypershell_reach/candidates.py:418-456 | An update is accepted exactly at the expected revision, without a change of the recurrence count, with a valid result; each supplied field is stored under its own name and the others stay |
| CandidateContents.OccurrenceStores | src/hypershell_reach/candidates.py:458-484 | An occurrence raises the recurrence count by one and changes nothing else of the content |
| CandidateContents.TransitionStores | src/hypershell_reach/candidates.py:486-529 | A transition follows the lifecycle table, needs a reference exactly for a delivered target, and stores target, reason and reference only |
| CandidateContents.LinkStores | src/hypershell_reach/candidates.py:531-563 | A link is accepted exactly for an approved or blocked candidate and stores its task only; repeating it changes nothing |
| Candidates.EveryStateWf | src/hypershell_reach/candidates.py:159-170 | Every reachable candidate satisfies the lifecycle validator and has ordered times |
| Candidates.CountersConserved | src/hypershell_reach/candidates.py:418-563 | Over any stretch of any history the revision grows by the accepted changes and the recurrence count by the accepted occurrences |
| Candidates.CreatedAtOne | src/hypershell_reach/candidates.py:339-387 | A new candidate has a fresh identifier and starts both counters at one |
| Candidates.OneWinnerPerRevision | src/hypershell_reach/candidates.py:432-435 | At most one accepted change names any one revision |
| Candidates.FinalForever | src/hypershell_reach/candidates.py:182-189 | A final state is never left and keeps its reference |
| Candidates.ReferenceIffDelivered | src/hypershell_reach/candidates.py:165-169 | A final reference exists exactly for implemented or automated candidates |
| Candidates.DeliveredWasApproved | src/hypershell_reach/candidates.py:182-189 | A candidate that became implemented or automated was approved at some point on the way |
| NameOrder.FileOrderIff | src/hypershell_reach/persistence_migration.py:186-186 | Two identifiers keep their order as file names exactly when neither extends the other with a dash |
| NameOrder.ListingsAgreeIff | src/hypershell_reach/persistence_migration.py:186-220 | Listing files and listing rows agree exactly when no identifier extends another with a dash |
| NameOrder.LessIff | src/hypershell_reach/persistence_migration.py:186-186 | The order of names is the dictionary order of code points |
| EvidenceTree.KeyRoundTrip | src/hypershell_reach/persistence_migration.py:178-182 | Parsing a path text gives the path back, for files and for directories |
| Base64.DecodeEncode | src/hypershell_reach/persistence_migration.py:181-181 | Decoding what was encoded gives the bytes back |
| Base64.Vectors | src/hypershell_reach/persistence_migration.py:181-181 | The alphabet and the padding, on the test vectors of section 10 of RFC 4648 |
| Base64.CanonicalIff | src/hypershell_reach/persistence_migration.py:382-382 | The texts that come back unchanged from decoding and encoding are exactly the ones the encoder writes |
| Base64.StrayBits | src/hypershell_reach/persistence_migration.py:382-382 | A text outside the alphabet is refused, and one with stray low bits is decoded but written back differently |
| EvidenceTexts.FlattenClosed | src/hypershell_reach/persistence_migration.py:172-182 | What inspection records of a tree is always a map in canonical texts that describes a tree |
| EvidenceTree.RebuildIff | src/hypershell_reach/persistence_migration.py:374-385 | In any order, rebuilding a map of contents and flattening it again gives the map back exactly when its keys are canonical, closed under parents and free of NUL |
| EvidenceTexts.RebuildIff | src/hypershell_reach/persistence_migration.py:374-385 | In any order, decoding and rebuilding a stored map and recording it again gives the map back exactly when its texts are canonical base64 and its contents describe a tree |
| EvidenceTexts.EvidenceRoundTrip | src/hypershell_reach/persistence_migration.py:374-385 | Flattening and rebuilding gives every tree back, empty directories included |
| Migration.MigrationRoundTripIff | src/hypershell_reach/persistence_migration.py:269-324 | For every accepted legacy state the built database is accepted with the same contents, and its inspection is equal exactly when no candidate identifier extends another with a dash |
| Migration.RollbackRoundTripIff | src/hypershell_reach/persistence_migration.py:342-406 | For every accepted database the export is accepted with the same contents, and its inspection is equal exactly when all stored evidence describes trees in canonical texts and no candidate identifier extends another with a dash |
| IndexColumns.LegacyAcceptedIff | src/hypershell_reach/persistence_migration.py:48-201 | A legacy state is accepted exactly if every run row has a readable payload, the status, task, mode, retained, ambiguous and end of its record, and ordered times, and every directory and candidate file is in order |
| IndexColumns.DatabaseAcceptedIff | src/hypershell_reach/persistence_migration.py:204-249 | A database is accepted exactly if every column of every table is the field of the record beside it, and records, times, lifecycle and authority are in order |
| IndexColumns.MigratedRuns | src/hypershell_reach/persistence_migration.py:269-324 | Each published run row has the record of its legacy row, and its columns |
| IndexColumns.MigratedTasks | src/hypershell_reach/persistence_migration.py:269-324 | A migration publishes exactly the legacy tasks, leases and candidates, each under its own key and with its columns |
| IndexColumns.ExportedRuns | src/hypershell_reach/persistence_migration.py:342-366 | Each exported run row has the record of its database row, and its columns |
| IndexColumns.ExportedTasks | src/hypershell_reach/persistence_migration.py:367-400 | A rollback publishes exactly the tasks, leases and candidates of the database, each directory in its root with its lease |
| IndexColumns.StoredRunColumns | src/hypershell_reach/runs.py:327-342 | Every row the run store writes has the columns of its record |
| IndexColumns.StoredTaskColumns | src/hypershell_reach/tasks.py:316-335 | Every row the task store writes has the columns of its record |
| IndexColumns.StoredLeaseColumns | src/hypershell_reach/tasks.py:367-402 | Every lease row has the executor and the expiry of its lease |
| IndexColumns.StoredCandidateColumns | src/hypershell_reach/candidates.py:297-309 | Every row the candidate store writes has the columns of its record |
| Migrator.InspectSource | src/hypershell_reach/persistence_migration.py:116-201 | Reading root after root succeeds exactly on acceptable legacy states, with their snapshot |
| Migrator.InspectFile | src/hypershell_reach/persistence_migration.py:204-249 | Reading table after table succeeds exactly on acceptable databases, with their snapshot less the evidence of removed tasks |
| Migrator.ReadRoot | src/hypershell_reach/persistence_migration.py:143-182 | The directory walk refuses exactly the roots with an unacceptable or repeated task |
| Migrator.Destination.Migrate | src/hypershell_reach/persistence_migration.py:269-324 | Migration publishes exactly when the sources are acceptable and unchanged and the orders agree; any failure leaves the destination as it was and no staging file |
| Migrator.Destination.MigrateTwice | src/hypershell_reach/persistence_migration.py:273-282 | A second migration of unchanged sources changes nothing and returns the same snapshot |
| Migrator.RebuildEvidence | src/hypershell_reach/persistence_migration.py:374-385 | The loop over stored entries builds the tree they describe, or fails where two entries clash |
| Migrator.WriteTasks | src/hypershell_reach/persistence_migration.py:370-387 | One directory per task goes to its root; it fails exactly when some evidence cannot be decoded and rebuilt |
| Migrator.Export.Run | src/hypershell_reach/persistence_migration.py:342-409 | Export publishes exactly when the database is acceptable, the target is free, the evidence describes trees in canonical texts and the orders agree; otherwise nothing is published |
| MigrationReach.EverythingProducedIsAccepted | src/hypershell_reach/persistence_migration.py:204-249 | A database in the state the three stores keep is accepted whole |
| MigrationReach.Serve | src/hypershell_reach/persistence_migration.py:55-98 | Each request to one of the stores keeps all three tables in that state |
| MigrationReach.ServeAll | src/hypershell_reach/persistence_migration.py:204-249 | After any sequence of requests to the three stores the shared database is accepted |
| MigrationReach.ServeNew | src/hypershell_reach/database.py:84-119 | Whatever is asked of a newly created database, inspection takes its tables once the candidate authority is recorded, and refuses it before |
| MigrationReach.AcceptedIsGood | src/hypershell_reach/persistence_migration.py:204-249 | The stores can take over any database the migrator accepts whose run payloads are in written form and in which nothing is dated in the future |
| MigrationCycle.MigratedIsGood | src/hypershell_reach/persistence_migration.py:269-324 | The database a migration publishes is in the state the stores keep |
| MigrationCycle.MigrateServeRollBack | src/hypershell_reach/persistence_migration.py:269-409 | Migrate, serve any requests to the three stores, roll back: the rollback succeeds exactly when no candidate identifier then extends another with a dash, and what it publishes reads as the database does |
| MigrationReach.InterruptedCloseAcceptedIff | src/hypershell_reach/persistence_migration.py:158-171 | What a crash inside a first close leaves is accepted exactly when the directory was moved and carries no lease file |
| SkillCache.ReturnedIsCurrent | src/hypershell_reach/server.py:720-783 | Under any interleaving of callers with edits between any two file operations, reconfigurations and time: a returned registry is the build of the files of one single moment of the call if the snapshot it was built from, and every one it was carried over to, still held at each first probe what was read. Its configuration is the one that still holds, and its remote state is younger than the time to live plus the length of its build, in every case |
| SkillQuiet.QuietIsCurrent | src/hypershell_reach/server.py:720-783 | A returned registry is the build of one single moment of the call in every interleaving in which nobody edits a path from the start of its first reading to its first probe |
| SkillQuiet.DeliveredIff | src/hypershell_reach/skills.py:240-501 | A snapshot whose second round finds nothing moved is what discovery reads from the files of the moment at which that round began exactly if every path still held at its first probe what was read of it |
| SkillQuiet.MissedEdit | src/hypershell_reach/skills.py:250-255 | A concrete trace: an edit between a listing and the first probe, then an in-place edit, after which a cache hit returns the build of no moment of its call |
| SkillQuiet.SelfFaithful | src/hypershell_reach/skills.py:364-501 | The assumptions made of snapshots and builds can be met for every reading program |
| SkillCache.EveryState | src/hypershell_reach/server.py:728-783 | The cache invariant holds after every event, with the probes and listings of a snapshot in the order of the code |
| SkillCache.RemoteOutlivesTtl | src/hypershell_reach/server.py:774-777 | A concrete trace in which a cache hit returns remote state 89 seconds old against a time to live of 60 |
| SkillCache.OneBuildAtATime | src/hypershell_reach/server.py:747-783 | At most one build runs at a time |
| SkillCache.BuildsPerCall | src/hypershell_reach/server.py:765-783 | A call starts at most two builds, and a refresh returns the result of a build that started after it was asked for |
| SkillAnswers.ReturnedAnswers | src/hypershell_reach/server.py:720-745 | A returned registry has one answer for each remote source of its configuration, each given by a remote host, as it is and at its time |
| SkillSnapshot.Files.HashFile | src/hypershell_reach/skills.py:353-361 | A hash is delivered only if the file did not change between the two probes, with edits possible before, during and after the read |
| SkillSnapshot.Files.ListThenProbe | src/hypershell_reach/skills.py:250-255 | A listing is what the directory holds when it is first probed, if nobody edits the directory in between |
| SkillSnapshot.Files.ReadAll | src/hypershell_reach/skills.py:417-489 | The discovery reads what its plan asks for in the order of the code and keeps the first probe of each path; what a path held then, it holds as long as it is at that version. With nobody editing it succeeds exactly within the limits on hashed files, their bytes and probed paths |
| SkillSnapshot.Files.Recheck | src/hypershell_reach/skills.py:487-497 | If every path is found as first probed, all were so, and held what they held then, at the moment the second round began; if not, some path has moved |
| SkillSnapshot.Files.Snapshot | src/hypershell_reach/skills.py:364-501 | A delivered snapshot is what discovery reads from the files of the moment at which its second round began exactly if every path still held at its first probe what was read of it; with nobody editing one is delivered exactly within the limits |
| SkillSnapshot.Files.Build | src/hypershell_reach/skills.py:578-661 | What an unprobed build reads of any path that has not moved since its first probe is what the path held then; with nobody editing it reads the files as they are |
| SkillLookup.RegistryCache.Lookup | src/hypershell_reach/server.py:747-783 | The locked lookup returns a registry from the cache or after at most two builds, or raises, at any point, without replacing the cached one; what it returns is the build of the files of one single moment of the call if its snapshot, and the earlier ones of a registry that was not built anew, were settled: each path still held at its first probe what was read. With nobody interfering a cached registry that may be reused is returned without a build, and a lookup of readable files succeeds |
| SkillLookup.RegistryCache.Renew | src/hypershell_reach/server.py:757-764 | From a new snapshot the cached registry is carried over if the fingerprint is the old one, and rebuilt otherwise |
| SkillLookup.RegistryCache.Attempt | src/hypershell_reach/server.py:767-778 | One build is kept exactly if the configuration is the one it began with and nothing moved; its answers are those of the remote hosts, one for each source |
| SkillLookup.RegistryCache.BuildFrom | src/hypershell_reach/server.py:767-783 | The retry loop keeps a build only if the configuration and every path of its snapshot are as they were before the build; the result is the build of one moment if that snapshot is settled |
| Registry.ToolingRegistry.Candidates | src/hypershell_reach/tooling_registry.py:50-136 | One pass over the lines gives the declarative reading: drop fenced blocks, split at headings, judge the entries in order |
| Registry.ToolingRegistry.FinishEntry | src/hypershell_reach/tooling_registry.py:64-110 | Finishing an entry admits it, skips it, or raises the error of its judgement |
| Registry.ProcessOkIff | src/hypershell_reach/tooling_registry.py:68-110 | A document is accepted exactly when its identifiers are distinct and each entry is acceptable; the candidates come in document order |
| Registry.ListedIffPromoted | src/hypershell_reach/tooling_registry.py:72-101 | A document lists an identifier exactly when it has an entry of that identifier that is promoted, in an allowed status, with a reason and a helper |
| RegistryContents.Judged | src/hypershell_reach/tooling_registry.py:64-110 | An entry is faulty exactly if it has no known status, an unknown promotion, or a promotion that cannot be made; a promoted one is listed with status, reason and helper each from its own field |
| RegistryContents.ListedDescribes | src/hypershell_reach/tooling_registry.py:64-136 | The list describes the promoted entries one by one, in document order |
| RegistryContents.HeadingIff | src/hypershell_reach/tooling_registry.py:122-130 | A heading is read exactly from hashes, a valid identifier, a dash and a title that starts at once |
| RegistryContents.FieldIff | src/hypershell_reach/tooling_registry.py:131-133 | A field is read exactly from a bold name with a colon and the value after it, both trimmed |
| RegistryContents.FenceIff | src/hypershell_reach/tooling_registry.py:113-120 | A fence line is three backticks or three tildes after white space only |
| Registry.FailsOnceAll | src/hypershell_reach/tooling_registry.py:122-127 | Failing at the first bad entry gives the error of reading the whole document |
| Registry.FencedBlockVanishes | src/hypershell_reach/tooling_registry.py:113-120 | A closed fenced block has no effect, whatever it contains, other markers included |
| Registry.UnclosedFenceSwallows | src/hypershell_reach/tooling_registry.py:113-120 | A fence that is never closed swallows the rest of the document |
| Registry.ReadingIgnoresFences | src/hypershell_reach/tooling_registry.py:112-136 | Parsing a text gives the result of parsing its unfenced lines |
| Argv.ValidateScriptArguments | src/hypershell_reach/managed_tools.py:345-417 | The nested loops produce the declarative encoding or its first error |
| Argv.ArgvRoundTrip | src/hypershell_reach/managed_tools.py:375-417 | Decoding an accepted argv gives every argument back, except that an empty list reads as absent |
| Argv.ArgvInjective | src/hypershell_reach/managed_tools.py:375-417 | Two accepted argument maps with one argv differ at most in empty lists |
| Argv.ArgvShape | src/hypershell_reach/managed_tools.py:345-417 | An accepted argv is flag and value pairs in declaration order and every value meets its declared bounds |
| Argv.ArgvAcceptedIff | src/hypershell_reach/managed_tools.py:345-417 | Arguments are accepted exactly if all are declared, every required one is given, and each is of its kind and within its declared or default bounds |
| Argv.FlagSpelled | src/hypershell_reach/managed_tools.py:380-380 | A flag is two dashes and the name with a dash for each underscore |
| Decimal.IntRoundTrip | src/hypershell_reach/managed_tools.py:401-401 | Reading the decimal text of an integer gives the integer back, negative ones included |
| Transactions.ReachDatabase.Enter | src/hypershell_reach/database.py:122-154 | A scope joins its own owner's open scope or begins a transaction, immediate for a write scope and deferred for a read scope; a write scope inside a read scope and a held write lock are refused |
| Transactions.ReachDatabase.Leave | src/hypershell_reach/database.py:145-162 | Only the outermost scope commits or rolls back |
| Transactions.ReachDatabase.Run | src/hypershell_reach/database.py:122-163 | Nested scopes over the class's fields behave as the meaning given to programs |
| Transactions.NestedScopesVanish | src/hypershell_reach/database.py:134-140 | Inside a scope, a program and its form without scopes make the same writes, reads and failures |
| Transactions.OutermostDecides | src/hypershell_reach/database.py:122-163 | An outermost scope commits all that was written inside it, nested scopes included, or nothing |
| ScopeMemory.WriteScopeIsMemory | src/hypershell_reach/database.py:122-163 | An outermost write scope reads and writes as a plain memory that starts from what is committed, and commits all of it or nothing |
| Transactions.CaughtScopeKeepsWrites | src/hypershell_reach/database.py:134-140 | A caught failure of an inner write scope keeps its writes for the outer commit |
| Transactions.NoUpgrade | src/hypershell_reach/database.py:134-139 | In a read scope no program depends on what stands inside its write scopes: none of it is ever done |
| Transactions.ReadScopeWrites | src/hypershell_reach/database.py:149-156 | A bare write in a read scope is carried out and committed exactly when no other owner holds the lock |
| Transactions.ViewIsKept | src/hypershell_reach/database.py:153-156 | From its first statement on, a transaction that does not write keeps its view, whatever others commit |
| Transactions.StaleWriteRefused | src/hypershell_reach/database.py:153-156 | A transaction that has read, and finds another write committed since, cannot write |
| Transactions.InheritedScopeIsNotJoined | src/hypershell_reach/database.py:130-134 | A child task or thread neither sees nor adds to the uncommitted writes of an inherited scope |
| Paging.Query | src/hypershell_reach/tasks.py:1227-1260 | A page of either layout is the corresponding piece of the sorted list of all matching tasks |
| Paging.Count | src/hypershell_reach/tasks.py:1280-1292 | Both the paging loop over files and the row count return the number of matching tasks |
| Paging.ListedExactly | src/hypershell_reach/tasks.py:1227-1260 | Every matching task is listed exactly once, in order, and nothing else is |
| ListingContents.TasksListed | src/hypershell_reach/tasks.py:1211-1260 | A task query lists each task whose fields meet the filter once, by the field asked for and then the identifier, and nothing else |
| Paging.PagesConcatenate | src/hypershell_reach/tasks.py:1227-1292 | The answers to successive page requests of one layout give the list of its matching tasks from the start, with no gap and no repeat |
| Paging.LayoutsListAlike | src/hypershell_reach/tasks.py:1211-1260 | Layouts with the same readable tasks give the same answer to every page request |
| Ranking.OrderBy | src/hypershell_reach/tasks.py:1249-1256 | The order lists every selected row once, strictly by key and then identifier |
| Ranking.DescendingIsReverse | src/hypershell_reach/tasks.py:1249-1256 | Descending order is ascending order read backwards |
| Listings.QueryRuns | src/hypershell_reach/runs.py:508-584 | A page selected, ordered and cut by columns is the piece of the sorted list of matching runs, time ranges included, and is refused exactly when a run on it cannot be read |
| ListingContents.RunsListed | src/hypershell_reach/runs.py:508-584 | A run query lists each run whose fields and times meet the filter once, by the field asked for and then the identifier, and nothing else |
| Listings.CountRuns | src/hypershell_reach/runs.py:589-594 | The number of selected rows is the number of matching runs |
| Listings.RunPagesConcatenate | src/hypershell_reach/runs.py:508-584 | Successive pages of readable runs give the list of the matching ones from the start, with no gap and no repeat |
| Listings.QueryCandidates | src/hypershell_reach/candidates.py:580-614 | A page selected, ordered and cut by columns is the piece of the sorted list of matching candidates |
| ListingContents.CandidatesListed | src/hypershell_reach/candidates.py:567-614 | A candidate query lists each candidate of the state and owner once, by the field asked for and then the identifier, and nothing else |
| Listings.CountCandidates | src/hypershell_reach/candidates.py:616-626 | The number of selected rows is the number of matching candidates |
| Listings.CandidatePagesConcatenate | src/hypershell_reach/candidates.py:580-614 | Successive pages give the list of the matching candidates from the start, with no gap and no repeat |

## Left out

- Identifiers of tasks, runs and leases are natural numbers, drawn fresh by the environment; their regular expressions are not modelled. Candidate identifiers are strings with their real alphabet.
- Clocks are integers in microseconds, read once per operation. Histories assume they do not run backwards.
- Read-only mode, symbolic links, permissions, fsync and renameat2: renames, exclusive links and write-then-replace are atomic, and write transactions are serialised.
- YAML, JSON, SQLite and Pydantic internals, and error message texts. Validators are modelled by their declared bounds.
- Printable text is approximated by code point ranges.
- The text filter `q` of queries: the file layout folds case and the database compares with LIKE, so the layouts differ there by design of those libraries.
- Listings.QueryRuns: the unified database, whose columns hold every filtered and sorted field but the title of candidates; the older run database reads some of them from the payload, and the file layouts of runs and candidates are left out.
- The file layout of candidates, with its check of every file for duplicate identifiers; the database layout is modelled.
- The JSON fallback of the run store before its first database, and the export of runs as JSON.
- SSH, sockets, HTTP and MCP transport; an execution returns a nondeterministic outcome.
- Executor.EveryState: a coroutine that gathers jobs resumes in the callback of the last of them, where the event loop needs one more turn; a second stop during a stop is not modelled.
- Executor.OwnedKeptIff: identifiers of submitted runs are assumed fresh, and writes of the run store inside the executor are assumed to succeed; if a read of the store fails while a failed submission is cleaned up, its slot is not given back.
- Which waiter of the semaphore is woken next is left open, so the theorems hold for any choice.
- The released flag of a file-lock lease: each lease is released once because its entry is popped once.
- ExecutorServices.ExecutorService.AwaitTerminal: a sleep lasts at least what was asked and overruns by an amount the caller supplies; with no overrun the call ends by its deadline.
- `wait_for_idle`: a loop over the same gather. With only done jobs in the table that gather does not suspend.
- Task and run summaries and lease summaries only project stored records.
- SkillCache.ReturnedIsCurrent: equal probes are taken to mean an unchanged path, the snapshot to observe and to probe every path that a build of the same files reads, and equal fingerprints to mean equal registries. A path that a discovery finds gone is noted as absent, where the code leaves it to the directory above. The number of remote fetches is that of the configuration a build began with.
- SkillSnapshot.Files.Snapshot: which paths discovery looks at is a function of what it has found so far; package and metadata rules are not spelled out, nor in which order the paths of a round are probed again.
- SkillLookup.RegistryCache.Lookup: the clock moves only while a build waits; the state machine lets it move at any point.
- Argv.ArgvRoundTrip: regular expressions and the printing of floats are parameters; the printed float must read back to its value.
- Registry.ToolingRegistry.Candidates: the splitting of a text into lines is given.
- Transactions.ReachDatabase.Run: the busy timeout is not modelled, and a failing commit is not.
- EvidenceTexts.RebuildIff: limits of a file system on the length of names and their encoding are not modelled; a text with excess padding counts as undecodable, where some decoders accept it, and export refuses it either way.
- Migrator.Destination.Migrate: hashes and receipts are compared as the snapshots they stand for, and concurrent source writers appear as a second reading of the sources that may differ.
- Migrator.InspectSource: which error is raised for a refused state is not modelled, only that it is refused.
- MigrationReach.Serve: run endings are assumed to carry printable error types, as exception class names do.
- `task_migration.py`: copying task directories to an empty target, with hashes compared afterwards.
- `config.py` and `validation.py`: reading the configuration file and reporting its errors.
- `service.py`, `read_model.py`, `ui.py` and `skill_pages.py`: the HTTP service, cached read views and rendered pages.
- `hermes_snapshot.py`, `hermes_state_projector.py` and the bundled tools: payloads of remote skill state, and scripts that run on targets.
