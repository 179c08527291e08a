# Pine ledger: integrity protocols in Dafny

The ledger stores predictions that must not be changed after the fact. A *capture* publishes a
Markdown record, a JSON snapshot and one SQLite row so that all three become visible together or not
at all. A *run wrapper* executes a strategy once and permanently marks the out-of-sample window it
touched. A *console* captures over a link that may lose answers. Readers page through the committed
rows, and a watcher reports changes of files that should never change. This project models those
protocols and proves what they keep over whole runs, crashes and interleavings included.

Verify with `dafny verify dfyconfig.toml`.

## How the model is built

* **Commit and recovery.** `VaultDisk` is a disk of names, inodes and contents; every name also keeps
  the values it may fall back to until its directory is fsynced. `LedgerBook` is the committed
  registry and the atomic specification `CallSpec` of one capture call. `CommitProtocol` is the
  protocol as a step machine: each statement is a step, each step may raise instead, foreign files may
  appear at absent artifact names, and the lock holder may crash anywhere, inside rollback and
  recovery too. Recovery reads every file its glob finds, through a partial reader of artifact bytes.
  `CommitInvariant` is what every run keeps, `CommitVisibility` what runs without reserved identifiers
  keep beyond that; `CommitTheorems`, `CommitRecovery`, `CommitPowerLoss`, `CommitReserved` and
  `CommitWitness` draw the conclusions. `LedgerWriter` and `LedgerCapture` are the same code as classes
  and methods that change the disk and the registry statement by statement; `WriterScript` specifies
  them and `WriterRefinement` shows that they are runs of the machine, up to the whole call.
* **Console and exactly-once capture.** `ConsoleTriggers` are the SQL triggers as predicates,
  `ConsoleTransitions` the store's operations, `ConsoleStateStore` the class proved against them,
  `ConsoleRuns` whole runs of the store, `ConsoleOutcomes` when each operation succeeds and what it
  stores. `ExactlyOnce` composes the console, a lossy link and the backend's `CallSpec`;
  `ExactlyOnceProgress` says which row each answer leaves and that a submission can reach its receipt,
  `ExactlyOnceLimits` how far a definite verdict reaches.
* **Runs, leases and evidence.** `RunRegistry` holds the tables, triggers and transactions,
  `RunLifecycle` the machine of racing and crashing wrappers, `LedgerRegistry` the class and the locked
  execution method, and `RunRefinement` shows that one execution is a run of that machine.
  `RunProgress` carries captures, explorations and imports to stored evidence. `IsoText` relates
  ISO date and time text to dates and instants.
* **Reading.** `Paging` (the batched loop against sort, filter, slice), `CursorCodec` and `CursorReader`
  (base64url, signed cursors and their canonical JSON), `RecordFraming` (the record's Markdown framing).
* **Small machines.** `RateLimiter` and `RateLimiterRuns`, `Debouncer`, `Watcher`, `Sessions`.

Prediction identifiers are text. Other identifiers, idempotency keys and paths whose text does not
matter are numbers. A payload stands for its own hash, so equal hashes mean equal payloads. Nonces and
UUIDs are fresh choices of the step that draws them, so a nonce is never part of an identifier already
in use. Clock readings are parameters. SQLite is assumed to serialize immediate transactions and to
commit atomically. The record and snapshot directories are distinct.

## What turned out false, and when it holds

* **Identifiers beginning with `.txn-`.** `write` accepts them (`ledger/integrity.py:233-238`), and the
  recovery glob `.txn-*.json` (`ledger/writer.py:351`) then finds the committed snapshot `<id>.json` and
  reads it as a manifest. A snapshot with the keys of a manifest is deleted; any other makes recovery
  raise. `CommitReserved.VisibilityIsExact` proves that the visibility boundary holds for a set of
  identifiers if and only if none of them begins with the prefix, which a caller can check on the draft;
  `CommitReserved.ReservedExample` is a run for `.txn-a`, and `CommitReserved.NoRecoverySparesIt` shows
  that no recovery ever completes with such a snapshot in place. What concerns calls, bindings and
  rollback ownership holds for all identifiers.
* **Clean recovery.** `rollback` removes the manifest before the published artifacts
  (`ledger/writer.py:79-88`). A crash between the two leaves an artifact that no later recovery
  removes, although the repository's README (lines 405-414) says that the next writer removes any
  uncommitted debris. `CommitRecovery.CleanRecovery` proves that a completed recovery is clean if and only if no
  crash or exception fell into that gap, `CommitWitness.InterruptedRollbackLeavesDebris` gives a run
  that falls into it, and `CommitRecovery.DebrisIsForever` shows that the identifier is then lost for
  good. Visibility of committed rows is not affected.
* **Terminal workflows.** A definite error means that *that attempt* committed nothing. A workflow that
  was uncertain in between can still end terminal although an earlier attempt, whose answer was lost, did
  commit: `ExactlyOnceLimits.TerminalWorkflowMayHideACommit` is such a run.
  `ExactlyOnceLimits.DefiniteVerdictIsFinal` proves that a definite verdict is final for every workflow
  whose row was never uncertain, however often it was retried. The converse has no form in the console's
  own terms: `ExactlyOnceLimits.RowsCannotTell` gives two runs with equal rows, the key bound in one and
  not in the other.
* **Reconciliation.** A pass submits exactly the paths that differ if and only if its listing covers the
  disk (`WatcherModel.ExactWhenListed`). The glob `*.md` minds the case and the event filter does not
  (`ledger/watcher.py:264` and `ledger/watcher.py:282`), so an unchanged `X.MD` is reported deleted
  (`WatcherModel.UpperCaseRecordIsReportedDeleted`).
* **Record framing.** The round trip holds if and only if the frontmatter contains no fence and neither
  part contains CRLF (`RecordFraming.RecordRoundTrip`; `RecordFraming.RoundTripFailures` has an input for
  each).
* **Sessions.** The database refuses a lookup exactly when the clock ran back past the last use of a
  live session (`SessionsModel.RejectedExactly`; `SessionsModel.ClockRanBack` is one tick).

## Model

| member | source | states |
|---|---|---|
| `CommitTheorems.VisibilityBoundary` | ledger/writer.py:285-314 | In every reachable state of a run whose submissions avoid identifiers beginning with `.txn-`, after any steps, exceptions and crashes, with unsynced directory entries lost or kept, each row is committed and both its final paths hold the committed bytes now and after a further crash |
| `CommitPowerLoss.PowerLossKeepsTheManifest` | ledger/writer.py:285-314 | From the manifest's fsync to the commit, a crash with any loss of unsynced names leaves a manifest that reads as this write's, so that recovery sweeps both temporaries and both final paths of it |
| `CommitReserved.VisibilityIsExact` | ledger/writer.py:344-365 | For any set of identifiers, committed artifacts are in place at the end of every run with them if and only if none begins with `.txn-`, once some snapshot reads as a manifest |
| `CommitReserved.NoRecoverySparesIt` | ledger/writer.py:351-365 | In all runs, no recovery completes with a ledger snapshot still at a name the manifest glob finds |
| `CommitReserved.ReservedSnapshotIsLost` | ledger/writer.py:351-365 | For every such identifier a run that commits it and then removes its snapshot in the next recovery |
| `CommitReserved.ReservedExample` | ledger/integrity.py:233-238 | The same for `.txn-a`, which the identifier check accepts |
| `CommitTheorems.EveryCallMeetsItsSpec` | ledger/capture.py:80-196 | Every finished call posted its own submission or nothing, its receipt names the prediction bound to the request, and a terminal or retryable error means it posted nothing, whatever the identifiers |
| `CommitTheorems.CallsAreSerial` | ledger/capture.py:80-196 | The finished calls form one chain from the empty book, each starting from the book the one before it left |
| `CommitTheorems.RollbackRemovesOnlyItsOwn` | ledger/writer.py:68-94 | No step of a rollback removes a final path that does not link to this write's inodes, whatever foreign files appeared |
| `CommitTheorems.RollbackRemovesAllItsOwn` | ledger/writer.py:68-94 | When a rollback completes, no final or temporary name links to this write's artifact inodes |
| `CommitTheorems.BookOnlyGrows` | ledger/registry.py:94-138 | Rows and idempotency bindings never change or disappear along any run |
| `CommitInvariant.StepKeepsCore` | ledger/writer.py:245-314 | Each of the machine's steps keeps the disk, lock-holder and call-log invariant, for all identifiers and all documents recovery may read |
| `CommitVisibility.StepKeepsInv` | ledger/writer.py:245-365 | Each ordinary step also keeps committed artifacts in place, reserved names unused and recovery on manifests of the writer's own |
| `CommitInvariant.RollbackListOk` | ledger/writer.py:73-90 | At every staging point the paths selected by flags or shared inodes are exactly the final paths linked to this write |
| `CommitRecovery.RecoveryIsExact` | ledger/writer.py:344-365 | A completed recovery leaves no temporary and no manifest, and the artifacts without a row are exactly the debris of interrupted rollbacks |
| `CommitRecovery.CleanRecovery` | ledger/writer.py:344-365 | With operations durable in order, recovery leaves only committed or foreign artifacts if and only if no crash or exception interrupted a rollback after its manifest unlink |
| `CommitRecovery.DebrisExactly` | ledger/writer.py:79-88 | Debris exists at the end of a run exactly when the run falls into that gap |
| `CommitRecovery.RecoveryAgainIsSilent` | ledger/writer.py:344-365 | On a recovered disk, any further recovery steps change neither disk nor registry |
| `CommitRecovery.DebrisIsForever` | ledger/writer.py:251-256 | A debris artifact is never removed and its identifier never committed, in any continuation |
| `CommitWitness.InterruptedRollbackLeavesDebris` | ledger/writer.py:79-88 | A concrete run whose crash inside rollback leaves a snapshot that every continuation keeps |
| `WriterScript.PerformAllRemoves` | ledger/writer.py:480-487 | A removal list takes away exactly the listed names and no content |
| `LedgerWriterModel.LedgerWriter.Chores` | ledger/writer.py:480-487 | The loop over paths and directories has the effect of the list up to the entry that raises, if any |
| `LedgerWriterModel.LedgerWriter.SweepManifestTemps` | ledger/writer.py:347-350 | Exactly the manifest temporaries are gone |
| `LedgerWriterModel.LedgerWriter.RecoverOne` | ledger/writer.py:351-365 | One file the glob found: it is read exactly when it names a committed prediction or lists artifacts; then itself, its temporaries and, for an uncommitted prediction, its artifacts are exactly the names that go; otherwise nothing changes; either way a run of the machine |
| `LedgerWriterModel.LedgerWriter.RecoverEach` | ledger/writer.py:351-365 | The loop leaves no name the glob would find, or stops at a file it cannot read; where all are the writer's manifests, exactly they and what they list are gone |
| `LedgerWriterModel.LedgerWriter.Recover` | ledger/writer.py:344-365 | A pass that succeeds leaves nothing the globs find, `.txn-` snapshots included; where the glob finds only whole manifests it removes exactly them, their temporaries and what they list for uncommitted predictions; it is a run of the machine |
| `LedgerWriterModel.StagedWrite.Finalize` | ledger/writer.py:56-66 | Once only: temporaries and manifest removed, both directories synced, up to an entry that raises |
| `LedgerWriterModel.StagedWrite.Rollback` | ledger/writer.py:68-91 | Once only: exactly the list of owned paths is carried out, up to an entry that raises |
| `LedgerWriterModel.StagedWrite.StageCommitted` | ledger/writer.py:285-314 | The disk, flags and open transaction are those of the statements in order; at the first exception the disk is that point's disk rolled back, as far as the rollback gets |
| `WriterScript.StagingPublishes` | ledger/writer.py:285-314 | A staging that raised nothing has both artifacts secured with the call's bytes, and finalize keeps them so |
| `WriterScript.StagingSucceeds` | ledger/writer.py:285-314 | Where the five names of a write are free and no fault strikes, no statement raises |
| `LedgerCapture.EarlyAnswerIsSound` | ledger/capture.py:86-122 | An answer given without staging posts nothing and its receipt names the bound prediction with both artifacts present; where there is none, key and identifier are new and both final paths free. Which answer must be given is in `LedgerCapture.Capture` |
| `LedgerCapture.Preflight` | ledger/capture.py:80-151 | Recovery succeeds wherever the manifests are whole and sweeps exactly their names; only a failed recovery or an early answer ends the call here; a run of the machine that ends the call or reaches staging |
| `LedgerCapture.Settle` | ledger/capture.py:157-196 | After staging: book, disk and answer for every outcome of binding, commit, registry read and cleanup |
| `LedgerCapture.ReceiptIsSecured` | ledger/capture.py:157-196 | A receipt after settling means a posted book and both artifacts secured |
| `LedgerCapture.OutcomeMeans` | ledger/capture.py:152-196 | Staging and settling: with free names and no fault the answer is a fresh receipt; a fault during staging posts nothing and answers with its code; a definite failure never posted |
| `LedgerCapture.Capture` | ledger/capture.py:80-196 | The whole locked call. Past a recovery: a bound key gives the bound prediction's receipt if it is committed with both artifacts live, and a conflict for another payload; a plain write of a known identifier likewise; a new submission is refused by the checks, refused in a collision, committed with receipt and posted book when no fault occurs, or failed with the fault's code. It meets the atomic call specification, a fresh receipt has both artifacts secured, and it is a run of the machine |
| `WriterRefinement.StagingIsARun` | ledger/writer.py:285-314 | Statements that do not raise are a run of the step machine to the same disk and flags |
| `WriterRefinement.ChoresAreARun` | ledger/writer.py:480-487 | Carrying out the first entries of any removal list is a run of the step machine to the same disk |
| `WriterRefinement.CleanupIsARun` | ledger/writer.py:56-91 | A finalize or rollback, completed or broken off, is a run that releases the lock with the answer the caller hears |
| `WriterRefinement.FailedStagingIsARun` | ledger/writer.py:285-314 | A staging that raises is a run ending with the lock released, the registry untouched and the disk the method promises |
| `LedgerCapture.StagedCallIsARun` | ledger/capture.py:152-196 | Staging, binding, commit and cleanup together are a run of the machine |
| `LedgerCapture.CallIsARun` | ledger/capture.py:80-196 | Taking the lock before it makes the whole call a run from the idle state it found |
| `ConsoleTransitions.WritesAccepted` | ledger/console/migrations.py:58-183 | Past the Python guards every UPDATE passes all triggers, every written row satisfies the durable-payload invariant, and the version rises |
| `ConsoleTransitions.RecoveryAccepted` | ledger/console/state.py:520-548 | Restart recovery's updates pass the triggers and keep the frozen request |
| `ConsoleTransitions.ApplyKeepsTable` | ledger/console/state.py:140-518 | Every operation keeps all rows sound and idempotency keys unique |
| `ConsoleTransitions.CreateAccepted` | ledger/console/migrations.py:58-71 | The insert trigger accepts what `create_workflow` writes, so a new workflow is refused only for a key in use |
| `ConsoleTransitions.ApplyPreserves` | ledger/console/state.py:183-518 | No operation deletes a row, changes its key, user, schema or creation time, loses a frozen request or receipt, or changes it without raising its version |
| `ConsoleTransitions.CleanupAccepted` | ledger/console/state.py:550-564 | Cleanup deletes only rows the delete trigger releases, never one awaiting reconciliation, and changes no other |
| `ConsoleOutcomes.SucceedsExactly` | ledger/console/state.py:183-518 | An operation succeeds exactly when the owner sees a live row whose state is on the operation's edge of the state diagram, with the schema, reviewed proposal and version it names, and the new row outlives the answer; otherwise nothing changes |
| `ConsoleOutcomes.FailsExactly` | ledger/console/state.py:671-703 | A visible row in the wrong state, schema or version is a conflict, an invisible or expired one is not found, and only a verdict outside the three failure states is rejected |
| `ConsoleOutcomes.StoresExactly` | ledger/console/state.py:183-518 | What success stores: the diagram's next state, a lifetime fixed by that state alone, the text changed only by revision, the proposal by extraction, the request by the freeze under the row's own key, the receipt by the backend's answer, and a note only where the operation records one |
| `ConsoleOutcomes.CreatesExactly` | ledger/console/state.py:140-181 | A workflow is created exactly under a new identifier and key, and holds the author's text and nothing else |
| `ConsoleOutcomes.RestartLeavesNothingInFlight` | ledger/console/state.py:520-548 | A restart makes every submitting row uncertain and every extracting row editable, keeps their contents, and touches no other row |
| `ConsoleOutcomes.RestartTwiceIsOnce` | ledger/console/state.py:520-548 | A second restart finds nothing to do |
| `ConsoleOutcomes.CleanupIsExact` | ledger/console/state.py:550-564 | A row survives cleanup, unchanged, exactly when it is unexpired or in extraction or awaits reconciliation |
| `ConsoleOutcomes.TriggersKeepThePromises` | ledger/console/migrations.py:73-174 | Whatever code issues the updates, a chain of accepted ones keeps identity, request and receipt, final states are final, and a frozen row is never edited again |
| `ConsoleOutcomes.LifeSoFar` | ledger/console/migrations.py:102-151 | At every point of such a chain the version counts the updates, the request stands exactly in the frozen states and was set on the step from reviewing to frozen, and the receipt exactly when committed, set on the step from submitting |
| `ConsoleRuns.ReachableRowsAreSound` | ledger/console/models.py:224-250 | Every row of every reachable table satisfies the durable-payload invariant |
| `ConsoleRuns.FrozenForever` | ledger/console/migrations.py:73-134 | Along any run a row keeps identity, frozen request and receipt, and its version never falls |
| `ConsoleRuns.ReconcilingRowsSurvive` | ledger/console/migrations.py:176-183 | At no point of any run is a row in a reconciliation state deleted |
| `ConsoleRuns.NoTwoCallsShareAVersion` | ledger/console/state.py:700-703 | Two effective calls on a workflow never name the same expected version, whatever happens in between |
| `ConsoleStateStoreModel.ConsoleStateStore.Insert` | ledger/console/migrations.py:58-71 | An insert succeeds exactly when both keys are free and the insert trigger accepts the row |
| `ConsoleStateStoreModel.ConsoleStateStore.Create` | ledger/console/state.py:140-181 | Insert under the trigger and both unique keys, first state editing, as the specified operation |
| `ConsoleStateStoreModel.ConsoleStateStore.BeginExtraction` | ledger/console/state.py:183-208 | The row and answer of the specified operation; soundness kept |
| `ConsoleStateStoreModel.ConsoleStateStore.ReviseSource` | ledger/console/state.py:210-245 | The row and answer of the specified operation; soundness kept |
| `ConsoleStateStoreModel.ConsoleStateStore.FinishExtraction` | ledger/console/state.py:247-294 | The row and answer of the specified operation; soundness kept |
| `ConsoleStateStoreModel.ConsoleStateStore.FailExtraction` | ledger/console/state.py:296-327 | The row and answer of the specified operation; soundness kept |
| `ConsoleStateStoreModel.ConsoleStateStore.FreezeAndBeginSubmission` | ledger/console/state.py:329-381 | Both updates of the freeze are accepted, or an already frozen row is returned unchanged |
| `ConsoleStateStoreModel.ConsoleStateStore.BeginRetry` | ledger/console/state.py:383-412 | The row and answer of the specified operation; soundness kept |
| `ConsoleStateStoreModel.ConsoleStateStore.RecordCaptureResponse` | ledger/console/state.py:414-442 | The receipt is stored with the committed state, by the specified operation |
| `ConsoleStateStoreModel.ConsoleStateStore.RecordCaptureFailure` | ledger/console/state.py:444-486 | A failure verdict is stored, anything but the three failure states is refused |
| `ConsoleStateStoreModel.ConsoleStateStore.CancelWorkflow` | ledger/console/state.py:488-518 | The row and answer of the specified operation; soundness kept |
| `ConsoleStateStoreModel.ConsoleStateStore.RecoverAbandonedWorkflows` | ledger/console/state.py:520-548 | Exactly the submitting and extracting rows change, to uncertain and to editing, and both counts are returned |
| `ConsoleStateStoreModel.ConsoleStateStore.Cleanup` | ledger/console/state.py:550-564 | Exactly the expired disposable rows are gone, and their number is returned |
| `ExactlyOnce.OneFrozenRequest` | ledger/console/workflow.py:126-189 | All backend calls of a workflow carry the same frozen request, over every interleaving of confirms, retries, lost answers, crashes and restarts |
| `ExactlyOnce.AtMostOneCommit` | ledger/capture.py:80-97 | At most one attempt per idempotency key ever commits, and every receipt for the key names that prediction |
| `ExactlyOnce.ReceiptIsTheCommit` | ledger/console/state.py:414-442 | A committed workflow's receipt is the committed prediction bound to its own key and payload |
| `ExactlyOnceProgress.ReceiptCommitsTheRow` | ledger/console/workflow.py:191-197 | A receipt delivered to a waiting attempt whose row is still the user's submitting row leaves it committed with exactly that receipt, unless the receipt's retention is over at the refetch; then the row is uncertain. Nothing else changes |
| `ExactlyOnceProgress.ErrorDecidesTheRow` | ledger/console/workflow.py:198-214 | A backend error delivered to such a row leaves exactly the state of its code, with the code as the note; the expiry is set for terminal failures only |
| `ExactlyOnceProgress.VerdictIsByCode` | ledger/console/errors.py:77-92 | The six terminal and two retryable codes by name; every other code is uncertain |
| `ExactlyOnceProgress.LostAnswerIsUncertain` | ledger/console/workflow.py:215-226 | A lost answer leaves the row uncertain, with its request |
| `ExactlyOnceProgress.LateAnswerIsIgnored` | ledger/console/state.py:414-486 | An answer for a row that is no longer the user's submitting row changes no row |
| `ExactlyOnceProgress.SubmissionOpens` | ledger/console/workflow.py:126-164 | A confirmation or retry within its guards opens one attempt, with the row's own key and the reviewed input, or the request frozen before |
| `ExactlyOnceProgress.AnsweredRequestCommits` | ledger/console/workflow.py:191-197 | A request the backend answers with any lawful receipt ends in the committed row once delivered in time |
| `ExactlyOnceProgress.SubmissionCanCommit` | ledger/console/workflow.py:126-249 | From any sound state, confirming a reviewed workflow or retrying an uncertain or retryable one has a run to the committed row; if its key was bound before, the receipt is the bound prediction and nothing is posted again |
| `ExactlyOnceProgress.CrashIsRecoverable` | ledger/console/state.py:520-548 | After a crash and a restart a submitting row is uncertain with the same request and may be retried |
| `ExactlyOnce.DefiniteFailureHidesNoCommit` | ledger/console/workflow.py:191-239 | An attempt that committed is never recorded as a terminal or retryable failure |
| `ExactlyOnce.ReplayIsAlwaysPossible` | ledger/console/state.py:383-412 | An uncertain or retryable workflow can always be resubmitted with its frozen request, at any time |
| `ExactlyOnceLimits.DefiniteVerdictIsFinal` | ledger/console/errors.py:77-92 | A definite verdict of a workflow whose row was never uncertain means that none of its attempts, however many, committed |
| `ExactlyOnceLimits.SoleAttemptVerdictIsFinal` | ledger/console/workflow.py:191-239 | The same for a workflow with one attempt, without looking at the run |
| `ExactlyOnceLimits.RowsCannotTell` | ledger/console/workflow.py:191-239 | Two runs with equal rows, one with the key bound and one without, so no condition on the rows decides |
| `ExactlyOnceLimits.TerminalWorkflowMayHideACommit` | ledger/console/workflow.py:191-239 | A concrete run: the first answer is lost after the commit, the retry is refused, the workflow ends terminal with its key bound |
| `RunLifecycle.AtMostOnceLaunch` | ledger/run.py:325-415 | Over all interleavings of wrappers, retries and crashes the executor is called at most once per run |
| `RunLifecycle.OrphansAreAbandoned` | ledger/run.py:342-366 | A run is failed as orphaned only by the lease holder, who did not start it, while nobody is executing it |
| `RunLifecycle.RetriesAgree` | ledger/run.py:325-361 | All answers for a run are the one stored terminal outcome |
| `RunLifecycle.RunExtends` | ledger/registry.py:182-236 | Terminal runs, bindings, evidence and touched windows are permanent along any run |
| `RunLifecycle.FreshForever` | ledger/registry.py:1144-1234 | Once a run has started, its whole out-of-sample window is touched for ever under the normalized lineage family of its prediction, or under its normalized strategy if it has none, and no later capture of that normalized family commits a window sharing a calendar day |
| `RunLifecycle.EvidenceIsBound` | ledger/results.py:263-328 | A stored result stays, and stays bound to a run completed with exit 0 and no note; envelope, prediction, registration, strategy, dataset, commit, metrics and both windows are the run's own, and its time lies between start and ingestion |
| `RunRegistry.StartKeeps` | ledger/registry.py:1144-1177 | Starting passes the lifecycle trigger, touches the window and keeps the registry sound |
| `RunRegistry.StartsExactly` | ledger/registry.py:1144-1234 | A run may start exactly when it is registered and bound, its envelope agrees with its binding, its window is valid and its family normalizes |
| `RunRegistry.StartStores` | ledger/registry.py:1144-1234 | Starting stores the state, the time and the envelope's whole window under the normalized family, and nothing else |
| `RunRegistry.FinishKeeps` | ledger/registry.py:1236-1262 | Finishing a running run passes the lifecycle trigger and keeps the registry sound |
| `RunRegistry.ImportKeeps` | ledger/registry.py:941-1019 | The external import's register, bind, start, touch, finish and record sequence passes the import trigger and keeps the registry sound |
| `RunRegistry.ImportStores` | ledger/registry.py:941-1019 | An import stores a terminal run with the evidence's times, exit code and note, its binding, its whole window and its own row, and nothing else |
| `RunRegistry.IngestKeeps` | ledger/registry.py:1021-1059 | Ingestion keeps the registry sound and inserts only what the result trigger accepts; when it inserts is in `RunRegistry.IngestExactly` |
| `RunRegistry.IngestExactly` | ledger/results.py:190-254 | Evidence is stored and answered as new exactly when the run has none, provenance and times match and no other run holds it; it conflicts exactly when the run holds other evidence; every other answer stores nothing |
| `RunRegistry.ProvenanceMeans` | ledger/results.py:263-306 | Provenance matches exactly when run, binding, envelope and evidence agree field by field on a run completed with exit 0 and no note |
| `RunRegistry.ResultRetryIsIdempotent` | ledger/results.py:190-254 | An exact retry of stored evidence is accepted and changes nothing |
| `RunRegistry.CaptureIsFresh` | ledger/capture.py:99-122 | A capture that commits shares no calendar day with the whole window of any started run of its family, the family read from the run's own rows |
| `RunRegistry.CaptureCommitsExactly` | ledger/capture.py:99-122 | A capture commits exactly when its identifiers are new, its window valid and no touched window of its normalized family shares a day with it |
| `LedgerRegistryModel.LedgerRegistry.OverlapsTouchedWindow` | ledger/registry.py:1370-1399 | True exactly when some touched window of the family overlaps in text order |
| `LedgerRegistryModel.LedgerRegistry.CommitCapture` | ledger/capture.py:111-122 | Succeeds exactly when the window is fresh and the identifiers new; then the prediction and its run are inserted |
| `LedgerRegistryModel.LedgerRegistry.StartRun` | ledger/registry.py:1144-1177 | Succeeds exactly on a registered run with a verified identity; state, time and the run's whole window are stored together |
| `LedgerRegistryModel.LedgerRegistry.FinishRun` | ledger/registry.py:1236-1262 | Succeeds exactly on a running run, with the derived terminal state |
| `LedgerRegistryModel.LedgerRegistry.CreateExternalRunImport` | ledger/registry.py:941-1019 | The whole import transaction in one step of the specification |
| `LedgerRegistryModel.LedgerRegistry.IngestResult` | ledger/results.py:190-254 | New evidence with matching provenance and times that no other run holds is answered as created, and exactly that row is added; a conflict exactly when other evidence is stored for the run; every other answer leaves the results alone |
| `LedgerRegistryModel.ExecuteLocked` | ledger/run.py:342-415 | A launch, which happens exactly when the checkout is clean and the run may start, ends completed with exit 0 and no note if and only if the executor exited 0, else failed with the executor's own code, 1 if it raised or 130 on an interrupt, and a note; start and completion are the two clock readings. An orphan is failed, a terminal run answered as stored, anything else changes nothing |
| `LedgerRegistryModel.ExecutionAnswers` | ledger/run.py:342-415 | The executor is called exactly when the run may start and the checkout verifies; a launch ends terminal with its whole window touched; an answer is the stored terminal outcome |
| `LedgerRegistryModel.ExecutionKeeps` | ledger/run.py:342-415 | An execution keeps the registry sound and everything permanent |
| `RunRefinement.ExecutionIsARun` | ledger/run.py:342-415 | One locked execution is a run of the lifecycle machine to the same registry, launches and reports; an interrupt answers nothing |
| `RunRefinement.StartableRunCanComplete` | ledger/run.py:325-415 | Whatever happened before, a startable run whose lease is free can be launched by a new wrapper, exactly once, ends as its executor did and is reported so |
| `RunRefinement.TerminalRunIsAnswered` | ledger/run.py:325-340 | A terminal run is answered as stored, without a lease |
| `RunRefinement.OrphanIsFailed` | ledger/run.py:342-366 | An abandoned run is failed with exit 1 and a note by the next wrapper, without a launch |
| `RunProgress.CaptureCanBeEvidenced` | ledger/run.py:164-252 | From any sound state, a capture on a fresh window can be committed, bound, launched once and completed, and its evidence stored; its whole window is then touched |
| `RunProgress.ExplorationCanBeEvidenced` | ledger/run.py:254-323 | The same for an exploratory run under its strategy |
| `RunProgress.BoundRunCanBeEvidenced` | ledger/results.py:190-254 | A bound run that may start can be carried to stored evidence that repeats its envelope |
| `RunProgress.ImportsExactly` | ledger/external.py:164-257 | External evidence is imported exactly when its source is new, run and key are free, its times are in order, its strategy normalizes and its window is valid |
| `RunProgress.ImportCanBeEvidenced` | ledger/external.py:164-257 | An imported run that exited 0 can have its evidence stored, without a launch |
| `RunProgress.MarkedWindowIsClosed` | ledger/registry.py:1305-1335 | A window marked by hand is closed for ever to captures of its normalized family |
| `IsoText.DateOrder` | ledger/registry.py:1561-1566 | ISO date text compares as the calendar does |
| `IsoText.OverlapIsExact` | ledger/registry.py:1370-1399 | The text comparison of two windows is true exactly when they share a calendar day |
| `IsoText.InstantOrder` | ledger/registry.py:23-31 | Canonical UTC timestamps compare in text order as instants |
| `IsoText.NormalizeIdempotent` | ledger/registry.py:1552-1558 | Normalizing a family twice is normalizing it once |
| `IsoText.WhiteSpaceIsIrrelevant` | ledger/registry.py:1552-1558 | White space around a family never distinguishes it from another |
| `IsoText.NormalFormIsItself` | ledger/registry.py:1552-1558 | A family without white space at its ends is its own normal form |
| `Paging.ListPredictions` | ledger/read_service.py:205-279 | The batched, post-filtered loop returns the page that sort, filter and slice prescribe: the first matches up to the limit, with a cursor exactly when more exist, the key of the last item; refused exactly for a limit outside 1..100 |
| `Paging.OrderBySorts` | ledger/registry.py:585-608 | The query order is a permutation of the table, strictly descending by key |
| `Paging.BelowIsInstantOrder` | ledger/registry.py:23-31 | The text key order is (UTC instant, identifier) order |
| `Paging.MatchesAreExact` | ledger/read_service.py:205-279 | The sliced list is exactly the rows of the given registration, status (not quarantined if none is given), result and strategy, strictly after the cursor, descending |
| `Paging.CursorResumes` | ledger/read_service.py:265-279 | A page's cursor resumes at the next match |
| `Paging.WalkVisitsEveryMatchOnce` | ledger/read_service.py:205-279 | Following cursors terminates and visits every match once, in order |
| `CursorCodec.EncodeRoundTrip` | ledger/read_service.py:696-698 | Encoding is invertible, stays in the alphabet and has the unpadded length |
| `CursorCodec.TestVectors` | ledger/read_service.py:696-698 | The test vectors of section 10 of RFC 4648, unpadded, and one that needs `-` and `_` |
| `CursorCodec.SymbolsAreTheAlphabet` | ledger/read_service.py:700-703 | The 64 symbols are those of the URL-safe alphabet, in order |
| `CursorCodec.GroupIsANumber` | ledger/read_service.py:696-698 | Four symbols spell the number three bytes are, in base 64 |
| `CursorCodec.DecodeIsExact` | ledger/read_service.py:700-708 | A string decodes to bytes exactly when it is their canonical unpadded form and they are not empty |
| `CursorCodec.IssuedCursorFits` | ledger/read_service.py:112-129 | Every cursor for bounded identifiers and filters is at most 4096 bytes |
| `CursorCodec.CursorRoundTrip` | ledger/read_service.py:131-170 | For a reader that inverts its own text, an issued cursor decodes to its own key under its own filters and is refused under any other |
| `CursorReader.CursorJsonInjective` | ledger/read_service.py:112-129 | The canonical JSON text determines the document |
| `CursorReader.EveryIssuedCursorDecodes` | ledger/read_service.py:131-170 | One reader serves all bounded documents, so every issued cursor decodes |
| `CursorCodec.AcceptedCursorsAreCanonical` | ledger/read_service.py:131-170 | A cursor is accepted with a key exactly when it is the canonical spelling, within 4096 bytes, of a payload and its tag, and the payload reads as a version 1 document with that key under the given filters |
| `RecordFraming.RecordRoundTrip` | ledger/writer.py:430-437 | Reading a written record returns its frontmatter and stripped body if and only if the frontmatter has no fence and neither part has CRLF |
| `RecordFraming.RoundTripFailures` | ledger/record_integrity.py:411-425 | Two concrete records that do not come back: a body with CRLF, frontmatter with a fence |
| `RecordFraming.NoStraddle` | ledger/record_integrity.py:411-418 | No fence match straddles the end of newline-terminated frontmatter |
| `RecordFraming.WrittenRecordLoads` | ledger/record_integrity.py:411-425 | What reading gives whatever the line endings: both parts normalized |
| `RecordFraming.LoadedRecordIsFramed` | ledger/record_integrity.py:411-425 | A successful read means two fences, none inside the frontmatter |
| `RateLimiterModel.ConsoleRateLimiter.HitAt` | ledger/console/rate_limit.py:33-57 | The method's table and answer are those of the specified attempt, for any parameters |
| `RateLimiterModel.ConsoleRateLimiter.PruneAll` | ledger/console/rate_limit.py:76-86 | Every deque loses exactly its expired prefix, and exactly the emptied keys are dropped |
| `RateLimiterModel.RejectedParameters` | ledger/console/rate_limit.py:36-48 | Parameters are rejected by themselves alone and leave the table as it was; a window is rejected exactly while the key is held with another; an admission appends the time to what is left of the key's deque and leaves the other keys pruned |
| `RateLimiterRuns.DequeIsTheWindow` | ledger/console/rate_limit.py:33-57 | After any calls in clock order the stored deque is the admitted history inside the window, and the table holds at most `max_keys` keys |
| `RateLimiterRuns.SlidingWindow` | ledger/console/rate_limit.py:49-57 | Any half-open interval of window length holds at most `limit` admissions of a key |
| `RateLimiterRuns.AdmittedExactly` | ledger/console/rate_limit.py:40-57 | An attempt is admitted exactly when fewer than `limit` admissions are live and the table has the key or room for it |
| `RateLimiterRuns.RetryAfterIsBounded` | ledger/console/rate_limit.py:54-56 | Every refusal advises between one second and one window |
| `RateLimiterRuns.RetryAfterSuffices` | ledger/console/rate_limit.py:54-56 | Waiting that long while only other keys are used leads to admission when the table has the key or room for it |
| `RateLimiterRuns.RetryAfterIsLeast` | ledger/console/rate_limit.py:54-56 | The advice is the least number of whole seconds: a caller at its limit who comes back a second earlier, while only other keys are used, is refused again |
| `RateLimiterRuns.RefusalIsExact` | ledger/console/rate_limit.py:42-56 | A refusal at the limit advises the seconds until the oldest live admission expires, rounded up; a refusal for want of room advises one window |
| `DebouncerModel.DebounceConserves` | ledger/watcher.py:131-166 | Under any schedule, stale timers included, each popped event is the in-order fold of its own group, and per key groups and pending events are the accepted events |
| `DebouncerModel.EveryEventIsDeliveredOnce` | ledger/watcher.py:131-166 | Once quiet after a flush or after the last timer, every accepted event is in exactly one dispatched event, each dispatched once |
| `DebouncerModel.AcceptsEverySubmission` | ledger/watcher.py:131-144 | The accepted events are exactly those submitted before the close, in order |
| `DebouncerModel.Debouncer.SubmitEvent` | ledger/watcher.py:131-144 | Merge, cancel and re-arm as specified; refused once closed |
| `DebouncerModel.Debouncer.FireTimer` | ledger/watcher.py:161-166 | Pops the key's pending event, whichever timer fires |
| `DebouncerModel.Debouncer.CloseAll` | ledger/watcher.py:146-159 | Empties the table and, when flushing, dispatches every pending event once |
| `WatcherModel.NoSwallowedChange` | ledger/watcher.py:289-305 | For a snapshot in the baseline, a rewritten or deleted violation is reported exactly when some observation differed, however the changes fell into debounce windows |
| `WatcherModel.NoticedExactly` | ledger/watcher.py:641-655 | At every moment a seen change is pending, popped or reported as an alarming one, and an unseen path is untouched |
| `WatcherModel.AlarmSaysWhatHappened` | ledger/watcher.py:385-397 | A snapshot that differed from its baseline is reported deleted if it was last seen absent when its window closed, and rewritten if it was last seen there |
| `WatcherModel.KnownIsLastSight` | ledger/watcher.py:289-305 | Until an event of a path is dispatched, its known fingerprint is the one seen last |
| `WatcherModel.NewSnapshotIsChecked` | ledger/watcher.py:385-397 | When its window closes, a new snapshot is reported unregistered exactly if it is there and not registered, and forgotten if it is gone |
| `WatcherModel.NewFileStaysNew` | ledger/watcher.py:641-655 | A file that appears and is written on any number of times within one window is still a new file when it closes |
| `WatcherModel.MovedFileIsTakenForARewrite` | ledger/watcher.py:641-655 | One that is moved in and written on within its window is taken for a rewrite |
| `WatcherModel.VaultEventHandler.SeedBaseline` | ledger/watcher.py:218-227 | The known files become the files on disk |
| `WatcherModel.VaultEventHandler.SubmitPath` | ledger/watcher.py:278-305 | Unwatched paths are ignored; others are normalized against the known fingerprint |
| `WatcherModel.VaultEventHandler.Reconcile` | ledger/watcher.py:229-248 | On a fixed disk a pass submits exactly the paths where the listed files differ from the known ones, once each with the right change, and brings the known files up to date |
| `WatcherModel.ExactWhenListed` | ledger/watcher.py:229-272 | Those are exactly the paths that differ on disk if and only if every watched file there is listed |
| `WatcherModel.UpperCaseRecordIsReportedDeleted` | ledger/watcher.py:260-283 | An unchanged `X.MD` passes the event filter, is not listed, and is reported deleted |
| `WatcherModel.NextPassIsSilent` | ledger/watcher.py:229-248 | After one pass the next submits nothing and changes nothing |
| `SessionsModel.LookupSucceedsExactly` | ledger/console/sessions.py:143-196 | An owner's lookup succeeds exactly when every gap since creation is below the idle lifetime and the age below the absolute one |
| `SessionsModel.CleanupNeverMatters` | ledger/console/sessions.py:212-227 | Runs that differ in cleanups and other sessions' business agree on every lookup |
| `SessionsModel.ReachableTablesAreSound` | ledger/console/migrations.py:187-211 | With a forward clock every reachable row satisfies the CHECKs |
| `SessionsModel.ForwardClockIsNeverRejected` | ledger/console/migrations.py:213-228 | With a forward clock no lookup is refused by the triggers |
| `SessionsModel.RejectedExactly` | ledger/console/migrations.py:220-228 | The triggers refuse a lookup exactly when the clock ran back past the last use of a live session |
| `SessionsModel.LookupAnswersExactly` | ledger/console/sessions.py:143-196 | When a lookup is missing, mismatched or expired, what it removes, and what a valid one stores; no other row changes |
| `SessionsModel.CleanupIsExact` | ledger/console/sessions.py:212-227 | A sweep removes exactly the sessions that a lookup by their owner would find expired |
| `SessionsModel.ClockRanBack` | ledger/console/migrations.py:220-228 | A concrete session refused one tick before its last use |
| `SessionsModel.MismatchEndsTheSession` | ledger/console/sessions.py:160-165 | Presenting another user's cookie ends that session for its owner too |
| `SessionsModel.ConsoleSessionStore.CreateSession` | ledger/console/sessions.py:97-141 | The first free of five candidate hashes gets a new row; none free leaves the table alone |
| `SessionsModel.ConsoleSessionStore.LookupSession` | ledger/console/sessions.py:143-196 | The table and status of the specified lookup, all branches |
| `SessionsModel.ConsoleSessionStore.CleanupExpired` | ledger/console/sessions.py:212-227 | Exactly the expired rows are gone, and their number is returned |

## Left out

- Quarantine of predictions (`quarantine_prediction`, integrity violations): predictions stay open here.
- HTTP applications, templates, authentication, the security middleware, CSRF tokens and the Obsidian plugin.
- Backend and bridge processes, Unix sockets, release checks, backups and console operations.
- OpenAI extraction, JSON Schema, YAML and Pydantic validation: parsed values are typed data.
- SHA-256, HMAC and UUID generation: payloads stand for hashes and fresh names are chosen by the step.
- SQLite internals, migrations and text-length CHECKs: the model starts from the final schema with atomic serialized transactions.
- The timeouts of the ledger lock and of the run lease: waiting is a step that is not taken yet.
- Recovery deletes an uncommitted prediction's final paths without an ownership test (`ledger/writer.py:358-363`); the model does the same, so only in-process rollback is proved to spare foreign files.
- Two captures with overlapping windows may both commit before either runs, and `LedgerWriter.write` checks no freshness; both are modelled as the code behaves, and freshness is stated for `capture` against started runs.
- The repeated-key lookup of `_idempotent_run` (`ledger/run.py:530-545`) and the retry comparisons of `ExternalRunIngestor.ingest`: the registry's key uniqueness is modelled, the comparison of stored requests is not.
- `one_in_flight` of the rate limiter: a set with an add and a discard.
- Floating-point rounding in the rate limiter: times are reals, and calls take the lock in clock order.
- The order of `pending.values()` and of dictionary iteration: any order is allowed.
- Record and registry dispatch of the watcher, and path classification: the watcher machine covers paths beneath the snapshot directory that are not the writer's temporaries.
- UTF-8 decoding and the size limit of a record file: framing is stated on text.
- CursorCodec.CursorRoundTrip: that the library's JSON reader inverts the canonical text is a hypothesis; the text, its UTF-8 form and its escapes are modelled, and CursorReader shows that one reader can meet the hypothesis for all bounded documents.
- LedgerCapture.Capture: exceptions but no crashes, and no foreign files appearing meanwhile; those are steps of the machine in CommitProtocol. The verdict of the schema, forecast, freshness and snapshot checks is an input, and removals inside recovery do not raise.
- LedgerRegistryModel.LedgerRegistry.OverlapsTouchedWindow: says whether a touched window overlaps, not which row comes first; the time of touching is used for the error text alone.
- LedgerRegistryModel.LedgerRegistry.CommitCapture: schema checks and the binding of the request are not part of it; the binding is in LedgerCapture.
- The message and details of a backend error: a failed workflow's note holds the error's code alone.
- Power loss during recovery or rollback, whose removals are not synced one by one: what is proved for lost directory entries is visibility of committed rows and the survival of the manifest while a write is staged; clean recovery is stated for operations durable in order.
- A capture's prediction identifier is a fresh UUID; the branch of a capture whose drawn identifier already has a row is answered as an internal error.
