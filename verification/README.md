# Verified model of Local Steward's Snapshot core

Local Steward observes directories as Snapshots. Everything it knows is recorded in an append-only Evidence ledger, one chained list of documents per Run; a SQLite index is derived from it and may be rebuilt at any time. A process may stop between publishing a ledger document and committing the index, and an explicit recovery later closes whatever prefix survived.

This project models that protocol and the cores around it in Dafny and proves properties of the model. `dafny verify dfyconfig.toml` checks everything.

## Modules

| module | models |
|---|---|
| `StateMachine`, `Evidence`, `Lifecycle`, `RunIndex` | Run statuses, sealed and chained documents, the acceptance rule for Snapshots, the index row as a fold of the ledger |
| `AcquisitionLedger`, `OperationalReplay`, `RepositorySteps` | the stages of a Run, classification and replay of all ledgers, the invariant of the whole repository and the steps that keep it |
| `SnapshotAcquisition`, `AcquisitionHistories` | acquisition, cancellation and recovery as methods of a `Store` in which the process may fault, be interrupted or be killed at every checkpoint; whole histories of stops and recoveries |
| `SnapshotEntries`, `PayloadReuse` | payload facts, reuse of verified payloads and its mutually recursive verification |
| `ParseCache`, `ParseCacheThreads` | the bounded cache as an object, and every interleaving of its threads |
| `IndexReplacement` | backup, replacement and rollback with other writers committing in between |
| `FilesystemScan`, `Ordering` | the budgeted walk and its sorted result |
| `DocumentQuery`, `DocumentEvidence` | text projections with back-references, evidence slices and paging |
| `PayloadReader` | direct payload reading under shared byte budgets |
| `Buckets`, `DuplicateAnalysis`, `SnapshotRelations` | grouping of equal payloads, matching of moved files |

## What holds, and what does not

The central result is `AcquisitionHistories.StopInterruptRecover`: stop an acquisition at any checkpoint, interrupt any number of recoveries anywhere, and one undisturbed recovery closes the Run if and only if its first document became durable. It is VERIFIED exactly when a Snapshot is durable, with a partial or complete result as the scan was; CANCELLED exactly when the operator's cancellation is durable; FAILED otherwise. At most three documents are appended and none altered, the transitions are those the surviving prefix was owed, and its row is the replay of its ledger.

The following expectations turned out false of the code. Each comes with a state in which it fails and with the exact condition under which it holds, as an equivalence.

1. Recovery of one Run can be blocked by another. A governed Run stopped between its Snapshot document and the transition that closes the observation cannot be classified (`storage.py:866-898`), so any rebuild of the index fails until that Run is recovered first. `StopInterruptRecover` therefore assumes all other Runs replayable; `BlockedExactlyByDurableSnapshots` gives the condition for every repository, `RecoveryCanBeBlocked` reaches a blocked state by the protocol's own steps, and `TwoRoundsConverge` shows that recovering every Run twice suffices unless a Run without governed metadata cannot be classified at all.
2. Verification of reused payloads need not terminate: when a Snapshot is completed no later than it started and names itself as source (`SelfReuseNeverEnds`), or when an index row points at another Snapshot's document (`MisplacedRowNeverEnds`). `VerificationEndsExactlyWithoutCycle` proves that it ends if and only if the stored documents and rows hold no cycle of references that the checks get to follow; well-timed documents and rows that point home hold none (`GoodRecordsHaveNoCycle`).
3. A backup digests the file before it copies it, outside a transaction. A commit to the Run tables in between that is undone before the lock leaves a READY backup whose Run tables differ from the prior ones (`BackupCanMissTheRunTables`). The Snapshot and Entry tables always agree, and the whole backup does if and only if no commit between digest and copy changed anything (`BackupHoldsThePriorIndex`).
4. Following `next_offset` ends if and only if the document is searchable and limit and character budget are positive, or nothing matches (`PageAdvancesExactlyWhenProductive`, `UnsearchableDocumentStandsStill`).
5. Where parents precede their children, the trail of an item misses the nearest heading if and only if its level is 2^30 or more and it is not an ancestor (`TrailEndsWithNearestHeading`, `DeepHeadingIsMissed`).
6. The physical storage summary counts an allocation only for a file with a single path: it compares the number of distinct allocations with the number of paths (`AllocationCountedOnlyForSinglePaths`, `HardLinkAllocationExample`).
7. An ambiguous component is reported once per birth time when one device and inode is seen under several (`ComponentsRepeatPerBirthTime`, `RepeatedComponentExample`).
8. A complete scan lists no entry twice if and only if no scope is requested twice (`Scan`, `RequestedTwiceIsListedTwice`).

## Assumptions of the model

- SHA-256 over canonical JSON is injective: digests are symbolic values, here and in the index replacement.
- The index is a pair of maps with atomic commits; `write_evidence` is an atomic write-once append; the replacement of the index during recovery is one step between its checkpoints.
- Clocks, file contents, directory listings, stat results, faults, other writers and thread schedules are arbitrary choices at each step. Identifiers drawn from `uuid4` are fresh.
- Loops over sorted dictionaries whose results are sorted afterwards run in an arbitrary order, and sorted tuples of distinct references appear as sets; `Ordering.SortedByKeyIsUnique` is the reason this loses nothing.
- The file digest sees every commit: the write-ahead log beside the main database file is not modelled.
- The Unicode tables are parameters. Hyphens, blanks and line breaks are assumed not alphanumeric, and the blank is assumed to be white space.

## Model

| member | source | states |
|---|---|---|
| `StateMachine.LegalWalkExtends` | src/local_steward/state_machine.py:6-50 | a walk of the transition graph stays a walk when one allowed transition is added at its end, and ends there |
| `Evidence.WriteKeepsEveryFile` | src/local_steward/evidence.py:69-96 | a write is refused exactly for a taken file name or an unsealed document; otherwise it adds exactly this file, and every earlier file is still there under its own name, unchanged, wherever the new name sorts |
| `Lifecycle.CollectTransitionPairs` | src/local_steward/snapshot_lifecycle.py:157-170 | the loop returns the (from, to) pairs in order, and nothing at all once a transition document is malformed |
| `Lifecycle.SupportedLedgerIntegrity` | src/local_steward/snapshot_lifecycle.py:173-199 | the loop with its two accumulating sets accepts exactly the non-empty chained ledgers: contiguous, linked by previous digest, sealed, one configuration digest, no repeated identity or digest |
| `Lifecycle.LastDigestFixesHistory` | src/local_steward/snapshot_lifecycle.py:173-199 | two accepted ledgers whose last digests agree are equal document by document |
| `Lifecycle.GovernedAcceptsExactlyTheCanonicalPath` | src/local_steward/snapshot_lifecycle.py:202-237 | for governed Runs compatibility holds if and only if the transitions are the canonical path cut at the final status, with exactly one Snapshot document from the observation on |
| `Lifecycle.AcceptedGovernedIsALegalWalk` | src/local_steward/snapshot_lifecycle.py:202-237 | whatever is accepted for a governed Run walks the transition graph from CREATED to the final status |
| `RunIndex.InsertRunLedger` | src/local_steward/snapshot_replay.py:276-316 | the two passes over the files compute the projection of the ledger: status, last digest, counts and one record per document |
| `RunIndex.CreateEqualsRebuild` | src/local_steward/runs.py:113-141 | the rows `create_run` inserts are field for field those a rebuild computes |
| `RunIndex.TransitionEqualsRebuild` | src/local_steward/runs.py:222-246 | updating caught-up rows for a transition equals rebuilding from the longer ledger |
| `RunIndex.PersistEqualsRebuild` | src/local_steward/snapshots.py:229-247 | updating caught-up rows for a Snapshot document equals rebuilding from the longer ledger |
| `RunIndex.LedgerValidFacts` | src/local_steward/storage.py:214-346 | a valid Run directory is contiguous, sealed, linked by previous digest, without repeated identities, and every transition starts at the status before it and is allowed from there |
| `AcquisitionLedger.StageDetermines` | src/local_steward/snapshot_acquisition.py:353-372 | the stage of a protocol ledger fixes its length, status, transition pairs and Snapshot documents |
| `AcquisitionLedger.TransitionsWalkTheGraph` | src/local_steward/snapshot_acquisition.py:470-502 | the transitions of a protocol ledger walk the transition graph to its status, although the ledger-side append never validates them |
| `AcquisitionLedger.ProtocolLedgersAreWellFormed` | src/local_steward/snapshot_acquisition.py:563-719 | every protocol ledger has at most six documents and one Snapshot, is chained under one configuration digest, and walks the graph to its status |
| `AcquisitionLedger.ProtocolLedgerIsValid` | src/local_steward/storage.py:214-346 | every protocol ledger passes the structural validation replay starts with |
| `AcquisitionLedger.AcceptedExactlyFromTheObservation` | src/local_steward/snapshot_lifecycle.py:202-237 | the lifecycle rule accepts a protocol ledger for its Snapshot's status exactly from the observation transition on |
| `AcquisitionLedger.PlanMoves` | src/local_steward/snapshot_acquisition.py:754-860 | the transitions recovery still owes a Run, read off its status and its durable Snapshots, shrink by exactly the first one whenever the protocol makes it: CREATED and SCANNING without a Snapshot owe one step to FAILED, a durable Snapshot owes SCANNED or PARTIAL by its own status, then VERIFYING and VERIFIED |
| `OperationalReplay.ReplayClassified` | src/local_steward/snapshot_replay.py:665-891 | replay succeeds if and only if every Run is classified, and then the candidate index is exactly the fold of all ledgers |
| `OperationalReplay.CaughtUpVerifies` | src/local_steward/snapshots.py:1922-2122 | a caught-up governed Run past its observation transition has a VALID Snapshot |
| `OperationalReplay.GovernedIsClassifiable` | src/local_steward/storage.py:866-1028 | a sound governed Run can be classified if and only if it does not sit between its Snapshot document and the transition closing the observation |
| `RepositorySteps.PublishKeepsSound` | src/local_steward/snapshot_acquisition.py:470-502 | publishing the next protocol document of one Run keeps the invariant of every Run: a protocol ledger, and an index that replays a prefix at most MaxLag documents short |
| `RepositorySteps.CreateKeepsSound` | src/local_steward/runs.py:63-150 | a new Run whose first document is durable and whose rows are missing satisfies the invariant, and all others keep it |
| `RepositorySteps.CommitKeepsSound` | src/local_steward/runs.py:222-246 | committing the rows for the last document catches the Run's index up and keeps everybody's invariant |
| `RepositorySteps.ReplayKeepsSound` | src/local_steward/snapshot_acquisition.py:514-537 | installing a replay of all ledgers keeps the invariant and catches up every governed Run |
| `RepositorySteps.ReplayIsReplayedElsewhere` | src/local_steward/snapshot_acquisition.py:514-537 | a replay of all ledgers gives every other Run exactly the rows its own ledger yields |
| `RepositorySteps.ClassificationIsLocal` | src/local_steward/storage.py:740-1028 | a transition published for one Run never changes how another Run is classified |
| `SnapshotAcquisition.MovesAreAllowed` | src/local_steward/runs.py:199-210 | wherever the protocol calls `transition_run`, the row it reads is caught up and the transition passes `validate_transition` |
| `SnapshotAcquisition.VerifiedIffCaughtUp` | src/local_steward/snapshot_acquisition.py:389-397 | past the observation, verification succeeds if and only if the index row accounts for the whole ledger |
| `SnapshotAcquisition.FinalReport` | src/local_steward/snapshot_acquisition.py:400-453 | a finished, caught-up Run reports VERIFIED with PARTIAL_RESULT if its durable Snapshot is partial and COMPLETE_RESULT if it is not, and without a Snapshot its FAILED or CANCELLED status with the disposition of that name |
| `SnapshotAcquisition.StatusDecidesStage` | src/local_steward/snapshot_acquisition.py:754-803 | the status and the presence of a Snapshot, which recovery branches on, determine the stage |
| `SnapshotAcquisition.OthersStayReplayable` | src/local_steward/snapshot_acquisition.py:514-537 | a recovery step of one Run leaves it unchanged whether all other Runs can be classified |
| `SnapshotAcquisition.RecoveryComposes` | src/local_steward/snapshot_acquisition.py:747-875 | two recoveries in a row are one: what they append together still counts against the three documents a Run may need |
| `SnapshotAcquisition.RecoveryAnswers` | src/local_steward/snapshot_acquisition.py:747-875 | what recovery answers, from the ledger it found: CREATED, or SCANNING without a Snapshot, can only end FAILED; a Run ends CANCELLED if and only if it was CANCELLED before; when done, the transitions are those it had and those it was owed, with their reasons, and the report is the literal one for its Snapshot or status |
| `SnapshotAcquisition.Store.CreateRun` | src/local_steward/runs.py:63-150 | stopped anywhere, the Run is absent, or durable under the given configuration and metadata with its rows committed or missing; done means committed |
| `SnapshotAcquisition.Store.PersistSnapshot` | src/local_steward/snapshots.py:200-252 | stopped anywhere, the Snapshot document is absent, or durable with its rows committed or not; done means committed |
| `SnapshotAcquisition.Store.TransitionRun` | src/local_steward/runs.py:186-255 | from a caught-up row: one transition document from the status of the ledger to the target with the given reason, then its rows; stopped anywhere the row lags by at most that document |
| `SnapshotAcquisition.Store.AppendTransitionFromLedger` | src/local_steward/snapshot_acquisition.py:470-502 | appends one sealed document linked to the ledger's last, a transition from its status to the target with the given reason, and touches no index row |
| `SnapshotAcquisition.Store.RebuildIndex` | src/local_steward/snapshot_acquisition.py:514-537 | undisturbed it succeeds if and only if all Runs are classifiable, leaving the replay of all ledgers; otherwise the index is the old one or that replay |
| `SnapshotAcquisition.Store.EnsureVerifiedProjection` | src/local_steward/snapshot_acquisition.py:540-560 | rebuilds only when verification fails, and when done the Run is caught up and verified |
| `SnapshotAcquisition.Store.RecoverSnapshotAcquisition` | src/local_steward/snapshot_acquisition.py:729-875 | for any script of stops: existing documents stay, at most the remaining documents of the Run's stage are appended, other Runs keep their ledgers and their rows or have them replayed; a crash without a durable Snapshot is closed as FAILED and never as CANCELLED, every other Run takes exactly the transitions it was owed, and the report is the literal one; undisturbed it succeeds if and only if the Run is recoverable now; each refusal has its exact error |
| `SnapshotAcquisition.Store.CancelInterrupted` | src/local_steward/snapshot_acquisition.py:666-697 | an operator's interrupt adds exactly one transition to CANCELLED, and only while no Snapshot is durable; reporting it cancelled means ledger and row say so; undisturbed the answer is cancelled or recovery required by that condition |
| `SnapshotAcquisition.Store.AcquireSnapshot` | src/local_steward/snapshot_acquisition.py:563-719 | for any script of stops: a sound repository with at most one new protocol ledger that records what was bound and seen: its only Snapshot is of this Run with the scan's content, PARTIAL if and only if the scan was, and its transitions are a prefix of the four of an acquisition, or a cancelled one; done means all four with the literal report; undisturbed it is done if and only if the scan can be persisted, and a single stop gives the answer its signal calls for |
| `AcquisitionHistories.ConvergedIsFinal` | src/local_steward/snapshot_acquisition.py:747-875 | once a Run has converged, a further recovery, however often interrupted, appends nothing |
| `AcquisitionHistories.InterruptedRecoveries` | src/local_steward/snapshot_acquisition.py:747-875 | any number of recoveries of one Run, each stopped by its own script, together append at most the documents the Run still needed and change none |
| `AcquisitionHistories.StopInterruptRecover` | src/local_steward/snapshot_acquisition.py:563-875 | stop an acquisition anywhere, interrupt any number of recoveries, recover once undisturbed: it ends if and only if the Run became durable; its row matches the ledger, at most three documents were appended, and the answer follows from what the scan saw and where it stopped: VERIFIED with a partial or complete result if a Snapshot was durable, CANCELLED if the operator's cancellation was, else FAILED |
| `AcquisitionHistories.AnswerOfScene` | src/local_steward/snapshot_acquisition.py:400-453 | the literal report and status of a recovered Run in terms of the scan: PARTIAL_RESULT exactly when a durable Snapshot came from a partial scan, COMPLETE_RESULT for any other durable Snapshot, CANCELLED_RESULT after a durable cancellation, else FAILED_RESULT |
| `AcquisitionHistories.BlockedExactlyByDurableSnapshots` | src/local_steward/storage.py:866-898 | recovery of a Run is possible if and only if its index needs no rebuild, or every other Run lets it pass: a governed one unless it sits between its Snapshot document and its observation transition, any other one if it can be classified |
| `AcquisitionHistories.RecoveryCanBeBlocked` | src/local_steward/snapshot_acquisition.py:514-537 | the steps of two acquisitions from an empty repository reach a state in which the undisturbed recovery of the second Run fails |
| `AcquisitionHistories.RecoverEach` | src/local_steward/snapshot_acquisition.py:729-875 | where all non-governed Runs can be classified, one round of undisturbed recoveries leaves no governed Run that would block another, and converges every one if none blocked at the start |
| `AcquisitionHistories.TwoRoundsConverge` | src/local_steward/snapshot_acquisition.py:729-875 | where all non-governed Runs can be classified, recovering every Run twice converges all governed ones, whatever blocked the first round |
| `PayloadReuse.VerificationTerminates` | src/local_steward/snapshots.py:1922-1987 | with well-timed Snapshots and rows that point home, the mutual recursion never goes deeper than the number of documents completed by then |
| `PayloadReuse.ExhaustedExactlyByCleanWalks` | src/local_steward/snapshots.py:1786-1846 | a verification goes deeper than any given number of levels if and only if the stored documents and rows hold a walk of that many references, none preceded by an entry that could raise |
| `PayloadReuse.VerificationEndsExactlyWithoutCycle` | src/local_steward/snapshots.py:1922-1987 | for every repository, also with repeated identities and missing rows: verification ends if and only if these references do not run into a cycle, and then within one level more than there are rows |
| `PayloadReuse.QuietCyclesAreReferenceCycles` | src/local_steward/snapshots.py:1786-1846 | where nothing reachable can raise, that cycle is just a cycle of references |
| `PayloadReuse.GoodRecordsHaveNoCycle` | src/local_steward/snapshots.py:1803-1805 | well-timed documents and rows that point home hold no cycle |
| `PayloadReuse.SelfReuseNeverEnds` | src/local_steward/snapshots.py:1778-1846 | a Snapshot completed no later than it started may name itself as its source, and then no recursion depth is enough |
| `PayloadReuse.MisplacedRowNeverEnds` | src/local_steward/snapshots.py:1973-1987 | a row pointing at another Snapshot's document keeps the recursion going although all times are in order, because identity is compared only after the references were followed |
| `PayloadReuse.AcceptedReuseIsOneHop` | src/local_steward/snapshots.py:1778-1846 | a Snapshot has no reuse error if and only if every reused digest is that of a complete direct read at the first entry of the same location, by the policy's algorithm, with equal identity, size and times, in the one document of that identity, an intrinsic version 2 Snapshot completed before this one began that verifies VALID |
| `PayloadReuse.CodeIsJustified` | src/local_steward/snapshots.py:1786-1844 | a reused entry gets a given error code if and only if the reason for that code holds, told by the documents alone: source missing, not admissible, later, not VALID, entry missing, or a differing field |
| `PayloadReuse.VerdictMeans` | src/local_steward/snapshots.py:1973-1987 | a verification that returned says VALID or INCOMPLETE if and only if the row points at an intrinsic document of this identity with a consistent Run and all reused entries are backed, VALID exactly when the rows are consistent as well, and INVALID otherwise |
| `PayloadReuse.ReturnsExactlyWhenQuiet` | src/local_steward/snapshots.py:1922-1960 | a verification that ends returns a verdict if and only if nothing its references lead to raises: no missing row and no ambiguous identity |
| `PayloadReuse.SelectorAgreesWithValidator` | src/local_steward/snapshots.py:485-557 | on what the selector hands out for an entry the validator reports no error in the unchanged repository, if and only if the source's identity occurs once |
| `PayloadReuse.VerifiedReuseSourceSelector.LoadCandidates` | src/local_steward/snapshots.py:494-526 | the memo is filled once, with exactly the intrinsic version 2 documents completed before the Snapshot began, newest first |
| `PayloadReuse.VerifiedReuseSourceSelector.Resolve` | src/local_steward/snapshots.py:528-557 | what is handed out is the payload of a complete direct read of the same file, marked as reused from its VALID Snapshot, and no later document has such an offer; nothing is handed out only if no document has one, and an exception is that of a verification |
| `PayloadReuse.ResolvedSnapshotHasNoErrors` | src/local_steward/snapshots.py:1778-1846 | a Snapshot all of whose reused payloads came from the selector has no reuse error at all |
| `PayloadReuse.AmbiguousSourceRaises` | src/local_steward/snapshots.py:1752-1775 | with two documents of one identity the validator raises where the selector did not |
| `PayloadReuse.CheckEntry` | src/local_steward/snapshots.py:1786-1844 | wherever the entry's check ends, the loop body computes its error or exception, calling back the verifier of the source |
| `PayloadReuse.ValidateReuseReferences` | src/local_steward/snapshots.py:1778-1846 | wherever it ends, the error-accumulating loop returns the concatenated errors of all entries, or the exception of the first that raises, ambiguous identities included |
| `PayloadReuse.VerifySnapshot` | src/local_steward/snapshots.py:1916-1987 | wherever the records do not run into a cycle, verification ends: it raises if and only if something its references lead to does, and otherwise answers VALID, INCOMPLETE or INVALID exactly by the row checks, the backing of every reused entry and the consistency of the rows |
| `ParseCache.EvictionIsShortestPrefix` | src/local_steward/document_execution.py:347-355 | eviction removes exactly the shortest least-recently-used prefix after which both bounds hold |
| `ParseCache.InsertIsStore` | src/local_steward/document_execution.py:347-355 | an insertion leaves the entry as the newest, both bounds, the other survivors in the order they had; whatever was pushed out is older than all of them, and the newest entry pushed out would not have fitted |
| `ParseCache.LookedUpLeavesOneList` | src/local_steward/document_execution.py:325-333 | what is said of a lookup leaves one list possible: members and pairwise order determine the entries |
| `ParseCache.TouchedOutlivesTheNextInsertion` | src/local_steward/document_execution.py:286-355 | an entry that was hit is still there after the next insertion of another key, if there is room for the two |
| `ParseCache.InsertKeepsItself` | src/local_steward/document_execution.py:347-355 | an entry that fits on its own survives its own insertion as the newest, keys stay unique, and every other survivor was there before |
| `ParseCache.LiveFacts` | src/local_steward/document_execution.py:340-345 | expiry keeps exactly the entries whose time has not come, keeps keys unique and never grows the total |
| `ParseCache.LiveKeepsOrder` | src/local_steward/document_execution.py:340-345 | of any two entries that both stay, the older one stays the older one, and expiry keeps a pair if and only if both are live |
| `ParseCache.BoundedDocumentParseCache.ExpireLocked` | src/local_steward/document_execution.py:340-345 | keeps exactly the live entries, any two of them in the order they had, and the running total stays their sum |
| `ParseCache.BoundedDocumentParseCache.InsertLocked` | src/local_steward/document_execution.py:347-355 | the loop terminates, both bounds and the running total hold, the inserted entry is the newest, the other survivors keep their order, and what was evicted was older than all of them and no entry too many |
| `ParseCache.BoundedDocumentParseCache.GetExisting` | src/local_steward/document_execution.py:325-333 | a hit exists if and only if a live entry of the key does; it returns its value and is the last entry afterwards; exactly the live entries stay, and any two others keep their order |
| `ParseCacheThreads.StepKeepsInv` | src/local_steward/document_execution.py:286-323 | every atomic step of every thread keeps: one owner a key, in flight exactly while its owner is active, events pending with a live owner or set, values right, bounds held |
| `ParseCacheThreads.LookDoes` | src/local_steward/document_execution.py:295-312 | the first locked section, by the entries there were: a live entry of the key is returned and becomes the newest; without one, a computation in flight is joined and otherwise a new one owned |
| `ParseCacheThreads.StoreDoes` | src/local_steward/document_execution.py:313-319 | the storing section inserts the computed value as the newest entry and evicts no more than the bounds call for |
| `ParseCacheThreads.ReleaseKeepsInv` | src/local_steward/document_execution.py:319-323 | the finally section takes exactly its key out of flight, sets its event, hands back what was computed or its exception, and keeps the invariant |
| `ParseCacheThreads.EveryInterleavingIsSound` | src/local_steward/document_execution.py:286-338 | in every interleaving, also when computations raise, every thread that returned holds the value its key computes to |
| `ParseCacheThreads.BlockedThreadsHaveALiveOwner` | src/local_steward/document_execution.py:286-323 | a thread that cannot move waits for an owner of its key, and that owner can move |
| `IndexReplacement.Disk.CreateBackup` | src/local_steward/snapshot_backup.py:164-302 | identity, file digest and copy are the official contents after one, two and three moments of any script of foreign commits; READY if and only if its two checkpoints pass and the copy has the Snapshot and Entry tables identified before it |
| `IndexReplacement.Disk.ReplaceSnapshotIndex` | src/local_steward/snapshot_replacement.py:196-419 | for any script of foreign commits and faults: REPLACED if and only if the replay report is READY with the candidate's counts and digest on both sides, the tables read for the backup and the digested file are those under the lock, and none of six checkpoints fails; the official index is then the candidate and the copy the backup; FAILED_AFTER_REPLACE exactly when only the last checkpoint fails; any other failure leaves the official index to its writers and the candidate as it was; the backup is the prior database if and only if the content did not change between file digest and copy |
| `IndexReplacement.Disk.RestoreFromBackup` | src/local_steward/snapshot_rollback.py:197-361 | after the swap the Snapshot and Entry tables are the backup's and the Run and Evidence tables those found under the lock; before it nothing changed; RESTORED if and only if the backup is there with the reported identity, the Run tables and the file stayed as they were read, and none of four checkpoints fails |
| `IndexReplacement.BackupHoldsThePriorIndex` | src/local_steward/snapshot_replacement.py:268-350 | the backup of a replacement holds the prior Snapshot and Entry tables, and is the whole prior database if and only if no commit between file digest and copy changed anything |
| `IndexReplacement.BackupCanMissTheRunTables` | src/local_steward/snapshot_backup.py:239-245 | for any database, a Run commit between file digest and copy that is undone before the lock: the replacement succeeds and its backup has the wrong Run table |
| `IndexReplacement.LateRunCommitIsRefused` | src/local_steward/snapshot_replacement.py:308-322 | a Run row committed after the backup and still there under the lock makes the replacement fail and stays, for any candidate and faults, although the index identity cannot see it |
| `IndexReplacement.ReplaceThenRestore` | src/local_steward/snapshot_rollback.py:197-361 | replacing and restoring from the replacement's own backup returns the prior Snapshot and Entry tables and keeps the Run tables found under the lock; without faults and commits it succeeds if and only if the candidate is accepted |
| `FilesystemScan.VisitChild` | src/local_steward/filesystem.py:198-263 | one child adds exactly its true entry, the one its node or its failed stat calls for, counts its bytes, is pushed exactly when it is entered, and stops the loop exactly when it overflows the byte budget |
| `FilesystemScan.VisitChildren` | src/local_steward/filesystem.py:191-263 | one directory adds the true entries of its first children, in listing order, within the entry budget; unless partial those of all children, looking at the clock once for each; if partial it names a true cause and the child it did not get to |
| `FilesystemScan.ListedDirectory` | src/local_steward/filesystem.py:182-263 | taking a directory off the stack and recording its children keeps: everything recorded is reachable, nothing is recorded twice, and what is missing lies below the stack |
| `FilesystemScan.EmptyStackIsComplete` | src/local_steward/filesystem.py:181-263 | when the stack is empty every reachable path has been recorded |
| `FilesystemScan.WalkScope` | src/local_steward/filesystem.py:181-263 | the stack walk of one scope terminates; whatever stops it, it has recorded distinct reached paths with their true entries; unless partial exactly the reachable paths, of a scope in which everything could be read |
| `FilesystemScan.EnterDirectory` | src/local_steward/filesystem.py:186-263 | one directory off the stack: its children are all recorded, or the scan is partial for a true cause with the path a budget left out unrecorded |
| `FilesystemScan.Scan` | src/local_steward/filesystem.py:140-269 | at most max_entries plus one root for every further scope, and one entry for each path and scope, sorted; every entry is the true one of a reached path, no more often than scopes want it, also when partial; the scan is not partial if and only if nothing wanted is missing, everything it has to look at can be read and the bytes are within budget; if partial it names a true cause, and what time or the entry budget left out is missing; distinct if and only if no scope is repeated |
| `FilesystemScan.CauseMeansIncomplete` | src/local_steward/filesystem.py:181-263 | no cause a partial scan gives is compatible with a complete observation of readable scopes within the byte budget |
| `FilesystemScan.CompleteFacts` | src/local_steward/filesystem.py:113-137 | a complete observation has exactly the wanted entries and repeats one if and only if a scope identifier is repeated |
| `FilesystemScan.RequestedTwiceIsListedTwice` | src/local_steward/filesystem.py:113-137 | the scan of one empty directory requested twice completes and lists it twice |
| `FilesystemScan.ListingOrderDoesNotMatter` | src/local_steward/filesystem.py:264-269 | two complete scans of one tree, under any strict order of (scope, path), publish the same tuple whatever order directories listed their children in and however the clocks ran |
| `Ordering.SortedListIsUnique` | src/local_steward/document_evidence.py:594-596 | an ascending list is determined by its members |
| `Ordering.SortBy` | src/local_steward/filesystem.py:264-269 | sorting by a key permutes the list and puts no smaller key behind a larger one |
| `Ordering.SortedByKeyIsUnique` | src/local_steward/filesystem.py:264-269 | a list sorted by a key that tells its elements apart is determined by them, repetitions included |
| `DocumentQuery.FoldedWithOffsets` | src/local_steward/document_query.py:31-38 | the loop yields the folded text with, for each folded character, the index of its source character |
| `DocumentQuery.DehyphenateLinebreaks` | src/local_steward/document_query.py:50-74 | the greedy scan removes exactly the positions inside a word break: a hyphen after a word character, blanks, line breaks, blanks, then a word character |
| `DocumentQuery.CollapseWhitespace` | src/local_steward/document_query.py:77-96 | the loop and its final pop keep exactly the word characters and one blank between words |
| `DocumentQuery.Variant` | src/local_steward/document_query.py:99-113 | the repairs are made in order: afterwards no soft hyphen is left if they are removed, no word break if words are joined, only single blanks between words if white space is collapsed, and collapsing comes last |
| `DocumentQuery.OffsetsPointBack` | src/local_steward/document_query.py:99-113 | for any fold and any options offsets are in range, nondecreasing and as many as the characters |
| `DocumentQuery.DehyphenationIsIdempotent` | src/local_steward/document_query.py:50-74 | a dehyphenated text has no word break left |
| `DocumentQuery.CollapsingIsIdempotent` | src/local_steward/document_query.py:77-96 | collapsed text is left as it is, characters and offsets |
| `DocumentQuery.FoldedFrom` | src/local_steward/document_query.py:31-38 | a folded character lies within the folding of exactly the source character its offset names |
| `DocumentQuery.SpanHoldsTheMatch` | src/local_steward/document_query.py:139-153 | the source span of a match, projected again with the same options, contains the projected query |
| `DocumentQuery.CountIsTheMost` | src/local_steward/document_query.py:139-153 | the count of occurrences taken from the left is the most that stand apart from each other |
| `DocumentQuery.MatchDocumentText` | src/local_steward/document_query.py:116-154 | no match exactly when no mode matches; otherwise the mode, with its own repairs, is the first of the four in the source's order that matches, the count is the greatest number of occurrences that stand apart, and the source span is that of the first occurrence, which contains the query |
| `PayloadReader.ReadChunks` | src/local_steward/payload_hashing.py:225-241 | whatever the file returns the loop ends, having added to the shared counter exactly the bytes it read, at most one chunk beyond the file limit; the clock is asked before every read and ends the loop the first time it has run out, and end of file and faults are what the last read answered |
| `PayloadReader.ReadEntry` | src/local_steward/payload_hashing.py:213-273 | a direct success if and only if the opened file matched the scan, was read to its end within both budgets, and was the same before and after by descriptor and by path; its digest is of exactly the bytes read; every failure status holds exactly in its case, each system error under its own |
| `PayloadReader.ObserveEntry` | src/local_steward/payload_hashing.py:184-273 | a file is opened if and only if it is readable, there is time, both budgets have room for it, it is local and links can be refused; otherwise nothing is read and each status holds exactly in its case: NOT_LOCAL if and only if the provider says so, UNSUPPORTED if and only if the entry is excluded or unobserved, its locality unknown or links cannot be refused |
| `PayloadReader.ObserveDirectPayloads` | src/local_steward/payload_hashing.py:153-284 | every entry of the session is observed in that sense, from the log of reads its predecessor left, with its digest over exactly its own reads; the bytes of direct successes never exceed what was read nor the total budget, and only the payload field of an entry changes |
| `PayloadReader.ProbeReuse` | src/local_steward/payload_hashing.py:327-372 | the probe settles an entry with the resolver's payload if and only if the file is readable, local, there in time, as scanned and unmoved around the resolver's answer, and with a failure exactly for a non-local or unknown file or lost time; it never reads |
| `PayloadReader.ObservePayloads` | src/local_steward/payload_hashing.py:298-384 | every entry is probed if and only if a resolver may be used and handed to the direct reader if and only if no probe settles it; threading one counter through single-entry calls keeps both bounds: reads at most the total budget plus one chunk, direct successes at most the total budget |
| `DuplicateAnalysis.MakeGroup` | src/local_steward/duplicate_analysis.py:419-513 | the unit-building loop yields the group its key and the whole Snapshot determine, whichever order objects come in |
| `DuplicateAnalysis.FindHintConflicts` | src/local_steward/duplicate_analysis.py:351-389 | alias sets, conflicts and conflicted objects are exactly those of the objects with several paths |
| `DuplicateAnalysis.FindSizeConflicts` | src/local_steward/duplicate_analysis.py:391-406 | exactly the entries whose digest stands for several sizes are set aside |
| `DuplicateAnalysis.ComputeSnapshotDuplicateAnalysis` | src/local_steward/duplicate_analysis.py:315-557 | an error exactly for foreign or repeated entries, otherwise an analysis that says what the entries tell and nothing else: its groups, aliases, conflicts, allocations and coverage are each characterized by an equivalence over the entries |
| `DuplicateAnalysis.GroupsTold` | src/local_steward/duplicate_analysis.py:408-513 | a group is reported if and only if it lists all paths of one known content of which there are two or more and whose digest has one size, with one unit for each object and each path without one, and its figures count the undisputed units |
| `DuplicateAnalysis.ConflictsTold` | src/local_steward/duplicate_analysis.py:367-403 | a conflict is reported if and only if two or more paths of one object disagree about content, size, link count or allocation, under the code for it, or one digest stands for several sizes |
| `DuplicateAnalysis.GroupsAreDisjoint` | src/local_steward/duplicate_analysis.py:408-513 | groups have at least two paths and no path in common |
| `DuplicateAnalysis.GroupedExactlyWhenShared` | src/local_steward/duplicate_analysis.py:391-513 | two paths stand in one group if and only if their contents are known to be equal under a digest of one size |
| `DuplicateAnalysis.CoverageAddsUp` | src/local_steward/duplicate_analysis.py:335-354 | known and unknown payloads add up to all regular files, by count and by bytes |
| `DuplicateAnalysis.RedundantBytesLeaveOneCopy` | src/local_steward/duplicate_analysis.py:475-495 | a redundant figure is given only when every path names a known, unconflicted object, equals the size times the further objects, and leaves at least one copy |
| `DuplicateAnalysis.AllocationCountedOnlyForSinglePaths` | src/local_steward/duplicate_analysis.py:523-534 | the physical summary counts an allocation if and only if the object has a single path and an allocation is known: never for a hard-linked file |
| `DuplicateAnalysis.HardLinkAllocationExample` | src/local_steward/duplicate_analysis.py:523-534 | two hard links with equal known allocation and no conflict whose allocation is not counted |
| `DuplicateAnalysis.EntryOrderDoesNotMatter` | src/local_steward/duplicate_analysis.py:315-557 | permuting the entries changes nothing in the analysis |
| `SnapshotRelations.TransitionRelations` | src/local_steward/snapshot_relations.py:391-474 | the loop emits, for exactly the hints found on both sides, the relation the evidence for that hint decides |
| `SnapshotRelations.TransitionsAreReported` | src/local_steward/snapshot_relations.py:391-474 | told by the entries: a hint is reported if and only if it is carried on both sides and all contents are known; as an ambiguity naming all paths if the object has several in either Snapshot, naming the moved ones if contents differ, and else as a move within one scope or across two |
| `SnapshotRelations.CandidatesAreOneToOne` | src/local_steward/snapshot_relations.py:455-473 | candidates form a one-to-one matching of removed to added locations |
| `SnapshotRelations.ProposedExactlyWhenSoleMatch` | src/local_steward/snapshot_relations.py:391-474 | a removed and an added location are proposed as one move if and only if each is the only path of the shared device and inode in its Snapshot, birth times agree and contents are known to be equal |
| `SnapshotRelations.CandidatesAvoidAmbiguity` | src/local_steward/snapshot_relations.py:427-454 | no location of a candidate occurs in an ambiguous component |
| `SnapshotRelations.ComponentsRepeatPerBirthTime` | src/local_steward/snapshot_relations.py:427-454 | two hints emit the same component if and only if they share device and inode: one report for each birth time |
| `SnapshotRelations.RepeatedComponentExample` | src/local_steward/snapshot_relations.py:427-454 | a pair of Snapshots in which one component is reported twice |
| `SnapshotRelations.ComputeSnapshotTransitions` | src/local_steward/snapshot_relations.py:487-521 | an error exactly for equal identities, wrong order, foreign or repeated entries; otherwise, between adjacent Snapshots, a relation is reported for a hint if and only if the entries only one side has say so, and none unless adjacent |
| `DocumentEvidence.ParentHeadings` | src/local_steward/document_evidence.py:179-194 | following parents until one repeats meets exactly the headings among all ancestors, also in a cycle and with repeated identifiers |
| `DocumentEvidence.HeadingTrail` | src/local_steward/document_evidence.py:179-207 | the trail is exactly the headings among the ancestors and the outline above the anchor |
| `DocumentEvidence.WindowIndexes` | src/local_steward/document_evidence.py:401-423 | the window is exactly the anchor and the first `context` items worth showing on each side before the container changes |
| `DocumentEvidence.SectionIndexes` | src/local_steward/document_evidence.py:426-449 | the siblings of a table item, else the span of the anchor or of the last heading of its trail, else the window |
| `DocumentEvidence.TrailEndsWithNearestHeading` | src/local_steward/document_evidence.py:196-207 | when parents precede children the trail ends with the nearest preceding heading if and only if that heading is an ancestor or its level is below 2^30 |
| `DocumentEvidence.SectionIsNearestSpan` | src/local_steward/document_evidence.py:426-449 | under that condition the section is the span of the nearest preceding heading and contains the anchor |
| `DocumentEvidence.NoHeadingNoTrail` | src/local_steward/document_evidence.py:437-441 | an item with no heading before it has no trail |
| `DocumentEvidence.DeepHeadingIsMissed` | src/local_steward/document_evidence.py:196-207 | a heading of level 2^30 is missed: the item below it has no trail |
| `DocumentEvidence.LateParentMovesTheSection` | src/local_steward/document_evidence.py:184-194 | a parent that follows its child puts a later heading at the end of the trail |
| `DocumentEvidence.BoundedItem` | src/local_steward/document_evidence.py:452-481 | an item is shown with a prefix of its text of at most 2048 characters, as long as the rest of the budget allows, and marked exactly when cut |
| `DocumentEvidence.PriorityOrder` | src/local_steward/document_evidence.py:513-520 | the selection ordered by anchor, trail, context, then distance, then position, each once |
| `DocumentEvidence.AcceptItems` | src/local_steward/document_evidence.py:521-544 | what is kept is an initial part of the order of preference, each with as much of its text as 2048 characters and the rest of the budget allow; anything is left out only when the budget is used up |
| `DocumentEvidence.BuildSlice` | src/local_steward/document_evidence.py:484-576 | a slice keeps its anchor, with as much of its text as the limits allow, and at most 4096 characters within the budget given |
| `DocumentEvidence.FindAnchors` | src/local_steward/document_evidence.py:594-596 | the items that match the query under some strategy, exactly these, in document order |
| `DocumentEvidence.BuildDocumentEvidenceSelection` | src/local_steward/document_evidence.py:579-659 | a page holds the slices of consecutive matching items from the offset, within limit and character budget, and stops early only for those |
| `DocumentEvidence.PageAdvancesExactlyWhenProductive` | src/local_steward/document_evidence.py:620-622 | with matches left the next offset moves on if and only if the document is searchable and limit and budget are positive |
| `DocumentEvidence.UnsearchableDocumentStandsStill` | src/local_steward/document_evidence.py:599-622 | a matching document that is not searchable hands back offset zero with more to come |
| `DocumentEvidence.FollowNextOffset` | src/local_steward/document_evidence.py:596-622 | following the next offset of productive requests from zero ends and visits every matching item exactly once, in order |

## Left out

- Schema validators, dataclass projections and canonical JSON: one flag says whether a document passes its intrinsic checks.
- SQLite, WAL, fsync, sidecar files, symbolic links and path checks around the index files: failures of any of them are one arbitrary choice at each checkpoint.
- The lists of mutations and recovery actions in a report, and the writer handoff: they do not influence the protocol.
- `runs cancel` and other callers of `transition_run` outside the acquisition lease: they read an index row that may lag the ledger, so the properties of chain and lag cover acquisition and recovery under the lease only.
- The acceptance rule for Runs without governed metadata is modelled in `Lifecycle.SnapshotRunCompatible`; nothing is proved about histories it accepts, since it accepts any history by design.
- SnapshotAcquisition.Store.TransitionRun: reasons are enumerated, one name for each text acquisition, cancellation and recovery give; their length check is not modelled, because all of them pass it.
- OperationalReplay.CaughtUpVerifies: payload reuse inside `_verify_snapshot` is modelled separately in `PayloadReuse`, not inside the acquisition protocol.
- OperationalReplay.ReplayClassified: the checks of classification against the index, reuse references of version 2 Snapshots and evidence identities across Runs, are not modelled.
- PayloadReuse.ValidateReuseReferences: the errors are given in entry order with their codes; sorting them by code and message at the end is not modelled.
- PayloadReuse.VerifiedReuseSourceSelector.Resolve: calls the verifier as a function of a depth bound; by `VerificationEndsExactlyWithoutCycle` one level more than there are rows is enough wherever verification ends.
- ParseCacheThreads.EveryInterleavingIsSound: assumes a deterministic computation per key, as the cache's callers do; a computation may raise at any time.
- IndexReplacement.Disk.ReplaceSnapshotIndex: the source digests the main database file, so a commit that is still in the write-ahead log between checkpoint and lock escapes its comparison; the model's digest sees it. Manifest files and retained temporary files are not modelled either.
- FilesystemScan.Scan: permission flags, link targets and error texts of entries are not modelled; a failed child is an entry of unknown kind with its status; a scope root that is itself a symbolic link is treated as not listable.
- DocumentQuery.MatchDocumentText: NFKC and case folding of a single character are an arbitrary function; the count is the number of non-overlapping occurrences.
- PayloadReader.ObserveDirectPayloads: entries are given in canonical order instead of being sorted, and failure and error codes are not modelled.
- DuplicateAnalysis.ComputeSnapshotDuplicateAnalysis: counters of payload statuses and reasons, group and alias identifiers and the sums of the physical summary are not modelled; its allocation per object is.
- SnapshotRelations.ComputeSnapshotTransitions: relations between equal locations (one per location, decided field by field) and digests of relation sets are left out.
- DocumentEvidence.BuildSlice: native locations, page numbers and slice digests are not modelled; role and level are taken as the source derives them, and items are listed in order of acceptance instead of by index.
- Snapshot diffs, change semantics, storage status reports, the command line, configuration, agents, exports and plugins: presentation, host integration or easy members.
