/**
 Snapshot acquisition and recovery as they run: ledger files are published and index transactions
 committed one after the other, and at every checkpoint in between the process may be told to
 fault, be interrupted by the operator, or be killed.
 */
module SnapshotAcquisition {
  import opened Options
  import opened StateMachine
  import opened Evidence
  import opened Lifecycle
  import opened RunIndex
  import opened AcquisitionLedger
  import opened OperationalReplay
  import opened RepositorySteps

  /** What happens at one checkpoint: nothing, an injected fault, an operator interrupt, process death. */
  datatype Signal = PASS | FAULT | INTERRUPT | KILL

  datatype ErrorCode =
    | RUN_NOT_FOUND | INVALID_TRANSITION | EVIDENCE_CONFLICT | SNAPSHOT_EVIDENCE_INVALID | INTEGRITY
    | NOT_CONFIRMED | NOT_GOVERNED | RECOVERY_REQUIRED | ACQUISITION_CANCELLED

  /** A call returns a value, stops at a signal, or raises one of the typed errors. */
  datatype Outcome<+T> = Done(value: T) | Stopped(signal: Signal) | Refused(error: ErrorCode)

  datatype Disposition =
    | RECOVERY_REQUIRED_PRE_SCAN | RECOVERY_REQUIRED_CLOSE_SNAPSHOT | RECOVERY_REQUIRED_NO_SNAPSHOT
    | RECOVERY_REQUIRED_VERIFY | RECOVERY_REQUIRED_INDEX
    | COMPLETE_RESULT | PARTIAL_RESULT | FAILED_RESULT | CANCELLED_RESULT | INVALID_RESULT

  datatype Report = Report(disposition: Disposition, status: RunStatus, verified: bool)

  predicate Quiet(script: seq<Signal>) {
    forall i :: 0 <= i < |script| ==> script[i] == PASS
  }

  /** At most one checkpoint of the script stops the process. */
  predicate OneStop(script: seq<Signal>) {
    forall i, j :: 0 <= i < j < |script| ==> script[i] == PASS || script[j] == PASS
  }

  function StopOf<T>(outcome: Outcome<T>): Option<Signal> {
    if outcome.Stopped? then Some(outcome.signal) else None
  }

  /** The script before was used up to `after`: nothing stopped, or the last signal used was the stop. */
  predicate Consumed(before: seq<Signal>, after: seq<Signal>, stop: Option<Signal>) {
    && |after| <= |before| && after == before[|before| - |after|..]
    && (stop.None? ==> Quiet(before[..|before| - |after|]))
    && (stop.Some? ==>
          && stop.value != PASS && |after| < |before| && before[|before| - |after| - 1] == stop.value
          && Quiet(before[..|before| - |after| - 1]))
  }

  lemma ConsumedComposes(a: seq<Signal>, b: seq<Signal>, c: seq<Signal>, stop: Option<Signal>)
    requires Consumed(a, b, None) && Consumed(b, c, stop)
    ensures Consumed(a, c, stop)
  {
    var m, n := |a| - |b|, |b| - |c|;
    assert b == a[m..];
    assert forall i :: 0 <= i < n ==> a[m + i] == b[i];
    forall i | 0 <= i < m ensures a[i] == PASS {
      assert a[..m][i] == PASS;
    }
    var k := if stop.None? then n else n - 1;
    forall i | 0 <= i < m + k ensures a[i] == PASS {
      if i >= m {
        assert b[..k][i - m] == PASS;
      }
    }
  }

  lemma ConsumedNothing(script: seq<Signal>)
    ensures Consumed(script, script, None)
  {
  }

  lemma QuietConsumed(before: seq<Signal>, after: seq<Signal>, stop: Option<Signal>)
    requires Consumed(before, after, stop)
    ensures Quiet(before) ==> stop.None? && Quiet(after)
    ensures OneStop(before) && stop.Some? ==> Quiet(after)
    ensures stop.Some? ==> stop.value in before && stop.value != PASS
  {
    assert forall i :: 0 <= i < |after| ==> after[i] == before[|before| - |after| + i];
  }

  /** `_state_disposition` for a governed Run. */
  function StateDisposition(documents: seq<Document>): Disposition {
    var status := StatusOf(documents);
    var snapshots := SnapshotsIn(documents);
    if status == CREATED then RECOVERY_REQUIRED_PRE_SCAN
    else if status == SCANNING then
      if snapshots != [] then RECOVERY_REQUIRED_CLOSE_SNAPSHOT else RECOVERY_REQUIRED_NO_SNAPSHOT
    else if status in {SCANNED, PARTIAL, VERIFYING} then RECOVERY_REQUIRED_VERIFY
    else if status == VERIFIED && snapshots != [] && snapshots[0].body.payload.Observation? then
      if snapshots[0].body.payload.snapshot.status == PARTIAL_SNAPSHOT then PARTIAL_RESULT else COMPLETE_RESULT
    else if status == FAILED then FAILED_RESULT
    else if status == CANCELLED then CANCELLED_RESULT
    else INVALID_RESULT
  }

  /** `_run_index_matches`: the row agrees with the ledger in status, length and last digest. */
  predicate RunIndexMatches(ledgers: Ledgers, index: Index, run: RunId) {
    && run in ledgers && ledgers[run] != [] && run in index.runs
    && index.runs[run].row.status == StatusOf(ledgers[run])
    && index.runs[run].row.lastSequence == |ledgers[run]|
    && Some(index.runs[run].row.lastDigest) == LastDigest(ledgers[run])
  }

  /** `_verification` says VALID. */
  predicate Verified(ledgers: Ledgers, index: Index, run: RunId) {
    && run in ledgers && SnapshotsIn(ledgers[run]) != [] && RunIndexMatches(ledgers, index, run)
    && VerifySnapshot(ledgers, index, OwnSnapshotId(ledgers[run])) == VALID
  }

  /** `_report`. */
  function ReportOf(ledgers: Ledgers, index: Index, run: RunId): Report
    requires run in ledgers
  {
    var status, verified := StatusOf(ledgers[run]), Verified(ledgers, index, run);
    var mismatch := status in {VERIFIED, FAILED, CANCELLED} && !RunIndexMatches(ledgers, index, run);
    Report(if mismatch || (status == VERIFIED && !verified) then RECOVERY_REQUIRED_INDEX else StateDisposition(ledgers[run]),
           status, verified)
  }

  /** `_evidence`: the next document after the given last sequence and digest. */
  function NextEvidence(id: nat, evidenceType: EvidenceType, run: RunId, lastSequence: int, now: nat, configDigest: nat,
                        lastDigest: Option<Digest>, schemaVersion: nat, payload: Payload): Document {
    Seal(Body(id, evidenceType, run, lastSequence + 1, now, configDigest, lastDigest, schemaVersion, payload))
  }

  lemma WriteAppends(files: seq<Document>, item: Document)
    requires Chained(files) && Links(files, item)
    ensures WriteEvidence(files, item) == Some(files + [item])
  {
    forall i | 0 <= i < |files| ensures files[i].body.sequence == i + 1 {
      ChainedAt(files, i);
    }
  }

  /** The effect of `transition_run`: nothing, one published document, or that and a caught-up row. */
  ghost predicate TransitionEffect(before: Repo, after: Repo, run: RunId, target: RunStatus, reason: Reason, done: bool) {
    && run in before.ledgers && RunSound(before, run) && Moved(StageAt(before, run), target).Some?
    && Sound(after) && OnlyTouches(before, after, run) && run in after.ledgers && RunSound(after, run)
    && |after.ledgers[run]| <= Indexed(after.index, run) + 1
    && (after.ledgers[run] == before.ledgers[run]
        || (OneTransition(before.ledgers[run], after.ledgers[run], target, reason)
            && StageAt(after, run) == Moved(StageAt(before, run), target).value))
    && (after.ledgers[run] == before.ledgers[run] ==> after.index == before.index)
    && SameElsewhere(before.index, after.index, run)
    && (done ==> CaughtUp(after, run) && OneTransition(before.ledgers[run], after.ledgers[run], target, reason))
  }

  /** A caught-up row holds the ledger's status, length, last digest and configuration. */
  lemma RowOfCaughtUp(repo: Repo, run: RunId)
    requires Sound(repo) && IsGovernedRun(repo, run) && CaughtUp(repo, run)
    ensures run in repo.index.runs
    ensures var row := repo.index.runs[run].row;
            && row.status == StageStatus(StageAt(repo, run)) && row.lastSequence == |repo.ledgers[run]|
            && row.lastDigest == repo.ledgers[run][|repo.ledgers[run]| - 1].evidenceDigest
            && row.configDigest == repo.ledgers[run][0].body.configDigest
            && repo.index.runs[run] == Project(repo.ledgers[run])
    ensures StageSound(StageAt(repo, run), repo.ledgers[run])
  {
    StageDetermines(repo.ledgers[run]);
    assert repo.ledgers[run][..|repo.ledgers[run]|] == repo.ledgers[run];
  }

  /** The document `transition_run` seals from the index row it has read. */
  function TransitionEvidence(id: nat, run: RunId, row: RunRow, target: RunStatus, reason: Reason, now: nat): Document {
    NextEvidence(id, STATE_TRANSITION, run, row.lastSequence, now, row.configDigest, Some(row.lastDigest), 1,
                 Transition(row.status, target, reason))
  }

  lemma NewIdentityLinks(repo: Repo, run: RunId, item: Document)
    requires Sound(repo) && run in repo.ledgers && RunSound(repo, run)
    requires item.body.evidenceId >= repo.supply && item == Seal(item.body)
    requires item.body.sequence == |repo.ledgers[run]| + 1 && item.body.previous == LastDigest(repo.ledgers[run])
    requires item.body.runId == run && item.body.configDigest == repo.ledgers[run][0].body.configDigest
    ensures Links(repo.ledgers[run], item)
  {
    assert Bounded(repo.ledgers[run], repo.supply);
    forall i | 0 <= i < |repo.ledgers[run]| ensures repo.ledgers[run][i].evidenceDigest != item.evidenceDigest {
      ChainedAt(repo.ledgers[run], i);
    }
  }

  lemma TransitionMayPublish(repo: Repo, run: RunId, target: RunStatus, reason: Reason, now: nat)
    requires Sound(repo) && IsGovernedRun(repo, run) && CaughtUp(repo, run)
    requires Moved(StageAt(repo, run), target).Some?
    ensures run in repo.index.runs
    ensures var item := TransitionEvidence(repo.supply, run, repo.index.runs[run].row, target, reason, now);
            MayPublish(repo, run, item, repo.supply + 2) && Next(StageAt(repo, run), item) == Moved(StageAt(repo, run), target)
  {
    RowOfCaughtUp(repo, run);
    NewIdentityLinks(repo, run, TransitionEvidence(repo.supply, run, repo.index.runs[run].row, target, reason, now));
  }

  /** The target of a protocol move is always an edge of the transition graph. */
  lemma MovesAreAllowed(repo: Repo, run: RunId, target: RunStatus)
    requires Sound(repo) && IsGovernedRun(repo, run) && CaughtUp(repo, run)
    requires Moved(StageAt(repo, run), target).Some?
    ensures run in repo.index.runs && target in AllowedTargets(repo.index.runs[run].row.status)
    ensures repo.index.runs[run].row.status != CANCELLED
  {
    RowOfCaughtUp(repo, run);
    var item := TransitionEvidence(repo.supply, run, repo.index.runs[run].row, target, OTHER_REASON(""), 0);
    var stage := StageAt(repo, run);
    assert forall fact :: fact in StageSnapshots(stage) ==> fact == StageSnapshots(stage)[0];
    NextIsAllowed(stage, item);
  }

  /** The rows `transition_run` commits for the document it published. */
  function TransitionRows(index: Index, run: RunId, item: Document, target: RunStatus): Index
    requires run in index.runs
  {
    index.(runs := index.runs[run := UpdatedByTransition(index.runs[run], item, target)])
  }

  lemma TouchesNothing(repo: Repo, run: RunId)
    ensures OnlyTouches(repo, repo, run)
  {
  }

  lemma TransitionIsOne(before: Repo, run: RunId, target: RunStatus, reason: Reason, now: nat)
    requires Sound(before) && IsGovernedRun(before, run) && CaughtUp(before, run) && run in before.index.runs
    ensures var item := TransitionEvidence(before.supply, run, before.index.runs[run].row, target, reason, now);
            OneTransition(before.ledgers[run], before.ledgers[run] + [item], target, reason)
  {
    RowOfCaughtUp(before, run);
  }

  lemma TransitionPublishes(before: Repo, run: RunId, target: RunStatus, reason: Reason, now: nat)
    requires Sound(before) && IsGovernedRun(before, run) && CaughtUp(before, run)
    requires Moved(StageAt(before, run), target).Some? && run in before.index.runs
    ensures var item := TransitionEvidence(before.supply, run, before.index.runs[run].row, target, reason, now);
            && TransitionEffect(before, before, run, target, reason, false)
            && TransitionEffect(before, Published(before, run, item, before.supply + 2), run, target, reason, false)
  {
    hide Sound, OnlyTouches, MayPublish, Chained, Governed, ReplaysPrefix, Unshared, Moved, Next, OneTransition;
    GovernedIsSound(before, run);
    TouchesNothing(before, run);
    TransitionMayPublish(before, run, target, reason, now);
    TransitionIsOne(before, run, target, reason, now);
    PublishKeepsSound(before, run, TransitionEvidence(before.supply, run, before.index.runs[run].row, target, reason, now), before.supply + 2);
  }

  lemma TouchesCompose(a: Repo, b: Repo, c: Repo, run: RunId)
    requires OnlyTouches(a, b, run) && OnlyTouches(b, c, run)
    ensures OnlyTouches(a, c, run)
  {
    hide Governed;
  }

  lemma TransitionRowsAreCommitted(before: Repo, run: RunId, target: RunStatus, reason: Reason, now: nat)
    requires Sound(before) && IsGovernedRun(before, run) && CaughtUp(before, run)
    requires Moved(StageAt(before, run), target).Some? && run in before.index.runs
    ensures var item := TransitionEvidence(before.supply, run, before.index.runs[run].row, target, reason, now);
            TransitionRows(before.index, run, item, target) == Committed(before.index, run, before.ledgers[run] + [item])
  {
    RowOfCaughtUp(before, run);
    TransitionMayPublish(before, run, target, reason, now);
    var item := TransitionEvidence(before.supply, run, before.index.runs[run].row, target, reason, now);
    hide Sound, RunSound, StageOf, Chained, Next, Moved, StageSound, Project;
    TransitionEqualsRebuild(before.ledgers[run], item);
  }

  /** A published document and the rows for it, committed right after. */
  lemma PublishThenCommit(before: Repo, run: RunId, item: Document, supply: nat, rows: Index)
    requires MayPublish(before, run, item, supply) && CaughtUp(before, run)
    requires rows == Committed(before.index, run, before.ledgers[run] + [item])
    ensures var published := Published(before, run, item, supply);
            var committed := published.(index := rows);
            && RunSound(published, run) && Sound(committed) && RunSound(committed, run) && CaughtUp(committed, run)
            && Some(StageAt(published, run)) == Next(StageAt(before, run), item) && StageAt(committed, run) == StageAt(published, run)
            && OnlyTouches(before, published, run) && OnlyTouches(before, committed, run)
  {
    PublishKeepsSound(before, run, item, supply);
    hide MayPublish, Sound, RunSound, OnlyTouches, StageOf, Committed, Next;
    var published := Published(before, run, item, supply);
    CommitKeepsSound(published, run);
    TouchesCompose(before, published, published.(index := rows), run);
  }

  lemma TransitionRowsElsewhere(index: Index, run: RunId, item: Document, target: RunStatus)
    requires run in index.runs
    ensures SameElsewhere(index, TransitionRows(index, run, item, target), run)
  {
  }

  lemma TransitionCommits(before: Repo, run: RunId, target: RunStatus, reason: Reason, now: nat)
    requires Sound(before) && IsGovernedRun(before, run) && CaughtUp(before, run)
    requires Moved(StageAt(before, run), target).Some? && run in before.index.runs
    ensures var item := TransitionEvidence(before.supply, run, before.index.runs[run].row, target, reason, now);
            var committed := Published(before, run, item, before.supply + 2).(index := TransitionRows(before.index, run, item, target));
            && TransitionEffect(before, committed, run, target, reason, false)
            && TransitionEffect(before, committed, run, target, reason, true)
  {
    hide Sound, OnlyTouches, MayPublish, Chained, Governed, ReplaysPrefix, Unshared, Moved, Next, OneTransition, StageOf,
         SameElsewhere, TransitionRows, Committed;
    GovernedIsSound(before, run);
    TransitionIsOne(before, run, target, reason, now);
    TransitionMayPublish(before, run, target, reason, now);
    TransitionRowsAreCommitted(before, run, target, reason, now);
    var item := TransitionEvidence(before.supply, run, before.index.runs[run].row, target, reason, now);
    PublishThenCommit(before, run, item, before.supply + 2, TransitionRows(before.index, run, item, target));
    TransitionRowsElsewhere(before.index, run, item, target);
  }

  // ------------------------------------------------------------------ creation and persistence

  /** The first document of a governed Run, as `create_run` publishes it. */
  predicate IsCreation(d: Document, configDigest: nat, metadata: Metadata) {
    d.body.payload == Creation(FilesystemSnapshotRun, CREATED, metadata) && d.body.configDigest == configDigest
  }

  ghost predicate CreateEffect(before: Repo, after: Repo, run: RunId, configDigest: nat, metadata: Metadata, done: bool) {
    && Sound(after) && OnlyTouches(before, after, run) && SameElsewhere(before.index, after.index, run)
    && (run !in after.ledgers ==> after == before)
    && (run in after.ledgers ==>
          && RunSound(after, run) && StageAt(after, run) == AtCreated && |after.ledgers[run]| <= Indexed(after.index, run) + 1
          && |after.ledgers[run]| == 1 && IsCreation(after.ledgers[run][0], configDigest, metadata))
    && (done ==> run in after.ledgers && CaughtUp(after, run))
  }

  lemma CreatePublishes(before: Repo, run: RunId, configDigest: nat, metadata: Metadata, now: nat)
    requires Sound(before) && run !in before.ledgers && SupportedMetadata(metadata, configDigest)
    ensures var item := NextEvidence(before.supply, RUN_CREATED, run, 0, now, configDigest, None, 1,
                                     Creation(FilesystemSnapshotRun, CREATED, metadata));
            var published := Repo(before.ledgers[run := [item]], before.index, before.supply + 1);
            && CreateEffect(before, before, run, configDigest, metadata, false)
            && CreateEffect(before, published, run, configDigest, metadata, false)
            && Sound(published) && RunSound(published, run) && StageAt(published, run) == AtCreated && OnlyTouches(before, published, run)
            && Governed([item]) && WriteEvidence([], item) == Some([item])
  {
    var item := NextEvidence(before.supply, RUN_CREATED, run, 0, now, configDigest, None, 1,
                             Creation(FilesystemSnapshotRun, CREATED, metadata));
    assert [] + [item] == [item];
    hide Sound, Chained, ReplaysPrefix, Unshared, StageOf;
    CreateKeepsSound(before, run, item);
  }

  lemma CreateRowsAreCommitted(index: Index, run: RunId, item: Document, configDigest: nat, metadata: Metadata)
    requires item.body.payload == Creation(FilesystemSnapshotRun, CREATED, metadata) && item.body.evidenceType == RUN_CREATED
    requires item.body.configDigest == configDigest && item.body.schemaVersion == 1 && Links([], item)
    ensures var rows := InsertedByCreate(item, FilesystemSnapshotRun, configDigest, metadata);
            var next := index.(runs := index.runs[run := rows]);
            next == Committed(index, run, [item]) && SameElsewhere(index, next, run)
  {
    CreateEqualsRebuild(item);
  }

  lemma CreateCommits(before: Repo, run: RunId, configDigest: nat, metadata: Metadata, now: nat)
    requires Sound(before) && run !in before.ledgers && SupportedMetadata(metadata, configDigest)
    ensures var item := NextEvidence(before.supply, RUN_CREATED, run, 0, now, configDigest, None, 1,
                                     Creation(FilesystemSnapshotRun, CREATED, metadata));
            var published := Repo(before.ledgers[run := [item]], before.index, before.supply + 1);
            var rows := InsertedByCreate(item, FilesystemSnapshotRun, configDigest, metadata);
            var committed := before.index.(runs := before.index.runs[run := rows]);
            && CreateEffect(before, before, run, configDigest, metadata, false)
            && CreateEffect(before, published, run, configDigest, metadata, false)
            && CreateEffect(before, published.(index := committed), run, configDigest, metadata, false)
            && CreateEffect(before, published.(index := committed), run, configDigest, metadata, true)
            && WriteEvidence([], item) == Some([item])
  {
    var item := NextEvidence(before.supply, RUN_CREATED, run, 0, now, configDigest, None, 1,
                             Creation(FilesystemSnapshotRun, CREATED, metadata));
    CreatePublishes(before, run, configDigest, metadata, now);
    hide Sound, RunSound, Chained, ReplaysPrefix, Unshared, StageOf, SupportedMetadata, Committed, SameElsewhere, InsertedByCreate;
    CreateRowsAreCommitted(before.index, run, item, configDigest, metadata);
    var published := Repo(before.ledgers[run := [item]], before.index, before.supply + 1);
    var rows := InsertedByCreate(item, FilesystemSnapshotRun, configDigest, metadata);
    CommitKeepsSound(published, run);
  }

  /** The effect of `_persist`: nothing, the Snapshot document, or that and a caught-up index. */
  ghost predicate PersistEffect(before: Repo, after: Repo, run: RunId, snapshot: Snapshot, done: bool) {
    && run in before.ledgers
    && Sound(after) && OnlyTouches(before, after, run) && run in after.ledgers && RunSound(after, run)
    && |after.ledgers[run]| <= Indexed(after.index, run) + 1
    && (after.ledgers[run] == before.ledgers[run]
        || (|after.ledgers[run]| == |before.ledgers[run]| + 1 && before.ledgers[run] <= after.ledgers[run]
            && StageAt(after, run).AtSnapshot? && StageAt(after, run).fact == after.ledgers[run][|before.ledgers[run]|]
            && StageAt(after, run).fact.body.payload == Observation(snapshot)))
    && SameElsewhere(before.index, after.index, run)
    && (done ==> CaughtUp(after, run) && |after.ledgers[run]| == |before.ledgers[run]| + 1)
  }

  /** The Snapshot document `_persist` seals from the index row it has read. */
  function SnapshotEvidence(id: nat, run: RunId, row: RunRow, snapshot: Snapshot, now: nat): Document {
    NextEvidence(id, FILESYSTEM_SNAPSHOT, run, row.lastSequence, now, row.configDigest, Some(row.lastDigest), 1, Observation(snapshot))
  }

  ghost predicate MayPersist(repo: Repo, run: RunId, snapshot: Snapshot) {
    && Sound(repo) && IsGovernedRun(repo, run) && CaughtUp(repo, run) && StageAt(repo, run) == AtScanning
    && snapshot.runId == run && snapshot.status != FAILED_SNAPSHOT && snapshot.snapshotId == repo.supply + 1
  }

  /** The rows `_persist` commits for the Snapshot document it published. */
  function SnapshotRows(index: Index, run: RunId, item: Document, snapshot: Snapshot): Index
    requires run in index.runs
  {
    Index(index.runs[run := UpdatedByPersist(index.runs[run], item, 1)],
          index.snapshots[snapshot.snapshotId := SnapshotRow(snapshot, item.body.evidenceId, FileName(item))])
  }

  lemma PersistMayPublish(before: Repo, run: RunId, snapshot: Snapshot, now: nat)
    requires MayPersist(before, run, snapshot)
    ensures run in before.index.runs && PersistEffect(before, before, run, snapshot, false)
    ensures snapshot.intrinsic ==>
            MayPublish(before, run, SnapshotEvidence(before.supply, run, before.index.runs[run].row, snapshot, now), before.supply + 2)
  {
    RowOfCaughtUp(before, run);
    NewIdentityLinks(before, run, SnapshotEvidence(before.supply, run, before.index.runs[run].row, snapshot, now));
  }

  lemma PersistPublishes(before: Repo, run: RunId, snapshot: Snapshot, now: nat)
    requires MayPersist(before, run, snapshot) && snapshot.intrinsic && run in before.index.runs
    ensures var item := SnapshotEvidence(before.supply, run, before.index.runs[run].row, snapshot, now);
            PersistEffect(before, Published(before, run, item, before.supply + 2), run, snapshot, false)
  {
    PersistMayPublish(before, run, snapshot, now);
    hide Sound, RunSound, OnlyTouches, StageOf, Governed, MayPublish, SameElsewhere, Links;
    var item := SnapshotEvidence(before.supply, run, before.index.runs[run].row, snapshot, now);
    PublishKeepsSound(before, run, item, before.supply + 2);
    assert Next(StageAt(before, run), item) == Some(AtSnapshot(item));
  }

  lemma SnapshotRowsAreCommitted(before: Repo, run: RunId, snapshot: Snapshot, now: nat)
    requires MayPersist(before, run, snapshot) && run in before.index.runs
    ensures var item := SnapshotEvidence(before.supply, run, before.index.runs[run].row, snapshot, now);
            SnapshotRows(before.index, run, item, snapshot) == Committed(before.index, run, before.ledgers[run] + [item])
  {
    RowOfCaughtUp(before, run);
    var item := SnapshotEvidence(before.supply, run, before.index.runs[run].row, snapshot, now);
    assert Links(before.ledgers[run], item) by {
      NewIdentityLinks(before, run, item);
    }
    hide Sound, RunSound, StageOf, Chained, StageSound;
    PersistEqualsRebuild(before.ledgers[run], item);
  }

  lemma SnapshotRowsElsewhere(repo: Repo, run: RunId, item: Document, snapshot: Snapshot)
    requires Sound(repo) && run in repo.index.runs && snapshot.snapshotId >= repo.supply && snapshot.runId == run
    ensures SameElsewhere(repo.index, SnapshotRows(repo.index, run, item, snapshot), run)
  {
  }

  lemma PersistCommits(before: Repo, run: RunId, snapshot: Snapshot, now: nat)
    requires MayPersist(before, run, snapshot) && snapshot.intrinsic && run in before.index.runs
    ensures var item := SnapshotEvidence(before.supply, run, before.index.runs[run].row, snapshot, now);
            var committed := Published(before, run, item, before.supply + 2).(index := SnapshotRows(before.index, run, item, snapshot));
            PersistEffect(before, committed, run, snapshot, false) && PersistEffect(before, committed, run, snapshot, true)
  {
    hide Sound, OnlyTouches, MayPublish, Chained, Governed, ReplaysPrefix, Unshared, Next, StageOf, SameElsewhere, SnapshotRows, Committed;
    PersistPublishes(before, run, snapshot, now);
    PersistMayPublish(before, run, snapshot, now);
    SnapshotRowsAreCommitted(before, run, snapshot, now);
    var item := SnapshotEvidence(before.supply, run, before.index.runs[run].row, snapshot, now);
    PublishThenCommit(before, run, item, before.supply + 2, SnapshotRows(before.index, run, item, snapshot));
    SnapshotRowsElsewhere(before, run, item, snapshot);
  }

  // ------------------------------------------------------------------ recovery steps

  /** The final length of a Run's ledger: what it has and what recovery still has to add. */
  function FinalLength(repo: Repo, run: RunId): nat
    requires run in repo.ledgers && ProtocolLedger(run, repo.ledgers[run])
  {
    |repo.ledgers[run]| + Remaining(StageAt(repo, run))
  }

  /** What recovery and cancellation have in common: the ledger of `run` grows, its Snapshots stay, and
      other Runs keep their ledgers and rows, or have their rows replayed. */
  ghost predicate ExtensionEffect(before: Repo, after: Repo, run: RunId) {
    && Sound(before) && IsGovernedRun(before, run) && RunSound(before, run)
    && Sound(after) && OnlyTouches(before, after, run) && IsGovernedRun(after, run) && RunSound(after, run)
    && before.ledgers[run] <= after.ledgers[run]
    && SnapshotsIn(after.ledgers[run]) == SnapshotsIn(before.ledgers[run])
    && OthersIndexed(before, after, run)
    && (CaughtUp(before, run) && after.ledgers[run] == before.ledgers[run] ==> CaughtUp(after, run))
  }

  /** What any part of a recovery may do: extend the ledger of `run` along its course, which stays the same. */
  ghost predicate RecoveryEffect(before: Repo, after: Repo, run: RunId) {
    && ExtensionEffect(before, after, run)
    && FinalLength(after, run) == FinalLength(before, run)
    && Course(after.ledgers[run]) == Course(before.ledgers[run])
  }

  lemma ExtensionComposes(a: Repo, b: Repo, c: Repo, run: RunId)
    requires ExtensionEffect(a, b, run) && ExtensionEffect(b, c, run)
    ensures ExtensionEffect(a, c, run)
  {
    hide OthersIndexed, Sound, RunSound, OnlyTouches, Governed, SnapshotsIn;
    OthersIndexedComposes(a, b, c, run);
    TouchesCompose(a, b, c, run);
  }

  lemma RecoveryComposes(a: Repo, b: Repo, c: Repo, run: RunId)
    requires RecoveryEffect(a, b, run) && RecoveryEffect(b, c, run)
    ensures RecoveryEffect(a, c, run)
  {
    ExtensionComposes(a, b, c, run);
    hide OthersIndexed, Sound, Chained, ReplaysPrefix, Unshared, OnlyTouches, SnapshotsIn;
  }

  ghost predicate OthersReplayable(repo: Repo, run: RunId) {
    forall q :: q in repo.ledgers && q != run ==> Classifiable(repo.ledgers, q)
  }

  ghost predicate AllReplayable(repo: Repo) {
    forall q :: q in repo.ledgers ==> Classifiable(repo.ledgers, q)
  }

  lemma OthersStayReplayable(before: Repo, after: Repo, run: RunId)
    requires ExtensionEffect(before, after, run)
    ensures OthersReplayable(before, run) <==> OthersReplayable(after, run)
  {
    assert before.ledgers.Keys == after.ledgers.Keys;
    forall q | q in before.ledgers && q != run
      ensures Classifiable(before.ledgers, q) <==> Classifiable(after.ledgers, q)
    {
      ClassificationIsLocal(before.ledgers, after.ledgers, run, q);
    }
  }

  /** Every move but the start of scanning spends one of the documents still to be appended. */
  lemma MoveSpendsOne(stage: Stage, target: RunStatus)
    requires Moved(stage, target).Some? && target != SCANNING
    ensures Remaining(Moved(stage, target).value) + 1 == Remaining(stage)
    ensures StageSnapshots(Moved(stage, target).value) == StageSnapshots(stage)
  {
  }

  lemma SnapshotsOfStage(repo: Repo, run: RunId)
    requires run in repo.ledgers && RunSound(repo, run)
    ensures SnapshotsIn(repo.ledgers[run]) == StageSnapshots(StageAt(repo, run)) && Governed(repo.ledgers[run])
  {
    StageDetermines(repo.ledgers[run]);
  }

  /** The next transition recovery owes this Run. */
  predicate Owed(documents: seq<Document>, target: RunStatus, reason: Reason) {
    var plan := RecoveryPlan(StatusOf(documents), SnapshotsIn(documents));
    plan != [] && plan[0] == Step(StatusOf(documents), target, reason)
  }

  /** What the plan of a ledger is, by its stage. */
  lemma PlanOfStage(documents: seq<Document>)
    requires StageOf(documents).Some?
    ensures var stage := StageOf(documents).value;
            && StatusOf(documents) == StageStatus(stage) && SnapshotsIn(documents) == StageSnapshots(stage)
            && forall fact :: fact in StageSnapshots(stage) ==> IsUsableSnapshot(fact)
  {
    StageDetermines(documents);
    var stage := StageOf(documents).value;
    assert forall fact :: fact in StageSnapshots(stage) ==> fact == StageSnapshots(stage)[0];
  }

  /** An owed transition leaves the course of the Run as it was. */
  lemma OwedKeepsCourse(before: seq<Document>, after: seq<Document>, target: RunStatus, reason: Reason)
    requires StageOf(before).Some? && Moved(StageOf(before).value, target).Some? && StageOf(after) == Moved(StageOf(before).value, target)
    requires OneTransition(before, after, target, reason) && Owed(before, target, reason)
    ensures Course(after) == Course(before) && SnapshotsIn(after) == SnapshotsIn(before)
  {
    PlanOfStage(before);
    PlanOfStage(after);
    StepsOfOneMore(before, after, target, reason);
    PlanMoves(StageOf(before).value, target);
    hide StageOf, StepsOf, StatusOf, SnapshotsIn, RecoveryPlan, Moved, OneTransition, StageStatus, StageSnapshots;
    var plan := RecoveryPlan(StatusOf(before), SnapshotsIn(before));
    assert plan == [plan[0]] + plan[1..];
  }

  /** A transition is one step of a recovery, in the ledger and in the index. */
  lemma TransitionRecovers(before: Repo, after: Repo, run: RunId, target: RunStatus, reason: Reason, done: bool)
    requires Sound(before) && IsGovernedRun(before, run) && CaughtUp(before, run) && TransitionEffect(before, after, run, target, reason, done)
    requires target != SCANNING && Owed(before.ledgers[run], target, reason)
    ensures RecoveryEffect(before, after, run)
  {
    hide Sound, OnlyTouches, StageOf, Chained, Governed, SnapshotsIn, Moved, Remaining, StageSnapshots, ReplaysPrefix, Unshared,
         SameElsewhere, ReplayedElsewhere, Course, Owed;
    SnapshotsOfStage(before, run);
    SnapshotsOfStage(after, run);
    MoveSpendsOne(StageAt(before, run), target);
    if after.ledgers[run] != before.ledgers[run] {
      StageOfRun(before, run);
      StageOfRun(after, run);
      OwedKeepsCourse(before.ledgers[run], after.ledgers[run], target, reason);
    }
  }

  /** `_append_transition_from_ledger` seals its document from the ledger, not from the index row. */
  function LedgerTransition(id: nat, run: RunId, documents: seq<Document>, target: RunStatus, reason: Reason, now: nat): Document
    requires documents != []
  {
    NextEvidence(id, STATE_TRANSITION, run, |documents|, now, documents[0].body.configDigest, LastDigest(documents), 1,
                 Transition(StatusOf(documents), target, reason))
  }

  /** The stages that recovery closes by an append of its own. */
  predicate Open(stage: Stage) {
    stage.AtCreated? || stage.AtScanning? || stage.AtSnapshot?
  }

  ghost predicate MayAppend(repo: Repo, run: RunId, target: RunStatus) {
    && Sound(repo) && IsGovernedRun(repo, run)
    && Open(StageAt(repo, run)) && target != SCANNING && Moved(StageAt(repo, run), target).Some?
  }

  lemma AppendMayPublish(repo: Repo, run: RunId, target: RunStatus, reason: Reason, now: nat)
    requires MayAppend(repo, run, target)
    ensures repo.ledgers[run] != []
    ensures var item := LedgerTransition(repo.supply, run, repo.ledgers[run], target, reason, now);
            MayPublish(repo, run, item, repo.supply + 2) && Next(StageAt(repo, run), item) == Moved(StageAt(repo, run), target)
  {
    StageDetermines(repo.ledgers[run]);
    NewIdentityLinks(repo, run, LedgerTransition(repo.supply, run, repo.ledgers[run], target, reason, now));
  }

  lemma NothingRecovers(repo: Repo, run: RunId)
    requires Sound(repo) && IsGovernedRun(repo, run)
    ensures RecoveryEffect(repo, repo, run) && ExtensionEffect(repo, repo, run)
  {
  }

  lemma GovernedIsSound(repo: Repo, run: RunId)
    requires Sound(repo) && IsGovernedRun(repo, run)
    ensures RunSound(repo, run)
  {
  }

  /** The effect of a ledger-side append: nothing, or one more document with the index left alone. */
  ghost predicate AppendEffect(before: Repo, after: Repo, run: RunId, target: RunStatus, reason: Reason, done: bool) {
    && ExtensionEffect(before, after, run) && after.index == before.index && Moved(StageAt(before, run), target).Some?
    && (after == before
        || (OneTransition(before.ledgers[run], after.ledgers[run], target, reason)
            && StageAt(after, run) == Moved(StageAt(before, run), target).value))
    && (done ==> OneTransition(before.ledgers[run], after.ledgers[run], target, reason))
  }

  lemma AppendIsOne(repo: Repo, run: RunId, target: RunStatus, reason: Reason, now: nat)
    requires run in repo.ledgers && repo.ledgers[run] != []
    ensures var item := LedgerTransition(repo.supply, run, repo.ledgers[run], target, reason, now);
            OneTransition(repo.ledgers[run], repo.ledgers[run] + [item], target, reason)
  {
  }

  lemma AppendPublishes(repo: Repo, run: RunId, target: RunStatus, reason: Reason, now: nat)
    requires MayAppend(repo, run, target) && repo.ledgers[run] != []
    ensures var item := LedgerTransition(repo.supply, run, repo.ledgers[run], target, reason, now);
            && AppendEffect(repo, repo, run, target, reason, false)
            && AppendEffect(repo, Published(repo, run, item, repo.supply + 2), run, target, reason, false)
            && AppendEffect(repo, Published(repo, run, item, repo.supply + 2), run, target, reason, true)
  {
    hide Sound, OnlyTouches, StageOf, Chained, Governed, SnapshotsIn, Moved, Remaining, StageSnapshots, ReplaysPrefix, Unshared, MayPublish,
         OneTransition, ReplayedElsewhere;
    var item := LedgerTransition(repo.supply, run, repo.ledgers[run], target, reason, now);
    var published := Published(repo, run, item, repo.supply + 2);
    GovernedIsSound(repo, run);
    NothingRecovers(repo, run);
    AppendMayPublish(repo, run, target, reason, now);
    AppendIsOne(repo, run, target, reason, now);
    PublishKeepsSound(repo, run, item, repo.supply + 2);
    SnapshotsOfStage(repo, run);
    SnapshotsOfStage(published, run);
    MoveSpendsOne(StageAt(repo, run), target);
  }

  /** An append that is owed is one step of a recovery. */
  lemma AppendRecovers(before: Repo, after: Repo, run: RunId, target: RunStatus, reason: Reason, done: bool)
    requires MayAppend(before, run, target) && AppendEffect(before, after, run, target, reason, done)
    requires Owed(before.ledgers[run], target, reason)
    ensures RecoveryEffect(before, after, run)
  {
    hide Sound, OnlyTouches, StageOf, Chained, Governed, SnapshotsIn, Moved, Remaining, StageSnapshots, ReplaysPrefix, Unshared,
         OthersIndexed, Course, Owed;
    if after != before {
      StageOfRun(before, run);
      StageOfRun(after, run);
      OwedKeepsCourse(before.ledgers[run], after.ledgers[run], target, reason);
      MoveSpendsOne(StageAt(before, run), target);
    }
  }

  ghost predicate AllCaughtUp(repo: Repo) {
    forall q :: IsGovernedRun(repo, q) ==> CaughtUp(repo, q)
  }

  /** The effect of a rebuild: nothing, or an index that is exactly the replay of all ledgers. */
  ghost predicate RebuildEffect(before: Repo, after: Repo, done: bool) {
    && after.ledgers == before.ledgers && after.supply == before.supply
    && (after == before || (AllReplayable(before) && IsReplay(after.index, after.ledgers) && AllCaughtUp(after)))
    && (done ==> AllReplayable(before) && IsReplay(after.index, after.ledgers) && AllCaughtUp(after))
    && (forall q :: IsGovernedRun(before, q) ==> RecoveryEffect(before, after, q))
  }

  lemma RebuildRecovers(before: Repo, index: Index, q: RunId)
    requires Sound(before) && IsGovernedRun(before, q) && IsReplay(index, before.ledgers) && AllReplayable(before)
    ensures RecoveryEffect(before, before.(index := index), q) && CaughtUp(before.(index := index), q)
  {
    hide Sound, RunSound, OnlyTouches, StageOf, Governed, SnapshotsIn, Remaining, IsReplay, SameElsewhere, ReplayedElsewhere, Course,
         Classifiable;
    ReplayKeepsSound(before, index, q);
    ReplayedRunIsSound(before, index, q);
    ReplayIsReplayedElsewhere(index, before.ledgers, q);
    GovernedIsSound(before, q);
  }

  lemma RebuildKeeps(before: Repo, index: Index)
    requires Sound(before)
    ensures RebuildEffect(before, before, false)
    ensures IsReplay(index, before.ledgers) && AllReplayable(before) ==> RebuildEffect(before, before.(index := index), true)
  {
    forall q | IsGovernedRun(before, q) ensures RecoveryEffect(before, before, q) {
      NothingRecovers(before, q);
    }
    if IsReplay(index, before.ledgers) && AllReplayable(before) {
      forall q | IsGovernedRun(before, q)
        ensures RecoveryEffect(before, before.(index := index), q) && CaughtUp(before.(index := index), q)
      {
        RebuildRecovers(before, index, q);
      }
    }
  }

  lemma RebuildDoneOrNot(before: Repo, index: Index)
    requires Sound(before) && IsReplay(index, before.ledgers) && AllReplayable(before)
    ensures RebuildEffect(before, before.(index := index), false)
  {
    RebuildKeeps(before, index);
  }

  /** An uninterrupted recovery of `run` can finish now: its index needs no rebuild, or no other
      Run stands in the way of one. */
  ghost predicate RecoverableNow(repo: Repo, run: RunId)
    requires IsGovernedRun(repo, run) && RunSound(repo, run)
  {
    (!Open(StageAt(repo, run)) && CaughtUp(repo, run)) || OthersReplayable(repo, run)
  }

  /** How a call of the store may fail: the stop that caused it, or an integrity error of its own. */
  predicate Explained<T>(outcome: Outcome<T>) {
    && (outcome.Stopped? ==> outcome.signal != PASS)
    && (outcome.Refused? ==> outcome.error == INTEGRITY)
  }

  /** The contract of a recovery, and of each of its branches. */
  ghost predicate RecoverySpec(before: Repo, after: Repo, run: RunId, outcome: Outcome<Report>, quiet: bool) {
    && RecoveryEffect(before, after, run)
    && (outcome.Done? ==>
          && Remaining(StageAt(after, run)) == 0 && CaughtUp(after, run)
          && outcome.value == ReportOf(after.ledgers, after.index, run))
    && (outcome.Stopped? ==> outcome.signal in {INTERRUPT, KILL})
    && (outcome.Refused? ==> outcome.error in {RECOVERY_REQUIRED, INTEGRITY})
    && (quiet ==> (outcome.Done? <==> RecoverableNow(before, run)) && !Open(StageAt(after, run)))
    && (quiet && !outcome.Done? ==>
          && outcome == Refused(INTEGRITY) && after.index == before.index
          && |after.ledgers[run]| == |before.ledgers[run]| + (if Open(StageAt(before, run)) then 1 else 0))
  }

  lemma OwnRunIsReplayable(repo: Repo, run: RunId)
    requires Sound(repo) && IsGovernedRun(repo, run) && !StageAt(repo, run).AtSnapshot?
    ensures AllReplayable(repo) <==> OthersReplayable(repo, run)
  {
    GovernedIsClassifiable(repo, run);
  }

  /** A ledger-side append, then a recovery from where it left the Run. */
  lemma AppendThenRecover(before: Repo, middle: Repo, after: Repo, run: RunId, target: RunStatus, reason: Reason,
                          outcome: Outcome<Report>, quiet: bool)
    requires MayAppend(before, run, target) && AppendEffect(before, middle, run, target, reason, true)
    requires Owed(before.ledgers[run], target, reason)
    requires RecoverySpec(middle, after, run, outcome, quiet)
    ensures RecoverySpec(before, after, run, outcome, quiet)
  {
    AppendRecovers(before, middle, run, target, reason, true);
    RecoveryComposes(before, middle, after, run);
    OthersStayReplayable(before, middle, run);
    GovernedIsSound(before, run);
    hide Sound, OthersIndexed, OnlyTouches, Chained, ReplaysPrefix, Unshared, StageOf, SnapshotsIn, Course, Owed, OthersReplayable, ReportOf,
         Governed;
    assert !CaughtUp(middle, run);
  }

  /** How the errors of one step surface from a recovery. */
  function Surfaced(step: Outcome<()>): Outcome<Report>
    requires !step.Done?
  {
    match step
    case Stopped(signal) => if signal == FAULT then Refused(RECOVERY_REQUIRED) else Stopped(signal)
    case Refused(error) => Refused(error)
  }

  /** The report of a Run whose ledger is final and whose index has caught up. */
  lemma FinalReport(repo: Repo, run: RunId)
    requires Sound(repo) && IsGovernedRun(repo, run) && CaughtUp(repo, run) && Remaining(StageAt(repo, run)) == 0
    ensures var report, facts := ReportOf(repo.ledgers, repo.index, run), SnapshotsIn(repo.ledgers[run]);
            && (facts != [] ==> report == Report(if IsPartial(facts[0]) then PARTIAL_RESULT else COMPLETE_RESULT, VERIFIED, true))
            && (facts == [] ==> report == Report(FAILED_RESULT, FAILED, false) || report == Report(CANCELLED_RESULT, CANCELLED, false))
            && report.status == StatusOf(repo.ledgers[run])
    ensures RecoveryPlan(StatusOf(repo.ledgers[run]), SnapshotsIn(repo.ledgers[run])) == []
  {
    RowOfCaughtUp(repo, run);
    hide StageOf, Chained, PairsOf, ReplaysPrefix, Unshared, Governed, Project, VerifySnapshot, StatusOf, SnapshotsIn, Sound, StagePairs;
    if SnapshotsIn(repo.ledgers[run]) != [] {
      CaughtUpVerifies(repo, run);
    }
  }

  /** What a recovery answers, from the ledger it found: every branch with its literal outcome. */
  ghost predicate RecoveryAnswer(before: seq<Document>, after: seq<Document>, outcome: Outcome<Report>) {
    var status, facts := StatusOf(before), SnapshotsIn(before);
    && before <= after && SnapshotsIn(after) == facts && Course(after) == Course(before)
    && (status == CREATED || (status == SCANNING && facts == []) ==> after == before || StatusOf(after) == FAILED)
    && (StatusOf(after) == CANCELLED <==> status == CANCELLED)
    && (outcome.Done? ==>
          && StepsOf(after) == Course(before)
          && outcome.value ==
               if facts != [] then Report(if IsPartial(facts[0]) then PARTIAL_RESULT else COMPLETE_RESULT, VERIFIED, true)
               else if status == CANCELLED then Report(CANCELLED_RESULT, CANCELLED, false)
               else Report(FAILED_RESULT, FAILED, false))
  }

  /** The last step of a protocol ledger leads to its status. */
  lemma LastStep(documents: seq<Document>)
    requires StageOf(documents).Some?
    ensures StepsOf(documents) == [] <==> StatusOf(documents) == CREATED
    ensures StepsOf(documents) != [] ==> StepsOf(documents)[|StepsOf(documents)| - 1].toStatus == StatusOf(documents)
  {
    hide StageOf, PairsOf, SnapshotsIn, StatusOf, StepsOf, Governed;
    StageDetermines(documents);
    StepsArePairs(documents);
    var stage, n := StageOf(documents).value, |StagePairs(StageOf(documents).value)|;
    assert n > 0 ==> StagePairs(stage)[n - 1].1 == StageStatus(stage);
  }

  /** Where the course of a Run ends. */
  lemma CourseEnd(documents: seq<Document>)
    requires StageOf(documents).Some?
    ensures Course(documents) != []
    ensures var status, facts, end := StatusOf(documents), SnapshotsIn(documents), Course(documents)[|Course(documents)| - 1].toStatus;
            && (status == CREATED || (status == SCANNING && facts == []) ==> end == FAILED && Remaining(StageOf(documents).value) == 1)
            && (end == CANCELLED <==> status == CANCELLED)
            && (Remaining(StageOf(documents).value) == 0 ==> end == status)
  {
    PlanOfStage(documents);
    LastStep(documents);
    StageDetermines(documents);
    hide StageOf, StepsOf, StatusOf, SnapshotsIn, Governed, PairsOf, StagePairs, StageLength;
  }

  lemma CourseDecides(before: seq<Document>, after: seq<Document>)
    requires StageOf(before).Some? && StageOf(after).Some? && before <= after
    requires Course(after) == Course(before) && SnapshotsIn(after) == SnapshotsIn(before)
    requires |after| + Remaining(StageOf(after).value) == |before| + Remaining(StageOf(before).value)
    ensures var status, facts := StatusOf(before), SnapshotsIn(before);
            && (status == CREATED || (status == SCANNING && facts == []) ==> after == before || StatusOf(after) == FAILED)
            && (StatusOf(after) == CANCELLED <==> status == CANCELLED)
  {
    CourseEnd(before);
    CourseEnd(after);
    hide StageOf, StepsOf, StatusOf, SnapshotsIn, Course, Remaining;
    if |after| == |before| {
      assert after == before;
    }
  }

  lemma RecoveryAnswers(before: Repo, after: Repo, run: RunId, outcome: Outcome<Report>, quiet: bool)
    requires RecoverySpec(before, after, run, outcome, quiet)
    ensures RecoveryAnswer(before.ledgers[run], after.ledgers[run], outcome)
  {
    CourseDecides(before.ledgers[run], after.ledgers[run]);
    if outcome.Done? {
      FinalReport(after, run);
      hide Sound, OthersIndexed, OnlyTouches, Chained, ReplaysPrefix, Unshared, StageOf, SnapshotsIn, StepsOf, StatusOf, ReportOf;
      var steps := StepsOf(after.ledgers[run]);
      assert steps + [] == steps;
    }
  }

  /** Past the observation, the verification of a Run succeeds exactly when its index caught up. */
  lemma VerifiedIffCaughtUp(repo: Repo, run: RunId)
    requires Sound(repo) && IsGovernedRun(repo, run) && StageLength(StageAt(repo, run)) >= 4
    ensures Verified(repo.ledgers, repo.index, run) <==> CaughtUp(repo, run)
    ensures SnapshotsIn(repo.ledgers[run]) != []
  {
    StageDetermines(repo.ledgers[run]);
    if CaughtUp(repo, run) {
      RowOfCaughtUp(repo, run);
      CaughtUpVerifies(repo, run);
    }
  }

  lemma MatchesIffCaughtUp(repo: Repo, run: RunId)
    requires Sound(repo) && IsGovernedRun(repo, run)
    ensures RunIndexMatches(repo.ledgers, repo.index, run) <==> CaughtUp(repo, run)
  {
    if CaughtUp(repo, run) {
      RowOfCaughtUp(repo, run);
    }
  }

  lemma TerminalFacts(repo: Repo, run: RunId)
    requires Sound(repo) && IsGovernedRun(repo, run) && StageAt(repo, run).Closed?
    ensures RunIndexMatches(repo.ledgers, repo.index, run) ==>
            RecoverySpec(repo, repo, run, Done(ReportOf(repo.ledgers, repo.index, run)), true)
            && RecoverySpec(repo, repo, run, Done(ReportOf(repo.ledgers, repo.index, run)), false)
    ensures !RunIndexMatches(repo.ledgers, repo.index, run) ==> !CaughtUp(repo, run)
  {
    MatchesIffCaughtUp(repo, run);
    NothingRecovers(repo, run);
  }

  lemma TerminalRebuilt(before: Repo, after: Repo, run: RunId, step: Outcome<()>, quiet: bool)
    requires Sound(before) && IsGovernedRun(before, run) && StageAt(before, run).Closed? && !CaughtUp(before, run)
    requires RebuildEffect(before, after, step.Done?) && Explained(step)
    requires quiet ==> (step.Done? <==> AllReplayable(before)) && (!step.Done? ==> step == Refused(INTEGRITY) && after == before)
    ensures step.Done? ==> run in after.ledgers && RecoverySpec(before, after, run, Done(ReportOf(after.ledgers, after.index, run)), quiet)
    ensures !step.Done? ==> RecoverySpec(before, after, run, Surfaced(step), quiet)
  {
    OwnRunIsReplayable(before, run);
    assert RecoveryEffect(before, after, run);
    assert IsGovernedRun(after, run);
  }

  // ------------------------------------------------------------------ closing a verified Run

  predicate Observed(stage: Stage) {
    stage.AtObserved? || stage.AtVerifying? || stage.AtVerified?
  }

  ghost predicate ProjectionEffect(before: Repo, after: Repo, run: RunId, done: bool, quiet: bool) {
    && RecoveryEffect(before, after, run) && after.ledgers == before.ledgers
    && (done ==> CaughtUp(after, run))
    && (quiet ==> (done <==> RecoverableNow(before, run)) && (!done ==> after == before))
  }

  lemma ProjectionFacts(repo: Repo, run: RunId)
    requires Sound(repo) && IsGovernedRun(repo, run) && Observed(StageAt(repo, run))
    ensures SnapshotsIn(repo.ledgers[run]) != []
    ensures Verified(repo.ledgers, repo.index, run) ==> ProjectionEffect(repo, repo, run, true, true) && ProjectionEffect(repo, repo, run, true, false)
    ensures !Verified(repo.ledgers, repo.index, run) ==> !CaughtUp(repo, run)
  {
    VerifiedIffCaughtUp(repo, run);
    NothingRecovers(repo, run);
  }

  lemma ProjectionRebuilt(before: Repo, after: Repo, run: RunId, step: Outcome<()>, quiet: bool)
    requires Sound(before) && IsGovernedRun(before, run) && Observed(StageAt(before, run)) && !CaughtUp(before, run)
    requires RebuildEffect(before, after, step.Done?)
    requires quiet ==> (step.Done? <==> AllReplayable(before)) && (!step.Done? ==> after == before)
    ensures ProjectionEffect(before, after, run, step.Done?, quiet)
    ensures step.Done? ==> Verified(after.ledgers, after.index, run)
  {
    OwnRunIsReplayable(before, run);
    assert RecoveryEffect(before, after, run);
    if step.Done? {
      assert IsGovernedRun(after, run);
      VerifiedIffCaughtUp(after, run);
    }
  }

  lemma ProjectionThenRecover(before: Repo, middle: Repo, after: Repo, run: RunId, outcome: Outcome<Report>, quiet: bool)
    requires Sound(before) && IsGovernedRun(before, run) && Observed(StageAt(before, run))
    requires ProjectionEffect(before, middle, run, true, quiet) && RecoverySpec(middle, after, run, outcome, quiet)
    ensures RecoverySpec(before, after, run, outcome, quiet)
  {
    RecoveryComposes(before, middle, after, run);
  }

  lemma ProjectionFailed(before: Repo, after: Repo, run: RunId, step: Outcome<()>, quiet: bool)
    requires Sound(before) && IsGovernedRun(before, run) && Observed(StageAt(before, run)) && !step.Done?
    requires ProjectionEffect(before, after, run, false, quiet) && Explained(step) && (quiet ==> step == Refused(INTEGRITY))
    ensures RecoverySpec(before, after, run, Surfaced(step), quiet)
  {
  }

  /** What holds when a caught-up Run is about to be, or has just been, moved by `transition_run`. */
  ghost predicate ReadyToMove(repo: Repo, run: RunId) {
    Sound(repo) && IsGovernedRun(repo, run) && CaughtUp(repo, run) && Observed(StageAt(repo, run))
  }

  lemma StatusOfStage(repo: Repo, run: RunId)
    requires Sound(repo) && IsGovernedRun(repo, run)
    ensures StatusOf(repo.ledgers[run]) == StageStatus(StageAt(repo, run))
    ensures Observed(StageAt(repo, run)) ==>
            (StageAt(repo, run).AtObserved? <==> StatusOf(repo.ledgers[run]) in {SCANNED, PARTIAL})
  {
    StageDetermines(repo.ledgers[run]);
  }

  lemma RecoveredIsGoverned(before: Repo, after: Repo, run: RunId)
    requires RecoveryEffect(before, after, run)
    ensures Sound(after) && IsGovernedRun(after, run)
  {
  }

  /** The two transitions that close an observed Run are the ones recovery owes it. */
  lemma VerificationIsOwed(repo: Repo, run: RunId)
    requires Sound(repo) && IsGovernedRun(repo, run) && Observed(StageAt(repo, run))
    ensures StageAt(repo, run).AtObserved? ==> Owed(repo.ledgers[run], VERIFYING, RECOVERY_VERIFICATION_STARTED)
    ensures StageAt(repo, run).AtVerifying? ==> Owed(repo.ledgers[run], VERIFIED, RECOVERY_VERIFICATION_PASSED)
  {
    PlanOfStage(repo.ledgers[run]);
    hide StageOf, StatusOf, SnapshotsIn, Governed, Chained, ReplaysPrefix, Unshared, Sound;
  }

  lemma MovedOn(before: Repo, after: Repo, run: RunId, target: RunStatus, reason: Reason, step: Outcome<()>, quiet: bool)
    requires ReadyToMove(before, run) && Moved(StageAt(before, run), target).Some? && target != SCANNING
    requires Owed(before.ledgers[run], target, reason) && Explained(step)
    requires TransitionEffect(before, after, run, target, reason, step.Done?) && (quiet ==> step.Done?)
    ensures step.Done? ==> ReadyToMove(after, run) && StageAt(after, run) == Moved(StageAt(before, run), target).value
                           && RecoveryEffect(before, after, run)
    ensures !step.Done? ==> RecoverySpec(before, after, run, Surfaced(step), quiet)
  {
    hide RecoveryEffect, Sound, OnlyTouches, StageOf, Chained, Governed, SnapshotsIn, ReplaysPrefix, Unshared, SameElsewhere, Course, Owed;
    TransitionRecovers(before, after, run, target, reason, step.Done?);
    RecoveredIsGoverned(before, after, run);
  }

  lemma MoveThenRecover(before: Repo, middle: Repo, after: Repo, run: RunId, outcome: Outcome<Report>, quiet: bool)
    requires ReadyToMove(before, run) && ReadyToMove(middle, run) && RecoveryEffect(before, middle, run)
    requires RecoverySpec(middle, after, run, outcome, quiet)
    ensures RecoverySpec(before, after, run, outcome, quiet)
  {
    RecoveryComposes(before, middle, after, run);
    GovernedIsSound(before, run);
    GovernedIsSound(middle, run);
    hide RecoveryEffect, Sound, RunSound, StageOf, Governed, ReportOf;
  }

  lemma FinalGate(repo: Repo, run: RunId)
    requires ReadyToMove(repo, run) && StageAt(repo, run).AtVerified?
    ensures var report := ReportOf(repo.ledgers, repo.index, run);
            && report.disposition in {COMPLETE_RESULT, PARTIAL_RESULT} && report.verified
            && RecoverySpec(repo, repo, run, Done(report), true) && RecoverySpec(repo, repo, run, Done(report), false)
  {
    FinalReport(repo, run);
    SnapshotsOfStage(repo, run);
    NothingRecovers(repo, run);
  }

  /** `_ledger_state` can read this Run: its directory exists and its ledger is structurally valid. */
  predicate LedgerReadable(ledgers: Ledgers, run: RunId) {
    && run in ledgers && LedgerValid(run, ledgers[run])
    && |SnapshotsIn(ledgers[run])| <= 1
    && (SnapshotsIn(ledgers[run]) != [] ==> WellTyped(SnapshotsIn(ledgers[run])[0]))
  }

  lemma GovernedIsReadable(repo: Repo, run: RunId)
    requires Sound(repo) && IsGovernedRun(repo, run)
    ensures LedgerReadable(repo.ledgers, run)
    ensures StatusOf(repo.ledgers[run]) == StageStatus(StageAt(repo, run))
    ensures SnapshotsIn(repo.ledgers[run]) == StageSnapshots(StageAt(repo, run))
    ensures StageAt(repo, run).AtSnapshot? ==>
            var snapshot := SnapshotsIn(repo.ledgers[run])[0].body.payload;
            snapshot.Observation? && ExpectedRunStatus(snapshot.snapshot.status) == Some(Expected(SnapshotsIn(repo.ledgers[run])[0]))
  {
    ProtocolLedgerIsValid(run, repo.ledgers[run]);
    StageDetermines(repo.ledgers[run]);
    ProtocolRunIds(run, repo.ledgers[run]);
  }

  lemma AppendStops(before: Repo, after: Repo, run: RunId, target: RunStatus, reason: Reason, step: Outcome<()>)
    requires MayAppend(before, run, target) && Owed(before.ledgers[run], target, reason)
    requires AppendEffect(before, after, run, target, reason, step.Done?) && !step.Done? && Explained(step)
    ensures RecoverySpec(before, after, run, Surfaced(step), false)
  {
    AppendRecovers(before, after, run, target, reason, false);
  }

  lemma MayCloseObservation(repo: Repo, run: RunId, target: RunStatus)
    requires Sound(repo) && IsGovernedRun(repo, run) && StageAt(repo, run).AtSnapshot?
    requires target == Expected(StageAt(repo, run).fact)
    ensures MayAppend(repo, run, target) && Owed(repo.ledgers[run], target, CLOSED_DURABLE_OBSERVATION)
  {
    StageDetermines(repo.ledgers[run]);
  }

  /** Status and presence of a Snapshot tell recovery exactly where the protocol stopped. */
  lemma StatusDecidesStage(repo: Repo, run: RunId)
    requires Sound(repo) && IsGovernedRun(repo, run)
    ensures var status, stage := StatusOf(repo.ledgers[run]), StageAt(repo, run);
            && (status == CREATED <==> stage.AtCreated?)
            && (status == SCANNING && SnapshotsIn(repo.ledgers[run]) == [] <==> stage.AtScanning?)
            && (status == SCANNING && SnapshotsIn(repo.ledgers[run]) != [] <==> stage.AtSnapshot?)
            && (status in {SCANNED, PARTIAL, VERIFYING, VERIFIED} <==> Observed(stage))
            && (status in {FAILED, CANCELLED} <==> stage.Closed?)
            && (stage.AtCreated? || stage.AtScanning? ==> MayAppend(repo, run, FAILED))
            && (stage.AtCreated? ==> Owed(repo.ledgers[run], FAILED, CLOSED_BEFORE_SCANNING))
            && (stage.AtScanning? ==> Owed(repo.ledgers[run], FAILED, CLOSED_WITHOUT_SNAPSHOT))
  {
    PlanOfStage(repo.ledgers[run]);
    StageDetermines(repo.ledgers[run]);
    hide StageOf, StatusOf, SnapshotsIn, Governed, Chained, ReplaysPrefix, Unshared, PairsOf, Sound, StagePairs, StageLength, IsUsableSnapshot;
  }

  lemma ClosedObservation(before: Repo, after: Repo, run: RunId, target: RunStatus, reason: Reason)
    requires MayAppend(before, run, target) && StageAt(before, run).AtSnapshot? && AppendEffect(before, after, run, target, reason, true)
    ensures Sound(after) && IsGovernedRun(after, run) && StageAt(after, run).AtObserved?
  {
  }

  // ------------------------------------------------------------------ acquisition

  /** What a scope observation yields: entries (abstracted), and whether they are partial. */
  datatype ScopeObservation = ScopeObservation(partial: bool, content: nat, intrinsic: bool)

  /** What an acquisition meets: the bound configuration, what the scan yields if it does not fail, and
      whether the scope root is still the one that was bound. */
  datatype Scene = Scene(configDigest: nat, metadata: Metadata, observation: Option<ScopeObservation>, rootMatches: bool) {
    predicate Partial() {
      observation.Some? && observation.value.partial
    }

    /** The scan yields something that may be persisted. */
    predicate Observable() {
      observation.Some? && observation.value.intrinsic && rootMatches
    }
  }

  /** The Snapshots of this ledger hold what the scan saw: complete unless the scan was partial. */
  predicate HoldsObservation(facts: seq<Document>, run: RunId, scene: Scene) {
    facts != [] ==>
      && |facts| == 1 && scene.Observable()
      && facts[0].body.payload == Observation(Snapshot(SnapshotIdOf(facts[0]), run,
           if scene.observation.value.partial then PARTIAL_SNAPSHOT else COMPLETE_SNAPSHOT, scene.observation.value.content, true))
  }

  predicate RecordsScene(documents: seq<Document>, run: RunId, scene: Scene) {
    && documents != [] && IsCreation(documents[0], scene.configDigest, scene.metadata)
    && HoldsObservation(SnapshotsIn(documents), run, scene)
  }

  /** The transitions of an acquisition that the operator cancelled. */
  predicate CancelledSteps(steps: seq<Step>) {
    || steps == [Step(CREATED, CANCELLED, OPERATOR_CANCELLED)]
    || steps == [Step(CREATED, SCANNING, SCAN_STARTED),
                 Step(SCANNING, CANCELLED, OPERATOR_CANCELLED)]
  }

  /** What an acquisition may have done when it stops anywhere before cancellation. */
  ghost predicate AcquireEffect(before: Repo, after: Repo, run: RunId, scene: Scene) {
    && Sound(before) && Sound(after) && run !in before.ledgers && OnlyTouches(before, after, run)
    && SameElsewhere(before.index, after.index, run)
    && (run in after.ledgers ==>
          && IsGovernedRun(after, run) && |after.ledgers[run]| <= Indexed(after.index, run) + 1
          && RecordsScene(after.ledgers[run], run, scene)
          && StepsOf(after.ledgers[run]) <= AcquisitionSteps(scene.Partial()))
  }

  ghost predicate AcquiredTo(before: Repo, after: Repo, run: RunId, scene: Scene, stage: Stage) {
    AcquireEffect(before, after, run, scene) && run in after.ledgers && CaughtUp(after, run) && StageAt(after, run) == stage
  }

  lemma AcquireNothing(repo: Repo, run: RunId, scene: Scene)
    requires Sound(repo) && run !in repo.ledgers
    ensures AcquireEffect(repo, repo, run, scene)
  {
  }

  lemma AcquireCreated(before: Repo, after: Repo, run: RunId, scene: Scene, done: bool)
    requires Sound(before) && run !in before.ledgers && CreateEffect(before, after, run, scene.configDigest, scene.metadata, done)
    ensures AcquireEffect(before, after, run, scene)
    ensures done ==> AcquiredTo(before, after, run, scene, AtCreated)
  {
    if run in after.ledgers {
      SnapshotsOfStage(after, run);
      StageDetermines(after.ledgers[run]);
      LastStep(after.ledgers[run]);
    }
  }

  /** The transition that an acquisition makes next from this stage. */
  predicate NextOfAcquisition(stage: Stage, scene: Scene, target: RunStatus, reason: Reason) {
    && |StagePairs(stage)| < 4
    && AcquisitionSteps(scene.Partial())[|StagePairs(stage)|] == Step(StageStatus(stage), target, reason)
  }

  lemma StepsCount(documents: seq<Document>)
    requires StageOf(documents).Some?
    ensures documents != [] && |StepsOf(documents)| == |StagePairs(StageOf(documents).value)|
  {
    StageDetermines(documents);
    StepsArePairs(documents);
  }

  lemma StepsExtend(before: seq<Document>, after: seq<Document>, stage: Stage, scene: Scene, target: RunStatus, reason: Reason)
    requires StageOf(before) == Some(stage) && OneTransition(before, after, target, reason)
    requires NextOfAcquisition(stage, scene, target, reason) && StepsOf(before) <= AcquisitionSteps(scene.Partial())
    ensures StepsOf(after) <= AcquisitionSteps(scene.Partial()) && SnapshotsIn(after) == SnapshotsIn(before)
    ensures before != [] && after[0] == before[0]
  {
    hide StageOf, StatusOf, SnapshotsIn, StepsOf, StagePairs, StageSnapshots;
    StepsCount(before);
    PlanOfStage(before);
    StepsOfOneMore(before, after, target, reason);
    var n := |StagePairs(stage)|;
    var all := AcquisitionSteps(scene.Partial());
    assert StepsOf(before) == all[..n] && all[..n] + [all[n]] == all[..n + 1];
    assert after[0] == after[..|before|][0];
  }

  lemma AcquireMoved(start: Repo, before: Repo, after: Repo, run: RunId, scene: Scene, stage: Stage, target: RunStatus, reason: Reason, done: bool)
    requires AcquiredTo(start, before, run, scene, stage) && Moved(stage, target).Some? && NextOfAcquisition(stage, scene, target, reason)
    requires TransitionEffect(before, after, run, target, reason, done)
    ensures AcquireEffect(start, after, run, scene)
    ensures done ==> AcquiredTo(start, after, run, scene, Moved(stage, target).value)
  {
    hide Sound, Chained, ReplaysPrefix, Unshared, Moved, StepsOf, AcquisitionSteps, NextOfAcquisition, SnapshotsIn, HoldsObservation, StageOf;
    SnapshotsOfStage(after, run);
    if after.ledgers[run] != before.ledgers[run] {
      StageOfRun(before, run);
      StepsExtend(before.ledgers[run], after.ledgers[run], stage, scene, target, reason);
    }
  }

  lemma StageOfRun(repo: Repo, run: RunId)
    requires run in repo.ledgers && RunSound(repo, run)
    ensures StageOf(repo.ledgers[run]) == Some(StageAt(repo, run))
  {
  }

  /** A persisted Snapshot document adds no transition. */
  lemma PersistKeepsSteps(before: Repo, after: Repo, run: RunId, snapshot: Snapshot)
    requires run in before.ledgers && run in after.ledgers && RunSound(before, run) && RunSound(after, run)
    requires |after.ledgers[run]| == |before.ledgers[run]| + 1 && before.ledgers[run] <= after.ledgers[run]
    requires StageAt(after, run).AtSnapshot? && StageAt(after, run).fact == after.ledgers[run][|before.ledgers[run]|]
    ensures StepsOf(after.ledgers[run]) == StepsOf(before.ledgers[run])
    ensures SnapshotsIn(after.ledgers[run]) == [StageAt(after, run).fact] && IsUsableSnapshot(StageAt(after, run).fact)
    ensures StageAt(after, run).fact.body.runId == run
  {
    StageDetermines(after.ledgers[run]);
    ProtocolRunIds(run, after.ledgers[run]);
    assert after.ledgers[run][..|before.ledgers[run]|] == before.ledgers[run];
  }

  /** The Snapshot an acquisition persists of what it saw. */
  predicate IsSeen(snapshot: Snapshot, run: RunId, scene: Scene) {
    && scene.Observable()
    && snapshot == Snapshot(snapshot.snapshotId, run, if scene.observation.value.partial then PARTIAL_SNAPSHOT else COMPLETE_SNAPSHOT,
                            scene.observation.value.content, true)
  }

  lemma AcquirePersisted(start: Repo, before: Repo, after: Repo, run: RunId, scene: Scene, snapshot: Snapshot, done: bool) returns (fact: Document)
    requires AcquiredTo(start, before, run, scene, AtScanning) && PersistEffect(before, after, run, snapshot, done)
    requires IsSeen(snapshot, run, scene) || after.ledgers[run] == before.ledgers[run]
    ensures AcquireEffect(start, after, run, scene)
    ensures done ==> AcquiredTo(start, after, run, scene, AtSnapshot(fact)) && fact.body.payload == Observation(snapshot) && IsUsableSnapshot(fact)
  {
    hide Sound, Chained, ReplaysPrefix, Unshared, StepsOf, AcquisitionSteps, SnapshotsIn, StageOf;
    SnapshotsOfStage(after, run);
    GovernedIsSound(before, run);
    fact := after.ledgers[run][0];
    if after.ledgers[run] != before.ledgers[run] {
      PersistKeepsSteps(before, after, run, snapshot);
      fact := StageAt(after, run).fact;
      assert after.ledgers[run][0] == before.ledgers[run][0];
    }
  }

  lemma AcquiredIsReady(start: Repo, repo: Repo, run: RunId, scene: Scene, stage: Stage)
    requires AcquiredTo(start, repo, run, scene, stage)
    ensures Sound(repo) && IsGovernedRun(repo, run) && CaughtUp(repo, run) && StageAt(repo, run) == stage
  {
  }

  /** The state in which an acquisition is through: all its transitions, the Snapshot of what was seen, a
      caught-up row, and a report that says so. */
  ghost predicate FinallyVerified(repo: Repo, run: RunId, scene: Scene, report: Report) {
    && IsGovernedRun(repo, run) && RunSound(repo, run) && CaughtUp(repo, run) && StageAt(repo, run).AtVerified?
    && report == ReportOf(repo.ledgers, repo.index, run)
    && report == Report(if scene.Partial() then PARTIAL_RESULT else COMPLETE_RESULT, VERIFIED, true)
    && StepsOf(repo.ledgers[run]) == AcquisitionSteps(scene.Partial())
    && RecordsScene(repo.ledgers[run], run, scene) && SnapshotsIn(repo.ledgers[run]) != []
  }

  lemma AcquiredVerifies(start: Repo, repo: Repo, run: RunId, scene: Scene, stage: Stage)
    requires AcquiredTo(start, repo, run, scene, stage) && Observed(stage)
    ensures Verified(repo.ledgers, repo.index, run)
    ensures stage.AtVerified? ==> FinallyVerified(repo, run, scene, ReportOf(repo.ledgers, repo.index, run))
  {
    VerifiedIffCaughtUp(repo, run);
    if stage.AtVerified? {
      SnapshotsOfStage(repo, run);
      FinalReport(repo, run);
      AllStepsMade(repo, run, scene);
      hide Verified, ReportOf, StepsOf, AcquisitionSteps, StageOf, Chained, ReplaysPrefix, Unshared, Sound;
    }
  }

  lemma AllStepsMade(repo: Repo, run: RunId, scene: Scene)
    requires run in repo.ledgers && RunSound(repo, run) && StageAt(repo, run).AtVerified?
    requires StepsOf(repo.ledgers[run]) <= AcquisitionSteps(scene.Partial())
    ensures StepsOf(repo.ledgers[run]) == AcquisitionSteps(scene.Partial())
  {
    StageDetermines(repo.ledgers[run]);
    StepsArePairs(repo.ledgers[run]);
    hide StepsOf, PairsOf, SnapshotsIn, StageOf;
    assert |StepsOf(repo.ledgers[run])| == 4;
  }

  lemma VerifiedIsPublishable(start: Repo, repo: Repo, run: RunId, scene: Scene, fact: Document)
    requires AcquiredTo(start, repo, run, scene, AtVerified(fact))
    ensures run in repo.ledgers && AcquireEffect(start, repo, run, scene)
    ensures FinallyVerified(repo, run, scene, ReportOf(repo.ledgers, repo.index, run))
  {
    AcquiredVerifies(start, repo, run, scene, AtVerified(fact));
  }

  lemma StartsScanning(scene: Scene)
    ensures NextOfAcquisition(AtCreated, scene, SCANNING, SCAN_STARTED)
  {
  }

  /** The last three transitions of an acquisition come from these stages. */
  lemma NextSteps(scene: Scene, fact: Document)
    requires Expected(fact) == (if scene.Partial() then PARTIAL else SCANNED)
    ensures NextOfAcquisition(AtSnapshot(fact), scene, Expected(fact), OBSERVATION_PERSISTED)
    ensures NextOfAcquisition(AtObserved(fact), scene, VERIFYING, VERIFICATION_STARTED)
    ensures NextOfAcquisition(AtVerifying(fact), scene, VERIFIED, VERIFICATION_PASSED)
  {
  }

  /** The transition after a Snapshot of what was seen is the one its status calls for. */
  lemma ExpectedOfScene(start: Repo, repo: Repo, run: RunId, scene: Scene, fact: Document)
    requires AcquiredTo(start, repo, run, scene, AtSnapshot(fact)) || AcquiredTo(start, repo, run, scene, AtObserved(fact))
    ensures Expected(fact) == (if scene.Partial() then PARTIAL else SCANNED)
  {
    PlanOfStage(repo.ledgers[run]);
    hide StageOf, Governed, PairsOf, StepsOf, StatusOf, SnapshotsIn, Chained, ReplaysPrefix, Unshared, Sound, OnlyTouches, SameElsewhere,
         AcquisitionSteps;
  }

  /** An error or stop inside the try block, before the handlers see it. */
  function Raised(step: Outcome<()>): Outcome<Report>
    requires !step.Done?
  {
    if step.Stopped? then Stopped(step.signal) else Refused(step.error)
  }

  lemma MayCancel(repo: Repo, run: RunId)
    requires Sound(repo) && IsGovernedRun(repo, run)
    requires SnapshotsIn(repo.ledgers[run]) == [] && StatusOf(repo.ledgers[run]) in {CREATED, SCANNING}
    ensures MayAppend(repo, run, CANCELLED) && !StageAt(repo, run).AtSnapshot?
  {
    StatusDecidesStage(repo, run);
  }

  lemma AppendedOnly(before: Repo, after: Repo, run: RunId, reason: Reason, done: bool)
    requires AppendEffect(before, after, run, CANCELLED, reason, done)
    ensures ExtensionEffect(before, after, run) && Sound(after) && IsGovernedRun(after, run)
    ensures done ==> !StageAt(after, run).AtSnapshot?
  {
  }

  lemma RebuildOfRun(before: Repo, after: Repo, run: RunId, done: bool)
    requires IsGovernedRun(before, run) && RebuildEffect(before, after, done)
    ensures ExtensionEffect(before, after, run) && after.ledgers == before.ledgers
    ensures done ==> CaughtUp(after, run)
  {
    assert IsGovernedRun(after, run);
  }

  /** A cancelled Run: its last document says so, and its row has caught up. */
  ghost predicate CancelledRun(repo: Repo, run: RunId) {
    IsGovernedRun(repo, run) && CaughtUp(repo, run) && StatusOf(repo.ledgers[run]) == CANCELLED
  }

  lemma CancelledAndRebuilt(before: Repo, appended: Repo, after: Repo, run: RunId, reason: Reason, done: bool)
    requires AppendEffect(before, appended, run, CANCELLED, reason, true) && RebuildEffect(appended, after, done)
    ensures ExtensionEffect(before, after, run) && after.ledgers == appended.ledgers
    ensures done ==> CancelledRun(after, run)
  {
    hide RebuildEffect, StageOf, Chained, ReplaysPrefix, Unshared, Remaining, SnapshotsIn, OthersIndexed;
    RebuildOfRun(appended, after, run, done);
    ExtensionComposes(before, appended, after, run);
    StepsOfOneMore(before.ledgers[run], appended.ledgers[run], CANCELLED, reason);
  }

  lemma CancelledIsRecorded(before: seq<Document>, after: seq<Document>, scene: Scene)
    requires StageOf(before).Some? && (StageOf(before).value.AtCreated? || StageOf(before).value.AtScanning?)
    requires StepsOf(before) <= AcquisitionSteps(scene.Partial())
    requires OneTransition(before, after, CANCELLED, OPERATOR_CANCELLED)
    ensures CancelledSteps(StepsOf(after)) && after[0] == before[0] && SnapshotsIn(after) == SnapshotsIn(before)
  {
    StageDetermines(before);
    StepsArePairs(before);
    StepsOfOneMore(before, after, CANCELLED, OPERATOR_CANCELLED);
    assert after[0] == after[..|before|][0];
    hide StageOf, PairsOf, SnapshotsIn, StepsOf, StatusOf;
    assert StepsOf(before) == AcquisitionSteps(scene.Partial())[..|StepsOf(before)|];
  }

  /** The ledger a cancellation leaves: as it was, or with the one transition to CANCELLED. */
  lemma CancellationRecord(start: Repo, before: Repo, appended: Repo, run: RunId, scene: Scene, done: bool)
    requires AcquireEffect(start, before, run, scene) && MayAppend(before, run, CANCELLED) && !StageAt(before, run).AtSnapshot?
    requires AppendEffect(before, appended, run, CANCELLED, OPERATOR_CANCELLED, done)
    ensures AcquiredRecord(appended, run, scene)
  {
    hide StageOf, PairsOf, SnapshotsIn, StepsOf, StatusOf, Chained, ReplaysPrefix, Unshared, Sound, OnlyTouches, OthersIndexed,
         OneTransition, AcquisitionSteps, SameElsewhere, CancelledSteps, Moved;
    if appended != before {
      CancelledIsRecorded(before.ledgers[run], appended.ledgers[run], scene);
    }
  }

  /** What the ledger of an acquired Run records, however the acquisition ended. */
  ghost predicate AcquiredRecord(repo: Repo, run: RunId, scene: Scene) {
    && IsGovernedRun(repo, run) && RecordsScene(repo.ledgers[run], run, scene)
    && (StepsOf(repo.ledgers[run]) <= AcquisitionSteps(scene.Partial()) || CancelledSteps(StepsOf(repo.ledgers[run])))
  }

  /** The state after a confirmed call to `acquire_snapshot`, however it ended. */
  ghost predicate AcquisitionSpec(before: Repo, after: Repo, run: RunId, scene: Scene, outcome: Outcome<Report>) {
    && Sound(after) && OnlyTouches(before, after, run) && OthersIndexed(before, after, run)
    && (run in after.ledgers ==> AcquiredRecord(after, run, scene))
    && (outcome.Done? ==> FinallyVerified(after, run, scene, outcome.value))
    && (outcome.Refused? ==> outcome.error in {RECOVERY_REQUIRED, ACQUISITION_CANCELLED})
    && (outcome == Refused(ACQUISITION_CANCELLED) && run in after.ledgers ==> CancelledRun(after, run))
  }

  lemma AttemptIsAcquisition(start: Repo, after: Repo, run: RunId, scene: Scene, outcome: Outcome<Report>)
    requires AcquireEffect(start, after, run, scene)
    requires outcome.Done? ==> FinallyVerified(after, run, scene, outcome.value)
    ensures outcome.Done? ==> AcquisitionSpec(start, after, run, scene, outcome)
    ensures forall signal :: AcquisitionSpec(start, after, run, scene, Stopped(signal))
    ensures AcquisitionSpec(start, after, run, scene, Refused(RECOVERY_REQUIRED))
    ensures run !in after.ledgers ==> AcquisitionSpec(start, after, run, scene, Refused(ACQUISITION_CANCELLED))
  {
  }

  lemma PublishableReport(repo: Repo, run: RunId, scene: Scene, report: Report)
    requires FinallyVerified(repo, run, scene, report)
    ensures report.disposition in {COMPLETE_RESULT, PARTIAL_RESULT} && report.verified
  {
  }

  lemma SameIsIndexed(before: Repo, after: Repo, run: RunId)
    requires SameElsewhere(before.index, after.index, run)
    ensures OthersIndexed(before, after, run)
  {
  }

  lemma AcquireThenExtend(start: Repo, middle: Repo, after: Repo, run: RunId, scene: Scene, outcome: Outcome<Report>)
    requires AcquireEffect(start, middle, run, scene) && ExtensionEffect(middle, after, run) && AcquiredRecord(after, run, scene)
    requires outcome.Stopped? || (outcome.Refused? && outcome.error in {RECOVERY_REQUIRED, ACQUISITION_CANCELLED})
    requires outcome == Refused(ACQUISITION_CANCELLED) ==> CancelledRun(after, run)
    ensures AcquisitionSpec(start, after, run, scene, outcome)
  {
    hide OthersIndexed, Sound, RunSound, OnlyTouches, SameElsewhere, ReplayedElsewhere, AcquiredRecord, CancelledRun, RecordsScene, Governed,
         SnapshotsIn, StepsOf;
    TouchesCompose(start, middle, after, run);
    SameIsIndexed(start, middle, run);
    OthersIndexedComposes(start, middle, after, run);
  }

  lemma ExtensionKeepsSnapshots(before: Repo, after: Repo, run: RunId)
    requires ExtensionEffect(before, after, run)
    ensures SnapshotsIn(after.ledgers[run]) == SnapshotsIn(before.ledgers[run]) && run in after.ledgers
  {
  }

  lemma AcquiredStays(start: Repo, repo: Repo, run: RunId, scene: Scene, stage: Stage)
    requires AcquiredTo(start, repo, run, scene, stage)
    ensures AcquireEffect(start, repo, run, scene) && run in repo.ledgers
  {
  }

  lemma ScanningFacts(start: Repo, repo: Repo, run: RunId, scene: Scene)
    requires AcquiredTo(start, repo, run, scene, AtScanning)
    ensures run in repo.ledgers && CaughtUp(repo, run) && StatusOf(repo.ledgers[run]) == SCANNING && SnapshotsIn(repo.ledgers[run]) == []
  {
    StageDetermines(repo.ledgers[run]);
  }

  lemma SameRecord(before: Repo, after: Repo, run: RunId, scene: Scene)
    requires AcquiredRecord(before, run, scene) && after.ledgers == before.ledgers
    ensures AcquiredRecord(after, run, scene)
  {
  }

  lemma AcquiredRecordHolds(start: Repo, repo: Repo, run: RunId, scene: Scene)
    requires AcquireEffect(start, repo, run, scene) && run in repo.ledgers
    ensures AcquiredRecord(repo, run, scene) && IsGovernedRun(repo, run) && Sound(repo)
  {
  }

  lemma BeginningOf(documents: seq<Document>, scene: Scene)
    requires StageOf(documents).Some? && StepsOf(documents) <= AcquisitionSteps(scene.Partial())
    ensures SnapshotsIn(documents) == [] ==> StatusOf(documents) in {CREATED, SCANNING}
  {
    PlanOfStage(documents);
    LastStep(documents);
    hide StageOf, SnapshotsIn, StatusOf, StepsOf;
    if SnapshotsIn(documents) == [] && StepsOf(documents) != [] {
      var n := |StepsOf(documents)| - 1;
      assert StepsOf(documents)[n] == AcquisitionSteps(scene.Partial())[n];
      assert StepsOf(documents)[n].toStatus in {SCANNING, SCANNED, PARTIAL, VERIFYING, VERIFIED};
    }
  }

  /** A Run that is being acquired and has no Snapshot yet is still at its beginning. */
  lemma NoSnapshotYet(start: Repo, repo: Repo, run: RunId, scene: Scene)
    requires AcquireEffect(start, repo, run, scene) && run in repo.ledgers
    ensures SnapshotsIn(repo.ledgers[run]) == [] ==> StatusOf(repo.ledgers[run]) in {CREATED, SCANNING}
  {
    hide Sound, OnlyTouches, SameElsewhere, RecordsScene, StageOf, Chained, ReplaysPrefix, Unshared, Governed, StepsOf, AcquisitionSteps;
    GovernedIsSound(repo, run);
    BeginningOf(repo.ledgers[run], scene);
  }

  /** All other Runs stay classifiable while one is acquired. */
  lemma OthersReplayableAfterAcquisition(before: Repo, after: Repo, run: RunId)
    requires Sound(before) && Sound(after) && run !in before.ledgers && OnlyTouches(before, after, run)
    requires run in after.ledgers ==> IsGovernedRun(after, run)
    requires AllReplayable(before)
    ensures OthersReplayable(after, run)
  {
    forall q | q in after.ledgers && q != run ensures Classifiable(after.ledgers, q) {
      assert Classifiable(before.ledgers, q);
      var id := OwnSnapshotId(before.ledgers[q]);
      if SnapshotsIn(before.ledgers[q]) != [] {
        forall p, i | p in after.ledgers && p != q && 0 <= i < |SnapshotsIn(after.ledgers[p])|
          ensures SnapshotIdOf(SnapshotsIn(after.ledgers[p])[i]) != id
        {
          if p == run {
            SnapshotsOfStage(after, run);
            assert SnapshotIdOf(SnapshotsIn(after.ledgers[q])[0]) != OwnSnapshotId(after.ledgers[run]);
          } else {
            assert SnapshotIdOf(SnapshotsIn(before.ledgers[p])[i]) != id;
          }
        }
      }
    }
  }

  /** With all other Runs classifiable, a rebuild right after the cancellation succeeds. */
  lemma CancellationCanRebuild(start: Repo, before: Repo, appended: Repo, run: RunId, scene: Scene)
    requires AcquireEffect(start, before, run, scene) && run in before.ledgers && AllReplayable(start)
    requires AppendEffect(before, appended, run, CANCELLED, OPERATOR_CANCELLED, true)
    requires !StageAt(appended, run).AtSnapshot?
    ensures AllReplayable(appended)
  {
    OthersReplayableAfterAcquisition(start, before, run);
    OthersStayReplayable(before, appended, run);
    OwnRunIsReplayable(appended, run);
  }

  predicate IsGovernedRun(repo: Repo, run: RunId) {
    run in repo.ledgers && Governed(repo.ledgers[run])
  }

  class Store {
    var ledgers: Ledgers
    var index: Index
    var supply: nat
    var script: seq<Signal>

    /** An empty repository in which nothing stops. */
    constructor ()
      ensures State() == Repo(map[], Index(map[], map[]), 0) && script == []
    {
      ledgers, index, supply, script := map[], Index(map[], map[]), 0, [];
    }

    function State(): Repo
      reads this
    {
      Repo(ledgers, index, supply)
    }

    /** `fault_checkpoint`, and every other moment at which the process may stop. */
    method Checkpoint() returns (signal: Signal)
      modifies this`script
      ensures Consumed(old(script), script, if signal == PASS then None else Some(signal))
      ensures Quiet(old(script)) ==> Quiet(script) && signal == PASS
    {
      if script == [] {
        return PASS;
      }
      signal, script := script[0], script[1..];
    }

    /** One call of `write_evidence` between its two checkpoints. */
    method PublishEvidence(run: RunId, item: Document) returns (outcome: Outcome<()>)
      requires MayPublish(State(), run, item, supply + 2)
      modifies this
      ensures State() == old(State()) || State() == Published(old(State()), run, item, old(supply) + 2)
      ensures outcome.Done? ==> State() == Published(old(State()), run, item, old(supply) + 2)
      ensures !outcome.Refused? && Consumed(old(script), script, StopOf(outcome))
      ensures Quiet(old(script)) ==> Quiet(script) && outcome.Done?
    {
      var signal := Checkpoint();
      if signal != PASS {
        return Stopped(signal);
      }
      ghost var middle := script;
      WriteAppends(ledgers[run], item);
      var written := WriteEvidence(ledgers[run], item);
      if written.None? {
        return Refused(EVIDENCE_CONFLICT);
      }
      ledgers, supply := ledgers[run := written.value], supply + 2;
      signal := Checkpoint();
      outcome := if signal == PASS then Done(()) else Stopped(signal);
      ConsumedComposes(old(script), middle, script, StopOf(outcome));
    }

    /** One commit of the index transaction between its two checkpoints. */
    method CommitIndex(next: Index) returns (outcome: Outcome<()>)
      modifies this`index, this`script
      ensures index == old(index) || index == next
      ensures outcome.Done? ==> index == next
      ensures !outcome.Refused? && Consumed(old(script), script, StopOf(outcome))
      ensures Quiet(old(script)) ==> Quiet(script) && outcome.Done?
    {
      var signal := Checkpoint();
      if signal != PASS {
        return Stopped(signal);
      }
      ghost var middle := script;
      index := next;
      signal := Checkpoint();
      outcome := if signal == PASS then Done(()) else Stopped(signal);
      ConsumedComposes(old(script), middle, script, StopOf(outcome));
    }

    /** `create_run`: first Evidence document, then its rows in one transaction. */
    method CreateRun(run: RunId, configDigest: nat, metadata: Metadata) returns (outcome: Outcome<()>)
      requires Sound(State()) && run !in ledgers && SupportedMetadata(metadata, configDigest)
      modifies this
      ensures CreateEffect(old(State()), State(), run, configDigest, metadata, outcome.Done?)
      ensures !outcome.Refused? && Consumed(old(script), script, StopOf(outcome))
      ensures Quiet(old(script)) ==> Quiet(script) && outcome.Done?
    {
      hide CreateEffect, Sound, SupportedMetadata, Consumed;
      var now: nat := *;
      CreateCommits(State(), run, configDigest, metadata, now);
      var item := NextEvidence(supply, RUN_CREATED, run, 0, now, configDigest, None, 1,
                               Creation(FilesystemSnapshotRun, CREATED, metadata));
      var signal := Checkpoint();
      if signal != PASS {
        return Stopped(signal);
      }
      var written := WriteEvidence([], item);
      if written.None? {
        return Refused(EVIDENCE_CONFLICT);
      }
      ghost var middle := script;
      ledgers, supply := ledgers[run := written.value], supply + 1;
      signal := Checkpoint();
      ConsumedComposes(old(script), middle, script, if signal == PASS then None else Some(signal));
      if signal != PASS {
        return Stopped(signal);
      }
      middle := script;
      var rows := InsertedByCreate(item, FilesystemSnapshotRun, configDigest, metadata);
      outcome := CommitIndex(index.(runs := index.runs[run := rows]));
      ConsumedComposes(old(script), middle, script, StopOf(outcome));
    }

    /** `_persist`: publishes the validated Snapshot document, then commits record, row and entries. */
    method PersistSnapshot(run: RunId, snapshot: Snapshot) returns (outcome: Outcome<()>)
      requires MayPersist(State(), run, snapshot)
      modifies this
      ensures PersistEffect(old(State()), State(), run, snapshot, outcome.Done?)
      ensures outcome.Refused? <==> !snapshot.intrinsic
      ensures outcome.Refused? ==> outcome.error == SNAPSHOT_EVIDENCE_INVALID && State() == old(State())
      ensures Consumed(old(script), script, StopOf(outcome))
      ensures Quiet(old(script)) && snapshot.intrinsic ==> Quiet(script) && outcome.Done?
    {
      hide MayPersist, PersistEffect, MayPublish, Sound, RunSound, Consumed;
      ConsumedNothing(script);
      var now: nat := *;
      PersistMayPublish(State(), run, snapshot, now);
      if run !in index.runs {
        return Refused(RUN_NOT_FOUND);
      }
      if !snapshot.intrinsic {
        return Refused(SNAPSHOT_EVIDENCE_INVALID);
      }
      PersistPublishes(State(), run, snapshot, now);
      PersistCommits(State(), run, snapshot, now);
      var item := SnapshotEvidence(supply, run, index.runs[run].row, snapshot, now);
      outcome := PublishEvidence(run, item);
      if outcome.Done? {
        ghost var middle := script;
        outcome := CommitIndex(SnapshotRows(index, run, item, snapshot));
        ConsumedComposes(old(script), middle, script, StopOf(outcome));
      }
    }

    /** `transition_run`: reads the index row, publishes the document, commits the row. Under the
        acquisition lease it is only called for a Run whose row has caught up with its ledger. */
    method TransitionRun(run: RunId, target: RunStatus, reason: Reason) returns (outcome: Outcome<()>)
      requires Sound(State()) && IsGovernedRun(State(), run) && CaughtUp(State(), run)
      requires Moved(StageAt(State(), run), target).Some?
      modifies this
      ensures TransitionEffect(old(State()), State(), run, target, reason, outcome.Done?)
      ensures !outcome.Refused? && Consumed(old(script), script, StopOf(outcome))
      ensures Quiet(old(script)) ==> Quiet(script) && outcome.Done?
    {
      hide TransitionEffect, MayPublish, Sound, CaughtUp, RunSound, Moved, Next, StageOf, Governed, Consumed;
      var now: nat := *;
      TransitionMayPublish(State(), run, target, reason, now);
      TransitionPublishes(State(), run, target, reason, now);
      TransitionCommits(State(), run, target, reason, now);
      MovesAreAllowed(State(), run, target);
      if run !in index.runs {
        return Refused(RUN_NOT_FOUND);
      }
      var current := index.runs[run].row;
      if current.status == CANCELLED && target == CANCELLED {
        return Done(());
      }
      if target !in AllowedTargets(current.status) {
        return Refused(INVALID_TRANSITION);
      }
      var item := TransitionEvidence(supply, run, current, target, reason, now);
      outcome := PublishEvidence(run, item);
      if outcome.Done? {
        ghost var middle := script;
        outcome := CommitIndex(TransitionRows(index, run, item, target));
        ConsumedComposes(old(script), middle, script, StopOf(outcome));
      }
    }

    /** `_append_transition_from_ledger`: publishes from the ledger and leaves the index alone. */
    method AppendTransitionFromLedger(run: RunId, target: RunStatus, reason: Reason) returns (outcome: Outcome<()>)
      requires MayAppend(State(), run, target)
      modifies this
      ensures AppendEffect(old(State()), State(), run, target, reason, outcome.Done?)
      ensures !outcome.Refused? && Explained(outcome)
      ensures Quiet(old(script)) ==> Quiet(script) && outcome.Done?
    {
      hide MayAppend, MayPublish, AppendEffect;
      var now: nat := *;
      AppendMayPublish(State(), run, target, reason, now);
      AppendPublishes(State(), run, target, reason, now);
      outcome := PublishEvidence(run, LedgerTransition(supply, run, ledgers[run], target, reason, now));
    }

    /** `_rebuild_index`: classify and replay every ledger, then swap the index in one step. */
    method RebuildIndex() returns (outcome: Outcome<()>)
      requires Sound(State())
      modifies this`index, this`script
      ensures RebuildEffect(old(State()), State(), outcome.Done?) && Explained(outcome)
      ensures Quiet(old(script)) ==> Quiet(script) && (outcome.Done? <==> AllReplayable(old(State())))
      ensures Quiet(old(script)) && !outcome.Done? ==> outcome == Refused(INTEGRITY) && State() == old(State())
    {
      hide RebuildEffect, Sound, IsReplay, Classifiable, Consumed;
      ghost var before := State();
      RebuildKeeps(before, index);
      var signal := Checkpoint();
      if signal != PASS {
        return Stopped(signal);
      }
      var candidate := ReplayClassified(ledgers);
      if candidate.None? {
        return Refused(INTEGRITY);
      }
      RebuildKeeps(before, candidate.value);
      RebuildDoneOrNot(before, candidate.value);
      signal := Checkpoint();
      if signal != PASS {
        return Stopped(signal);
      }
      // the checkpoints inside replace_snapshot_index turn a fault into a failed replacement
      signal := Checkpoint();
      if signal != PASS {
        return if signal == FAULT then Refused(INTEGRITY) else Stopped(signal);
      }
      index := candidate.value;
      signal := Checkpoint();
      if signal != PASS {
        return if signal == FAULT then Refused(INTEGRITY) else Stopped(signal);
      }
      signal := Checkpoint();
      outcome := if signal == PASS then Done(()) else Stopped(signal);
    }

    /** The tail shared by every branch that closes a Run with a terminal status: rebuild unless the
        row already matches, then report. */
    method CloseTerminal(run: RunId) returns (outcome: Outcome<Report>)
      requires Sound(State()) && IsGovernedRun(State(), run) && StageAt(State(), run).Closed?
      modifies this`index, this`script
      ensures RecoverySpec(old(State()), State(), run, outcome, Quiet(old(script)))
      ensures Quiet(old(script)) ==> Quiet(script)
    {
      ghost var before := State();
      TerminalFacts(before, run);
      hide RecoverySpec, RebuildEffect, Sound, RunSound, StageOf, RunIndexMatches, AllReplayable, OthersReplayable, CaughtUp;
      if !RunIndexMatches(ledgers, index, run) {
        var step := RebuildIndex();
        TerminalRebuilt(before, State(), run, step, Quiet(old(script)));
        if !step.Done? {
          return Surfaced(step);
        }
      }
      outcome := Done(ReportOf(ledgers, index, run));
    }

    /** `_ensure_verified_projection`: accept the index as it is, or rebuild it once. */
    method EnsureVerifiedProjection(run: RunId) returns (outcome: Outcome<()>)
      requires Sound(State()) && IsGovernedRun(State(), run) && Observed(StageAt(State(), run))
      modifies this`index, this`script
      ensures ProjectionEffect(old(State()), State(), run, outcome.Done?, Quiet(old(script))) && Explained(outcome)
      ensures Quiet(old(script)) ==> Quiet(script) && (outcome.Done? || outcome == Refused(INTEGRITY))
    {
      ProjectionFacts(State(), run);
      hide ProjectionEffect, RebuildEffect, Sound, RunSound, StageOf, Verified, AllReplayable, CaughtUp;
      if SnapshotsIn(ledgers[run]) == [] {
        return Refused(INTEGRITY);
      }
      if Verified(ledgers, index, run) {
        return Done(());
      }
      outcome := RebuildIndex();
      ProjectionRebuilt(old(State()), State(), run, outcome, Quiet(old(script)));
      if outcome.Done? && !Verified(ledgers, index, run) {
        return Refused(INTEGRITY);
      }
    }

    /** The last transition, the final report and its publication gate. */
    method FinishVerifying(run: RunId) returns (outcome: Outcome<Report>)
      requires ReadyToMove(State(), run) && !StageAt(State(), run).AtObserved?
      modifies this
      ensures RecoverySpec(old(State()), State(), run, outcome, Quiet(old(script)))
      ensures Quiet(old(script)) ==> Quiet(script)
    {
      StatusOfStage(State(), run);
      if StatusOf(ledgers[run]) == VERIFYING {
        VerificationIsOwed(State(), run);
        var step := TransitionRun(run, VERIFIED, RECOVERY_VERIFICATION_PASSED);
        hide ReadyToMove, RecoverySpec, TransitionEffect, Owed;
        MovedOn(old(State()), State(), run, VERIFIED, RECOVERY_VERIFICATION_PASSED, step, Quiet(old(script)));
        if !step.Done? {
          return Surfaced(step);
        }
        FinalGate(State(), run);
        MoveThenRecover(old(State()), State(), State(), run, Done(ReportOf(ledgers, index, run)), Quiet(old(script)));
      } else {
        FinalGate(State(), run);
      }
      var report := ReportOf(ledgers, index, run);
      if report.disposition !in {COMPLETE_RESULT, PARTIAL_RESULT} || !report.verified {
        return Refused(INTEGRITY);
      }
      outcome := Done(report);
    }

    /** The branch of recovery for a Run whose Snapshot observation is closed. */
    method CloseVerified(run: RunId) returns (outcome: Outcome<Report>)
      requires Sound(State()) && IsGovernedRun(State(), run) && Observed(StageAt(State(), run))
      modifies this
      ensures RecoverySpec(old(State()), State(), run, outcome, Quiet(old(script)))
      ensures Quiet(old(script)) ==> Quiet(script)
    {
      var step := EnsureVerifiedProjection(run);
      if !step.Done? {
        ProjectionFailed(old(State()), State(), run, step, Quiet(old(script)));
        return Surfaced(step);
      }
      ghost var projected := State();
      StatusOfStage(projected, run);
      assert ReadyToMove(projected, run);
      VerificationIsOwed(projected, run);
      GovernedIsSound(projected, run);
      hide ReadyToMove, RecoverySpec, TransitionEffect, ProjectionEffect, Owed, Sound, RunSound, StageOf, Governed, StatusOf, CaughtUp;
      if StatusOf(ledgers[run]) in {SCANNED, PARTIAL} {
        step := TransitionRun(run, VERIFYING, RECOVERY_VERIFICATION_STARTED);
        MovedOn(projected, State(), run, VERIFYING, RECOVERY_VERIFICATION_STARTED, step, Quiet(old(script)));
        if !step.Done? {
          ProjectionThenRecover(old(State()), projected, State(), run, Surfaced(step), Quiet(old(script)));
          return Surfaced(step);
        }
      }
      ghost var verifying := State();
      outcome := FinishVerifying(run);
      if verifying != projected {
        MoveThenRecover(projected, verifying, State(), run, outcome, Quiet(old(script)));
      }
      ProjectionThenRecover(old(State()), projected, State(), run, outcome, Quiet(old(script)));
    }

    /** The branches of recovery that close a Run without a durable Snapshot. */
    method CloseAsFailed(run: RunId, reason: Reason) returns (outcome: Outcome<Report>)
      requires MayAppend(State(), run, FAILED) && !StageAt(State(), run).AtSnapshot? && Owed(ledgers[run], FAILED, reason)
      modifies this
      ensures RecoverySpec(old(State()), State(), run, outcome, Quiet(old(script)))
      ensures Quiet(old(script)) ==> Quiet(script)
    {
      var step := AppendTransitionFromLedger(run, FAILED, reason);
      if !step.Done? {
        AppendStops(old(State()), State(), run, FAILED, reason, step);
        return Surfaced(step);
      }
      ghost var closed := State();
      assert Sound(closed) && IsGovernedRun(closed, run) && StageAt(closed, run).Closed?;
      outcome := CloseTerminal(run);
      AppendThenRecover(old(State()), closed, State(), run, FAILED, reason, outcome, Quiet(old(script)));
    }

    /** `_recover_snapshot_acquisition`: close whatever prefix of the protocol survived. */
    method RecoverSnapshotAcquisition(run: RunId, confirmed: bool) returns (outcome: Outcome<Report>)
      requires Sound(State())
      modifies this
      ensures Quiet(old(script)) ==> Quiet(script)
      ensures !confirmed || !IsGovernedRun(old(State()), run) ==> State() == old(State())
      ensures !confirmed ==> outcome == Refused(NOT_CONFIRMED)
      ensures confirmed && run !in old(ledgers) ==> outcome == Refused(RUN_NOT_FOUND)
      ensures confirmed && run in old(ledgers) && !Governed(old(ledgers)[run]) ==>
              outcome == Refused(if LedgerReadable(old(ledgers), run) then NOT_GOVERNED else INTEGRITY)
      ensures confirmed && IsGovernedRun(old(State()), run) ==>
              && RecoverySpec(old(State()), State(), run, outcome, Quiet(old(script)))
              && RecoveryAnswer(old(ledgers)[run], ledgers[run], outcome)
    {
      if !confirmed {
        return Refused(NOT_CONFIRMED);
      }
      if run !in ledgers {
        return Refused(RUN_NOT_FOUND);
      }
      if !LedgerReadable(ledgers, run) {
        if IsGovernedRun(State(), run) {
          GovernedIsReadable(State(), run);
        }
        return Refused(INTEGRITY);
      }
      if !Governed(ledgers[run]) {
        return Refused(NOT_GOVERNED);
      }
      GovernedIsReadable(State(), run);
      hide RecoverySpec, RecoveryAnswer, Sound, RunSound, StageOf, LedgerReadable, Governed;
      outcome := RecoverReadable(run);
      RecoveryAnswers(old(State()), State(), run, outcome, Quiet(old(script)));
    }

    /** A durable Snapshot without its observation transition: append it, then verify and close. */
    method CloseDurableSnapshot(run: RunId) returns (outcome: Outcome<Report>)
      requires Sound(State()) && IsGovernedRun(State(), run) && StageAt(State(), run).AtSnapshot?
      modifies this
      ensures RecoverySpec(old(State()), State(), run, outcome, Quiet(old(script)))
      ensures Quiet(old(script)) ==> Quiet(script)
    {
      ghost var before := State();
      GovernedIsReadable(before, run);
      var fact := SnapshotsIn(ledgers[run])[0];
      var target := ExpectedRunStatus(fact.body.payload.snapshot.status);
      if target.None? {
        return Refused(INTEGRITY);
      }
      MayCloseObservation(before, run, target.value);
      hide RecoverySpec, Sound, RunSound, StageOf, Governed, AppendEffect, MayAppend, Owed;
      var step := AppendTransitionFromLedger(run, target.value, CLOSED_DURABLE_OBSERVATION);
      if !step.Done? {
        AppendStops(before, State(), run, target.value, CLOSED_DURABLE_OBSERVATION, step);
        return Surfaced(step);
      }
      ghost var appended := State();
      ClosedObservation(before, appended, run, target.value, CLOSED_DURABLE_OBSERVATION);
      outcome := CloseVerified(run);
      AppendThenRecover(before, appended, State(), run, target.value, CLOSED_DURABLE_OBSERVATION,
                        outcome, Quiet(old(script)));
    }

    method RecoverReadable(run: RunId) returns (outcome: Outcome<Report>)
      requires Sound(State()) && IsGovernedRun(State(), run)
      modifies this
      ensures RecoverySpec(old(State()), State(), run, outcome, Quiet(old(script)))
      ensures Quiet(old(script)) ==> Quiet(script)
    {
      StatusDecidesStage(State(), run);
      hide RecoverySpec, Sound, RunSound, StageOf, Governed, MayAppend, Observed, StatusOf, SnapshotsIn, Owed;
      var status, snapshots := StatusOf(ledgers[run]), SnapshotsIn(ledgers[run]);
      if status == CREATED {
        outcome := CloseAsFailed(run, CLOSED_BEFORE_SCANNING);
      } else if status == SCANNING && snapshots == [] {
        outcome := CloseAsFailed(run, CLOSED_WITHOUT_SNAPSHOT);
      } else if status == SCANNING {
        outcome := CloseDurableSnapshot(run);
      } else if status in {SCANNED, PARTIAL, VERIFYING, VERIFIED} {
        outcome := CloseVerified(run);
      } else if status in {FAILED, CANCELLED} {
        outcome := CloseTerminal(run);
      } else {
        outcome := Refused(INTEGRITY);
      }
    }

    /** The first half of an acquisition: a created Run that has started scanning. */
    method StartScanning(run: RunId, scene: Scene) returns (outcome: Outcome<()>)
      requires Sound(State()) && run !in ledgers && SupportedMetadata(scene.metadata, scene.configDigest)
      modifies this
      ensures AcquireEffect(old(State()), State(), run, scene)
      ensures outcome.Done? ==> AcquiredTo(old(State()), State(), run, scene, AtScanning)
      ensures !outcome.Refused? && Consumed(old(script), script, StopOf(outcome))
    {
      AcquireNothing(State(), run, scene);
      StartsScanning(scene);
      hide AcquireEffect, AcquiredTo, CreateEffect, TransitionEffect, SupportedMetadata, Sound, Consumed, NextOfAcquisition, AcquisitionSteps,
           StagePairs, Governed, RunSound, CaughtUp, StageOf;
      var signal := Checkpoint();
      if signal != PASS {
        return Stopped(signal);
      }
      ghost var middle := script;
      outcome := CreateRun(run, scene.configDigest, scene.metadata);
      ConsumedComposes(old(script), middle, script, StopOf(outcome));
      AcquireCreated(old(State()), State(), run, scene, outcome.Done?);
      if !outcome.Done? {
        return;
      }
      ghost var created := State();
      middle := script;
      AcquiredIsReady(old(State()), created, run, scene, AtCreated);
      outcome := TransitionRun(run, SCANNING, SCAN_STARTED);
      ConsumedComposes(old(script), middle, script, StopOf(outcome));
      AcquireMoved(old(State()), created, State(), run, scene, AtCreated, SCANNING, SCAN_STARTED, outcome.Done?);
    }

    /** The scan between its two checkpoints, and the check that the scope root is still the bound one. */
    method Observe(run: RunId, scene: Scene) returns (outcome: Outcome<Snapshot>)
      modifies this`script
      ensures outcome.Done? ==> scene.observation.Some? && scene.rootMatches && outcome.value == Snapshot(supply + 1, run,
                if scene.observation.value.partial then PARTIAL_SNAPSHOT else COMPLETE_SNAPSHOT,
                scene.observation.value.content, scene.observation.value.intrinsic)
      ensures outcome.Refused? ==> (scene.observation.None? || !scene.rootMatches) && outcome.error == RECOVERY_REQUIRED
      ensures Consumed(old(script), script, StopOf(outcome))
    {
      hide Consumed;
      var signal := Checkpoint();
      if signal != PASS {
        return Stopped(signal);
      }
      if scene.observation.None? {
        return Refused(RECOVERY_REQUIRED);
      }
      var seen := scene.observation.value;
      var snapshot := Snapshot(supply + 1, run, if seen.partial then PARTIAL_SNAPSHOT else COMPLETE_SNAPSHOT, seen.content, seen.intrinsic);
      ghost var middle := script;
      signal := Checkpoint();
      ConsumedComposes(old(script), middle, script, if signal == PASS then None else Some(signal));
      if signal != PASS {
        return Stopped(signal);
      }
      outcome := if scene.rootMatches then Done(snapshot) else Refused(RECOVERY_REQUIRED);
    }

    /** The middle of an acquisition: observe, persist the Snapshot, close the observation. */
    method PersistObservation(run: RunId, scene: Scene, ghost start: Repo) returns (outcome: Outcome<()>, ghost fact: Document)
      requires AcquiredTo(start, State(), run, scene, AtScanning)
      modifies this
      ensures AcquireEffect(start, State(), run, scene)
      ensures outcome.Done? ==> scene.Observable() && AcquiredTo(start, State(), run, scene, AtObserved(fact))
      ensures outcome.Refused? ==> !scene.Observable() && State() == old(State()) && outcome.error in {RECOVERY_REQUIRED, SNAPSHOT_EVIDENCE_INVALID}
      ensures Consumed(old(script), script, StopOf(outcome))
    {
      AcquiredIsReady(start, State(), run, scene, AtScanning);
      AcquiredStays(start, State(), run, scene, AtScanning);
      hide AcquireEffect, AcquiredTo, PersistEffect, TransitionEffect, Sound, StageOf, ReplaysPrefix, Unshared, Chained, Consumed,
           Governed, RunSound, CaughtUp, SnapshotsIn, StatusOf;
      fact := ledgers[run][0];
      var observed := Observe(run, scene);
      if !observed.Done? {
        outcome := if observed.Stopped? then Stopped(observed.signal) else Refused(observed.error);
        return;
      }
      var snapshot := observed.value;
      ghost var middle := script;
      assert State() == old(State());
      outcome := PersistSnapshot(run, snapshot);
      ConsumedComposes(old(script), middle, script, StopOf(outcome));
      fact := AcquirePersisted(start, old(State()), State(), run, scene, snapshot, outcome.Done?);
      if outcome.Done? {
        middle := script;
        outcome := CloseObservation(run, snapshot, start, scene, fact);
        ConsumedComposes(old(script), middle, script, StopOf(outcome));
      }
    }

    /** The observation transition that the status of the persisted Snapshot calls for. */
    method CloseObservation(run: RunId, snapshot: Snapshot, ghost start: Repo, ghost scene: Scene, ghost fact: Document) returns (outcome: Outcome<()>)
      requires AcquiredTo(start, State(), run, scene, AtSnapshot(fact)) && fact.body.payload == Observation(snapshot) && IsUsableSnapshot(fact)
      modifies this
      ensures AcquireEffect(start, State(), run, scene)
      ensures outcome.Done? ==> AcquiredTo(start, State(), run, scene, AtObserved(fact))
      ensures !outcome.Refused? && Consumed(old(script), script, StopOf(outcome))
    {
      AcquiredIsReady(start, State(), run, scene, AtSnapshot(fact));
      ExpectedOfScene(start, State(), run, scene, fact);
      NextSteps(scene, fact);
      hide AcquireEffect, AcquiredTo, TransitionEffect, Sound, StageOf, ReplaysPrefix, Unshared, Chained, Consumed,
           NextOfAcquisition, AcquisitionSteps, StagePairs;
      var target := ExpectedRunStatus(snapshot.status);
      if target.None? {
        return Refused(INTEGRITY);
      }
      outcome := TransitionRun(run, target.value, OBSERVATION_PERSISTED);
      AcquireMoved(start, old(State()), State(), run, scene, AtSnapshot(fact), target.value, OBSERVATION_PERSISTED, outcome.Done?);
    }

    /** The authoritative verification between its two checkpoints. */
    method VerifyAuthoritatively(run: RunId) returns (outcome: Outcome<()>)
      modifies this`script
      ensures outcome.Done? ==> Verified(ledgers, index, run)
      ensures outcome.Refused? ==> !Verified(ledgers, index, run)
      ensures Consumed(old(script), script, StopOf(outcome))
    {
      hide Consumed, Verified;
      var signal := Checkpoint();
      if signal != PASS {
        return Stopped(signal);
      }
      if !Verified(ledgers, index, run) {
        return Refused(INTEGRITY);
      }
      ghost var middle := script;
      signal := Checkpoint();
      ConsumedComposes(old(script), middle, script, if signal == PASS then None else Some(signal));
      outcome := if signal == PASS then Done(()) else Stopped(signal);
    }

    /** The end of an acquisition: verify, then the two closing transitions and the report. */
    method VerifyAndClose(run: RunId, ghost start: Repo, ghost scene: Scene, ghost fact: Document) returns (outcome: Outcome<Report>)
      requires AcquiredTo(start, State(), run, scene, AtObserved(fact))
      modifies this
      ensures AcquireEffect(start, State(), run, scene)
      ensures outcome.Done? ==> FinallyVerified(State(), run, scene, outcome.value)
      ensures !outcome.Refused? && Consumed(old(script), script, StopOf(outcome))
    {
      AcquiredVerifies(start, State(), run, scene, AtObserved(fact));
      ExpectedOfScene(start, State(), run, scene, fact);
      NextSteps(scene, fact);
      AcquiredStays(start, State(), run, scene, AtObserved(fact));
      hide AcquireEffect, AcquiredTo, Verified, FinallyVerified, Consumed, NextOfAcquisition, Sound, RunSound, StageOf, CaughtUp, Governed;
      var step := VerifyAuthoritatively(run);
      assert State() == old(State());
      if !step.Done? {
        return Raised(step);
      }
      ghost var middle := script;
      step := MoveAcquired(run, VERIFYING, VERIFICATION_STARTED, start, scene, AtObserved(fact));
      ConsumedComposes(old(script), middle, script, StopOf(step));
      if !step.Done? {
        return Raised(step);
      }
      middle := script;
      outcome := PublishVerified(run, start, scene, fact);
      ConsumedComposes(old(script), middle, script, StopOf(outcome));
    }

    /** The final transition of an acquisition, then its report. */
    method PublishVerified(run: RunId, ghost start: Repo, ghost scene: Scene, ghost fact: Document) returns (outcome: Outcome<Report>)
      requires AcquiredTo(start, State(), run, scene, AtVerifying(fact))
      requires NextOfAcquisition(AtVerifying(fact), scene, VERIFIED, VERIFICATION_PASSED)
      modifies this
      ensures AcquireEffect(start, State(), run, scene)
      ensures outcome.Done? ==> FinallyVerified(State(), run, scene, outcome.value)
      ensures !outcome.Refused? && Consumed(old(script), script, StopOf(outcome))
    {
      hide AcquireEffect, AcquiredTo, FinallyVerified, ReportOf, Consumed, NextOfAcquisition;
      var step := MoveAcquired(run, VERIFIED, VERIFICATION_PASSED, start, scene, AtVerifying(fact));
      if !step.Done? {
        return Raised(step);
      }
      VerifiedIsPublishable(start, State(), run, scene, fact);
      ghost var middle := script;
      outcome := PublishReport(run, scene);
      ConsumedComposes(old(script), middle, script, StopOf(outcome));
    }

    /** One `transition_run` of an acquisition. */
    method MoveAcquired(run: RunId, target: RunStatus, reason: Reason, ghost start: Repo, ghost scene: Scene, ghost stage: Stage) returns (step: Outcome<()>)
      requires AcquiredTo(start, State(), run, scene, stage) && target != SCANNING && Moved(stage, target).Some?
      requires NextOfAcquisition(stage, scene, target, reason)
      modifies this
      ensures AcquireEffect(start, State(), run, scene)
      ensures step.Done? ==> AcquiredTo(start, State(), run, scene, Moved(stage, target).value)
      ensures !step.Refused? && Consumed(old(script), script, StopOf(step))
    {
      AcquiredIsReady(start, State(), run, scene, stage);
      hide AcquireEffect, AcquiredTo, TransitionEffect, Sound, StageOf, ReplaysPrefix, Unshared, Chained, Moved, Consumed, NextOfAcquisition;
      step := TransitionRun(run, target, reason);
      AcquireMoved(start, old(State()), State(), run, scene, stage, target, reason, step.Done?);
    }

    /** The terminal publication gate. */
    method PublishReport(run: RunId, ghost scene: Scene) returns (outcome: Outcome<Report>)
      requires run in ledgers && FinallyVerified(State(), run, scene, ReportOf(ledgers, index, run))
      modifies this`script
      ensures outcome.Done? ==> FinallyVerified(State(), run, scene, outcome.value)
      ensures !outcome.Refused? && Consumed(old(script), script, StopOf(outcome))
    {
      PublishableReport(State(), run, scene, ReportOf(ledgers, index, run));
      hide FinallyVerified, ReportOf, Consumed;
      var signal := Checkpoint();
      if signal != PASS {
        return Stopped(signal);
      }
      var report := ReportOf(ledgers, index, run);
      if report.disposition !in {COMPLETE_RESULT, PARTIAL_RESULT} || !report.verified {
        return Refused(INTEGRITY);
      }
      outcome := Done(report);
    }

    /** Everything inside the try block of `_acquire_snapshot`. */
    method Attempt(run: RunId, scene: Scene) returns (outcome: Outcome<Report>)
      requires Sound(State()) && run !in ledgers && SupportedMetadata(scene.metadata, scene.configDigest)
      modifies this
      ensures AcquireEffect(old(State()), State(), run, scene)
      ensures outcome.Done? ==> FinallyVerified(State(), run, scene, outcome.value)
      ensures outcome.Refused? ==>
              && !scene.Observable() && outcome.error in {RECOVERY_REQUIRED, SNAPSHOT_EVIDENCE_INVALID}
              && run in ledgers && CaughtUp(State(), run) && StatusOf(ledgers[run]) == SCANNING && SnapshotsIn(ledgers[run]) == []
      ensures outcome.Done? ==> scene.Observable()
      ensures Consumed(old(script), script, StopOf(outcome))
    {
      hide AcquireEffect, AcquiredTo, SupportedMetadata, Sound, FinallyVerified, Consumed;
      var step := StartScanning(run, scene);
      if !step.Done? {
        return Raised(step);
      }
      ghost var fact;
      ghost var middle := script;
      ScanningFacts(old(State()), State(), run, scene);
      step, fact := PersistObservation(run, scene, old(State()));
      ConsumedComposes(old(script), middle, script, StopOf(step));
      if !step.Done? {
        return Raised(step);
      }
      middle := script;
      outcome := VerifyAndClose(run, old(State()), scene, fact);
      ConsumedComposes(old(script), middle, script, StopOf(outcome));
    }

    /** The operator's interrupt: cancel in the ledger while no Snapshot is durable, then rebuild. */
    method CancelInterrupted(run: RunId, ghost start: Repo, ghost scene: Scene) returns (outcome: Outcome<Report>)
      requires AcquireEffect(start, State(), run, scene)
      modifies this
      ensures AcquisitionSpec(start, State(), run, scene, outcome)
      ensures !outcome.Done?
      ensures Quiet(old(script)) ==> outcome.Refused?
      ensures Quiet(old(script)) && AllReplayable(start) ==>
              outcome == Refused(if run in ledgers && SnapshotsIn(ledgers[run]) != [] then RECOVERY_REQUIRED else ACQUISITION_CANCELLED)
      ensures run in ledgers && SnapshotsIn(ledgers[run]) != [] ==> State() == old(State()) && outcome == Refused(RECOVERY_REQUIRED)
    {
      ghost var before := State();
      AttemptIsAcquisition(start, before, run, scene, Refused(RECOVERY_REQUIRED));
      if run !in ledgers {
        return Refused(ACQUISITION_CANCELLED);
      }
      AcquiredRecordHolds(start, before, run, scene);
      NoSnapshotYet(start, before, run, scene);
      hide AcquireEffect, AcquisitionSpec, AppendEffect, ExtensionEffect, Sound, StageOf, ReplaysPrefix, Unshared, Chained, MayAppend,
           AcquiredRecord, CancelledRun, AllReplayable, RebuildEffect;
      if SnapshotsIn(ledgers[run]) != [] || StatusOf(ledgers[run]) !in {CREATED, SCANNING} {
        return Refused(RECOVERY_REQUIRED);
      }
      MayCancel(before, run);
      var step := AppendTransitionFromLedger(run, CANCELLED, OPERATOR_CANCELLED);
      CancellationRecord(start, before, State(), run, scene, step.Done?);
      AppendedOnly(before, State(), run, OPERATOR_CANCELLED, step.Done?);
      ExtensionKeepsSnapshots(before, State(), run);
      if !step.Done? {
        outcome := if step.Stopped? then Stopped(step.signal) else Refused(RECOVERY_REQUIRED);
        AcquireThenExtend(start, before, State(), run, scene, outcome);
        return;
      }
      ghost var appended := State();
      if AllReplayable(start) {
        CancellationCanRebuild(start, before, appended, run, scene);
      }
      step := RebuildIndex();
      CancelledAndRebuilt(before, appended, State(), run, OPERATOR_CANCELLED, step.Done?);
      SameRecord(appended, State(), run, scene);
      outcome := if step.Done? then Refused(ACQUISITION_CANCELLED)
                 else if step.Stopped? then Stopped(step.signal) else Refused(RECOVERY_REQUIRED);
      AcquireThenExtend(start, before, State(), run, scene, outcome);
    }

    /** `_acquire_snapshot`: the attempt, and what its exception handlers make of a stop. */
    method AcquireSnapshot(run: RunId, scene: Scene, confirmed: bool) returns (outcome: Outcome<Report>)
      requires Sound(State()) && run !in ledgers && SupportedMetadata(scene.metadata, scene.configDigest)
      modifies this
      ensures !confirmed ==> outcome == Refused(NOT_CONFIRMED) && State() == old(State())
      ensures confirmed ==> AcquisitionSpec(old(State()), State(), run, scene, outcome)
      // undisturbed: done exactly when there is something to persist, else a Run left scanning
      ensures confirmed && Quiet(old(script)) ==> (outcome.Done? <==> scene.Observable())
      ensures confirmed && Quiet(old(script)) && !scene.Observable() ==>
              && outcome == Refused(RECOVERY_REQUIRED) && run in ledgers && CaughtUp(State(), run)
              && StatusOf(ledgers[run]) == SCANNING && SnapshotsIn(ledgers[run]) == []
      // disturbed once: the answer is the one the signal calls for
      ensures confirmed && OneStop(old(script)) && scene.Observable() && AllReplayable(old(State())) && !outcome.Done? ==>
              || (FAULT in old(script) && outcome == Refused(RECOVERY_REQUIRED))
              || (KILL in old(script) && outcome == Stopped(KILL))
              || (INTERRUPT in old(script) && outcome ==
                    Refused(if run in ledgers && SnapshotsIn(ledgers[run]) != [] then RECOVERY_REQUIRED else ACQUISITION_CANCELLED))
    {
      if !confirmed {
        return Refused(NOT_CONFIRMED);
      }
      outcome := Attempt(run, scene);
      AttemptIsAcquisition(old(State()), State(), run, scene, outcome);
      QuietConsumed(old(script), script, StopOf(outcome));
      hide AcquireEffect, AcquisitionSpec, SupportedMetadata, Sound, Consumed, AllReplayable;
      match outcome {
        case Done(_) =>
        case Stopped(signal) =>
          if signal == INTERRUPT {
            outcome := CancelInterrupted(run, old(State()), scene);
          } else if signal == FAULT {
            outcome := Refused(RECOVERY_REQUIRED);
          }
        case Refused(error) =>
          outcome := Refused(if error == INTEGRITY then INTEGRITY else RECOVERY_REQUIRED);
      }
    }
  }
}
