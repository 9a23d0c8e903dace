/** The derived index of one Run: a fold of its ledger, and its incremental maintenance. */
module RunIndex {
  import opened Options
  import opened StateMachine
  import opened Evidence
  import opened Lifecycle

  /** A row of `runs`, without its key. */
  datatype RunRow = RunRow(
    runKind: RunKind, status: RunStatus, createdAt: nat, updatedAt: nat, configDigest: nat,
    metadata: Metadata, lastSequence: int, lastDigest: Digest, terminal: bool)

  /** A row of `evidence_records`; the relative path is the file name inside the Run directory. */
  datatype EvidenceRow = EvidenceRow(
    evidenceId: nat, sequence: int, evidenceType: EvidenceType, createdAt: nat, path: (int, EvidenceType),
    previous: Option<Digest>, digest: Digest, schemaVersion: nat)

  /** Everything the index holds for one Run apart from its Snapshot row. */
  datatype RunProjection = RunProjection(row: RunRow, records: seq<EvidenceRow>)

  /** A row of `snapshots` with its entries: the mapped fact and where its Evidence lives. */
  datatype SnapshotRow = SnapshotRow(snapshot: Snapshot, evidenceId: nat, path: (int, EvidenceType))

  function StatusOf(documents: seq<Document>): RunStatus {
    if |documents| <= 1 then CREATED
    else
      var last := documents[|documents| - 1].body;
      if last.evidenceType == STATE_TRANSITION && last.payload.Transition? then last.payload.toStatus
      else StatusOf(documents[..|documents| - 1])
  }

  function RecordOf(d: Document): EvidenceRow {
    EvidenceRow(d.body.evidenceId, d.body.sequence, d.body.evidenceType, d.body.createdAt, FileName(d),
                d.body.previous, d.evidenceDigest, d.body.schemaVersion)
  }

  function RecordsOf(documents: seq<Document>): seq<EvidenceRow> {
    if documents == [] then []
    else RecordsOf(documents[..|documents| - 1]) + [RecordOf(documents[|documents| - 1])]
  }

  /** What a rebuild from the ledger stores for a Run. */
  function Project(documents: seq<Document>): RunProjection
    requires documents != [] && documents[0].body.payload.Creation?
  {
    var first, final := documents[0].body, documents[|documents| - 1];
    RunProjection(
      RunRow(first.payload.runKind, StatusOf(documents), first.createdAt, final.body.createdAt, first.configDigest,
             first.payload.metadata, |documents|, final.evidenceDigest, IsTerminal(StatusOf(documents))),
      RecordsOf(documents))
  }

  /** `_insert_run_ledger`: the two passes over the files that fill a Run's rows from nothing. */
  method InsertRunLedger(files: seq<Document>) returns (projection: RunProjection)
    requires files != [] && files[0].body.payload.Creation?
    requires forall i :: 0 <= i < |files| ==> !BrokenTransition(files[i])
    ensures projection == Project(files)
  {
    var first, final := files[0], files[|files| - 1];
    var status := CREATED;
    for i := 1 to |files|
      invariant status == StatusOf(files[..i])
    {
      assert files[..i + 1][..i] == files[..i];
      if files[i].body.evidenceType == STATE_TRANSITION {
        status := files[i].body.payload.toStatus;
      }
    }
    var records: seq<EvidenceRow> := [];
    for i := 0 to |files|
      invariant records == RecordsOf(files[..i])
    {
      assert files[..i + 1][..i] == files[..i];
      records := records + [RecordOf(files[i])];
    }
    assert files[..|files|] == files;
    projection := RunProjection(
      RunRow(first.body.payload.runKind, status, first.body.createdAt, final.body.createdAt, first.body.configDigest,
             first.body.payload.metadata, |files|, final.evidenceDigest, IsTerminal(status)),
      records);
  }

  // ------------------------------------------------------------------ incremental maintenance

  /** The rows `create_run` inserts. */
  function InsertedByCreate(item: Document, runKind: RunKind, configDigest: nat, metadata: Metadata): RunProjection {
    RunProjection(
      RunRow(runKind, CREATED, item.body.createdAt, item.body.createdAt, configDigest, metadata, 1, item.evidenceDigest, false),
      [EvidenceRow(item.body.evidenceId, 1, item.body.evidenceType, item.body.createdAt, FileName(item), None, item.evidenceDigest, 1)])
  }

  /** The record inserted and the row updated by `transition_run`. */
  function UpdatedByTransition(p: RunProjection, item: Document, target: RunStatus): RunProjection {
    RunProjection(
      p.row.(status := target, updatedAt := item.body.createdAt, lastSequence := item.body.sequence,
             lastDigest := item.evidenceDigest, terminal := IsTerminal(target)),
      p.records + [EvidenceRow(item.body.evidenceId, item.body.sequence, item.body.evidenceType, item.body.createdAt,
                               FileName(item), item.body.previous, item.evidenceDigest, 1)])
  }

  /** The record inserted and the row updated by `_persist`: status and terminal flag stay. */
  function UpdatedByPersist(p: RunProjection, item: Document, schemaVersion: nat): RunProjection {
    RunProjection(
      p.row.(lastSequence := item.body.sequence, lastDigest := item.evidenceDigest, updatedAt := item.body.createdAt),
      p.records + [EvidenceRow(item.body.evidenceId, item.body.sequence, item.body.evidenceType, item.body.createdAt,
                               FileName(item), item.body.previous, item.evidenceDigest, schemaVersion)])
  }

  /** Field for field, what `create_run` inserts is what a rebuild computes. */
  lemma CreateEqualsRebuild(item: Document)
    requires Links([], item) && item.body.evidenceType == RUN_CREATED && item.body.schemaVersion == 1
    requires item.body.payload.Creation?
    ensures InsertedByCreate(item, item.body.payload.runKind, item.body.configDigest, item.body.payload.metadata)
         == Project([item])
  {
    assert RecordsOf([item]) == RecordsOf([]) + [RecordOf(item)];
  }

  /** Field for field, updating the caught-up rows for one transition equals rebuilding. */
  lemma TransitionEqualsRebuild(documents: seq<Document>, item: Document)
    requires documents != [] && documents[0].body.payload.Creation? && Links(documents, item)
    requires item.body.evidenceType == STATE_TRANSITION && item.body.payload.Transition? && item.body.schemaVersion == 1
    ensures UpdatedByTransition(Project(documents), item, item.body.payload.toStatus) == Project(documents + [item])
  {
    assert (documents + [item])[..|documents|] == documents;
  }

  /** Field for field, updating the caught-up rows for a Snapshot document equals rebuilding. */
  lemma PersistEqualsRebuild(documents: seq<Document>, item: Document)
    requires documents != [] && documents[0].body.payload.Creation? && Links(documents, item)
    requires item.body.evidenceType == FILESYSTEM_SNAPSHOT
    requires Project(documents).row.terminal == IsTerminal(StatusOf(documents))
    ensures UpdatedByPersist(Project(documents), item, item.body.schemaVersion) == Project(documents + [item])
  {
    assert (documents + [item])[..|documents|] == documents;
  }

  // ------------------------------------------------------------------ structural ledger validation

  /** What `_verify_run` demands of the next file of a Run's directory. */
  predicate Acceptable(run: RunId, prefix: seq<Document>, d: Document) {
    && d.body.runId == run && d.body.sequence == |prefix| + 1
    && d.body.schemaVersion in {1, 2} && (d.body.schemaVersion == 2 ==> d.body.evidenceType == FILESYSTEM_SNAPSHOT)
    && !d.body.payload.Malformed?
    && d.body.previous == LastDigest(prefix) && d.evidenceDigest == Sha256(d.body)
    && (forall i :: 0 <= i < |prefix| ==>
          prefix[i].body.evidenceId != d.body.evidenceId && prefix[i].evidenceDigest != d.evidenceDigest)
    && (prefix == [] ==>
          d.body.evidenceType == RUN_CREATED && d.body.payload.Creation? && d.body.payload.initialStatus == CREATED)
    && (prefix != [] && d.body.evidenceType == STATE_TRANSITION ==>
          && d.body.payload.Transition? && d.body.payload.fromStatus == StatusOf(prefix)
          && d.body.payload.toStatus in AllowedTargets(StatusOf(prefix)))
  }

  predicate WellLinked(run: RunId, documents: seq<Document>) {
    documents == []
    || (WellLinked(run, documents[..|documents| - 1])
        && Acceptable(run, documents[..|documents| - 1], documents[|documents| - 1]))
  }

  predicate LedgerValid(run: RunId, documents: seq<Document>) {
    documents != [] && WellLinked(run, documents)
  }

  lemma {:induction false} LedgerValidAt(run: RunId, documents: seq<Document>, i: nat)
    requires WellLinked(run, documents) && i < |documents|
    ensures Acceptable(run, documents[..i], documents[i])
  {
    var n := |documents| - 1;
    if i < n {
      LedgerValidAt(run, documents[..n], i);
      assert documents[..n][..i] == documents[..i];
    }
  }

  /** Everything `Acceptable` says of one document, in terms of the whole directory. */
  predicate ValidAt(run: RunId, documents: seq<Document>, i: nat)
    requires i < |documents|
  {
    && documents[i].body.runId == run && documents[i].body.sequence == i + 1
    && documents[i].evidenceDigest == Sha256(documents[i].body)
    && documents[i].body.previous == (if i == 0 then None else Some(documents[i - 1].evidenceDigest))
    && (forall j :: 0 <= j < i ==> documents[j].body.evidenceId != documents[i].body.evidenceId)
    && (i > 0 && documents[i].body.evidenceType == STATE_TRANSITION ==>
          && documents[i].body.payload.Transition? && documents[i].body.payload.fromStatus == StatusOf(documents[..i])
          && documents[i].body.payload.toStatus in AllowedTargets(StatusOf(documents[..i])))
  }

  lemma AcceptableIsValid(run: RunId, documents: seq<Document>, i: nat)
    requires i < |documents| && Acceptable(run, documents[..i], documents[i])
    ensures ValidAt(run, documents, i) && !BrokenTransition(documents[i])
    ensures i == 0 ==> documents[0].body.payload.Creation?
  {
    forall j | 0 <= j < i ensures documents[j].body.evidenceId != documents[i].body.evidenceId {
      assert documents[..i][j] == documents[j];
    }
    assert i > 0 ==> documents[..i][i - 1] == documents[i - 1];
  }

  /** A valid Run directory is contiguous, sealed, linked by previous digest and without repeated
      identities, and every transition starts at the status before it and is allowed from there. */
  lemma LedgerValidFacts(run: RunId, documents: seq<Document>)
    requires LedgerValid(run, documents)
    ensures documents[0].body.payload.Creation? && documents[0].body.runId == run
    ensures forall i :: 0 <= i < |documents| ==> !BrokenTransition(documents[i])
    ensures forall i :: 0 <= i < |documents| ==> ValidAt(run, documents, i)
  {
    hide StatusOf;
    forall i | 0 <= i < |documents|
      ensures ValidAt(run, documents, i) && !BrokenTransition(documents[i]) && (i == 0 ==> documents[0].body.payload.Creation?)
    {
      LedgerValidAt(run, documents, i);
      AcceptableIsValid(run, documents, i);
    }
    assert ValidAt(run, documents, 0);
  }
}
