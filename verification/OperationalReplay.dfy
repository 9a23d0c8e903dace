/**
 The whole repository as values: one ledger per Run, the derived index, classification of the
 ledgers for replay, and the composition that verifies one Snapshot.
 */
module OperationalReplay {
  import opened Options
  import opened StateMachine
  import opened Evidence
  import opened Lifecycle
  import opened RunIndex
  import opened AcquisitionLedger

  type Ledgers = map<RunId, seq<Document>>

  datatype Index = Index(runs: map<RunId, RunProjection>, snapshots: map<SnapshotId, SnapshotRow>)

  predicate WellTyped(d: Document) {
    d.body.payload.Observation? && d.body.payload.snapshot.intrinsic && d.body.payload.snapshot.runId == d.body.runId
  }

  function SnapshotIdOf(d: Document): SnapshotId {
    if d.body.payload.Observation? then d.body.payload.snapshot.snapshotId else 0
  }

  function RowOf(d: Document): SnapshotRow
    requires d.body.payload.Observation?
  {
    SnapshotRow(d.body.payload.snapshot, d.body.evidenceId, FileName(d))
  }

  /** No other Run holds a Snapshot document with this identity. */
  predicate Unshared(ledgers: Ledgers, run: RunId, id: SnapshotId) {
    forall q, i {:trigger SnapshotsIn(ledgers[q])[i]} ::
      q in ledgers && q != run && 0 <= i < |SnapshotsIn(ledgers[q])| ==> SnapshotIdOf(SnapshotsIn(ledgers[q])[i]) != id
  }

  /** The identity of a ledger's first Snapshot, if it has one. */
  function OwnSnapshotId(documents: seq<Document>): SnapshotId {
    if SnapshotsIn(documents) == [] then 0 else SnapshotIdOf(SnapshotsIn(documents)[0])
  }

  // ------------------------------------------------------------------ classification and replay

  /** The Snapshot of this ledger belongs in a replayed index. */
  predicate Eligible(documents: seq<Document>) {
    && documents != [] && documents[0].body.payload.Creation?
    && |SnapshotsIn(documents)| == 1 && WellTyped(SnapshotsIn(documents)[0])
    && SnapshotRunCompatible(SnapshotsIn(documents)[0].body.payload.snapshot.status,
                             documents[0].body.payload.runKind, StatusOf(documents), documents)
  }

  /** The one governed exclusion: a legacy PARTIAL Snapshot whose Run never left scanning. */
  predicate Excluded(documents: seq<Document>) {
    && documents != [] && documents[0].body.payload.Creation?
    && documents[0].body.payload.runKind == FilesystemSnapshotRun
    && |SnapshotsIn(documents)| == 1 && WellTyped(SnapshotsIn(documents)[0])
    && SnapshotsIn(documents)[0].body.payload.snapshot.status == PARTIAL_SNAPSHOT
    && StatusOf(documents) == SCANNING && !Governed(documents)
  }

  /** Replay accepts a corpus only if every Run is classified. The checks that classification makes
      against the index, reuse references of version 2 Snapshots and evidence identities across Runs, are
      not part of it. */
  predicate Classifiable(ledgers: Ledgers, run: RunId)
    requires run in ledgers
  {
    var documents := ledgers[run];
    && LedgerValid(run, documents)
    && (SnapshotsIn(documents) == []
        || ((Eligible(documents) || Excluded(documents)) && Unshared(ledgers, run, OwnSnapshotId(documents))))
  }

  predicate SnapshotsReplayed(snapshots: map<SnapshotId, SnapshotRow>, ledgers: Ledgers, done: set<RunId>)
    requires done <= ledgers.Keys
  {
    && (forall q :: q in done && Eligible(ledgers[q]) ==>
          OwnSnapshotId(ledgers[q]) in snapshots
          && snapshots[OwnSnapshotId(ledgers[q])] == RowOf(SnapshotsIn(ledgers[q])[0]))
    && (forall id :: id in snapshots ==>
          exists q :: q in done && Eligible(ledgers[q]) && OwnSnapshotId(ledgers[q]) == id
                      && snapshots[id] == RowOf(SnapshotsIn(ledgers[q])[0]))
  }

  /** The `snapshots` table after one more Run: a row only when its Snapshot is eligible. */
  function InsertSnapshotRow(snapshots: map<SnapshotId, SnapshotRow>, documents: seq<Document>): map<SnapshotId, SnapshotRow> {
    if Eligible(documents) then snapshots[OwnSnapshotId(documents) := RowOf(SnapshotsIn(documents)[0])] else snapshots
  }

  /** The index is exactly the replay of all ledgers. */
  predicate IsReplay(index: Index, ledgers: Ledgers) {
    && index.runs.Keys == ledgers.Keys
    && RunsReplayed(index.runs, ledgers)
    && SnapshotsReplayed(index.snapshots, ledgers, ledgers.Keys)
  }

  predicate RunsReplayed(runs: map<RunId, RunProjection>, ledgers: Ledgers) {
    forall q :: q in runs ==>
      q in ledgers && ledgers[q] != [] && ledgers[q][0].body.payload.Creation? && runs[q] == Project(ledgers[q])
  }

  /** `replay_classified_operational_index`: classify everything, then insert Run by Run. */
  method ReplayClassified(ledgers: Ledgers) returns (candidate: Option<Index>)
    ensures candidate.Some? <==> forall q :: q in ledgers ==> Classifiable(ledgers, q)
    ensures candidate.Some? ==> IsReplay(candidate.value, ledgers)
  {
    hide Classifiable, SnapshotsReplayed, InsertSnapshotRow, Project;
    if !forall q | q in ledgers.Keys :: Classifiable(ledgers, q) {
      return None;
    }
    NothingReplayed(ledgers);
    var runs: map<RunId, RunProjection>, snapshots: map<SnapshotId, SnapshotRow> := map[], map[];
    var todo := ledgers.Keys;
    ghost var done: set<RunId> := {};
    while todo != {}
      invariant todo !! done && todo + done == ledgers.Keys
      invariant runs.Keys == done && RunsReplayed(runs, ledgers)
      invariant SnapshotsReplayed(snapshots, ledgers, done)
    {
      var q :| q in todo;
      ClassifiableIsReadable(ledgers, q);
      var projection := InsertRunLedger(ledgers[q]);
      ReplayOneMore(snapshots, ledgers, done, q);
      runs, snapshots := runs[q := projection], InsertSnapshotRow(snapshots, ledgers[q]);
      todo, done := todo - {q}, done + {q};
    }
    assert done == ledgers.Keys;
    candidate := Some(Index(runs, snapshots));
  }

  lemma ClassifiableIsReadable(ledgers: Ledgers, q: RunId)
    requires q in ledgers && Classifiable(ledgers, q)
    ensures ledgers[q] != [] && ledgers[q][0].body.payload.Creation?
    ensures forall i :: 0 <= i < |ledgers[q]| ==> !BrokenTransition(ledgers[q][i])
  {
    LedgerValidFacts(q, ledgers[q]);
  }

  lemma NothingReplayed(ledgers: Ledgers)
    ensures SnapshotsReplayed(map[], ledgers, {})
  {
  }

  lemma ReplayOneMore(snapshots: map<SnapshotId, SnapshotRow>, ledgers: Ledgers, done: set<RunId>, q: RunId)
    requires done <= ledgers.Keys && SnapshotsReplayed(snapshots, ledgers, done) && q in ledgers && q !in done
    requires Classifiable(ledgers, q)
    ensures SnapshotsReplayed(InsertSnapshotRow(snapshots, ledgers[q]), ledgers, done + {q})
  {
    var next := InsertSnapshotRow(snapshots, ledgers[q]);
    if Eligible(ledgers[q]) {
      forall p | p in done && Eligible(ledgers[p]) ensures OwnSnapshotId(ledgers[p]) != OwnSnapshotId(ledgers[q]) {
        assert SnapshotIdOf(SnapshotsIn(ledgers[p])[0]) != OwnSnapshotId(ledgers[q]);
      }
    }
    forall id | id in next
      ensures exists p :: p in done + {q} && Eligible(ledgers[p]) && OwnSnapshotId(ledgers[p]) == id
                          && next[id] == RowOf(SnapshotsIn(ledgers[p])[0])
    {
      if Eligible(ledgers[q]) && id == OwnSnapshotId(ledgers[q]) {
        assert q in done + {q};
      } else {
        var p :| p in done && Eligible(ledgers[p]) && OwnSnapshotId(ledgers[p]) == id
                 && snapshots[id] == RowOf(SnapshotsIn(ledgers[p])[0]);
        assert p in done + {q};
      }
    }
  }

  // ------------------------------------------------------------------ verification of one Snapshot

  datatype Verification = NOT_FOUND | INVALID | INCOMPLETE | VALID

  function Lookup(files: seq<Document>, path: (int, EvidenceType)): Option<Document> {
    if files == [] then None
    else if FileName(files[|files| - 1]) == path then Some(files[|files| - 1])
    else Lookup(files[..|files| - 1], path)
  }

  /** The documents a Run's index records point at, or nothing when one of them does not match. */
  function LoadChain(files: seq<Document>, records: seq<EvidenceRow>): Option<seq<Document>> {
    if records == [] then Some([])
    else
      var last := records[|records| - 1];
      var d := Lookup(files, last.path);
      var rest := LoadChain(files, records[..|records| - 1]);
      if rest.None? || d.None? || d.value.body.sequence != last.sequence then None else Some(rest.value + [d.value])
  }

  /** `_verify_snapshot` on index, Evidence and Run lifecycle (without payload reuse). */
  function VerifySnapshot(ledgers: Ledgers, index: Index, id: SnapshotId): Verification {
    if id !in index.snapshots then NOT_FOUND
    else
      var row := index.snapshots[id];
      var run := row.snapshot.runId;
      var d := if run in ledgers then Lookup(ledgers[run], row.path) else None;
      if d.None? || !d.value.body.payload.Observation? || !d.value.body.payload.snapshot.intrinsic then INVALID
      else if d.value.body.evidenceId != row.evidenceId || d.value.body.runId != run || SnapshotIdOf(d.value) != id then INVALID
      else if run !in index.runs then INVALID
      else
        var p := index.runs[run];
        var chain := if SupportedMetadata(p.row.metadata, p.row.configDigest) then LoadChain(ledgers[run], p.records) else Some([]);
        if chain.None? || !SnapshotRunCompatible(row.snapshot.status, p.row.runKind, p.row.status, chain.value) then INVALID
        else if d.value.body.payload.snapshot == row.snapshot then VALID else INCOMPLETE
  }

  lemma {:induction false} LookupFinds(files: seq<Document>, i: nat)
    requires Chained(files) && i < |files|
    ensures Lookup(files, FileName(files[i])) == Some(files[i])
  {
    var last := |files| - 1;
    if i < last {
      LookupFinds(files[..last], i);
      ChainedAt(files, i);
    }
  }

  lemma LoadOneMore(files: seq<Document>, records: seq<EvidenceRow>, prefix: seq<Document>, d: Document)
    requires LoadChain(files, records) == Some(prefix) && Lookup(files, FileName(d)) == Some(d)
    ensures LoadChain(files, records + [RecordOf(d)]) == Some(prefix + [d])
  {
    hide Lookup;
    assert (records + [RecordOf(d)])[..|records|] == records;
  }

  lemma {:induction false} OwnChainLoads(files: seq<Document>, n: nat)
    requires Chained(files) && n <= |files|
    ensures LoadChain(files, RecordsOf(files[..n])) == Some(files[..n])
  {
    if n > 0 {
      OwnChainLoads(files, n - 1);
      LookupFinds(files, n - 1);
      hide Chained, Lookup, LoadChain;
      assert files[..n][..n - 1] == files[..n - 1] && files[..n] == files[..n - 1] + [files[n - 1]];
      LoadOneMore(files, RecordsOf(files[..n - 1]), files[..n - 1], files[n - 1]);
    }
  }

  // ------------------------------------------------------------------ the repository invariant

  /** `supply` bounds every identity handed out so far: fresh UUIDs are larger. */
  datatype Repo = Repo(ledgers: Ledgers, index: Index, supply: nat)

  /** How many documents of a Run its index row accounts for. */
  function Indexed(index: Index, run: RunId): int {
    if run in index.runs then index.runs[run].row.lastSequence else 0
  }

  predicate CaughtUp(repo: Repo, run: RunId)
    requires run in repo.ledgers
  {
    Indexed(repo.index, run) == |repo.ledgers[run]|
  }

  predicate SnapshotTracked(index: Index, run: RunId, facts: seq<Document>) {
    && (forall id :: id in index.snapshots && index.snapshots[id].snapshot.runId == run ==>
          facts != [] && facts[0].body.payload.Observation? && id == SnapshotIdOf(facts[0]) && index.snapshots[id] == RowOf(facts[0]))
    && (facts != [] ==>
          && facts[0].body.payload.Observation?
          && SnapshotIdOf(facts[0]) in index.snapshots
          && index.snapshots[SnapshotIdOf(facts[0])] == RowOf(facts[0]))
  }

  /** The index of this Run is the replay of the first `n` documents of its ledger. */
  predicate ReplaysPrefix(index: Index, run: RunId, documents: seq<Document>, n: int) {
    && 0 <= n <= |documents|
    && (n == 0 <==> run !in index.runs)
    && (n > 0 ==> documents[0].body.payload.Creation? && index.runs[run] == Project(documents[..n]))
    && SnapshotTracked(index, run, SnapshotsIn(documents[..n]))
  }

  /** What holds of a governed Run at every moment: a protocol ledger, and an index that replays a
      prefix of it that is at most `MaxLag` documents short. */
  ghost predicate RunSound(repo: Repo, run: RunId)
    requires run in repo.ledgers
  {
    var documents := repo.ledgers[run];
    && ProtocolLedger(run, documents)
    && ReplaysPrefix(repo.index, run, documents, Indexed(repo.index, run))
    && |documents| <= Indexed(repo.index, run) + MaxLag(StageOf(documents).value)
    && (SnapshotsIn(documents) != [] ==> Unshared(repo.ledgers, run, OwnSnapshotId(documents)))
  }

  predicate Bounded(documents: seq<Document>, supply: nat) {
    forall i :: 0 <= i < |documents| ==> documents[i].body.evidenceId < supply && SnapshotIdOf(documents[i]) < supply
  }

  ghost predicate Sound(repo: Repo) {
    && (forall q :: q in repo.ledgers ==> Bounded(repo.ledgers[q], repo.supply))
    && (forall id :: id in repo.index.snapshots ==>
          id < repo.supply && repo.index.snapshots[id].snapshot.runId in repo.ledgers)
    && repo.index.runs.Keys <= repo.ledgers.Keys
    && (forall q :: q in repo.ledgers && Governed(repo.ledgers[q]) ==> RunSound(repo, q))
  }

  function StageAt(repo: Repo, run: RunId): Stage
    requires run in repo.ledgers && ProtocolLedger(run, repo.ledgers[run])
  {
    StageOf(repo.ledgers[run]).value
  }

  /** A caught-up governed Run past its observation transition has a VALID Snapshot. */
  lemma CaughtUpVerifies(repo: Repo, run: RunId)
    requires run in repo.ledgers && RunSound(repo, run) && CaughtUp(repo, run)
    requires StageLength(StageAt(repo, run)) >= 4
    ensures VerifySnapshot(repo.ledgers, repo.index, OwnSnapshotId(repo.ledgers[run])) == VALID
  {
    var documents := repo.ledgers[run];
    StageDetermines(documents);
    assert documents[..|documents|] == documents;
    LookupFinds(documents, 2);
    OwnChainLoads(documents, |documents|);
    ProtocolRunIds(run, documents);
    AcceptedExactlyFromTheObservation(run, documents, documents[2].body.payload.snapshot.status);
  }

  lemma {:induction false} ProtocolRunIds(run: RunId, documents: seq<Document>)
    requires Chained(documents) && documents != [] && documents[0].body.runId == run
    ensures forall i :: 0 <= i < |documents| ==> documents[i].body.runId == run
  {
    if |documents| > 1 {
      ProtocolRunIds(run, documents[..|documents| - 1]);
    }
  }

  /** A sound governed Run can be replayed exactly when it does not sit between its Snapshot and
      the transition that closes the observation. */
  lemma GovernedIsClassifiable(repo: Repo, run: RunId)
    requires run in repo.ledgers && RunSound(repo, run)
    ensures Classifiable(repo.ledgers, run) <==> !StageAt(repo, run).AtSnapshot?
    ensures Eligible(repo.ledgers[run]) <==> StageLength(StageAt(repo, run)) >= 4
  {
    var documents := repo.ledgers[run];
    StageDetermines(documents);
    ProtocolLedgerIsValid(run, documents);
    ProtocolRunIds(run, documents);
    if StageSnapshots(StageAt(repo, run)) != [] {
      AcceptedExactlyFromTheObservation(run, documents, documents[2].body.payload.snapshot.status);
    }
  }
}
