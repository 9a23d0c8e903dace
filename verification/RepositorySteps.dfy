/** Every durable step of the protocol keeps the repository invariant. */
module RepositorySteps {
  import opened Options
  import opened StateMachine
  import opened Evidence
  import opened Lifecycle
  import opened RunIndex
  import opened AcquisitionLedger
  import opened OperationalReplay

  /** All Runs but `run` keep their ledgers, and stay caught up if they were. */
  ghost predicate OnlyTouches(before: Repo, after: Repo, run: RunId) {
    && (forall q :: q in before.ledgers ==> q in after.ledgers)
    && (forall q :: q in after.ledgers && q != run ==>
          && q in before.ledgers && after.ledgers[q] == before.ledgers[q]
          && (Governed(after.ledgers[q]) && CaughtUp(before, q) ==> CaughtUp(after, q)))
    && before.supply <= after.supply
  }

  /** The index holds the same rows for every Run but `run`. */
  ghost predicate SameElsewhere(before: Index, after: Index, run: RunId) {
    && (forall q :: q != run ==>
          (q in after.runs <==> q in before.runs) && (q in before.runs ==> after.runs[q] == before.runs[q]))
    && (forall id :: id in before.snapshots && before.snapshots[id].snapshot.runId != run ==>
          id in after.snapshots && after.snapshots[id] == before.snapshots[id])
    && (forall id :: id in after.snapshots && after.snapshots[id].snapshot.runId != run ==>
          id in before.snapshots && before.snapshots[id] == after.snapshots[id])
  }

  /** A replay of the ledgers stores this Snapshot row for a Run other than `run`. */
  ghost predicate RowElsewhere(ledgers: Ledgers, run: RunId, id: SnapshotId, row: SnapshotRow) {
    && row.snapshot.runId != run
    && exists q :: q in ledgers && q != run && Eligible(ledgers[q]) && OwnSnapshotId(ledgers[q]) == id
                   && row == RowOf(SnapshotsIn(ledgers[q])[0])
  }

  /** For every Run but `run` the index holds exactly what a replay of its ledger yields. */
  ghost predicate ReplayedElsewhere(index: Index, ledgers: Ledgers, run: RunId) {
    && (forall q :: q != run ==>
          && (q in index.runs <==> q in ledgers)
          && (q in ledgers ==> ledgers[q] != [] && ledgers[q][0].body.payload.Creation? && index.runs[q] == Project(ledgers[q])))
    && (forall id, row :: RowElsewhere(ledgers, run, id, row) <==>
                            id in index.snapshots && index.snapshots[id] == row && row.snapshot.runId != run)
  }

  /** Other Runs keep their rows, or all have them replayed from their own ledgers. */
  ghost predicate OthersIndexed(before: Repo, after: Repo, run: RunId) {
    SameElsewhere(before.index, after.index, run) || ReplayedElsewhere(after.index, after.ledgers, run)
  }

  lemma {:induction false} SnapshotsAreMembers(documents: seq<Document>)
    ensures forall i :: 0 <= i < |SnapshotsIn(documents)| ==> SnapshotsIn(documents)[i] in documents
  {
    if documents != [] {
      var prefix := documents[..|documents| - 1];
      SnapshotsAreMembers(prefix);
      assert forall d :: d in prefix ==> d in documents;
    }
  }

  lemma BoundedSnapshots(repo: Repo, run: RunId)
    requires Sound(repo) && run in repo.ledgers
    ensures forall i :: 0 <= i < |SnapshotsIn(repo.ledgers[run])| ==> SnapshotIdOf(SnapshotsIn(repo.ledgers[run])[i]) < repo.supply
  {
    SnapshotsAreMembers(repo.ledgers[run]);
  }

  /** A Snapshot identity that was never handed out belongs to no other Run. */
  lemma FreshIsUnshared(repo: Repo, run: RunId, id: SnapshotId)
    requires Sound(repo) && id >= repo.supply
    ensures Unshared(repo.ledgers, run, id)
  {
    forall q | q in repo.ledgers && q != run
      ensures forall i :: 0 <= i < |SnapshotsIn(repo.ledgers[q])| ==> SnapshotIdOf(SnapshotsIn(repo.ledgers[q])[i]) != id
    {
      BoundedSnapshots(repo, q);
    }
  }

  function Published(repo: Repo, run: RunId, d: Document, supply: nat): Repo
    requires run in repo.ledgers
  {
    Repo(repo.ledgers[run := repo.ledgers[run] + [d]], repo.index, supply)
  }

  /** Other Runs do not notice a document published for `run`. */
  lemma PublishKeepsOthers(repo: Repo, run: RunId, d: Document, supply: nat, q: RunId)
    requires Sound(repo) && run in repo.ledgers && RunSound(repo, run) && repo.supply <= supply
    requires q in repo.ledgers && q != run && RunSound(repo, q)
    requires d.body.evidenceType == FILESYSTEM_SNAPSHOT ==> SnapshotIdOf(d) >= repo.supply
    ensures RunSound(Published(repo, run, d, supply), q)
  {
    var documents := repo.ledgers[run];
    assert (documents + [d])[..|documents|] == documents;
    BoundedSnapshots(repo, q);
    var next := Published(repo, run, d, supply);
    if SnapshotsIn(repo.ledgers[q]) != [] {
      assert SnapshotsIn(repo.ledgers[q])[0] == SnapshotsIn(next.ledgers[q])[0];
    }
  }

  ghost predicate MayPublish(repo: Repo, run: RunId, d: Document, supply: nat) {
    && Sound(repo) && run in repo.ledgers && RunSound(repo, run)
    && Links(repo.ledgers[run], d) && Next(StageAt(repo, run), d).Some?
    && |repo.ledgers[run]| + 1 <= Indexed(repo.index, run) + MaxLag(Next(StageAt(repo, run), d).value)
    && repo.supply <= supply && d.body.evidenceId < supply && SnapshotIdOf(d) < supply
    && (d.body.evidenceType == FILESYSTEM_SNAPSHOT ==> SnapshotIdOf(d) >= repo.supply)
  }

  lemma PublishKeepsOwn(repo: Repo, run: RunId, d: Document, supply: nat)
    requires MayPublish(repo, run, d, supply)
    ensures RunSound(Published(repo, run, d, supply), run)
    ensures StageAt(Published(repo, run, d, supply), run) == Next(StageAt(repo, run), d).value
  {
    var documents, next := repo.ledgers[run], Published(repo, run, d, supply);
    var n := Indexed(repo.index, run);
    ProtocolExtends(run, documents, d);
    StageDetermines(documents);
    assert (documents + [d])[..n] == documents[..n];
    FoldsOfOneMore(documents, d);
    var id := OwnSnapshotId(documents + [d]);
    if d.body.evidenceType == FILESYSTEM_SNAPSHOT {
      FreshIsUnshared(repo, run, SnapshotIdOf(d));
      assert SnapshotsIn(documents + [d]) == [d];
    }
    if SnapshotsIn(documents + [d]) != [] {
      forall q, i | q in next.ledgers && q != run && 0 <= i < |SnapshotsIn(next.ledgers[q])|
        ensures SnapshotIdOf(SnapshotsIn(next.ledgers[q])[i]) != id
      {
        assert SnapshotIdOf(SnapshotsIn(repo.ledgers[q])[i]) != id;
      }
    }
  }

  /** Publishing the next protocol document of a Run keeps the invariant of every Run. */
  lemma PublishKeepsSound(repo: Repo, run: RunId, d: Document, supply: nat)
    requires MayPublish(repo, run, d, supply)
    ensures Sound(Published(repo, run, d, supply))
    ensures RunSound(Published(repo, run, d, supply), run)
    ensures StageAt(Published(repo, run, d, supply), run) == Next(StageAt(repo, run), d).value
    ensures OnlyTouches(repo, Published(repo, run, d, supply), run)
  {
    hide Chained, ReplaysPrefix, Unshared, StageSound;
    var next := Published(repo, run, d, supply);
    PublishKeepsOwn(repo, run, d, supply);
    forall q | q in next.ledgers && Governed(next.ledgers[q]) ensures RunSound(next, q) {
      if q != run {
        PublishKeepsOthers(repo, run, d, supply, q);
      }
    }
    forall q | q in next.ledgers ensures Bounded(next.ledgers[q], supply) {
      assert Bounded(repo.ledgers[q], repo.supply);
    }
  }

  /** A new governed Run: its first document is durable, the index does not know it yet. */
  lemma CreateKeepsSound(repo: Repo, run: RunId, d: Document)
    requires Sound(repo) && run !in repo.ledgers
    requires Links([], d) && d.body.runId == run && d.body.schemaVersion == 1 && Governed([d]) && d.body.evidenceId == repo.supply
    ensures var next := Repo(repo.ledgers[run := [d]], repo.index, repo.supply + 1);
            Sound(next) && RunSound(next, run) && StageAt(next, run) == AtCreated && OnlyTouches(repo, next, run)
  {
    var next := Repo(repo.ledgers[run := [d]], repo.index, repo.supply + 1);
    assert [d][..0] == [];
    assert SnapshotsIn([d]) == SnapshotsIn([d][..0]);
    var only := [d];
    assert only[..|only| - 1] == [] && Links(only[..|only| - 1], only[|only| - 1]);
    assert Chained(only);
    assert StageOf(only) == Some(AtCreated);
    assert next.ledgers[run] == [d] && RunSound(next, run);
    forall q | q in next.ledgers && Governed(next.ledgers[q]) ensures RunSound(next, q) {
      if q != run {
        assert RunSound(repo, q);
        var id := OwnSnapshotId(repo.ledgers[q]);
        forall p, i | p in next.ledgers && p != q && 0 <= i < |SnapshotsIn(next.ledgers[p])| && SnapshotsIn(repo.ledgers[q]) != []
          ensures SnapshotIdOf(SnapshotsIn(next.ledgers[p])[i]) != id
        {
          assert SnapshotIdOf(SnapshotsIn(repo.ledgers[p])[i]) != id;
        }
      }
    }
  }

  /** The index after committing the rows for the last document of a Run. */
  function Committed(index: Index, run: RunId, documents: seq<Document>): Index {
    if documents == [] || !documents[0].body.payload.Creation? then index
    else
      var last := documents[|documents| - 1];
      Index(index.runs[run := Project(documents)],
            if last.body.evidenceType == FILESYSTEM_SNAPSHOT && last.body.payload.Observation?
            then index.snapshots[SnapshotIdOf(last) := RowOf(last)] else index.snapshots)
  }

  lemma {:induction false} SnapshotsOfPrefix(documents: seq<Document>, n: nat)
    requires n <= |documents|
    ensures SnapshotsIn(documents[..n]) <= SnapshotsIn(documents)
  {
    if n == |documents| {
      assert documents[..n] == documents;
    } else {
      SnapshotsOfPrefix(documents[..|documents| - 1], n);
      assert documents[..|documents| - 1][..n] == documents[..n];
    }
  }

  lemma CommitKeepsOthers(repo: Repo, run: RunId, q: RunId)
    requires Sound(repo) && run in repo.ledgers && RunSound(repo, run)
    requires q in repo.ledgers && q != run && RunSound(repo, q)
    ensures RunSound(repo.(index := Committed(repo.index, run, repo.ledgers[run])), q)
  {
    var documents, index := repo.ledgers[run], Committed(repo.index, run, repo.ledgers[run]);
    var n := Indexed(repo.index, q);
    StageDetermines(documents);
    ProtocolRunIds(run, documents);
    SnapshotsOfPrefix(repo.ledgers[q], n);
    var facts := SnapshotsIn(repo.ledgers[q][..n]);
    if facts != [] && SnapshotsIn(documents) != [] {
      assert SnapshotIdOf(SnapshotsIn(repo.ledgers[q])[0]) != OwnSnapshotId(documents);
    }
    assert SnapshotTracked(repo.index, q, facts);
    assert SnapshotTracked(index, q, facts);
  }

  lemma CommitKeepsOwn(repo: Repo, run: RunId)
    requires Sound(repo) && run in repo.ledgers && RunSound(repo, run)
    requires Indexed(repo.index, run) == |repo.ledgers[run]| - 1
    ensures var next := repo.(index := Committed(repo.index, run, repo.ledgers[run]));
            RunSound(next, run) && CaughtUp(next, run)
  {
    var documents := repo.ledgers[run];
    var last := |documents| - 1;
    StageDetermines(documents);
    ProtocolRunIds(run, documents);
    assert documents[..|documents|] == documents;
    assert SnapshotsIn(documents)
        == SnapshotsIn(documents[..last]) + (if documents[last].body.evidenceType == FILESYSTEM_SNAPSHOT then [documents[last]] else []);
    assert SnapshotTracked(Committed(repo.index, run, documents), run, SnapshotsIn(documents));
  }

  /** Committing the last published document of a Run catches its index up. */
  lemma CommitKeepsSound(repo: Repo, run: RunId)
    requires Sound(repo) && run in repo.ledgers && RunSound(repo, run)
    requires Indexed(repo.index, run) == |repo.ledgers[run]| - 1
    ensures var next := repo.(index := Committed(repo.index, run, repo.ledgers[run]));
            Sound(next) && RunSound(next, run) && CaughtUp(next, run) && OnlyTouches(repo, next, run)
  {
    var documents := repo.ledgers[run];
    var next := repo.(index := Committed(repo.index, run, documents));
    CommitKeepsOwn(repo, run);
    StageDetermines(documents);
    ProtocolRunIds(run, documents);
    forall q | q in next.ledgers && Governed(next.ledgers[q]) ensures RunSound(next, q) {
      if q != run {
        CommitKeepsOthers(repo, run, q);
      }
    }
    forall id | id in next.index.snapshots
      ensures id < next.supply && next.index.snapshots[id].snapshot.runId in next.ledgers
    {
      assert id in repo.index.snapshots || id == SnapshotIdOf(documents[|documents| - 1]);
    }
  }

  /** A governed Run that can be classified has an eligible Snapshot as soon as it has one at all. */
  lemma SnapshotIsEligible(repo: Repo, q: RunId)
    requires q in repo.ledgers && RunSound(repo, q) && Classifiable(repo.ledgers, q)
    ensures SnapshotsIn(repo.ledgers[q]) != [] ==> Eligible(repo.ledgers[q])
  {
    GovernedIsClassifiable(repo, q);
    StageDetermines(repo.ledgers[q]);
  }

  lemma ReplayedIsTracked(repo: Repo, index: Index, q: RunId)
    requires IsReplay(index, repo.ledgers) && q in repo.ledgers && RunSound(repo, q)
    requires forall p :: p in repo.ledgers ==> Classifiable(repo.ledgers, p)
    ensures SnapshotTracked(index, q, SnapshotsIn(repo.ledgers[q]))
  {
    var facts := SnapshotsIn(repo.ledgers[q]);
    assert Classifiable(repo.ledgers, q);
    SnapshotIsEligible(repo, q);
    forall id | id in index.snapshots && index.snapshots[id].snapshot.runId == q
      ensures facts != [] && facts[0].body.payload.Observation? && id == SnapshotIdOf(facts[0]) && index.snapshots[id] == RowOf(facts[0])
    {
      ReplayedSnapshotIsOwn(repo.ledgers, index, q, id);
    }
    hide StageOf, LedgerValid, SnapshotRunCompatible, ReplaysPrefix, Chained, ProtocolLedger, StatusOf;
    assert facts != [] ==> Eligible(repo.ledgers[q]) && OwnSnapshotId(repo.ledgers[q]) in index.snapshots;
  }

  lemma ReplayedRunIsSound(repo: Repo, index: Index, q: RunId)
    requires Sound(repo) && IsReplay(index, repo.ledgers)
    requires forall p :: p in repo.ledgers ==> Classifiable(repo.ledgers, p)
    requires q in repo.ledgers && Governed(repo.ledgers[q])
    ensures RunSound(repo.(index := index), q) && CaughtUp(repo.(index := index), q)
  {
    var documents := repo.ledgers[q];
    assert RunSound(repo, q);
    assert documents[..|documents|] == documents;
    ReplayedIsTracked(repo, index, q);
    assert q in index.runs && documents != [] && documents[0].body.payload.Creation? && index.runs[q] == Project(documents);
    hide StageOf, Classifiable, SnapshotsReplayed, SnapshotTracked, Unshared, Chained;
  }

  /** A Snapshot row of a replayed index is that of the Run it names. */
  lemma ReplayedSnapshotIsOwn(ledgers: Ledgers, index: Index, q: RunId, id: SnapshotId)
    requires IsReplay(index, ledgers) && q in ledgers && id in index.snapshots && index.snapshots[id].snapshot.runId == q
    requires forall p :: p in ledgers ==> Classifiable(ledgers, p)
    ensures SnapshotsIn(ledgers[q]) != [] && id == OwnSnapshotId(ledgers[q])
    ensures SnapshotsIn(ledgers[q])[0].body.payload.Observation? && index.snapshots[id] == RowOf(SnapshotsIn(ledgers[q])[0])
  {
    var p :| p in ledgers.Keys && Eligible(ledgers[p]) && OwnSnapshotId(ledgers[p]) == id
             && index.snapshots[id] == RowOf(SnapshotsIn(ledgers[p])[0]);
    assert Classifiable(ledgers, p);
    hide SnapshotRunCompatible, WellLinked;
    ValidRunIds(p, ledgers[p]);
    SnapshotsAreMembers(ledgers[p]);
    assert SnapshotsIn(ledgers[p])[0].body.runId == p;
  }

  lemma {:induction false} ValidRunIds(run: RunId, documents: seq<Document>)
    requires WellLinked(run, documents)
    ensures forall i :: 0 <= i < |documents| ==> documents[i].body.runId == run
  {
    if documents != [] {
      ValidRunIds(run, documents[..|documents| - 1]);
    }
  }

  /** Installing a replay of all ledgers keeps the invariant and catches up every governed Run. */
  lemma ReplayKeepsSound(repo: Repo, index: Index, run: RunId)
    requires Sound(repo) && IsReplay(index, repo.ledgers)
    requires forall p :: p in repo.ledgers ==> Classifiable(repo.ledgers, p)
    ensures Sound(repo.(index := index))
    ensures forall q :: q in repo.ledgers && Governed(repo.ledgers[q]) ==> CaughtUp(repo.(index := index), q)
    ensures OnlyTouches(repo, repo.(index := index), run)
  {
    forall q | q in repo.ledgers && Governed(repo.ledgers[q])
      ensures RunSound(repo.(index := index), q) && CaughtUp(repo.(index := index), q)
    {
      ReplayedRunIsSound(repo, index, q);
    }
    forall id | id in index.snapshots
      ensures id < repo.supply && index.snapshots[id].snapshot.runId in repo.ledgers
    {
      var p :| p in repo.ledgers.Keys && Eligible(repo.ledgers[p]) && OwnSnapshotId(repo.ledgers[p]) == id
               && index.snapshots[id] == RowOf(SnapshotsIn(repo.ledgers[p])[0]);
      assert Classifiable(repo.ledgers, p);
      BoundedSnapshots(repo, p);
      ValidRunIds(p, repo.ledgers[p]);
      SnapshotsAreMembers(repo.ledgers[p]);
    }
  }

  /** A transition published for one Run never changes how any other Run is classified. */
  lemma ClassificationIsLocal(before: Ledgers, after: Ledgers, run: RunId, q: RunId)
    requires run in before && after.Keys == before.Keys && q in before && q != run
    requires forall p :: p in before && p != run ==> after[p] == before[p]
    requires SnapshotsIn(after[run]) == SnapshotsIn(before[run])
    ensures Classifiable(after, q) <==> Classifiable(before, q)
  {
    assert forall p :: p in before ==> SnapshotsIn(after[p]) == SnapshotsIn(before[p]);
    var id := OwnSnapshotId(before[q]);
    if Unshared(before, q, id) {
      forall p, i | p in after && p != q && 0 <= i < |SnapshotsIn(after[p])| ensures SnapshotIdOf(SnapshotsIn(after[p])[i]) != id {
        assert SnapshotIdOf(SnapshotsIn(before[p])[i]) != id;
      }
    }
    if Unshared(after, q, id) {
      forall p, i | p in before && p != q && 0 <= i < |SnapshotsIn(before[p])| ensures SnapshotIdOf(SnapshotsIn(before[p])[i]) != id {
        assert SnapshotIdOf(SnapshotsIn(after[p])[i]) != id;
      }
    }
  }

  // ------------------------------------------------------------------ the rows of other Runs

  lemma OthersIndexedComposes(a: Repo, b: Repo, c: Repo, run: RunId)
    requires OthersIndexed(a, b, run) && OthersIndexed(b, c, run) && OnlyTouches(b, c, run)
    ensures OthersIndexed(a, c, run)
  {
    if SameElsewhere(b.index, c.index, run) && ReplayedElsewhere(b.index, b.ledgers, run) {
      assert forall q :: q != run ==> (q in b.ledgers <==> q in c.ledgers) && (q in b.ledgers ==> b.ledgers[q] == c.ledgers[q]);
      hide Eligible, Project, SnapshotsIn;
      forall id, row ensures RowElsewhere(b.ledgers, run, id, row) <==> RowElsewhere(c.ledgers, run, id, row) {
      }
    }
  }

  /** A replay of all ledgers holds exactly the rows of the other Runs' eligible Snapshots. */
  lemma ReplayIsReplayedElsewhere(index: Index, ledgers: Ledgers, run: RunId)
    requires IsReplay(index, ledgers) && forall p :: p in ledgers ==> Classifiable(ledgers, p)
    ensures ReplayedElsewhere(index, ledgers, run)
  {
    forall id, row
      ensures RowElsewhere(ledgers, run, id, row) <==> id in index.snapshots && index.snapshots[id] == row && row.snapshot.runId != run
    {
      if id in index.snapshots && index.snapshots[id] == row && row.snapshot.runId != run {
        var p :| p in ledgers.Keys && Eligible(ledgers[p]) && OwnSnapshotId(ledgers[p]) == id && row == RowOf(SnapshotsIn(ledgers[p])[0]);
        assert Classifiable(ledgers, p);
        hide SnapshotRunCompatible, WellLinked;
        ValidRunIds(p, ledgers[p]);
        SnapshotsAreMembers(ledgers[p]);
        assert SnapshotsIn(ledgers[p])[0].body.runId == p;
      }
    }
  }
}
