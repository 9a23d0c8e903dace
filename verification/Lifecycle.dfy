/** Ledger integrity and the Snapshot/Run lifecycle compatibility rule. */
module Lifecycle {
  import opened Options
  import opened StateMachine
  import opened Evidence

  function ExpectedRunStatus(status: SnapshotStatus): Option<RunStatus> {
    match status
    case COMPLETE_SNAPSHOT => Some(SCANNED)
    case PARTIAL_SNAPSHOT => Some(PARTIAL)
    case FAILED_SNAPSHOT => None
  }

  predicate SupportedMetadata(metadata: Metadata, configDigest: nat) {
    metadata.AcquisitionMetadata? && metadata.bindingDigest == BindingDigest(configDigest, metadata.binding)
  }

  /** `is_supported_acquisition_run`: the first document carries the workflow marker. */
  predicate Governed(documents: seq<Document>) {
    && documents != []
    && var first := documents[0].body;
    && first.evidenceType == RUN_CREATED
    && first.payload.Creation?
    && first.payload.runKind == FilesystemSnapshotRun
    && first.payload.initialStatus == CREATED
    && SupportedMetadata(first.payload.metadata, first.configDigest)
  }

  // ------------------------------------------------------------------ transition pairs

  /** The (from, to) pairs of the transition documents, or nothing at all once one is malformed. */
  function TransitionPairs(documents: seq<Document>): seq<(RunStatus, RunStatus)> {
    if exists i :: 0 <= i < |documents| && BrokenTransition(documents[i]) then [] else PairsOf(documents)
  }

  predicate BrokenTransition(document: Document) {
    document.body.evidenceType == STATE_TRANSITION && !document.body.payload.Transition?
  }

  function PairsOf(documents: seq<Document>): seq<(RunStatus, RunStatus)> {
    if documents == [] then []
    else PairsOf(documents[..|documents| - 1]) + PairOf(documents[|documents| - 1])
  }

  function PairOf(document: Document): seq<(RunStatus, RunStatus)> {
    if document.body.evidenceType == STATE_TRANSITION && document.body.payload.Transition?
    then [(document.body.payload.fromStatus, document.body.payload.toStatus)] else []
  }

  method CollectTransitionPairs(documents: seq<Document>) returns (pairs: seq<(RunStatus, RunStatus)>)
    ensures pairs == TransitionPairs(documents)
  {
    pairs := [];
    for i := 0 to |documents|
      invariant pairs == PairsOf(documents[..i])
      invariant forall j :: 0 <= j < i ==> !BrokenTransition(documents[j])
    {
      var document := documents[i];
      assert documents[..i + 1][..i] == documents[..i];
      if document.body.evidenceType != STATE_TRANSITION {
        continue;
      }
      if !document.body.payload.Transition? {
        assert BrokenTransition(documents[i]);
        return [];
      }
      pairs := pairs + [(document.body.payload.fromStatus, document.body.payload.toStatus)];
    }
    assert documents[..|documents|] == documents;
  }

  // ------------------------------------------------------------------ ledger integrity

  function LastDigest(documents: seq<Document>): Option<Digest> {
    if documents == [] then None else Some(documents[|documents| - 1].evidenceDigest)
  }

  /** What one more document must satisfy to continue a ledger. */
  predicate Links(prefix: seq<Document>, document: Document) {
    && document.body.sequence == |prefix| + 1
    && document.body.previous == LastDigest(prefix)
    && document.evidenceDigest == Sha256(document.body)
    && (prefix != [] ==>
          document.body.runId == prefix[0].body.runId && document.body.configDigest == prefix[0].body.configDigest)
    && forall i :: 0 <= i < |prefix| ==>
         prefix[i].body.evidenceId != document.body.evidenceId && prefix[i].evidenceDigest != document.evidenceDigest
  }

  predicate Chained(documents: seq<Document>) {
    documents == []
    || (Chained(documents[..|documents| - 1]) && Links(documents[..|documents| - 1], documents[|documents| - 1]))
  }

  predicate LedgerIntegrity(documents: seq<Document>) {
    documents != [] && Chained(documents)
  }

  lemma {:induction false} ChainedPrefix(documents: seq<Document>, n: nat)
    requires Chained(documents) && n <= |documents|
    ensures Chained(documents[..n])
  {
    if n == |documents| {
      assert documents[..n] == documents;
    } else {
      ChainedPrefix(documents[..|documents| - 1], n);
      assert documents[..|documents| - 1][..n] == documents[..n];
    }
  }

  lemma ChainedAt(documents: seq<Document>, i: nat)
    requires Chained(documents) && i < |documents|
    ensures Links(documents[..i], documents[i])
  {
    ChainedPrefix(documents, i + 1);
    assert documents[..i + 1][..i] == documents[..i];
  }

  /** `_supported_ledger_integrity`, with the two accumulating sets of the source. */
  method SupportedLedgerIntegrity(documents: seq<Document>) returns (valid: bool)
    ensures valid <==> LedgerIntegrity(documents)
  {
    if documents == [] {
      return false;
    }
    var runId, configDigest := documents[0].body.runId, documents[0].body.configDigest;
    var previous: Option<Digest> := None;
    var ids: set<nat>, digests: set<Digest> := {}, {};
    for i := 0 to |documents|
      invariant Chained(documents[..i])
      invariant previous == LastDigest(documents[..i])
      invariant forall id :: id in ids <==> exists j :: 0 <= j < i && documents[j].body.evidenceId == id
      invariant forall d :: d in digests <==> exists j :: 0 <= j < i && documents[j].evidenceDigest == d
    {
      var document := documents[i];
      if document.body.runId != runId || document.body.configDigest != configDigest
         || document.body.sequence != i + 1 || document.body.previous != previous
         || document.body.evidenceId in ids || document.evidenceDigest in digests
         || Sha256(document.body) != document.evidenceDigest {
        if Chained(documents) {
          ChainedAt(documents, i);
        }
        return false;
      }
      assert documents[..i + 1][..i] == documents[..i];
      ids, digests := ids + {document.body.evidenceId}, digests + {document.evidenceDigest};
      previous := Some(document.evidenceDigest);
    }
    assert documents[..|documents|] == documents;
    valid := true;
  }

  /** Equal last digests force equal histories: the last digest fixes every document. */
  lemma {:induction false} LastDigestFixesHistory(a: seq<Document>, b: seq<Document>)
    requires LedgerIntegrity(a) && LedgerIntegrity(b)
    requires LastDigest(a) == LastDigest(b)
    ensures a == b
  {
    var m, n := |a| - 1, |b| - 1;
    assert a[m].body == b[n].body;
    assert m == n;
    if m > 0 {
      LastDigestFixesHistory(a[..m], b[..n]);
      assert a == a[..m] + [a[m]] && b == b[..n] + [b[n]];
    }
  }

  // ------------------------------------------------------------------ Snapshot/Run compatibility

  function SnapshotsIn(documents: seq<Document>): seq<Document> {
    if documents == [] then []
    else SnapshotsIn(documents[..|documents| - 1])
         + (if documents[|documents| - 1].body.evidenceType == FILESYSTEM_SNAPSHOT then [documents[|documents| - 1]] else [])
  }

  /** `snapshot_run_compatible`, branch by branch. */
  predicate SnapshotRunCompatible(status: SnapshotStatus, runKind: RunKind, final: RunStatus, documents: seq<Document>) {
    var expected := ExpectedRunStatus(status);
    if runKind != FilesystemSnapshotRun || expected.None? then false
    else if final == expected.value then
      if !Governed(documents) then true
      else LedgerIntegrity(documents)
           && TransitionPairs(documents) == [(CREATED, SCANNING), (SCANNING, expected.value)]
    else if final !in {VERIFYING, VERIFIED} then false
    else if !Governed(documents) then false
    else if !LedgerIntegrity(documents) then false
    else if |SnapshotsIn(documents)| != 1 then false
    else
      var required := [(CREATED, SCANNING), (SCANNING, expected.value), (expected.value, VERIFYING)];
      if final == VERIFYING then TransitionPairs(documents) == required
      else TransitionPairs(documents) == required + [(VERIFYING, VERIFIED)]
  }

  /** The one path a governed Run may take when its Snapshot has the given observation status. */
  function CanonicalPath(expected: RunStatus): seq<(RunStatus, RunStatus)> {
    [(CREATED, SCANNING), (SCANNING, expected), (expected, VERIFYING), (VERIFYING, VERIFIED)]
  }

  /** `pairs` is the canonical path cut where it reaches `final`, not before the observation. */
  predicate CanonicalCut(expected: RunStatus, final: RunStatus, pairs: seq<(RunStatus, RunStatus)>) {
    2 <= |pairs| && pairs <= CanonicalPath(expected) && WalkEnd(CREATED, pairs) == final
  }

  /** Governed Runs are accepted exactly on the canonical path cut at the final status, and beyond
      the observation only with exactly one Snapshot document. */
  lemma GovernedAcceptsExactlyTheCanonicalPath(status: SnapshotStatus, runKind: RunKind, final: RunStatus, documents: seq<Document>)
    requires Governed(documents)
    ensures SnapshotRunCompatible(status, runKind, final, documents) <==>
            (&& runKind == FilesystemSnapshotRun && status != FAILED_SNAPSHOT && LedgerIntegrity(documents)
             && CanonicalCut(ExpectedRunStatus(status).value, final, TransitionPairs(documents))
             && (final in {VERIFYING, VERIFIED} ==> |SnapshotsIn(documents)| == 1))
  {
    if status != FAILED_SNAPSHOT {
      var e := ExpectedRunStatus(status).value;
      var pairs := TransitionPairs(documents);
      var path := CanonicalPath(e);
      if 2 <= |pairs| && pairs <= path {
        assert pairs == path[..|pairs|];
        assert path[..2] == [path[0], path[1]] && path[..3] == [path[0], path[1], path[2]];
        assert path[..4] == path == [path[0], path[1], path[2]] + [path[3]];
      }
    }
  }

  /** Whatever is accepted for a governed Run is a legal walk from CREATED to the final status. */
  lemma AcceptedGovernedIsALegalWalk(status: SnapshotStatus, runKind: RunKind, final: RunStatus, documents: seq<Document>)
    requires Governed(documents)
    requires SnapshotRunCompatible(status, runKind, final, documents)
    ensures LegalWalk(CREATED, TransitionPairs(documents))
    ensures WalkEnd(CREATED, TransitionPairs(documents)) == final
  {
    GovernedAcceptsExactlyTheCanonicalPath(status, runKind, final, documents);
    var e := ExpectedRunStatus(status).value;
    var pairs := TransitionPairs(documents);
    var one := [(CREATED, SCANNING)];
    LegalWalkExtends(CREATED, one, e);
    var two := one + [(SCANNING, e)];
    LegalWalkExtends(CREATED, two, VERIFYING);
    var three := two + [(e, VERIFYING)];
    LegalWalkExtends(CREATED, three, VERIFIED);
    assert pairs == CanonicalPath(e)[..|pairs|];
    assert pairs == two || pairs == three || pairs == three + [(VERIFYING, VERIFIED)];
  }
}
