/**
 Evidence documents and their digests. SHA-256 over canonical JSON is symbolic: the digest of a
 body is a value that determines the body, and `Foreign` stands for any other text that a stored
 `evidence_digest` field may hold.
 */
module Evidence {
  import opened Options
  import opened StateMachine

  type RunId = nat
  type SnapshotId = nat

  datatype SnapshotStatus = COMPLETE_SNAPSHOT | PARTIAL_SNAPSHOT | FAILED_SNAPSHOT

  /** A persisted Snapshot fact. `content` is everything the lifecycle never inspects;
      `intrinsic` is the verdict of the schema and digest validator on the document. */
  datatype Snapshot = Snapshot(snapshotId: SnapshotId, runId: RunId, status: SnapshotStatus, content: nat, intrinsic: bool)

  datatype ScopeBinding = ScopeBinding(scopeId: nat, role: nat, deviceId: nat, inode: nat)

  /** `scope_binding_digest`: binds one scope identity to one configuration digest. */
  datatype BindingDigest = BindingDigest(configDigest: nat, binding: ScopeBinding)

  datatype Metadata =
    | AcquisitionMetadata(binding: ScopeBinding, bindingDigest: BindingDigest)
    | OtherMetadata(tag: nat)

  datatype RunKind = FilesystemSnapshotRun | OtherRun(name: nat)

  datatype EvidenceType = RUN_CREATED | STATE_TRANSITION | FILESYSTEM_SNAPSHOT | SNAPSHOT_DIFF

  /** The reason texts that acquisition, cancellation and recovery give for a transition. */
  datatype Reason =
    | SCAN_STARTED // supported Snapshot acquisition started
    | OBSERVATION_PERSISTED // supported Snapshot observation persisted
    | VERIFICATION_STARTED // supported Snapshot verification started
    | VERIFICATION_PASSED // supported Snapshot verification passed
    | CLOSED_BEFORE_SCANNING // recovery closed acquisition before scanning
    | CLOSED_WITHOUT_SNAPSHOT // recovery closed acquisition with no durable Snapshot
    | CLOSED_DURABLE_OBSERVATION // recovery closed durable Snapshot observation
    | RECOVERY_VERIFICATION_STARTED // recovery verification started
    | RECOVERY_VERIFICATION_PASSED // recovery verification passed
    | OPERATOR_CANCELLED // operator cancelled before durable Snapshot publication
    | OTHER_REASON(text: string)

  datatype Payload =
    | Creation(runKind: RunKind, initialStatus: RunStatus, metadata: Metadata)
    | Transition(fromStatus: RunStatus, toStatus: RunStatus, reason: Reason)
    | Observation(snapshot: Snapshot)
    | Malformed

  datatype Body = Body(
    evidenceId: nat, evidenceType: EvidenceType, runId: RunId, sequence: int, createdAt: nat,
    configDigest: nat, previous: Option<Digest>, schemaVersion: nat, payload: Payload)

  datatype Digest = Sha256(body: Body) | Foreign(text: nat)

  datatype Document = Document(body: Body, evidenceDigest: Digest)

  /** A document as `_evidence` seals it: its digest field is the digest of the rest. */
  function Seal(body: Body): Document {
    Document(body, Sha256(body))
  }

  /** `filename`: the sequence number, then the evidence type. */
  function FileName(document: Document): (int, EvidenceType) {
    (document.body.sequence, document.body.evidenceType)
  }

  predicate Conflicts(files: seq<Document>, document: Document) {
    exists i :: 0 <= i < |files| && FileName(files[i]) == FileName(document)
  }

  /** The directory listing in file-name order after one more file appears in it. */
  function Placed(files: seq<Document>, document: Document): seq<Document> {
    if files == [] || files[|files| - 1].body.sequence <= document.body.sequence then files + [document]
    else Placed(files[..|files| - 1], document) + [files[|files| - 1]]
  }

  /** `write_evidence`: a new file, or a conflict; an existing file is never changed. */
  function WriteEvidence(files: seq<Document>, document: Document): Option<seq<Document>> {
    if Conflicts(files, document) || document.evidenceDigest != Sha256(document.body) then None
    else Some(Placed(files, document))
  }

  lemma {:induction false} PlacedOnce(files: seq<Document>, document: Document)
    ensures multiset(Placed(files, document)) == multiset(files) + multiset{document}
  {
    if files == [] || files[|files| - 1].body.sequence <= document.body.sequence {
    } else {
      var last := |files| - 1;
      PlacedOnce(files[..last], document);
      assert files == files[..last] + [files[last]];
    }
  }

  /** A write is refused exactly for a name that is taken or a document that is not sealed; otherwise it
      adds this one file, and no earlier file is dropped, altered or shadowed, wherever the new one lands
      in the listing. */
  lemma WriteKeepsEveryFile(files: seq<Document>, document: Document)
    ensures WriteEvidence(files, document).None? <==>
              (exists f :: f in files && FileName(f) == FileName(document)) || document.evidenceDigest != Sha256(document.body)
    ensures WriteEvidence(files, document).Some? ==>
              var written := WriteEvidence(files, document).value;
              && multiset(written) == multiset(files) + multiset{document}
              && (forall f :: f in files ==> f in written && FileName(f) != FileName(document))
              && (forall f :: f in written ==> f in files || f == document)
  {
    PlacedOnce(files, document);
    var written := Placed(files, document);
    forall f ensures f in written <==> f in files || f == document {
      assert f in written <==> f in multiset(written);
      assert f in files <==> f in multiset(files);
    }
  }
}
