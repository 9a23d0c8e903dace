/** Snapshot entries and the payload facts a version 2 entry carries. */
module SnapshotEntries {
  import opened Options

  datatype ObjectType =
    | REGULAR_FILE | DIRECTORY | SYMLINK | FIFO | SOCKET | CHARACTER_DEVICE | BLOCK_DEVICE | UNKNOWN_OBJECT

  datatype ObservationStatus = OBSERVED | PERMISSION_DENIED | NOT_FOUND | IO_ERROR

  datatype PayloadStatus =
    | HASHED | EMPTY_FILE_HASHED | NOT_REGULAR_FILE | NOT_LOCAL | PAYLOAD_PERMISSION_DENIED | FILE_TOO_LARGE
    | TOTAL_BYTE_BUDGET_EXHAUSTED | TIME_BUDGET_EXHAUSTED | CHANGED_DURING_READ | NOT_FOUND_DURING_READ
    | PAYLOAD_IO_ERROR | UNSUPPORTED

  datatype Provenance = DIRECT_READ | REUSED_FROM_VERIFIED_SNAPSHOT

  datatype PayloadObservation = PayloadObservation(
    status: PayloadStatus, algorithm: Option<string>, algorithmVersion: Option<nat>, digest: Option<string>,
    bytesHashed: Option<nat>, provenance: Option<Provenance>, reusedFrom: Option<nat>)

  datatype HashPolicy = HashPolicy(algorithm: string, algorithmVersion: nat)

  /** An entry; `payload` is absent for version 1. `other` is every field no rule below inspects. */
  datatype Entry = Entry(
    snapshotId: nat, scopeId: string, relativePath: string, objectType: ObjectType,
    deviceId: Option<nat>, inode: Option<nat>, sizeBytes: Option<nat>, mtimeNs: Option<int>, ctimeNs: Option<int>,
    birthtimeNs: Option<int>, linkCount: Option<nat>, allocatedSize: Option<nat>, observation: ObservationStatus,
    excluded: bool, other: nat, payload: Option<PayloadObservation>)

  type Location = (string, string)

  function LocationOf(entry: Entry): Location {
    (entry.scopeId, entry.relativePath)
  }

  predicate IsHexDigest(text: string) {
    |text| == 64 && forall i :: 0 <= i < |text| ==> text[i] in "0123456789abcdef"
  }

  predicate UniqueLocations(entries: seq<Entry>) {
    forall i, j :: 0 <= i < j < |entries| ==> LocationOf(entries[i]) != LocationOf(entries[j])
  }

  /** `next(entry for entry in entries if location matches)`. */
  function FindEntry(entries: seq<Entry>, location: Location): Option<Entry> {
    if entries == [] then None
    else if LocationOf(entries[0]) == location then Some(entries[0])
    else FindEntry(entries[1..], location)
  }
}
