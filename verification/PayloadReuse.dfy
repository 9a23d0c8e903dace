/** Reuse of payload digests from earlier verified Snapshots: the validator and the selector. */
module PayloadReuse {
  import opened Options
  import opened SnapshotEntries
  import Ordering

  /** A persisted Snapshot document; times are completion-ordered instants. */
  datatype Fact = Fact(
    snapshotId: nat, schemaVersion: nat, intrinsic: bool, createdAt: int, startedAt: int, completedAt: int, policy: HashPolicy, entries: seq<Entry>)

  /** An index row: where its Evidence is, and what the rest of the verification finds there. */
  datatype IndexRow = IndexRow(position: nat, identityOk: bool, runConsistent: bool, rowsConsistent: bool)

  /** All Snapshot documents in directory order, and the derived rows by Snapshot identity. */
  datatype Repository = Repository(facts: seq<Fact>, index: map<nat, IndexRow>)

  datatype ReuseError =
    | SOURCE_MISSING | SOURCE_SCHEMA_UNSUPPORTED | SOURCE_INVALID | SOURCE_NOT_EARLIER
    | SOURCE_ENTRY_MISSING | SOURCE_METADATA_MISMATCH | SOURCE_PAYLOAD_INVALID | SOURCE_DIGEST_MISMATCH

  /** A verification status, one of the two exceptions that leave it, or unbounded recursion. */
  datatype Verdict = VALID | INCOMPLETE | INVALID | RAISED_NOT_FOUND | RAISED_AMBIGUOUS | RECURSION_LIMIT

  predicate Returned(v: Verdict) {
    v in {VALID, INCOMPLETE, INVALID}
  }

  datatype Checked = Errors(codes: seq<ReuseError>) | Raised(verdict: Verdict)

  // ------------------------------------------------------------------ eligibility

  /** `_metadata_reuse_eligible`: same location, both observed regular files, identical identity and times. */
  predicate MetadataReuseEligible(current: Entry, source: Entry) {
    && LocationOf(current) == LocationOf(source)
    && current.objectType == REGULAR_FILE && source.objectType == REGULAR_FILE
    && current.observation == OBSERVED && source.observation == OBSERVED
    && !current.excluded && !source.excluded
    && current.deviceId.Some? && current.inode.Some? && current.sizeBytes.Some? && current.mtimeNs.Some? && current.ctimeNs.Some?
    && current.deviceId == source.deviceId && current.inode == source.inode && current.sizeBytes == source.sizeBytes
    && current.mtimeNs == source.mtimeNs && current.ctimeNs == source.ctimeNs
    && current.birthtimeNs == source.birthtimeNs
  }

  /** `_direct_reuse_source_eligible`: additionally a successful direct read under the same policy. */
  predicate DirectReuseSourceEligible(current: Entry, source: Entry, policy: HashPolicy) {
    && MetadataReuseEligible(current, source)
    && source.payload.Some?
    && var observation := source.payload.value;
    && observation.status in {HASHED, EMPTY_FILE_HASHED}
    && observation.provenance == Some(DIRECT_READ) && observation.reusedFrom.None?
    && observation.algorithm == Some(policy.algorithm) && observation.algorithmVersion == Some(policy.algorithmVersion)
    && observation.digest.Some? && IsHexDigest(observation.digest.value)
    && observation.bytesHashed == source.sizeBytes
  }

  predicate IsReused(entry: Entry) {
    entry.payload.Some? && entry.payload.value.provenance == Some(REUSED_FROM_VERIFIED_SNAPSHOT)
  }

  // ------------------------------------------------------------------ the two mutually recursive checks

  function Positions(facts: seq<Fact>, id: nat, from: nat): seq<nat>
    requires from <= |facts|
    ensures forall k :: 0 <= k < |Positions(facts, id, from)| ==>
              from <= Positions(facts, id, from)[k] < |facts| && facts[Positions(facts, id, from)[k]].snapshotId == id
    decreases |facts| - from
  {
    if from == |facts| then []
    else (if facts[from].snapshotId == id then [from] else []) + Positions(facts, id, from + 1)
  }

  /** `_verify_snapshot`; `fuel` bounds the depth of the mutual recursion. */
  function Verify(repo: Repository, id: nat, fuel: nat): Verdict
    decreases fuel, 0
  {
    if fuel == 0 then RECURSION_LIMIT
    else if id !in repo.index then RAISED_NOT_FOUND
    else
      var row := repo.index[id];
      if row.position >= |repo.facts| then INVALID
      else
        var fact := repo.facts[row.position];
        var reuse := if fact.intrinsic && fact.schemaVersion == 2 then ReuseErrors(repo, fact, fact.entries, fuel - 1) else Errors([]);
        match reuse
        case Raised(verdict) => verdict
        case Errors(codes) =>
          if !fact.intrinsic || codes != [] || !row.identityOk || fact.snapshotId != id || !row.runConsistent then INVALID
          else if row.rowsConsistent then VALID else INCOMPLETE
  }

  /** The contribution of one reused entry: no error, one error, or an exception. */
  function EntryError(repo: Repository, current: Fact, entry: Entry, fuel: nat): Checked
    decreases fuel, 1
  {
    if !IsReused(entry) then Errors([])
    else
      var observation := entry.payload.value;
      var found := if observation.reusedFrom.Some? then Positions(repo.facts, observation.reusedFrom.value, 0) else [];
      if |found| > 1 then Raised(RAISED_AMBIGUOUS)
      else if found == [] then Errors([SOURCE_MISSING])
      else
        var source := repo.facts[found[0]];
        if source.schemaVersion != 2 then Errors([SOURCE_SCHEMA_UNSUPPORTED])
        else if !source.intrinsic then Errors([SOURCE_INVALID])
        else if source.completedAt > current.startedAt then Errors([SOURCE_NOT_EARLIER])
        else
          var verification := Verify(repo, source.snapshotId, fuel);
          if !Returned(verification) then Raised(verification)
          else if verification != VALID then Errors([SOURCE_INVALID])
          else Errors(ComparisonErrors(current, entry, FindEntry(source.entries, LocationOf(entry))))
  }

  /** The checks of a reused entry against the entry found in its VALID source. */
  function ComparisonErrors(current: Fact, entry: Entry, source: Option<Entry>): seq<ReuseError>
    requires IsReused(entry)
  {
    if source.None? then [SOURCE_ENTRY_MISSING]
    else if !DirectReuseSourceEligible(entry, source.value, current.policy) then [SOURCE_METADATA_MISMATCH]
    else
      var mine, theirs := entry.payload.value, source.value.payload.value;
      if mine.status != theirs.status || mine.algorithm != theirs.algorithm
         || mine.algorithmVersion != theirs.algorithmVersion || mine.bytesHashed != theirs.bytesHashed
      then [SOURCE_PAYLOAD_INVALID]
      else if mine.digest != theirs.digest then [SOURCE_DIGEST_MISMATCH]
      else []
  }

  /** `validate_snapshot_reuse_references` over the remaining entries. */
  function ReuseErrors(repo: Repository, current: Fact, entries: seq<Entry>, fuel: nat): Checked
    decreases fuel, 2 + |entries|
  {
    if entries == [] then Errors([])
    else
      var first := EntryError(repo, current, entries[0], fuel);
      if first.Raised? then first
      else
        var rest := ReuseErrors(repo, current, entries[1..], fuel);
        if rest.Raised? then rest else Errors(first.codes + rest.codes)
  }

  // ------------------------------------------------------------------ termination

  /** Every Snapshot takes time. */
  predicate WellTimed(repo: Repository) {
    forall i :: 0 <= i < |repo.facts| ==> repo.facts[i].startedAt < repo.facts[i].completedAt
  }

  /** Every index row points at the document of its own Snapshot. */
  predicate RowsPointHome(repo: Repository) {
    forall id :: id in repo.index && repo.index[id].position < |repo.facts| ==>
      repo.facts[repo.index[id].position].snapshotId == id
  }

  predicate UniqueIdentities(repo: Repository) {
    forall i, j :: 0 <= i < j < |repo.facts| ==> repo.facts[i].snapshotId != repo.facts[j].snapshotId
  }

  /** The documents completed no later than `time`: the completion order as a measure. */
  function CompletedBy(repo: Repository, time: int): (positions: set<nat>)
    ensures |positions| <= |repo.facts|
  {
    CompletedByAmong(repo, time, |repo.facts|)
  }

  function CompletedByAmong(repo: Repository, time: int, n: nat): (positions: set<nat>)
    requires n <= |repo.facts|
    ensures |positions| <= n
    ensures forall i :: i in positions <==> 0 <= i < n && repo.facts[i].completedAt <= time
  {
    if n == 0 then {}
    else CompletedByAmong(repo, time, n - 1) + (if repo.facts[n - 1].completedAt <= time then {n - 1} else {})
  }

  lemma EarlierIsSmaller(repo: Repository, earlier: int, position: nat)
    requires position < |repo.facts| && earlier < repo.facts[position].completedAt
    ensures |CompletedBy(repo, earlier)| < |CompletedBy(repo, repo.facts[position].completedAt)|
  {
    var small, large := CompletedBy(repo, earlier), CompletedBy(repo, repo.facts[position].completedAt);
    assert small <= large - {position} && position in large;
    SubsetSize(small, large - {position});
  }

  lemma {:induction false} SubsetSize<T>(a: set<T>, b: set<T>)
    requires a <= b
    ensures |a| <= |b|
  {
    if a != {} {
      var x :| x in a;
      SubsetSize(a - {x}, b - {x});
    }
  }

  /** A row that points home at the only document of an identity points at that document. */
  lemma {:induction false} PositionsHold(facts: seq<Fact>, id: nat, from: nat, position: nat)
    requires from <= position < |facts| && facts[position].snapshotId == id
    ensures position in Positions(facts, id, from)
    decreases |facts| - from
  {
    if from < position {
      PositionsHold(facts, id, from + 1, position);
    }
  }

  /** A source that passes the time check is verified through a strictly earlier document. */
  lemma SourceIsEarlier(repo: Repository, current: Fact, position: nat, id: nat)
    requires WellTimed(repo) && RowsPointHome(repo)
    requires position < |repo.facts| && current == repo.facts[position]
    requires |Positions(repo.facts, id, 0)| == 1 && repo.facts[Positions(repo.facts, id, 0)[0]].completedAt <= current.startedAt
    ensures Depth(repo, id) < |CompletedBy(repo, current.completedAt)|
  {
    CompletedByNonEmpty(repo, position);
    if id in repo.index && repo.index[id].position < |repo.facts| {
      PositionsHold(repo.facts, id, 0, repo.index[id].position);
      EarlierIsSmaller(repo, repo.facts[repo.index[id].position].completedAt, position);
    }
  }

  /** How deep a verification of this identity can recurse. */
  function Depth(repo: Repository, id: nat): nat {
    if id in repo.index && repo.index[id].position < |repo.facts|
    then |CompletedBy(repo, repo.facts[repo.index[id].position].completedAt)| else 0
  }

  /** The mutual recursion terminates: with well-timed documents and rows that point home, fuel beyond
      the number of documents completed by then is never exhausted. */
  lemma {:induction false} VerificationTerminates(repo: Repository, id: nat, fuel: nat)
    requires WellTimed(repo) && RowsPointHome(repo)
    requires fuel > Depth(repo, id)
    ensures Verify(repo, id, fuel) != RECURSION_LIMIT
    ensures Verify(repo, id, fuel) == Verify(repo, id, Depth(repo, id) + 1)
    decreases fuel, 2
  {
    DepthIsEnough(repo, id, Depth(repo, id) + 1);
    MoreFuelSameVerdict(repo, id, Depth(repo, id) + 1, fuel);
  }

  lemma {:induction false} DepthIsEnough(repo: Repository, id: nat, fuel: nat)
    requires WellTimed(repo) && RowsPointHome(repo)
    requires fuel > Depth(repo, id)
    ensures Verify(repo, id, fuel) != RECURSION_LIMIT
    decreases fuel, 0
  {
    if id in repo.index && repo.index[id].position < |repo.facts| {
      var position := repo.index[id].position;
      ReuseChecksTerminate(repo, position, repo.facts[position].entries, fuel - 1);
    }
  }

  /** A verdict reached with some fuel is reached with any more. */
  lemma {:induction false} MoreFuelSameVerdict(repo: Repository, id: nat, fuel: nat, more: nat)
    requires Verify(repo, id, fuel) != RECURSION_LIMIT && fuel <= more
    ensures Verify(repo, id, more) == Verify(repo, id, fuel)
    decreases fuel, 0
  {
    if id in repo.index && repo.index[id].position < |repo.facts| {
      var fact := repo.facts[repo.index[id].position];
      if fact.intrinsic && fact.schemaVersion == 2 {
        MoreFuelSameErrors(repo, fact, fact.entries, fuel - 1, more - 1);
      }
    }
  }

  lemma {:induction false} MoreFuelSameErrors(repo: Repository, current: Fact, entries: seq<Entry>, fuel: nat, more: nat)
    requires ReuseErrors(repo, current, entries, fuel) != Raised(RECURSION_LIMIT) && fuel <= more
    ensures ReuseErrors(repo, current, entries, more) == ReuseErrors(repo, current, entries, fuel)
    decreases fuel, 1 + |entries|
  {
    if entries != [] {
      var next := Followed(repo, current, entries[0]);
      EntryErrorFacts(repo, current, entries[0], fuel);
      if next.Some? {
        MoreFuelSameVerdict(repo, next.value, fuel, more);
      }
      if EntryError(repo, current, entries[0], fuel).Errors? {
        MoreFuelSameErrors(repo, current, entries[1..], fuel, more);
      }
    }
  }

  lemma {:induction false} ReuseChecksTerminate(repo: Repository, position: nat, entries: seq<Entry>, fuel: nat)
    requires WellTimed(repo) && RowsPointHome(repo)
    requires position < |repo.facts| && fuel >= |CompletedBy(repo, repo.facts[position].completedAt)|
    ensures ReuseErrors(repo, repo.facts[position], entries, fuel) != Raised(RECURSION_LIMIT)
    decreases fuel, 1 + |entries|
  {
    if entries != [] {
      var next := Followed(repo, repo.facts[position], entries[0]);
      if next.Some? {
        SourceIsEarlier(repo, repo.facts[position], position, next.value);
        DepthIsEnough(repo, next.value, fuel);
      }
      ReuseChecksTerminate(repo, position, entries[1..], fuel);
    }
  }

  lemma CompletedByNonEmpty(repo: Repository, position: nat)
    requires position < |repo.facts|
    ensures |CompletedBy(repo, repo.facts[position].completedAt)| > 0
  {
    assert position in CompletedBy(repo, repo.facts[position].completedAt);
  }

  // ------------------------------------------------------------------ exactly when verification ends

  /** The Snapshot a reused entry makes the validator verify, if it gets that far. */
  function Followed(repo: Repository, current: Fact, entry: Entry): (next: Option<nat>)
    ensures next.Some? ==> |Positions(repo.facts, next.value, 0)| == 1
                           && repo.facts[Positions(repo.facts, next.value, 0)[0]].completedAt <= current.startedAt
  {
    if !IsReused(entry) || entry.payload.value.reusedFrom.None? then None
    else
      var found := Positions(repo.facts, entry.payload.value.reusedFrom.value, 0);
      if |found| != 1 then None
      else
        var source := repo.facts[found[0]];
        if source.schemaVersion == 2 && source.intrinsic && source.completedAt <= current.startedAt then Some(source.snapshotId) else None
  }

  /** The entry names an identity that occurs more than once. */
  predicate NamesAmbiguous(repo: Repository, entry: Entry) {
    IsReused(entry) && entry.payload.value.reusedFrom.Some? && |Positions(repo.facts, entry.payload.value.reusedFrom.value, 0)| > 1
  }

  /** The document whose references a verification of `id` checks. */
  function ReaderOf(repo: Repository, id: nat): Option<Fact> {
    if id in repo.index && repo.index[id].position < |repo.facts|
       && repo.facts[repo.index[id].position].intrinsic && repo.facts[repo.index[id].position].schemaVersion == 2
    then Some(repo.facts[repo.index[id].position]) else None
  }

  /** Verifying `id` itself raises: it has no row, or an entry of its document names an ambiguous identity. */
  predicate Troubled(repo: Repository, id: nat) {
    id !in repo.index || (ReaderOf(repo, id).Some? && exists e :: e in ReaderOf(repo, id).value.entries && NamesAmbiguous(repo, e))
  }

  predicate Follows(repo: Repository, id: nat, next: nat) {
    ReaderOf(repo, id).Some? && exists e :: e in ReaderOf(repo, id).value.entries && Followed(repo, ReaderOf(repo, id).value, e) == Some(next)
  }

  /** A walk along references. */
  predicate IsWalk(repo: Repository, walk: seq<nat>) {
    walk != [] && forall i :: 0 <= i < |walk| - 1 ==> Follows(repo, walk[i], walk[i + 1])
  }

  /** Some walk from `id` ends at a Snapshot whose verification raises. */
  ghost predicate MayRaise(repo: Repository, id: nat) {
    exists walk :: IsWalk(repo, walk) && walk[0] == id && Troubled(repo, walk[|walk| - 1])
  }

  /** Checking this entry cannot raise an exception, however far its references lead. */
  ghost predicate Harmless(repo: Repository, current: Fact, entry: Entry) {
    !NamesAmbiguous(repo, entry) && (Followed(repo, current, entry).Some? ==> !MayRaise(repo, Followed(repo, current, entry).value))
  }

  ghost predicate CleanAt(repo: Repository, current: Fact, entries: seq<Entry>, k: nat, next: nat) {
    && k < |entries| && Followed(repo, current, entries[k]) == Some(next)
    && forall i :: 0 <= i < k ==> Harmless(repo, current, entries[i])
  }

  /** Verifying `id` gets to verify `next`: no entry before the one that names it can raise. */
  ghost predicate CleanStep(repo: Repository, id: nat, next: nat) {
    ReaderOf(repo, id).Some? && exists k: nat :: CleanAt(repo, ReaderOf(repo, id).value, ReaderOf(repo, id).value.entries, k, next)
  }

  ghost predicate IsCleanWalk(repo: Repository, walk: seq<nat>) {
    walk != [] && forall i :: 0 <= i < |walk| - 1 ==> CleanStep(repo, walk[i], walk[i + 1])
  }

  /** The stored documents and rows lead the verification of `id` into a cycle. */
  ghost predicate RunsIntoCycle(repo: Repository, id: nat) {
    exists walk, i :: IsCleanWalk(repo, walk) && walk[0] == id && 0 <= i < |walk| - 1 && walk[i] == walk[|walk| - 1]
  }

  ghost predicate HasCleanWalk(repo: Repository, id: nat, steps: nat) {
    exists walk :: IsCleanWalk(repo, walk) && walk[0] == id && |walk| == steps + 1
  }

  /** One entry in terms of the Snapshot it makes the validator verify. */
  lemma EntryErrorFacts(repo: Repository, current: Fact, entry: Entry, fuel: nat)
    ensures NamesAmbiguous(repo, entry) ==> EntryError(repo, current, entry, fuel) == Raised(RAISED_AMBIGUOUS)
    ensures !NamesAmbiguous(repo, entry) && Followed(repo, current, entry).None? ==> EntryError(repo, current, entry, fuel).Errors?
    ensures Followed(repo, current, entry).Some? ==>
              var verdict := Verify(repo, Followed(repo, current, entry).value, fuel);
              if Returned(verdict) then EntryError(repo, current, entry, fuel).Errors?
              else EntryError(repo, current, entry, fuel) == Raised(verdict)
  {
    hide ComparisonErrors, Verify;
  }

  lemma {:induction false} RaisedIsNotReturned(repo: Repository, current: Fact, entries: seq<Entry>, fuel: nat)
    ensures ReuseErrors(repo, current, entries, fuel).Raised? ==> !Returned(ReuseErrors(repo, current, entries, fuel).verdict)
  {
    if entries != [] {
      EntryErrorFacts(repo, current, entries[0], fuel);
      RaisedIsNotReturned(repo, current, entries[1..], fuel);
    }
  }

  /** A verification that returned checked every entry, and every Snapshot they name. */
  lemma ReturnedReader(repo: Repository, id: nat, fuel: nat, e: Entry)
    requires Returned(Verify(repo, id, fuel)) && ReaderOf(repo, id).Some? && e in ReaderOf(repo, id).value.entries
    ensures fuel > 0 && !NamesAmbiguous(repo, e)
    ensures var next := Followed(repo, ReaderOf(repo, id).value, e); next.Some? ==> Returned(Verify(repo, next.value, fuel - 1))
  {
    var reader := ReaderOf(repo, id).value;
    RaisedIsNotReturned(repo, reader, reader.entries, fuel - 1);
    AllReturned(repo, reader, reader.entries, fuel - 1);
    EntryErrorFacts(repo, reader, e, fuel - 1);
  }

  /** A verification that returned has met no Snapshot that raises, anywhere. */
  lemma {:induction false} ReturnedIsQuiet(repo: Repository, id: nat, fuel: nat, walk: seq<nat>)
    requires Returned(Verify(repo, id, fuel)) && IsWalk(repo, walk) && walk[0] == id
    ensures !Troubled(repo, walk[|walk| - 1])
    decreases |walk|
  {
    assert id in repo.index;
    hide Verify, ReaderOf, Followed;
    if |walk| > 1 {
      assert Follows(repo, walk[0], walk[1]);
      var e :| e in ReaderOf(repo, id).value.entries && Followed(repo, ReaderOf(repo, id).value, e) == Some(walk[1]);
      ReturnedReader(repo, id, fuel, e);
      ReturnedIsQuiet(repo, walk[1], fuel - 1, walk[1..]);
    } else if ReaderOf(repo, id).Some? {
      forall e | e in ReaderOf(repo, id).value.entries ensures !NamesAmbiguous(repo, e) {
        ReturnedReader(repo, id, fuel, e);
      }
    }
  }

  lemma {:induction false} AllReturned(repo: Repository, current: Fact, entries: seq<Entry>, fuel: nat)
    requires ReuseErrors(repo, current, entries, fuel).Errors?
    ensures forall e :: e in entries ==> EntryError(repo, current, e, fuel).Errors?
  {
    if entries != [] {
      AllReturned(repo, current, entries[1..], fuel);
    }
  }

  lemma ErrorsAreHarmless(repo: Repository, current: Fact, entry: Entry, fuel: nat)
    requires EntryError(repo, current, entry, fuel).Errors?
    ensures Harmless(repo, current, entry)
  {
    EntryErrorFacts(repo, current, entry, fuel);
    var next := Followed(repo, current, entry);
    if next.Some? && MayRaise(repo, next.value) {
      var walk :| IsWalk(repo, walk) && walk[0] == next.value && Troubled(repo, walk[|walk| - 1]);
      ReturnedIsQuiet(repo, next.value, fuel, walk);
    }
  }

  /** The first entry that exhausts the fuel, after entries that are all harmless. */
  lemma {:induction false} ExhaustedAt(repo: Repository, current: Fact, entries: seq<Entry>, fuel: nat) returns (k: nat, next: nat)
    requires ReuseErrors(repo, current, entries, fuel) == Raised(RECURSION_LIMIT)
    ensures CleanAt(repo, current, entries, k, next) && Verify(repo, next, fuel) == RECURSION_LIMIT
  {
    EntryErrorFacts(repo, current, entries[0], fuel);
    if EntryError(repo, current, entries[0], fuel).Raised? {
      k, next := 0, Followed(repo, current, entries[0]).value;
    } else {
      ErrorsAreHarmless(repo, current, entries[0], fuel);
      k, next := ExhaustedAt(repo, current, entries[1..], fuel);
      k := k + 1;
      assert forall i :: 1 <= i < k ==> entries[i] == entries[1..][i - 1];
    }
  }

  /** A harmless entry returns or exhausts the fuel. */
  lemma {:induction false} HarmlessOrExhausted(repo: Repository, current: Fact, entry: Entry, fuel: nat)
    requires Harmless(repo, current, entry)
    ensures EntryError(repo, current, entry, fuel).Errors? || EntryError(repo, current, entry, fuel) == Raised(RECURSION_LIMIT)
    decreases fuel, 1
  {
    EntryErrorFacts(repo, current, entry, fuel);
    if Followed(repo, current, entry).Some? {
      QuietOrExhausted(repo, Followed(repo, current, entry).value, fuel);
    }
  }

  lemma {:induction false} QuietOrExhausted(repo: Repository, id: nat, fuel: nat)
    requires !MayRaise(repo, id)
    ensures Returned(Verify(repo, id, fuel)) || Verify(repo, id, fuel) == RECURSION_LIMIT
    decreases fuel, 0
  {
    assert IsWalk(repo, [id]) && [id][0] == id;
    assert !Troubled(repo, id);
    var reader := ReaderOf(repo, id);
    if fuel > 0 && reader.Some? {
      forall e | e in reader.value.entries ensures Harmless(repo, reader.value, e) {
        EntryOfQuiet(repo, id, e);
      }
      AllHarmless(repo, reader.value, reader.value.entries, fuel - 1);
    }
  }

  lemma EntryOfQuiet(repo: Repository, id: nat, e: Entry)
    requires !MayRaise(repo, id) && ReaderOf(repo, id).Some? && e in ReaderOf(repo, id).value.entries
    ensures Harmless(repo, ReaderOf(repo, id).value, e)
  {
    assert IsWalk(repo, [id]) && [id][0] == id;
    assert !Troubled(repo, [id][|[id]| - 1]);
    var next := Followed(repo, ReaderOf(repo, id).value, e);
    if next.Some? {
      assert Follows(repo, id, next.value);
      TroubleIsInherited(repo, id, next.value);
    }
  }

  lemma TroubleIsInherited(repo: Repository, id: nat, next: nat)
    requires Follows(repo, id, next)
    ensures MayRaise(repo, next) ==> MayRaise(repo, id)
  {
    if MayRaise(repo, next) {
      var walk :| IsWalk(repo, walk) && walk[0] == next && Troubled(repo, walk[|walk| - 1]);
      var longer := [id] + walk;
      forall i | 0 <= i < |longer| - 1 ensures Follows(repo, longer[i], longer[i + 1]) {
        assert i > 0 ==> longer[i] == walk[i - 1] && longer[i + 1] == walk[i];
      }
      assert IsWalk(repo, longer) && longer[0] == id && longer[|longer| - 1] == walk[|walk| - 1];
    }
  }

  lemma {:induction false} AllHarmless(repo: Repository, current: Fact, entries: seq<Entry>, fuel: nat)
    requires forall e :: e in entries ==> Harmless(repo, current, e)
    ensures ReuseErrors(repo, current, entries, fuel).Errors? || ReuseErrors(repo, current, entries, fuel) == Raised(RECURSION_LIMIT)
    decreases fuel, 2 + |entries|
  {
    if entries != [] {
      HarmlessOrExhausted(repo, current, entries[0], fuel);
      AllHarmless(repo, current, entries[1..], fuel);
    }
  }

  lemma {:induction false} ExhaustedByEntry(repo: Repository, current: Fact, entries: seq<Entry>, k: nat, next: nat, fuel: nat)
    requires CleanAt(repo, current, entries, k, next) && Verify(repo, next, fuel) == RECURSION_LIMIT
    ensures ReuseErrors(repo, current, entries, fuel) == Raised(RECURSION_LIMIT)
    decreases |entries|
  {
    if k == 0 {
      EntryErrorFacts(repo, current, entries[0], fuel);
    } else {
      HarmlessOrExhausted(repo, current, entries[0], fuel);
      assert forall i :: 0 <= i < k - 1 ==> entries[1..][i] == entries[i + 1];
      ExhaustedByEntry(repo, current, entries[1..], k - 1, next, fuel);
    }
  }

  /** Fuel runs out exactly along clean walks: `fuel` levels are exhausted if and only if the stored
      documents and rows hold a clean walk of that many steps. */
  lemma {:induction false} ExhaustedExactlyByCleanWalks(repo: Repository, id: nat, fuel: nat)
    ensures Verify(repo, id, fuel) == RECURSION_LIMIT <==> HasCleanWalk(repo, id, fuel)
    decreases fuel
  {
    if fuel == 0 {
      assert IsCleanWalk(repo, [id]) && [id][0] == id && |[id]| == 1;
    } else {
      if Verify(repo, id, fuel) == RECURSION_LIMIT {
        WalkFromExhaustion(repo, id, fuel);
      }
      if HasCleanWalk(repo, id, fuel) {
        ExhaustionFromWalk(repo, id, fuel);
      }
    }
  }

  lemma {:induction false} WalkFromExhaustion(repo: Repository, id: nat, fuel: nat)
    requires fuel > 0 && Verify(repo, id, fuel) == RECURSION_LIMIT
    ensures HasCleanWalk(repo, id, fuel)
    decreases fuel, 1
  {
    var reader := ReaderOf(repo, id).value;
    var k, next := ExhaustedAt(repo, reader, reader.entries, fuel - 1);
    ExhaustedExactlyByCleanWalks(repo, next, fuel - 1);
    var walk :| IsCleanWalk(repo, walk) && walk[0] == next && |walk| == fuel;
    LongerWalk(repo, id, walk);
    assert IsCleanWalk(repo, [id] + walk) && ([id] + walk)[0] == id && |[id] + walk| == fuel + 1;
  }

  lemma LongerWalk(repo: Repository, id: nat, walk: seq<nat>)
    requires IsCleanWalk(repo, walk) && CleanStep(repo, id, walk[0])
    ensures IsCleanWalk(repo, [id] + walk)
  {
    var longer := [id] + walk;
    forall i | 0 <= i < |longer| - 1 ensures CleanStep(repo, longer[i], longer[i + 1]) {
      assert i > 0 ==> longer[i] == walk[i - 1] && longer[i + 1] == walk[i];
    }
  }

  lemma {:induction false} ExhaustionFromWalk(repo: Repository, id: nat, fuel: nat)
    requires fuel > 0 && HasCleanWalk(repo, id, fuel)
    ensures Verify(repo, id, fuel) == RECURSION_LIMIT
    decreases fuel, 1
  {
    var walk :| IsCleanWalk(repo, walk) && walk[0] == id && |walk| == fuel + 1;
    assert CleanStep(repo, walk[0], walk[1]);
    var reader := ReaderOf(repo, id).value;
    var k: nat :| CleanAt(repo, reader, reader.entries, k, walk[1]);
    var rest := walk[1..];
    assert IsCleanWalk(repo, rest) && rest[0] == walk[1] && |rest| == fuel;
    ExhaustedExactlyByCleanWalks(repo, walk[1], fuel - 1);
    ExhaustedByEntry(repo, reader, reader.entries, k, walk[1], fuel - 1);
  }

  /** More steps than rows repeat a row. */
  lemma LongWalkRepeats(repo: Repository, walk: seq<nat>)
    requires IsCleanWalk(repo, walk) && |walk| == |repo.index| + 2
    ensures RunsIntoCycle(repo, walk[0])
  {
    var visited := walk[..|walk| - 1];
    forall x | x in visited ensures x in repo.index {
      var i :| 0 <= i < |visited| && visited[i] == x;
      assert CleanStep(repo, walk[i], walk[i + 1]);
    }
    if forall i, j :: 0 <= i < j < |visited| ==> visited[i] != visited[j] {
      DistinctFit(visited, repo.index.Keys);
    }
    var i, j :| 0 <= i < j < |visited| && visited[i] == visited[j];
    var lasso := walk[..j + 1];
    assert IsCleanWalk(repo, lasso) && lasso[0] == walk[0] && lasso[i] == lasso[|lasso| - 1];
  }

  lemma {:induction false} DistinctFit(xs: seq<nat>, all: set<nat>)
    requires (forall x :: x in xs ==> x in all) && forall i, j :: 0 <= i < j < |xs| ==> xs[i] != xs[j]
    ensures |xs| <= |all|
  {
    if xs != [] {
      var n := |xs| - 1;
      DistinctFit(xs[..n], all - {xs[n]});
    }
  }

  /** A cycle gives clean walks of every length. */
  lemma {:induction false} CycleNeverEnds(repo: Repository, walk: seq<nat>, i: nat, steps: nat) returns (long: seq<nat>)
    requires IsCleanWalk(repo, walk) && i < |walk| - 1 && walk[i] == walk[|walk| - 1]
    ensures IsCleanWalk(repo, long) && long[0] == walk[0] && |long| == steps + 1
    ensures exists j :: 0 <= j < |walk| - 1 && long[steps] == walk[j]
    decreases steps
  {
    if steps == 0 {
      long := [walk[0]];
      assert long[steps] == walk[0];
    } else {
      var shorter := CycleNeverEnds(repo, walk, i, steps - 1);
      var j :| 0 <= j < |walk| - 1 && shorter[steps - 1] == walk[j];
      assert CleanStep(repo, walk[j], walk[j + 1]);
      long := shorter + [walk[j + 1]];
      forall m | 0 <= m < |long| - 1 ensures CleanStep(repo, long[m], long[m + 1]) {
        if m < steps - 1 {
          assert long[m] == shorter[m] && long[m + 1] == shorter[m + 1];
        }
      }
      if j + 1 == |walk| - 1 {
        assert long[steps] == walk[i];
      }
    }
  }

  /** Verification of an identity ends if and only if the stored documents and rows do not lead it into
      a cycle; and if it ends, it does so within one level more than there are rows. */
  lemma VerificationEndsExactlyWithoutCycle(repo: Repository, id: nat)
    ensures (exists fuel: nat :: Verify(repo, id, fuel) != RECURSION_LIMIT) <==> !RunsIntoCycle(repo, id)
    ensures Verify(repo, id, |repo.index| + 1) != RECURSION_LIMIT <==> !RunsIntoCycle(repo, id)
  {
    var enough := |repo.index| + 1;
    if RunsIntoCycle(repo, id) {
      var walk, i :| IsCleanWalk(repo, walk) && walk[0] == id && 0 <= i < |walk| - 1 && walk[i] == walk[|walk| - 1];
      forall fuel: nat ensures Verify(repo, id, fuel) == RECURSION_LIMIT {
        var long := CycleNeverEnds(repo, walk, i, fuel);
        ExhaustedExactlyByCleanWalks(repo, id, fuel);
      }
    } else {
      ExhaustedExactlyByCleanWalks(repo, id, enough);
      if HasCleanWalk(repo, id, enough) {
        var walk :| IsCleanWalk(repo, walk) && walk[0] == id && |walk| == enough + 1;
        LongWalkRepeats(repo, walk);
      }
    }
  }

  lemma CleanWithoutTrouble(repo: Repository, id: nat, next: nat)
    ensures CleanStep(repo, id, next) ==> Follows(repo, id, next)
    ensures !MayRaise(repo, id) && Follows(repo, id, next) ==> CleanStep(repo, id, next) && !MayRaise(repo, next)
  {
    if !MayRaise(repo, id) && Follows(repo, id, next) {
      var reader := ReaderOf(repo, id).value;
      var e :| e in reader.entries && Followed(repo, reader, e) == Some(next);
      var k :| 0 <= k < |reader.entries| && reader.entries[k] == e;
      forall i | 0 <= i < k ensures Harmless(repo, reader, reader.entries[i]) {
        EntryOfQuiet(repo, id, reader.entries[i]);
      }
      assert CleanAt(repo, reader, reader.entries, k, next);
      TroubleIsInherited(repo, id, next);
    }
  }

  lemma {:induction false} QuietWalkIsClean(repo: Repository, walk: seq<nat>)
    requires IsWalk(repo, walk) && !MayRaise(repo, walk[0])
    ensures IsCleanWalk(repo, walk)
    decreases |walk|
  {
    if |walk| > 1 {
      assert Follows(repo, walk[0], walk[1]);
      CleanWithoutTrouble(repo, walk[0], walk[1]);
      QuietWalkIsClean(repo, walk[1..]);
      assert walk == [walk[0]] + walk[1..];
      LongerWalk(repo, walk[0], walk[1..]);
    }
  }

  /** Where nothing can raise, verification runs into a cycle exactly when the references have one. */
  lemma QuietCyclesAreReferenceCycles(repo: Repository, id: nat)
    requires !MayRaise(repo, id)
    ensures RunsIntoCycle(repo, id)
            <==> exists walk, i :: IsWalk(repo, walk) && walk[0] == id && 0 <= i < |walk| - 1 && walk[i] == walk[|walk| - 1]
  {
    if RunsIntoCycle(repo, id) {
      var walk, i :| IsCleanWalk(repo, walk) && walk[0] == id && 0 <= i < |walk| - 1 && walk[i] == walk[|walk| - 1];
      forall j | 0 <= j < |walk| - 1 ensures Follows(repo, walk[j], walk[j + 1]) {
        CleanWithoutTrouble(repo, walk[j], walk[j + 1]);
      }
      assert IsWalk(repo, walk);
    }
    if walk, i :| IsWalk(repo, walk) && walk[0] == id && 0 <= i < |walk| - 1 && walk[i] == walk[|walk| - 1] {
      QuietWalkIsClean(repo, walk);
    }
  }

  /** Well-timed documents and rows that point home hold no cycle. */
  lemma GoodRecordsHaveNoCycle(repo: Repository, id: nat)
    requires WellTimed(repo) && RowsPointHome(repo)
    ensures !RunsIntoCycle(repo, id)
  {
    VerificationTerminates(repo, id, Depth(repo, id) + 1);
    VerificationEndsExactlyWithoutCycle(repo, id);
  }

  /** Without strictly increasing times a Snapshot may name itself as its source, and no depth is enough. */
  lemma {:induction false} SelfReuseNeverEnds(entry: Entry, policy: HashPolicy, fuel: nat)
    requires IsReused(entry) && entry.payload.value.reusedFrom == Some(7)
    ensures var repo := Repository([Fact(7, 2, true, 5, 5, 5, policy, [entry])], map[7 := IndexRow(0, true, true, true)]);
            RowsPointHome(repo) && UniqueIdentities(repo) && Verify(repo, 7, fuel) == RECURSION_LIMIT
  {
    var repo := Repository([Fact(7, 2, true, 5, 5, 5, policy, [entry])], map[7 := IndexRow(0, true, true, true)]);
    assert Positions(repo.facts, 7, 1) == [];
    assert Positions(repo.facts, 7, 0) == [0];
    if fuel > 0 {
      SelfReuseNeverEnds(entry, policy, fuel - 1);
      assert EntryError(repo, repo.facts[0], [entry][0], fuel - 1) == Raised(RECURSION_LIMIT);
    }
  }

  /** The identity of a row is only compared after its references were followed: a row that points
      at a later document keeps the recursion going although all times are in order. */
  lemma {:induction false} MisplacedRowNeverEnds(entry: Entry, policy: HashPolicy, fuel: nat)
    requires IsReused(entry) && entry.payload.value.reusedFrom == Some(1)
    ensures var repo := Repository([Fact(1, 2, true, 1, 0, 1, policy, []), Fact(2, 2, true, 3, 2, 3, policy, [entry])],
                                   map[1 := IndexRow(1, true, true, true)]);
            WellTimed(repo) && UniqueIdentities(repo) && Verify(repo, 1, fuel) == RECURSION_LIMIT
  {
    var repo := Repository([Fact(1, 2, true, 1, 0, 1, policy, []), Fact(2, 2, true, 3, 2, 3, policy, [entry])],
                           map[1 := IndexRow(1, true, true, true)]);
    assert Positions(repo.facts, 1, 2) == [];
    assert Positions(repo.facts, 1, 1) == [];
    assert Positions(repo.facts, 1, 0) == [0];
    if fuel > 0 {
      MisplacedRowNeverEnds(entry, policy, fuel - 1);
      assert EntryError(repo, repo.facts[1], [entry][0], fuel - 1) == Raised(RECURSION_LIMIT);
    }
  }

  // ------------------------------------------------------------------ what acceptance means

  /** The first entry of `source` at the location of `entry` stands at place `k`. */
  predicate FirstAt(source: Fact, entry: Entry, k: nat) {
    && k < |source.entries| && LocationOf(source.entries[k]) == LocationOf(entry)
    && forall j :: 0 <= j < k ==> LocationOf(source.entries[j]) != LocationOf(entry)
  }

  /** Both entries observed one regular file, unchanged as far as its identity, size and times tell. */
  predicate SameFile(entry: Entry, read: Entry) {
    && entry.scopeId == read.scopeId && entry.relativePath == read.relativePath
    && entry.objectType == REGULAR_FILE && read.objectType == REGULAR_FILE
    && entry.observation == OBSERVED && read.observation == OBSERVED && !entry.excluded && !read.excluded
    && entry.deviceId.Some? && read.deviceId == entry.deviceId && entry.inode.Some? && read.inode == entry.inode
    && entry.sizeBytes.Some? && read.sizeBytes == entry.sizeBytes
    && entry.mtimeNs.Some? && read.mtimeNs == entry.mtimeNs && entry.ctimeNs.Some? && read.ctimeNs == entry.ctimeNs
    && read.birthtimeNs == entry.birthtimeNs
  }

  /** The payload of `entry` is that of a complete direct read of it, by the algorithm of the policy. */
  predicate RepeatsDirectRead(entry: Entry, read: Entry, policy: HashPolicy) {
    && entry.payload.Some? && read.payload.Some?
    && var mine, theirs := entry.payload.value, read.payload.value;
    && theirs.provenance == Some(DIRECT_READ) && theirs.reusedFrom == None
    && theirs.status in {HASHED, EMPTY_FILE_HASHED} && mine.status == theirs.status
    && theirs.algorithm == Some(policy.algorithm) && mine.algorithm == theirs.algorithm
    && theirs.algorithmVersion == Some(policy.algorithmVersion) && mine.algorithmVersion == theirs.algorithmVersion
    && theirs.digest.Some? && IsHexDigest(theirs.digest.value) && mine.digest == theirs.digest
    && theirs.bytesHashed == read.sizeBytes && mine.bytesHashed == theirs.bytesHashed
  }

  /** A reused digest is backed by a direct read of the same file in an earlier, VALID Snapshot. */
  ghost predicate OneHopFromDirectRead(repo: Repository, current: Fact, entry: Entry, fuel: nat) {
    exists position :: 0 <= position < |repo.facts| && BacksDirectly(repo, current, entry, position, fuel)
  }

  ghost predicate BacksDirectly(repo: Repository, current: Fact, entry: Entry, position: nat, fuel: nat)
    requires position < |repo.facts|
  {
    var source := repo.facts[position];
    && entry.payload.Some? && entry.payload.value.reusedFrom == Some(source.snapshotId)
    && (forall i :: 0 <= i < |repo.facts| && i != position ==> repo.facts[i].snapshotId != source.snapshotId)
    && source.schemaVersion == 2 && source.intrinsic && source.completedAt <= current.startedAt
    && Verify(repo, source.snapshotId, fuel) == VALID
    && exists k: nat :: FirstAt(source, entry, k) && SameFile(entry, source.entries[k]) && RepeatsDirectRead(entry, source.entries[k], current.policy)
  }

  /** The identity of a reused entry occurs once, so the validator looks at the right document. */
  lemma {:induction false} PositionsFindUnique(facts: seq<Fact>, id: nat, from: nat, position: nat)
    requires from <= position < |facts| && facts[position].snapshotId == id
    requires forall i :: from <= i < |facts| && i != position ==> facts[i].snapshotId != id
    ensures Positions(facts, id, from) == [position]
    decreases |facts| - from
  {
    if from < position {
      PositionsFindUnique(facts, id, from + 1, position);
    } else {
      NoPositions(facts, id, from + 1);
    }
  }

  lemma {:induction false} NoPositions(facts: seq<Fact>, id: nat, from: nat)
    requires from <= |facts| && forall i :: from <= i < |facts| ==> facts[i].snapshotId != id
    ensures Positions(facts, id, from) == []
    decreases |facts| - from
  {
    if from < |facts| {
      NoPositions(facts, id, from + 1);
    }
  }

  lemma {:induction false} FoundIsFirst(source: Fact, entries: seq<Entry>, entry: Entry, from: nat)
    requires from <= |source.entries| && entries == source.entries[from..]
    requires forall j :: 0 <= j < from ==> LocationOf(source.entries[j]) != LocationOf(entry)
    ensures FindEntry(entries, LocationOf(entry)).Some? <==> exists k: nat :: FirstAt(source, entry, k)
    ensures forall k: nat :: FirstAt(source, entry, k) ==> FindEntry(entries, LocationOf(entry)) == Some(source.entries[k])
    decreases |entries|
  {
    if entries != [] {
      if LocationOf(entries[0]) == LocationOf(entry) {
        assert FirstAt(source, entry, from);
      } else {
        FoundIsFirst(source, entries[1..], entry, from + 1);
      }
    }
  }

  /** The comparison finds nothing exactly when the entry repeats a direct read of the same file. */
  lemma ComparedExactly(current: Fact, entry: Entry, source: Fact)
    requires IsReused(entry)
    ensures ComparisonErrors(current, entry, FindEntry(source.entries, LocationOf(entry))) == []
            <==> exists k: nat :: FirstAt(source, entry, k) && SameFile(entry, source.entries[k])
                             && RepeatsDirectRead(entry, source.entries[k], current.policy)
  {
    FoundIsFirst(source, source.entries, entry, 0);
    hide FindEntry, IsHexDigest;
    if exists k: nat :: FirstAt(source, entry, k) {
      var k: nat :| FirstAt(source, entry, k);
      assert forall m: nat :: FirstAt(source, entry, m) ==> m == k;
    }
  }

  /** One reused entry passes exactly when it is backed. */
  lemma PassesExactlyWhenBacked(repo: Repository, current: Fact, entry: Entry, fuel: nat)
    requires IsReused(entry)
    ensures EntryError(repo, current, entry, fuel) == Errors([]) <==> OneHopFromDirectRead(repo, current, entry, fuel)
  {
    hide Verify, ComparisonErrors, SameFile, RepeatsDirectRead, FirstAt, FindEntry;
    if entry.payload.value.reusedFrom.Some? {
      var found := Positions(repo.facts, entry.payload.value.reusedFrom.value, 0);
      if OneHopFromDirectRead(repo, current, entry, fuel) {
        var position :| 0 <= position < |repo.facts| && BacksDirectly(repo, current, entry, position, fuel);
        PositionsFindUnique(repo.facts, repo.facts[position].snapshotId, 0, position);
      }
      if |found| == 1 {
        ComparedExactly(current, entry, repo.facts[found[0]]);
        forall i | 0 <= i < |repo.facts| && i != found[0] ensures repo.facts[i].snapshotId != repo.facts[found[0]].snapshotId {
          if repo.facts[i].snapshotId == repo.facts[found[0]].snapshotId {
            PositionsHold(repo.facts, repo.facts[i].snapshotId, 0, i);
          }
        }
        assert EntryError(repo, current, entry, fuel) == Errors([]) <==> BacksDirectly(repo, current, entry, found[0], fuel);
      }
    }
  }

  /** The one document of this identity. */
  predicate IsOnly(repo: Repository, position: nat, id: nat) {
    && position < |repo.facts| && repo.facts[position].snapshotId == id
    && forall i :: 0 <= i < |repo.facts| && i != position ==> repo.facts[i].snapshotId != id
  }

  /** The source the entry names passes every check that comes before the comparison of entries. */
  ghost predicate Admissible(repo: Repository, current: Fact, source: Fact, fuel: nat) {
    source.schemaVersion == 2 && source.intrinsic && source.completedAt <= current.startedAt && Verify(repo, source.snapshotId, fuel) == VALID
  }

  /** The state of affairs that each error code of a reused entry stands for; no two can hold at once. */
  ghost predicate Justifies(repo: Repository, current: Fact, entry: Entry, code: ReuseError, fuel: nat)
    requires IsReused(entry)
  {
    var from := entry.payload.value.reusedFrom;
    if code == SOURCE_MISSING then
      from.None? || forall i :: 0 <= i < |repo.facts| ==> repo.facts[i].snapshotId != from.value
    else
      from.Some? && exists position: nat :: IsOnly(repo, position, from.value) && JustifiesAt(repo, current, entry, repo.facts[position], code, fuel)
  }

  /** What the code says of the document the entry names. */
  ghost predicate JustifiesAt(repo: Repository, current: Fact, entry: Entry, source: Fact, code: ReuseError, fuel: nat)
    requires IsReused(entry)
  {
    match code
    case SOURCE_MISSING => false
    case SOURCE_SCHEMA_UNSUPPORTED => source.schemaVersion != 2
    case SOURCE_INVALID =>
      source.schemaVersion == 2
      && (!source.intrinsic || (source.completedAt <= current.startedAt && Verify(repo, source.snapshotId, fuel) in {INVALID, INCOMPLETE}))
    case SOURCE_NOT_EARLIER => source.schemaVersion == 2 && source.intrinsic && source.completedAt > current.startedAt
    case SOURCE_ENTRY_MISSING => Admissible(repo, current, source, fuel) && forall k: nat :: !FirstAt(source, entry, k)
    case _ => Admissible(repo, current, source, fuel) && exists k: nat :: FirstAt(source, entry, k) && JustifiedBy(entry, source.entries[k], current, code)
  }

  /** The error code that the entry found at the same location stands for, if any. */
  predicate JustifiedBy(entry: Entry, read: Entry, current: Fact, code: ReuseError)
    requires IsReused(entry)
  {
    var mine := entry.payload.value;
    var usable := SameFile(entry, read) && read.payload.Some? && RepeatsDirectRead(read, read, current.policy);
    match code
    case SOURCE_METADATA_MISMATCH => !usable
    case SOURCE_PAYLOAD_INVALID =>
      usable && var theirs := read.payload.value;
      mine.status != theirs.status || mine.algorithm != theirs.algorithm
      || mine.algorithmVersion != theirs.algorithmVersion || mine.bytesHashed != theirs.bytesHashed
    case SOURCE_DIGEST_MISMATCH =>
      usable && var theirs := read.payload.value;
      mine.status == theirs.status && mine.algorithm == theirs.algorithm
      && mine.algorithmVersion == theirs.algorithmVersion && mine.bytesHashed == theirs.bytesHashed && mine.digest != theirs.digest
    case _ => false
  }

  lemma ComparisonJustified(current: Fact, entry: Entry, source: Fact, code: ReuseError)
    requires IsReused(entry)
    ensures ComparisonErrors(current, entry, FindEntry(source.entries, LocationOf(entry))) == [code] <==>
              if code == SOURCE_ENTRY_MISSING then forall k: nat :: !FirstAt(source, entry, k)
              else exists k: nat :: FirstAt(source, entry, k) && JustifiedBy(entry, source.entries[k], current, code)
  {
    FoundIsFirst(source, source.entries, entry, 0);
    hide FindEntry, IsHexDigest;
    if exists k: nat :: FirstAt(source, entry, k) {
      var k: nat :| FirstAt(source, entry, k);
      assert forall m: nat :: FirstAt(source, entry, m) ==> m == k;
    }
  }

  lemma CodeOfSource(repo: Repository, current: Fact, entry: Entry, position: nat, code: ReuseError, fuel: nat)
    requires IsReused(entry) && entry.payload.value.reusedFrom.Some? && position < |repo.facts|
    requires Positions(repo.facts, entry.payload.value.reusedFrom.value, 0) == [position]
    ensures EntryError(repo, current, entry, fuel) == Errors([code])
            <==> JustifiesAt(repo, current, entry, repo.facts[position], code, fuel)
  {
    hide Verify, ComparisonErrors, SameFile, RepeatsDirectRead, FirstAt, FindEntry;
    ComparisonJustified(current, entry, repo.facts[position], code);
  }

  lemma NoneIsNobody(repo: Repository, id: nat)
    requires Positions(repo.facts, id, 0) == []
    ensures forall i :: 0 <= i < |repo.facts| ==> repo.facts[i].snapshotId != id
  {
    forall i | 0 <= i < |repo.facts| ensures repo.facts[i].snapshotId != id {
      if repo.facts[i].snapshotId == id {
        PositionsHold(repo.facts, id, 0, i);
      }
    }
  }

  lemma OneIsOnly(repo: Repository, id: nat, position: nat)
    requires Positions(repo.facts, id, 0) == [position]
    ensures IsOnly(repo, position, id) && forall other: nat :: IsOnly(repo, other, id) ==> other == position
  {
    assert Positions(repo.facts, id, 0)[0] == position;
    forall i | 0 <= i < |repo.facts| && repo.facts[i].snapshotId == id ensures i == position {
      PositionsHold(repo.facts, id, 0, i);
      assert i in [position];
    }
  }

  /** A reused entry gets exactly the error code that is justified. */
  lemma CodeIsJustified(repo: Repository, current: Fact, entry: Entry, code: ReuseError, fuel: nat)
    requires IsReused(entry)
    ensures EntryError(repo, current, entry, fuel) == Errors([code]) <==> Justifies(repo, current, entry, code, fuel)
  {
    hide Verify, ComparisonErrors, FindEntry, JustifiesAt, IsOnly, Positions;
    var from := entry.payload.value.reusedFrom;
    if from.Some? {
      var found := Positions(repo.facts, from.value, 0);
      if found == [] {
        NoneIsNobody(repo, from.value);
        NobodyIsOnly(repo, from.value);
      } else if |found| == 1 {
        assert found == [found[0]];
        CodeOfSource(repo, current, entry, found[0], code, fuel);
        CodeOfOnly(repo, current, entry, found[0], code, fuel);
        hide EntryError;
      } else {
        AmbiguousIsNobody(repo, from.value);
      }
    }
  }

  lemma NobodyIsOnly(repo: Repository, id: nat)
    requires forall i :: 0 <= i < |repo.facts| ==> repo.facts[i].snapshotId != id
    ensures forall position: nat :: !IsOnly(repo, position, id)
  {
  }

  lemma CodeOfOnly(repo: Repository, current: Fact, entry: Entry, position: nat, code: ReuseError, fuel: nat)
    requires IsReused(entry) && entry.payload.value.reusedFrom.Some? && position < |repo.facts|
    requires Positions(repo.facts, entry.payload.value.reusedFrom.value, 0) == [position]
    ensures Justifies(repo, current, entry, code, fuel) <==> JustifiesAt(repo, current, entry, repo.facts[position], code, fuel)
  {
    OneIsOnly(repo, entry.payload.value.reusedFrom.value, position);
    hide JustifiedBy, Verify, Admissible, FirstAt;
    assert repo.facts[position].snapshotId == entry.payload.value.reusedFrom.value;
  }

  lemma AmbiguousIsNobody(repo: Repository, id: nat)
    requires |Positions(repo.facts, id, 0)| > 1
    ensures forall position: nat :: !IsOnly(repo, position, id)
    ensures exists i :: 0 <= i < |repo.facts| && repo.facts[i].snapshotId == id
  {
    var found := Positions(repo.facts, id, 0);
    assert repo.facts[found[0]].snapshotId == id;
    forall position: nat ensures !IsOnly(repo, position, id) {
      if IsOnly(repo, position, id) {
        PositionsFindUnique(repo.facts, id, 0, position);
      }
    }
  }

  /** Every reused entry of this Snapshot is backed. */
  ghost predicate AllBacked(repo: Repository, current: Fact, entries: seq<Entry>, fuel: nat) {
    forall i :: 0 <= i < |entries| && IsReused(entries[i]) ==> OneHopFromDirectRead(repo, current, entries[i], fuel)
  }

  /** A Snapshot has no reuse error exactly when each reused digest is one hop away from a direct read. */
  lemma {:induction false} AcceptedReuseIsOneHop(repo: Repository, current: Fact, entries: seq<Entry>, fuel: nat)
    ensures ReuseErrors(repo, current, entries, fuel) == Errors([]) <==> AllBacked(repo, current, entries, fuel)
  {
    hide EntryError, OneHopFromDirectRead;
    if entries != [] {
      AcceptedReuseIsOneHop(repo, current, entries[1..], fuel);
      NotReusedPasses(repo, current, entries[0], fuel);
      if IsReused(entries[0]) {
        PassesExactlyWhenBacked(repo, current, entries[0], fuel);
      }
      assert forall i :: 0 < i < |entries| ==> entries[i] == entries[1..][i - 1];
      assert AllBacked(repo, current, entries, fuel) <==>
               (IsReused(entries[0]) ==> OneHopFromDirectRead(repo, current, entries[0], fuel)) && AllBacked(repo, current, entries[1..], fuel);
    }
  }

  lemma NotReusedPasses(repo: Repository, current: Fact, entry: Entry, fuel: nat)
    ensures !IsReused(entry) ==> EntryError(repo, current, entry, fuel) == Errors([])
  {
  }

  /** What the index says of this Snapshot holds: its row points at an intrinsic document of its own
      identity, whose Run is consistent. */
  predicate RowStands(repo: Repository, id: nat) {
    && id in repo.index && repo.index[id].position < |repo.facts|
    && repo.facts[repo.index[id].position].intrinsic && repo.facts[repo.index[id].position].snapshotId == id
    && repo.index[id].identityOk && repo.index[id].runConsistent
  }

  /** Row, document and Run agree, and in a version 2 Snapshot all reused entries are backed. */
  ghost predicate Stands(repo: Repository, id: nat, fuel: nat) {
    && RowStands(repo, id)
    && var fact := repo.facts[repo.index[id].position];
       fact.schemaVersion == 2 ==> AllBacked(repo, fact, fact.entries, fuel)
  }

  /** Verification raises exactly when something its references lead to does. */
  lemma ReturnsExactlyWhenQuiet(repo: Repository, id: nat, fuel: nat)
    requires Verify(repo, id, fuel) != RECURSION_LIMIT
    ensures Returned(Verify(repo, id, fuel)) <==> !MayRaise(repo, id)
  {
    if Returned(Verify(repo, id, fuel)) && MayRaise(repo, id) {
      var walk :| IsWalk(repo, walk) && walk[0] == id && Troubled(repo, walk[|walk| - 1]);
      ReturnedIsQuiet(repo, id, fuel, walk);
    }
    if !MayRaise(repo, id) {
      QuietOrExhausted(repo, id, fuel);
    }
  }

  /** The verdict of a verification that returned, by what it found. */
  lemma VerdictMeans(repo: Repository, id: nat, fuel: nat)
    requires Verify(repo, id, fuel + 1) != RECURSION_LIMIT
    ensures Verify(repo, id, fuel + 1) in {VALID, INCOMPLETE} <==> Stands(repo, id, fuel)
    ensures Verify(repo, id, fuel + 1) == VALID <==> Stands(repo, id, fuel) && repo.index[id].rowsConsistent
    ensures Verify(repo, id, fuel + 1) == INVALID <==> Returned(Verify(repo, id, fuel + 1)) && !Stands(repo, id, fuel)
  {
    hide ReuseErrors, AllBacked;
    if id in repo.index && repo.index[id].position < |repo.facts| {
      var fact := repo.facts[repo.index[id].position];
      AcceptedReuseIsOneHop(repo, fact, fact.entries, fuel);
      RaisedIsNotReturned(repo, fact, fact.entries, fuel);
    }
  }

  // ------------------------------------------------------------------ the selector

  /** What the selector may use: intrinsic version 2 documents completed before this Snapshot began. */
  predicate IsCandidate(fact: Fact, startedAt: int) {
    fact.schemaVersion == 2 && fact.intrinsic && fact.completedAt <= startedAt
  }

  function Candidates(facts: seq<Fact>, startedAt: int): seq<Fact> {
    if facts == [] then []
    else Candidates(facts[..|facts| - 1], startedAt) + if IsCandidate(facts[|facts| - 1], startedAt) then [facts[|facts| - 1]] else []
  }

  lemma {:induction false} CandidatesFacts(facts: seq<Fact>, startedAt: int)
    ensures forall fact :: fact in Candidates(facts, startedAt) <==> fact in facts && IsCandidate(fact, startedAt)
  {
    if facts != [] {
      CandidatesFacts(facts[..|facts| - 1], startedAt);
      assert facts == facts[..|facts| - 1] + [facts[|facts| - 1]];
    }
  }

  /** The sort key: completion time, then creation time, then identity. */
  function Age(fact: Fact): (int, int, nat) {
    (fact.completedAt, fact.createdAt, fact.snapshotId)
  }

  predicate Newer(a: (int, int, nat), b: (int, int, nat)) {
    a.0 > b.0 || (a.0 == b.0 && (a.1 > b.1 || (a.1 == b.1 && a.2 > b.2)))
  }

  /** The candidates, newest first. */
  ghost predicate AreCandidates(repo: Repository, startedAt: int, candidates: seq<Fact>) {
    && multiset(candidates) == multiset(Candidates(repo.facts, startedAt))
    && Ordering.SortedBy(Newer, Age, candidates)
  }

  /** The observation the selector hands out for a source entry of a candidate. */
  function ReusedObservation(source: PayloadObservation, candidate: nat): PayloadObservation {
    source.(provenance := Some(REUSED_FROM_VERIFIED_SNAPSHOT), reusedFrom := Some(candidate))
  }

  datatype Resolution = Resolved(observation: PayloadObservation) | Unresolved | ResolutionRaised(verdict: Verdict)

  /** This candidate is VALID and holds an eligible direct read for the entry. */
  predicate Serves(repo: Repository, candidate: Fact, current: Entry, policy: HashPolicy, fuel: nat) {
    && Verify(repo, candidate.snapshotId, fuel) == VALID
    && FindEntry(candidate.entries, LocationOf(current)).Some?
    && DirectReuseSourceEligible(current, FindEntry(candidate.entries, LocationOf(current)).value, policy)
  }

  /** Candidate `k` is the first that serves, and `observation` is what it serves. */
  predicate ServedBy(repo: Repository, candidates: seq<Fact>, k: nat, current: Entry, policy: HashPolicy, fuel: nat,
                     observation: PayloadObservation)
    requires k < |candidates|
  {
    && Serves(repo, candidates[k], current, policy, fuel)
    && observation == ReusedObservation(FindEntry(candidates[k].entries, LocationOf(current)).value.payload.value, candidates[k].snapshotId)
    && forall j :: 0 <= j < k ==> !Serves(repo, candidates[j], current, policy, fuel)
  }

  /** The loop of `resolve`: the first serving candidate in the given order wins. */
  method FirstServing(repo: Repository, candidates: seq<Fact>, current: Entry, policy: HashPolicy, fuel: nat) returns (r: Resolution)
    ensures r.Resolved? ==> exists k :: 0 <= k < |candidates| && ServedBy(repo, candidates, k, current, policy, fuel, r.observation)
    ensures r.Unresolved? ==> forall k :: 0 <= k < |candidates| ==> !Serves(repo, candidates[k], current, policy, fuel)
    ensures r.ResolutionRaised? ==>
            !Returned(r.verdict) && exists k :: 0 <= k < |candidates| && Verify(repo, candidates[k].snapshotId, fuel) == r.verdict
  {
    for k := 0 to |candidates|
      invariant forall j :: 0 <= j < k ==> !Serves(repo, candidates[j], current, policy, fuel)
    {
      var candidate := candidates[k];
      var verification := Verify(repo, candidate.snapshotId, fuel);
      if !Returned(verification) {
        return ResolutionRaised(verification);
      }
      if verification != VALID {
        continue;
      }
      var source := FindEntry(candidate.entries, LocationOf(current));
      if source.None? || !DirectReuseSourceEligible(current, source.value, policy) {
        continue;
      }
      r := Resolved(ReusedObservation(source.value.payload.value, candidate.snapshotId));
      assert ServedBy(repo, candidates, k, current, policy, fuel, r.observation);
      return;
    }
    r := Unresolved;
  }

  /** `candidate` serves the entry, and no candidate of the repository that serves it is newer. */
  ghost predicate NewestServing(repo: Repository, startedAt: int, candidate: Fact, current: Entry, policy: HashPolicy, fuel: nat) {
    && candidate in repo.facts && IsCandidate(candidate, startedAt) && Serves(repo, candidate, current, policy, fuel)
    && forall other :: other in repo.facts && IsCandidate(other, startedAt) && Serves(repo, other, current, policy, fuel) ==>
         !Newer(Age(other), Age(candidate))
  }

  /** What a candidate offers for an entry: the payload of a complete direct read of the same file, marked as reused
      from this VALID Snapshot. */
  ghost predicate Offers(repo: Repository, candidate: Fact, current: Entry, policy: HashPolicy, observation: PayloadObservation, fuel: nat) {
    && Verify(repo, candidate.snapshotId, fuel) == VALID
    && observation.provenance == Some(REUSED_FROM_VERIFIED_SNAPSHOT) && observation.reusedFrom == Some(candidate.snapshotId)
    && exists k: nat :: FirstAt(candidate, current, k) && SameFile(current, candidate.entries[k])
                        && RepeatsDirectRead(current.(payload := Some(observation)), candidate.entries[k], policy)
  }

  /** A version 2 document that passed its checks and was completed before this Snapshot began. */
  ghost predicate MaySupply(repo: Repository, startedAt: int, candidate: Fact) {
    candidate in repo.facts && candidate.schemaVersion == 2 && candidate.intrinsic && candidate.completedAt <= startedAt
  }

  /** Completed later, or at the same time but created later, or else with the greater identity. */
  ghost predicate IsLater(a: Fact, b: Fact) {
    if a.completedAt != b.completedAt then a.completedAt > b.completedAt
    else if a.createdAt != b.createdAt then a.createdAt > b.createdAt
    else a.snapshotId > b.snapshotId
  }

  /** The offer of the latest document that has one. */
  ghost predicate LatestOffer(repo: Repository, startedAt: int, current: Entry, policy: HashPolicy, observation: PayloadObservation, fuel: nat) {
    exists candidate ::
      && MaySupply(repo, startedAt, candidate) && Offers(repo, candidate, current, policy, observation, fuel)
      && forall other, offer :: MaySupply(repo, startedAt, other) && Offers(repo, other, current, policy, offer, fuel) ==> !IsLater(other, candidate)
  }

  /** A candidate serves an entry exactly when it has an offer, and what is handed out is that offer. */
  lemma ServesWhatItOffers(repo: Repository, candidate: Fact, current: Entry, policy: HashPolicy, fuel: nat)
    ensures Serves(repo, candidate, current, policy, fuel) ==> Offers(repo, candidate, current, policy, HandedOut(candidate, current), fuel)
    ensures (exists observation :: Offers(repo, candidate, current, policy, observation, fuel)) ==> Serves(repo, candidate, current, policy, fuel)
  {
    hide Verify, FindEntry, IsHexDigest;
    FoundIsFirst(candidate, candidate.entries, current, 0);
    if Serves(repo, candidate, current, policy, fuel) {
      var k: nat :| FirstAt(candidate, current, k);
      assert SameFile(current, candidate.entries[k]);
      assert RepeatsDirectRead(current.(payload := Some(HandedOut(candidate, current))), candidate.entries[k], policy);
    }
  }

  lemma NewestIsLatest(repo: Repository, startedAt: int, candidate: Fact, current: Entry, policy: HashPolicy, fuel: nat)
    requires NewestServing(repo, startedAt, candidate, current, policy, fuel)
    ensures LatestOffer(repo, startedAt, current, policy, HandedOut(candidate, current), fuel)
  {
    ServesWhatItOffers(repo, candidate, current, policy, fuel);
    hide Serves, Offers, FindEntry;
    forall other, offer | MaySupply(repo, startedAt, other) && Offers(repo, other, current, policy, offer, fuel) ensures !IsLater(other, candidate) {
      ServesWhatItOffers(repo, other, current, policy, fuel);
      assert IsCandidate(other, startedAt);
      assert !Newer(Age(other), Age(candidate));
    }
  }

  lemma NothingOffered(repo: Repository, startedAt: int, current: Entry, policy: HashPolicy, fuel: nat)
    requires forall candidate :: candidate in repo.facts && IsCandidate(candidate, startedAt) ==> !Serves(repo, candidate, current, policy, fuel)
    ensures forall candidate, offer :: MaySupply(repo, startedAt, candidate) ==> !Offers(repo, candidate, current, policy, offer, fuel)
  {
    hide Serves, Offers;
    forall candidate, offer | MaySupply(repo, startedAt, candidate) ensures !Offers(repo, candidate, current, policy, offer, fuel) {
      ServesWhatItOffers(repo, candidate, current, policy, fuel);
    }
  }

  function HandedOut(candidate: Fact, current: Entry): PayloadObservation
    requires FindEntry(candidate.entries, LocationOf(current)).Some?
    requires FindEntry(candidate.entries, LocationOf(current)).value.payload.Some?
  {
    ReusedObservation(FindEntry(candidate.entries, LocationOf(current)).value.payload.value, candidate.snapshotId)
  }

  /** The selector of one Snapshot, with its memo of the candidates. */
  class VerifiedReuseSourceSelector {
    const startedAt: int
    const policy: HashPolicy
    var candidates: Option<seq<Fact>>

    /** The memo, if filled, holds the candidates of this repository. */
    ghost predicate Valid(repo: Repository)
      reads this
    {
      candidates.Some? ==> AreCandidates(repo, startedAt, candidates.value)
    }

    constructor (startedAt: int, policy: HashPolicy, ghost repo: Repository)
      ensures Valid(repo) && candidates == None && this.startedAt == startedAt && this.policy == policy
    {
      this.startedAt, this.policy, candidates := startedAt, policy, None;
    }

    /** `_load_candidates`: filled once, newest first. */
    method LoadCandidates(repo: Repository) returns (loaded: seq<Fact>)
      requires Valid(repo)
      modifies this
      ensures Valid(repo) && candidates == Some(loaded) && AreCandidates(repo, startedAt, loaded)
      ensures old(candidates).Some? ==> candidates == old(candidates)
    {
      if candidates.Some? {
        return candidates.value;
      }
      loaded := [];
      for i := 0 to |repo.facts|
        invariant loaded == Candidates(repo.facts[..i], startedAt)
      {
        assert repo.facts[..i + 1][..i] == repo.facts[..i];
        if IsCandidate(repo.facts[i], startedAt) {
          loaded := loaded + [repo.facts[i]];
        }
      }
      assert repo.facts[..|repo.facts|] == repo.facts;
      loaded := Ordering.SortBy(Newer, Age, loaded);
      candidates := Some(loaded);
    }

    /** `resolve`: the newest candidate that serves the entry; nothing exactly when none serves it. */
    method Resolve(repo: Repository, current: Entry, fuel: nat) returns (r: Resolution)
      requires Valid(repo)
      modifies this
      ensures Valid(repo)
      ensures r.Resolved? ==> LatestOffer(repo, startedAt, current, policy, r.observation, fuel)
      ensures r.Resolved? ==> exists candidate ::
                NewestServing(repo, startedAt, candidate, current, policy, fuel) && r.observation == HandedOut(candidate, current)
      ensures r.Unresolved? ==> forall candidate, offer :: MaySupply(repo, startedAt, candidate) ==> !Offers(repo, candidate, current, policy, offer, fuel)
      ensures r.ResolutionRaised? ==> !Returned(r.verdict) && exists candidate ::
                MaySupply(repo, startedAt, candidate) && Verify(repo, candidate.snapshotId, fuel) == r.verdict
    {
      hide Serves, Verify, Offers, LatestOffer;
      var loaded := LoadCandidates(repo);
      LoadedMembers(repo, startedAt, loaded);
      r := FirstServing(repo, loaded, current, policy, fuel);
      match r {
        case Resolved(observation) =>
          var k :| 0 <= k < |loaded| && ServedBy(repo, loaded, k, current, policy, fuel, observation);
          FirstIsNewest(repo, startedAt, loaded, k, current, policy, fuel, observation);
          NewestIsLatest(repo, startedAt, loaded[k], current, policy, fuel);
        case Unresolved =>
          NothingOffered(repo, startedAt, current, policy, fuel);
        case ResolutionRaised(verdict) =>
          var k :| 0 <= k < |loaded| && Verify(repo, loaded[k].snapshotId, fuel) == verdict;
          assert loaded[k] in loaded;
          assert MaySupply(repo, startedAt, loaded[k]);
      }
    }
  }

  lemma LoadedMembers(repo: Repository, startedAt: int, loaded: seq<Fact>)
    requires AreCandidates(repo, startedAt, loaded)
    ensures forall fact :: fact in loaded <==> fact in repo.facts && IsCandidate(fact, startedAt)
  {
    CandidatesFacts(repo.facts, startedAt);
    forall fact ensures fact in loaded <==> fact in Candidates(repo.facts, startedAt) {
      assert fact in loaded <==> fact in multiset(loaded);
    }
  }

  lemma FirstIsNewest(repo: Repository, startedAt: int, loaded: seq<Fact>, k: nat, current: Entry, policy: HashPolicy, fuel: nat,
                      observation: PayloadObservation)
    requires AreCandidates(repo, startedAt, loaded) && k < |loaded| && ServedBy(repo, loaded, k, current, policy, fuel, observation)
    ensures NewestServing(repo, startedAt, loaded[k], current, policy, fuel) && observation == HandedOut(loaded[k], current)
  {
    LoadedMembers(repo, startedAt, loaded);
    forall other | other in repo.facts && IsCandidate(other, startedAt) && Serves(repo, other, current, policy, fuel)
      ensures !Newer(Age(other), Age(loaded[k]))
    {
      var j :| 0 <= j < |loaded| && loaded[j] == other;
      assert j >= k;
    }
  }

  /** Selector and validator agree: on whatever the selector hands out for an entry, the validator of
      the finished Snapshot reports no error in the unchanged repository, if and only if the identity
      of the source occurs once. */
  lemma SelectorAgreesWithValidator(repo: Repository, current: Fact, entry: Entry, candidate: Fact, fuel: nat)
    requires candidate in repo.facts && IsCandidate(candidate, current.startedAt)
    requires Serves(repo, candidate, entry, current.policy, fuel)
    ensures EntryError(repo, current, entry.(payload := Some(HandedOut(candidate, entry))), fuel) == Errors([])
            <==> |Positions(repo.facts, candidate.snapshotId, 0)| == 1
  {
    var position :| 0 <= position < |repo.facts| && repo.facts[position] == candidate;
    PositionsHold(repo.facts, candidate.snapshotId, 0, position);
  }

  /** A Snapshot all of whose reused payloads came from the selector has no reuse error at all. */
  lemma {:induction false} ResolvedSnapshotHasNoErrors(repo: Repository, current: Fact, entries: seq<Entry>, fuel: nat)
    requires UniqueIdentities(repo)
    requires forall i :: 0 <= i < |entries| && IsReused(entries[i]) ==> FromSelector(repo, current, entries[i], fuel)
    ensures ReuseErrors(repo, current, entries, fuel) == Errors([])
  {
    if entries != [] {
      var entry := entries[0];
      if IsReused(entry) {
        assert FromSelector(repo, current, entries[0], fuel);
        var candidate :| NewestServing(repo, current.startedAt, candidate, entry, current.policy, fuel)
                         && entry.payload == Some(HandedOut(candidate, entry));
        var position :| 0 <= position < |repo.facts| && repo.facts[position] == candidate;
        PositionsFindUnique(repo.facts, candidate.snapshotId, 0, position);
        SelectorAgreesWithValidator(repo, current, entry, candidate, fuel);
        assert entry.(payload := Some(HandedOut(candidate, entry))) == entry;
      }
      forall i | 0 <= i < |entries[1..]| && IsReused(entries[1..][i]) ensures FromSelector(repo, current, entries[1..][i], fuel) {
        assert entries[1..][i] == entries[i + 1];
      }
      ResolvedSnapshotHasNoErrors(repo, current, entries[1..], fuel);
    }
  }

  /** The payload of this entry is what `resolve` hands out for it. */
  ghost predicate FromSelector(repo: Repository, current: Fact, entry: Entry, fuel: nat) {
    exists candidate :: NewestServing(repo, current.startedAt, candidate, entry, current.policy, fuel)
                        && entry.payload == Some(HandedOut(candidate, entry))
  }

  /** With a second document of the same identity the validator raises instead. */
  lemma AmbiguousSourceRaises(repo: Repository, current: Fact, entry: Entry, i: nat, j: nat, fuel: nat)
    requires i < j < |repo.facts| && repo.facts[i].snapshotId == repo.facts[j].snapshotId
    requires IsReused(entry) && entry.payload.value.reusedFrom == Some(repo.facts[i].snapshotId)
    ensures EntryError(repo, current, entry, fuel) == Raised(RAISED_AMBIGUOUS)
  {
    TwoPositions(repo.facts, repo.facts[i].snapshotId, 0, i, j);
  }

  lemma {:induction false} TwoPositions(facts: seq<Fact>, id: nat, from: nat, i: nat, j: nat)
    requires from <= i < j < |facts| && facts[i].snapshotId == id && facts[j].snapshotId == id
    ensures |Positions(facts, id, from)| >= 2
    decreases |facts| - from
  {
    if from < i {
      TwoPositions(facts, id, from + 1, i, j);
    } else {
      OnePosition(facts, id, from + 1, j);
    }
  }

  lemma {:induction false} OnePosition(facts: seq<Fact>, id: nat, from: nat, j: nat)
    requires from <= j < |facts| && facts[j].snapshotId == id
    ensures |Positions(facts, id, from)| >= 1
    decreases |facts| - from
  {
    if from < j {
      OnePosition(facts, id, from + 1, j);
    }
  }

  // ------------------------------------------------------------------ the checks as they run

  method FindSnapshotEvidence(facts: seq<Fact>, id: nat) returns (matches: seq<nat>)
    ensures matches == Positions(facts, id, 0)
  {
    matches := [];
    for i := 0 to |facts|
      invariant matches + Positions(facts, id, i) == Positions(facts, id, 0)
    {
      if facts[i].snapshotId == id {
        matches := matches + [i];
      }
    }
  }

  /** The body of the validator's loop for one entry; it calls the verifier of the source Snapshot,
      which calls the validator back. `fuel` is any depth at which the definition ends. */
  method CheckEntry(repo: Repository, current: Fact, entry: Entry, ghost fuel: nat) returns (checked: Checked)
    requires EntryError(repo, current, entry, fuel) != Raised(RECURSION_LIMIT)
    ensures checked == EntryError(repo, current, entry, fuel)
    decreases fuel, 1
  {
    hide ComparisonErrors, DirectReuseSourceEligible, Verify;
    if !IsReused(entry) {
      return Errors([]);
    }
    var matches: seq<nat> := [];
    if entry.payload.value.reusedFrom.Some? {
      matches := FindSnapshotEvidence(repo.facts, entry.payload.value.reusedFrom.value);
    }
    if |matches| > 1 {
      return Raised(RAISED_AMBIGUOUS);
    }
    if matches == [] {
      return Errors([SOURCE_MISSING]);
    }
    var source := repo.facts[matches[0]];
    if source.schemaVersion != 2 {
      return Errors([SOURCE_SCHEMA_UNSUPPORTED]);
    }
    if !source.intrinsic {
      return Errors([SOURCE_INVALID]);
    }
    if source.completedAt > current.startedAt {
      return Errors([SOURCE_NOT_EARLIER]);
    }
    var verification := VerifyRow(repo, source.snapshotId, fuel);
    if !Returned(verification) {
      return Raised(verification);
    }
    if verification != VALID {
      return Errors([SOURCE_INVALID]);
    }
    checked := Errors(ComparisonErrors(current, entry, FindEntry(source.entries, LocationOf(entry))));
  }

  /** `validate_snapshot_reuse_references`, accumulating errors entry by entry. */
  method ValidateReuseReferences(repo: Repository, current: Fact, ghost fuel: nat) returns (checked: Checked)
    requires ReuseErrors(repo, current, current.entries, fuel) != Raised(RECURSION_LIMIT)
    ensures checked == ReuseErrors(repo, current, current.entries, fuel)
    decreases fuel, 2
  {
    hide EntryError, Verify;
    var codes: seq<ReuseError> := [];
    for i := 0 to |current.entries|
      invariant ReuseErrors(repo, current, current.entries, fuel)
             == Prefixed(codes, ReuseErrors(repo, current, current.entries[i..], fuel))
    {
      assert current.entries[i..][1..] == current.entries[i + 1..];
      var one := CheckEntry(repo, current, current.entries[i], fuel);
      if one.Raised? {
        return one;
      }
      codes := codes + one.codes;
    }
    checked := Errors(codes);
  }

  function Prefixed(codes: seq<ReuseError>, rest: Checked): Checked {
    if rest.Raised? then rest else Errors(codes + rest.codes)
  }

  /** `_verify_snapshot` on one index row and its document. */
  method VerifyRow(repo: Repository, id: nat, ghost fuel: nat) returns (verdict: Verdict)
    requires Verify(repo, id, fuel) != RECURSION_LIMIT
    ensures verdict == Verify(repo, id, fuel)
    decreases fuel, 0
  {
    if id !in repo.index {
      return RAISED_NOT_FOUND;
    }
    var row := repo.index[id];
    if row.position >= |repo.facts| {
      return INVALID;
    }
    var fact := repo.facts[row.position];
    var checked := Errors([]);
    if fact.intrinsic && fact.schemaVersion == 2 {
      checked := ValidateReuseReferences(repo, fact, fuel - 1);
    }
    if checked.Raised? {
      return checked.verdict;
    }
    if !fact.intrinsic || checked.codes != [] || !row.identityOk || fact.snapshotId != id || !row.runConsistent {
      return INVALID;
    }
    verdict := if row.rowsConsistent then VALID else INCOMPLETE;
  }

  /** `verify_snapshot`: wherever the stored documents and rows do not run into a cycle it ends, with
      the verdict that every sufficient depth gives. */
  method VerifySnapshot(repo: Repository, id: nat) returns (verdict: Verdict)
    requires !RunsIntoCycle(repo, id)
    ensures verdict != RECURSION_LIMIT
    ensures forall fuel: nat :: fuel > |repo.index| ==> verdict == Verify(repo, id, fuel)
    // it returns exactly when nothing reachable raises, and then says what it found
    ensures Returned(verdict) <==> !MayRaise(repo, id)
    ensures id !in repo.index ==> verdict == RAISED_NOT_FOUND
    ensures verdict in {VALID, INCOMPLETE} <==> Stands(repo, id, |repo.index|)
    ensures verdict == VALID <==> Stands(repo, id, |repo.index|) && repo.index[id].rowsConsistent
    ensures verdict == INVALID <==> !MayRaise(repo, id) && !Stands(repo, id, |repo.index|)
  {
    VerificationEndsExactlyWithoutCycle(repo, id);
    VerdictMeans(repo, id, |repo.index|);
    ReturnsExactlyWhenQuiet(repo, id, |repo.index| + 1);
    verdict := VerifyRow(repo, id, |repo.index| + 1);
    forall fuel: nat | fuel > |repo.index| ensures verdict == Verify(repo, id, fuel) {
      MoreFuelSameVerdict(repo, id, |repo.index| + 1, fuel);
    }
  }
}
