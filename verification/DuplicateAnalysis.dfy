/** Groups of equal payloads within one Snapshot, the storage behind them, and what is left unknown.
    Locations are unique, so a list of entries kept in reference order is modelled as a set. */
module DuplicateAnalysis {
  import opened Options
  import opened SnapshotEntries
  import opened Buckets

  /** Digest and logical size; the algorithm is always SHA-256 version 1. */
  datatype PayloadKey = PayloadKey(digest: string, size: nat)

  /** Device and inode: a hint that two paths name one object. */
  datatype Hint = Hint(device: nat, inode: nat)

  datatype StorageUnit =
    | KnownUnit(hint: Hint, members: set<Location>, conflicted: bool, allocation: Option<nat>)
    | UnknownUnit(member: Location)

  datatype Group = Group(
    key: PayloadKey, members: set<Location>, units: set<StorageUnit>, knownUnits: nat, unknownUnits: nat,
    exact: bool, pathBytes: nat, knownUnitBytes: nat, redundantBytes: Option<nat>)

  datatype AliasSet = AliasSet(hint: Hint, members: set<Location>)

  datatype ConflictCode =
    | OBJECT_HINT_PAYLOAD_CONFLICT | OBJECT_HINT_SIZE_CONFLICT | LINK_COUNT_CONFLICT | ALLOCATED_SIZE_CONFLICT | PAYLOAD_SIZE_CONFLICT

  datatype Conflict = Conflict(code: ConflictCode, entries: set<Location>)

  datatype Coverage = Coverage(entries: nat, regular: nat, analyzable: nat, unknown: nat, analyzableBytes: nat, unknownBytes: nat)

  datatype Analysis = Analysis(groups: set<Group>, aliases: set<AliasSet>, conflicts: set<Conflict>, coverage: Coverage,
                               allocations: map<Hint, Option<nat>>, unknownMemberships: nat)

  predicate Regular(e: Entry) {
    e.objectType == REGULAR_FILE
  }

  predicate Countable(e: Entry) {
    Regular(e) && e.observation == OBSERVED && !e.excluded
  }

  function HintOf(e: Entry): Option<Hint> {
    if e.deviceId.None? || e.inode.None? then None else Some(Hint(e.deviceId.value, e.inode.value))
  }

  function PayloadKeyOf(e: Entry, reusedVerified: bool): Option<PayloadKey> {
    if e.payload.None? || !Countable(e) then None
    else
      var p := e.payload.value;
      if p.status != HASHED && p.status != EMPTY_FILE_HASHED then None
      else if p.algorithm != Some("sha256") || p.algorithmVersion != Some(1) then None
      else if p.digest.None? || !IsHexDigest(p.digest.value) then None
      else if e.sizeBytes.None? || p.bytesHashed != e.sizeBytes then None
      else if p.provenance == Some(DIRECT_READ) then Some(PayloadKey(p.digest.value, e.sizeBytes.value))
      else if p.provenance == Some(REUSED_FROM_VERIFIED_SNAPSHOT) && reusedVerified && p.reusedFrom.Some?
      then Some(PayloadKey(p.digest.value, e.sizeBytes.value))
      else None
  }

  // ------------------------------------------------------------------ what the analysis must say

  function Locations(entries: set<Entry>): set<Location> {
    set e | e in entries :: LocationOf(e)
  }

  /** All countable paths of one object. */
  function OfHint(all: set<Entry>, hint: Hint): set<Entry> {
    set e | e in all && Countable(e) && HintOf(e) == Some(hint)
  }

  function OfKey(all: set<Entry>, verified: bool, key: PayloadKey): set<Entry> {
    set e | e in all && PayloadKeyOf(e, verified) == Some(key)
  }

  function OfDigest(all: set<Entry>, verified: bool, digest: string): set<Entry> {
    set e | e in all && PayloadKeyOf(e, verified).Some? && PayloadKeyOf(e, verified).value.digest == digest
  }

  function Hints(all: set<Entry>): set<Hint> {
    set e | e in all && Countable(e) && HintOf(e).Some? :: HintOf(e).value
  }

  function Keys(all: set<Entry>, verified: bool): set<PayloadKey> {
    set e | e in all && PayloadKeyOf(e, verified).Some? :: PayloadKeyOf(e, verified).value
  }

  function Digests(all: set<Entry>, verified: bool): set<string> {
    set e | e in all && PayloadKeyOf(e, verified).Some? :: PayloadKeyOf(e, verified).value.digest
  }

  function SizesOf(entries: set<Entry>): set<nat> {
    set e | e in entries && e.sizeBytes.Some? :: e.sizeBytes.value
  }

  function AllocationsOf(entries: set<Entry>): set<nat> {
    set e | e in entries && e.payload.Some? && e.allocatedSize.Some? :: e.allocatedSize.value
  }

  function CodesOf(members: set<Entry>, verified: bool): set<ConflictCode> {
    (if |Keys(members, verified)| > 1 then {OBJECT_HINT_PAYLOAD_CONFLICT} else {})
    + (if |SizesOf(members)| > 1 then {OBJECT_HINT_SIZE_CONFLICT} else {})
    + (if exists e :: e in members && e.linkCount.Some? && e.linkCount.value < |members| then {LINK_COUNT_CONFLICT} else {})
    + (if |AllocationsOf(members)| > 1 then {ALLOCATED_SIZE_CONFLICT} else {})
  }

  /** Several paths of one object disagree about it. */
  predicate Conflicted(all: set<Entry>, verified: bool, hint: Hint) {
    |OfHint(all, hint)| >= 2 && CodesOf(OfHint(all, hint), verified) != {}
  }

  /** One digest stands for contents of different sizes. */
  predicate SizesDisagree(all: set<Entry>, verified: bool, digest: string) {
    exists a, b :: a in OfDigest(all, verified, digest) && b in OfDigest(all, verified, digest) && a.sizeBytes != b.sizeBytes
  }

  function Single(values: set<nat>): Option<nat>
    ensures Single(values).Some? <==> |values| == 1
    ensures Single(values).Some? ==> values == {Single(values).value}
  {
    if |values| == 1 then
      var v :| v in values;
      assert |values - {v}| == 0;
      Some(v)
    else None
  }

  function UnitOf(all: set<Entry>, verified: bool, members: set<Entry>, hint: Hint): StorageUnit {
    KnownUnit(hint, Locations(OfHint(all, hint)), Conflicted(all, verified, hint),
              if |OfHint(members, hint)| == |OfHint(all, hint)| then Single(AllocationsOf(OfHint(members, hint))) else None)
  }

  function UnknownMembers(members: set<Entry>): set<Entry> {
    set e | e in members && HintOf(e).None?
  }

  function ConflictedIn(all: set<Entry>, verified: bool, hints: set<Hint>): set<Hint> {
    set h | h in hints && Conflicted(all, verified, h)
  }

  function UnitsIn(all: set<Entry>, verified: bool, members: set<Entry>, hints: set<Hint>): set<StorageUnit> {
    (set h | h in hints :: UnitOf(all, verified, members, h)) + (set e | e in UnknownMembers(members) :: UnknownUnit(LocationOf(e)))
  }

  /** The derived figures of a group: a redundant figure only when every storage unit is certain. */
  function Figures(key: PayloadKey, members: set<Location>, paths: nat, units: set<StorageUnit>, known: nat, unknown: nat, clean: bool): Group {
    Group(key, members, units, known, unknown, known >= 2, key.size * paths, key.size * known,
          if known >= 2 && unknown == 0 && clean then Some(key.size * (known - 1)) else None)
  }

  /** The group of one key: its paths, one storage unit per object behind them, and what could be freed. */
  function GroupOf(all: set<Entry>, verified: bool, key: PayloadKey): Group {
    var members := OfKey(all, verified, key);
    var hints := Hints(members);
    var conflicted := ConflictedIn(all, verified, hints);
    Figures(key, Locations(members), |members|, UnitsIn(all, verified, members, hints), |hints - conflicted|, |UnknownMembers(members)|, conflicted == {})
  }

  function GroupsIn(all: set<Entry>, verified: bool, keys: set<PayloadKey>): set<Group> {
    set key | key in keys && |OfKey(all, verified, key)| >= 2 :: GroupOf(all, verified, key)
  }

  /** The keys whose digest has one size. */
  function SoundKeys(all: set<Entry>, verified: bool): set<PayloadKey> {
    set key | key in Keys(all, verified) && !SizesDisagree(all, verified, key.digest)
  }

  function AliasesIn(all: set<Entry>, hints: set<Hint>): set<AliasSet> {
    set h | h in hints && |OfHint(all, h)| >= 2 :: AliasSet(h, Locations(OfHint(all, h)))
  }

  function HintConflictsIn(all: set<Entry>, verified: bool, hints: set<Hint>): set<Conflict> {
    set h, code | h in hints && |OfHint(all, h)| >= 2 && code in CodesOf(OfHint(all, h), verified) ::
      Conflict(code, Locations(OfHint(all, h)))
  }

  function SizeConflictsIn(all: set<Entry>, verified: bool, digests: set<string>): set<Conflict> {
    set d | d in digests && SizesDisagree(all, verified, d) :: Conflict(PAYLOAD_SIZE_CONFLICT, Locations(OfDigest(all, verified, d)))
  }

  /** The allocation the physical summary counts for one object. */
  function CountedAllocation(all: set<Entry>, verified: bool, hint: Hint): Option<nat> {
    var values := AllocationsOf(OfHint(all, hint));
    if !Conflicted(all, verified, hint) && |values| == |OfHint(all, hint)| then Single(values) else None
  }

  function SizeOrZero(e: Entry): nat {
    if e.sizeBytes.Some? then e.sizeBytes.value else 0
  }

  ghost function CountOf(entries: seq<Entry>, counted: Entry -> bool): nat {
    if entries == [] then 0 else CountOf(entries[..|entries| - 1], counted) + if counted(entries[|entries| - 1]) then 1 else 0
  }

  ghost function BytesOf(entries: seq<Entry>, counted: Entry -> bool): nat {
    if entries == [] then 0
    else BytesOf(entries[..|entries| - 1], counted) + if counted(entries[|entries| - 1]) then SizeOrZero(entries[|entries| - 1]) else 0
  }

  predicate Analyzable(e: Entry, verified: bool) {
    PayloadKeyOf(e, verified).Some?
  }

  ghost function CoverageOf(entries: seq<Entry>, verified: bool): Coverage {
    var known := (e: Entry) => Analyzable(e, verified);
    var unknown := (e: Entry) => Regular(e) && !Analyzable(e, verified);
    Coverage(|entries|, CountOf(entries, Regular), CountOf(entries, known), CountOf(entries, unknown), BytesOf(entries, known), BytesOf(entries, unknown))
  }

  function Hintless(all: set<Entry>): set<Entry> {
    set e | e in all && Countable(e) && HintOf(e).None?
  }

  function AllocationTable(all: set<Entry>, verified: bool, hints: set<Hint>): map<Hint, Option<nat>> {
    map h | h in hints :: CountedAllocation(all, verified, h)
  }

  ghost function AnalysisOf(entries: seq<Entry>, verified: bool): Analysis {
    var all := Members(entries);
    Analysis(GroupsIn(all, verified, SoundKeys(all, verified)), AliasesIn(all, Hints(all)),
             HintConflictsIn(all, verified, Hints(all)) + SizeConflictsIn(all, verified, Digests(all, verified)), CoverageOf(entries, verified),
             AllocationTable(all, verified, Hints(all)),
             |Hintless(all)|)
  }

  // ------------------------------------------------------------------ the computation

  // The three indexes, as sets of all entries.

  function CountableHint(e: Entry): Option<Hint> {
    if Countable(e) then HintOf(e) else None
  }

  ghost predicate HintIndex(all: set<Entry>, byHint: map<Hint, set<Entry>>) {
    byHint.Keys == Hints(all) && forall h :: h in byHint ==> byHint[h] == OfHint(all, h)
  }

  ghost predicate DigestIndex(all: set<Entry>, verified: bool, byDigest: map<string, set<Entry>>) {
    byDigest.Keys == Digests(all, verified) && forall d :: d in byDigest ==> byDigest[d] == OfDigest(all, verified, d)
  }

  ghost predicate PayloadIndex(all: set<Entry>, verified: bool, byPayload: map<PayloadKey, set<Entry>>) {
    byPayload.Keys == SoundKeys(all, verified) && forall k :: k in byPayload ==> byPayload[k] == OfKey(all, verified, k)
  }

  function DigestKey(e: Entry, verified: bool): Option<string> {
    if PayloadKeyOf(e, verified).Some? then Some(PayloadKeyOf(e, verified).value.digest) else None
  }

  method IndexByHint(entries: seq<Entry>) returns (byHint: map<Hint, set<Entry>>)
    ensures HintIndex(Members(entries), byHint)
  {
    byHint := Bucket(entries, CountableHint);
    ghost var all := Members(entries);
    forall h ensures WithKey(entries, CountableHint, h) == OfHint(all, h) {
    }
    forall h ensures h in byHint <==> h in Hints(all) {
      if h in Hints(all) {
        var e :| e in all && Countable(e) && HintOf(e).Some? && HintOf(e).value == h;
        assert e in OfHint(all, h);
      }
      if h in byHint {
        var e :| e in WithKey(entries, CountableHint, h);
      }
    }
  }

  method IndexByDigest(entries: seq<Entry>, verified: bool) returns (byDigest: map<string, set<Entry>>)
    ensures DigestIndex(Members(entries), verified, byDigest)
  {
    ghost var all := Members(entries);
    var keyOf := (e: Entry) => DigestKey(e, verified);
    byDigest := Bucket(entries, keyOf);
    forall d ensures WithKey(entries, keyOf, d) == OfDigest(all, verified, d) {
    }
    forall d ensures d in byDigest <==> d in Digests(all, verified) {
      if d in Digests(all, verified) {
        var e :| e in all && PayloadKeyOf(e, verified).Some? && PayloadKeyOf(e, verified).value.digest == d;
        assert e in OfDigest(all, verified, d);
      }
      if d in byDigest {
        var e :| e in WithKey(entries, keyOf, d);
      }
    }
  }

  predicate DistinctLocations(all: set<Entry>) {
    forall a, b :: a in all && b in all && LocationOf(a) == LocationOf(b) ==> a == b
  }

  /** The locations of all entries with one of the given digests that stands for several sizes. */
  ghost predicate IsConflicting(all: set<Entry>, verified: bool, digests: set<string>, locations: set<Location>) {
    forall e :: e in all ==> (LocationOf(e) in locations <==> HasConflictingDigest(all, verified, digests, e))
  }

  predicate HasConflictingDigest(all: set<Entry>, verified: bool, digests: set<string>, e: Entry) {
    Analyzable(e, verified) && PayloadKeyOf(e, verified).value.digest in digests
    && SizesDisagree(all, verified, PayloadKeyOf(e, verified).value.digest)
  }

  /** The second pass: only entries whose digest has one size. */
  method IndexByPayload(entries: seq<Entry>, verified: bool, conflicting: set<Location>) returns (byPayload: map<PayloadKey, set<Entry>>)
    requires IsConflicting(Members(entries), verified, Digests(Members(entries), verified), conflicting)
    ensures PayloadIndex(Members(entries), verified, byPayload)
  {
    hide SizesDisagree;
    ghost var all := Members(entries);
    var keyOf := (e: Entry) => if LocationOf(e) !in conflicting then PayloadKeyOf(e, verified) else None;
    byPayload := Bucket(entries, keyOf);
    forall k: PayloadKey | !SizesDisagree(all, verified, k.digest) ensures WithKey(entries, keyOf, k) == OfKey(all, verified, k) {
    }
    forall k ensures k in byPayload <==> k in Keys(all, verified) && !SizesDisagree(all, verified, k.digest) {
      if k in Keys(all, verified) && !SizesDisagree(all, verified, k.digest) {
        var e :| e in all && PayloadKeyOf(e, verified).Some? && PayloadKeyOf(e, verified).value == k;
        assert e in OfKey(all, verified, k);
      }
      if k in byPayload {
        var e :| e in WithKey(entries, keyOf, k);
        assert e in all;
      }
    }
  }

  // The loops over the indexes.

  lemma NothingYet(all: set<Entry>, verified: bool)
    ensures HintConflictsIn(all, verified, {}) == {} && AliasesIn(all, {}) == {} && ConflictedIn(all, verified, {}) == {}
    ensures SizeConflictsIn(all, verified, {}) == {} && IsConflicting(all, verified, {}, {})
    ensures GroupsIn(all, verified, {}) == {} && AllocationTable(all, verified, {}) == map[]
  {
  }

  lemma OneMoreHint(all: set<Entry>, verified: bool, hints: set<Hint>, h: Hint)
    ensures AliasesIn(all, hints + {h}) == AliasesIn(all, hints)
            + if |OfHint(all, h)| >= 2 then {AliasSet(h, Locations(OfHint(all, h)))} else {}
    ensures ConflictedIn(all, verified, hints + {h}) == ConflictedIn(all, verified, hints) + if Conflicted(all, verified, h) then {h} else {}
  {
    hide OfHint, Conflicted, Locations;
  }

  function ConflictsOf(codes: set<ConflictCode>, members: set<Entry>): set<Conflict> {
    set code | code in codes :: Conflict(code, Locations(members))
  }

  lemma ConflictedMeans(all: set<Entry>, verified: bool, h: Hint)
    ensures Conflicted(all, verified, h) <==> |OfHint(all, h)| >= 2 && CodesOf(OfHint(all, h), verified) != {}
  {
  }

  lemma OneMoreHintConflict(all: set<Entry>, verified: bool, hints: set<Hint>, h: Hint)
    ensures HintConflictsIn(all, verified, hints + {h}) == HintConflictsIn(all, verified, hints)
            + if |OfHint(all, h)| >= 2 then ConflictsOf(CodesOf(OfHint(all, h), verified), OfHint(all, h)) else {}
  {
    hide CodesOf, OfHint, Locations;
    var more, added := HintConflictsIn(all, verified, hints + {h}), ConflictsOf(CodesOf(OfHint(all, h), verified), OfHint(all, h));
    forall c ensures c in more <==> c in HintConflictsIn(all, verified, hints) || (|OfHint(all, h)| >= 2 && c in added) {
    }
  }

  method FindHintConflicts(ghost all: set<Entry>, verified: bool, byHint: map<Hint, set<Entry>>)
    returns (conflicts: set<Conflict>, conflicted: set<Hint>, aliases: set<AliasSet>)
    requires HintIndex(all, byHint)
    ensures conflicts == HintConflictsIn(all, verified, byHint.Keys) && aliases == AliasesIn(all, byHint.Keys)
    ensures conflicted == ConflictedIn(all, verified, byHint.Keys)
  {
    hide CodesOf, OfHint, Locations, Hints, HintConflictsIn, AliasesIn, ConflictedIn, Conflicted, ConflictsOf;
    conflicts, conflicted, aliases := {}, {}, {};
    NothingYet(all, verified);
    ghost var done: set<Hint> := {};
    var todo := byHint.Keys;
    while todo != {}
      invariant done + todo == byHint.Keys
      invariant conflicts == HintConflictsIn(all, verified, done) && aliases == AliasesIn(all, done)
      invariant conflicted == ConflictedIn(all, verified, done)
    {
      var hint :| hint in todo;
      OneMoreHint(all, verified, done, hint);
      assert Conflicted(all, verified, hint) <==> |byHint[hint]| >= 2 && CodesOf(byHint[hint], verified) != {} by { ConflictedMeans(all, verified, hint); }
      OneMoreHintConflict(all, verified, done, hint);
      todo, done := todo - {hint}, done + {hint};
      var members := byHint[hint];
      if |members| < 2 {
        continue;
      }
      aliases := aliases + {AliasSet(hint, Locations(members))};
      var codes := CodesOf(members, verified);
      conflicts := conflicts + ConflictsOf(codes, members);
      if codes != {} {
        conflicted := conflicted + {hint};
      }
    }
    assert done == byHint.Keys;
  }

  lemma OneMoreDigest(all: set<Entry>, verified: bool, digests: set<string>, d: string, conflicting: set<Location>)
    requires IsConflicting(all, verified, digests, conflicting) && DistinctLocations(all)
    ensures SizeConflictsIn(all, verified, digests + {d}) == SizeConflictsIn(all, verified, digests)
            + if SizesDisagree(all, verified, d) then {Conflict(PAYLOAD_SIZE_CONFLICT, Locations(OfDigest(all, verified, d)))} else {}
    ensures if SizesDisagree(all, verified, d) then IsConflicting(all, verified, digests + {d}, conflicting + Locations(OfDigest(all, verified, d)))
            else IsConflicting(all, verified, digests + {d}, conflicting)
  {
    hide SizesDisagree, PayloadKeyOf;
    var more := conflicting + if SizesDisagree(all, verified, d) then Locations(OfDigest(all, verified, d)) else {};
    forall e | e in all ensures LocationOf(e) in more <==> HasConflictingDigest(all, verified, digests + {d}, e) {
    }
  }

  method FindSizeConflicts(ghost all: set<Entry>, verified: bool, byDigest: map<string, set<Entry>>)
    returns (conflicts: set<Conflict>, conflicting: set<Location>)
    requires DigestIndex(all, verified, byDigest) && DistinctLocations(all)
    ensures conflicts == SizeConflictsIn(all, verified, byDigest.Keys) && IsConflicting(all, verified, byDigest.Keys, conflicting)
  {
    hide SizesDisagree, OfDigest, Locations, Digests, SizeConflictsIn, IsConflicting, SizesOf, PayloadKeyOf;
    conflicts, conflicting := {}, {};
    NothingYet(all, verified);
    ghost var done: set<string> := {};
    var todo := byDigest.Keys;
    while todo != {}
      invariant done + todo == byDigest.Keys
      invariant conflicts == SizeConflictsIn(all, verified, done) && IsConflicting(all, verified, done, conflicting)
    {
      var digest :| digest in todo;
      OneMoreDigest(all, verified, done, digest, conflicting);
      OneSizeOrMore(all, verified, digest);
      todo, done := todo - {digest}, done + {digest};
      var members := byDigest[digest];
      if |SizesOf(members)| > 1 {
        conflicts := conflicts + {Conflict(PAYLOAD_SIZE_CONFLICT, Locations(members))};
        conflicting := conflicting + Locations(members);
      }
    }
    assert done == byDigest.Keys;
  }

  lemma OneSizeOrMore(all: set<Entry>, verified: bool, digest: string)
    ensures |SizesOf(OfDigest(all, verified, digest))| > 1 <==> SizesDisagree(all, verified, digest)
  {
    var members := OfDigest(all, verified, digest);
    var sizes := SizesOf(members);
    if SizesDisagree(all, verified, digest) {
      var a, b :| a in members && b in members && a.sizeBytes != b.sizeBytes;
      assert {a.sizeBytes.value, b.sizeBytes.value} <= sizes;
      AtLeast(sizes, {a.sizeBytes.value, b.sizeBytes.value});
    } else if sizes != {} {
      var n :| n in sizes;
      assert sizes == {n};
    }
  }

  lemma AtLeast<T>(large: set<T>, small: set<T>)
    requires small <= large
    ensures |small| <= |large|
  {
    assert large == small + (large - small);
  }

  lemma OneMoreUnit(all: set<Entry>, verified: bool, members: set<Entry>, hints: set<Hint>, h: Hint)
    ensures UnitsIn(all, verified, members, hints + {h}) == UnitsIn(all, verified, members, hints) + {UnitOf(all, verified, members, h)}
  {
    hide UnitOf;
  }

  method MakeUnit(ghost all: set<Entry>, verified: bool, members: set<Entry>, hint: Hint,
                  byHint: map<Hint, set<Entry>>, conflicted: set<Hint>) returns (unit: StorageUnit)
    requires HintIndex(all, byHint) && hint in Hints(all)
    requires conflicted == ConflictedIn(all, verified, Hints(all))
    ensures unit == UnitOf(all, verified, members, hint)
  {
    hide Hints, OfHint, AllocationsOf, Conflicted, Locations;
    var sameObject, references := OfHint(members, hint), byHint[hint];
    unit := KnownUnit(hint, Locations(references), hint in conflicted,
                      if |sameObject| == |references| then Single(AllocationsOf(sameObject)) else None);
  }

  lemma CountUnit<T>(done: set<T>, conflicted: set<T>, hint: T)
    requires hint !in done
    ensures hint in conflicted ==> (done + {hint}) - conflicted == done - conflicted && hint in (done + {hint}) * conflicted
    ensures hint !in conflicted ==> |(done + {hint}) - conflicted| == |done - conflicted| + 1 && (done + {hint}) * conflicted == done * conflicted
  {
    if hint !in conflicted {
      assert (done + {hint}) - conflicted == (done - conflicted) + {hint};
    }
  }

  function UnknownUnits(members: set<Entry>): set<StorageUnit> {
    set e | e in UnknownMembers(members) :: UnknownUnit(LocationOf(e))
  }

  lemma NoKnownUnits(all: set<Entry>, verified: bool, members: set<Entry>)
    ensures UnitsIn(all, verified, members, {}) == UnknownUnits(members)
  {
  }

  /** The loop over the objects behind a group: units are appended and counted. */
  method MakeUnits(ghost all: set<Entry>, verified: bool, members: set<Entry>, byHint: map<Hint, set<Entry>>, conflicted: set<Hint>)
    returns (units: set<StorageUnit>, known: nat, hasConflict: bool)
    requires HintIndex(all, byHint) && Hints(members) <= Hints(all)
    requires conflicted == ConflictedIn(all, verified, Hints(all))
    ensures units == UnitsIn(all, verified, members, Hints(members))
    ensures known == |Hints(members) - conflicted| && (hasConflict <==> Hints(members) * conflicted != {})
  {
    hide UnitsIn, Hints, ConflictedIn, HintIndex, UnitOf, UnknownUnits;
    units := UnknownUnits(members);
    NoKnownUnits(all, verified, members);
    known, hasConflict := 0, false;
    ghost var done: set<Hint> := {};
    var todo := Hints(members);
    while todo != {}
      invariant done + todo == Hints(members) && done !! todo
      invariant units == UnitsIn(all, verified, members, done)
      invariant known == |done - conflicted|
      invariant hasConflict <==> done * conflicted != {}
    {
      var hint :| hint in todo;
      OneMoreUnit(all, verified, members, done, hint);
      CountUnit(done, conflicted, hint);
      var unit := MakeUnit(all, verified, members, hint, byHint, conflicted);
      units := units + {unit};
      if hint in conflicted {
        hasConflict := true;
      } else {
        known := known + 1;
      }
      todo, done := todo - {hint}, done + {hint};
    }
    assert done == Hints(members);
  }

  /** One group of the entries that share a key. */
  method MakeGroup(ghost all: set<Entry>, verified: bool, key: PayloadKey, members: set<Entry>,
                   byHint: map<Hint, set<Entry>>, conflicted: set<Hint>) returns (group: Group)
    requires HintIndex(all, byHint) && members == OfKey(all, verified, key)
    requires conflicted == ConflictedIn(all, verified, Hints(all))
    ensures group == GroupOf(all, verified, key)
  {
    hide UnitsIn, Hints, ConflictedIn, HintIndex, OfKey, Figures, Locations, UnknownMembers, GroupOf;
    MemberHints(all, verified, key);
    GroupAssembled(all, verified, key, conflicted);
    var units, known, hasConflict := MakeUnits(all, verified, members, byHint, conflicted);
    group := Figures(key, Locations(members), |members|, units, known, |UnknownMembers(members)|, !hasConflict);
  }

  lemma GroupAssembled(all: set<Entry>, verified: bool, key: PayloadKey, conflicted: set<Hint>)
    requires conflicted == ConflictedIn(all, verified, Hints(all))
    ensures var members := OfKey(all, verified, key); var hints := Hints(members);
            GroupOf(all, verified, key) == Figures(key, Locations(members), |members|, UnitsIn(all, verified, members, hints),
                                                   |hints - conflicted|, |UnknownMembers(members)|, hints * conflicted == {})
  {
    MemberHints(all, verified, key);
  }

  /** The objects behind a group are objects of the Snapshot, conflicted exactly when those are. */
  lemma MemberHints(all: set<Entry>, verified: bool, key: PayloadKey)
    ensures Hints(OfKey(all, verified, key)) <= Hints(all)
    ensures var hints := Hints(OfKey(all, verified, key)); var conflicted := ConflictedIn(all, verified, Hints(all));
            ConflictedIn(all, verified, hints) == hints * conflicted && hints - hints * conflicted == hints - conflicted
  {
    hide Conflicted;
  }

  lemma OneMoreGroup(all: set<Entry>, verified: bool, keys: set<PayloadKey>, key: PayloadKey)
    ensures GroupsIn(all, verified, keys + {key}) == GroupsIn(all, verified, keys)
            + if |OfKey(all, verified, key)| >= 2 then {GroupOf(all, verified, key)} else {}
  {
    hide OfKey, GroupOf;
  }

  method MakeGroups(ghost all: set<Entry>, verified: bool, byPayload: map<PayloadKey, set<Entry>>,
                    byHint: map<Hint, set<Entry>>, conflicted: set<Hint>) returns (groups: set<Group>)
    requires PayloadIndex(all, verified, byPayload) && HintIndex(all, byHint)
    requires conflicted == ConflictedIn(all, verified, Hints(all))
    ensures groups == GroupsIn(all, verified, byPayload.Keys)
  {
    hide OfKey, GroupOf, GroupsIn, ConflictedIn, HintIndex, SoundKeys, Hints;
    groups := {};
    NothingYet(all, verified);
    ghost var done: set<PayloadKey> := {};
    var todo := byPayload.Keys;
    while todo != {}
      invariant done + todo == byPayload.Keys && groups == GroupsIn(all, verified, done)
    {
      var key :| key in todo;
      OneMoreGroup(all, verified, done, key);
      todo, done := todo - {key}, done + {key};
      var members := byPayload[key];
      if |members| < 2 {
        continue;
      }
      var group := MakeGroup(all, verified, key, members, byHint, conflicted);
      groups := groups + {group};
    }
    assert done == byPayload.Keys;
  }

  lemma OneMoreAllocation(all: set<Entry>, verified: bool, hints: set<Hint>, h: Hint)
    ensures AllocationTable(all, verified, hints + {h}) == AllocationTable(all, verified, hints)[h := CountedAllocation(all, verified, h)]
    ensures h in Hints(all) ==> (h in ConflictedIn(all, verified, Hints(all)) <==> Conflicted(all, verified, h))
  {
    hide CountedAllocation, Conflicted, Hints;
  }

  method CountAllocations(ghost all: set<Entry>, verified: bool, byHint: map<Hint, set<Entry>>, conflicted: set<Hint>)
    returns (allocations: map<Hint, Option<nat>>)
    requires HintIndex(all, byHint) && conflicted == ConflictedIn(all, verified, Hints(all))
    ensures allocations == AllocationTable(all, verified, byHint.Keys)
  {
    hide OfHint, AllocationsOf, Conflicted, Hints, ConflictedIn, AllocationTable;
    allocations := map[];
    NothingYet(all, verified);
    ghost var done: set<Hint> := {};
    var todo := byHint.Keys;
    while todo != {}
      invariant done + todo == byHint.Keys && allocations == AllocationTable(all, verified, done)
    {
      var hint :| hint in todo;
      OneMoreAllocation(all, verified, done, hint);
      todo, done := todo - {hint}, done + {hint};
      var members := byHint[hint];
      var values := AllocationsOf(members);
      allocations := allocations[hint := if hint !in conflicted && |values| == |members| then Single(values) else None];
    }
    assert done == byHint.Keys;
  }

  method CountCoverage(entries: seq<Entry>, verified: bool) returns (coverage: Coverage)
    ensures coverage == CoverageOf(entries, verified)
  {
    var regular, analyzable, analyzableBytes, unknownBytes := 0, 0, 0, 0;
    ghost var known := (e: Entry) => Analyzable(e, verified);
    ghost var rest := (e: Entry) => Regular(e) && !Analyzable(e, verified);
    for i := 0 to |entries|
      invariant regular == CountOf(entries[..i], Regular)
      invariant analyzable == CountOf(entries[..i], known) && regular - analyzable == CountOf(entries[..i], rest)
      invariant analyzableBytes == BytesOf(entries[..i], known) && unknownBytes == BytesOf(entries[..i], rest)
    {
      hide PayloadKeyOf;
      assert entries[..i + 1][..i] == entries[..i];
      var e := entries[i];
      if Regular(e) {
        regular := regular + 1;
        if PayloadKeyOf(e, verified).Some? {
          analyzable, analyzableBytes := analyzable + 1, analyzableBytes + SizeOrZero(e);
        } else {
          unknownBytes := unknownBytes + SizeOrZero(e);
        }
      } else {
        OnlyRegularKeys(e, verified);
      }
    }
    assert entries[..|entries|] == entries;
    coverage := Coverage(|entries|, regular, analyzable, regular - analyzable, analyzableBytes, unknownBytes);
  }

  lemma OnlyRegularKeys(e: Entry, verified: bool)
    ensures Analyzable(e, verified) ==> Countable(e)
  {
  }

  /** `compute_snapshot_duplicate_analysis`: an error for foreign or repeated entries, else the analysis. */
  method ComputeSnapshotDuplicateAnalysis(entries: seq<Entry>, snapshotId: nat, verified: bool) returns (result: Option<Analysis>)
    ensures result.Some? <==> (forall i :: 0 <= i < |entries| ==> entries[i].snapshotId == snapshotId) && UniqueLocations(entries)
    ensures result.Some? ==> result.value == AnalysisOf(entries, verified) && Tells(entries, verified, result.value)
  {
    var ok := CheckEntries(entries, snapshotId);
    if !ok {
      return None;
    }
    ghost var all := Members(entries);
    AnalysisTold(entries, verified);
    hide Tells, Keys, Digests, Hints, SoundKeys, OfHint, OfKey, OfDigest, GroupsIn, AliasesIn, HintConflictsIn, SizeConflictsIn, ConflictedIn, CoverageOf, AllocationTable, IsConflicting;
    assert DistinctLocations(all);
    var coverage := CountCoverage(entries, verified);
    var byHint := IndexByHint(entries);
    var hintConflicts, conflicted, aliases := FindHintConflicts(all, verified, byHint);
    var byDigest := IndexByDigest(entries, verified);
    var sizeConflicts, conflicting := FindSizeConflicts(all, verified, byDigest);
    var byPayload := IndexByPayload(entries, verified, conflicting);
    var groups := MakeGroups(all, verified, byPayload, byHint, conflicted);
    var allocations := CountAllocations(all, verified, byHint, conflicted);
    result := Some(Analysis(groups, aliases, hintConflicts + sizeConflicts, coverage, allocations,
                            |Hintless(Members(entries))|));
  }

  // ------------------------------------------------------------------ the analysis, told by the entries

  /** The content is known by this SHA-256 digest and size: an observed, included regular file, read directly, or
      reused and verified. */
  ghost predicate KnownAs(e: Entry, verified: bool, key: PayloadKey) {
    && e.objectType == REGULAR_FILE && e.observation == OBSERVED && !e.excluded && e.payload.Some?
    && var p := e.payload.value;
       && (p.status == HASHED || p.status == EMPTY_FILE_HASHED) && p.algorithm == Some("sha256") && p.algorithmVersion == Some(1)
       && p.digest == Some(key.digest) && |key.digest| == 64 && (forall i :: 0 <= i < |key.digest| ==> key.digest[i] in "0123456789abcdef")
       && e.sizeBytes == Some(key.size) && p.bytesHashed == Some(key.size)
       && (p.provenance == Some(DIRECT_READ) || (p.provenance == Some(REUSED_FROM_VERIFIED_SNAPSHOT) && verified && p.reusedFrom.Some?))
  }

  ghost predicate Known(e: Entry, verified: bool) {
    exists key :: KnownAs(e, verified, key)
  }

  /** All paths with this content. */
  ghost function Sharing(all: set<Entry>, verified: bool, key: PayloadKey): set<Entry> {
    set e | e in all && KnownAs(e, verified, key)
  }

  /** All observed, included regular paths of one device and inode. */
  ghost function PathsOf(all: set<Entry>, hint: Hint): set<Entry> {
    set e | e in all && e.objectType == REGULAR_FILE && e.observation == OBSERVED && !e.excluded
            && e.deviceId == Some(hint.device) && e.inode == Some(hint.inode)
  }

  ghost function At(entries: set<Entry>): set<Location> {
    set e | e in entries :: (e.scopeId, e.relativePath)
  }

  /** What paths of one object can disagree about. */
  ghost predicate DisagreeOn(paths: set<Entry>, verified: bool, code: ConflictCode) {
    match code
    case OBJECT_HINT_PAYLOAD_CONFLICT => exists a, b, x, y :: a in paths && b in paths && KnownAs(a, verified, x) && KnownAs(b, verified, y) && x != y
    case OBJECT_HINT_SIZE_CONFLICT => exists a, b :: a in paths && b in paths && a.sizeBytes.Some? && b.sizeBytes.Some? && a.sizeBytes != b.sizeBytes
    case LINK_COUNT_CONFLICT => exists e :: e in paths && e.linkCount.Some? && e.linkCount.value < |paths|
    case ALLOCATED_SIZE_CONFLICT =>
      exists a, b :: && a in paths && b in paths && a.payload.Some? && b.payload.Some?
                     && a.allocatedSize.Some? && b.allocatedSize.Some? && a.allocatedSize != b.allocatedSize
    case PAYLOAD_SIZE_CONFLICT => false
  }

  ghost predicate InConflict(all: set<Entry>, verified: bool, hint: Hint) {
    |PathsOf(all, hint)| >= 2 && exists code :: DisagreeOn(PathsOf(all, hint), verified, code)
  }

  /** All paths with this digest, of whatever size. */
  ghost function UnderDigest(all: set<Entry>, verified: bool, digest: string): set<Entry> {
    set e | e in all && KnownUnder(e, verified, digest)
  }

  ghost predicate KnownUnder(e: Entry, verified: bool, digest: string) {
    exists size :: KnownAs(e, verified, PayloadKey(digest, size))
  }

  /** One digest, several sizes. */
  ghost predicate Collides(all: set<Entry>, verified: bool, digest: string) {
    exists a, b, m, n :: a in all && b in all && KnownAs(a, verified, PayloadKey(digest, m)) && KnownAs(b, verified, PayloadKey(digest, n)) && m != n
  }

  ghost predicate IsConflict(all: set<Entry>, verified: bool, conflict: Conflict) {
    if conflict.code == PAYLOAD_SIZE_CONFLICT then
      exists digest :: Collides(all, verified, digest)
                       && conflict.entries == At(UnderDigest(all, verified, digest))
    else
      exists hint :: |PathsOf(all, hint)| >= 2 && DisagreeOn(PathsOf(all, hint), verified, conflict.code) && conflict.entries == At(PathsOf(all, hint))
  }

  /** The allocation of the object behind a group: given if the whole object is in the group and its paths report
      exactly one. */
  ghost predicate AllocationIs(all: set<Entry>, members: set<Entry>, hint: Hint, allocation: Option<nat>) {
    forall size :: allocation == Some(size) <==>
      && PathsOf(all, hint) <= members
      && (exists e :: e in PathsOf(all, hint) && e.payload.Some? && e.allocatedSize == Some(size))
      && (forall e :: e in PathsOf(all, hint) && e.payload.Some? && e.allocatedSize.Some? ==> e.allocatedSize == Some(size))
  }

  /** The objects behind a group: one unit for each device and inode of a member, and one for each member without. */
  ghost predicate IsUnit(all: set<Entry>, verified: bool, members: set<Entry>, unit: StorageUnit) {
    match unit
    case KnownUnit(hint, paths, conflicted, allocation) =>
      && PathsOf(all, hint) * members != {} && paths == At(PathsOf(all, hint))
      && (conflicted <==> InConflict(all, verified, hint)) && AllocationIs(all, members, hint, allocation)
    case UnknownUnit(member) => exists e :: e in members && (e.deviceId.None? || e.inode.None?) && (e.scopeId, e.relativePath) == member
  }

  /** The units known to be one undisputed object. */
  ghost function Certain(units: set<StorageUnit>): set<StorageUnit> {
    set u | u in units && u.KnownUnit? && !u.conflicted
  }

  /** A group of equal payloads: all its paths, the objects behind them, and figures taken from those objects. */
  ghost predicate IsGroup(all: set<Entry>, verified: bool, g: Group) {
    var members := Sharing(all, verified, g.key);
    var certain := Certain(g.units);
    && |members| >= 2 && !Collides(all, verified, g.key.digest) && g.members == At(members)
    && (forall u :: u in g.units <==> IsUnit(all, verified, members, u))
    && g.knownUnits == |certain| && g.unknownUnits == |set u | u in g.units && u.UnknownUnit?|
    && (g.exact <==> |certain| >= 2)
    && g.pathBytes == g.key.size * |members| && g.knownUnitBytes == g.key.size * |certain|
    && g.redundantBytes == if |certain| >= 2 && certain == g.units then Some(g.key.size * (|certain| - 1)) else None
  }

  /** Everything an analysis says, and nothing else. */
  ghost predicate Tells(entries: seq<Entry>, verified: bool, analysis: Analysis) {
    var all := set e | e in entries;
    && (forall g :: g in analysis.groups <==> IsGroup(all, verified, g))
    && (forall c :: c in analysis.conflicts <==> IsConflict(all, verified, c))
    && (forall a :: a in analysis.aliases <==> |PathsOf(all, a.hint)| >= 2 && a.members == At(PathsOf(all, a.hint)))
    && AllocationsAre(all, analysis.allocations)
    && analysis.unknownMemberships
       == |set e | e in all && e.objectType == REGULAR_FILE && e.observation == OBSERVED && !e.excluded && (e.deviceId.None? || e.inode.None?)|
    && Covers(entries, verified, analysis.coverage)
  }

  /** One figure per object; it is given only for an object with a single path. */
  ghost predicate AllocationsAre(all: set<Entry>, allocations: map<Hint, Option<nat>>) {
    && (forall h :: h in allocations <==> PathsOf(all, h) != {})
    && (forall h, size :: h in allocations && allocations[h] == Some(size) <==>
          exists e :: PathsOf(all, h) == {e} && e.payload.Some? && e.allocatedSize == Some(size))
  }

  ghost predicate Covers(entries: seq<Entry>, verified: bool, coverage: Coverage) {
    var regular := (e: Entry) => e.objectType == REGULAR_FILE;
    var known := (e: Entry) => Known(e, verified);
    && coverage.entries == |entries| && coverage.regular == CountOf(entries, regular)
    && coverage.analyzable == CountOf(entries, known) && coverage.analyzable + coverage.unknown == coverage.regular
    && coverage.analyzableBytes == BytesOf(entries, known) && coverage.analyzableBytes + coverage.unknownBytes == BytesOf(entries, regular)
  }

  lemma KeyIsKnown(e: Entry, verified: bool)
    ensures forall key :: PayloadKeyOf(e, verified) == Some(key) <==> KnownAs(e, verified, key)
    ensures PayloadKeyOf(e, verified).Some? <==> Known(e, verified)
  {
    forall key ensures PayloadKeyOf(e, verified) == Some(key) <==> KnownAs(e, verified, key) {
    }
  }

  lemma PathsAre(all: set<Entry>, hint: Hint)
    ensures OfHint(all, hint) == PathsOf(all, hint)
  {
  }

  lemma SharingIs(all: set<Entry>, verified: bool, key: PayloadKey)
    ensures OfKey(all, verified, key) == Sharing(all, verified, key)
  {
    forall e: Entry ensures PayloadKeyOf(e, verified) == Some(key) <==> KnownAs(e, verified, key) {
      KeyIsKnown(e, verified);
    }
    hide PayloadKeyOf, KnownAs;
  }

  lemma TwoOrMore<T>(values: set<T>)
    ensures |values| > 1 <==> exists x, y :: x in values && y in values && x != y
  {
    if |values| > 1 {
      var x :| x in values;
      assert |values - {x}| >= 1;
      var y :| y in values - {x};
    }
    if x, y :| x in values && y in values && x != y {
      AtLeast(values, {x, y});
    }
  }

  lemma CodesMean(paths: set<Entry>, verified: bool)
    ensures forall code :: code in CodesOf(paths, verified) <==> DisagreeOn(paths, verified, code)
  {
    PayloadsDiffer(paths, verified);
    SizesDiffer(paths, verified);
    AllocationsDiffer(paths, verified);
    LinksDiffer(paths, verified);
    hide DisagreeOn, Keys, SizesOf, AllocationsOf;
    NoSixthCode(paths, verified);
    forall code ensures code in CodesOf(paths, verified) <==> DisagreeOn(paths, verified, code) {
      match code
      case OBJECT_HINT_PAYLOAD_CONFLICT =>
      case OBJECT_HINT_SIZE_CONFLICT =>
      case LINK_COUNT_CONFLICT =>
      case ALLOCATED_SIZE_CONFLICT =>
      case PAYLOAD_SIZE_CONFLICT =>
    }
  }

  lemma NoSixthCode(paths: set<Entry>, verified: bool)
    ensures !DisagreeOn(paths, verified, PAYLOAD_SIZE_CONFLICT)
  {
  }

  lemma LinksDiffer(paths: set<Entry>, verified: bool)
    ensures (exists e :: e in paths && e.linkCount.Some? && e.linkCount.value < |paths|) <==> DisagreeOn(paths, verified, LINK_COUNT_CONFLICT)
  {
  }

  lemma SizesDiffer(paths: set<Entry>, verified: bool)
    ensures |SizesOf(paths)| > 1 <==> DisagreeOn(paths, verified, OBJECT_HINT_SIZE_CONFLICT)
  {
    var sizes := SizesOf(paths);
    TwoOrMore(sizes);
    if x, y :| x in sizes && y in sizes && x != y {
      var a :| a in paths && a.sizeBytes == Some(x);
      var b :| b in paths && b.sizeBytes == Some(y);
    }
    if a, b :| a in paths && b in paths && a.sizeBytes.Some? && b.sizeBytes.Some? && a.sizeBytes != b.sizeBytes {
      assert a.sizeBytes.value in sizes && b.sizeBytes.value in sizes;
    }
  }

  lemma AllocationsDiffer(paths: set<Entry>, verified: bool)
    ensures |AllocationsOf(paths)| > 1 <==> DisagreeOn(paths, verified, ALLOCATED_SIZE_CONFLICT)
  {
    var values := AllocationsOf(paths);
    TwoOrMore(values);
    if x, y :| x in values && y in values && x != y {
      var a :| a in paths && a.payload.Some? && a.allocatedSize == Some(x);
      var b :| b in paths && b.payload.Some? && b.allocatedSize == Some(y);
    }
    if a, b :| && a in paths && b in paths && a.payload.Some? && b.payload.Some?
               && a.allocatedSize.Some? && b.allocatedSize.Some? && a.allocatedSize != b.allocatedSize {
      assert a.allocatedSize.value in values && b.allocatedSize.value in values;
    }
  }

  ghost predicate SomePathIs(paths: set<Entry>, verified: bool, key: PayloadKey) {
    exists e :: e in paths && KnownAs(e, verified, key)
  }

  lemma KeysAre(paths: set<Entry>, verified: bool)
    ensures forall key :: key in Keys(paths, verified) <==> SomePathIs(paths, verified, key)
  {
    forall e: Entry ensures forall key :: PayloadKeyOf(e, verified) == Some(key) <==> KnownAs(e, verified, key) {
      KeyIsKnown(e, verified);
    }
    hide PayloadKeyOf, KnownAs;
  }

  lemma PayloadsDiffer(paths: set<Entry>, verified: bool)
    ensures |Keys(paths, verified)| > 1 <==> DisagreeOn(paths, verified, OBJECT_HINT_PAYLOAD_CONFLICT)
  {
    KeysAre(paths, verified);
    TwoOrMore(Keys(paths, verified));
    hide Keys, KnownAs;
    if a, b, x, y :| a in paths && b in paths && KnownAs(a, verified, x) && KnownAs(b, verified, y) && x != y {
      assert SomePathIs(paths, verified, x) && SomePathIs(paths, verified, y);
    }
    if x, y :| SomePathIs(paths, verified, x) && SomePathIs(paths, verified, y) && x != y {
      var a :| a in paths && KnownAs(a, verified, x);
      var b :| b in paths && KnownAs(b, verified, y);
      assert DisagreeOn(paths, verified, OBJECT_HINT_PAYLOAD_CONFLICT);
    }
  }

  lemma ConflictedIs(all: set<Entry>, verified: bool, hint: Hint)
    ensures Conflicted(all, verified, hint) <==> InConflict(all, verified, hint)
  {
    PathsAre(all, hint);
    CodesMean(PathsOf(all, hint), verified);
    hide CodesOf, DisagreeOn, OfHint, PathsOf;
    assert CodesOf(PathsOf(all, hint), verified) != {} <==> exists code :: code in CodesOf(PathsOf(all, hint), verified);
  }

  lemma DigestIs(e: Entry, verified: bool, digest: string)
    ensures PayloadKeyOf(e, verified).Some? && PayloadKeyOf(e, verified).value.digest == digest <==> KnownUnder(e, verified, digest)
    ensures forall size: nat :: KnownAs(e, verified, PayloadKey(digest, size)) ==> e.sizeBytes == Some(size)
  {
    KeyIsKnown(e, verified);
    if PayloadKeyOf(e, verified).Some? {
      var key := PayloadKeyOf(e, verified).value;
      assert key == PayloadKey(key.digest, key.size);
    }
  }

  lemma UnderDigestIs(all: set<Entry>, verified: bool, digest: string)
    ensures OfDigest(all, verified, digest) == UnderDigest(all, verified, digest)
  {
    forall e: Entry
      ensures PayloadKeyOf(e, verified).Some? && PayloadKeyOf(e, verified).value.digest == digest <==> KnownUnder(e, verified, digest)
    {
      DigestIs(e, verified, digest);
    }
    hide PayloadKeyOf, KnownUnder;
  }

  lemma KnownSizes(e: Entry, verified: bool, digest: string)
    ensures forall size: nat :: KnownAs(e, verified, PayloadKey(digest, size)) ==> e.sizeBytes == Some(size)
  {
  }

  lemma SizeUnder(all: set<Entry>, verified: bool, digest: string, e: Entry) returns (size: nat)
    requires e in UnderDigest(all, verified, digest)
    ensures e in all && KnownAs(e, verified, PayloadKey(digest, size)) && e.sizeBytes == Some(size)
  {
    KnownSizes(e, verified, digest);
    hide KnownAs;
    size :| KnownAs(e, verified, PayloadKey(digest, size));
  }

  lemma InUnder(all: set<Entry>, verified: bool, digest: string, e: Entry, size: nat)
    requires e in all && KnownAs(e, verified, PayloadKey(digest, size))
    ensures e in UnderDigest(all, verified, digest) && e.sizeBytes == Some(size)
  {
    KnownSizes(e, verified, digest);
    hide KnownAs;
    assert KnownUnder(e, verified, digest);
  }

  lemma CollidesIs(all: set<Entry>, verified: bool, digest: string)
    ensures SizesDisagree(all, verified, digest) <==> Collides(all, verified, digest)
  {
    UnderDigestIs(all, verified, digest);
    hide OfDigest, KnownAs, UnderDigest;
    if SizesDisagree(all, verified, digest) {
      var a, b :| a in OfDigest(all, verified, digest) && b in OfDigest(all, verified, digest) && a.sizeBytes != b.sizeBytes;
      var m := SizeUnder(all, verified, digest, a);
      var n := SizeUnder(all, verified, digest, b);
      assert m != n;
    }
    if Collides(all, verified, digest) {
      var a, b, m, n :| a in all && b in all && KnownAs(a, verified, PayloadKey(digest, m)) && KnownAs(b, verified, PayloadKey(digest, n)) && m != n;
      hide Collides;
      InUnder(all, verified, digest, a, m);
      InUnder(all, verified, digest, b, n);
    }
  }

  // ------------------------------------------------------------------ each part of the analysis is told

  lemma HintsAre(all: set<Entry>)
    ensures forall h :: h in Hints(all) <==> PathsOf(all, h) != {}
  {
    forall h ensures h in Hints(all) <==> PathsOf(all, h) != {} {
      PathsAre(all, h);
      if h in Hints(all) {
        var e :| e in all && Countable(e) && HintOf(e).Some? && HintOf(e).value == h;
        assert e in OfHint(all, h);
      }
      if e :| e in OfHint(all, h) {
        assert HintOf(e).value == h;
      }
    }
  }

  lemma LocationsAre(entries: set<Entry>)
    ensures Locations(entries) == At(entries)
  {
  }

  lemma AliasesTold(all: set<Entry>)
    ensures forall a :: a in AliasesIn(all, Hints(all)) <==> |PathsOf(all, a.hint)| >= 2 && a.members == At(PathsOf(all, a.hint))
  {
    HintsAre(all);
    forall h ensures OfHint(all, h) == PathsOf(all, h) && Locations(OfHint(all, h)) == At(PathsOf(all, h)) {
      PathsAre(all, h);
      LocationsAre(OfHint(all, h));
    }
    hide OfHint, PathsOf, Hints, Locations, At;
    forall a: AliasSet | |PathsOf(all, a.hint)| >= 2 && a.members == At(PathsOf(all, a.hint)) ensures a in AliasesIn(all, Hints(all)) {
      assert a.hint in Hints(all);
      assert a == AliasSet(a.hint, Locations(OfHint(all, a.hint)));
    }
  }

  lemma ConflictsTold(all: set<Entry>, verified: bool, c: Conflict)
    ensures c in HintConflictsIn(all, verified, Hints(all)) + SizeConflictsIn(all, verified, Digests(all, verified)) <==> IsConflict(all, verified, c)
  {
    if c.code == PAYLOAD_SIZE_CONFLICT {
      SizeConflictTold(all, verified, c);
      NoHintSizes(all, verified, Hints(all), c);
    } else {
      HintConflictTold(all, verified, c);
      hide HintConflictsIn, Digests, Hints, SizesDisagree, Locations, OfDigest, IsConflict;
    }
  }

  lemma NoHintSizes(all: set<Entry>, verified: bool, hints: set<Hint>, c: Conflict)
    requires c.code == PAYLOAD_SIZE_CONFLICT
    ensures c !in HintConflictsIn(all, verified, hints)
  {
    hide Keys, SizesOf, AllocationsOf, Locations;
  }

  lemma HintConflictTold(all: set<Entry>, verified: bool, c: Conflict)
    requires c.code != PAYLOAD_SIZE_CONFLICT
    ensures c in HintConflictsIn(all, verified, Hints(all)) <==> IsConflict(all, verified, c)
  {
    HintsAre(all);
    forall h
      ensures OfHint(all, h) == PathsOf(all, h) && Locations(OfHint(all, h)) == At(PathsOf(all, h))
      ensures c.code in CodesOf(OfHint(all, h), verified) <==> DisagreeOn(PathsOf(all, h), verified, c.code)
    {
      PathsAre(all, h);
      LocationsAre(OfHint(all, h));
      CodesMean(OfHint(all, h), verified);
    }
    hide OfHint, PathsOf, Hints, Locations, At, CodesOf, DisagreeOn;
    if IsConflict(all, verified, c) {
      var h :| |PathsOf(all, h)| >= 2 && DisagreeOn(PathsOf(all, h), verified, c.code) && c.entries == At(PathsOf(all, h));
      assert h in Hints(all);
      assert c == Conflict(c.code, Locations(OfHint(all, h)));
    }
  }

  lemma DisagreeingIsFound(all: set<Entry>, verified: bool, digest: string)
    ensures SizesDisagree(all, verified, digest) ==> digest in Digests(all, verified)
  {
    hide PayloadKeyOf;
  }

  lemma SizeConflictTold(all: set<Entry>, verified: bool, c: Conflict)
    requires c.code == PAYLOAD_SIZE_CONFLICT
    ensures c in SizeConflictsIn(all, verified, Digests(all, verified)) <==> IsConflict(all, verified, c)
  {
    hide SizesDisagree, Collides, Locations, OfDigest, At, UnderDigest, Digests;
    forall d
      ensures SizesDisagree(all, verified, d) <==> Collides(all, verified, d)
      ensures Locations(OfDigest(all, verified, d)) == At(UnderDigest(all, verified, d))
      ensures SizesDisagree(all, verified, d) ==> d in Digests(all, verified)
    {
      CollidesIs(all, verified, d);
      UnderDigestIs(all, verified, d);
      LocationsAre(OfDigest(all, verified, d));
      DisagreeingIsFound(all, verified, d);
    }
    if IsConflict(all, verified, c) {
      var d :| Collides(all, verified, d) && c.entries == At(UnderDigest(all, verified, d));
      assert c == Conflict(PAYLOAD_SIZE_CONFLICT, Locations(OfDigest(all, verified, d)));
    }
  }

  lemma AllocationsTold(all: set<Entry>, verified: bool)
    ensures AllocationsAre(all, AllocationTable(all, verified, Hints(all)))
  {
    HintsAre(all);
    forall h, size: nat
      ensures CountedAllocation(all, verified, h) == Some(size) <==> exists e :: PathsOf(all, h) == {e} && e.payload.Some? && e.allocatedSize == Some(size)
    {
      PathsAre(all, h);
      AllocationCountedOnlyForSinglePaths(all, verified, h);
    }
    hide CountedAllocation, PathsOf, Hints;
  }

  lemma {:induction false} CountAlike(entries: seq<Entry>, f: Entry -> bool, g: Entry -> bool)
    requires forall e :: f(e) == g(e)
    ensures CountOf(entries, f) == CountOf(entries, g) && BytesOf(entries, f) == BytesOf(entries, g)
  {
    if entries != [] {
      CountAlike(entries[..|entries| - 1], f, g);
    }
  }

  lemma CoverageTold(entries: seq<Entry>, verified: bool)
    ensures Covers(entries, verified, CoverageOf(entries, verified))
  {
    var regular := (e: Entry) => e.objectType == REGULAR_FILE;
    ghost var known := (e: Entry) => Known(e, verified);
    ghost var analyzable := (e: Entry) => Analyzable(e, verified);
    forall e: Entry ensures known(e) == analyzable(e) {
      KeyIsKnown(e, verified);
    }
    CountAlike(entries, Regular, regular);
    CountAlike(entries, analyzable, known);
    CoverageAddsUp(entries, verified);
    hide PayloadKeyOf, KnownAs;
  }

  lemma HintlessTold(all: set<Entry>)
    ensures Hintless(all)
         == set e | e in all && e.objectType == REGULAR_FILE && e.observation == OBSERVED && !e.excluded && (e.deviceId.None? || e.inode.None?)
  {
  }

  // The groups.

  lemma AllocationTold(all: set<Entry>, members: set<Entry>, hint: Hint)
    requires members <= all
    ensures AllocationIs(all, members, hint, if |OfHint(members, hint)| == |OfHint(all, hint)| then Single(AllocationsOf(OfHint(members, hint))) else None)
  {
    PathsAre(all, hint);
    var own, paths := OfHint(members, hint), OfHint(all, hint);
    assert own == paths * members;
    hide OfHint, PathsOf;
    SameCount(own, paths);
    var values := AllocationsOf(own);
    forall size: nat ensures Single(values) == Some(size) <==>
      && (exists e :: e in own && e.payload.Some? && e.allocatedSize == Some(size))
      && (forall e :: e in own && e.payload.Some? && e.allocatedSize.Some? ==> e.allocatedSize == Some(size))
    {
      if Single(values) == Some(size) {
        assert size in values;
        forall e | e in own && e.payload.Some? && e.allocatedSize.Some? ensures e.allocatedSize == Some(size) {
          assert e.allocatedSize.value in values;
        }
      }
      if e :| e in own && e.payload.Some? && e.allocatedSize == Some(size)
              && forall other :: other in own && other.payload.Some? && other.allocatedSize.Some? ==> other.allocatedSize == Some(size) {
        assert values == {size};
      }
    }
  }

  lemma SameCount<T>(some: set<T>, all: set<T>)
    requires some <= all
    ensures |some| == |all| <==> some == all
  {
    assert all == some + (all - some);
  }

  lemma UnitTold(all: set<Entry>, verified: bool, members: set<Entry>, hint: Hint)
    requires members <= all
    ensures IsUnit(all, verified, members, UnitOf(all, verified, members, hint)) <==> hint in Hints(members)
  {
    AllocationTold(all, members, hint);
    ConflictedIs(all, verified, hint);
    PathsAre(all, hint);
    LocationsAre(OfHint(all, hint));
    HintsAre(members);
    assert PathsOf(all, hint) * members == PathsOf(members, hint);
    hide AllocationIs, InConflict, Conflicted, OfHint, PathsOf, Hints, Locations, At, AllocationsOf;
  }

  lemma OneUnit(all: set<Entry>, verified: bool, members: set<Entry>, u: StorageUnit, v: StorageUnit)
    requires IsUnit(all, verified, members, u) && IsUnit(all, verified, members, v) && u.KnownUnit? && v.KnownUnit? && u.hint == v.hint
    ensures u == v
  {
    hide PathsOf, At, InConflict;
    assert u.allocation.Some? ==> v.allocation == Some(u.allocation.value);
    assert v.allocation.Some? ==> u.allocation == Some(v.allocation.value);
  }

  lemma UnitsTold(all: set<Entry>, verified: bool, members: set<Entry>, u: StorageUnit)
    requires members <= all && forall e :: e in members ==> Countable(e)
    ensures u in UnitsIn(all, verified, members, Hints(members)) <==> IsUnit(all, verified, members, u)
  {
    match u
    case KnownUnit(hint, _, _, _) =>
      UnitTold(all, verified, members, hint);
      var own := UnitOf(all, verified, members, hint);
      if IsUnit(all, verified, members, u) {
        HintOfUnit(all, verified, members, u);
        OneUnit(all, verified, members, u, own);
      }
      hide IsUnit, Hints, UnknownMembers;
      KnownUnits(all, verified, members, Hints(members), u);
    case UnknownUnit(member) =>
      UnitsWithoutHint(all, verified, members, u);
  }

  lemma UnitsWithoutHint(all: set<Entry>, verified: bool, members: set<Entry>, u: StorageUnit)
    requires u.UnknownUnit?
    ensures u in UnitsIn(all, verified, members, Hints(members)) <==> IsUnit(all, verified, members, u)
  {
    forall e: Entry ensures HintOf(e).None? <==> e.deviceId.None? || e.inode.None? {
    }
    hide Hints, OfHint, Conflicted, Locations, AllocationsOf, HintOf;
    if IsUnit(all, verified, members, u) {
      var e :| e in members && (e.deviceId.None? || e.inode.None?) && (e.scopeId, e.relativePath) == u.member;
      assert e in UnknownMembers(members) && u == UnknownUnit(LocationOf(e));
    }
  }

  lemma HintOfUnit(all: set<Entry>, verified: bool, members: set<Entry>, u: StorageUnit)
    requires members <= all && IsUnit(all, verified, members, u) && u.KnownUnit?
    ensures u.hint in Hints(members)
  {
    HintsAre(members);
    assert PathsOf(all, u.hint) * members == PathsOf(members, u.hint);
    hide Hints, PathsOf;
  }

  lemma KnownUnits(all: set<Entry>, verified: bool, members: set<Entry>, hints: set<Hint>, u: StorageUnit)
    requires u.KnownUnit?
    ensures u in UnitsIn(all, verified, members, hints) <==> u.hint in hints && u == UnitOf(all, verified, members, u.hint)
  {
    hide OfHint, Conflicted, Locations, AllocationsOf, UnknownMembers;
  }

  lemma {:induction false} UnitsCounted(all: set<Entry>, verified: bool, members: set<Entry>, hints: set<Hint>)
    ensures |set h | h in hints :: UnitOf(all, verified, members, h)| == |hints|
    decreases |hints|
  {
    hide OfHint, Conflicted, Locations, AllocationsOf;
    if hints != {} {
      var h :| h in hints;
      UnitsCounted(all, verified, members, hints - {h});
      var less := set k | k in hints - {h} :: UnitOf(all, verified, members, k);
      assert (set k | k in hints :: UnitOf(all, verified, members, k)) == less + {UnitOf(all, verified, members, h)};
      assert UnitOf(all, verified, members, h) !in less;
    } else {
      assert (set h | h in hints :: UnitOf(all, verified, members, h)) == {};
    }
  }

  lemma {:induction false} UnknownCounted(all: set<Entry>, entries: set<Entry>)
    requires DistinctLocations(all) && entries <= all
    ensures |set e | e in entries :: UnknownUnit(LocationOf(e))| == |entries|
    decreases |entries|
  {
    if entries != {} {
      var e :| e in entries;
      UnknownCounted(all, entries - {e});
      var less := set k | k in entries - {e} :: UnknownUnit(LocationOf(k));
      assert (set k | k in entries :: UnknownUnit(LocationOf(k))) == less + {UnknownUnit(LocationOf(e))};
      assert UnknownUnit(LocationOf(e)) !in less;
    } else {
      assert (set e | e in entries :: UnknownUnit(LocationOf(e))) == {};
    }
  }

  lemma CertainUnits(all: set<Entry>, verified: bool, members: set<Entry>, hints: set<Hint>)
    ensures Certain(UnitsIn(all, verified, members, hints))
         == set h | h in hints - ConflictedIn(all, verified, hints) :: UnitOf(all, verified, members, h)
  {
    hide UnknownMembers, Conflicted, OfHint, Locations, AllocationsOf;
  }

  lemma UncertainUnits(all: set<Entry>, verified: bool, members: set<Entry>, hints: set<Hint>)
    ensures (set u | u in UnitsIn(all, verified, members, hints) && u.UnknownUnit?) == set e | e in UnknownMembers(members) :: UnknownUnit(LocationOf(e))
  {
    hide UnknownMembers, Conflicted, OfHint, Locations, AllocationsOf;
  }

  /** All units are certain exactly when no member lacks an object and no object is in conflict. */
  lemma AllCertain(all: set<Entry>, verified: bool, members: set<Entry>, hints: set<Hint>)
    ensures var units := UnitsIn(all, verified, members, hints);
            Certain(units) == units <==> UnknownMembers(members) == {} && ConflictedIn(all, verified, hints) == {}
  {
    var units := UnitsIn(all, verified, members, hints);
    hide UnknownMembers, Conflicted, OfHint, Locations, AllocationsOf;
    forall e | e in UnknownMembers(members) ensures UnknownUnit(LocationOf(e)) in units - Certain(units) {
    }
    forall h | h in ConflictedIn(all, verified, hints) ensures UnitOf(all, verified, members, h) in units - Certain(units) {
    }
    if UnknownMembers(members) == {} && ConflictedIn(all, verified, hints) == {} {
      forall u | u in units ensures u in Certain(units) {
        var h :| h in hints && u == UnitOf(all, verified, members, h);
        assert h !in ConflictedIn(all, verified, hints);
      }
      assert Certain(units) == units;
    }
  }

  /** The figures of a group count its units. */
  lemma UnitFigures(all: set<Entry>, verified: bool, members: set<Entry>)
    requires DistinctLocations(all) && members <= all
    ensures var hints := Hints(members); var conflicted := ConflictedIn(all, verified, hints); var units := UnitsIn(all, verified, members, hints);
            && |Certain(units)| == |hints - conflicted|
            && |set u | u in units && u.UnknownUnit?| == |UnknownMembers(members)|
            && (Certain(units) == units <==> UnknownMembers(members) == {} && conflicted == {})
  {
    var hints := Hints(members);
    var conflicted := ConflictedIn(all, verified, hints);
    assert UnknownMembers(members) <= all;
    hide Hints, UnknownMembers, UnitsIn, ConflictedIn, UnitOf, Certain;
    UnitsCounted(all, verified, members, hints - conflicted);
    UnknownCounted(all, UnknownMembers(members));
    CertainUnits(all, verified, members, hints);
    UncertainUnits(all, verified, members, hints);
    AllCertain(all, verified, members, hints);
  }

  lemma MembersAreCountable(all: set<Entry>, verified: bool, key: PayloadKey)
    ensures OfKey(all, verified, key) <= all && forall e :: e in OfKey(all, verified, key) ==> Countable(e)
  {
  }

  lemma GroupTold(all: set<Entry>, verified: bool, key: PayloadKey)
    requires DistinctLocations(all) && |OfKey(all, verified, key)| >= 2 && !SizesDisagree(all, verified, key.digest)
    ensures IsGroup(all, verified, GroupOf(all, verified, key))
  {
    hide IsUnit, UnitsIn, ConflictedIn, Hints, UnknownMembers, OfKey, Sharing, Locations, At, Collides, SizesDisagree, DistinctLocations, Countable, Certain, GroupOf;
    var members := OfKey(all, verified, key);
    SharingIs(all, verified, key);
    CollidesIs(all, verified, key.digest);
    MembersAreCountable(all, verified, key);
    UnitFigures(all, verified, members);
    LocationsAre(members);
    AllUnitsTold(all, verified, members);
    FiguresTold(all, verified, key);
  }

  lemma AllUnitsTold(all: set<Entry>, verified: bool, members: set<Entry>)
    requires members <= all && forall e :: e in members ==> Countable(e)
    ensures forall u :: u in UnitsIn(all, verified, members, Hints(members)) <==> IsUnit(all, verified, members, u)
  {
    forall u ensures u in UnitsIn(all, verified, members, Hints(members)) <==> IsUnit(all, verified, members, u) {
      UnitsTold(all, verified, members, u);
    }
  }

  lemma FiguresTold(all: set<Entry>, verified: bool, key: PayloadKey)
    ensures var members := OfKey(all, verified, key);
            var hints := Hints(members);
            var conflicted := ConflictedIn(all, verified, hints);
            var known := |hints - conflicted|;
            GroupOf(all, verified, key)
              == Group(key, Locations(members), UnitsIn(all, verified, members, hints), known, |UnknownMembers(members)|,
                       known >= 2, key.size * |members|, key.size * known,
                       if known >= 2 && |UnknownMembers(members)| == 0 && conflicted == {} then Some(key.size * (known - 1)) else None)
  {
    hide UnitsIn, ConflictedIn, Hints, UnknownMembers, OfKey, Locations;
  }

  lemma OneGroup(all: set<Entry>, verified: bool, g: Group, h: Group)
    requires IsGroup(all, verified, g) && IsGroup(all, verified, h) && g.key == h.key
    ensures g == h
  {
    hide IsUnit, Sharing, At, Collides;
    assert g.units == h.units;
  }

  lemma GroupsTold(all: set<Entry>, verified: bool, g: Group)
    requires DistinctLocations(all)
    ensures g in GroupsIn(all, verified, SoundKeys(all, verified)) <==> IsGroup(all, verified, g)
  {
    GroupFacts(all, verified, SoundKeys(all, verified));
    SharingIs(all, verified, g.key);
    CollidesIs(all, verified, g.key.digest);
    KeyOfMembers(all, verified, g.key);
    hide GroupsIn, GroupOf, OfKey, Sharing, Collides, SizesDisagree, Keys;
    if |OfKey(all, verified, g.key)| >= 2 && !SizesDisagree(all, verified, g.key.digest) {
      GroupTold(all, verified, g.key);
      if IsGroup(all, verified, g) {
        OneGroup(all, verified, g, GroupOf(all, verified, g.key));
      }
    }
  }

  lemma KeyOfMembers(all: set<Entry>, verified: bool, key: PayloadKey)
    ensures |OfKey(all, verified, key)| >= 2 ==> key in Keys(all, verified)
  {
    hide PayloadKeyOf;
    if e :| e in OfKey(all, verified, key) {
    } else {
      assert OfKey(all, verified, key) == {};
    }
  }

  /** The analysis says exactly what its entries tell. */
  lemma AnalysisTold(entries: seq<Entry>, verified: bool)
    requires UniqueLocations(entries)
    ensures Tells(entries, verified, AnalysisOf(entries, verified))
  {
    var all := Members(entries);
    assert DistinctLocations(all);
    hide DistinctLocations, Hints, SoundKeys, Digests, GroupsIn, AliasesIn, HintConflictsIn, SizeConflictsIn, AllocationTable, CoverageOf, IsGroup, IsConflict,
         AllocationsAre, Covers, PathsOf, At, Hintless;
    forall g ensures g in GroupsIn(all, verified, SoundKeys(all, verified)) <==> IsGroup(all, verified, g) {
      GroupsTold(all, verified, g);
    }
    forall c ensures c in HintConflictsIn(all, verified, Hints(all)) + SizeConflictsIn(all, verified, Digests(all, verified)) <==> IsConflict(all, verified, c) {
      ConflictsTold(all, verified, c);
    }
    AliasesTold(all);
    AllocationsTold(all, verified);
    CoverageTold(entries, verified);
    HintlessTold(all);
  }

  // ------------------------------------------------------------------ what the analysis means

  lemma GroupFacts(all: set<Entry>, verified: bool, keys: set<PayloadKey>)
    ensures forall g :: g in GroupsIn(all, verified, keys) <==>
              g.key in keys && |OfKey(all, verified, g.key)| >= 2 && g == GroupOf(all, verified, g.key)
    ensures forall key :: GroupOf(all, verified, key).key == key && GroupOf(all, verified, key).members == Locations(OfKey(all, verified, key))
  {
    hide OfKey, UnitsIn, ConflictedIn, Hints, Locations;
  }

  /** In a Snapshot with unique locations, a location belongs to the class of the key of its one entry. */
  lemma MemberFacts(all: set<Entry>, verified: bool, key: PayloadKey, e: Entry)
    requires DistinctLocations(all) && e in all
    ensures LocationOf(e) in Locations(OfKey(all, verified, key)) <==> PayloadKeyOf(e, verified) == Some(key)
  {
    hide PayloadKeyOf;
    if LocationOf(e) in Locations(OfKey(all, verified, key)) {
      var other :| other in OfKey(all, verified, key) && LocationOf(other) == LocationOf(e);
    }
  }

  /** Groups have at least two paths and no path in common. */
  lemma GroupsAreDisjoint(all: set<Entry>, verified: bool, g: Group, h: Group)
    requires DistinctLocations(all)
    requires g in GroupsIn(all, verified, SoundKeys(all, verified)) && h in GroupsIn(all, verified, SoundKeys(all, verified))
    ensures |g.members| >= 2 && (g == h || g.members !! h.members)
  {
    hide GroupOf, GroupsIn, SoundKeys, PayloadKeyOf;
    GroupFacts(all, verified, SoundKeys(all, verified));
    LocationsCount(all, OfKey(all, verified, g.key));
    if location :| location in g.members && location in h.members {
      var e :| e in OfKey(all, verified, g.key) && LocationOf(e) == location;
      MemberFacts(all, verified, g.key, e);
      MemberFacts(all, verified, h.key, e);
    }
  }

  lemma {:induction false} LocationsCount(all: set<Entry>, entries: set<Entry>)
    requires DistinctLocations(all) && entries <= all
    ensures |Locations(entries)| == |entries|
    decreases |entries|
  {
    if entries != {} {
      var e :| e in entries;
      LocationsCount(all, entries - {e});
      assert Locations(entries) == Locations(entries - {e}) + {LocationOf(e)};
      assert LocationOf(e) !in Locations(entries - {e});
    }
  }

  /** Two paths stand in one group exactly when their contents are known to be equal under a digest that
      has one size: nothing shared is missed, nothing unproved is grouped. */
  lemma GroupedExactlyWhenShared(all: set<Entry>, verified: bool, a: Entry, b: Entry)
    requires DistinctLocations(all) && a in all && b in all && a != b
    ensures (exists g :: g in GroupsIn(all, verified, SoundKeys(all, verified)) && LocationOf(a) in g.members && LocationOf(b) in g.members)
       <==> Analyzable(a, verified) && PayloadKeyOf(a, verified) == PayloadKeyOf(b, verified)
            && !SizesDisagree(all, verified, PayloadKeyOf(a, verified).value.digest)
  {
    hide GroupOf, GroupsIn, SizesDisagree, PayloadKeyOf, Locations, OfKey;
    GroupFacts(all, verified, SoundKeys(all, verified));
    if g :| g in GroupsIn(all, verified, SoundKeys(all, verified)) && LocationOf(a) in g.members && LocationOf(b) in g.members {
      MemberFacts(all, verified, g.key, a);
      MemberFacts(all, verified, g.key, b);
    }
    if Analyzable(a, verified) && PayloadKeyOf(a, verified) == PayloadKeyOf(b, verified)
       && !SizesDisagree(all, verified, PayloadKeyOf(a, verified).value.digest) {
      var key := PayloadKeyOf(a, verified).value;
      MemberFacts(all, verified, key, a);
      MemberFacts(all, verified, key, b);
      TwoMembers(all, verified, key, a, b);
      assert GroupOf(all, verified, key) in GroupsIn(all, verified, SoundKeys(all, verified));
    }
  }

  lemma TwoMembers(all: set<Entry>, verified: bool, key: PayloadKey, a: Entry, b: Entry)
    requires a in all && b in all && a != b && PayloadKeyOf(a, verified) == Some(key) && PayloadKeyOf(b, verified) == Some(key)
    ensures |OfKey(all, verified, key)| >= 2 && key in Keys(all, verified)
  {
    hide PayloadKeyOf;
    assert {a, b} <= OfKey(all, verified, key);
    AtLeast(OfKey(all, verified, key), {a, b});
  }

  /** Known and unknown payloads add up to all regular files, by count and by bytes. */
  lemma CoverageAddsUp(entries: seq<Entry>, verified: bool)
    ensures var c := CoverageOf(entries, verified);
            && c.analyzable + c.unknown == c.regular
            && c.analyzableBytes + c.unknownBytes == BytesOf(entries, Regular)
  {
    CountsAddUp(entries, verified);
  }

  lemma {:induction false} CountsAddUp(entries: seq<Entry>, verified: bool)
    ensures var known := (e: Entry) => Analyzable(e, verified); var rest := (e: Entry) => Regular(e) && !Analyzable(e, verified);
            && CountOf(entries, known) + CountOf(entries, rest) == CountOf(entries, Regular)
            && BytesOf(entries, known) + BytesOf(entries, rest) == BytesOf(entries, Regular)
  {
    if entries != [] {
      CountsAddUp(entries[..|entries| - 1], verified);
      OnlyRegularKeys(entries[|entries| - 1], verified);
    }
  }

  lemma {:induction false} HintsCount(members: set<Entry>)
    ensures |Hints(members)| <= |members|
    decreases |members|
  {
    if members != {} {
      var e :| e in members;
      HintsCount(members - {e});
      var own := if Countable(e) && HintOf(e).Some? then {HintOf(e).value} else {};
      assert Hints(members) == Hints(members - {e}) + own;
    } else {
      assert Hints(members) == {};
    }
  }

  lemma Multiplied(size: nat, few: nat, many: nat)
    requires few <= many
    ensures size * few <= size * many
  {
  }

  /** A redundant figure is only given when every path names a known, unconflicted object, and it leaves
      at least one copy; what is known to be stored never exceeds what the paths show. */
  lemma RedundantBytesLeaveOneCopy(all: set<Entry>, verified: bool, g: Group)
    requires g in GroupsIn(all, verified, SoundKeys(all, verified))
    ensures g.knownUnitBytes <= g.pathBytes
    ensures g.redundantBytes.Some? ==>
              && g.redundantBytes.value + g.key.size <= g.pathBytes
              && g.redundantBytes.value == g.key.size * (|Hints(OfKey(all, verified, g.key))| - 1)
              && forall e :: e in OfKey(all, verified, g.key) ==> HintOf(e).Some? && !Conflicted(all, verified, HintOf(e).value)
  {
    hide PayloadKeyOf, GroupsIn, SoundKeys, UnitsIn, Conflicted;
    GroupFacts(all, verified, SoundKeys(all, verified));
    var members := OfKey(all, verified, g.key);
    var hints := Hints(members);
    var conflicted := ConflictedIn(all, verified, hints);
    HintsCount(members);
    AtLeast(hints, hints - conflicted);
    Multiplied(g.key.size, |hints - conflicted|, |members|);
    if g.redundantBytes.Some? {
      assert hints - conflicted == hints;
      assert UnknownMembers(members) == {};
      Multiplied(g.key.size, |hints| - 1, |hints|);
      assert g.key.size * (|hints| - 1) + g.key.size == g.key.size * |hints|;
      forall e | e in members ensures HintOf(e).Some? && !Conflicted(all, verified, HintOf(e).value) {
        assert e !in UnknownMembers(members);
        OnlyRegularKeys(e, verified);
        assert HintOf(e).value in hints;
        assert HintOf(e).value !in conflicted;
      }
    }
  }

  /** The physical summary compares the number of distinct allocations with the number of paths, so it
      counts an allocation only for an object with a single path: never for a hard-linked file. */
  lemma AllocationCountedOnlyForSinglePaths(all: set<Entry>, verified: bool, hint: Hint)
    ensures CountedAllocation(all, verified, hint).Some? <==>
              exists e :: OfHint(all, hint) == {e} && e.payload.Some? && e.allocatedSize.Some?
    ensures forall e :: OfHint(all, hint) == {e} && e.payload.Some? && e.allocatedSize.Some? ==> CountedAllocation(all, verified, hint) == e.allocatedSize
  {
    var members := OfHint(all, hint);
    var values := AllocationsOf(members);
    if |members| == 1 {
      var e :| e in members;
      assert |members - {e}| == 0;
      assert members == {e};
      assert values == if e.payload.Some? && e.allocatedSize.Some? then {e.allocatedSize.value} else {};
    }
  }

  function HardLink(path: string): Entry {
    Entry(1, "scope", path, REGULAR_FILE, Some(1), Some(1), Some(10), Some(0), Some(0), None, Some(2), Some(4096), OBSERVED, false, 0,
          Some(PayloadObservation(NOT_LOCAL, None, None, None, None, None, None)))
  }

  lemma HardLinkFacts(path: string)
    ensures var e := HardLink(path);
            && Countable(e) && HintOf(e) == Some(Hint(1, 1)) && PayloadKeyOf(e, false).None? && e.relativePath == path
            && e.sizeBytes == Some(10) && e.payload.Some? && e.allocatedSize == Some(4096) && e.linkCount == Some(2)
  {
  }

  /** Two hard links to one file whose allocation both report: the physical summary does not count it,
      although nothing conflicts. */
  lemma HardLinkAllocationExample() returns (all: set<Entry>, hint: Hint)
    ensures |OfHint(all, hint)| == 2 && !Conflicted(all, false, hint) && AllocationsOf(OfHint(all, hint)) == {4096}
    ensures CountedAllocation(all, false, hint) == None
  {
    var a, b := HardLink("a"), HardLink("b");
    HardLinkFacts("a");
    HardLinkFacts("b");
    hide HardLink, PayloadKeyOf, Countable, HintOf;
    assert "a"[0] != "b"[0];
    all, hint := {a, b}, Hint(1, 1);
    assert OfHint(all, hint) == {a, b};
    assert AllocationsOf({a, b}) == {4096};
    assert CodesOf({a, b}, false) == {} by {
      assert SizesOf({a, b}) == {10} && Keys({a, b}, false) == {};
    }
  }

  lemma {:induction false} CountWithout(entries: seq<Entry>, counted: Entry -> bool, k: nat)
    requires k < |entries|
    ensures var rest := entries[..k] + entries[k + 1..];
            && CountOf(entries, counted) == CountOf(rest, counted) + (if counted(entries[k]) then 1 else 0)
            && BytesOf(entries, counted) == BytesOf(rest, counted) + (if counted(entries[k]) then SizeOrZero(entries[k]) else 0)
  {
    var rest := entries[..k] + entries[k + 1..];
    var shorter := entries[..|entries| - 1];
    if k == |entries| - 1 {
      assert rest == shorter;
    } else {
      CountWithout(shorter, counted, k);
      assert rest == (shorter[..k] + shorter[k + 1..]) + [entries[|entries| - 1]];
      assert rest[..|rest| - 1] == shorter[..k] + shorter[k + 1..];
    }
  }

  lemma {:induction false} CountPermutes(a: seq<Entry>, b: seq<Entry>, counted: Entry -> bool)
    requires multiset(a) == multiset(b)
    ensures CountOf(a, counted) == CountOf(b, counted) && BytesOf(a, counted) == BytesOf(b, counted)
    decreases |a|
  {
    if a == [] {
      assert |multiset(b)| == 0;
    } else {
      var k := Taken(a, b);
      CountPermutes(a[..|a| - 1], b[..k] + b[k + 1..], counted);
      CountWithout(b, counted, k);
    }
  }

  lemma WithoutOne(b: seq<Entry>, k: nat)
    requires k < |b|
    ensures multiset(b[..k] + b[k + 1..]) == multiset(b) - multiset{b[k]}
  {
    assert b == b[..k] + [b[k]] + b[k + 1..];
  }

  /** A permutation of `a` holds its last element somewhere, and without it is a permutation of the rest. */
  lemma Taken(a: seq<Entry>, b: seq<Entry>) returns (k: nat)
    requires multiset(a) == multiset(b) && a != []
    ensures k < |b| && b[k] == a[|a| - 1] && multiset(b[..k] + b[k + 1..]) == multiset(a[..|a| - 1])
  {
    var last, shorter := a[|a| - 1], a[..|a| - 1];
    assert a == shorter + [last];
    assert last in multiset(b);
    k :| 0 <= k < |b| && b[k] == last;
    WithoutOne(b, k);
    assert multiset(shorter) == multiset(a) - multiset{last};
  }

  /** The analysis does not depend on the order in which the entries are listed. */
  lemma EntryOrderDoesNotMatter(a: seq<Entry>, b: seq<Entry>, verified: bool)
    requires multiset(a) == multiset(b)
    ensures AnalysisOf(a, verified) == AnalysisOf(b, verified)
  {
    assert Members(a) == Members(b) by {
      assert forall e :: e in a <==> e in multiset(a);
      assert forall e :: e in b <==> e in multiset(b);
    }
    assert |a| == |multiset(a)| == |multiset(b)| == |b|;
    CountPermutes(a, b, Regular);
    CountPermutes(a, b, (e: Entry) => Analyzable(e, verified));
    CountPermutes(a, b, (e: Entry) => Regular(e) && !Analyzable(e, verified));
  }
}
