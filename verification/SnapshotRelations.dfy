/** Matching of removed to added locations between two adjacent Snapshots. */
module SnapshotRelations {
  import opened Options
  import opened SnapshotEntries
  import opened Buckets

  /** Device and inode. */
  datatype Identity = Identity(device: nat, inode: nat)

  /** Device, inode and birth time: what a moved file is expected to keep. */
  datatype Hint = Hint(identity: Identity, birthtime: int)

  datatype Kind = RENAME_CANDIDATE | CROSS_SCOPE_TRANSITION_CANDIDATE | AMBIGUOUS_LOCATION_TRANSITION

  datatype Relation = Relation(kind: Kind, sources: set<Location>, targets: set<Location>)

  function IdentityOf(e: Entry): Option<Identity> {
    if e.deviceId.None? || e.inode.None? then None else Some(Identity(e.deviceId.value, e.inode.value))
  }

  function HintOf(e: Entry): Option<Hint> {
    if e.objectType != REGULAR_FILE || e.observation != OBSERVED || e.excluded || IdentityOf(e).None? || e.birthtimeNs.None? then None
    else Some(Hint(IdentityOf(e).value, e.birthtimeNs.value))
  }

  function SuccessfulDigest(e: Entry, verified: bool): Option<string> {
    if e.payload.None? then None
    else
      var p := e.payload.value;
      if p.status != HASHED && p.status != EMPTY_FILE_HASHED then None
      else if p.algorithm != Some("sha256") || p.algorithmVersion != Some(1) then None
      else if p.digest.None? || !IsHexDigest(p.digest.value) then None
      else if p.bytesHashed != e.sizeBytes then None
      else if p.provenance == Some(DIRECT_READ) then p.digest
      else if p.provenance == Some(REUSED_FROM_VERIFIED_SNAPSHOT) && verified && p.reusedFrom.Some? then p.digest
      else None
  }

  function Locations(entries: set<Entry>): set<Location> {
    set e | e in entries :: LocationOf(e)
  }

  function Digests(entries: set<Entry>, verified: bool): set<Option<string>> {
    set e | e in entries :: SuccessfulDigest(e, verified)
  }

  // ------------------------------------------------------------------ one hint shared by both sides

  /** The decision for one hint: `sources` and `targets` moved, `holders` and `newHolders` are all paths
      of the same object before and after. */
  ghost function Decide(sources: set<Entry>, targets: set<Entry>, holders: set<Entry>, newHolders: set<Entry>, verified: bool): Option<Relation>
    requires sources != {} && targets != {}
  {
    var before, after := Digests(sources, verified), Digests(targets, verified);
    if None in before || None in after then None
    else
      var aliases := |holders| > 1 || |newHolders| > 1;
      if aliases then Some(Relation(AMBIGUOUS_LOCATION_TRANSITION, Locations(holders), Locations(newHolders)))
      else if |before + after| != 1 then Some(Relation(AMBIGUOUS_LOCATION_TRANSITION, Locations(sources), Locations(targets)))
      else
        var kind := if (exists a, b :: a in sources && b in targets && a.scopeId == b.scopeId) then RENAME_CANDIDATE else CROSS_SCOPE_TRANSITION_CANDIDATE;
        Some(Relation(kind, Locations(sources), Locations(targets)))
  }

  function WithHint(entries: seq<Entry>, hint: Hint): set<Entry> {
    WithKey(entries, HintOf, hint)
  }

  function Holders(entries: seq<Entry>, identity: Identity): set<Entry> {
    WithKey(entries, IdentityOf, identity)
  }

  /** The locations only the earlier Snapshot has, those only the later one has, and both Snapshots whole. */
  datatype Pair = Pair(removed: seq<Entry>, added: seq<Entry>, base: seq<Entry>, target: seq<Entry>)

  predicate MovedAreMembers(pair: Pair) {
    (forall e :: e in pair.removed ==> e in pair.base) && (forall e :: e in pair.added ==> e in pair.target)
  }

  /** The relation a hint gives rise to, if any. */
  ghost function RelationOf(pair: Pair, verified: bool, hint: Hint): Option<Relation> {
    if WithHint(pair.removed, hint) == {} || WithHint(pair.added, hint) == {} then None
    else Decide(WithHint(pair.removed, hint), WithHint(pair.added, hint), Holders(pair.base, hint.identity), Holders(pair.target, hint.identity), verified)
  }

  /** The relations emitted, by the hint that emitted them. */
  ghost function TransitionsOf(pair: Pair, verified: bool, hints: set<Hint>): map<Hint, Relation> {
    map h | h in hints && RelationOf(pair, verified, h).Some? :: RelationOf(pair, verified, h).value
  }

  function SharedHints(pair: Pair): set<Hint> {
    set e | e in pair.removed && HintOf(e).Some? && WithHint(pair.added, HintOf(e).value) != {} :: HintOf(e).value
  }

  lemma OneMoreHint(pair: Pair, verified: bool, hints: set<Hint>, h: Hint)
    ensures TransitionsOf(pair, verified, {}) == map[]
    ensures TransitionsOf(pair, verified, hints + {h}) ==
            if RelationOf(pair, verified, h).Some? then TransitionsOf(pair, verified, hints)[h := RelationOf(pair, verified, h).value]
            else TransitionsOf(pair, verified, hints)
  {
    hide RelationOf;
  }

  /** The evidence the source gathers for one hint, and the decision it leads to. */
  method TransitionFor(pair: Pair, verified: bool, hint: Hint, removedByHint: map<Hint, set<Entry>>, addedByHint: map<Hint, set<Entry>>,
                       baseAliases: map<Identity, set<Entry>>, targetAliases: map<Identity, set<Entry>>) returns (relation: Option<Relation>)
    requires MovedAreMembers(pair)
    requires AreBuckets(pair.removed, HintOf, removedByHint) && AreBuckets(pair.added, HintOf, addedByHint)
    requires AreBuckets(pair.base, IdentityOf, baseAliases) && AreBuckets(pair.target, IdentityOf, targetAliases)
    requires hint in removedByHint && hint in addedByHint
    ensures relation == RelationOf(pair, verified, hint)
  {
    HoldersExist(pair.removed, pair.base, hint);
    HoldersExist(pair.added, pair.target, hint);
    hide WithKey, Decide;
    relation := DecideFrom(removedByHint[hint], addedByHint[hint], baseAliases[hint.identity], targetAliases[hint.identity], verified);
  }

  /** The decision from the evidence. */
  method DecideFrom(sources: set<Entry>, targets: set<Entry>, sourceAliases: set<Entry>, targetAliases: set<Entry>, verified: bool)
    returns (relation: Option<Relation>)
    requires sources != {} && targets != {} && sources <= sourceAliases && targets <= targetAliases
    ensures relation == Decide(sources, targets, sourceAliases, targetAliases, verified)
  {
    hide SuccessfulDigest;
    var sourceDigests := set e | e in sources :: SuccessfulDigest(e, verified);
    var targetDigests := set e | e in targets :: SuccessfulDigest(e, verified);
    if None in sourceDigests || None in targetDigests {
      return None;
    }
    var allDigests := sourceDigests + targetDigests;
    var aliases := |sourceAliases| > 1 || |targetAliases| > 1;
    if aliases || |allDigests| != 1 {
      return Some(Relation(AMBIGUOUS_LOCATION_TRANSITION, Locations(if aliases then sourceAliases else sources),
                           Locations(if aliases then targetAliases else targets)));
    }
    var source :| source in sources;
    var target :| target in targets;
    OneMove(sources, targets, sourceAliases, targetAliases, source, target);
    relation := Some(Relation(if source.scopeId == target.scopeId then RENAME_CANDIDATE else CROSS_SCOPE_TRANSITION_CANDIDATE,
                              Locations(sources), Locations(targets)));
  }

  /** An object with one path on either side makes one move. */
  lemma OneMove(sources: set<Entry>, targets: set<Entry>, holders: set<Entry>, newHolders: set<Entry>, source: Entry, target: Entry)
    requires sources <= holders && targets <= newHolders && |holders| <= 1 && |newHolders| <= 1 && source in sources && target in targets
    ensures (exists a, b :: a in sources && b in targets && a.scopeId == b.scopeId) <==> source.scopeId == target.scopeId
  {
    Singleton(holders, source);
    Singleton(newHolders, target);
  }

  method TransitionRelations(pair: Pair, verified: bool) returns (relations: map<Hint, Relation>)
    requires MovedAreMembers(pair)
    ensures relations == TransitionsOf(pair, verified, SharedHints(pair))
  {
    hide RelationOf, TransitionsOf, AreBuckets, SharedHints, MovedAreMembers, WithKey, HintOf, IdentityOf;
    var removedByHint := Bucket(pair.removed, HintOf);
    var addedByHint := Bucket(pair.added, HintOf);
    var baseAliases := Bucket(pair.base, IdentityOf);
    var targetAliases := Bucket(pair.target, IdentityOf);
    var todo := removedByHint.Keys * addedByHint.Keys;
    SharedKeys(pair, removedByHint, addedByHint);
    relations := map[];
    ghost var done: set<Hint> := {};
    while todo != {}
      invariant done + todo == SharedHints(pair) && todo <= removedByHint.Keys * addedByHint.Keys
      invariant relations == TransitionsOf(pair, verified, done)
    {
      var hint :| hint in todo;
      OneMoreHint(pair, verified, done, hint);
      var relation := TransitionFor(pair, verified, hint, removedByHint, addedByHint, baseAliases, targetAliases);
      if relation.Some? {
        relations := relations[hint := relation.value];
      }
      todo, done := todo - {hint}, done + {hint};
    }
    assert done == SharedHints(pair);
  }

  lemma SharedKeys(pair: Pair, removedByHint: map<Hint, set<Entry>>, addedByHint: map<Hint, set<Entry>>)
    requires AreBuckets(pair.removed, HintOf, removedByHint) && AreBuckets(pair.added, HintOf, addedByHint)
    ensures removedByHint.Keys * addedByHint.Keys == SharedHints(pair)
    ensures forall verified :: TransitionsOf(pair, verified, {}) == map[]
  {
    hide HintOf;
    forall h ensures h in removedByHint.Keys * addedByHint.Keys <==> h in SharedHints(pair) {
      if h in removedByHint {
        var e :| e in WithKey(pair.removed, HintOf, h);
        assert HintOf(e) == Some(h);
      }
      if h in SharedHints(pair) {
        var e :| e in pair.removed && HintOf(e) == Some(h);
        assert e in WithKey(pair.removed, HintOf, h);
      }
    }
  }

  lemma HoldersExist(moved: seq<Entry>, all: seq<Entry>, hint: Hint)
    requires (forall e :: e in moved ==> e in all) && WithHint(moved, hint) != {}
    ensures WithHint(moved, hint) <= Holders(all, hint.identity) && Holders(all, hint.identity) != {}
  {
  }

  // ------------------------------------------------------------------ what the candidates mean

  predicate IsCandidate(relation: Relation) {
    relation.kind != AMBIGUOUS_LOCATION_TRANSITION
  }

  /** `a` was removed, `b` was added, both carry the hint, each is the only path of its object in its
      Snapshot, and their contents are known to be equal. */
  predicate SoleMatch(pair: Pair, verified: bool, a: Entry, b: Entry) {
    && a in pair.removed && b in pair.added && HintOf(a).Some? && HintOf(b) == HintOf(a)
    && Holders(pair.base, HintOf(a).value.identity) == {a} && Holders(pair.target, HintOf(a).value.identity) == {b}
    && SuccessfulDigest(a, verified).Some? && SuccessfulDigest(b, verified) == SuccessfulDigest(a, verified)
  }

  ghost predicate WellFormed(pair: Pair) {
    && MovedAreMembers(pair)
    && UniqueLocations(pair.base) && UniqueLocations(pair.target)
  }

  function MovedKind(a: Entry, b: Entry): Kind {
    if a.scopeId == b.scopeId then RENAME_CANDIDATE else CROSS_SCOPE_TRANSITION_CANDIDATE
  }

  lemma Singleton<T>(s: set<T>, x: T)
    requires x in s && |s| <= 1
    ensures s == {x}
  {
    assert |s - {x}| == 0;
  }

  /** A hint yields a candidate exactly when one removed and one added path match alone; the candidate
      then names just these two. */
  lemma CandidateIsSoleMatch(pair: Pair, verified: bool, hint: Hint) returns (a: Entry, b: Entry)
    requires WellFormed(pair)
    requires RelationOf(pair, verified, hint).Some? && IsCandidate(RelationOf(pair, verified, hint).value)
    ensures HintOf(a) == Some(hint) && SoleMatch(pair, verified, a, b)
    ensures RelationOf(pair, verified, hint) == Some(Relation(MovedKind(a, b), {LocationOf(a)}, {LocationOf(b)}))
  {
    hide WithKey, HintOf, SuccessfulDigest, UniqueLocations;
    a, b := OnlyPaths(pair, hint);
    DigestsOfOne(a, verified);
    DigestsOfOne(b, verified);
    TwoOrOne(SuccessfulDigest(a, verified), SuccessfulDigest(b, verified));
  }

  lemma TwoOrOne<T>(x: T, y: T)
    ensures |{x} + {y}| == 1 <==> x == y
  {
    assert {x} + {y} == {x, y};
    assert x == y ==> {x, y} == {x};
  }

  /** An object with one path on either side: the path it was moved from and the one it was moved to. */
  lemma OnlyPaths(pair: Pair, hint: Hint) returns (a: Entry, b: Entry)
    requires MovedAreMembers(pair) && WithHint(pair.removed, hint) != {} && WithHint(pair.added, hint) != {}
    requires |Holders(pair.base, hint.identity)| <= 1 && |Holders(pair.target, hint.identity)| <= 1
    ensures a in pair.removed && b in pair.added && HintOf(a) == HintOf(b) == Some(hint)
    ensures WithHint(pair.removed, hint) == Holders(pair.base, hint.identity) == {a}
    ensures WithHint(pair.added, hint) == Holders(pair.target, hint.identity) == {b}
  {
    HoldersExist(pair.removed, pair.base, hint);
    HoldersExist(pair.added, pair.target, hint);
    a :| a in WithHint(pair.removed, hint);
    b :| b in WithHint(pair.added, hint);
    assert a in pair.removed && b in pair.added && HintOf(a) == HintOf(b) == Some(hint);
    hide WithKey, HintOf;
    Singleton(Holders(pair.base, hint.identity), a);
    Singleton(Holders(pair.target, hint.identity), b);
  }

  lemma DigestsOfOne(e: Entry, verified: bool)
    ensures Digests({e}, verified) == {SuccessfulDigest(e, verified)} && Locations({e}) == {LocationOf(e)}
  {
  }

  lemma SoleMatchIsCandidate(pair: Pair, verified: bool, a: Entry, b: Entry)
    requires WellFormed(pair) && SoleMatch(pair, verified, a, b)
    ensures RelationOf(pair, verified, HintOf(a).value) == Some(Relation(MovedKind(a, b), {LocationOf(a)}, {LocationOf(b)}))
    ensures HintOf(a).value in SharedHints(pair)
  {
    var hint := HintOf(a).value;
    assert a in WithHint(pair.removed, hint) && b in WithHint(pair.added, hint);
    HoldersExist(pair.removed, pair.base, hint);
    HoldersExist(pair.added, pair.target, hint);
    assert WithHint(pair.removed, hint) == {a} && WithHint(pair.added, hint) == {b};
    DigestsOfOne(a, verified);
    DigestsOfOne(b, verified);
    assert {SuccessfulDigest(a, verified)} + {SuccessfulDigest(b, verified)} == {SuccessfulDigest(a, verified)};
  }

  lemma SameEntry(entries: seq<Entry>, a: Entry, b: Entry)
    requires UniqueLocations(entries) && a in entries && b in entries && LocationOf(a) == LocationOf(b)
    ensures a == b
  {
  }

  /** The moves proposed form a one-to-one matching: no path is the source of two, or the target of two. */
  lemma CandidatesAreOneToOne(pair: Pair, verified: bool, h1: Hint, h2: Hint)
    requires WellFormed(pair)
    requires var all := TransitionsOf(pair, verified, SharedHints(pair));
             && h1 in all && h2 in all && IsCandidate(all[h1]) && IsCandidate(all[h2])
             && (all[h1].sources * all[h2].sources != {} || all[h1].targets * all[h2].targets != {})
    ensures h1 == h2
  {
    hide RelationOf, SharedHints, HintOf, SuccessfulDigest, UniqueLocations;
    var a1, b1 := CandidateIsSoleMatch(pair, verified, h1);
    var a2, b2 := CandidateIsSoleMatch(pair, verified, h2);
    if LocationOf(a1) == LocationOf(a2) {
      SameEntry(pair.base, a1, a2);
    } else {
      SameEntry(pair.target, b1, b2);
    }
  }

  /** A removed and an added path are proposed as one move exactly when they are the sole match. */
  lemma ProposedExactlyWhenSoleMatch(pair: Pair, verified: bool, a: Entry, b: Entry)
    requires WellFormed(pair) && a in pair.removed && b in pair.added
    ensures (exists h :: h in TransitionsOf(pair, verified, SharedHints(pair))
                         && IsCandidate(TransitionsOf(pair, verified, SharedHints(pair))[h])
                         && LocationOf(a) in TransitionsOf(pair, verified, SharedHints(pair))[h].sources
                         && LocationOf(b) in TransitionsOf(pair, verified, SharedHints(pair))[h].targets)
       <==> SoleMatch(pair, verified, a, b)
  {
    hide RelationOf, SharedHints, HintOf, SuccessfulDigest, UniqueLocations;
    var all := TransitionsOf(pair, verified, SharedHints(pair));
    if h :| h in all && IsCandidate(all[h]) && LocationOf(a) in all[h].sources && LocationOf(b) in all[h].targets {
      var c, d := CandidateIsSoleMatch(pair, verified, h);
      SameEntry(pair.base, a, c);
      SameEntry(pair.target, b, d);
    }
    if SoleMatch(pair, verified, a, b) {
      SoleMatchIsCandidate(pair, verified, a, b);
      assert HintOf(a).value in all;
    }
  }

  /** What an ambiguous relation names: only paths of the object, on both sides. */
  lemma AmbiguousNamesOneObject(pair: Pair, verified: bool, hint: Hint, e: Entry)
    requires WellFormed(pair) && RelationOf(pair, verified, hint).Some? && !IsCandidate(RelationOf(pair, verified, hint).value)
    ensures e in pair.base && LocationOf(e) in RelationOf(pair, verified, hint).value.sources ==> e in Holders(pair.base, hint.identity)
    ensures e in pair.target && LocationOf(e) in RelationOf(pair, verified, hint).value.targets ==> e in Holders(pair.target, hint.identity)
  {
    var relation := RelationOf(pair, verified, hint).value;
    HoldersExist(pair.removed, pair.base, hint);
    HoldersExist(pair.added, pair.target, hint);
    if e in pair.base && LocationOf(e) in relation.sources {
      var other :| other in Holders(pair.base, hint.identity) && LocationOf(other) == LocationOf(e);
      SameEntry(pair.base, e, other);
    }
    if e in pair.target && LocationOf(e) in relation.targets {
      var other :| other in Holders(pair.target, hint.identity) && LocationOf(other) == LocationOf(e);
      SameEntry(pair.target, e, other);
    }
  }

  lemma OneHintPerPath(pair: Pair, verified: bool, h1: Hint, h2: Hint, a: Entry, b: Entry)
    requires WellFormed(pair) && SoleMatch(pair, verified, a, b) && HintOf(a) == Some(h1) && h1.identity == h2.identity
    requires WithHint(pair.removed, h2) != {}
    ensures h1 == h2
  {
    HoldersExist(pair.removed, pair.base, h2);
    var e :| e in WithHint(pair.removed, h2);
    assert e == a;
  }

  /** No path of a candidate occurs in an ambiguous component. */
  lemma CandidatesAvoidAmbiguity(pair: Pair, verified: bool, h1: Hint, h2: Hint)
    requires WellFormed(pair)
    requires var all := TransitionsOf(pair, verified, SharedHints(pair));
             h1 in all && h2 in all && IsCandidate(all[h1]) && !IsCandidate(all[h2])
    ensures var all := TransitionsOf(pair, verified, SharedHints(pair));
            all[h1].sources !! all[h2].sources && all[h1].targets !! all[h2].targets
  {
    hide SharedHints, HintOf, SuccessfulDigest, UniqueLocations, Decide, WithKey;
    var all := TransitionsOf(pair, verified, SharedHints(pair));
    var a, b := CandidateIsSoleMatch(pair, verified, h1);
    AmbiguousNamesOneObject(pair, verified, h2, a);
    AmbiguousNamesOneObject(pair, verified, h2, b);
    if !(all[h1].sources !! all[h2].sources && all[h1].targets !! all[h2].targets) {
      SameIdentity(pair, h1.identity, h2.identity, a, b);
      OneHintPerPath(pair, verified, h1, h2, a, b);
    }
  }

  lemma SameIdentity(pair: Pair, i: Identity, j: Identity, a: Entry, b: Entry)
    requires a in Holders(pair.base, i) && b in Holders(pair.target, i)
    requires a in Holders(pair.base, j) || b in Holders(pair.target, j)
    ensures i == j
  {
  }

  /** Two hints emit the same component exactly when they share device and inode: an object that has
      several birth times is reported once for each of them. */
  lemma ComponentsRepeatPerBirthTime(pair: Pair, verified: bool, h1: Hint, h2: Hint)
    requires WellFormed(pair) && h1 != h2
    requires h1 in TransitionsOf(pair, verified, SharedHints(pair)) && h2 in TransitionsOf(pair, verified, SharedHints(pair))
    ensures var all := TransitionsOf(pair, verified, SharedHints(pair));
            all[h1] == all[h2] <==> h1.identity == h2.identity
  {
    hide SharedHints, HintOf, SuccessfulDigest, UniqueLocations, Decide, WithKey;
    var all := TransitionsOf(pair, verified, SharedHints(pair));
    if h1.identity == h2.identity {
      SeveralBirthTimes(pair, verified, h1, h2);
    } else if all[h1] == all[h2] {
      if IsCandidate(all[h1]) {
        var a, b := CandidateIsSoleMatch(pair, verified, h1);
        assert LocationOf(a) in all[h1].sources * all[h2].sources;
        CandidatesAreOneToOne(pair, verified, h1, h2);
      } else {
        var e := AmbiguousHasSource(pair, verified, h1);
        AmbiguousNamesOneObject(pair, verified, h1, e);
        AmbiguousNamesOneObject(pair, verified, h2, e);
        OneIdentity(pair, h1.identity, h2.identity, e);
      }
    }
  }

  lemma OneIdentity(pair: Pair, i: Identity, j: Identity, e: Entry)
    requires e in Holders(pair.base, i) && e in Holders(pair.base, j)
    ensures i == j
  {
  }

  lemma AmbiguousHasSource(pair: Pair, verified: bool, hint: Hint) returns (e: Entry)
    requires WellFormed(pair) && RelationOf(pair, verified, hint).Some? && !IsCandidate(RelationOf(pair, verified, hint).value)
    ensures e in pair.base && LocationOf(e) in RelationOf(pair, verified, hint).value.sources
  {
    HoldersExist(pair.removed, pair.base, hint);
    e :| e in WithHint(pair.removed, hint);
    assert e in Holders(pair.base, hint.identity);
  }

  lemma SeveralBirthTimes(pair: Pair, verified: bool, h1: Hint, h2: Hint)
    requires WellFormed(pair) && h1 != h2 && h1.identity == h2.identity
    requires RelationOf(pair, verified, h1).Some? && RelationOf(pair, verified, h2).Some?
    ensures RelationOf(pair, verified, h1) == RelationOf(pair, verified, h2)
  {
    HoldersExist(pair.removed, pair.base, h1);
    HoldersExist(pair.removed, pair.base, h2);
    HoldersExist(pair.added, pair.target, h1);
    HoldersExist(pair.added, pair.target, h2);
    var e1 :| e1 in WithHint(pair.removed, h1);
    var e2 :| e2 in WithHint(pair.removed, h2);
    var holders := Holders(pair.base, h1.identity);
    assert e1 != e2 && e1 in holders && e2 in holders;
    if |holders| <= 1 {
      Singleton(holders, e1);
    }
  }

  function SampleEntry(snapshotId: nat, path: string, birthtime: int): Entry {
    Entry(snapshotId, "scope", path, REGULAR_FILE, Some(1), Some(1), Some(1), Some(0), Some(0), Some(birthtime), Some(2), None, OBSERVED, false, 0,
          Some(PayloadObservation(HASHED, Some("sha256"), Some(1), Some(seq(64, _ => '0')), Some(1), Some(DIRECT_READ), None)))
  }

  lemma SampleFacts(snapshotId: nat, path: string, birthtime: int)
    ensures var e := SampleEntry(snapshotId, path, birthtime);
            && HintOf(e) == Some(Hint(Identity(1, 1), birthtime)) && IdentityOf(e) == Some(Identity(1, 1))
            && SuccessfulDigest(e, false).Some? && LocationOf(e) == ("scope", path)
  {
  }

  /** Such a repetition does occur: one inode seen under two birth times in both Snapshots. */
  lemma RepeatedComponentExample() returns (pair: Pair, h1: Hint, h2: Hint)
    ensures WellFormed(pair) && h1 != h2
    ensures var all := TransitionsOf(pair, false, SharedHints(pair));
            && h1 in all && h2 in all && all[h1].kind == AMBIGUOUS_LOCATION_TRANSITION && all[h1] == all[h2]
  {
    var a1, a2 := SampleEntry(1, "a", 1), SampleEntry(1, "b", 2);
    var b1, b2 := SampleEntry(2, "c", 1), SampleEntry(2, "d", 2);
    SampleFacts(1, "a", 1);
    SampleFacts(1, "b", 2);
    SampleFacts(2, "c", 1);
    SampleFacts(2, "d", 2);
    hide SampleEntry, HintOf, IdentityOf, SuccessfulDigest, Decide, WithKey, SharedHints, RelationOf;
    assert "a"[0] != "b"[0] && "c"[0] != "d"[0];
    pair := Pair([a1, a2], [b1, b2], [a1, a2], [b1, b2]);
    assert WellFormed(pair);
    hide WellFormed, UniqueLocations;
    h1, h2 := Hint(Identity(1, 1), 1), Hint(Identity(1, 1), 2);
    SampleTransition(pair, a1, a2, b1, b2, h1);
    SampleTransition(pair, a2, a1, b2, b1, h2);
    SeveralBirthTimes(pair, false, h1, h2);
  }

  lemma SampleTransition(pair: Pair, a: Entry, a': Entry, b: Entry, b': Entry, hint: Hint)
    requires forall e :: e in pair.removed <==> e == a || e == a'
    requires forall e :: e in pair.added <==> e == b || e == b'
    requires pair.base == pair.removed && pair.target == pair.added && a != a'
    requires HintOf(a) == Some(hint) && HintOf(b) == Some(hint) && HintOf(a') != Some(hint) && HintOf(b') != Some(hint)
    requires IdentityOf(a') == IdentityOf(a)
    requires SuccessfulDigest(a, false).Some? && SuccessfulDigest(b, false).Some?
    ensures hint in SharedHints(pair) && RelationOf(pair, false, hint).Some?
    ensures RelationOf(pair, false, hint).value.kind == AMBIGUOUS_LOCATION_TRANSITION
  {
    hide SuccessfulDigest;
    assert WithHint(pair.removed, hint) == {a} && WithHint(pair.added, hint) == {b};
    DigestsOfOne(a, false);
    DigestsOfOne(b, false);
    var holders := Holders(pair.base, hint.identity);
    assert a in holders && a' in holders;
    if |holders| <= 1 {
      Singleton(holders, a);
    }
  }

  // ------------------------------------------------------------------ the transitions, told by the entries

  /** An observed, included regular file with this device, inode and birth time. */
  ghost predicate Carries(e: Entry, hint: Hint) {
    && e.objectType == REGULAR_FILE && e.observation == OBSERVED && !e.excluded
    && e.deviceId == Some(hint.identity.device) && e.inode == Some(hint.identity.inode) && e.birthtimeNs == Some(hint.birthtime)
  }

  ghost predicate IsPathOf(e: Entry, identity: Identity) {
    e.deviceId == Some(identity.device) && e.inode == Some(identity.inode)
  }

  /** The content is known by this SHA-256 digest of the whole file: read directly, or reused and verified. */
  ghost predicate KnownAs(e: Entry, verified: bool, digest: string) {
    e.payload.Some? &&
    var p := e.payload.value;
    && (p.status == HASHED || p.status == EMPTY_FILE_HASHED) && p.algorithm == Some("sha256") && p.algorithmVersion == Some(1)
    && p.digest == Some(digest) && |digest| == 64 && (forall i :: 0 <= i < |digest| ==> digest[i] in "0123456789abcdef")
    && p.bytesHashed == e.sizeBytes
    && (p.provenance == Some(DIRECT_READ) || (p.provenance == Some(REUSED_FROM_VERIFIED_SNAPSHOT) && verified && p.reusedFrom.Some?))
  }

  /** Several paths of one object in one Snapshot. */
  ghost predicate HasAliases(entries: seq<Entry>, identity: Identity) {
    exists a, b :: a in entries && b in entries && a != b && IsPathOf(a, identity) && IsPathOf(b, identity)
  }

  ghost predicate MovedFrom(pair: Pair, hint: Hint, e: Entry) {
    e in pair.removed && Carries(e, hint)
  }

  ghost predicate MovedTo(pair: Pair, hint: Hint, e: Entry) {
    e in pair.added && Carries(e, hint)
  }

  /** A relation names exactly the paths of the object if it has several in either Snapshot, and exactly the moved
      paths otherwise. */
  ghost predicate Names(pair: Pair, hint: Hint, aliased: bool, relation: Relation) {
    && (forall l :: l in relation.sources <==>
          exists e: Entry :: l == (e.scopeId, e.relativePath) && if aliased then e in pair.base && IsPathOf(e, hint.identity) else MovedFrom(pair, hint, e))
    && (forall l :: l in relation.targets <==>
          exists e: Entry :: l == (e.scopeId, e.relativePath) && if aliased then e in pair.target && IsPathOf(e, hint.identity) else MovedTo(pair, hint, e))
  }

  ghost predicate AllKnown(pair: Pair, verified: bool, hint: Hint) {
    forall e :: MovedFrom(pair, hint, e) || MovedTo(pair, hint, e) ==> exists digest :: KnownAs(e, verified, digest)
  }

  ghost predicate Differ(pair: Pair, verified: bool, hint: Hint) {
    exists a, b, x, y :: MovedFrom(pair, hint, a) && MovedTo(pair, hint, b) && KnownAs(a, verified, x) && KnownAs(b, verified, y) && x != y
  }

  /** All moved paths are of one scope, or of two. */
  ghost predicate SameScope(pair: Pair, hint: Hint, same: bool) {
    forall a, b :: MovedFrom(pair, hint, a) && MovedTo(pair, hint, b) ==> (same <==> a.scopeId == b.scopeId)
  }

  /** What is reported for a hint: something only if it is carried on both sides and all contents are known; then an
      ambiguity if the object has several paths or the contents differ, and else a move within or across scopes. */
  ghost predicate Reports(pair: Pair, verified: bool, hint: Hint, relation: Relation) {
    var aliased := HasAliases(pair.base, hint.identity) || HasAliases(pair.target, hint.identity);
    && (exists a :: MovedFrom(pair, hint, a)) && (exists b :: MovedTo(pair, hint, b))
    && AllKnown(pair, verified, hint) && Names(pair, hint, aliased, relation)
    && (relation.kind == AMBIGUOUS_LOCATION_TRANSITION <==> aliased || Differ(pair, verified, hint))
    && (relation.kind == RENAME_CANDIDATE ==> SameScope(pair, hint, true))
    && (relation.kind == CROSS_SCOPE_TRANSITION_CANDIDATE ==> SameScope(pair, hint, false))
  }

  lemma HintIsCarried(e: Entry, hint: Hint)
    ensures HintOf(e) == Some(hint) <==> Carries(e, hint)
    ensures IdentityOf(e) == Some(hint.identity) <==> IsPathOf(e, hint.identity)
  {
  }

  lemma DigestIsKnown(e: Entry, verified: bool)
    ensures forall digest :: SuccessfulDigest(e, verified) == Some(digest) <==> KnownAs(e, verified, digest)
    ensures SuccessfulDigest(e, verified).Some? <==> exists digest :: KnownAs(e, verified, digest)
  {
    forall digest ensures SuccessfulDigest(e, verified) == Some(digest) <==> KnownAs(e, verified, digest) {
    }
  }

  lemma SeveralHold(entries: seq<Entry>, identity: Identity)
    ensures |Holders(entries, identity)| > 1 <==> HasAliases(entries, identity)
  {
    var holders := Holders(entries, identity);
    forall e ensures e in holders <==> e in entries && IsPathOf(e, identity) {
      HintIsCarried(e, Hint(identity, 0));
    }
    hide WithKey, IdentityOf, IsPathOf;
    if |holders| > 1 {
      var a :| a in holders;
      assert |holders - {a}| >= 1;
      var b :| b in holders - {a};
      assert HasAliases(entries, identity);
    }
    if HasAliases(entries, identity) {
      var a, b :| a in entries && b in entries && a != b && IsPathOf(a, identity) && IsPathOf(b, identity);
      if |holders| <= 1 {
        Singleton(holders, a);
      }
    }
  }

  /** The sets the decision is made from. */
  lemma MovedSets(pair: Pair, hint: Hint)
    ensures forall e :: e in WithHint(pair.removed, hint) <==> MovedFrom(pair, hint, e)
    ensures forall e :: e in WithHint(pair.added, hint) <==> MovedTo(pair, hint, e)
    ensures forall e :: e in Holders(pair.base, hint.identity) <==> e in pair.base && IsPathOf(e, hint.identity)
    ensures forall e :: e in Holders(pair.target, hint.identity) <==> e in pair.target && IsPathOf(e, hint.identity)
  {
    forall e: Entry
      ensures HintOf(e) == Some(hint) <==> Carries(e, hint)
      ensures IdentityOf(e) == Some(hint.identity) <==> IsPathOf(e, hint.identity)
    {
      HintIsCarried(e, hint);
    }
    hide HintOf, IdentityOf, Carries, IsPathOf;
  }

  /** Known contents are one content exactly when no two of them differ. */
  lemma OneContent(sources: set<Entry>, targets: set<Entry>, a: Entry, b: Entry, verified: bool)
    requires sources == {a} && targets == {b} && SuccessfulDigest(a, verified).Some? && SuccessfulDigest(b, verified).Some?
    ensures |Digests(sources, verified) + Digests(targets, verified)| == 1 <==> SuccessfulDigest(a, verified) == SuccessfulDigest(b, verified)
  {
    DigestsOfOne(a, verified);
    DigestsOfOne(b, verified);
    TwoOrOne(SuccessfulDigest(a, verified), SuccessfulDigest(b, verified));
  }

  /** There is a decision exactly when the hint is carried on both sides and all contents are known. */
  lemma DecidedExactly(pair: Pair, verified: bool, hint: Hint)
    ensures RelationOf(pair, verified, hint).Some? <==>
              (exists a :: MovedFrom(pair, hint, a)) && (exists b :: MovedTo(pair, hint, b)) && AllKnown(pair, verified, hint)
  {
    MovedSets(pair, hint);
    hide WithKey, HintOf, IdentityOf, Carries, IsPathOf;
    var sources, targets := WithHint(pair.removed, hint), WithHint(pair.added, hint);
    forall e: Entry ensures SuccessfulDigest(e, verified).Some? <==> exists digest :: KnownAs(e, verified, digest) {
      DigestIsKnown(e, verified);
    }
    hide SuccessfulDigest, KnownAs, MovedFrom, MovedTo;
    DigestsKnown(sources, verified);
    DigestsKnown(targets, verified);
    hide Decide, Digests;
    assert sources != {} <==> exists a :: MovedFrom(pair, hint, a);
    assert targets != {} <==> exists b :: MovedTo(pair, hint, b);
    if sources != {} && targets != {} {
      DecidedWhenKnown(sources, targets, Holders(pair.base, hint.identity), Holders(pair.target, hint.identity), verified);
    }
  }

  lemma DecidedWhenKnown(sources: set<Entry>, targets: set<Entry>, holders: set<Entry>, newHolders: set<Entry>, verified: bool)
    requires sources != {} && targets != {}
    ensures Decide(sources, targets, holders, newHolders, verified).Some? <==> None !in Digests(sources, verified) && None !in Digests(targets, verified)
  {
    hide SuccessfulDigest, Digests;
  }

  /** The decision is what is reported. */
  lemma RelationIsReported(pair: Pair, verified: bool, hint: Hint)
    requires WellFormed(pair)
    ensures RelationOf(pair, verified, hint).Some? ==> Reports(pair, verified, hint, RelationOf(pair, verified, hint).value)
    ensures RelationOf(pair, verified, hint).None? ==> forall relation :: !Reports(pair, verified, hint, relation)
  {
    DecidedExactly(pair, verified, hint);
    hide WellFormed, RelationOf, Names, MovedFrom, MovedTo, AllKnown, Differ, SameScope, HasAliases;
    if RelationOf(pair, verified, hint).Some? {
      NamesWhatItShould(pair, verified, hint);
      KindIsRight(pair, verified, hint);
    }
  }

  lemma DigestsKnown(entries: set<Entry>, verified: bool)
    ensures None in Digests(entries, verified) <==> exists e :: e in entries && SuccessfulDigest(e, verified).None?
  {
  }

  lemma NamesWhatItShould(pair: Pair, verified: bool, hint: Hint)
    requires RelationOf(pair, verified, hint).Some?
    ensures Names(pair, hint, HasAliases(pair.base, hint.identity) || HasAliases(pair.target, hint.identity), RelationOf(pair, verified, hint).value)
  {
    MovedSets(pair, hint);
    SeveralHold(pair.base, hint.identity);
    SeveralHold(pair.target, hint.identity);
    hide WithKey, HintOf, IdentityOf, Carries, IsPathOf, HasAliases, SuccessfulDigest;
  }

  lemma KindIsRight(pair: Pair, verified: bool, hint: Hint)
    requires WellFormed(pair) && RelationOf(pair, verified, hint).Some?
    ensures var relation, aliased := RelationOf(pair, verified, hint).value, HasAliases(pair.base, hint.identity) || HasAliases(pair.target, hint.identity);
            && (relation.kind == AMBIGUOUS_LOCATION_TRANSITION <==> aliased || Differ(pair, verified, hint))
            && (relation.kind == RENAME_CANDIDATE ==> SameScope(pair, hint, true))
            && (relation.kind == CROSS_SCOPE_TRANSITION_CANDIDATE ==> SameScope(pair, hint, false))
  {
    MovedSets(pair, hint);
    SeveralHold(pair.base, hint.identity);
    SeveralHold(pair.target, hint.identity);
    HoldersExist(pair.removed, pair.base, hint);
    HoldersExist(pair.added, pair.target, hint);
    hide WithKey, HintOf, IdentityOf, Carries, IsPathOf, HasAliases, UniqueLocations;
    var sources, targets := WithHint(pair.removed, hint), WithHint(pair.added, hint);
    var holders, newHolders := Holders(pair.base, hint.identity), Holders(pair.target, hint.identity);
    if |holders| <= 1 && |newHolders| <= 1 {
      var a, b := OnlyPaths(pair, hint);
      DigestsKnown(sources, verified);
      DigestsKnown(targets, verified);
      DigestIsKnown(a, verified);
      DigestIsKnown(b, verified);
      OneContent(sources, targets, a, b, verified);
      hide SuccessfulDigest, KnownAs;
      assert MovedFrom(pair, hint, a) && MovedTo(pair, hint, b);
      assert forall e :: MovedFrom(pair, hint, e) ==> e == a;
      assert forall e :: MovedTo(pair, hint, e) ==> e == b;
    }
  }

  /** The transitions computed are exactly those reported. */
  lemma TransitionsAreReported(pair: Pair, verified: bool, hint: Hint, relation: Relation)
    requires WellFormed(pair)
    ensures var all := TransitionsOf(pair, verified, SharedHints(pair));
            (hint in all && all[hint] == relation) <==> Reports(pair, verified, hint, relation)
  {
    RelationIsReported(pair, verified, hint);
    hide HintOf, IdentityOf, Carries, KnownAs, HasAliases, UniqueLocations;
    if RelationOf(pair, verified, hint).Some? {
      SharedWhenBoth(pair, hint);
      hide RelationOf, SharedHints;
      if Reports(pair, verified, hint, relation) {
        OneReport(pair, verified, hint, relation, RelationOf(pair, verified, hint).value);
      }
    } else {
      hide RelationOf, SharedHints;
    }
  }

  lemma SharedWhenBoth(pair: Pair, hint: Hint)
    requires WithHint(pair.removed, hint) != {} && WithHint(pair.added, hint) != {}
    ensures hint in SharedHints(pair)
  {
    var e :| e in WithHint(pair.removed, hint);
  }

  /** What is reported for a hint leaves nothing open. */
  lemma OneReport(pair: Pair, verified: bool, hint: Hint, r: Relation, s: Relation)
    requires Reports(pair, verified, hint, r) && Reports(pair, verified, hint, s)
    ensures r == s
  {
    hide Carries, HasAliases, IsPathOf, AllKnown, Differ;
    assert r.sources == s.sources && r.targets == s.targets;
    var a :| MovedFrom(pair, hint, a);
    var b :| MovedTo(pair, hint, b);
  }

  // ------------------------------------------------------------------ the whole comparison

  /** The entries of `entries` whose location `others` does not have. */
  function Missing(entries: seq<Entry>, others: seq<Entry>): seq<Entry> {
    if entries == [] then []
    else
      var rest := Missing(entries[..|entries| - 1], others);
      var last := entries[|entries| - 1];
      if exists i :: 0 <= i < |others| && LocationOf(others[i]) == LocationOf(last) then rest else rest + [last]
  }

  lemma {:induction false} MissingAreMembers(entries: seq<Entry>, others: seq<Entry>)
    ensures forall e :: e in Missing(entries, others) <==> e in entries && forall o :: o in others ==> LocationOf(o) != LocationOf(e)
  {
    if entries != [] {
      MissingAreMembers(entries[..|entries| - 1], others);
    }
  }

  /** Exactly the entries at a scope and path that the other Snapshot does not have. */
  ghost predicate OnlyThere(entries: seq<Entry>, others: seq<Entry>, only: seq<Entry>) {
    forall e :: e in only <==> e in entries && forall o :: o in others ==> (o.scopeId, o.relativePath) != (e.scopeId, e.relativePath)
  }

  predicate AllOf(entries: seq<Entry>, snapshotId: nat) {
    forall i :: 0 <= i < |entries| ==> entries[i].snapshotId == snapshotId
  }

  /** The transitions between two Snapshots; an error for a wrong pair, foreign or repeated entries, and
      none at all between Snapshots that are not adjacent. */
  method ComputeSnapshotTransitions(baseId: nat, base: seq<Entry>, baseCompleted: int, targetId: nat, target: seq<Entry>, targetStarted: int,
                                    adjacent: bool, verified: bool) returns (result: Option<map<Hint, Relation>>, ghost pair: Pair)
    ensures result.Some? <==> && baseId != targetId && baseCompleted <= targetStarted
                              && AllOf(base, baseId) && UniqueLocations(base) && AllOf(target, targetId) && UniqueLocations(target)
    ensures pair == Pair(Missing(base, target), Missing(target, base), base, target) && OnlyThere(base, target, pair.removed) && OnlyThere(target, base, pair.added)
    ensures result.Some? ==> WellFormed(pair)
    ensures result.Some? && adjacent ==> forall hint, relation :: (hint in result.value && result.value[hint] == relation) <==> Reports(pair, verified, hint, relation)
    ensures result.Some? ==> result.value == if adjacent then TransitionsOf(pair, verified, SharedHints(pair)) else map[]
  {
    pair := Pair(Missing(base, target), Missing(target, base), base, target);
    MissingAreMembers(base, target);
    MissingAreMembers(target, base);
    hide TransitionsOf, SharedHints, Missing, Reports;
    if baseId == targetId || baseCompleted > targetStarted {
      return None, pair;
    }
    var baseOk := CheckEntries(base, baseId);
    var targetOk := CheckEntries(target, targetId);
    if !baseOk || !targetOk {
      return None, pair;
    }
    if !adjacent {
      return Some(map[]), pair;
    }
    var removed := Missing(base, target);
    var added := Missing(target, base);
    var relations := TransitionRelations(Pair(removed, added, base, target), verified);
    forall hint, relation ensures (hint in relations && relations[hint] == relation) <==> Reports(pair, verified, hint, relation) {
      TransitionsAreReported(pair, verified, hint, relation);
    }
    result := Some(relations);
  }
}
