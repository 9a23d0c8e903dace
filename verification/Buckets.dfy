/** `defaultdict(list)` over Snapshot entries. Locations are unique, so a bucket is a set of entries. */
module Buckets {
  import opened Options
  import opened SnapshotEntries

  function Members(entries: seq<Entry>): set<Entry> {
    set e | e in entries
  }

  function WithKey<K(==)>(entries: seq<Entry>, keyOf: Entry -> Option<K>, key: K): set<Entry> {
    set e | e in entries && keyOf(e) == Some(key)
  }

  ghost predicate AreBuckets<K(!new)>(entries: seq<Entry>, keyOf: Entry -> Option<K>, buckets: map<K, set<Entry>>) {
    && (forall k :: k in buckets <==> WithKey(entries, keyOf, k) != {})
    && (forall k :: k in buckets ==> buckets[k] == WithKey(entries, keyOf, k))
  }

  lemma BucketGrows<K(!new)>(entries: seq<Entry>, keyOf: Entry -> Option<K>, buckets: map<K, set<Entry>>, e: Entry)
    requires AreBuckets(entries, keyOf, buckets)
    ensures keyOf(e).None? ==> AreBuckets(entries + [e], keyOf, buckets)
    ensures keyOf(e).Some? ==>
              var k := keyOf(e).value;
              AreBuckets(entries + [e], keyOf, buckets[k := (if k in buckets then buckets[k] else {}) + {e}])
  {
    forall k ensures WithKey(entries + [e], keyOf, k) == WithKey(entries, keyOf, k) + (if keyOf(e) == Some(k) then {e} else {}) {
    }
  }

  /** `defaultdict(list)` filled in a loop over the entries. */
  method Bucket<K(==, !new)>(entries: seq<Entry>, keyOf: Entry -> Option<K>) returns (buckets: map<K, set<Entry>>)
    ensures AreBuckets(entries, keyOf, buckets)
  {
    buckets := map[];
    for i := 0 to |entries|
      invariant AreBuckets(entries[..i], keyOf, buckets)
    {
      hide AreBuckets;
      BucketGrows(entries[..i], keyOf, buckets, entries[i]);
      assert entries[..i + 1] == entries[..i] + [entries[i]];
      var key := keyOf(entries[i]);
      if key.Some? {
        buckets := buckets[key.value := (if key.value in buckets then buckets[key.value] else {}) + {entries[i]}];
      }
    }
    assert entries[..|entries|] == entries;
  }

  /** Every entry belongs to the Snapshot and no location comes twice. */
  method CheckEntries(entries: seq<Entry>, snapshotId: nat) returns (ok: bool)
    ensures ok <==> (forall i :: 0 <= i < |entries| ==> entries[i].snapshotId == snapshotId) && UniqueLocations(entries)
  {
    var seen: set<Location> := {};
    for i := 0 to |entries|
      invariant forall j :: 0 <= j < i ==> entries[j].snapshotId == snapshotId
      invariant forall location :: location in seen <==> exists j :: 0 <= j < i && LocationOf(entries[j]) == location
      invariant forall j, k :: 0 <= j < k < i ==> LocationOf(entries[j]) != LocationOf(entries[k])
    {
      if entries[i].snapshotId != snapshotId || LocationOf(entries[i]) in seen {
        return false;
      }
      seen := seen + {LocationOf(entries[i])};
    }
    ok := true;
  }
}
