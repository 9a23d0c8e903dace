/** The bounded parse cache: what its locked sections do to the LRU-ordered entries. */
module ParseCache {
  import opened Options

  type Key = (string, string, string)
  type Value = nat

  /** One cached value with its key; the list order is the insertion/recency order, oldest first. */
  datatype Slot = Slot(key: Key, value: Value, size: nat, expiresAt: real)

  // ------------------------------------------------------------------ the sections as values

  function Keys(slots: seq<Slot>): set<Key> {
    set i | 0 <= i < |slots| :: slots[i].key
  }

  predicate UniqueKeys(slots: seq<Slot>) {
    forall i, j :: 0 <= i < j < |slots| ==> slots[i].key != slots[j].key
  }

  function TotalSize(slots: seq<Slot>): nat {
    if slots == [] then 0 else slots[0].size + TotalSize(slots[1..])
  }

  function Live(slots: seq<Slot>, now: real): seq<Slot> {
    if slots == [] then [] else (if slots[0].expiresAt > now then [slots[0]] else []) + Live(slots[1..], now)
  }

  function Without(slots: seq<Slot>, key: Key): seq<Slot> {
    if slots == [] then [] else (if slots[0].key != key then [slots[0]] else []) + Without(slots[1..], key)
  }

  function Lookup(slots: seq<Slot>, key: Key): Option<Slot> {
    if slots == [] then None else if slots[0].key == key then Some(slots[0]) else Lookup(slots[1..], key)
  }

  /** `move_to_end`. */
  function Touched(slots: seq<Slot>, key: Key): seq<Slot> {
    if Lookup(slots, key).None? then slots else Without(slots, key) + [Lookup(slots, key).value]
  }

  predicate Fits(slots: seq<Slot>, maxEntries: nat, maxBytes: nat) {
    |slots| <= maxEntries && TotalSize(slots) <= maxBytes
  }

  /** Dropping oldest entries until both bounds hold. */
  function Evicted(slots: seq<Slot>, maxEntries: nat, maxBytes: nat): seq<Slot> {
    if Fits(slots, maxEntries, maxBytes) || slots == [] then slots else Evicted(slots[1..], maxEntries, maxBytes)
  }

  function Inserted(slots: seq<Slot>, slot: Slot, maxEntries: nat, maxBytes: nat): seq<Slot> {
    Evicted(Without(slots, slot.key) + [slot], maxEntries, maxBytes)
  }

  // ------------------------------------------------------------------ what the order means

  /** In this list `a` is older than `b`. */
  ghost predicate Before(slots: seq<Slot>, a: Slot, b: Slot) {
    exists i, j :: 0 <= i < j < |slots| && slots[i] == a && slots[j] == b
  }

  /** A live entry for the key. */
  ghost predicate Holds(slots: seq<Slot>, key: Key, now: real, slot: Slot) {
    slot in slots && slot.key == key && slot.expiresAt > now
  }

  /** What a lookup leaves behind: exactly the live entries, the key's own as the newest, and any two
      others in the order they had. */
  ghost predicate LookedUp(before: seq<Slot>, key: Key, now: real, after: seq<Slot>) {
    && UniqueKeys(after)
    && (forall slot :: slot in after <==> slot in before && slot.expiresAt > now)
    && (forall slot :: Holds(before, key, now, slot) ==> after != [] && after[|after| - 1] == slot)
    && (forall a: Slot, b: Slot :: a.key != key && b.key != key ==>
          (Before(after, a, b) <==> Before(before, a, b) && a.expiresAt > now && b.expiresAt > now))
  }

  /** An entry of another key that an insertion has pushed out. */
  ghost predicate Evictee(before: seq<Slot>, slot: Slot, after: seq<Slot>, a: Slot) {
    a in before && a.key != slot.key && a !in after
  }

  /** What an insertion leaves behind: the entry as the newest one, both bounds, the other survivors in
      the order they had; what was pushed out is older than all of them, and the newest entry pushed out
      would not have fitted beside them. */
  ghost predicate Stored(before: seq<Slot>, slot: Slot, maxEntries: nat, maxBytes: nat, after: seq<Slot>) {
    && UniqueKeys(after) && Fits(after, maxEntries, maxBytes)
    && after != [] && after[|after| - 1] == slot
    && (forall other :: other in after && other.key != slot.key ==> other in before)
    && (forall a, b :: a in after && b in after && a.key != slot.key && b.key != slot.key ==> (Before(after, a, b) <==> Before(before, a, b)))
    && (forall a, b :: Evictee(before, slot, after, a) && b in after && b.key != slot.key ==> Before(before, a, b))
    && (forall a :: Evictee(before, slot, after, a) && (forall c :: Evictee(before, slot, after, c) && c != a ==> Before(before, c, a)) ==>
          !Fits([a] + after, maxEntries, maxBytes))
  }

  // ------------------------------------------------------------------ laws

  lemma BeforeInTail(slots: seq<Slot>, a: Slot, b: Slot)
    requires slots != []
    ensures Before(slots, a, b) <==> (a == slots[0] && b in slots[1..]) || Before(slots[1..], a, b)
  {
    var rest := slots[1..];
    if Before(slots, a, b) {
      var i, j :| 0 <= i < j < |slots| && slots[i] == a && slots[j] == b;
      assert rest[j - 1] == b;
      if i > 0 {
        assert rest[i - 1] == a;
      }
    }
    if a == slots[0] && b in rest {
      var j :| 0 <= j < |rest| && rest[j] == b;
      assert slots[j + 1] == b;
    }
    if Before(rest, a, b) {
      var i, j :| 0 <= i < j < |rest| && rest[i] == a && rest[j] == b;
      assert slots[i + 1] == a && slots[j + 1] == b;
    }
  }

  /** Expiry keeps any two survivors in order. */
  lemma {:induction false} LiveKeepsOrder(slots: seq<Slot>, now: real, a: Slot, b: Slot)
    requires UniqueKeys(slots)
    ensures Before(Live(slots, now), a, b) <==> Before(slots, a, b) && a.expiresAt > now && b.expiresAt > now
  {
    if slots != [] {
      var rest := slots[1..];
      LiveKeepsOrder(rest, now, a, b);
      LiveFacts(rest, now);
      BeforeInTail(slots, a, b);
      if slots[0].expiresAt > now {
        BeforeInTail(Live(slots, now), a, b);
        assert Live(slots, now)[1..] == Live(rest, now);
      } else {
        assert Live(slots, now) == Live(rest, now);
      }
      hide Live, UniqueKeys;
    }
  }

  /** Taking a key out keeps any two others in order. */
  lemma {:induction false} WithoutKeepsOrder(slots: seq<Slot>, key: Key, a: Slot, b: Slot)
    requires UniqueKeys(slots)
    ensures Before(Without(slots, key), a, b) <==> Before(slots, a, b) && a.key != key && b.key != key
  {
    if slots != [] {
      var rest := slots[1..];
      WithoutKeepsOrder(rest, key, a, b);
      WithoutFacts(rest, key);
      BeforeInTail(slots, a, b);
      if slots[0].key != key {
        BeforeInTail(Without(slots, key), a, b);
        assert Without(slots, key)[1..] == Without(rest, key);
      } else {
        assert Without(slots, key) == Without(rest, key);
      }
      hide Without, UniqueKeys;
    }
  }

  /** What comes in at the new end leaves any two earlier entries in order. */
  lemma AppendKeepsOrder(slots: seq<Slot>, slot: Slot, a: Slot, b: Slot)
    requires a != slot && b != slot
    ensures Before(slots + [slot], a, b) <==> Before(slots, a, b)
  {
    var more := slots + [slot];
    if Before(more, a, b) {
      var i, j :| 0 <= i < j < |more| && more[i] == a && more[j] == b;
      assert slots[i] == a && slots[j] == b;
    }
    if Before(slots, a, b) {
      var i, j :| 0 <= i < j < |slots| && slots[i] == a && slots[j] == b;
      assert more[i] == a && more[j] == b;
    }
  }

  /** What is dropped at the old end leaves any two later entries in order, and is older than all of them. */
  lemma SuffixKeepsOrder(slots: seq<Slot>, k: nat, a: Slot, b: Slot)
    requires UniqueKeys(slots) && k <= |slots| && b in slots[k..]
    ensures a in slots[k..] ==> (Before(slots[k..], a, b) <==> Before(slots, a, b))
    ensures a in slots && a !in slots[k..] ==> Before(slots, a, b)
  {
    var q :| 0 <= q < |slots| - k && slots[k..][q] == b;
    assert slots[q + k] == b;
    if a in slots {
      var p :| 0 <= p < |slots| && slots[p] == a;
      if p >= k {
        assert slots[k..][p - k] == a;
      }
      if a in slots[k..] {
        var r :| 0 <= r < |slots| - k && slots[k..][r] == a;
        assert slots[r + k] == a;
      }
    }
  }

  /** Entries and order together leave nothing open. */
  lemma {:induction false} OrderDeterminesTheList(a: seq<Slot>, b: seq<Slot>)
    requires UniqueKeys(a) && UniqueKeys(b)
    requires forall slot :: slot in a <==> slot in b
    requires forall x, y :: Before(a, x, y) <==> Before(b, x, y)
    ensures a == b
  {
    assert (a != [] ==> a[0] in b) && (b != [] ==> b[0] in a);
    if a != [] {
      var p :| 0 <= p < |b| && b[p] == a[0];
      assert p > 0 ==> Before(b, b[0], b[p]);
      NothingBeforeTheHead(a, b[0]);
      forall slot ensures slot in a[1..] <==> slot in b[1..] {
        assert slot in a <==> slot == a[0] || slot in a[1..];
        assert slot in b <==> slot == b[0] || slot in b[1..];
      }
      forall x, y ensures Before(a[1..], x, y) <==> Before(b[1..], x, y) {
        BeforeInTail(a, x, y);
        BeforeInTail(b, x, y);
        HeadIsNotLater(a, x, y);
        HeadIsNotLater(b, x, y);
      }
      OrderDeterminesTheList(a[1..], b[1..]);
    }
  }

  lemma NothingBeforeTheHead(slots: seq<Slot>, x: Slot)
    requires UniqueKeys(slots) && slots != []
    ensures !Before(slots, x, slots[0])
  {
  }

  lemma LastIsNotEarlier(slots: seq<Slot>, x: Slot, y: Slot)
    requires UniqueKeys(slots) && Before(slots, x, y)
    ensures slots != [] && x != slots[|slots| - 1]
  {
  }

  lemma HeadIsNotLater(slots: seq<Slot>, x: Slot, y: Slot)
    requires UniqueKeys(slots) && slots != []
    ensures Before(slots[1..], x, y) ==> x != slots[0]
  {
  }

  /** The state a lookup leaves is fixed by what `LookedUp` says of it. */
  lemma LookedUpLeavesOneList(before: seq<Slot>, key: Key, now: real, a: seq<Slot>, b: seq<Slot>)
    requires UniqueKeys(before) && LookedUp(before, key, now, a) && LookedUp(before, key, now, b)
    ensures a == b
  {
    forall x, y ensures Before(a, x, y) <==> Before(b, x, y) {
      if Before(a, x, y) {
        BeforeWithKey(before, key, now, a, b, x, y);
      }
      if Before(b, x, y) {
        BeforeWithKey(before, key, now, b, a, x, y);
      }
    }
    OrderDeterminesTheList(a, b);
  }

  lemma BeforeWithKey(before: seq<Slot>, key: Key, now: real, a: seq<Slot>, b: seq<Slot>, x: Slot, y: Slot)
    requires UniqueKeys(before) && LookedUp(before, key, now, a) && LookedUp(before, key, now, b) && Before(a, x, y)
    ensures Before(b, x, y)
  {
    assert x in a && y in a;
    assert x in b && y in b;
    LastIsNotEarlier(a, x, y);
    assert x.key == key ==> Holds(before, key, now, x);
    if y.key == key {
      assert Holds(before, key, now, y);
      var i :| 0 <= i < |b| && b[i] == x;
      assert b[|b| - 1] == y;
    }
  }

  /** A lookup does what `LookedUp` says, hit or miss. */
  lemma TouchIsLookup(slots: seq<Slot>, key: Key, now: real)
    requires UniqueKeys(slots)
    ensures LookedUp(slots, key, now, Touched(Live(slots, now), key))
  {
    var live := Live(slots, now);
    var after := Touched(live, key);
    LiveFacts(slots, now);
    TouchedFacts(live, key);
    WithoutFacts(live, key);
    forall slot | Holds(slots, key, now, slot) ensures after != [] && after[|after| - 1] == slot {
      SameKeySameSlot(live, slot, Lookup(live, key).value);
    }
    forall a: Slot, b: Slot | a.key != key && b.key != key
      ensures Before(after, a, b) <==> Before(slots, a, b) && a.expiresAt > now && b.expiresAt > now
    {
      LiveKeepsOrder(slots, now, a, b);
      WithoutKeepsOrder(live, key, a, b);
      if Lookup(live, key).Some? {
        AppendKeepsOrder(Without(live, key), Lookup(live, key).value, a, b);
      }
    }
  }

  /** The order of what an insertion leaves. */
  lemma InsertKeepsOrder(slots: seq<Slot>, slot: Slot, k: nat, a: Slot, b: Slot)
    requires UniqueKeys(slots) && k <= |Without(slots, slot.key) + [slot]| && UniqueKeys(Without(slots, slot.key) + [slot])
    requires a in slots && a.key != slot.key && b.key != slot.key && b in (Without(slots, slot.key) + [slot])[k..]
    ensures var after := (Without(slots, slot.key) + [slot])[k..];
            if a in after then Before(after, a, b) <==> Before(slots, a, b) else Before(slots, a, b)
  {
    var others := Without(slots, slot.key);
    SuffixKeepsOrder(others + [slot], k, a, b);
    AppendKeepsOrder(others, slot, a, b);
    WithoutKeepsOrder(slots, slot.key, a, b);
    WithoutFacts(slots, slot.key);
  }

  /** An insertion does what `Stored` says. */
  lemma InsertIsStore(slots: seq<Slot>, slot: Slot, maxEntries: nat, maxBytes: nat)
    requires UniqueKeys(slots) && maxEntries >= 1 && slot.size <= maxBytes
    ensures Stored(slots, slot, maxEntries, maxBytes, Inserted(slots, slot, maxEntries, maxBytes))
  {
    var others := Without(slots, slot.key);
    var grown := others + [slot];
    var after := Inserted(slots, slot, maxEntries, maxBytes);
    InsertKeepsItself(slots, slot, maxEntries, maxBytes);
    WithoutFacts(slots, slot.key);
    GrownFacts(others, slot);
    var k := EvictionIsShortestPrefix(grown, maxEntries, maxBytes);
    hide Evicted, Inserted, Without, Fits, UniqueKeys, Before;
    assert after == grown[k..];
    forall a, b: Slot | a in slots && a.key != slot.key && b in after && b.key != slot.key
      ensures if a in after then Before(after, a, b) <==> Before(slots, a, b) else Before(slots, a, b)
    {
      InsertKeepsOrder(slots, slot, k, a, b);
    }
    forall a | Evictee(slots, slot, after, a) && forall c :: Evictee(slots, slot, after, c) && c != a ==> Before(slots, c, a)
      ensures !Fits([a] + after, maxEntries, maxBytes)
    {
      EvictedNewest(slots, slot, k, a);
      OneMoreDoesNotFit(grown, k, maxEntries, maxBytes);
    }
  }

  lemma OneMoreDoesNotFit(grown: seq<Slot>, k: nat, maxEntries: nat, maxBytes: nat)
    requires 0 < k <= |grown| && !Fits(grown[k - 1..], maxEntries, maxBytes)
    ensures !Fits([grown[k - 1]] + grown[k..], maxEntries, maxBytes)
  {
    assert grown[k - 1..] == [grown[k - 1]] + grown[k..];
  }

  /** The newest of what was dropped stood right before what was kept. */
  lemma EvictedNewest(slots: seq<Slot>, slot: Slot, k: nat, a: Slot)
    requires UniqueKeys(slots) && UniqueKeys(Without(slots, slot.key) + [slot]) && k <= |Without(slots, slot.key)|
    requires var after := (Without(slots, slot.key) + [slot])[k..];
             && Evictee(slots, slot, after, a)
             && forall c :: Evictee(slots, slot, after, c) && c != a ==> Before(slots, c, a)
    ensures 0 < k && (Without(slots, slot.key) + [slot])[k - 1] == a
  {
    var others := Without(slots, slot.key);
    var grown := others + [slot];
    var after := grown[k..];
    WithoutFacts(slots, slot.key);
    forall i | k <= i < |grown| ensures grown[i] in after {
      assert after[i - k] == grown[i];
    }
    var p :| 0 <= p < |others| && others[p] == a;
    assert grown[p] == a;
    var newest := others[k - 1];
    assert grown[k - 1] == newest;
    forall i | k <= i < |grown| ensures grown[i] != newest {
    }
    forall i | 0 <= i < |after| ensures after[i] != newest {
      assert after[i] == grown[i + k];
    }
    assert newest in others;
    assert Evictee(slots, slot, after, newest);
    WithoutKeepsOrder(slots, slot.key, newest, a);
    OlderIsNotLater(others, p, k - 1);
  }

  lemma OlderIsNotLater(slots: seq<Slot>, p: nat, q: nat)
    requires UniqueKeys(slots) && p <= q < |slots|
    ensures !Before(slots, slots[q], slots[p])
  {
  }

  /** The entry a hit has touched outlives the next insertion if there is room for the two. */
  lemma TouchedOutlivesTheNextInsertion(before: seq<Slot>, key: Key, now: real, hit: Slot, touched: seq<Slot>, slot: Slot, maxEntries: nat, maxBytes: nat, after: seq<Slot>)
    requires Holds(before, key, now, hit) && LookedUp(before, key, now, touched)
    requires Stored(touched, slot, maxEntries, maxBytes, after) && slot.key != key
    requires maxEntries >= 2 && hit.size + slot.size <= maxBytes
    ensures hit in after
  {
    if hit !in after {
      assert touched[|touched| - 1] == hit;
      assert Evictee(touched, slot, after, hit);
      forall other | other in after && other.key != slot.key ensures false {
        LastIsNotEarlier(touched, hit, other);
      }
      OnlyOne(after, slot);
      forall c | Evictee(touched, slot, after, c) && c != hit ensures Before(touched, c, hit) {
        var i :| 0 <= i < |touched| && touched[i] == c;
      }
      assert !Fits([hit] + after, maxEntries, maxBytes);
      TotalSizeSplits([hit], after);
      GrownFacts([], hit);
      GrownFacts([], slot);
    }
  }

  lemma OnlyOne(slots: seq<Slot>, slot: Slot)
    requires UniqueKeys(slots) && slots != [] && slots[|slots| - 1] == slot
    requires forall other :: other in slots ==> other.key == slot.key
    ensures slots == [slot]
  {
    assert slots[0] in slots;
  }

  lemma {:induction false} TotalSizeSplits(a: seq<Slot>, b: seq<Slot>)
    ensures TotalSize(a + b) == TotalSize(a) + TotalSize(b)
  {
    if a == [] {
      assert a + b == b;
    } else {
      TotalSizeSplits(a[1..], b);
      assert (a + b)[1..] == a[1..] + b;
    }
  }

  lemma {:induction false} LookupFacts(slots: seq<Slot>, key: Key)
    ensures Lookup(slots, key).Some? <==> exists i :: 0 <= i < |slots| && slots[i].key == key
    ensures Lookup(slots, key).Some? ==> Lookup(slots, key).value in slots && Lookup(slots, key).value.key == key
  {
    if slots != [] {
      var rest := slots[1..];
      LookupFacts(rest, key);
      assert forall i :: 0 < i < |slots| ==> slots[i] == rest[i - 1];
    }
  }

  /** Filtering keeps keys unique, invents nothing, and never grows. */
  lemma {:induction false} WithoutFacts(slots: seq<Slot>, key: Key)
    requires UniqueKeys(slots)
    ensures UniqueKeys(Without(slots, key)) && |Without(slots, key)| <= |slots|
    ensures forall slot :: slot in Without(slots, key) <==> slot in slots && slot.key != key
    ensures TotalSize(Without(slots, key)) + (if Lookup(slots, key).Some? then Lookup(slots, key).value.size else 0) == TotalSize(slots)
    ensures Lookup(slots, key).Some? <==> exists i :: 0 <= i < |slots| && slots[i].key == key
    ensures Lookup(slots, key).Some? ==> Lookup(slots, key).value in slots && Lookup(slots, key).value.key == key
  {
    LookupFacts(slots, key);
    if slots != [] {
      var rest := slots[1..];
      WithoutFacts(rest, key);
      assert forall slot :: slot in slots <==> slot == slots[0] || slot in rest;
      if slots[0].key == key {
        assert forall slot :: slot in rest ==> slot.key != key;
        AllKept(rest, key);
        assert Without(slots, key) == [] + rest == rest;
      } else {
        TotalSizeSplits([slots[0]], Without(rest, key));
      }
    }
  }

  lemma {:induction false} AllKept(slots: seq<Slot>, key: Key)
    requires forall slot :: slot in slots ==> slot.key != key
    ensures Without(slots, key) == slots && Lookup(slots, key).None?
  {
    if slots != [] {
      AllKept(slots[1..], key);
    }
  }

  lemma {:induction false} LiveFacts(slots: seq<Slot>, now: real)
    requires UniqueKeys(slots)
    ensures UniqueKeys(Live(slots, now)) && |Live(slots, now)| <= |slots| && TotalSize(Live(slots, now)) <= TotalSize(slots)
    ensures forall slot :: slot in Live(slots, now) <==> slot in slots && slot.expiresAt > now
  {
    if slots != [] {
      LiveFacts(slots[1..], now);
      assert forall slot :: slot in slots <==> slot == slots[0] || slot in slots[1..];
      TotalSizeSplits(if slots[0].expiresAt > now then [slots[0]] else [], Live(slots[1..], now));
    }
  }

  /** Eviction removes exactly the shortest least-recently-used prefix that makes both bounds hold. */
  lemma {:induction false} EvictionIsShortestPrefix(slots: seq<Slot>, maxEntries: nat, maxBytes: nat) returns (k: nat)
    ensures k <= |slots| && Evicted(slots, maxEntries, maxBytes) == slots[k..]
    ensures Fits(slots[k..], maxEntries, maxBytes)
    ensures forall j :: 0 <= j < k ==> !Fits(slots[j..], maxEntries, maxBytes)
  {
    if Fits(slots, maxEntries, maxBytes) || slots == [] {
      k := 0;
      assert slots[0..] == slots;
    } else {
      var rest := EvictionIsShortestPrefix(slots[1..], maxEntries, maxBytes);
      k := rest + 1;
      assert slots[1..][rest..] == slots[k..];
      forall j | 0 <= j < k ensures !Fits(slots[j..], maxEntries, maxBytes) {
        if j == 0 {
          assert slots[0..] == slots;
        } else {
          assert slots[1..][j - 1..] == slots[j..];
        }
      }
    }
  }

  /** An entry that fits on its own is never evicted by its own insertion, keys stay unique, and
      every other survivor was already there. */
  lemma InsertKeepsItself(slots: seq<Slot>, slot: Slot, maxEntries: nat, maxBytes: nat)
    requires UniqueKeys(slots) && maxEntries >= 1 && slot.size <= maxBytes
    ensures var next := Inserted(slots, slot, maxEntries, maxBytes);
            && next != [] && next[|next| - 1] == slot && UniqueKeys(next) && Fits(next, maxEntries, maxBytes)
            && forall other :: other in next ==> other == slot || (other in slots && other.key != slot.key)
  {
    WithoutFacts(slots, slot.key);
    var others := Without(slots, slot.key);
    var grown := others + [slot];
    GrownFacts(others, slot);
    var k := EvictionIsShortestPrefix(grown, maxEntries, maxBytes);
    hide UniqueKeys, Evicted, TotalSize, Without;
    var last := |grown| - 1;
    assert grown[last..] == [slot];
    assert Fits(grown[last..], maxEntries, maxBytes);
    assert k <= last;
    assert grown[k..][|grown[k..]| - 1] == slot;
    SuffixFacts(grown, k);
  }

  lemma GrownFacts(others: seq<Slot>, slot: Slot)
    requires UniqueKeys(others) && forall other :: other in others ==> other.key != slot.key
    ensures UniqueKeys(others + [slot]) && TotalSize([slot]) == slot.size
  {
    forall i | 0 <= i < |others| ensures others[i].key != slot.key {
      assert others[i] in others;
    }
  }

  lemma SuffixFacts(slots: seq<Slot>, k: nat)
    requires UniqueKeys(slots) && k <= |slots|
    ensures UniqueKeys(slots[k..]) && forall other :: other in slots[k..] ==> other in slots
  {
  }

  lemma TouchedFacts(slots: seq<Slot>, key: Key)
    requires UniqueKeys(slots)
    ensures UniqueKeys(Touched(slots, key)) && TotalSize(Touched(slots, key)) == TotalSize(slots)
    ensures |Touched(slots, key)| <= |slots|
    ensures forall slot :: slot in Touched(slots, key) <==> slot in slots
  {
    WithoutFacts(slots, key);
    if Lookup(slots, key).Some? {
      var hit := Lookup(slots, key).value;
      TotalSizeSplits(Without(slots, key), [hit]);
      assert UniqueKeys(Without(slots, key) + [hit]);
      forall slot | slot in slots ensures slot in Without(slots, key) + [hit] {
        if slot.key == key {
          SameKeySameSlot(slots, slot, hit);
        }
      }
      WithoutShrinks(slots, key);
    }
  }

  lemma SameKeySameSlot(slots: seq<Slot>, a: Slot, b: Slot)
    requires UniqueKeys(slots) && a in slots && b in slots && a.key == b.key
    ensures a == b
  {
    var i :| 0 <= i < |slots| && slots[i] == a;
    var j :| 0 <= j < |slots| && slots[j] == b;
  }

  lemma {:induction false} WithoutShrinks(slots: seq<Slot>, key: Key)
    requires Lookup(slots, key).Some?
    ensures |Without(slots, key)| < |slots|
  {
    if slots[0].key != key {
      WithoutShrinks(slots[1..], key);
    } else {
      WithoutLength(slots[1..], key);
    }
  }

  lemma {:induction false} WithoutLength(slots: seq<Slot>, key: Key)
    ensures |Without(slots, key)| <= |slots|
  {
    if slots != [] {
      WithoutLength(slots[1..], key);
    }
  }

  lemma ExpireStep(slots: seq<Slot>, i: nat, now: real, kept: seq<Slot>)
    requires i < |slots|
    ensures var next := if slots[i].expiresAt <= now then kept else kept + [slots[i]];
            && next + Live(slots[i + 1..], now) == kept + Live(slots[i..], now)
            && TotalSize(next) + TotalSize(slots[i + 1..]) + (if slots[i].expiresAt <= now then slots[i].size else 0)
               == TotalSize(kept) + TotalSize(slots[i..])
  {
    assert slots[i..][1..] == slots[i + 1..];
    TotalSizeSplits(kept, [slots[i]]);
    GrownFacts([], slots[i]);
  }

  /** One pass over the order: what is still live at `now`, and the running total without the rest. */
  method Survivors(slots: seq<Slot>, total: int, now: real) returns (kept: seq<Slot>, remaining: int)
    requires total == TotalSize(slots)
    ensures kept == Live(slots, now) && remaining == TotalSize(kept)
  {
    kept, remaining := [], total;
    var i := 0;
    assert slots[0..] == slots;
    assert TotalSize([]) == 0 && Live([], now) == [];
    hide TotalSize, Live;
    while i < |slots|
      invariant 0 <= i <= |slots|
      invariant kept + Live(slots[i..], now) == Live(slots, now)
      invariant remaining == TotalSize(kept) + TotalSize(slots[i..])
    {
      ExpireStep(slots, i, now, kept);
      if slots[i].expiresAt <= now {
        remaining := remaining - slots[i].size;
      } else {
        kept := kept + [slots[i]];
      }
      i := i + 1;
    }
    assert slots[i..] == [];
  }

  // ------------------------------------------------------------------ the cache object

  class BoundedDocumentParseCache {
    const maxEntries: nat
    const maxBytes: nat
    const ttlSeconds: real
    var entries: seq<Slot>
    var totalBytes: int

    /** The running total is the sum of live sizes, and both bounds hold. */
    ghost predicate Valid()
      reads this
    {
      && maxEntries >= 1 && maxBytes >= 1 && ttlSeconds > 0.0
      && UniqueKeys(entries) && totalBytes == TotalSize(entries) && Fits(entries, maxEntries, maxBytes)
    }

    constructor (maxEntries: nat, maxBytes: nat, ttlSeconds: real)
      requires maxEntries >= 1 && maxBytes >= 1 && ttlSeconds > 0.0
      ensures Valid() && entries == []
      ensures this.maxEntries == maxEntries && this.maxBytes == maxBytes && this.ttlSeconds == ttlSeconds
    {
      this.maxEntries, this.maxBytes, this.ttlSeconds := maxEntries, maxBytes, ttlSeconds;
      entries, totalBytes := [], 0;
    }

    /** `_expire_locked`: drops every entry whose time has come and subtracts its size. */
    method ExpireLocked(now: real)
      requires Valid()
      modifies this
      ensures Valid() && entries == Live(old(entries), now)
      ensures forall slot :: slot in entries <==> slot in old(entries) && slot.expiresAt > now
      ensures forall a, b :: Before(entries, a, b) <==> Before(old(entries), a, b) && a.expiresAt > now && b.expiresAt > now
    {
      LiveFacts(entries, now);
      forall a, b ensures Before(Live(entries, now), a, b) <==> Before(entries, a, b) && a.expiresAt > now && b.expiresAt > now {
        LiveKeepsOrder(entries, now, a, b);
      }
      var kept, total := Survivors(entries, totalBytes, now);
      entries, totalBytes := kept, total;
    }

    /** `_insert_locked`: replace the key's entry, then evict from the old end while over a bound. */
    method InsertLocked(key: Key, value: Value, size: nat, now: real)
      requires Valid() && size <= maxBytes
      modifies this
      ensures Valid() && entries == Inserted(old(entries), Slot(key, value, size, now + ttlSeconds), maxEntries, maxBytes)
      ensures Stored(old(entries), Slot(key, value, size, now + ttlSeconds), maxEntries, maxBytes, entries)
    {
      hide Stored;
      var slot := Slot(key, value, size, now + ttlSeconds);
      InsertIsStore(entries, slot, maxEntries, maxBytes);
      InsertKeepsItself(entries, slot, maxEntries, maxBytes);
      WithoutFacts(entries, key);
      var replaced := Lookup(entries, key);
      entries := Without(entries, key);
      if replaced.Some? {
        totalBytes := totalBytes - replaced.value.size;
      }
      TotalSizeSplits(entries, [slot]);
      entries, totalBytes := entries + [slot], totalBytes + size;
      while |entries| > maxEntries || totalBytes > maxBytes
        invariant totalBytes == TotalSize(entries)
        invariant Evicted(entries, maxEntries, maxBytes) == Inserted(old(entries), slot, maxEntries, maxBytes)
        decreases |entries|
      {
        var oldest := entries[0];
        entries, totalBytes := entries[1..], totalBytes - oldest.size;
      }
    }

    /** `get_existing`: expire, then return and touch a live entry; never an expired one. */
    method GetExisting(key: Key, now: real) returns (hit: Option<Value>)
      requires Valid()
      modifies this
      ensures Valid() && LookedUp(old(entries), key, now, entries)
      ensures entries == Touched(Live(old(entries), now), key)
      ensures hit.Some? <==> exists slot :: Holds(old(entries), key, now, slot)
      ensures hit.Some? ==> entries != [] && entries[|entries| - 1].key == key && entries[|entries| - 1].value == hit.value
    {
      LiveFacts(entries, now);
      TouchIsLookup(entries, key, now);
      ghost var before := entries;
      ExpireLocked(now);
      WithoutFacts(entries, key);
      TouchedFacts(entries, key);
      hide Live, Without, LookedUp, Before;
      var cached := Lookup(entries, key);
      if cached.None? {
        return None;
      }
      assert Holds(before, key, now, cached.value);
      entries := Touched(entries, key);
      hit := Some(cached.value.value);
    }

    method Clear()
      requires Valid()
      modifies this
      ensures Valid() && entries == []
    {
      entries, totalBytes := [], 0;
    }
  }
}
