/**
 Single-flight under concurrency: every interleaving of threads inside `get_or_compute`, where each
 `with self._lock` section is one atomic step and everything else may be scheduled in between.
 */
module ParseCacheThreads {
  import opened Options
  import opened ParseCache

  type Event = nat
  type ThreadId = nat

  /** Where a thread is inside `get_or_compute`. */
  datatype Thread =
    | Looking(key: Key)
    | Waiting(key: Key, event: Event)
    | Computing(key: Key, event: Event)
    | Storing(key: Key, event: Event, value: Value, size: nat)
    | Releasing(key: Key, event: Event, result: Option<Value>)
    | Returned(key: Key, value: Value)
    | Raised(key: Key)

  datatype Config = Config(maxEntries: nat, maxBytes: nat, ttlSeconds: real)

  datatype State = State(threads: map<ThreadId, Thread>, slots: seq<Slot>, inflight: map<Key, Event>, fired: set<Event>, nextEvent: Event)

  predicate IsOwner(t: Thread) {
    t.Computing? || t.Storing? || t.Releasing?
  }

  /** What one atomic step of a thread does; `now` is the clock it reads, if any. */
  datatype Action =
    | Look(now: real)
    | Wake
    | ComputeStores(size: nat)
    | ComputeSkipsStore
    | ComputeRaises
    | Store(now: real)
    | Release

  /** The first locked section: hit, join the computation in flight, or become its owner. */
  function LookStep(s: State, t: ThreadId, now: real): State
    requires t in s.threads && s.threads[t].Looking?
  {
    var key := s.threads[t].key;
    var live := Live(s.slots, now);
    var cached := Lookup(live, key);
    if cached.Some? then
      s.(slots := Touched(live, key), threads := s.threads[t := Returned(key, cached.value.value)])
    else if key in s.inflight then
      s.(slots := live, threads := s.threads[t := Waiting(key, s.inflight[key])])
    else
      s.(slots := live, inflight := s.inflight[key := s.nextEvent], nextEvent := s.nextEvent + 1,
         threads := s.threads[t := Computing(key, s.nextEvent)])
  }

  /** The `finally` section: whatever is in flight for the key is popped and its event set. */
  function ReleaseStep(s: State, t: ThreadId): State
    requires t in s.threads && s.threads[t].Releasing?
  {
    var key := s.threads[t].key;
    var after := match s.threads[t].result case Some(v) => Returned(key, v) case None => Raised(key);
    if key in s.inflight
    then s.(inflight := s.inflight - {key}, fired := s.fired + {s.inflight[key]}, threads := s.threads[t := after])
    else s.(threads := s.threads[t := after])
  }

  /** The step relation; `compute` is what the computations of each key return when they return. */
  ghost predicate Step(config: Config, compute: Key -> Value, s: State, s': State, t: ThreadId, action: Action) {
    && t in s.threads
    && match action
       case Look(now) => s.threads[t].Looking? && s' == LookStep(s, t, now)
       case Wake =>
         && s.threads[t].Waiting? && s.threads[t].event in s.fired
         && s' == s.(threads := s.threads[t := Looking(s.threads[t].key)])
       case ComputeStores(size) =>
         && s.threads[t].Computing? && size <= config.maxBytes
         && s' == s.(threads := s.threads[t := Storing(s.threads[t].key, s.threads[t].event, compute(s.threads[t].key), size)])
       case ComputeSkipsStore =>
         && s.threads[t].Computing?
         && s' == s.(threads := s.threads[t := Releasing(s.threads[t].key, s.threads[t].event, Some(compute(s.threads[t].key)))])
       case ComputeRaises =>
         && s.threads[t].Computing?
         && s' == s.(threads := s.threads[t := Releasing(s.threads[t].key, s.threads[t].event, None)])
       case Store(now) =>
         && s.threads[t].Storing?
         && var slot := Slot(s.threads[t].key, s.threads[t].value, s.threads[t].size, now + config.ttlSeconds);
            s' == s.(slots := Inserted(s.slots, slot, config.maxEntries, config.maxBytes),
                     threads := s.threads[t := Releasing(s.threads[t].key, s.threads[t].event, Some(s.threads[t].value))])
       case Release => s.threads[t].Releasing? && s' == ReleaseStep(s, t)
  }

  /** Calls that never compute: `get_existing` and `clear`. */
  ghost predicate OtherCall(s: State, s': State) {
    || s' == s.(slots := [])
    || exists now, key :: s' == s.(slots := Touched(Live(s.slots, now), key))
  }

  /** What the first locked section does, told by the entries there were: a live entry for the key is
      handed out and is the newest one afterwards; without one, a computation in flight is joined, and
      otherwise the thread owns a new one. */
  lemma LookDoes(s: State, t: ThreadId, now: real)
    requires UniqueKeys(s.slots) && t in s.threads && s.threads[t].Looking?
    ensures var s', key := LookStep(s, t, now), s.threads[t].key;
            && LookedUp(s.slots, key, now, s'.slots)
            && s'.threads == s.threads[t := s'.threads[t]] && s'.fired == s.fired
            && (forall slot :: Holds(s.slots, key, now, slot) ==>
                  && s'.slots[|s'.slots| - 1] == slot && s'.threads[t] == Returned(key, slot.value)
                  && s'.inflight == s.inflight && s'.nextEvent == s.nextEvent)
            && ((forall slot :: !Holds(s.slots, key, now, slot)) ==>
                  if key in s.inflight
                  then s'.threads[t] == Waiting(key, s.inflight[key]) && s'.inflight == s.inflight && s'.nextEvent == s.nextEvent
                  else && s'.threads[t] == Computing(key, s.nextEvent)
                       && s'.inflight == s.inflight[key := s.nextEvent] && s'.nextEvent == s.nextEvent + 1)
  {
    var s', key := LookStep(s, t, now), s.threads[t].key;
    var live := Live(s.slots, now);
    LiveFacts(s.slots, now);
    WithoutFacts(live, key);
    TouchIsLookup(s.slots, key, now);
    hide Live, Without, Before, UniqueKeys;
    forall slot | Holds(s.slots, key, now, slot) ensures Lookup(live, key) == Some(slot) {
      SameKeySameSlot(live, slot, Lookup(live, key).value);
    }
    assert Lookup(live, key).Some? ==> Holds(s.slots, key, now, Lookup(live, key).value);
  }

  /** What the storing section leaves in the cache. */
  lemma StoreDoes(config: Config, compute: Key -> Value, s: State, s': State, t: ThreadId, now: real)
    requires Inv(config, compute, s) && Step(config, compute, s, s', t, Store(now))
    ensures Stored(s.slots, Slot(s.threads[t].key, s.threads[t].value, s.threads[t].size, now + config.ttlSeconds),
                   config.maxEntries, config.maxBytes, s'.slots)
    ensures s'.inflight == s.inflight && s'.fired == s.fired
  {
    hide Stored;
    InsertIsStore(s.slots, Slot(s.threads[t].key, s.threads[t].value, s.threads[t].size, now + config.ttlSeconds),
                  config.maxEntries, config.maxBytes);
  }

  // ------------------------------------------------------------------ the invariant

  /** At most one owner a key; a key is in flight exactly while its owner is active, under the owner's event. */
  ghost predicate OneOwner(s: State) {
    && (forall t :: t in s.threads && IsOwner(s.threads[t]) ==>
          s.threads[t].key in s.inflight && s.inflight[s.threads[t].key] == s.threads[t].event)
    && (forall t, u :: t in s.threads && u in s.threads && t != u && IsOwner(s.threads[t]) && IsOwner(s.threads[u]) ==>
          s.threads[t].key != s.threads[u].key)
    && (forall key :: key in s.inflight ==> exists t :: t in s.threads && IsOwner(s.threads[t]) && s.threads[t].key == key)
  }

  /** Events in flight are pending; a waiter's event is already set or is the one in flight for its key. */
  ghost predicate EventsSound(s: State) {
    && (forall key :: key in s.inflight ==> s.inflight[key] < s.nextEvent && s.inflight[key] !in s.fired)
    && (forall e :: e in s.fired ==> e < s.nextEvent)
    && (forall a, b :: a in s.inflight && b in s.inflight && a != b ==> s.inflight[a] != s.inflight[b])
    && (forall t :: t in s.threads && s.threads[t].Waiting? ==>
          s.threads[t].event in s.fired
          || (s.threads[t].key in s.inflight && s.inflight[s.threads[t].key] == s.threads[t].event))
  }

  /** Every value anywhere is the one its key computes to. */
  ghost predicate ValuesSound(compute: Key -> Value, s: State) {
    && (forall slot :: slot in s.slots ==> slot.value == compute(slot.key))
    && (forall t :: t in s.threads && s.threads[t].Storing? ==> s.threads[t].value == compute(s.threads[t].key))
    && (forall t :: t in s.threads && s.threads[t].Releasing? && s.threads[t].result.Some? ==>
          s.threads[t].result.value == compute(s.threads[t].key))
    && (forall t :: t in s.threads && s.threads[t].Returned? ==> s.threads[t].value == compute(s.threads[t].key))
  }

  ghost predicate SlotsSound(config: Config, s: State) {
    && UniqueKeys(s.slots) && Fits(s.slots, config.maxEntries, config.maxBytes)
    && forall t :: t in s.threads && s.threads[t].Storing? ==> s.threads[t].size <= config.maxBytes
  }

  ghost predicate Inv(config: Config, compute: Key -> Value, s: State) {
    config.maxEntries >= 1 && OneOwner(s) && EventsSound(s) && ValuesSound(compute, s) && SlotsSound(config, s)
  }

  lemma LookKeepsSlots(config: Config, compute: Key -> Value, s: State, now: real, key: Key)
    requires Inv(config, compute, s)
    ensures var live := Live(s.slots, now);
            && UniqueKeys(live) && Fits(live, config.maxEntries, config.maxBytes)
            && (forall slot :: slot in live ==> slot.value == compute(slot.key))
            && UniqueKeys(Touched(live, key)) && Fits(Touched(live, key), config.maxEntries, config.maxBytes)
            && (forall slot :: slot in Touched(live, key) ==> slot.value == compute(slot.key))
            && (Lookup(live, key).Some? ==> Lookup(live, key).value.value == compute(key))
  {
    LiveFacts(s.slots, now);
    TouchedFacts(Live(s.slots, now), key);
    WithoutFacts(Live(s.slots, now), key);
  }

  /** Joining the computation in flight for a key. */
  lemma JoinKeepsOwners(s: State, t: ThreadId, key: Key)
    requires OneOwner(s) && EventsSound(s) && t in s.threads && s.threads[t] == Looking(key) && key in s.inflight
    ensures var s' := s.(threads := s.threads[t := Waiting(key, s.inflight[key])]);
            OneOwner(s') && EventsSound(s')
  {
    var s' := s.(threads := s.threads[t := Waiting(key, s.inflight[key])]);
    forall k | k in s'.inflight ensures exists u :: u in s'.threads && IsOwner(s'.threads[u]) && s'.threads[u].key == k {
      var u :| u in s.threads && IsOwner(s.threads[u]) && s.threads[u].key == k;
      assert u in s'.threads && IsOwner(s'.threads[u]) && s'.threads[u].key == k;
    }
  }

  function Claimed(s: State, t: ThreadId, key: Key): State {
    s.(inflight := s.inflight[key := s.nextEvent], nextEvent := s.nextEvent + 1, threads := s.threads[t := Computing(key, s.nextEvent)])
  }

  /** Becoming the owner of a key that is not in flight, under a new event. */
  lemma ClaimKeepsOneOwner(s: State, t: ThreadId, key: Key)
    requires OneOwner(s) && t in s.threads && s.threads[t] == Looking(key) && key !in s.inflight
    ensures OneOwner(Claimed(s, t, key))
  {
    var s' := Claimed(s, t, key);
    forall k | k in s'.inflight ensures exists u :: u in s'.threads && IsOwner(s'.threads[u]) && s'.threads[u].key == k {
      if k == key {
        assert t in s'.threads && IsOwner(s'.threads[t]) && s'.threads[t].key == k;
      } else {
        var u :| u in s.threads && IsOwner(s.threads[u]) && s.threads[u].key == k;
        assert u in s'.threads && IsOwner(s'.threads[u]) && s'.threads[u].key == k;
      }
    }
  }

  lemma ClaimKeepsEvents(s: State, t: ThreadId, key: Key)
    requires EventsSound(s) && t in s.threads && s.threads[t] == Looking(key) && key !in s.inflight
    ensures EventsSound(Claimed(s, t, key))
  {
    var s' := Claimed(s, t, key);
    forall u | u in s'.threads && s'.threads[u].Waiting?
      ensures s'.threads[u].event in s'.fired || (s'.threads[u].key in s'.inflight && s'.inflight[s'.threads[u].key] == s'.threads[u].event)
    {
      assert u in s.threads && s.threads[u] == s'.threads[u];
    }
  }

  lemma LookKeepsValues(config: Config, compute: Key -> Value, s: State, t: ThreadId, now: real)
    requires Inv(config, compute, s) && t in s.threads && s.threads[t].Looking?
    ensures ValuesSound(compute, LookStep(s, t, now)) && SlotsSound(config, LookStep(s, t, now))
  {
    LookKeepsSlots(config, compute, s, now, s.threads[t].key);
    hide Live, Touched, UniqueKeys, Fits, Lookup, OneOwner, EventsSound;
  }

  lemma LookKeepsInv(config: Config, compute: Key -> Value, s: State, t: ThreadId, now: real)
    requires Inv(config, compute, s) && t in s.threads && s.threads[t].Looking?
    ensures Inv(config, compute, LookStep(s, t, now))
  {
    var key, s' := s.threads[t].key, LookStep(s, t, now);
    LookKeepsValues(config, compute, s, t, now);
    hide Live, Touched, Lookup, OneOwner, EventsSound, ValuesSound, SlotsSound;
    var live := Live(s.slots, now);
    if Lookup(live, key).Some? {
      ThreadMoveKeepsOwners(s, t, s'.threads[t]);
      SlotsDoNotMatter(s.(threads := s.threads[t := s'.threads[t]]), s');
    } else if key in s.inflight {
      JoinKeepsOwners(s, t, key);
      SlotsDoNotMatter(s.(threads := s.threads[t := s'.threads[t]]), s');
    } else {
      ClaimKeepsOneOwner(s, t, key);
      ClaimKeepsEvents(s, t, key);
      SlotsDoNotMatter(Claimed(s, t, key), s');
    }
  }

  lemma SlotsDoNotMatter(s: State, s': State)
    requires OneOwner(s) && EventsSound(s) && s' == s.(slots := s'.slots)
    ensures OneOwner(s') && EventsSound(s')
  {
  }

  lemma ReleaseKeepsOneOwner(s: State, t: ThreadId)
    requires OneOwner(s) && t in s.threads && s.threads[t].Releasing?
    ensures OneOwner(ReleaseStep(s, t))
  {
    var s' := ReleaseStep(s, t);
    forall k | k in s'.inflight ensures exists u :: u in s'.threads && IsOwner(s'.threads[u]) && s'.threads[u].key == k {
      var u :| u in s.threads && IsOwner(s.threads[u]) && s.threads[u].key == k;
      assert u in s'.threads && IsOwner(s'.threads[u]) && s'.threads[u].key == k;
    }
  }

  lemma ReleaseKeepsEvents(s: State, t: ThreadId)
    requires OneOwner(s) && EventsSound(s) && t in s.threads && s.threads[t].Releasing?
    ensures EventsSound(ReleaseStep(s, t)) && ReleaseStep(s, t).fired == s.fired + {s.threads[t].event}
    ensures s.threads[t].key in s.inflight
  {
    assert IsOwner(s.threads[t]) && s.inflight[s.threads[t].key] == s.threads[t].event;
    hide OneOwner;
    var s' := ReleaseStep(s, t);
    forall u | u in s'.threads && s'.threads[u].Waiting?
      ensures s'.threads[u].event in s'.fired || (s'.threads[u].key in s'.inflight && s'.inflight[s'.threads[u].key] == s'.threads[u].event)
    {
      assert u in s.threads && s.threads[u] == s'.threads[u];
    }
  }

  /** Releasing sets the event of the computation, for every waiter at once, takes exactly its key out of
      flight and hands back what was computed, or its exception. */
  lemma ReleaseKeepsInv(config: Config, compute: Key -> Value, s: State, t: ThreadId)
    requires Inv(config, compute, s) && t in s.threads && s.threads[t].Releasing?
    ensures Inv(config, compute, ReleaseStep(s, t))
    ensures ReleaseStep(s, t).fired == s.fired + {s.threads[t].event}
    ensures ReleaseStep(s, t).inflight == s.inflight - {s.threads[t].key} && ReleaseStep(s, t).slots == s.slots
    ensures forall v :: s.threads[t].result == Some(v) ==> ReleaseStep(s, t).threads == s.threads[t := Returned(s.threads[t].key, v)]
    ensures s.threads[t].result == None ==> ReleaseStep(s, t).threads == s.threads[t := Raised(s.threads[t].key)]
  {
    hide UniqueKeys, Fits, OneOwner, EventsSound;
    ReleaseKeepsOneOwner(s, t);
    ReleaseKeepsEvents(s, t);
  }

  /** A thread that stays owner of the same key under the same event, or is none before and after. */
  lemma ThreadMoveKeepsOwners(s: State, t: ThreadId, next: Thread)
    requires OneOwner(s) && EventsSound(s) && t in s.threads && !next.Waiting?
    requires IsOwner(next) <==> IsOwner(s.threads[t])
    requires IsOwner(next) ==> next.key == s.threads[t].key && next.event == s.threads[t].event
    ensures OneOwner(s.(threads := s.threads[t := next])) && EventsSound(s.(threads := s.threads[t := next]))
  {
    ThreadMoveKeepsEvents(s, t, next);
    OwnersStayApart(s, t, next);
    OwnersStayInFlight(s, t, next);
    hide EventsSound, IsOwner;
  }

  lemma OwnersStayApart(s: State, t: ThreadId, next: Thread)
    requires OneOwner(s) && t in s.threads && (IsOwner(next) ==> IsOwner(s.threads[t]) && next.key == s.threads[t].key && next.event == s.threads[t].event)
    ensures var s' := s.(threads := s.threads[t := next]);
            && (forall u :: u in s'.threads && IsOwner(s'.threads[u]) ==>
                  s'.threads[u].key in s'.inflight && s'.inflight[s'.threads[u].key] == s'.threads[u].event)
            && (forall u, v :: u in s'.threads && v in s'.threads && u != v && IsOwner(s'.threads[u]) && IsOwner(s'.threads[v]) ==>
                  s'.threads[u].key != s'.threads[v].key)
  {
  }

  lemma OwnersStayInFlight(s: State, t: ThreadId, next: Thread)
    requires OneOwner(s) && t in s.threads && (IsOwner(s.threads[t]) ==> IsOwner(next) && next.key == s.threads[t].key)
    ensures var s' := s.(threads := s.threads[t := next]);
            forall k :: k in s'.inflight ==> exists u :: u in s'.threads && IsOwner(s'.threads[u]) && s'.threads[u].key == k
  {
    var s' := s.(threads := s.threads[t := next]);
    forall k | k in s'.inflight ensures exists u :: u in s'.threads && IsOwner(s'.threads[u]) && s'.threads[u].key == k {
      var u :| u in s.threads && IsOwner(s.threads[u]) && s.threads[u].key == k;
      assert u in s'.threads && IsOwner(s'.threads[u]) && s'.threads[u].key == k;
    }
  }

  lemma ThreadMoveKeepsEvents(s: State, t: ThreadId, next: Thread)
    requires EventsSound(s) && t in s.threads && !next.Waiting?
    ensures EventsSound(s.(threads := s.threads[t := next]))
  {
  }

  lemma StoreKeepsInv(config: Config, compute: Key -> Value, s: State, s': State, t: ThreadId, now: real)
    requires Inv(config, compute, s) && Step(config, compute, s, s', t, Store(now))
    ensures Inv(config, compute, s')
  {
    hide Inserted, UniqueKeys, Fits, OneOwner, EventsSound;
    var moved := s.(threads := s.threads[t := s'.threads[t]]);
    ThreadMoveKeepsOwners(s, t, s'.threads[t]);
    SlotsDoNotMatter(moved, s');
    StoreKeepsSlots(config, compute, s, t, now);
  }

  lemma StoreKeepsSlots(config: Config, compute: Key -> Value, s: State, t: ThreadId, now: real)
    requires config.maxEntries >= 1 && ValuesSound(compute, s) && SlotsSound(config, s) && t in s.threads && s.threads[t].Storing?
    ensures var slot := Slot(s.threads[t].key, s.threads[t].value, s.threads[t].size, now + config.ttlSeconds);
            var s' := s.(slots := Inserted(s.slots, slot, config.maxEntries, config.maxBytes),
                         threads := s.threads[t := Releasing(s.threads[t].key, s.threads[t].event, Some(s.threads[t].value))]);
            ValuesSound(compute, s') && SlotsSound(config, s')
  {
    var slot := Slot(s.threads[t].key, s.threads[t].value, s.threads[t].size, now + config.ttlSeconds);
    InsertKeepsItself(s.slots, slot, config.maxEntries, config.maxBytes);
    hide Inserted, UniqueKeys, Fits;
  }

  /** Every step of every thread keeps the invariant. */
  lemma StepKeepsInv(config: Config, compute: Key -> Value, s: State, s': State, t: ThreadId, action: Action)
    requires Inv(config, compute, s) && Step(config, compute, s, s', t, action)
    ensures Inv(config, compute, s')
  {
    hide Inv, LookStep, ReleaseStep;
    match action
    case Look(now) => LookKeepsInv(config, compute, s, t, now);
    case Release => ReleaseKeepsInv(config, compute, s, t);
    case Store(now) => StoreKeepsInv(config, compute, s, s', t, now);
    case _ => ThreadMoveKeepsInv(config, compute, s, s', t, action);
  }

  /** The steps that only move the thread along. */
  lemma ThreadMoveKeepsInv(config: Config, compute: Key -> Value, s: State, s': State, t: ThreadId, action: Action)
    requires Inv(config, compute, s) && Step(config, compute, s, s', t, action)
    requires !action.Look? && !action.Store? && !action.Release?
    ensures Inv(config, compute, s')
  {
    hide UniqueKeys, Fits, OneOwner, EventsSound;
    assert s' == s.(threads := s.threads[t := s'.threads[t]]);
    ThreadMoveKeepsOwners(s, t, s'.threads[t]);
  }

  lemma OtherCallKeepsInv(config: Config, compute: Key -> Value, s: State, s': State)
    requires Inv(config, compute, s) && OtherCall(s, s')
    ensures Inv(config, compute, s')
  {
    if s' != s.(slots := []) {
      var now, key :| s' == s.(slots := Touched(Live(s.slots, now), key));
      LookKeepsSlots(config, compute, s, now, key);
    }
  }

  // ------------------------------------------------------------------ whole runs

  /** A run: any number of threads enter with any keys, and any steps and other calls interleave. */
  ghost predicate IsRun(config: Config, compute: Key -> Value, run: seq<State>) {
    && run != [] && config.maxEntries >= 1
    && run[0].slots == [] && run[0].inflight == map[] && run[0].fired == {}
    && (forall t :: t in run[0].threads ==> run[0].threads[t].Looking?)
    && forall i :: 0 <= i < |run| - 1 ==> OneStep(config, compute, run[i], run[i + 1])
  }

  ghost predicate OneStep(config: Config, compute: Key -> Value, s: State, s': State) {
    OtherCall(s, s') || exists t, action :: Step(config, compute, s, s', t, action)
  }

  /** In every interleaving, every reachable state satisfies the invariant; in particular every
      thread that returned holds the value its key computes to. */
  lemma {:induction false} EveryInterleavingIsSound(config: Config, compute: Key -> Value, run: seq<State>, i: nat)
    requires IsRun(config, compute, run) && i < |run|
    ensures Inv(config, compute, run[i])
  {
    if i > 0 {
      EveryInterleavingIsSound(config, compute, run, i - 1);
      assert OneStep(config, compute, run[i - 1], run[i - 1 + 1]);
      if OtherCall(run[i - 1], run[i]) {
        OtherCallKeepsInv(config, compute, run[i - 1], run[i]);
      } else {
        var t, action :| Step(config, compute, run[i - 1], run[i], t, action);
        StepKeepsInv(config, compute, run[i - 1], run[i], t, action);
      }
    } else {
      assert TotalSize(run[0].slots) == 0;
    }
  }

  ghost predicate CanMove(config: Config, compute: Key -> Value, s: State, t: ThreadId) {
    exists s', action :: Step(config, compute, s, s', t, action)
  }

  /** No deadlock: a thread that cannot move waits for an owner of its key, and that owner can. */
  lemma BlockedThreadsHaveALiveOwner(config: Config, compute: Key -> Value, s: State, t: ThreadId) returns (owner: ThreadId)
    requires Inv(config, compute, s) && t in s.threads && !s.threads[t].Returned? && !s.threads[t].Raised?
    ensures CanMove(config, compute, s, owner)
    ensures owner == t || (s.threads[t].Waiting? && owner in s.threads && IsOwner(s.threads[owner])
                           && s.threads[owner].key == s.threads[t].key && s.threads[owner].event == s.threads[t].event)
  {
    if s.threads[t].Waiting? && s.threads[t].event !in s.fired {
      owner :| owner in s.threads && IsOwner(s.threads[owner]) && s.threads[owner].key == s.threads[t].key;
    } else {
      owner := t;
    }
    var thread := s.threads[owner];
    match thread
    case Looking(key) => assert Step(config, compute, s, LookStep(s, owner, 0.0), owner, Look(0.0));
    case Waiting(key, event) => assert Step(config, compute, s, s.(threads := s.threads[owner := Looking(key)]), owner, Wake);
    case Computing(key, event) =>
      assert Step(config, compute, s, s.(threads := s.threads[owner := Releasing(key, event, None)]), owner, ComputeRaises);
    case Storing(key, event, value, size) =>
      var slot := Slot(key, value, size, 0.0 + config.ttlSeconds);
      assert Step(config, compute, s,
                  s.(slots := Inserted(s.slots, slot, config.maxEntries, config.maxBytes),
                     threads := s.threads[owner := Releasing(key, event, Some(value))]), owner, Store(0.0));
    case Releasing(key, event, result) => assert Step(config, compute, s, ReleaseStep(s, owner), owner, Release);
    case _ =>
  }
}
