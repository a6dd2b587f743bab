/** The scoped key-value store (runtime/memory/runtime_state.go): nested maps with running
    counters, expiry, pruning and optimistic versions, updated in place. */
module RuntimeStates {
  import opened Collections
  import opened MemoryModel

  datatype SetResult =
    | Stored(entry: Entry)
    | InvalidAddress
    | VersionConflict(expected: nat, actual: nat)
    | NotSerializable
    | OverCapacity

  function Restrict(bucket: Bucket, keys: set<string>): Bucket {
    map k | k in bucket && k in keys :: bucket[k]
  }

  class RuntimeState {
    const policy: Policy
    var store: Store
    var bytes: int
    var entries: int
    var nextPrune: nat
    var time: nat

    ghost predicate Accounted()
      reads this
    {
      bytes == TotalBytes(policy, store) && entries == TotalEntries(store) && Placed(policy, store)
    }

    ghost predicate Valid()
      reads this
    {
      Accounted() && bytes <= policy.maxBytes && entries <= policy.maxEntries
    }

    constructor (policy: Policy, start: nat)
      ensures Valid() && store == map[] && this.policy == policy && time == start
    {
      this.policy := policy;
      store, bytes, entries, nextPrune, time := map[], 0, 0, 0, start;
      new;
      assert BytesByBucket(policy, store) == map[] && CountByBucket(store) == map[];
    }

    /** A clock reading: never earlier than the last. */
    method Now() returns (now: nat)
      modifies this`time
      ensures now == time >= old(time)
    {
      var elapsed: nat :| true;
      time := time + elapsed;
      now := time;
    }

    method Install(b: string, k: string, e: Entry)
      requires Accounted() && WellPlaced(policy, e, b, k)
      modifies this`store, this`bytes, this`entries
      ensures Accounted() && store == Inserted(old(store), b, k, e)
      ensures bytes == old(bytes) - SizeAt(policy, Find(old(store), b, k)) + SizeOf(policy, e)
      ensures entries == old(entries) + if Find(old(store), b, k).Some? then 0 else 1
    {
      hide TotalBytes, TotalEntries, Placed, WellPlaced, SizeOf;
      InsertedSize(policy, store, b, k, e);
      InsertedPlaced(policy, store, b, k, e);
      var bucket := BucketOf(store, b);
      if k in bucket {
        bytes := bytes - SizeOf(policy, bucket[k]) + SizeOf(policy, e);
      } else {
        bytes := bytes + SizeOf(policy, e);
        entries := entries + 1;
      }
      store := store[b := bucket[k := e]];
    }

    /** Remove one entry, and its bucket when that was the last one. */
    method Discard(b: string, k: string)
      requires Accounted() && Find(store, b, k).Some?
      modifies this`store, this`bytes, this`entries
      ensures Accounted() && store == Removed(old(store), b, k)
      ensures bytes == old(bytes) - SizeAt(policy, Find(old(store), b, k)) && entries == old(entries) - 1
    {
      hide TotalBytes, TotalEntries, Placed, SizeOf;
      RemovedSize(policy, store, b, k);
      RemovedPlaced(policy, store, b, k);
      var bucket := store[b];
      bytes := bytes - SizeOf(policy, bucket[k]);
      entries := entries - 1;
      bucket := bucket - {k};
      store := if bucket == map[] then store - {b} else store[b := bucket];
    }

    /** The inner loop of pruning: one bucket. */
    method DropExpired(b: string, now: nat, ghost before: Store)
      requires Accounted() && b in store && Faded(before, store, now)
      modifies this`store, this`bytes, this`entries
      ensures Accounted() && Faded(before, store, now)
      ensures bytes <= old(bytes) && entries <= old(entries)
      ensures store - {b} == old(store) - {b}
      ensures b in store ==> store[b] != map[] && forall k | k in store[b] :: !Expired(store[b][k], now)
    {
      hide TotalBytes, TotalEntries, Placed, Faded, SizeOf;
      var left := store[b].Keys;
      while left != {}
        invariant Accounted() && Faded(before, store, now)
        invariant bytes <= old(bytes) && entries <= old(entries)
        invariant store - {b} == old(store) - {b}
        invariant left <= BucketOf(store, b).Keys
        invariant b in store ==> forall k | k in store[b] && k !in left :: !Expired(store[b][k], now)
        decreases left
      {
        var k :| k in left;
        left := left - {k};
        if Expired(store[b][k], now) {
          RemovedFades(before, store, b, k, now);
          Discard(b, k);
        }
      }
      if b in store && store[b] == map[] {
        EmptyBucketDrops(policy, store, b);
        SameContentsFade(before, store, store - {b}, now);
        store := store - {b};
      }
    }

    method PruneExpired(now: nat)
      requires Accounted()
      modifies this`store, this`bytes, this`entries
      ensures Accounted() && Faded(old(store), store, now)
      ensures bytes <= old(bytes) && entries <= old(entries)
      ensures forall b | b in store :: store[b] != map[] && forall k | k in store[b] :: !Expired(store[b][k], now)
    {
      hide TotalBytes, TotalEntries, Placed, SizeOf, Faded;
      FadedReflexive(store, now);
      var left := store.Keys;
      while left != {}
        invariant Accounted() && Faded(old(store), store, now)
        invariant bytes <= old(bytes) && entries <= old(entries)
        invariant left <= store.Keys
        invariant forall b | b in store && b !in left ::
            store[b] != map[] && forall k | k in store[b] :: !Expired(store[b][k], now)
        decreases left
      {
        var b :| b in left;
        left := left - {b};
        ghost var others := store - {b};
        DropExpired(b, now, old(store));
        assert others == store - {b};
        assert forall x | x in store && x != b :: x in others && others[x] == store[x];
        assert forall x | x in others :: x in store;
      }
    }

    /** Pruning when it is due, and the bucket for the address. */
    method Prepare(b: string) returns (now: nat)
      requires Valid()
      modifies this
      ensures Valid() && now == time >= old(time) && b in store && Faded(old(store), store, now)
    {
      hide TotalBytes, TotalEntries, Placed, Faded;
      now := Now();
      FadedReflexive(store, now);
      if now >= nextPrune {
        PruneExpired(now);
        nextPrune := now + MINUTE;
      }
      if b !in store {
        EmptyBucketAdds(policy, store, b);
        SameContentsFade(old(store), store, store[b := map[]], now);
        store := store[b := map[]];
      }
    }

    /** A write. `seen` is the entry it found at its address. */
    method Set(e: Entry) returns (r: SetResult, ghost seen: Option<Entry>)
      requires Valid()
      modifies this
      ensures Valid() && time >= old(time)
      ensures FadedExcept(old(store), store, BucketKey(e), e.key, time)
      ensures Kept(Find(old(store), BucketKey(e), e.key), seen, time)
      ensures Find(store, BucketKey(e), e.key) == if r.Stored? then Some(r.entry) else seen
      ensures r.InvalidAddress? <==> !ValidAddress(e)
      ensures ValidAddress(e) ==> (r.VersionConflict? <==> e.expected.Some? && e.expected.value != VersionOf(seen))
      ensures r.VersionConflict? ==> r.expected == e.expected.value && r.actual == VersionOf(seen)
      ensures r.NotSerializable? ==> policy.size(Successor(policy, e, seen, time)).None?
      ensures r.OverCapacity? ==> !Fits(policy, bytes, entries, seen, Successor(policy, e, seen, time))
      ensures r.Stored? ==> r.entry == Successor(policy, e, seen, time)
      ensures r.Stored? ==> WellPlaced(policy, r.entry, BucketKey(e), e.key)
    {
      hide TotalBytes, TotalEntries, Placed, ValidAddress, FadedExcept, Faded, WellPlaced, BucketKey;
      var b := BucketKey(e);
      if !ValidAddress(e) {
        FadedReflexive(store, time);
        FadedSees(store, store, b, e.key, time);
        return InvalidAddress, Find(store, b, e.key);
      }
      var now := Prepare(b);
      seen := Find(store, b, e.key);
      FadedSees(old(store), store, b, e.key, now);
      var found := Find(store, b, e.key);
      if e.expected.Some? && e.expected.value != VersionOf(found) {
        return VersionConflict(e.expected.value, VersionOf(found)), seen;
      }
      var next := Successor(policy, e, found, now);
      if policy.size(next).None? { return NotSerializable, seen; }
      if !Fits(policy, bytes, entries, found, next) { return OverCapacity, seen; }
      SuccessorPlaced(policy, e, found, now);
      InsertedFades(old(store), store, b, e.key, next, now);
      InsertedContents(store, b, e.key, next);
      Install(b, e.key, next);
      r := Stored(next);
    }

    /** A read. An expired entry is removed on the way. */
    method Get(scope: string, scopeId: string, key: string) returns (r: Option<Entry>)
      requires Accounted()
      modifies this
      ensures Accounted() && time >= old(time) && bytes <= old(bytes) && entries <= old(entries)
      ensures Faded(old(store), store, time)
      ensures r == Live(old(store), ComputeKey(scope, scopeId, ""), key, time)
      ensures r == Find(store, ComputeKey(scope, scopeId, ""), key)
    {
      hide TotalBytes, TotalEntries, Placed, Faded;
      var now := Now();
      var b := ComputeKey(scope, scopeId, "");
      FadedReflexive(store, now);
      r := Find(store, b, key);
      if r.Some? && Expired(r.value, now) {
        RemovedFades(store, store, b, key, now);
        RemovedContents(store, b, key);
        Discard(b, key);
        r := None;
      }
    }

    method DeleteScope(scope: string, scopeId: string) returns (removed: nat)
      requires Accounted()
      modifies this`store, this`bytes, this`entries
      ensures Accounted() && bytes <= old(bytes) && entries <= old(entries)
      ensures store == old(store) - {ComputeKey(scope, scopeId, "")}
      ensures removed == |BucketOf(old(store), ComputeKey(scope, scopeId, ""))|
    {
      hide TotalBytes, TotalEntries;
      var b := ComputeKey(scope, scopeId, "");
      removed := 0;
      if b in store {
        StoreDrop(policy, store, b);
        PartIsPlaced(policy, store - {b}, store);
        var size := MeasureBucket(store[b]);
        bytes := bytes - size;
        entries := entries - |store[b]|;
        removed := |store[b]|;
        store := store - {b};
      } else {
        assert store - {b} == store;
      }
    }

    /** The loop that adds up the entry sizes of a bucket. */
    method MeasureBucket(bucket: Bucket) returns (total: nat)
      ensures total == BucketBytes(policy, bucket)
    {
      total := 0;
      var left := bucket.Keys;
      assert Restrict(bucket, left) == bucket;
      while left != {}
        invariant left <= bucket.Keys
        invariant total + BucketBytes(policy, Restrict(bucket, left)) == BucketBytes(policy, bucket)
        decreases left
      {
        var k :| k in left;
        BucketDrop(policy, Restrict(bucket, left), k);
        assert Restrict(bucket, left) - {k} == Restrict(bucket, left - {k});
        left := left - {k};
        total := total + SizeOf(policy, bucket[k]);
      }
      EmptyBucket(policy);
      assert Restrict(bucket, left) == map[];
    }

    /** Put back what a write replaced. */
    method Rollback(e: Entry, previous: Option<Entry>)
      requires Accounted()
      requires previous.Some? ==> WellPlaced(policy, previous.value, BucketKey(e), e.key)
      modifies this`store, this`bytes, this`entries
      ensures Accounted()
      ensures Find(store, BucketKey(e), e.key) == previous
      ensures forall b, k | (b, k) != (BucketKey(e), e.key) :: Find(store, b, k) == Find(old(store), b, k)
    {
      hide TotalBytes, TotalEntries, Placed, BucketKey, WellPlaced;
      var b := BucketKey(e);
      if Find(store, b, e.key).Some? {
        RemovedContents(store, b, e.key);
        Discard(b, e.key);
      }
      if previous.Some? {
        InsertedContents(store, b, e.key, previous.value);
        Install(b, e.key, previous.value);
      } else if b in store && store[b] == map[] {
        EmptyBucketDrops(policy, store, b);
        store := store - {b};
      }
    }

    method ListBucket(b: string) returns (part: seq<Entry>)
      requires Accounted() && b in store
      ensures Distinct(part)
      ensures forall e :: e in part <==> BucketKey(e) == b && Find(store, b, e.key) == Some(e)
    {
      hide BucketKey, ValidAddress;
      part := [];
      var left := store[b].Keys;
      while left != {}
        invariant left <= store[b].Keys && Distinct(part)
        invariant forall e :: e in part <==> BucketKey(e) == b && Find(store, b, e.key) == Some(e) && e.key !in left
        decreases left
      {
        var k :| k in left;
        left := left - {k};
        assert WellPlaced(policy, Find(store, b, k).value, b, k);
        part := part + [store[b][k]];
      }
    }

    method ListAll() returns (list: seq<Entry>)
      requires Accounted()
      ensures ListingOf(policy, list, store)
    {
      hide TotalBytes, TotalEntries, WellPlaced, ValidAddress;
      list := [];
      var left := store.Keys;
      while left != {}
        invariant left <= store.Keys && Distinct(list)
        invariant forall e :: e in list <==> Find(store, BucketKey(e), e.key) == Some(e) && BucketKey(e) !in left
        decreases left
      {
        var b :| b in left;
        left := left - {b};
        var part := ListBucket(b);
        JoinDistinct(list, part);
        list := list + part;
      }
    }

    /** The durable form of the store: its unexpired entries, in some order. */
    method Snapshot() returns (list: seq<Entry>)
      requires Accounted()
      modifies this
      ensures Accounted() && time >= old(time) && bytes <= old(bytes) && entries <= old(entries)
      ensures Faded(old(store), store, time) && ListingOf(policy, list, store)
      ensures forall e | e in list :: !Expired(e, time)
    {
      hide TotalBytes, TotalEntries, Faded, BucketKey, WellPlaced;
      var now := Now();
      PruneExpired(now);
      list := ListAll();
    }

    /** Rebuild the store from a snapshot. `source` is the store the snapshot was taken of. */
    method Restore(list: seq<Entry>, ghost source: Store) returns (ok: bool)
      modifies this
      ensures time >= old(time) && NoneExpired(store, old(time))
      ensures ListingOf(policy, list, source) && TotalBytes(policy, source) <= policy.maxBytes
              && TotalEntries(source) <= policy.maxEntries ==>
        ok && Valid() && Faded(source, store, time)
    {
      hide TotalBytes, TotalEntries, SizeOf, Placed, BucketKey, WellPlaced, RestoredFrom, ListingOf, Faded, ValidAddress, NoneExpired;
      store, bytes, entries := map[], 0, 0;
      var now := Now();
      nextPrune := now + MINUTE;
      ghost var sound := ListingOf(policy, list, source) && TotalBytes(policy, source) <= policy.maxBytes
                         && TotalEntries(source) <= policy.maxEntries;
      EmptyStore(policy, source, now);
      NothingExpired(old(time));
      for i := 0 to |list|
        invariant time >= now && NoneExpired(store, old(time))
        invariant sound ==> Valid() && RestoredFrom(list[..i], source, store, time)
      {
        var e := list[i];
        ghost var before := time;
        var at := Now();
        ghost var b, k := BucketKey(e), e.key;
        if sound { RestoreStep(policy, list, i, source, store, before, at); }
        if Expired(e, at) { continue; }
        if !ValidAddress(e) { return false; }
        if e.version == 0 { e := e.(version := 1); }
        e := e.(expected := None);
        if policy.size(e).None? { return false; }
        if entries >= policy.maxEntries || bytes + SizeOf(policy, e) > policy.maxBytes { return false; }
        InsertedFresh(store, BucketKey(e), e.key, e, old(time));
        store := Inserted(store, BucketKey(e), e.key, e);
        bytes := bytes + SizeOf(policy, e);
        entries := entries + 1;
      }
      if sound {
        assert list[..|list|] == list;
        RestoredAll(policy, list, source, store, time);
      }
      return true;
    }
  }

  /** The entries listed in `done` are back, unless expired, and nothing else is there. */
  ghost predicate RestoredFrom(done: seq<Entry>, source: Store, store: Store, now: nat) {
    forall b, k :: var f := Find(source, b, k);
      if f.Some? && f.value in done then Kept(f, Find(store, b, k), now) else Find(store, b, k).None?
  }

  lemma NothingExpired(t: nat)
    ensures NoneExpired(map[], t)
  {
  }

  lemma EmptyStore(policy: Policy, source: Store, now: nat)
    ensures TotalBytes(policy, map[]) == 0 && TotalEntries(map[]) == 0 && Placed(policy, map[])
    ensures RestoredFrom([], source, map[], now)
  {
    assert BytesByBucket(policy, map[]) == map[] && CountByBucket(map[]) == map[];
  }

  lemma RestoredAll(policy: Policy, list: seq<Entry>, source: Store, store: Store, now: nat)
    requires ListingOf(policy, list, source) && RestoredFrom(list, source, store, now)
    ensures Faded(source, store, now)
  {
    forall b, k ensures Kept(Find(source, b, k), Find(store, b, k), now) {
      if Find(source, b, k).Some? {
        assert WellPlaced(policy, Find(source, b, k).value, b, k);
        assert Find(source, b, k).value in list;
      }
    }
  }

  /** One listed entry: it is either expired, or new, well placed and sure to fit. */
  lemma RestoreStep(policy: Policy, list: seq<Entry>, i: nat, source: Store, store: Store, before: nat, at: nat)
    requires i < |list| && before <= at
    requires ListingOf(policy, list, source) && RestoredFrom(list[..i], source, store, before)
    ensures var e := list[i];
      && ValidAddress(e) && e.version > 0 && e.expected == None && policy.size(e).Some?
      && (Expired(e, at) ==> RestoredFrom(list[..i + 1], source, store, at))
      && (!Expired(e, at) ==>
            var next := Inserted(store, BucketKey(e), e.key, e);
            && RestoredFrom(list[..i + 1], source, next, at)
            && TotalBytes(policy, next) == TotalBytes(policy, store) + SizeOf(policy, e) <= TotalBytes(policy, source)
            && TotalEntries(next) == TotalEntries(store) + 1 <= TotalEntries(source)
            && (Placed(policy, store) ==> Placed(policy, next)))
  {
    hide TotalBytes, TotalEntries, SizeOf;
    var e := list[i];
    var b, k := BucketKey(e), e.key;
    assert e in list && Find(source, b, k) == Some(e);
    assert WellPlaced(policy, e, b, k);
    assert list[..i + 1] == list[..i] + [e];
    assert e !in list[..i];
    assert Find(store, b, k).None?;
    ListedOnce(policy, list, source, e);
    var next := Inserted(store, b, k, e);
    InsertedContents(store, b, k, e);
    InsertedSize(policy, store, b, k, e);
    hide Inserted, Find, BucketKey, WellPlaced;
    if Expired(e, at) {
      Progress(list[..i], e, b, k, source, store, store, before, at);
    } else {
      Progress(list[..i], e, b, k, source, store, next, before, at);
      RestoredWithin(list[..i + 1], source, next, at);
      PartIsNoLarger(policy, next, source);
      if Placed(policy, store) { InsertedPlaced(policy, store, b, k, e); }
    }
  }

  lemma ListedOnce(policy: Policy, list: seq<Entry>, source: Store, e: Entry)
    requires ListingOf(policy, list, source) && e in list
    ensures forall b, k :: Find(source, b, k) == Some(e) ==> b == BucketKey(e) && k == e.key
  {
    forall b, k | Find(source, b, k) == Some(e) ensures b == BucketKey(e) && k == e.key {
      assert WellPlaced(policy, Find(source, b, k).value, b, k);
    }
  }

  lemma Progress(done: seq<Entry>, e: Entry, b0: string, k0: string, source: Store, store: Store, next: Store,
                 before: nat, at: nat)
    requires before <= at && RestoredFrom(done, source, store, before)
    requires Find(source, b0, k0) == Some(e) && Kept(Some(e), Find(next, b0, k0), at)
    requires forall b, k :: Find(source, b, k) == Some(e) ==> b == b0 && k == k0
    requires forall b, k | (b, k) != (b0, k0) :: Find(next, b, k) == Find(store, b, k)
    ensures RestoredFrom(done + [e], source, next, at)
  {
    hide Find;
    forall b, k ensures var f := Find(source, b, k);
      if f.Some? && f.value in done + [e] then Kept(f, Find(next, b, k), at) else Find(next, b, k).None?
    {
      if (b, k) != (b0, k0) { assert Find(next, b, k) == Find(store, b, k); }
    }
  }

  lemma RestoredWithin(done: seq<Entry>, source: Store, store: Store, now: nat)
    requires RestoredFrom(done, source, store, now)
    ensures Within(store, source)
  {
    hide Find;
    forall b, k ensures Find(store, b, k).None? || Find(store, b, k) == Find(source, b, k) {}
  }
}
