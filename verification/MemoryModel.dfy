/** Scoped memory entries (runtime/memory/types.go, runtime/memory/runtime_state.go): addresses,
    expiry, size accounting, and what it means that a store has only lost expired entries. */
module MemoryModel {
  import opened Names
  import opened Collections

  datatype Option<+T> = None | Some(value: T)

  /** `value` is the JSON text of the payload. A stored entry has no expected version. */
  datatype Entry = Entry(
    scope: string,
    scopeId: string,
    key: string,
    value: string,
    owner: string,
    version: nat,
    expected: Option<nat>,
    createdAt: nat,
    updatedAt: nat,
    expiresAt: Option<nat>)

  type Bucket = map<string, Entry>
  type Store = map<string, Bucket>

  /** `size` is the length of the encoded entry; None when it cannot be encoded. */
  datatype Policy = Policy(maxEntries: nat, maxBytes: nat, ttl: nat, size: Entry -> Option<nat>)

  const MINUTE := 60

  predicate ValidScope(scope: string) {
    scope == "global" || scope == "workflow" || scope == "execution" || scope == "agent"
  }

  predicate ValidAddress(e: Entry) {
    e.key != "" && e.scopeId != "" && ValidScope(e.scope)
  }

  predicate Expired(e: Entry, now: nat) {
    e.expiresAt.Some? && e.expiresAt.value <= now
  }

  function SizeOf(policy: Policy, e: Entry): nat {
    match policy.size(e)
    case Some(n) => n
    case None => 0
  }

  // ---------- composite keys ----------

  function Prefixed(s: string): string {
    Decimal(|s|) + ":" + s
  }

  function ComputeKey(scope: string, scopeId: string, key: string): string {
    Prefixed(scope) + Prefixed(scopeId) + Prefixed(key)
  }

  function BucketKey(e: Entry): string {
    ComputeKey(e.scope, e.scopeId, "")
  }

  lemma {:induction false} DigitsOnly(n: nat)
    ensures Decimal(n) != [] && forall c | c in Decimal(n) :: c != ':'
  {
    if n >= 10 { DigitsOnly(n / 10); }
  }

  lemma EarlierColonIsInside(d: string, s: string, e: string, t: string)
    requires d + ":" + s == e + ":" + t && |d| < |e|
    ensures ':' in e
  {
    assert (d + ":" + s)[|d|] == ':' == (e + ":" + t)[|d|] == e[|d|];
  }

  /** The text before the first colon is determined by the whole. */
  lemma HeadUnique(d: string, s: string, e: string, t: string)
    requires d + ":" + s == e + ":" + t && ':' !in d && ':' !in e
    ensures d == e && s == t
  {
    var whole := d + ":" + s;
    if |d| < |e| { EarlierColonIsInside(d, s, e, t); }
    if |e| < |d| { EarlierColonIsInside(e, t, d, s); }
    assert d == whole[..|d|] == e;
    assert s == whole[|d| + 1..] == t;
  }

  lemma PrefixedUnique(a: string, s: string, b: string, t: string)
    requires Prefixed(a) + s == Prefixed(b) + t
    ensures a == b && s == t
  {
    DigitsOnly(|a|);
    DigitsOnly(|b|);
    assert Prefixed(a) + s == Decimal(|a|) + ":" + (a + s);
    assert Prefixed(b) + t == Decimal(|b|) + ":" + (b + t);
    HeadUnique(Decimal(|a|), a + s, Decimal(|b|), b + t);
    DecimalRoundTrip(|a|);
    DecimalRoundTrip(|b|);
    assert a == (a + s)[..|a|] == (b + t)[..|b|] == b;
    assert s == (a + s)[|a|..] == (b + t)[|b|..] == t;
  }

  /** Two scopes never share a bucket: the length prefixes make the composite key injective,
      whatever characters the parts contain. */
  lemma ComputeKeyInjective(scope: string, id: string, key: string, scope': string, id': string, key': string)
    requires ComputeKey(scope, id, key) == ComputeKey(scope', id', key')
    ensures scope == scope' && id == id' && key == key'
  {
    var rest, rest' := Prefixed(id) + Prefixed(key), Prefixed(id') + Prefixed(key');
    assert ComputeKey(scope, id, key) == Prefixed(scope) + rest;
    assert ComputeKey(scope', id', key') == Prefixed(scope') + rest';
    PrefixedUnique(scope, rest, scope', rest');
    PrefixedUnique(id, Prefixed(key), id', Prefixed(key'));
    assert Prefixed(key) + "" == Prefixed(key') + "";
    PrefixedUnique(key, "", key', "");
  }

  // ---------- contents ----------

  function Find(store: Store, b: string, k: string): Option<Entry> {
    if b in store && k in store[b] then Some(store[b][k]) else None
  }

  /** What a reader sees at a clock reading. */
  function Live(store: Store, b: string, k: string, now: nat): Option<Entry> {
    match Find(store, b, k)
    case Some(e) => if Expired(e, now) then None else Some(e)
    case None => None
  }

  /** `after` is what is left of `before`: the same entry, or nothing if it has expired. */
  predicate Kept(before: Option<Entry>, after: Option<Entry>, now: nat) {
    after == before || (after.None? && before.Some? && Expired(before.value, now))
  }

  /** The store has lost nothing but entries expired by `now`, and gained nothing. */
  ghost predicate Faded(before: Store, after: Store, now: nat) {
    forall b, k :: Kept(Find(before, b, k), Find(after, b, k), now)
  }

  ghost predicate NoneExpired(store: Store, t: nat) {
    forall b, k | Find(store, b, k).Some? :: !Expired(Find(store, b, k).value, t)
  }

  ghost predicate FadedExcept(before: Store, after: Store, b0: string, k0: string, now: nat) {
    forall b, k | (b, k) != (b0, k0) :: Kept(Find(before, b, k), Find(after, b, k), now)
  }

  /** Readers cannot tell a faded store from the original, then or later. */
  lemma FadedLooksSame(before: Store, after: Store, now: nat, later: nat, b: string, k: string)
    requires Faded(before, after, now) && now <= later
    ensures Live(after, b, k, later) == Live(before, b, k, later)
  {
    assert Kept(Find(before, b, k), Find(after, b, k), now);
  }

  lemma FadedReflexive(store: Store, now: nat)
    ensures Faded(store, store, now)
  {
  }

  lemma SameContentsFade(before: Store, a: Store, b: Store, now: nat)
    requires Faded(before, a, now) && forall x, y :: Find(a, x, y) == Find(b, x, y)
    ensures Faded(before, b, now)
  {
    hide Find;
    forall x, y ensures Kept(Find(before, x, y), Find(b, x, y), now) {
      assert Kept(Find(before, x, y), Find(a, x, y), now);
    }
  }

  lemma FadedTransitive(a: Store, b: Store, c: Store, t: nat, u: nat)
    requires Faded(a, b, t) && Faded(b, c, u) && t <= u
    ensures Faded(a, c, u)
  {
    forall x, y ensures Kept(Find(a, x, y), Find(c, x, y), u) {
      assert Kept(Find(a, x, y), Find(b, x, y), t) && Kept(Find(b, x, y), Find(c, x, y), u);
    }
  }

  /** One step of a reverse rollback. `before` was read, one address was written over it giving
      `after`, and later only expired entries were lost. Putting the read value back leaves the
      original, faded. */
  lemma UndoneIsFaded(before: Store, after: Store, late: Store, undone: Store, b0: string, k0: string,
                      read: Option<Entry>, t: nat, now: nat)
    requires t <= now && FadedExcept(before, after, b0, k0, t)
    requires Kept(Find(before, b0, k0), read, t)
    requires Faded(after, late, now)
    requires Find(undone, b0, k0) == read
    requires forall b, k | (b, k) != (b0, k0) :: Find(undone, b, k) == Find(late, b, k)
    ensures Faded(before, undone, now)
  {
    forall b, k ensures Kept(Find(before, b, k), Find(undone, b, k), now) {
      if (b, k) != (b0, k0) {
        assert Kept(Find(before, b, k), Find(after, b, k), t) && Kept(Find(after, b, k), Find(late, b, k), now);
      }
    }
  }

  // ---------- sums over maps ----------

  ghost function Sum<K>(m: map<K, nat>): nat {
    if m == map[] then 0
    else
      var k :| k in m;
      m[k] + Sum(m - {k})
  }

  lemma {:induction false} SumRemove<K>(m: map<K, nat>, k: K)
    requires k in m
    ensures Sum(m) == m[k] + Sum(m - {k})
    decreases |m|
  {
    var j :| j in m && Sum(m) == m[j] + Sum(m - {j});
    if j != k {
      SumRemove(m - {j}, k);
      SumRemove(m - {k}, j);
      assert m - {j} - {k} == m - {k} - {j};
    }
  }

  lemma SumUpdate<K>(m: map<K, nat>, k: K, v: nat)
    ensures Sum(m[k := v]) == Sum(m) - (if k in m then m[k] else 0) + v
  {
    SumRemove(m[k := v], k);
    assert m[k := v] - {k} == m - {k};
    if k in m { SumRemove(m, k); } else { assert m - {k} == m; }
  }

  lemma {:induction false} SumAtMost<K>(a: map<K, nat>, b: map<K, nat>)
    requires forall k | k in a :: a[k] <= if k in b then b[k] else 0
    ensures Sum(a) <= Sum(b)
    decreases |a|
  {
    if a != map[] {
      var k :| k in a && Sum(a) == a[k] + Sum(a - {k});
      SumAtMost(a - {k}, b - {k});
      if k in b { SumRemove(b, k); } else { assert b - {k} == b; }
    }
  }

  // ---------- accounting ----------

  ghost function Sizes(policy: Policy, bucket: Bucket): map<string, nat> {
    map k | k in bucket :: SizeOf(policy, bucket[k])
  }

  ghost function BucketBytes(policy: Policy, bucket: Bucket): nat {
    Sum(Sizes(policy, bucket))
  }

  ghost function BytesByBucket(policy: Policy, store: Store): map<string, nat> {
    map b | b in store :: BucketBytes(policy, store[b])
  }

  ghost function TotalBytes(policy: Policy, store: Store): nat {
    Sum(BytesByBucket(policy, store))
  }

  function Entries(bucket: Bucket): nat {
    |bucket|
  }

  ghost function CountByBucket(store: Store): map<string, nat> {
    map b | b in store :: Entries(store[b])
  }

  ghost function TotalEntries(store: Store): nat {
    Sum(CountByBucket(store))
  }

  function BucketOf(store: Store, b: string): Bucket {
    if b in store then store[b] else map[]
  }

  lemma EmptyBucket(policy: Policy)
    ensures BucketBytes(policy, map[]) == 0
  {
    assert Sizes(policy, map[]) == map[];
  }

  lemma BucketPut(policy: Policy, bucket: Bucket, k: string, e: Entry)
    ensures BucketBytes(policy, bucket[k := e])
         == BucketBytes(policy, bucket) - (if k in bucket then SizeOf(policy, bucket[k]) else 0) + SizeOf(policy, e)
  {
    SumUpdate(Sizes(policy, bucket), k, SizeOf(policy, e));
    assert Sizes(policy, bucket[k := e]) == Sizes(policy, bucket)[k := SizeOf(policy, e)];
  }

  lemma BucketDrop(policy: Policy, bucket: Bucket, k: string)
    requires k in bucket
    ensures BucketBytes(policy, bucket) == SizeOf(policy, bucket[k]) + BucketBytes(policy, bucket - {k})
    ensures |bucket| == 1 + |bucket - {k}|
  {
    SumRemove(Sizes(policy, bucket), k);
    assert Sizes(policy, bucket - {k}) == Sizes(policy, bucket) - {k};
    assert bucket.Keys == (bucket - {k}).Keys + {k};
  }

  lemma StorePut(policy: Policy, store: Store, b: string, bucket: Bucket)
    ensures TotalBytes(policy, store[b := bucket])
         == TotalBytes(policy, store) - BucketBytes(policy, BucketOf(store, b)) + BucketBytes(policy, bucket)
    ensures TotalEntries(store[b := bucket]) == TotalEntries(store) - |BucketOf(store, b)| + |bucket|
  {
    EmptyBucket(policy);
    BytesPut(policy, store, b, bucket);
    CountPut(store, b, bucket);
    hide BucketBytes, TotalBytes, TotalEntries;
  }

  lemma BytesPut(policy: Policy, store: Store, b: string, bucket: Bucket)
    ensures TotalBytes(policy, store[b := bucket]) == TotalBytes(policy, store)
         - (if b in store then BucketBytes(policy, store[b]) else 0) + BucketBytes(policy, bucket)
  {
    hide BucketBytes;
    SumUpdate(BytesByBucket(policy, store), b, BucketBytes(policy, bucket));
    assert BytesByBucket(policy, store[b := bucket])
        == BytesByBucket(policy, store)[b := BucketBytes(policy, bucket)];
  }

  lemma CountPut(store: Store, b: string, bucket: Bucket)
    ensures TotalEntries(store[b := bucket])
         == TotalEntries(store) - (if b in store then Entries(store[b]) else 0) + Entries(bucket)
  {
    hide Entries;
    SumUpdate(CountByBucket(store), b, Entries(bucket));
    assert CountByBucket(store[b := bucket]) == CountByBucket(store)[b := Entries(bucket)];
  }

  lemma StoreDrop(policy: Policy, store: Store, b: string)
    requires b in store
    ensures TotalBytes(policy, store) == BucketBytes(policy, store[b]) + TotalBytes(policy, store - {b})
    ensures TotalEntries(store) == Entries(store[b]) + TotalEntries(store - {b})
  {
    hide BucketBytes, Entries;
    SumRemove(BytesByBucket(policy, store), b);
    assert BytesByBucket(policy, store - {b}) == BytesByBucket(policy, store) - {b};
    SumRemove(CountByBucket(store), b);
    assert CountByBucket(store - {b}) == CountByBucket(store) - {b};
  }

  /** Every entry of `part` is an entry of `whole`, at the same address. */
  ghost predicate Within(part: Store, whole: Store) {
    forall b, k :: Find(part, b, k).None? || Find(part, b, k) == Find(whole, b, k)
  }

  lemma FadedIsWithin(before: Store, after: Store, now: nat)
    requires Faded(before, after, now)
    ensures Within(after, before)
  {
    forall b, k ensures Find(after, b, k).None? || Find(after, b, k) == Find(before, b, k) {
      assert Kept(Find(before, b, k), Find(after, b, k), now);
    }
  }

  /** A part takes no more room than the whole. */
  lemma PartIsNoLarger(policy: Policy, part: Store, whole: Store)
    requires Within(part, whole)
    ensures TotalBytes(policy, part) <= TotalBytes(policy, whole)
    ensures TotalEntries(part) <= TotalEntries(whole)
  {
    forall b | b in part
      ensures BucketBytes(policy, part[b]) <= BucketBytes(policy, BucketOf(whole, b))
      ensures Entries(part[b]) <= Entries(BucketOf(whole, b))
    {
      forall k | k in part[b] ensures k in BucketOf(whole, b) && BucketOf(whole, b)[k] == part[b][k] {
        assert Find(part, b, k) == Find(whole, b, k);
      }
      SumAtMost(Sizes(policy, part[b]), Sizes(policy, BucketOf(whole, b)));
      SubsetSize(part[b].Keys, BucketOf(whole, b).Keys);
    }
    EmptyBucket(policy);
    SumAtMost(BytesByBucket(policy, part), BytesByBucket(policy, whole));
    SumAtMost(CountByBucket(part), CountByBucket(whole));
  }

  // ---------- entries in their places ----------

  predicate WellPlaced(policy: Policy, e: Entry, b: string, k: string) {
    e.key == k && BucketKey(e) == b && ValidAddress(e) && e.expected == None && e.version > 0 && policy.size(e).Some?
  }

  ghost predicate Placed(policy: Policy, store: Store) {
    forall b, k | Find(store, b, k).Some? :: WellPlaced(policy, Find(store, b, k).value, b, k)
  }

  lemma PartIsPlaced(policy: Policy, part: Store, whole: Store)
    requires Within(part, whole) && Placed(policy, whole)
    ensures Placed(policy, part)
  {
    forall b, k | Find(part, b, k).Some? ensures WellPlaced(policy, Find(part, b, k).value, b, k) {
      assert Find(part, b, k) == Find(whole, b, k);
    }
  }

  // ---------- inserting and removing one entry ----------

  function Inserted(store: Store, b: string, k: string, e: Entry): Store {
    store[b := BucketOf(store, b)[k := e]]
  }

  /** The bucket goes with its last entry. */
  function Removed(store: Store, b: string, k: string): Store {
    var bucket := BucketOf(store, b) - {k};
    if bucket == map[] then store - {b} else store[b := bucket]
  }

  lemma InsertedContents(store: Store, b: string, k: string, e: Entry)
    ensures Find(Inserted(store, b, k, e), b, k) == Some(e)
    ensures forall x, y | (x, y) != (b, k) :: Find(Inserted(store, b, k, e), x, y) == Find(store, x, y)
  {
  }

  lemma InsertedFresh(store: Store, b: string, k: string, e: Entry, t: nat)
    requires NoneExpired(store, t) && !Expired(e, t)
    ensures NoneExpired(Inserted(store, b, k, e), t)
  {
    InsertedContents(store, b, k, e);
    hide Find, Inserted, Expired;
    forall x, y | Find(Inserted(store, b, k, e), x, y).Some? ensures !Expired(Find(Inserted(store, b, k, e), x, y).value, t) {
      if (x, y) != (b, k) { assert Find(Inserted(store, b, k, e), x, y) == Find(store, x, y); }
    }
  }

  lemma RemovedContents(store: Store, b: string, k: string)
    ensures Find(Removed(store, b, k), b, k) == None
    ensures forall x, y | (x, y) != (b, k) :: Find(Removed(store, b, k), x, y) == Find(store, x, y)
  {
    forall x, y | (x, y) != (b, k) ensures Find(Removed(store, b, k), x, y) == Find(store, x, y) {
      if x == b && y in BucketOf(store, b) { assert y in BucketOf(store, b) - {k}; }
    }
  }

  function SizeAt(policy: Policy, found: Option<Entry>): nat {
    match found
    case Some(e) => SizeOf(policy, e)
    case None => 0
  }

  lemma InsertedSize(policy: Policy, store: Store, b: string, k: string, e: Entry)
    ensures TotalBytes(policy, Inserted(store, b, k, e))
         == TotalBytes(policy, store) - SizeAt(policy, Find(store, b, k)) + SizeOf(policy, e)
    ensures TotalEntries(Inserted(store, b, k, e)) == TotalEntries(store) + if Find(store, b, k).Some? then 0 else 1
  {
    hide TotalBytes, TotalEntries, BucketBytes, SizeOf;
    var bucket := BucketOf(store, b);
    BucketPut(policy, bucket, k, e);
    StorePut(policy, store, b, bucket[k := e]);
    assert bucket[k := e].Keys == bucket.Keys + {k};
  }

  lemma RemovedSize(policy: Policy, store: Store, b: string, k: string)
    requires Find(store, b, k).Some?
    ensures TotalBytes(policy, Removed(store, b, k)) == TotalBytes(policy, store) - SizeAt(policy, Find(store, b, k))
    ensures TotalEntries(Removed(store, b, k)) == TotalEntries(store) - 1
  {
    hide TotalBytes, TotalEntries, BucketBytes, SizeOf;
    var bucket := store[b] - {k};
    BucketDrop(policy, store[b], k);
    if bucket == map[] {
      StoreDrop(policy, store, b);
      EmptyBucket(policy);
    } else {
      StorePut(policy, store, b, bucket);
    }
  }

  lemma InsertedPlaced(policy: Policy, store: Store, b: string, k: string, e: Entry)
    requires Placed(policy, store) && WellPlaced(policy, e, b, k)
    ensures Placed(policy, Inserted(store, b, k, e))
  {
    InsertedContents(store, b, k, e);
    hide Find, WellPlaced, Inserted;
    forall x, y | Find(Inserted(store, b, k, e), x, y).Some?
      ensures WellPlaced(policy, Find(Inserted(store, b, k, e), x, y).value, x, y)
    {
      if (x, y) != (b, k) { assert Find(Inserted(store, b, k, e), x, y) == Find(store, x, y); }
    }
  }

  lemma RemovedPlaced(policy: Policy, store: Store, b: string, k: string)
    requires Placed(policy, store)
    ensures Placed(policy, Removed(store, b, k))
  {
    RemovedContents(store, b, k);
    hide Find, WellPlaced, Removed;
    forall x, y | Find(Removed(store, b, k), x, y).Some?
      ensures WellPlaced(policy, Find(Removed(store, b, k), x, y).value, x, y)
    {
      if (x, y) != (b, k) { assert Find(Removed(store, b, k), x, y) == Find(store, x, y); }
    }
  }

  lemma RemovedFades(before: Store, store: Store, b: string, k: string, now: nat)
    requires Faded(before, store, now) && Find(store, b, k).Some? && Expired(Find(store, b, k).value, now)
    ensures Faded(before, Removed(store, b, k), now)
  {
    RemovedContents(store, b, k);
    hide Removed, Find;
    forall x, y ensures Kept(Find(before, x, y), Find(Removed(store, b, k), x, y), now) {
      assert Kept(Find(before, x, y), Find(store, x, y), now);
    }
  }

  lemma EmptyBucketAdds(policy: Policy, store: Store, b: string)
    requires b !in store
    ensures forall x, y :: Find(store[b := map[]], x, y) == Find(store, x, y)
    ensures TotalBytes(policy, store[b := map[]]) == TotalBytes(policy, store)
    ensures TotalEntries(store[b := map[]]) == TotalEntries(store)
    ensures Placed(policy, store) ==> Placed(policy, store[b := map[]])
  {
    StorePut(policy, store, b, map[]);
    EmptyBucket(policy);
    hide TotalBytes, TotalEntries, BucketBytes;
    if Placed(policy, store) { PartIsPlaced(policy, store[b := map[]], store); }
  }

  lemma SuccessorPlaced(policy: Policy, e: Entry, seen: Option<Entry>, now: nat)
    requires ValidAddress(e) && policy.size(Successor(policy, e, seen, now)).Some?
    ensures WellPlaced(policy, Successor(policy, e, seen, now), BucketKey(e), e.key)
  {
  }

  lemma InsertedFades(before: Store, store: Store, b: string, k: string, e: Entry, now: nat)
    requires Faded(before, store, now)
    ensures FadedExcept(before, Inserted(store, b, k, e), b, k, now)
  {
    InsertedContents(store, b, k, e);
    hide Find, Inserted;
    forall x, y | (x, y) != (b, k) ensures Kept(Find(before, x, y), Find(Inserted(store, b, k, e), x, y), now) {
      assert Kept(Find(before, x, y), Find(store, x, y), now);
    }
  }

  lemma FadedSees(before: Store, store: Store, b: string, k: string, now: nat)
    requires Faded(before, store, now)
    ensures FadedExcept(before, store, b, k, now) && Kept(Find(before, b, k), Find(store, b, k), now)
  {
  }

  /** Dropping an empty bucket changes no content and no count. */
  lemma EmptyBucketDrops(policy: Policy, store: Store, b: string)
    requires b in store && store[b] == map[]
    ensures forall x, y :: Find(store - {b}, x, y) == Find(store, x, y)
    ensures TotalBytes(policy, store - {b}) == TotalBytes(policy, store)
    ensures TotalEntries(store - {b}) == TotalEntries(store)
    ensures Placed(policy, store) ==> Placed(policy, store - {b})
  {
    StoreDrop(policy, store, b);
    EmptyBucket(policy);
    hide TotalBytes, TotalEntries, BucketBytes;
    if Placed(policy, store) { PartIsPlaced(policy, store - {b}, store); }
  }

  /** `list` enumerates the store. */
  ghost predicate ListingOf(policy: Policy, list: seq<Entry>, store: Store) {
    && Placed(policy, store) && Distinct(list)
    && forall e :: e in list <==> Find(store, BucketKey(e), e.key) == Some(e)
  }

  predicate Fits(policy: Policy, bytes: int, count: int, seen: Option<Entry>, e: Entry) {
    && (seen.Some? || count < policy.maxEntries)
    && bytes - SizeAt(policy, seen) + SizeOf(policy, e) <= policy.maxBytes
  }

  function VersionOf(seen: Option<Entry>): nat {
    if seen.Some? then seen.value.version else 0
  }

  /** The entry a write leaves behind when it finds `seen` at its address. */
  function Successor(policy: Policy, e: Entry, seen: Option<Entry>, now: nat): Entry {
    e.(version := VersionOf(seen) + 1,
       createdAt := if seen.Some? then seen.value.createdAt else now,
       updatedAt := now,
       expected := None,
       expiresAt := if e.expiresAt == None && e.scope == "execution" then Some(now + policy.ttl) else e.expiresAt)
  }
}
