/** The artifact store as it runs: histories and three indexes edited in place. */
module ArtifactStores {
  import opened MemoryModel
  import opened ArtifactModel

  class ArtifactStore {
    var store: Histories
    var byProducer: Index
    var byKind: Index
    var byParent: Index
    const maxVersions: nat

    ghost predicate Indexed()
      reads this
    {
      && Agrees(byProducer, store, ByProducer)
      && Agrees(byKind, store, ByKind)
      && Agrees(byParent, store, ByParent)
    }

    ghost predicate Valid()
      reads this
    {
      maxVersions > 0 && ValidHistories(store, maxVersions) && Indexed()
    }

    constructor (maxVersions: nat)
      ensures Valid() && store == map[] && this.maxVersions == if maxVersions == 0 then 100 else maxVersions
    {
      this.maxVersions := if maxVersions == 0 then 100 else maxVersions;
      store, byProducer, byKind, byParent := map[], map[], map[], map[];
    }

    /** Take the postings of `id`, whose latest version is `a`, out of the indexes. */
    method Unpost(id: string, a: Artifact)
      requires Indexed() && Latest(store, id) == Some(a)
      modifies this`byProducer, this`byKind, this`byParent
      ensures Agrees(byProducer, store - {id}, ByProducer)
      ensures Agrees(byKind, store - {id}, ByKind)
      ensures Agrees(byParent, store - {id}, ByParent)
    {
      byProducer := WithdrawAll(byProducer, [a.producer], id, store, ByProducer, a);
      byKind := WithdrawAll(byKind, [a.kind], id, store, ByKind, a);
      byParent := WithdrawAll(byParent, a.parents, id, store, ByParent, a);
    }

    /** Post `id` under the keys of its latest version `a`. */
    method Post(id: string, a: Artifact, ghost others: Histories)
      requires id !in others && Latest(store, id) == Some(a) && forall x | x != id :: Latest(store, x) == Latest(others, x)
      requires Agrees(byProducer, others, ByProducer) && Agrees(byKind, others, ByKind) && Agrees(byParent, others, ByParent)
      modifies this`byProducer, this`byKind, this`byParent
      ensures Indexed()
    {
      byProducer := PublishAll(byProducer, [a.producer], id, others, store, ByProducer, a);
      byKind := PublishAll(byKind, [a.kind], id, others, store, ByKind, a);
      byParent := PublishAll(byParent, a.parents, id, others, store, ByParent, a);
    }

    /** Append a version; the series is created when new and pruned when too long. */
    method Save(a: Artifact, now: nat) returns (saved: Artifact)
      requires Valid()
      modifies this
      ensures Valid()
      ensures saved == a.(version := NextVersion(old(store), a.id), storedAt := if a.storedAt.None? then Some(now) else a.storedAt)
      ensures store == old(store)[a.id := Appended(if a.id in old(store) then old(store)[a.id] else [], saved, maxVersions)]
    {
      hide Agrees, ByProducer, ByKind, ByParent;
      saved := a.(version := NextVersion(store, a.id), storedAt := if a.storedAt.None? then Some(now) else a.storedAt);
      AppendedIsValid(store, saved, maxVersions);
      var others := store - {a.id};
      if a.id in store {
        assert ValidHistory(a.id, store[a.id], maxVersions);
        Unpost(a.id, store[a.id][|store[a.id]| - 1]);
      } else {
        assert others == store;
      }
      store := store[a.id := Appended(if a.id in store then store[a.id] else [], saved, maxVersions)];
      Post(a.id, saved, others);
    }

    method Delete(id: string)
      requires Valid()
      modifies this
      ensures Valid() && store == old(store) - {id}
    {
      hide Agrees, ByProducer, ByKind, ByParent;
      if id in store {
        assert ValidHistory(id, store[id], maxVersions);
        Unpost(id, store[id][|store[id]| - 1]);
        store := store - {id};
      } else {
        assert store - {id} == store;
      }
    }

    /** Put a series back to an earlier history, or remove it. */
    method RestoreSeries(id: string, history: seq<Artifact>)
      requires Valid() && (history != [] ==> ValidHistory(id, history, maxVersions))
      modifies this
      ensures Valid() && store == if history == [] then old(store) - {id} else old(store)[id := history]
    {
      hide Agrees, ByProducer, ByKind, ByParent;
      Delete(id);
      if history != [] {
        var others := store;
        store := store[id := history];
        Post(id, history[|history| - 1], others);
      }
    }

    method UpdateVersion(id: string, data: string, now: nat) returns (r: Option<Artifact>)
      requires Valid()
      modifies this
      ensures Valid()
      ensures r.None? <==> Latest(old(store), id).None?
      ensures r.None? ==> store == old(store)
      ensures r.Some? ==> var latest := Latest(old(store), id).value;
        && r.value == latest.(version := latest.version + 1, data := data, storedAt := Some(now))
        && store == old(store)[id := Appended(old(store)[id], r.value, maxVersions)]
    {
      hide Agrees, ByProducer, ByKind, ByParent;
      if id !in store { return None; }
      assert ValidHistory(id, store[id], maxVersions);
      var latest := store[id][|store[id]| - 1];
      var saved := Save(latest.(version := latest.version + 1, data := data, storedAt := None), now);
      r := Some(saved);
    }

    /** Succeeds exactly on the retained window of versions. */
    method GetVersion(id: string, version: nat) returns (r: Option<Artifact>)
      requires Valid()
      ensures r.Some? <==> id in store && store[id][0].version <= version <= store[id][|store[id]| - 1].version
      ensures r.Some? ==> r.value.version == version && r.value in store[id]
    {
      hide Agrees;
      if id !in store || version == 0 { return None; }
      var h := store[id];
      assert ValidHistory(id, h, maxVersions);
      if h[0].version <= version <= h[|h| - 1].version {
        assert h[version - h[0].version].version == version;
      }
      for i := 0 to |h|
        invariant forall k | 0 <= k < i :: h[k].version != version
      {
        if h[i].version == version { return Some(h[i]); }
      }
      return None;
    }

    /** The loop shared by the index queries. */
    method Collect(ids: seq<string>) returns (results: seq<Artifact>)
      ensures results == LatestOf(store, ids)
    {
      results := [];
      for i := 0 to |ids|
        invariant results == LatestOf(store, ids[..i])
      {
        assert ids[..i + 1][..i] == ids[..i];
        if ids[i] in store && store[ids[i]] != [] {
          results := results + [store[ids[i]][|store[ids[i]]| - 1]];
        }
      }
      assert ids[..|ids|] == ids;
    }

    method FindByProducer(producer: string) returns (results: seq<Artifact>)
      requires Valid()
      ensures forall a :: multiset(results)[a] == if Latest(store, a.id) == Some(a) && a.producer == producer then 1 else 0
    {
      results := Collect(Posting(byProducer, producer));
      forall a ensures multiset(results)[a] == if Latest(store, a.id) == Some(a) && a.producer == producer then 1 else 0 {
        LookupIsFilteredScan(byProducer, store, ByProducer, producer, maxVersions, a);
      }
    }

    method FindByType(kind: string) returns (results: seq<Artifact>)
      requires Valid()
      ensures forall a :: multiset(results)[a] == if Latest(store, a.id) == Some(a) && a.kind == kind then 1 else 0
    {
      results := Collect(Posting(byKind, kind));
      forall a ensures multiset(results)[a] == if Latest(store, a.id) == Some(a) && a.kind == kind then 1 else 0 {
        LookupIsFilteredScan(byKind, store, ByKind, kind, maxVersions, a);
      }
    }

    /** The series that declare `parent`, each as often as it declares it. */
    method FindChildren(parent: string) returns (results: seq<Artifact>)
      requires Valid()
      ensures forall a :: multiset(results)[a] == if Latest(store, a.id) == Some(a) then multiset(a.parents)[parent] else 0
    {
      results := Collect(Posting(byParent, parent));
      forall a ensures multiset(results)[a] == if Latest(store, a.id) == Some(a) then multiset(a.parents)[parent] else 0 {
        LookupIsFilteredScan(byParent, store, ByParent, parent, maxVersions, a);
      }
    }

    /** One more series of a snapshot. */
    method RestoreOne(id: string, history: seq<Artifact>)
      requires Indexed() && (forall other | other in store :: other != "") && id != "" && id !in store
      requires history != [] && forall i | 0 <= i < |history| :: history[i].id == id
      modifies this
      ensures Indexed() && store == old(store)[id := history]
      ensures old(Valid()) && ValidHistory(id, history, maxVersions) ==> Valid()
    {
      hide Agrees, ByProducer, ByKind, ByParent;
      var others := store;
      store := store[id := history];
      Post(id, history[|history| - 1], others);
    }

    /** Replace everything by a snapshot and rebuild the indexes. */
    method Restore(snapshot: Histories) returns (ok: bool)
      requires maxVersions > 0
      modifies this
      ensures ValidHistories(snapshot, maxVersions) ==>
        && (ok <==> "" !in snapshot)
        && (ok ==> Valid() && store == snapshot)
    {
      hide Agrees, ByProducer, ByKind, ByParent;
      store, byProducer, byKind, byParent := map[], map[], map[], map[];
      EmptyIndexes();
      ghost var sound := ValidHistories(snapshot, maxVersions);
      var left := snapshot.Keys;
      while left != {}
        invariant left <= snapshot.Keys
        invariant store.Keys == snapshot.Keys - left && Indexed() && forall id | id in store :: id != ""
        invariant sound ==> Valid() && store == snapshot - left
        decreases left
      {
        var id :| id in left;
        var history := snapshot[id];
        if id == "" || history == [] { return false; }
        if |history| > maxVersions { history := history[|history| - maxVersions..]; }
        var belongs := AllOf(id, history);
        if !belongs { return false; }
        if sound { assert ValidHistory(id, history, maxVersions); }
        RestoreOne(id, history);
        left := left - {id};
      }
      assert store.Keys == snapshot.Keys;
      assert "" !in store.Keys;
      return true;
    }
  }

  lemma EmptyIndexes()
    ensures Agrees(map[], map[], ByProducer) && Agrees(map[], map[], ByKind) && Agrees(map[], map[], ByParent)
  {
  }

  method WithdrawAll(index: Index, keys: seq<string>, id: string, ghost store: Histories,
                     ghost weight: (Artifact, string) -> nat, ghost a: Artifact) returns (less: Index)
    requires Agrees(index, store, weight) && Latest(store, id) == Some(a)
    requires forall k :: multiset(keys)[k] == weight(a, k)
    ensures Agrees(less, store - {id}, weight)
  {
    hide Posting, Withdraw, Posted;
    less := index;
    assert forall k :: Posted(index, k, id) == weight(a, k);
    hide Agrees;
    for i := 0 to |keys|
      invariant forall k, x :: Posted(less, k, x) + (if x == id then multiset(keys[..i])[k] else 0) == Posted(index, k, x)
    {
      assert keys[..i + 1] == keys[..i] + [keys[i]];
      assert keys == keys[..i] + [keys[i]] + keys[i + 1..];
      assert Posted(index, keys[i], id) == multiset(keys)[keys[i]];
      forall k, x ensures Posted(Withdraw(less, keys[i], id), k, x)
          + (if x == id then multiset(keys[..i + 1])[k] else 0) == Posted(index, k, x) {
        WithdrawPosted(less, keys[i], id, k, x);
      }
      less := Withdraw(less, keys[i], id);
    }
    assert keys[..|keys|] == keys;
    AgreesWithout(index, less, store, weight, id, a);
  }

  method PublishAll(index: Index, keys: seq<string>, id: string, ghost others: Histories, ghost store: Histories,
                    ghost weight: (Artifact, string) -> nat, ghost a: Artifact) returns (more: Index)
    requires Agrees(index, others, weight) && id !in others && Latest(store, id) == Some(a)
    requires forall x | x != id :: Latest(store, x) == Latest(others, x)
    requires forall k :: multiset(keys)[k] == weight(a, k)
    ensures Agrees(more, store, weight)
  {
    hide Agrees, Posting, Publish, Posted;
    more := index;
    for i := 0 to |keys|
      invariant forall k, x :: Posted(more, k, x) == Posted(index, k, x) + if x == id then multiset(keys[..i])[k] else 0
    {
      assert keys[..i + 1] == keys[..i] + [keys[i]];
      forall k, x ensures Posted(Publish(more, keys[i], id), k, x)
          == Posted(index, k, x) + if x == id then multiset(keys[..i + 1])[k] else 0 {
        PublishPosted(more, keys[i], id, k, x);
      }
      more := Publish(more, keys[i], id);
    }
    assert keys[..|keys|] == keys;
    AgreesWith(index, more, others, store, weight, id, a);
  }

  method AllOf(id: string, history: seq<Artifact>) returns (all: bool)
    ensures all == forall i | 0 <= i < |history| :: history[i].id == id
  {
    for i := 0 to |history|
      invariant forall k | 0 <= k < i :: history[k].id == id
    {
      if history[i].id != id { return false; }
    }
    return true;
  }
}
