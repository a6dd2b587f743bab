/** Artifact histories and the indexes over their latest versions (runtime/memory/artifact_store.go). */
module ArtifactModel {
  import opened MemoryModel

  datatype Artifact = Artifact(
    id: string, name: string, kind: string, producer: string, workflow: string, execution: string, task: string,
    parents: seq<string>, createdAt: nat, storedAt: Option<nat>, version: nat, data: string)

  type Histories = map<string, seq<Artifact>>
  type Index = map<string, seq<string>>

  function Latest(store: Histories, id: string): Option<Artifact> {
    if id in store && store[id] != [] then Some(store[id][|store[id]| - 1]) else None
  }

  /** A run of consecutive versions of one series, no longer than the retention limit. */
  ghost predicate ValidHistory(id: string, h: seq<Artifact>, maxVersions: nat) {
    && 0 < |h| <= maxVersions
    && h[0].version > 0
    && forall i | 0 <= i < |h| :: h[i].id == id && h[i].version == h[0].version + i
  }

  ghost predicate ValidHistories(store: Histories, maxVersions: nat) {
    forall id | id in store :: ValidHistory(id, store[id], maxVersions)
  }

  function Posting(index: Index, key: string): seq<string> {
    if key in index then index[key] else []
  }

  /** How often a series is to be posted under a key. */
  function ByProducer(a: Artifact, key: string): nat {
    if a.producer == key then 1 else 0
  }

  function ByKind(a: Artifact, key: string): nat {
    if a.kind == key then 1 else 0
  }

  function ByParent(a: Artifact, key: string): nat {
    multiset(a.parents)[key]
  }

  function Weight(weight: (Artifact, string) -> nat, a: Option<Artifact>, key: string): nat {
    match a
    case Some(x) => weight(x, key)
    case None => 0
  }

  /** How often a series is posted under a key. */
  function Posted(index: Index, key: string, id: string): nat {
    multiset(Posting(index, key))[id]
  }

  /** The index holds exactly what a scan of the latest versions would put into it. */
  ghost predicate Agrees(index: Index, store: Histories, weight: (Artifact, string) -> nat) {
    forall key, id :: Posted(index, key, id) == Weight(weight, Latest(store, id), key)
  }

  /** Two indexes that agree with one store have the same contents, whatever edits led there. */
  lemma AgreementFixesContents(index: Index, other: Index, store: Histories, weight: (Artifact, string) -> nat, key: string)
    requires Agrees(index, store, weight) && Agrees(other, store, weight)
    ensures multiset(Posting(index, key)) == multiset(Posting(other, key))
  {
    forall id ensures multiset(Posting(index, key))[id] == multiset(Posting(other, key))[id] {
      assert Posted(index, key, id) == Posted(other, key, id);
    }
  }

  /** Version 1 for a new series, the successor otherwise. */
  function NextVersion(store: Histories, id: string): nat {
    match Latest(store, id)
    case Some(a) => a.version + 1
    case None => 1
  }

  /** The history after appending a version and pruning to the limit. */
  function Appended(h: seq<Artifact>, a: Artifact, maxVersions: nat): seq<Artifact> {
    var longer := h + [a];
    if |longer| > maxVersions then longer[|longer| - maxVersions..] else longer
  }

  lemma AppendedIsValid(store: Histories, a: Artifact, maxVersions: nat)
    requires ValidHistories(store, maxVersions) && maxVersions > 0 && a.version == NextVersion(store, a.id)
    ensures var h := Appended(if a.id in store then store[a.id] else [], a, maxVersions);
      ValidHistory(a.id, h, maxVersions) && h[|h| - 1] == a
  {
    if a.id in store { assert ValidHistory(a.id, store[a.id], maxVersions); }
  }

  /** removeID: the first occurrence goes. */
  function RemoveId(s: seq<string>, target: string): seq<string> {
    if s == [] then []
    else if s[0] == target then s[1..]
    else [s[0]] + RemoveId(s[1..], target)
  }

  lemma {:induction false} RemoveIdContents(s: seq<string>, target: string)
    ensures multiset(RemoveId(s, target)) == multiset(s) - multiset{target}
  {
    if s != [] {
      var rest := RemoveId(s[1..], target);
      assert s == [s[0]] + s[1..];
      RemoveIdContents(s[1..], target);
      if s[0] != target { assert multiset([s[0]] + rest) == multiset{s[0]} + multiset(rest); }
    }
  }

  function Withdraw(index: Index, key: string, id: string): Index {
    index[key := RemoveId(Posting(index, key), id)]
  }

  function Publish(index: Index, key: string, id: string): Index {
    index[key := Posting(index, key) + [id]]
  }

  lemma WithdrawPosted(index: Index, key: string, id: string, k: string, x: string)
    ensures Posted(Withdraw(index, key, id), k, x)
         == if k == key && x == id && Posted(index, k, x) > 0 then Posted(index, k, x) - 1 else Posted(index, k, x)
  {
    RemoveIdContents(Posting(index, key), id);
  }

  lemma PublishPosted(index: Index, key: string, id: string, k: string, x: string)
    ensures Posted(Publish(index, key, id), k, x)
         == if k == key && x == id then Posted(index, k, x) + 1 else Posted(index, k, x)
  {
  }

  /** An index in which one more, or one fewer, series is posted by its weight. */
  lemma AgreesWithout(index: Index, less: Index, store: Histories, weight: (Artifact, string) -> nat, id: string, a: Artifact)
    requires Agrees(index, store, weight) && Latest(store, id) == Some(a)
    requires forall k, x :: Posted(less, k, x) + (if x == id then weight(a, k) else 0) == Posted(index, k, x)
    ensures Agrees(less, store - {id}, weight)
  {
    hide Posted;
    forall k, x ensures Posted(less, k, x) == Weight(weight, Latest(store - {id}, x), k) {
      assert Posted(index, k, x) == Weight(weight, Latest(store, x), k);
    }
  }

  lemma AgreesWith(index: Index, more: Index, others: Histories, store: Histories, weight: (Artifact, string) -> nat,
                   id: string, a: Artifact)
    requires Agrees(index, others, weight) && id !in others && Latest(store, id) == Some(a)
    requires forall x | x != id :: Latest(store, x) == Latest(others, x)
    requires forall k, x :: Posted(more, k, x) == Posted(index, k, x) + if x == id then weight(a, k) else 0
    ensures Agrees(more, store, weight)
  {
    hide Posted;
    forall k, x ensures Posted(more, k, x) == Weight(weight, Latest(store, x), k) {
      assert Posted(index, k, x) == Weight(weight, Latest(others, x), k);
    }
  }

  // ---------- queries ----------

  function LatestOf(store: Histories, ids: seq<string>): seq<Artifact> {
    if ids == [] then []
    else
      LatestOf(store, ids[..|ids| - 1]) + Listed(Latest(store, ids[|ids| - 1]))
  }

  function Listed(a: Option<Artifact>): seq<Artifact> {
    match a
    case Some(x) => [x]
    case None => []
  }

  lemma LastListed(store: Histories, id: string, maxVersions: nat, a: Artifact)
    requires ValidHistories(store, maxVersions)
    ensures multiset(Listed(Latest(store, id)))[a] == if Latest(store, a.id) == Some(a) && a.id == id then 1 else 0
  {
    if Latest(store, id).Some? { assert ValidHistory(id, store[id], maxVersions); }
  }

  lemma {:induction false} LatestOfContents(store: Histories, ids: seq<string>, maxVersions: nat, a: Artifact)
    requires ValidHistories(store, maxVersions)
    ensures multiset(LatestOf(store, ids))[a] == if Latest(store, a.id) == Some(a) then multiset(ids)[a.id] else 0
  {
    if ids != [] {
      var front, last := ids[..|ids| - 1], ids[|ids| - 1];
      LatestOfContents(store, front, maxVersions, a);
      assert ids == front + [last];
      LastListed(store, last, maxVersions, a);
      hide Latest, ValidHistories, Listed;
    }
  }

  /** An index lookup returns exactly what filtering a scan of all latest versions would, each
      artifact as often as its weight says. */
  lemma LookupIsFilteredScan(index: Index, store: Histories, weight: (Artifact, string) -> nat, key: string,
                             maxVersions: nat, a: Artifact)
    requires ValidHistories(store, maxVersions) && Agrees(index, store, weight)
    ensures multiset(LatestOf(store, Posting(index, key)))[a]
         == if Latest(store, a.id) == Some(a) then weight(a, key) else 0
  {
    LatestOfContents(store, Posting(index, key), maxVersions, a);
    assert Posted(index, key, a.id) == Weight(weight, Latest(store, a.id), key);
  }
}
