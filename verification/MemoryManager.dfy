/** The memory manager (runtime/memory/manager.go): transactions over the key-value store, the
    artifact store and the set of committed attempts, with undo in reverse order. */
module MemoryManagers {
  import opened Storage
  import opened MemoryModel
  import opened RuntimeStates
  import opened ArtifactModel
  import opened ArtifactStores

  datatype Snapshot = Snapshot(runtime: seq<Entry>, artifacts: Histories, committed: set<string>)

  datatype CommitResult = Committed | AlreadyCommitted | Rejected(reason: SetResult) | NotPersisted | Interrupted(wrote: bool)

  /** What a write did at its address: `before` became `after`, and `prior` is what was read. */
  ghost predicate Undoable(policy: Policy, before: Store, after: Store, e: Entry, prior: Option<Entry>, t: nat) {
    && FadedExcept(before, after, BucketKey(e), e.key, t)
    && Kept(Find(before, BucketKey(e), e.key), prior, t)
    && (prior.Some? ==> WellPlaced(policy, prior.value, BucketKey(e), e.key))
  }

  /** The history of a batch: the store before each write, ending in the current store. */
  ghost predicate Trail(policy: Policy, states: seq<Store>, times: seq<nat>, priors: seq<(Entry, Option<Entry>)>, now: nat) {
    && |states| == |priors| + 1 && |times| == |priors|
    && forall i | 0 <= i < |priors| ::
      times[i] <= now && Undoable(policy, states[i], states[i + 1], priors[i].0, priors[i].1, times[i])
  }

  lemma TrailGrows(policy: Policy, states: seq<Store>, times: seq<nat>, priors: seq<(Entry, Option<Entry>)>, now: nat,
                   after: Store, e: Entry, prior: Option<Entry>, t: nat)
    requires Trail(policy, states, times, priors, now) && now <= t
    requires Undoable(policy, states[|states| - 1], after, e, prior, t)
    ensures Trail(policy, states + [after], times + [t], priors + [(e, prior)], t)
  {
    hide Undoable;
  }

  lemma ReadThenWrite(policy: Policy, a: Store, b: Store, c: Store, e: Entry, prior: Option<Entry>, t: nat, u: nat)
    requires Faded(a, b, t) && t <= u && FadedExcept(b, c, BucketKey(e), e.key, u)
    requires prior == Live(a, BucketKey(e), e.key, t)
    requires Placed(policy, a)
    ensures Undoable(policy, a, c, e, prior, u)
  {
    hide Find;
    var b0, k0 := BucketKey(e), e.key;
    if Find(a, b0, k0).Some? { assert WellPlaced(policy, Find(a, b0, k0).value, b0, k0); }
    forall x, y | (x, y) != (b0, k0) ensures Kept(Find(a, x, y), Find(c, x, y), u) {
      assert Kept(Find(a, x, y), Find(b, x, y), t) && Kept(Find(b, x, y), Find(c, x, y), u);
    }
  }

  lemma SeenThroughRead(a: Store, b: Store, c: Store, e: Entry, seen: Option<Entry>, t: nat, u: nat)
    requires Faded(a, b, t) && t <= u && FadedExcept(b, c, BucketKey(e), e.key, u)
    requires Kept(Find(b, BucketKey(e), e.key), seen, u)
    ensures FadedExcept(a, c, BucketKey(e), e.key, u) && Kept(Find(a, BucketKey(e), e.key), seen, u)
    ensures Find(c, BucketKey(e), e.key) == seen ==> Faded(a, c, u)
  {
    var b0, k0 := BucketKey(e), e.key;
    hide Find, BucketKey;
    forall x, y
      ensures (x, y) != (b0, k0) ==> Kept(Find(a, x, y), Find(c, x, y), u)
      ensures (x, y) == (b0, k0) ==> Kept(Find(a, x, y), seen, u)
    {
      assert Kept(Find(a, x, y), Find(b, x, y), t);
    }
  }

  /** A batch that was accepted in full: each write found `seen`, met its expected version and
      left the successor of what it found. */
  ghost predicate Applied(policy: Policy, states: seq<Store>, times: seq<nat>, seens: seq<Option<Entry>>, entries: seq<Entry>) {
    && |states| == |entries| + 1 && |times| == |entries| && |seens| == |entries|
    && forall i | 0 <= i < |entries| :: AppliedAt(policy, states[i], states[i + 1], times[i], seens[i], entries[i])
  }

  ghost predicate AppliedAt(policy: Policy, before: Store, after: Store, t: nat, seen: Option<Entry>, e: Entry) {
    && FadedExcept(before, after, BucketKey(e), e.key, t)
    && Kept(Find(before, BucketKey(e), e.key), seen, t)
    && (e.expected.Some? ==> e.expected.value == VersionOf(seen))
    && Find(after, BucketKey(e), e.key) == Some(Successor(policy, e, seen, t))
  }

  // ---------- versions over a whole history ----------

  /** One step of a history as one address sees it: an accepted write, to it or to another address,
      or anything that leaves what is there but for its expiry. */
  datatype Move = Write(e: Entry, seen: Option<Entry>, t: nat) | Elsewhere(t: nat)

  ghost predicate Moved(policy: Policy, before: Store, after: Store, m: Move, b: string, k: string) {
    match m
    case Write(e, seen, t) => AppliedAt(policy, before, after, t, seen, e)
    case Elsewhere(t) => Kept(Find(before, b, k), Find(after, b, k), t)
  }

  ghost predicate History(policy: Policy, stores: seq<Store>, moves: seq<Move>, b: string, k: string) {
    && |stores| == |moves| + 1
    && forall i | 0 <= i < |moves| :: Moved(policy, stores[i], stores[i + 1], moves[i], b, k)
  }

  predicate Writes(m: Move, b: string, k: string) {
    m.Write? && BucketKey(m.e) == b && m.e.key == k
  }

  /** The entry that move `i` wrote was still there at every later write to its address, up to `j`. */
  ghost predicate LivesUntil(moves: seq<Move>, b: string, k: string, i: nat, j: nat) {
    forall m | i < m <= j && m < |moves| && Writes(moves[m], b, k) :: moves[m].seen.Some?
  }

  /** Versions of one address rise with every accepted write while the entry lives, so two accepted
      conditional writes never name the same expected version. */
  lemma VersionsRise(policy: Policy, stores: seq<Store>, moves: seq<Move>, b: string, k: string, i: nat, j: nat)
    requires History(policy, stores, moves, b, k) && i < j < |moves|
    requires Writes(moves[i], b, k) && Writes(moves[j], b, k) && LivesUntil(moves, b, k, i, j)
    ensures VersionOf(moves[j].seen) > VersionOf(moves[i].seen)
    ensures moves[i].e.expected.Some? && moves[j].e.expected.Some? ==> moves[i].e.expected != moves[j].e.expected
  {
    LivingVersions(policy, stores, moves, b, k, i, j);
    assert Moved(policy, stores[i], stores[i + 1], moves[i], b, k);
    assert Moved(policy, stores[j], stores[j + 1], moves[j], b, k);
  }

  lemma {:induction false} LivingVersions(policy: Policy, stores: seq<Store>, moves: seq<Move>, b: string, k: string, i: nat, j: nat)
    requires History(policy, stores, moves, b, k) && i < j <= |moves|
    requires Writes(moves[i], b, k) && LivesUntil(moves, b, k, i, j - 1)
    ensures var f := Find(stores[j], b, k); f.Some? ==> f.value.version > VersionOf(moves[i].seen)
    decreases j
  {
    assert Moved(policy, stores[j - 1], stores[j], moves[j - 1], b, k);
    if j > i + 1 {
      LivingVersions(policy, stores, moves, b, k, i, j - 1);
      hide BucketKey, Find;
      if moves[j - 1].Write? && !Writes(moves[j - 1], b, k) {
        assert Kept(Find(stores[j - 1], b, k), Find(stores[j], b, k), moves[j - 1].t);
      }
    }
  }

  /** The moves of a batch. */
  ghost function MovesOf(entries: seq<Entry>, seens: seq<Option<Entry>>, times: seq<nat>): seq<Move>
    requires |entries| == |seens| == |times|
  {
    seq(|entries|, i requires 0 <= i < |entries| => Write(entries[i], seens[i], times[i]))
  }

  /** An accepted batch is a history of every address. */
  lemma BatchIsHistory(policy: Policy, states: seq<Store>, times: seq<nat>, seens: seq<Option<Entry>>, entries: seq<Entry>,
                       b: string, k: string)
    requires Applied(policy, states, times, seens, entries)
    ensures History(policy, states, MovesOf(entries, seens, times), b, k)
  {
    hide AppliedAt;
  }

  /** Two histories of an address join when what lies between leaves the address alone. */
  lemma HistoriesJoin(policy: Policy, stores: seq<Store>, moves: seq<Move>, stores': seq<Store>, moves': seq<Move>,
                      t: nat, b: string, k: string)
    requires History(policy, stores, moves, b, k) && History(policy, stores', moves', b, k)
    requires Kept(Find(stores[|moves|], b, k), Find(stores'[0], b, k), t)
    ensures History(policy, stores + stores', moves + [Elsewhere(t)] + moves', b, k)
  {
    hide AppliedAt, Find;
    var all, steps, n := stores + stores', moves + [Elsewhere(t)] + moves', |moves|;
    forall i | 0 <= i < |steps| ensures Moved(policy, all[i], all[i + 1], steps[i], b, k) {
      if i < n {
        assert Moved(policy, stores[i], stores[i + 1], moves[i], b, k);
      } else if i > n {
        assert Moved(policy, stores'[i - n - 1], stores'[i - n], moves'[i - n - 1], b, k);
      }
    }
  }

  /** An accepted batch, as WriteBatch and CommitTaskResult describe it. */
  datatype Batch = Batch(states: seq<Store>, times: seq<nat>, seens: seq<Option<Entry>>, entries: seq<Entry>)

  ghost predicate Accepted(policy: Policy, batch: Batch) {
    Applied(policy, batch.states, batch.times, batch.seens, batch.entries)
  }

  /** Batch after batch was accepted, and what happened between any two left the address alone. */
  ghost predicate Series(policy: Policy, batches: seq<Batch>, gaps: seq<nat>, b: string, k: string) {
    && batches != [] && |gaps| == |batches| - 1
    && (forall i | 0 <= i < |batches| :: Accepted(policy, batches[i]))
    && forall i | 0 <= i < |gaps| ::
         Kept(Find(batches[i].states[|batches[i].entries|], b, k), Find(batches[i + 1].states[0], b, k), gaps[i])
  }

  /** The stores of a series, in order. */
  ghost function AllStores(batches: seq<Batch>): seq<Store>
    requires batches != []
  {
    var last := batches[|batches| - 1];
    if |batches| == 1 then last.states else AllStores(batches[..|batches| - 1]) + last.states
  }

  /** The moves of a series, in order: the writes of each batch, and one gap between any two. */
  ghost function AllMoves(policy: Policy, batches: seq<Batch>, gaps: seq<nat>): seq<Move>
    requires batches != [] && |gaps| == |batches| - 1 && forall i | 0 <= i < |batches| :: Accepted(policy, batches[i])
  {
    var n, last := |batches| - 1, batches[|batches| - 1];
    assert Accepted(policy, last);
    var moves := MovesOf(last.entries, last.seens, last.times);
    if n == 0 then moves else AllMoves(policy, batches[..n], gaps[..n - 1]) + [Elsewhere(gaps[n - 1])] + moves
  }

  /** Any series of accepted batches is one history of an address that is left alone in between. */
  lemma {:induction false} SeriesIsHistory(policy: Policy, batches: seq<Batch>, gaps: seq<nat>, b: string, k: string)
    requires Series(policy, batches, gaps, b, k)
    ensures History(policy, AllStores(batches), AllMoves(policy, batches, gaps), b, k)
    ensures AllStores(batches)[|AllStores(batches)| - 1] == batches[|batches| - 1].states[|batches[|batches| - 1].entries|]
    decreases |batches|
  {
    var n, last := |batches| - 1, batches[|batches| - 1];
    LastAccepted(policy, batches, gaps, b, k);
    BatchIsHistory(policy, last.states, last.times, last.seens, last.entries, b, k);
    hide Applied, History, Find, Kept;
    if n > 0 {
      FrontSeries(policy, batches, gaps, b, k);
      var front, before := batches[..n], gaps[..n - 1];
      SeriesIsHistory(policy, front, before, b, k);
      HistoryShape(policy, AllStores(front), AllMoves(policy, front, before), b, k);
      HistoriesJoin(policy, AllStores(front), AllMoves(policy, front, before), last.states,
                    MovesOf(last.entries, last.seens, last.times), gaps[n - 1], b, k);
    }
  }

  lemma LastAccepted(policy: Policy, batches: seq<Batch>, gaps: seq<nat>, b: string, k: string)
    requires Series(policy, batches, gaps, b, k)
    ensures var last := batches[|batches| - 1];
      Accepted(policy, last) && |last.states| == |last.entries| + 1 && |last.seens| == |last.entries| == |last.times|
  {
    hide AppliedAt;
  }

  lemma FrontSeries(policy: Policy, batches: seq<Batch>, gaps: seq<nat>, b: string, k: string)
    requires Series(policy, batches, gaps, b, k) && |batches| > 1
    ensures Series(policy, batches[..|batches| - 1], gaps[..|gaps| - 1], b, k)
  {
    hide Applied, Find, Kept;
    assert forall i | 0 <= i < |batches| - 1 :: |batches[i].states| == |batches[i].entries| + 1 by { StatesFit(policy, batches); }
  }

  lemma StatesFit(policy: Policy, batches: seq<Batch>)
    requires forall i | 0 <= i < |batches| :: Accepted(policy, batches[i])
    ensures forall i | 0 <= i < |batches| :: |batches[i].states| == |batches[i].entries| + 1
  {
    hide AppliedAt;
  }

  lemma HistoryShape(policy: Policy, stores: seq<Store>, moves: seq<Move>, b: string, k: string)
    requires History(policy, stores, moves, b, k)
    ensures |stores| == |moves| + 1
  {
  }

  /** So the versions of an address rise across all batches, whatever lies between them, as long as
      it leaves the address alone and the entry lives. */
  lemma VersionsRiseAcrossBatches(policy: Policy, batches: seq<Batch>, gaps: seq<nat>, b: string, k: string, i: nat, j: nat)
    requires Series(policy, batches, gaps, b, k)
    requires var moves := AllMoves(policy, batches, gaps);
      i < j < |moves| && Writes(moves[i], b, k) && Writes(moves[j], b, k) && LivesUntil(moves, b, k, i, j)
    ensures var moves := AllMoves(policy, batches, gaps);
      && VersionOf(moves[j].seen) > VersionOf(moves[i].seen)
      && (moves[i].e.expected.Some? && moves[j].e.expected.Some? ==> moves[i].e.expected != moves[j].e.expected)
  {
    SeriesIsHistory(policy, batches, gaps, b, k);
    hide History, Series, LivesUntil, AllMoves, AllStores, Accepted;
    VersionsRise(policy, AllStores(batches), AllMoves(policy, batches, gaps), b, k, i, j);
  }

  /** Fading, which is all that reads, failed operations and restarts do, leaves every address alone;
      the release of an execution leaves the addresses of all other scopes alone. */
  lemma LeavesAlone(before: Store, after: Store, t: nat, b: string, k: string, released: string)
    ensures Faded(before, after, t) ==> Kept(Find(before, b, k), Find(after, b, k), t)
    ensures Faded(before - {released}, after, t) && b != released ==> Kept(Find(before, b, k), Find(after, b, k), t)
  {
    if Faded(before - {released}, after, t) && b != released {
      assert Kept(Find(before - {released}, b, k), Find(after, b, k), t);
    }
  }

  /** The states of a batch start at one store and end, but for expired entries, at another. */
  ghost predicate FromTo(states: seq<Store>, first: Store, last: Store, now: nat) {
    states != [] && states[0] == first && Faded(states[|states| - 1], last, now)
  }

  ghost predicate Spans(times: seq<nat>, from: nat, to: nat) {
    forall i | 0 <= i < |times| :: from <= times[i] <= to
  }

  /** At most one series grew, by one version. */
  ghost predicate Extends(before: Histories, after: Histories, artifact: Option<Artifact>, maxVersions: nat) {
    match artifact
    case None => after == before
    case Some(a) =>
      var h := if a.id in before then before[a.id] else [];
      exists stamp: Option<nat> ::
        var saved := a.(version := NextVersion(before, a.id), storedAt := stamp);
        after == before[a.id := Appended(h, saved, maxVersions)]
  }

  /** The committed attempts whose identity starts with the execution. */
  ghost function AttemptsOf(execution: string, committed: set<string>): set<string> {
    set a | a in committed && execution + "/" <= a
  }

  lemma LaterSpans(times: seq<nat>, from: nat, to: nat, later: nat)
    requires Spans(times, from, to) && to <= later
    ensures Spans(times, from, later)
  {
  }

  /** Two stores faded from one: the later, from which everything expired by the earlier time is
      gone, is faded from the earlier. */
  lemma BothFade(source: Store, early: Store, late: Store, t: nat, u: nat)
    requires Faded(source, early, t) && Faded(source, late, u) && t <= u && NoneExpired(late, t)
    ensures Faded(early, late, u)
  {
    hide Find;
    forall b, k ensures Kept(Find(early, b, k), Find(late, b, k), u) {
      assert Kept(Find(source, b, k), Find(early, b, k), t) && Kept(Find(source, b, k), Find(late, b, k), u);
      if Find(late, b, k).Some? { assert !Expired(Find(late, b, k).value, t); }
    }
  }

  lemma EarlierNone(store: Store, t: nat, u: nat)
    requires NoneExpired(store, u) && t <= u
    ensures NoneExpired(store, t)
  {
    hide Find;
    forall b, k | Find(store, b, k).Some? ensures !Expired(Find(store, b, k).value, t) { assert !Expired(Find(store, b, k).value, u); }
  }

  lemma NothingApplied(policy: Policy, store: Store)
    ensures Applied(policy, [store], [], [], [])
  {
  }

  lemma DropFades(before: Store, after: Store, b: string, now: nat)
    requires Faded(before, after, now)
    ensures Faded(before - {b}, after - {b}, now)
  {
    forall x, y ensures Kept(Find(before - {b}, x, y), Find(after - {b}, x, y), now) {
      assert Kept(Find(before, x, y), Find(after, x, y), now);
    }
  }

  lemma EmptyDropFades(before: Store, after: Store, b: string, now: nat)
    requires Faded(before, after, now) && |BucketOf(after, b)| == 0
    ensures Faded(before, after - {b}, now)
  {
    SameContentsFade(before, after, after - {b}, now);
  }

  class MemoryManager {
    const runtime: RuntimeState
    const artifacts: ArtifactStore
    var committed: set<string>
    var disk: Snapshot
    ghost var diskStore: Store
    /** The process lives; a crash ends it, and memory is lost. */
    var alive: bool

    /** The snapshot on disk is one of a valid state. */
    ghost predicate DiskValid()
      reads this
    {
      && ListingOf(runtime.policy, disk.runtime, diskStore)
      && TotalBytes(runtime.policy, diskStore) <= runtime.policy.maxBytes
      && TotalEntries(diskStore) <= runtime.policy.maxEntries
      && artifacts.maxVersions > 0 && ValidHistories(disk.artifacts, artifacts.maxVersions) && "" !in disk.committed
    }

    /** What an operation may assume while it is under way. */
    ghost predicate Sound()
      reads this, runtime, artifacts
    {
      alive && runtime.Valid() && artifacts.Valid() && "" !in committed
    }

    /** Between operations of a living process memory and disk agree, except for entries that have
        expired since. */
    ghost predicate Valid()
      reads this, runtime, artifacts
    {
      && Sound() && DiskValid() && Faded(diskStore, runtime.store, runtime.time)
      && disk.artifacts == artifacts.store && disk.committed == committed
    }

    constructor (runtime: RuntimeState, artifacts: ArtifactStore)
      requires runtime.Valid() && artifacts.Valid() && runtime.store == map[] && artifacts.store == map[]
      ensures this.runtime == runtime && this.artifacts == artifacts && committed == {}
      ensures Valid()
    {
      this.runtime, this.artifacts := runtime, artifacts;
      committed, alive := {}, true;
      disk := Snapshot([], map[], {});
      diskStore := map[];
    }

    /** Save the current state; the environment decides whether that works. */
    method Persist() returns (outcome: Outcome)
      requires Sound()
      modifies this`disk, this`diskStore, this`alive, runtime
      ensures runtime.Valid() && runtime.time >= old(runtime.time)
      ensures Faded(old(runtime.store), runtime.store, runtime.time)
      ensures alive == !outcome.Crashed?
      ensures if outcome == Saved || outcome == Crashed(true)
              then DiskValid() && diskStore == runtime.store && disk.artifacts == artifacts.store && disk.committed == committed
              else disk == old(disk) && diskStore == old(diskStore)
      ensures outcome.Saved? ==> Valid()
    {
      hide TotalBytes, TotalEntries, Faded, ListingOf, Placed, ValidHistories;
      var list := runtime.Snapshot();
      outcome := *;
      if outcome == Saved || outcome == Crashed(true) {
        disk := Snapshot(list, artifacts.store, committed);
        diskStore := runtime.store;
        FadedReflexive(runtime.store, runtime.time);
      }
      alive := !outcome.Crashed?;
    }

    /** One write of a batch: read what is there, then set. */
    method WriteEntry(e: Entry) returns (r: SetResult, prior: Option<Entry>, ghost seen: Option<Entry>, ghost t: nat)
      requires runtime.Valid()
      modifies runtime
      ensures runtime.Valid() && old(runtime.time) <= t <= runtime.time
      ensures Undoable(runtime.policy, old(runtime.store), runtime.store, e, prior, runtime.time)
      ensures prior == Live(old(runtime.store), BucketKey(e), e.key, t)
      ensures r.Stored? ==> AppliedAt(runtime.policy, old(runtime.store), runtime.store, runtime.time, seen, e)
      ensures !r.Stored? ==> Faded(old(runtime.store), runtime.store, runtime.time)
      ensures ValidAddress(e) ==> (r.VersionConflict? <==> e.expected.Some? && e.expected.value != VersionOf(seen))
      ensures runtime.time == t ==> seen == Live(old(runtime.store), BucketKey(e), e.key, t)
    {
      hide TotalBytes, TotalEntries, Placed, Undoable, Faded, FadedExcept, ValidAddress, WellPlaced;
      assert Placed(runtime.policy, runtime.store);
      prior := runtime.Get(e.scope, e.scopeId, e.key);
      ghost var middle := runtime.store;
      t := runtime.time;
      r, seen := runtime.Set(e);
      ReadThenWrite(runtime.policy, old(runtime.store), middle, runtime.store, e, prior, t, runtime.time);
      SeenThroughRead(old(runtime.store), middle, runtime.store, e, seen, t, runtime.time);
    }

    /** Undo a trail in reverse. */
    method RollbackEntries(priors: seq<(Entry, Option<Entry>)>, ghost states: seq<Store>, ghost times: seq<nat>)
      requires runtime.Accounted() && Trail(runtime.policy, states, times, priors, runtime.time)
      requires Faded(states[|priors|], runtime.store, runtime.time)
      requires TotalBytes(runtime.policy, states[0]) <= runtime.policy.maxBytes
      requires TotalEntries(states[0]) <= runtime.policy.maxEntries
      modifies runtime`store, runtime`bytes, runtime`entries
      ensures runtime.Valid() && Faded(states[0], runtime.store, runtime.time)
    {
      hide TotalBytes, TotalEntries, Placed, Faded, FadedExcept, WellPlaced, BucketKey;
      for i := |priors| downto 0
        invariant runtime.Accounted() && Faded(states[i], runtime.store, runtime.time)
      {
        var (e, prior) := priors[i];
        assert Undoable(runtime.policy, states[i], states[i + 1], e, prior, times[i]);
        ghost var late := runtime.store;
        runtime.Rollback(e, prior);
        UndoneIsFaded(states[i], states[i + 1], late, runtime.store, BucketKey(e), e.key, prior, times[i], runtime.time);
      }
      FadedIsWithin(states[0], runtime.store, runtime.time);
      PartIsNoLarger(runtime.policy, runtime.store, states[0]);
    }

    /** All entries and one snapshot, or nothing, also across a crash. */
    method WriteBatch(entries: seq<Entry>)
      returns (r: CommitResult, ghost states: seq<Store>, ghost times: seq<nat>, ghost seens: seq<Option<Entry>>)
      requires Valid()
      modifies this`disk, this`diskStore, this`alive, runtime
      ensures runtime.time >= old(runtime.time) && !r.AlreadyCommitted?
      ensures if r.Interrupted? then !alive && DiskValid() else Valid()
      ensures r.Committed? || (r.Interrupted? && r.wrote) ==>
        && Applied(runtime.policy, states, times, seens, entries) && Spans(times, old(runtime.time), runtime.time)
        && FromTo(states, old(runtime.store), if r.Committed? then runtime.store else diskStore, runtime.time)
        && disk.artifacts == old(artifacts.store) && disk.committed == old(committed)
      ensures r.Rejected? || r.NotPersisted? ==> Faded(old(runtime.store), runtime.store, runtime.time)
      ensures r.Rejected? || r.NotPersisted? || (r.Interrupted? && !r.wrote) ==> disk == old(disk) && diskStore == old(diskStore)
    {
      hide TotalBytes, TotalEntries, Placed, Faded, FadedExcept, Undoable, WellPlaced, ListingOf, AppliedAt, Trail, Applied, ValidHistories;
      FadedReflexive(runtime.store, runtime.time);
      states, times, seens := [runtime.store], [], [];
      if entries == [] {
        NothingApplied(runtime.policy, runtime.store);
        return Committed, states, times, seens;
      }
      var ok, reason, priors;
      ok, reason, priors, states, times, seens := ApplyEntries(entries, false);
      if !ok {
        RollbackEntries(priors, states, times);
        FadedTransitive(diskStore, old(runtime.store), runtime.store, old(runtime.time), runtime.time);
        return Rejected(reason), states, times, seens;
      }
      ghost var applied, full := runtime.time, runtime.store;
      var outcome := Persist();
      FadedTransitive(states[|priors|], full, runtime.store, applied, runtime.time);
      match outcome
      case Saved => r := Committed;
      case Crashed(wrote) => r := Interrupted(wrote);
      case Refused =>
        TrailLater(runtime.policy, states, times, priors, applied, runtime.time);
        RollbackEntries(priors, states, times);
        FadedTransitive(diskStore, old(runtime.store), runtime.store, old(runtime.time), runtime.time);
        r := NotPersisted;
    }

    /** What a committed attempt leaves: its entries, its artifact and its identity. */
    ghost predicate Completed(attempt: string, entries: seq<Entry>, artifact: Option<Artifact>, states: seq<Store>, times: seq<nat>,
                              seens: seq<Option<Entry>>, store: Store, was: Store, histories: Histories, wereHistories: Histories,
                              attempts: set<string>, were: set<string>, from: nat)
      reads runtime
    {
      && Applied(runtime.policy, states, times, seens, entries) && Spans(times, from, runtime.time)
      && FromTo(states, was, store, runtime.time)
      && Extends(wereHistories, histories, artifact, artifacts.maxVersions)
      && attempts == were + if attempt == "" then {} else {attempt}
    }

    /** Commit one attempt: its entries, its artifact and its identity together, or nothing, also
        across a crash. A repeated attempt changes nothing at all. */
    method CommitTaskResult(attempt: string, entries: seq<Entry>, artifact: Option<Artifact>)
      returns (r: CommitResult, ghost states: seq<Store>, ghost times: seq<nat>, ghost seens: seq<Option<Entry>>)
      requires Valid()
      modifies this`committed, this`disk, this`diskStore, this`alive, runtime, artifacts
      ensures runtime.time >= old(runtime.time)
      ensures if r.Interrupted? then !alive && DiskValid() else Valid()
      ensures r.AlreadyCommitted? <==> attempt != "" && attempt in old(committed)
      ensures r.AlreadyCommitted? ==> unchanged(this, runtime, artifacts)
      ensures r.Committed? || (r.Interrupted? && r.wrote) ==>
        Completed(attempt, entries, artifact, states, times, seens, if r.Committed? then runtime.store else diskStore, old(runtime.store),
                  disk.artifacts, old(artifacts.store), disk.committed, old(committed), old(runtime.time))
      ensures r.Rejected? || r.NotPersisted? ==>
        && Faded(old(runtime.store), runtime.store, runtime.time)
        && artifacts.store == old(artifacts.store) && committed == old(committed)
      ensures r.Rejected? || r.NotPersisted? || (r.Interrupted? && !r.wrote) ==> disk == old(disk) && diskStore == old(diskStore)
    {
      hide TotalBytes, TotalEntries, Placed, Faded, FadedExcept, Undoable, WellPlaced, ListingOf, AppliedAt, Trail, Applied;
      hide Agrees, Appended, ValidHistories, Extends;
      states, times, seens := [], [], [];
      if attempt != "" && attempt in committed { return AlreadyCommitted, states, times, seens; }
      FadedReflexive(runtime.store, runtime.time);
      var ok, reason, priors;
      ok, reason, priors, states, times, seens := ApplyEntries(entries, true);
      if !ok {
        RollbackEntries(priors, states, times);
        FadedTransitive(diskStore, old(runtime.store), runtime.store, old(runtime.time), runtime.time);
        return Rejected(reason), states, times, seens;
      }
      ghost var applied, full := runtime.time, runtime.store;
      var outcome;
      outcome := SaveResult(attempt, artifact);
      FadedTransitive(states[|priors|], full, runtime.store, applied, runtime.time);
      match outcome
      case Saved => r := Committed;
      case Crashed(wrote) => r := Interrupted(wrote);
      case Refused =>
        TrailLater(runtime.policy, states, times, priors, applied, runtime.time);
        RollbackEntries(priors, states, times);
        FadedTransitive(diskStore, old(runtime.store), runtime.store, old(runtime.time), runtime.time);
        r := NotPersisted;
    }

    /** The artifact, the identity and the write; the first two are taken back if it is refused. */
    method SaveResult(attempt: string, artifact: Option<Artifact>) returns (outcome: Outcome)
      requires Sound() && attempt !in committed
      modifies this`committed, this`disk, this`diskStore, this`alive, runtime, artifacts
      ensures runtime.Valid() && runtime.time >= old(runtime.time) && Faded(old(runtime.store), runtime.store, runtime.time)
      ensures alive == !outcome.Crashed?
      ensures outcome.Saved? ==> Valid()
      ensures outcome == Saved || outcome == Crashed(true) ==>
        && DiskValid() && diskStore == runtime.store
        && Extends(old(artifacts.store), disk.artifacts, artifact, artifacts.maxVersions)
        && disk.committed == old(committed) + if attempt == "" then {} else {attempt}
      ensures outcome == Refused || outcome == Crashed(false) ==> disk == old(disk) && diskStore == old(diskStore)
      ensures outcome == Refused ==> Sound() && artifacts.store == old(artifacts.store) && committed == old(committed)
    {
      hide TotalBytes, TotalEntries, Placed, Faded, ListingOf, Agrees, Appended, ValidHistories;
      var before := [];
      if artifact.Some? { before := SaveArtifact(artifact.value); }
      if attempt != "" { committed := committed + {attempt}; }
      outcome := Persist();
      if outcome == Refused {
        committed := committed - {attempt};
        if artifact.Some? { PutBack(artifact.value.id, before, old(artifacts.store)); }
      }
    }

    /** Append a version, remembering the history it extends. */
    method SaveArtifact(a: Artifact) returns (before: seq<Artifact>)
      requires artifacts.Valid()
      modifies artifacts
      ensures artifacts.Valid() && Extends(old(artifacts.store), artifacts.store, Some(a), artifacts.maxVersions)
      ensures before == if a.id in old(artifacts.store) then old(artifacts.store)[a.id] else []
    {
      hide Agrees, ValidHistories, Appended;
      before := if a.id in artifacts.store then artifacts.store[a.id] else [];
      var stamp: nat :| true;
      var saved := artifacts.Save(a, stamp);
    }

    /** Undo a save. */
    method PutBack(id: string, before: seq<Artifact>, ghost was: Histories)
      requires artifacts.Valid() && ValidHistories(was, artifacts.maxVersions)
      requires before == if id in was then was[id] else []
      requires artifacts.store - {id} == was - {id}
      modifies artifacts
      ensures artifacts.Valid() && artifacts.store == was
    {
      hide Agrees;
      if id in was { assert ValidHistory(id, was[id], artifacts.maxVersions); }
      ghost var late := artifacts.store;
      artifacts.RestoreSeries(id, before);
      assert forall x | x != id :: (x in late <==> x in late - {id}) && (x in was <==> x in was - {id});
      assert forall x | x in was && x != id :: was[x] == (was - {id})[x] == (late - {id})[x];
    }

    /** One artifact on its own: appended and durable, or nothing. */
    method StoreArtifact(a: Artifact) returns (outcome: Outcome)
      requires Valid()
      modifies this`committed, this`disk, this`diskStore, this`alive, runtime, artifacts
      ensures runtime.time >= old(runtime.time) && Faded(old(runtime.store), runtime.store, runtime.time)
      ensures if outcome.Crashed? then !alive && DiskValid() else Valid()
      ensures outcome == Saved || outcome == Crashed(true) ==>
        && Extends(old(artifacts.store), disk.artifacts, Some(a), artifacts.maxVersions)
        && diskStore == runtime.store && disk.committed == old(committed)
      ensures outcome == Refused || outcome == Crashed(false) ==> disk == old(disk) && diskStore == old(diskStore)
      ensures outcome == Refused ==> artifacts.store == old(artifacts.store)
    {
      hide TotalBytes, TotalEntries, Placed, Faded, ListingOf, Agrees, Appended, ValidHistories, Extends;
      outcome := SaveResult("", Some(a));
      if outcome == Refused { FadedTransitive(diskStore, old(runtime.store), runtime.store, old(runtime.time), runtime.time); }
    }

    /** Forget an execution: its entries and its committed attempts, durably, or nothing, also across
        a crash. Scopes of other executions and attempts of other executions stay. */
    method ReleaseExecution(execution: string) returns (outcome: Outcome)
      requires Valid()
      modifies this`committed, this`disk, this`diskStore, this`alive, runtime
      ensures runtime.time >= old(runtime.time)
      ensures if outcome.Crashed? then !alive && DiskValid() else Valid()
      ensures execution == "" ==> outcome.Saved? && unchanged(this, runtime)
      ensures execution != "" && (outcome == Saved || outcome == Crashed(true)) ==>
        && Faded(old(runtime.store) - {ComputeKey("execution", execution, "")}, if alive then runtime.store else diskStore, runtime.time)
        && disk.committed == old(committed) - AttemptsOf(execution, old(committed)) && disk.artifacts == old(artifacts.store)
      ensures outcome == Refused ==> Faded(old(runtime.store), runtime.store, runtime.time) && committed == old(committed)
      ensures outcome == Refused || outcome == Crashed(false) ==> disk == old(disk) && diskStore == old(diskStore)
    {
      hide TotalBytes, TotalEntries, Placed, Faded, ListingOf, Agrees, ValidHistories, ComputeKey;
      if execution == "" { return Saved; }
      var before := runtime.Snapshot();
      ghost var source, taken := runtime.store, runtime.time;
      FadedTransitive(diskStore, old(runtime.store), source, old(runtime.time), taken);
      var b := ComputeKey("execution", execution, "");
      var removed := runtime.DeleteScope("execution", execution);
      DropFades(old(runtime.store), source, b, taken);
      var gone := TakeAttempts(execution);
      if removed == 0 && gone == {} {
        EmptyDropFades(diskStore, source, b, taken);
        return Saved;
      }
      ghost var cut := runtime.store;
      outcome := Persist();
      FadedTransitive(old(runtime.store) - {b}, cut, runtime.store, taken, runtime.time);
      if outcome == Refused {
        var restored := runtime.Restore(before, source);
        committed := committed + gone;
        FadedTransitive(old(runtime.store), source, runtime.store, taken, runtime.time);
        FadedTransitive(diskStore, old(runtime.store), runtime.store, old(runtime.time), runtime.time);
      }
    }

    /** The loop that removes the committed attempts of an execution. */
    method TakeAttempts(execution: string) returns (gone: set<string>)
      modifies this`committed
      ensures gone == AttemptsOf(execution, old(committed)) && committed == old(committed) - gone
    {
      gone := {};
      var left := committed;
      while left != {}
        invariant left <= old(committed)
        invariant gone == AttemptsOf(execution, old(committed) - left) && committed == old(committed) - gone
        decreases left
      {
        var a :| a in left;
        left := left - {a};
        if execution + "/" <= a {
          committed := committed - {a};
          gone := gone + {a};
        }
      }
    }

    /** A restart, after a shutdown or a crash: everything is rebuilt from disk, whatever memory was.
        It fails exactly when a series with an empty name was stored. After a shutdown no reader,
        and no committed attempt, can tell. */
    method Reopen() returns (ok: bool)
      requires DiskValid()
      modifies this`committed, this`alive, runtime, artifacts
      ensures runtime.time >= old(runtime.time)
      ensures (ok <==> "" !in disk.artifacts) && alive == ok
      ensures ok ==> Valid() && NoneExpired(runtime.store, old(runtime.time))
      ensures ok && old(Valid()) ==>
        && artifacts.store == old(artifacts.store) && committed == old(committed)
        && Faded(old(runtime.store), runtime.store, runtime.time)
    {
      hide TotalBytes, TotalEntries, Placed, Faded, ListingOf, Agrees, ValidHistories, Find;
      alive := false;
      ok := runtime.Restore(disk.runtime, diskStore);
      if ok {
        ok := artifacts.Restore(disk.artifacts);
        committed := disk.committed - {""};
        alive := ok;
        if old(Valid()) {
          BothFade(diskStore, old(runtime.store), runtime.store, old(runtime.time), runtime.time);
        }
      }
    }

    /** A commit and, if the process dies in it, the restart: afterwards everything is as before the
        commit or as after it. */
    method CommitThroughCrash(attempt: string, entries: seq<Entry>, artifact: Option<Artifact>)
      returns (done: bool, ghost states: seq<Store>, ghost times: seq<nat>, ghost seens: seq<Option<Entry>>)
      requires Valid() && attempt !in committed
      modifies this`committed, this`disk, this`diskStore, this`alive, runtime, artifacts
      ensures alive ==> Valid()
      ensures !alive ==> "" in disk.artifacts
      ensures alive && done ==>
        Completed(attempt, entries, artifact, states, times, seens, runtime.store, old(runtime.store),
                  artifacts.store, old(artifacts.store), committed, old(committed), old(runtime.time))
      ensures alive && !done ==>
        && Faded(old(runtime.store), runtime.store, runtime.time)
        && artifacts.store == old(artifacts.store) && committed == old(committed)
    {
      hide TotalBytes, TotalEntries, Placed, Faded, ListingOf, Agrees, ValidHistories, Applied, Extends, Find;
      var r;
      r, states, times, seens := CommitTaskResult(attempt, entries, artifact);
      done := r.Committed? || (r.Interrupted? && r.wrote);
      if r.Interrupted? {
        ghost var lost := runtime.time;
        var ok := Reopen();
        if ok {
          if r.wrote {
            FadedTransitive(states[|states| - 1], diskStore, runtime.store, lost, runtime.time);
            LaterSpans(times, old(runtime.time), lost, runtime.time);
          } else {
            EarlierNone(runtime.store, old(runtime.time), lost);
            BothFade(diskStore, old(runtime.store), runtime.store, old(runtime.time), runtime.time);
          }
        }
      }
    }

    /** The loop that applies a batch until a write is rejected. A rejected write may still be
        recorded for undoing, as the task-result commit does; undoing it changes nothing. */
    method ApplyEntries(entries: seq<Entry>, recordRejected: bool)
      returns (ok: bool, reason: SetResult, priors: seq<(Entry, Option<Entry>)>,
               ghost states: seq<Store>, ghost times: seq<nat>, ghost seens: seq<Option<Entry>>)
      requires runtime.Valid()
      modifies runtime
      ensures runtime.Valid() && runtime.time >= old(runtime.time)
      ensures Trail(runtime.policy, states, times, priors, runtime.time)
      ensures |states| == |priors| + 1 && states[0] == old(runtime.store)
      ensures Faded(states[|priors|], runtime.store, runtime.time)
      ensures ok ==> Applied(runtime.policy, states, times, seens, entries) && |priors| == |entries|
      ensures Spans(times, old(runtime.time), runtime.time)
    {
      hide TotalBytes, TotalEntries, Placed, FadedExcept, Undoable, Faded, AppliedAt;
      ok, reason, priors, states, times, seens := true, InvalidAddress, [], [runtime.store], [], [];
      FadedReflexive(runtime.store, runtime.time);
      assert entries[..0] == [];
      for i := 0 to |entries|
        invariant runtime.Valid() && runtime.time >= old(runtime.time) && |priors| == i
        invariant Trail(runtime.policy, states, times, priors, runtime.time)
        invariant states[0] == old(runtime.store) && states[|priors|] == runtime.store
        invariant Applied(runtime.policy, states, times, seens, entries[..i])
        invariant Spans(times, old(runtime.time), runtime.time)
      {
        ghost var before := runtime.time;
        var prior;
        ghost var seen, t;
        reason, prior, seen, t := WriteEntry(entries[i]);
        if !reason.Stored? {
          if recordRejected {
            TrailGrows(runtime.policy, states, times, priors, before, runtime.store, entries[i], prior, runtime.time);
            priors, states, times := priors + [(entries[i], prior)], states + [runtime.store], times + [runtime.time];
            FadedReflexive(runtime.store, runtime.time);
          } else {
            TrailLater(runtime.policy, states, times, priors, before, runtime.time);
          }
          return false, reason, priors, states, times, seens;
        }
        TrailGrows(runtime.policy, states, times, priors, before, runtime.store, entries[i], prior, runtime.time);
        AppliedGrows(runtime.policy, states, times, seens, entries, i, runtime.store, runtime.time, seen);
        priors, states, times := priors + [(entries[i], prior)], states + [runtime.store], times + [runtime.time];
        seens := seens + [seen];
      }
      FadedReflexive(runtime.store, runtime.time);
      assert entries[..|entries|] == entries;
    }
  }

  lemma AppliedGrows(policy: Policy, states: seq<Store>, times: seq<nat>, seens: seq<Option<Entry>>, entries: seq<Entry>,
                     i: nat, after: Store, t: nat, seen: Option<Entry>)
    requires i < |entries| && Applied(policy, states, times, seens, entries[..i])
    requires AppliedAt(policy, states[|states| - 1], after, t, seen, entries[i])
    ensures Applied(policy, states + [after], times + [t], seens + [seen], entries[..i + 1])
  {
    hide AppliedAt;
  }

  lemma TrailLater(policy: Policy, states: seq<Store>, times: seq<nat>, priors: seq<(Entry, Option<Entry>)>, t: nat, now: nat)
    requires t <= now && Trail(policy, states, times, priors, t)
    ensures Trail(policy, states, times, priors, now)
  {
    hide Undoable;
  }
}
