/** The model router as it runs (runtime/routing/router.go): a catalogue, the tasks in flight, and
    the capacities that grow by one and are halved, updated in place. */
module Routers {
  import opened Collections
  import opened RouterModel

  datatype Availability = Availability(potential: nat, eligible: nat, untried: nat, untriedProviders: nat)

  datatype Failure = AccessRefused | QuotaSpent(resetAt: nat) | RateLimit | OtherFailure

  ghost function Elements(s: seq<Model>): set<Model> {
    set m | m in s
  }

  /** `s` lists the set, each element once. */
  ghost predicate Lists(s: seq<Model>, all: set<Model>) {
    Distinct(s) && Elements(s) == all
  }

  ghost predicate DistinctKeys(catalogue: seq<Model>) {
    forall i, j | 0 <= i < j < |catalogue| :: Key(catalogue[i]) != Key(catalogue[j])
  }

  /** The slots by key: the part of the catalogue that never changes. */
  ghost predicate Charted(catalogue: seq<Model>, slots: map<string, string>) {
    && (forall m | m in catalogue :: Key(m) in slots && slots[Key(m)] == Slot(m))
    && (forall key | key in slots :: exists m :: m in catalogue && Key(m) == key)
  }

  lemma ChartedRoute(catalogue: seq<Model>, slots: map<string, string>, m: Model)
    requires Charted(catalogue, slots) && m in catalogue
    ensures Key(m) in slots && slots[Key(m)] == Slot(m)
  {
  }

  /** The same routes, up to availability. */
  ghost predicate SameRoutes(a: seq<Model>, b: seq<Model>) {
    |a| == |b| && forall i | 0 <= i < |a| :: b[i] == a[i].(enabled := b[i].enabled, cooldownUntil := b[i].cooldownUntil)
  }

  lemma SameRoutesAgain(a: seq<Model>, b: seq<Model>, c: seq<Model>)
    requires SameRoutes(a, b) && SameRoutes(b, c)
    ensures SameRoutes(a, c)
  {
  }

  /** The keys of the routes to one model through one provider, typically one for each credential. */
  ghost function Family(routes: seq<Model>, m: Model): set<string> {
    set n | n in routes && n.id == m.id && n.provider == m.provider :: Key(n)
  }

  lemma SameFamily(a: seq<Model>, b: seq<Model>, m: Model)
    requires SameRoutes(a, b)
    ensures Family(a, m) == Family(b, m)
    ensures m in b ==> Key(m) in Family(a, m)
  {
    forall i | 0 <= i < |a| ensures Key(b[i]) == Key(a[i]) && b[i].id == a[i].id && b[i].provider == a[i].provider {}
    hide Key;
    forall key | key in Family(a, m) ensures key in Family(b, m) {
      var n :| n in a && n.id == m.id && n.provider == m.provider && Key(n) == key;
      var i :| 0 <= i < |a| && a[i] == n;
      assert b[i] in b;
    }
    forall key | key in Family(b, m) ensures key in Family(a, m) {
      var n :| n in b && n.id == m.id && n.provider == m.provider && Key(n) == key;
      var i :| 0 <= i < |b| && b[i] == n;
      assert a[i] in a;
    }
  }

  lemma SameRoutesCharted(a: seq<Model>, b: seq<Model>, slots: map<string, string>)
    requires SameRoutes(a, b) && DistinctKeys(a) && Charted(a, slots) && CostsKnown(Elements(a))
    ensures DistinctKeys(b) && Charted(b, slots) && CostsKnown(Elements(b))
  {
    forall i | 0 <= i < |a| ensures Key(b[i]) == Key(a[i]) && Slot(b[i]) == Slot(a[i]) && b[i].cost == a[i].cost {}
    hide Key, Slot, SameRoutes, DistinctKeys;
    CostsCarry(a, b);
    hide CostsKnown;
    forall key | key in slots ensures exists m :: m in b && Key(m) == key {
      var m :| m in a && Key(m) == key;
      var i :| 0 <= i < |a| && a[i] == m;
      assert b[i] in b;
    }
    forall m | m in b ensures Key(m) in slots && slots[Key(m)] == Slot(m) {
      var i :| 0 <= i < |b| && b[i] == m;
      assert a[i] in a;
    }
  }

  lemma CostsCarry(a: seq<Model>, b: seq<Model>)
    requires SameRoutes(a, b) && DistinctKeys(a) && CostsKnown(Elements(a))
    ensures CostsKnown(Elements(b)) && DistinctKeys(b)
  {
    forall i | 0 <= i < |a| ensures Key(b[i]) == Key(a[i]) && b[i].cost == a[i].cost && a[i] in Elements(a) {}
    hide Key, SameRoutes;
    forall m | m in Elements(b) ensures m.cost >= 0.0 || m.cost == -1.0 {
      var i :| 0 <= i < |b| && b[i] == m;
    }
  }

  ghost predicate Bounded(capacity: map<string, int>) {
    forall slot | slot in capacity :: 1 <= capacity[slot] <= 200
  }

  ghost function Holders(tracked: map<string, string>, slots: map<string, string>, slot: string): set<string> {
    set t | t in tracked && tracked[t] in slots && slots[tracked[t]] == slot
  }

  /** Each slot's counter is the number of tasks tracked on it. */
  ghost predicate Tallies(tracked: map<string, string>, slots: map<string, string>, inFlight: map<string, int>) {
    && (forall t | t in tracked :: tracked[t] in slots)
    && (forall slot :: At(inFlight, slot) == |Holders(tracked, slots, slot)|)
  }

  lemma TrackTallies(tracked: map<string, string>, slots: map<string, string>, inFlight: map<string, int>, task: string, key: string)
    requires Tallies(tracked, slots, inFlight) && task !in tracked && key in slots
    ensures Tallies(tracked[task := key], slots, inFlight[slots[key] := At(inFlight, slots[key]) + 1])
  {
    var after, busy := tracked[task := key], slots[key];
    forall slot ensures At(inFlight[busy := At(inFlight, busy) + 1], slot) == |Holders(after, slots, slot)| {
      MoreHolders(tracked, slots, task, key, slot);
      assert At(inFlight, slot) == |Holders(tracked, slots, slot)|;
    }
    hide Holders;
  }

  lemma MoreHolders(tracked: map<string, string>, slots: map<string, string>, task: string, key: string, slot: string)
    requires task !in tracked && key in slots
    ensures |Holders(tracked[task := key], slots, slot)| == |Holders(tracked, slots, slot)| + if slot == slots[key] then 1 else 0
  {
    assert Holders(tracked[task := key], slots, slot) == Holders(tracked, slots, slot) + if slot == slots[key] then {task} else {};
  }

  lemma ReleaseTallies(tracked: map<string, string>, slots: map<string, string>, inFlight: map<string, int>, task: string)
    requires Tallies(tracked, slots, inFlight) && task in tracked
    ensures var slot := slots[tracked[task]];
      At(inFlight, slot) > 0 && Tallies(tracked - {task}, slots, inFlight[slot := At(inFlight, slot) - 1])
  {
    var key := tracked[task];
    var after := tracked - {task};
    assert task in Holders(tracked, slots, slots[key]);
    forall slot ensures At(inFlight[slots[key] := At(inFlight, slots[key]) - 1], slot) == |Holders(after, slots, slot)| {
      assert Holders(after, slots, slot) == Holders(tracked, slots, slot) - if slot == slots[key] then {task} else {};
    }
  }

  /** Tracking keeps the tally exactly when the task was not tracked: tracking it again would leave
      its old slot counted for ever. */
  lemma TallyNeedsRelease(tracked: map<string, string>, slots: map<string, string>, inFlight: map<string, int>, task: string, key: string)
    requires Tallies(tracked, slots, inFlight) && key in slots
    ensures Tallies(tracked[task := key], slots, inFlight[slots[key] := At(inFlight, slots[key]) + 1]) <==> task !in tracked
  {
    if task !in tracked {
      TrackTallies(tracked, slots, inFlight, task, key);
    } else {
      var after, busy, was := tracked[task := key], slots[key], slots[tracked[task]];
      assert task in Holders(tracked, slots, was);
      if was == busy {
        assert Holders(after, slots, busy) == Holders(tracked, slots, busy);
      } else {
        assert Holders(after, slots, was) == Holders(tracked, slots, was) - {task};
        assert At(inFlight[busy := At(inFlight, busy) + 1], was) != |Holders(after, slots, was)|;
      }
    }
  }

  // ---------- capacities ----------

  function Lower(s: string): string {
    seq(|s|, i requires 0 <= i < |s| => if 'A' <= s[i] <= 'Z' then (s[i] as int + 32) as char else s[i])
  }

  predicate Contains(s: string, part: string) {
    |part| <= |s| && (s[..|part|] == part || (s != "" && Contains(s[1..], part)))
  }

  function StartingCapacity(slot: string): int {
    if Contains(Lower(slot), "ollama") || Contains(Lower(slot), "local") then 2 else 50
  }

  /** Additive increase: only when at least half of the capacity was in use. */
  function Raised(capacity: map<string, int>, slot: string, occupancy: int): map<string, int> {
    var c := if At(capacity, slot) == 0 then StartingCapacity(slot) else At(capacity, slot);
    if occupancy as real >= c as real * 0.5 && c < 200 then capacity[slot := c + 1] else capacity
  }

  /** Odds move a fifth of the way towards the outcome, from 0.9 for a route not seen before. */
  function Learned(matrix: map<(string, string), real>, k: (string, string), success: bool): map<(string, string), real> {
    var odds := if k in matrix then matrix[k] else 0.90;
    matrix[k := odds + (if success then 1.0 - odds else -odds) / 5.0]
  }

  /** Multiplicative decrease, at most once per window. */
  function Halved(capacity: map<string, int>, until: map<string, nat>, slot: string, now: nat): map<string, int> {
    if Until(until, slot, now) then capacity
    else capacity[slot := (if At(capacity, slot) < 2 then 2 else At(capacity, slot)) / 2]
  }

  predicate Named(m: Model, name: string) {
    m.id == name || Key(m) == name
  }

  const WINDOW: nat := 60

  function Later(a: nat, b: nat): nat {
    if a > b then a else b
  }

  /** A suspension only gets longer, and one that is over already is not recorded. */
  function Suspended(credentials: map<string, nat>, credential: string, until: nat, now: nat): map<string, nat> {
    if credential == "" || until <= now || Until(credentials, credential, until - 1) then credentials
    else credentials[credential := until]
  }

  /** The first route with this key or this model. */
  function FirstNamed(catalogue: seq<Model>, name: string): Choice {
    if catalogue == [] then NoRoute
    else if Key(catalogue[0]) == name || catalogue[0].id == name then Route(catalogue[0])
    else FirstNamed(catalogue[1..], name)
  }

  /** A missing time reads as the zero time. */
  function TimeOf(times: map<string, nat>, key: string): nat {
    if key in times then times[key] else 0
  }

  ghost predicate KeyNamed(catalogue: seq<Model>, name: string, key: string) {
    exists m :: m in catalogue && Named(m, name) && Key(m) == key
  }

  /** How long a route is out once the routes named were marked. */
  ghost function OutUntil(times: map<string, nat>, catalogue: seq<Model>, name: string, key: string, until: nat): nat {
    if KeyNamed(catalogue, name, key) then Later(TimeOf(times, key), until) else TimeOf(times, key)
  }

  lemma NoneOut(times: map<string, nat>, catalogue: seq<Model>, name: string, key: string, until: nat)
    ensures OutUntil(times, catalogue[..0], name, key, until) == TimeOf(times, key)
  {
  }

  lemma OutNext(times: map<string, nat>, catalogue: seq<Model>, m: Model, name: string, key: string, until: nat)
    ensures OutUntil(times, catalogue + [m], name, key, until)
         == if Named(m, name) && Key(m) == key then Later(OutUntil(times, catalogue, name, key, until), until)
            else OutUntil(times, catalogue, name, key, until)
  {
    hide Key, Named, TimeOf;
    assert KeyNamed(catalogue + [m], name, key) <==> KeyNamed(catalogue, name, key) || (Named(m, name) && Key(m) == key) by {
      if Named(m, name) && Key(m) == key { assert m in catalogue + [m]; }
      if KeyNamed(catalogue, name, key) {
        var n :| n in catalogue && Named(n, name) && Key(n) == key;
        assert n in catalogue + [m];
      }
    }
  }

  /** A slot was halved at a clock reading. */
  datatype Halving = Halving(slot: string, time: nat)

  /** Two halvings of one slot are a whole window apart, and no slot is halved before its window
      has passed. */
  ghost predicate Spaced(halvings: seq<Halving>, until: map<string, nat>, now: nat) {
    && (forall i | 0 <= i < |halvings| ::
          && halvings[i].time <= now && halvings[i].slot in until
          && halvings[i].time + WINDOW <= until[halvings[i].slot])
    && (forall i, j | 0 <= i < j < |halvings| && halvings[i].slot == halvings[j].slot ::
          halvings[i].time + WINDOW <= halvings[j].time)
  }

  /** A halving outside the window of its slot keeps all of them apart. */
  lemma HalvingsStayApart(halvings: seq<Halving>, until: map<string, nat>, now: nat, slot: string, later: nat)
    requires Spaced(halvings, until, now) && now <= later && !Until(until, slot, later)
    ensures Spaced(halvings + [Halving(slot, later)], until[slot := later + WINDOW], later)
  {
    var after := halvings + [Halving(slot, later)];
    forall i | 0 <= i < |halvings| && halvings[i].slot == slot ensures halvings[i].time + WINDOW <= later {}
    forall i | 0 <= i < |after|
      ensures after[i].time <= later && after[i].slot in until[slot := later + WINDOW]
      ensures after[i].time + WINDOW <= until[slot := later + WINDOW][after[i].slot] {}
  }

  // ---------- sorting ----------

  function Insert(m: Model, s: seq<Model>): seq<Model> {
    if s == [] || !Less(s[0], m) then [m] + s else [s[0]] + Insert(m, s[1..])
  }

  function Sort(s: seq<Model>): seq<Model> {
    if s == [] then [] else Insert(s[0], Sort(s[1..]))
  }

  ghost predicate Ascending(s: seq<Model>) {
    forall i, j | 0 <= i < j < |s| :: Less(s[i], s[j])
  }

  lemma {:induction false} InsertKeeps(m: Model, s: seq<Model>, all: set<Model>)
    requires KeysDistinct(all) && CostsKnown(all) && m in all && Elements(s) <= all && m !in s
    requires Ascending(s)
    ensures Ascending(Insert(m, s)) && multiset(Insert(m, s)) == multiset(s) + multiset{m}
  {
    hide Less, CostsKnown, KeysDistinct;
    if s != [] {
      assert s[0] in Elements(s);
      LessIsTotal(all, s[0], m, m);
      assert s == [s[0]] + s[1..];
      if Less(s[0], m) {
        assert forall x | x in s[1..] :: x in s;
        InsertKeeps(m, s[1..], all);
        var rest := Insert(m, s[1..]);
        FirstIsLess(m, s, rest);
      } else {
        forall k | 0 <= k < |s| ensures Less(m, s[k]) {
          assert s[k] in Elements(s);
          LessIsTotal(all, m, s[0], s[k]);
        }
      }
    }
  }

  lemma FirstIsLess(m: Model, s: seq<Model>, rest: seq<Model>)
    requires s != [] && Ascending(s) && Less(s[0], m) && multiset(rest) == multiset(s[1..]) + multiset{m}
    ensures forall k | 0 <= k < |rest| :: Less(s[0], rest[k])
  {
    hide Less;
    forall k | 0 <= k < |rest| ensures Less(s[0], rest[k]) {
      assert rest[k] in multiset(rest);
      if rest[k] in multiset(s[1..]) {
        var i :| 0 <= i < |s[1..]| && s[1..][i] == rest[k];
        assert s[i + 1] == rest[k];
      }
    }
  }

  lemma {:induction false} SortKeeps(s: seq<Model>, all: set<Model>)
    requires KeysDistinct(all) && CostsKnown(all) && Elements(s) <= all && Distinct(s)
    ensures Ascending(Sort(s)) && multiset(Sort(s)) == multiset(s)
  {
    hide Less, CostsKnown, KeysDistinct;
    if s != [] {
      assert s == [s[0]] + s[1..];
      assert forall x | x in s[1..] :: x in s;
      SortKeeps(s[1..], all);
      var rest := Sort(s[1..]);
      forall x | x in rest ensures x in s[1..] { assert x in multiset(rest); }
      assert s[0] in Elements(s);
      InsertKeeps(s[0], rest, all);
    }
  }

  /** The element at an index of a sorted list has that rank. */
  lemma IndexIsRank(t: seq<Model>, all: set<Model>, i: nat)
    requires KeysDistinct(all) && CostsKnown(all) && Ascending(t) && Elements(t) == all && i < |t|
    ensures |Before(all, t[i])| == i && |all| == |t|
  {
    hide Less, CostsKnown, KeysDistinct;
    forall a, b | 0 <= a < b < |t| ensures t[a] != t[b] {
      assert t[a] in Elements(t);
      LessIsTotal(all, t[a], t[a], t[a]);
    }
    DistinctCovers(t, all);
    forall x ensures x in t[..i] <==> x in Before(all, t[i]) {
      if x in Before(all, t[i]) {
        var k :| 0 <= k < |t| && t[k] == x;
        assert t[i] in Elements(t);
        LessIsTotal(all, t[i], t[k], t[k]);
        assert t[..i][k] == x;
      }
    }
    DistinctCovers(t[..i], Before(all, t[i]));
  }

  lemma DefaultedNow(before: map<string, int>, capacity: map<string, int>, done: set<Model>, v: View, q: Query, m: Model)
    requires Defaulted(before, capacity, done, v, q) && Asks({m}, v, q, Slot(m), m)
    ensures Defaulted(before, if At(capacity, Slot(m)) == 0 then capacity[Slot(m) := DefaultCapacity(m)] else capacity,
                      done + {m}, v, q)
  {
    hide Available, Slot;
    var after := if At(capacity, Slot(m)) == 0 then capacity[Slot(m) := DefaultCapacity(m)] else capacity;
    forall slot ensures
      if At(before, slot) != 0 then At(after, slot) == At(before, slot)
      else
        || (exists n :: Asks(done + {m}, v, q, slot, n) && At(after, slot) == DefaultCapacity(n))
        || (At(after, slot) == 0 && forall n :: !Asks(done + {m}, v, q, slot, n))
    {
      if At(before, slot) == 0 {
        if exists n :: Asks(done, v, q, slot, n) && At(capacity, slot) == DefaultCapacity(n) {
          var n :| Asks(done, v, q, slot, n) && At(capacity, slot) == DefaultCapacity(n);
          assert Asks(done + {m}, v, q, slot, n);
        } else if slot == Slot(m) {
          assert Asks(done + {m}, v, q, slot, m);
        } else {
          assert At(capacity, slot) == 0 && forall n :: !Asks(done, v, q, slot, n);
          forall n ensures !Asks(done + {m}, v, q, slot, n) { assert !Asks(done, v, q, slot, n); }
        }
      }
    }
  }

  lemma DefaultedSkips(before: map<string, int>, capacity: map<string, int>, done: set<Model>, v: View, q: Query, m: Model)
    requires Defaulted(before, capacity, done, v, q) && !Asks({m}, v, q, Slot(m), m)
    ensures Defaulted(before, capacity, done + {m}, v, q)
  {
    hide Available, Slot;
    forall slot, n ensures Asks(done, v, q, slot, n) <==> Asks(done + {m}, v, q, slot, n) {}
    forall slot ensures
      if At(before, slot) != 0 then At(capacity, slot) == At(before, slot)
      else
        || (exists n :: Asks(done + {m}, v, q, slot, n) && At(capacity, slot) == DefaultCapacity(n))
        || (At(capacity, slot) == 0 && forall n :: !Asks(done + {m}, v, q, slot, n))
    {
      if At(before, slot) == 0 && exists n :: Asks(done, v, q, slot, n) && At(capacity, slot) == DefaultCapacity(n) {
        var n :| Asks(done, v, q, slot, n) && At(capacity, slot) == DefaultCapacity(n);
        assert Asks(done + {m}, v, q, slot, n);
      } else if At(before, slot) == 0 {
        forall n ensures !Asks(done + {m}, v, q, slot, n) { assert !Asks(done, v, q, slot, n); }
      }
    }
  }

  class ModelRouter {
    var catalogue: seq<Model>
    var tracked: map<string, string>
    var capacity: map<string, int>
    var inFlight: map<string, int>
    var penaltyUntil: map<string, nat>
    var matrix: map<(string, string), real>
    var health: map<string, KeyHealth>
    var unavailable: map<string, nat>
    var credentials: map<string, nat>
    var limits: map<string, nat>
    var dead: map<string, Dead>
    var succeeded: set<string>
    var learning: bool
    var textToCoding: bool
    var time: nat
    const nonChat: set<string>
    ghost const slots: map<string, string>
    /** The catalogue as it was at first. */
    ghost const routes: seq<Model>
    /** The halvings so far. */
    ghost var halvings: seq<Halving>
    /** The answers of SelectModel so far, each with the task it was for. */
    ghost var selections: seq<(string, Choice)>

    ghost predicate Valid()
      reads this
    {
      && DistinctKeys(catalogue) && Charted(catalogue, slots) && CostsKnown(Elements(catalogue)) && SameRoutes(routes, catalogue)
      && Bounded(capacity) && Spaced(halvings, penaltyUntil, time)
      && forall k | k in matrix :: 0.0 <= matrix[k] <= 1.0
    }

    ghost predicate Tallied()
      reads this
    {
      Tallies(tracked, slots, inFlight)
    }

    function Sight(): View
      reads this
    {
      View(time, nonChat, health, unavailable, credentials, limits, dead, succeeded, matrix, learning, textToCoding)
    }

    constructor (catalogue: seq<Model>, nonChat: set<string>)
      requires DistinctKeys(catalogue) && CostsKnown(Elements(catalogue))
      ensures Valid() && Tallied() && this.catalogue == catalogue && tracked == map[]
      ensures capacity == map[] && inFlight == map[] && Sight() == View(0, nonChat, map[], map[], map[], map[], map[], {}, map[], true, false)
    {
      this.catalogue, this.nonChat := catalogue, nonChat;
      tracked, capacity, inFlight, penaltyUntil, matrix := map[], map[], map[], map[], map[];
      health, unavailable, credentials, limits, dead, succeeded := map[], map[], map[], map[], map[], {};
      learning, textToCoding, time, halvings, selections := true, false, 0, [], [];
      slots, routes := SlotChart(catalogue), catalogue;
      new;
      ChartIsRight(catalogue);
      assert forall slot :: Holders(tracked, slots, slot) == {};
    }

    /** A clock reading. */
    method Now()
      modifies this`time
      ensures time >= old(time)
      ensures old(Spaced(halvings, penaltyUntil, time)) ==> Spaced(halvings, penaltyUntil, time)
    {
      var elapsed: nat :| true;
      time := time + elapsed;
    }

    /** The first loop of selection: routes of the wanted modality that are open and trusted by the
        agent. It fills in missing capacities and priors as it goes. */
    method GatherConfident(q: Query) returns (capable: seq<Model>)
      requires Valid()
      modifies this`capacity, this`matrix
      ensures Valid() && SameOdds(old(matrix), matrix)
      ensures Defaulted(old(capacity), capacity, Elements(catalogue), old(Sight()), q)
      ensures Lists(capable, set m | m in OpenRoutes(Elements(catalogue), old(Sight()), q, capacity, inFlight, Modality(Wanted(q)))
                                     && Confident(old(Sight()), q, m))
    {
      hide Available, Charted, SameRoutes, CostsKnown, Defaulted, Slot, Key, Gathered, SameOdds, Bounded, DistinctKeys;
      ghost var v := Sight();
      capable := [];
      NothingGathered(capacity, inFlight, catalogue, v, q);
      for i := 0 to |catalogue|
        invariant Valid() && SameOdds(v.matrix, matrix)
        invariant Defaulted(old(capacity), capacity, Elements(catalogue[..i]), v, q)
        invariant Gathered(capable, catalogue[..i], v, q, capacity, inFlight)
      {
        var m := catalogue[i];
        assert catalogue[..i + 1] == catalogue[..i] + [m];
        assert Elements(catalogue[..i + 1]) == Elements(catalogue[..i]) + {m};
        NotAgain(catalogue, i);
        OddsDoNotMatter(v, Sight(), m, q.policy);
        if !Available(Sight(), m, q.policy) || m.modality != Wanted(q) {
          DefaultedSkips(old(capacity), capacity, Elements(catalogue[..i]), v, q, m);
          GatheredSkips(capable, catalogue[..i], v, q, capacity, inFlight, m);
          continue;
        }
        DefaultedNow(old(capacity), capacity, Elements(catalogue[..i]), v, q, m);
        BoundedDefault(capacity, m);
        if At(capacity, Slot(m)) == 0 {
          GatheredDefaults(capable, catalogue[..i], v, q, capacity, inFlight, m);
          capacity := capacity[Slot(m) := DefaultCapacity(m)];
        }
        if At(inFlight, Slot(m)) >= At(capacity, Slot(m)) {
          GatheredSkips(capable, catalogue[..i], v, q, capacity, inFlight, m);
          continue;
        }
        SameConfidence(v, Sight(), q, m);
        ghost var odds := matrix;
        var confident := Trusts(q, m);
        OddsCompose(v.matrix, odds, matrix);
        if confident {
          GatheredTakes(capable, catalogue[..i], v, q, capacity, inFlight, m);
          capable := capable + [m];
        } else {
          GatheredSkips(capable, catalogue[..i], v, q, capacity, inFlight, m);
        }
      }
      assert catalogue[..|catalogue|] == catalogue;
      AllGathered(capable, catalogue, v, q, capacity, inFlight);
    }

    /** The loop of every fallback stage. */
    method Gather(q: Query, allowed: Model -> bool) returns (capable: seq<Model>)
      requires DistinctKeys(catalogue)
      ensures Lists(capable, OpenRoutes(Elements(catalogue), Sight(), q, capacity, inFlight, allowed))
    {
      hide Available, Slot;
      capable := [];
      for i := 0 to |catalogue|
        invariant Distinct(capable)
        invariant forall m :: m in capable <==> m in catalogue[..i] && Open(Sight(), q, capacity, inFlight, m) && allowed(m)
      {
        var m := catalogue[i];
        assert catalogue[..i + 1] == catalogue[..i] + [m];
        NotAgain(catalogue, i);
        if Available(Sight(), m, q.policy) && allowed(m) {
          if At(capacity, Slot(m)) > 0 && At(inFlight, Slot(m)) >= At(capacity, Slot(m)) { continue; }
          capable := capable + [m];
        }
      }
      assert catalogue[..|catalogue|] == catalogue;
    }

    /** The cascade of fallbacks. */
    method GatherCandidates(q: Query) returns (capable: seq<Model>)
      requires Valid()
      modifies this`capacity, this`matrix
      ensures Valid() && SameOdds(old(matrix), matrix)
      ensures Defaulted(old(capacity), capacity, Elements(catalogue), old(Sight()), q)
      ensures Lists(capable, Candidates(Elements(catalogue), old(Sight()), q, capacity, inFlight))
    {
      hide Charted, SameRoutes, CostsKnown, Bounded, Defaulted, OpenRoutes, Confident, SameOdds, Distinct, DistinctKeys;
      capable := GatherConfident(q);
      SightByOdds(Elements(catalogue), old(Sight()), Sight(), q, capacity, inFlight);
      ListedOrEmpty(capable);
      if |capable| == 0 { capable := Gather(q, Modality(Wanted(q))); }
      ListedOrEmpty(capable);
      if |capable| == 0 && Wanted(q) == "coding" { capable := Gather(q, Modality("text")); }
      ListedOrEmpty(capable);
      if |capable| == 0 && Wanted(q) == "text" && textToCoding { capable := Gather(q, Modality("coding")); }
      ListedOrEmpty(capable);
      if |capable| == 0 && Wanted(q) == "image" { return; }
      if |capable| == 0 { capable := Gather(q, LastResort(textToCoding, Wanted(q))); }
    }

    /** Narrow the candidates if any of them matches. */
    method Narrow(capable: seq<Model>, matches: Model -> bool, ghost s: set<Model>) returns (narrowed: seq<Model>)
      requires Lists(capable, s)
      ensures Lists(narrowed, Prefer(s, matches))
    {
      narrowed := [];
      for i := 0 to |capable|
        invariant Distinct(narrowed)
        invariant forall m :: m in narrowed <==> m in capable[..i] && matches(m)
      {
        assert capable[..i + 1] == capable[..i] + [capable[i]];
        if matches(capable[i]) { narrowed := narrowed + [capable[i]]; }
      }
      assert capable[..|capable|] == capable;
      ListedOrEmpty(narrowed);
      assert Elements(narrowed) == set m | m in s && matches(m);
      if |narrowed| == 0 { narrowed := capable; }
    }

    method ApplyPreferences(capable: seq<Model>, p: RoutePolicy, ghost s: set<Model>) returns (narrowed: seq<Model>)
      requires Lists(capable, s)
      ensures Lists(narrowed, Narrowed(s, Sight(), p))
    {
      hide Prefer, Trust, Untried, NotAvoided;
      var found := false;
      for i := 0 to |capable|
        invariant !found && forall k | 0 <= k < i :: !IsPreferred(p)(capable[k])
      {
        if Key(capable[i]) == p.preferredKey {
          assert capable[i] in Elements(capable);
          found := true;
          break;
        }
      }
      assert found <==> exists m :: m in s && IsPreferred(p)(m);
      if found {
        narrowed := Narrow(capable, IsPreferred(p), s);
      } else {
        narrowed := Narrow(capable, Untried(p), s);
        narrowed := Narrow(narrowed, Trust(Sight()), Prefer(s, Untried(p)));
        narrowed := Narrow(narrowed, NotAvoided(p), Prefer(Prefer(s, Untried(p)), Trust(Sight())));
      }
    }

    /** Choose a route. */
    method Choose(q: Query) returns (r: Choice)
      requires Valid()
      modifies this`capacity, this`matrix
      ensures Valid() && SameOdds(old(matrix), matrix)
      ensures Selects(Elements(catalogue), old(Sight()), q, old(capacity), capacity, inFlight, r)
      ensures r.Route? ==> r.model in catalogue
    {
      hide SameOdds, Bounded, Defaulted, Narrowed, Candidates, CostsKnown, Charted, SameRoutes, DistinctKeys, OpenRoutes, Ranked;
      ghost var v, all := Sight(), Elements(catalogue);
      var capable := GatherCandidates(q);
      ghost var s := Candidates(all, v, q, capacity, inFlight);
      CandidatesAreRoutes(all, v, q, capacity, inFlight);
      NarrowedKeepsSome(s, v, q.policy);
      ghost var n := Narrowed(s, v, q.policy);
      ListedOrEmpty(capable);
      if |capable| == 0 { return NoRoute; }
      NarrowedByOdds(s, v, Sight(), q.policy);
      var narrowed := ApplyPreferences(capable, q.policy, s);
      RankedAtIndex(narrowed, n, all, catalogue, q.tier);
      var sorted := Sort(narrowed);
      return Route(sorted[Index(q.tier, |sorted|)]);
    }

    /** Choose a route for a task and count the task on it. */
    method SelectModel(task: string, q: Query) returns (r: Choice)
      requires Valid()
      modifies this`time, this`capacity, this`matrix, this`tracked, this`inFlight, this`selections
      ensures Valid() && time >= old(time) && SameOdds(old(matrix), matrix)
      ensures Selects(Elements(catalogue), old(Sight()).(now := time), q, old(capacity), capacity, old(inFlight), r)
      ensures r.NoRoute? ==> tracked == old(tracked) && inFlight == old(inFlight)
      ensures r.Route? ==> r.model in catalogue && tracked == old(tracked)[task := Key(r.model)]
      ensures r.Route? ==> inFlight == old(inFlight)[Slot(r.model) := At(old(inFlight), Slot(r.model)) + 1]
      ensures selections == old(selections) + [(task, r)]
      ensures old(Tallied()) && task !in old(tracked) ==> Tallied()
    {
      hide SameOdds, Bounded, Selects, Slot, Key, Tallies, CostsKnown, DistinctKeys, Spaced, Charted, SameRoutes;
      Now();
      r := Choose(q);
      selections := selections + [(task, r)];
      if r.NoRoute? { return; }
      if Tallies(tracked, slots, inFlight) && task !in tracked {
        ChartedRoute(catalogue, slots, r.model);
        TrackTallies(tracked, slots, inFlight, task, Key(r.model));
      }
      tracked := tracked[task := Key(r.model)];
      inFlight := inFlight[Slot(r.model) := At(inFlight, Slot(r.model)) + 1];
    }

    /** The first route with this key. */
    method Lookup(key: string) returns (r: Choice)
      requires Charted(catalogue, slots)
      ensures r.Route? <==> key in slots
      ensures r.Route? ==> Key(r.model) == key && Slot(r.model) == slots[key] && r.model in catalogue
    {
      hide Slot, Key;
      for i := 0 to |catalogue|
        invariant forall k | 0 <= k < i :: Key(catalogue[k]) != key
      {
        if Key(catalogue[i]) == key { return Route(catalogue[i]); }
      }
      return NoRoute;
    }

    /** Count a task on a route chosen by someone else; the name may be a key or a model. */
    method TrackForcedModel(task: string, name: string)
      requires Valid()
      modifies this`tracked, this`inFlight
      ensures Valid()
      ensures match FirstNamed(catalogue, name)
        case NoRoute => tracked == old(tracked) && inFlight == old(inFlight)
        case Route(m) =>
          && tracked == old(tracked)[task := Key(m)]
          && inFlight == old(inFlight)[Slot(m) := At(old(inFlight), Slot(m)) + 1]
      ensures old(Tallied()) && task !in old(tracked) ==> Tallied()
    {
      hide Slot, Key, Tallies, CostsKnown, DistinctKeys, Bounded, Spaced, Charted, SameRoutes;
      for i := 0 to |catalogue|
        invariant tracked == old(tracked) && inFlight == old(inFlight)
        invariant FirstNamed(catalogue[i..], name) == FirstNamed(catalogue, name)
      {
        var m := catalogue[i];
        assert catalogue[i..][0] == m && catalogue[i..][1..] == catalogue[i + 1..];
        if Key(m) == name || m.id == name {
          if Tallies(tracked, slots, inFlight) && task !in tracked {
            ChartedRoute(catalogue, slots, m);
            TrackTallies(tracked, slots, inFlight, task, Key(m));
          }
          tracked := tracked[task := Key(m)];
          inFlight := inFlight[Slot(m) := At(inFlight, Slot(m)) + 1];
          return;
        }
      }
    }

    /** Stop counting a task. */
    method Release(task: string)
      requires Valid() && Tallied()
      modifies this`tracked, this`inFlight
      ensures Valid() && Tallied() && tracked == old(tracked) - {task}
    {
      hide Slot, Key, Tallies, CostsKnown, DistinctKeys, Bounded, Spaced, SameRoutes;
      if task !in tracked {
        assert tracked - {task} == tracked;
        return;
      }
      assert tracked[task] in slots by { TrackedAreCharted(tracked, slots, inFlight); }
      var r := Lookup(tracked[task]);
      var slot := Slot(r.model);
      ReleaseTallies(tracked, slots, inFlight, task);
      tracked := tracked - {task};
      if At(inFlight, slot) > 0 { inFlight := inFlight[slot := At(inFlight, slot) - 1]; }
    }

    /** The outcome of an attempt: the task is no longer counted, a success in a busy slot adds one
        to its capacity, and the agent's odds for the route move towards the outcome. */
    method UpdateProbability(agent: string, task: string, success: bool)
      requires Valid() && Tallied()
      modifies this`tracked, this`inFlight, this`capacity, this`matrix, this`succeeded, this`health
      ensures Valid() && Tallied() && tracked == old(tracked) - {task}
      ensures capacity == if task in old(tracked) && success
                          then Raised(old(capacity), slots[old(tracked)[task]], At(old(inFlight), slots[old(tracked)[task]]))
                          else old(capacity)
      ensures matrix == if task in old(tracked) && learning then Learned(old(matrix), (agent, old(tracked)[task]), success) else old(matrix)
      ensures succeeded == old(succeeded) + if task in old(tracked) && learning && success then {old(tracked)[task]} else {}
    {
      hide Slot, Key, Tallies, CostsKnown, DistinctKeys, Bounded, Charted, SameRoutes, Raised, Spaced, Learned;
      if task !in tracked {
        assert tracked - {task} == tracked;
        return;
      }
      TrackedAreCharted(tracked, slots, inFlight);
      var key := tracked[task];
      var r := Lookup(key);
      var slot := Slot(r.model);
      var occupancy := At(inFlight, slot);
      ReleaseTallies(tracked, slots, inFlight, task);
      if occupancy > 0 { inFlight := inFlight[slot := occupancy - 1]; }
      if success {
        RaisedIsBounded(capacity, slot, occupancy);
        capacity := Raised(capacity, slot, occupancy);
        if r.model.apiKeyEnv != "" { health := health[r.model.apiKeyEnv := Healthy]; }
      }
      tracked := tracked - {task};
      Learn(agent, key, success);
    }

    /** The moving average, and the memory of routes that have worked. */
    method Learn(agent: string, key: string, success: bool)
      requires forall k | k in matrix :: 0.0 <= matrix[k] <= 1.0
      modifies this`matrix, this`succeeded
      ensures forall k | k in matrix :: 0.0 <= matrix[k] <= 1.0
      ensures matrix == if learning then Learned(old(matrix), (agent, key), success) else old(matrix)
      ensures succeeded == old(succeeded) + if learning && success then {key} else {}
    {
      if !learning { return; }
      var odds := if (agent, key) in matrix then matrix[(agent, key)] else 0.90;
      matrix := matrix[(agent, key) := 0.8 * odds + 0.2 * if success then 1.0 else 0.0];
      if success { succeeded := succeeded + {key}; }
    }

    /** A provider failure reported for a credential. Only a rate limit lowers the capacity. */
    method PenalizeProvider(credential: string, failure: Failure)
      requires Valid()
      modifies this`time, this`catalogue, this`health, this`credentials, this`capacity, this`penaltyUntil, this`halvings
      ensures Valid() && time >= old(time) && SameRoutes(old(catalogue), catalogue)
      ensures forall m | m in catalogue && m.apiKeyEnv == credential :: m.cooldownUntil == time + WINDOW
      ensures capacity == if failure == RateLimit then Halved(old(capacity), old(penaltyUntil), credential, time) else old(capacity)
      ensures penaltyUntil == if failure == RateLimit && !Until(old(penaltyUntil), credential, time)
                              then old(penaltyUntil)[credential := time + WINDOW] else old(penaltyUntil)
      ensures halvings == if failure == RateLimit && !Until(old(penaltyUntil), credential, time)
                          then old(halvings) + [Halving(credential, time)] else old(halvings)
      ensures capacity != old(capacity) ==> halvings != old(halvings)
      ensures health == old(health)[credential := match failure
                                                  case AccessRefused => AuthenticationFailed
                                                  case QuotaSpent(resetAt) => QuotaExhausted(Later(resetAt, time + 900))
                                                  case _ => RateLimited]
      ensures credentials == match failure
        case AccessRefused => Suspended(old(credentials), credential, time + 86400, time)
        case QuotaSpent(resetAt) => Suspended(old(credentials), credential, Later(resetAt, time + 900), time)
        case _ => old(credentials)
    {
      hide Slot, Key, CostsKnown, DistinctKeys, Charted, SameRoutes, Bounded, Halved, Suspended, Until, Spaced;
      Now();
      Cool((m: Model) => m.apiKeyEnv == credential, time + WINDOW, true);
      RecordFailure(credential, failure);
    }

    /** What a failure of a credential means for its health, its suspension and its capacity. */
    method RecordFailure(credential: string, failure: Failure)
      requires Bounded(capacity) && Spaced(halvings, penaltyUntil, time)
      modifies this`health, this`credentials, this`capacity, this`penaltyUntil, this`halvings
      ensures Bounded(capacity) && Spaced(halvings, penaltyUntil, time)
      ensures capacity == if failure == RateLimit then Halved(old(capacity), old(penaltyUntil), credential, time) else old(capacity)
      ensures penaltyUntil == if failure == RateLimit && !Until(old(penaltyUntil), credential, time)
                              then old(penaltyUntil)[credential := time + WINDOW] else old(penaltyUntil)
      ensures halvings == if failure == RateLimit && !Until(old(penaltyUntil), credential, time)
                          then old(halvings) + [Halving(credential, time)] else old(halvings)
      ensures capacity != old(capacity) ==> halvings != old(halvings)
      ensures health == old(health)[credential := match failure
                                                  case AccessRefused => AuthenticationFailed
                                                  case QuotaSpent(resetAt) => QuotaExhausted(Later(resetAt, time + 900))
                                                  case _ => RateLimited]
      ensures credentials == match failure
        case AccessRefused => Suspended(old(credentials), credential, time + 86400, time)
        case QuotaSpent(resetAt) => Suspended(old(credentials), credential, Later(resetAt, time + 900), time)
        case _ => old(credentials)
    {
      hide Suspended, Spaced;
      match failure
      case AccessRefused =>
        Suspend(credential, time + 86400);
        health := health[credential := AuthenticationFailed];
      case QuotaSpent(resetAt) =>
        var retryAt := if resetAt > time + 900 then resetAt else time + 900;
        Suspend(credential, retryAt);
        health := health[credential := QuotaExhausted(retryAt)];
      case RateLimit =>
        Halve(credential);
        health := health[credential := RateLimited];
      case OtherFailure =>
        health := health[credential := RateLimited];
    }

    /** Multiplicative decrease, once per window. */
    method Halve(slot: string)
      requires Bounded(capacity) && Spaced(halvings, penaltyUntil, time)
      modifies this`capacity, this`penaltyUntil, this`halvings
      ensures Bounded(capacity) && Spaced(halvings, penaltyUntil, time)
      ensures capacity == Halved(old(capacity), old(penaltyUntil), slot, time)
      ensures penaltyUntil == if Until(old(penaltyUntil), slot, time) then old(penaltyUntil) else old(penaltyUntil)[slot := time + WINDOW]
      ensures halvings == if Until(old(penaltyUntil), slot, time) then old(halvings) else old(halvings) + [Halving(slot, time)]
    {
      hide Spaced;
      if time >= (if slot in penaltyUntil then penaltyUntil[slot] else 0) {
        var c := if At(capacity, slot) < 2 then 2 else At(capacity, slot);
        capacity := capacity[slot := c / 2];
        HalvingsStayApart(halvings, penaltyUntil, time, slot, time);
        halvings := halvings + [Halving(slot, time)];
        penaltyUntil := penaltyUntil[slot := time + WINDOW];
      }
    }

    /** Keep a credential out until a later time than it already is. */
    method Suspend(credential: string, until: nat)
      modifies this`credentials
      ensures credentials == Suspended(old(credentials), credential, until, time)
    {
      if credential == "" || until <= time { return; }
      if credential in credentials && until <= credentials[credential] { return; }
      credentials := credentials[credential := until];
    }

    /** The loop that sets cooldowns; without `always`, only where it ends later than the old one. */
    method Cool(matches: Model -> bool, until: nat, always: bool)
      requires Valid()
      modifies this`catalogue
      ensures Valid() && SameRoutes(old(catalogue), catalogue)
      ensures forall i | 0 <= i < |catalogue| ::
        catalogue[i] == if matches(old(catalogue)[i]) && (always || old(catalogue)[i].cooldownUntil < until)
                        then old(catalogue)[i].(cooldownUntil := until) else old(catalogue)[i]
    {
      hide Slot, Key, CostsKnown, DistinctKeys, Charted, Bounded, Spaced;
      for i := 0 to |catalogue|
        invariant SameRoutes(old(catalogue), catalogue)
        invariant forall k | i <= k < |catalogue| :: catalogue[k] == old(catalogue)[k]
        invariant forall k | 0 <= k < i ::
          catalogue[k] == if matches(old(catalogue)[k]) && (always || old(catalogue)[k].cooldownUntil < until)
                          then old(catalogue)[k].(cooldownUntil := until) else old(catalogue)[k]
      {
        if matches(catalogue[i]) && (always || catalogue[i].cooldownUntil < until) {
          catalogue := catalogue[i := catalogue[i].(cooldownUntil := until)];
        }
      }
      SameRoutesCharted(old(catalogue), catalogue, slots);
      SameRoutesAgain(routes, old(catalogue), catalogue);
    }

    /** Temporary trouble on a slot. */
    method CoolProviderSlot(slot: string, delay: nat)
      requires Valid()
      modifies this`catalogue, this`time
      ensures Valid() && time >= old(time) && SameRoutes(old(catalogue), catalogue)
      ensures forall i | 0 <= i < |catalogue| ::
        catalogue[i] == if Slot(old(catalogue)[i]) == slot && old(catalogue)[i].cooldownUntil < time + delay
                        then old(catalogue)[i].(cooldownUntil := time + delay) else old(catalogue)[i]
    {
      hide Key, CostsKnown, DistinctKeys, Charted, SameRoutes, Bounded, Spaced;
      Now();
      Cool((m: Model) => Slot(m) == slot, time + delay, false);
    }

    /** An incompatible model: all its routes are switched off. */
    method PenalizeModel(name: string)
      requires Valid()
      modifies this`catalogue, this`time, this`unavailable
      ensures Valid() && time >= old(time) && SameRoutes(old(catalogue), catalogue)
      ensures forall i | 0 <= i < |catalogue| ::
        catalogue[i] == old(catalogue)[i].(enabled := old(catalogue)[i].enabled && !Named(old(catalogue)[i], name))
      ensures forall key :: TimeOf(unavailable, key) == OutUntil(old(unavailable), old(catalogue), name, key, time + 86400)
    {
      hide Slot, Key, CostsKnown, DistinctKeys, Charted, Bounded, Spaced, OutUntil, Named;
      Now();
      ghost var now := time;
      forall key { NoneOut(unavailable, catalogue, name, key, now + 86400); }
      for i := 0 to |catalogue|
        invariant time == now && Spaced(halvings, penaltyUntil, time) && SameRoutes(old(catalogue), catalogue)
        invariant forall key :: TimeOf(unavailable, key) == OutUntil(old(unavailable), old(catalogue)[..i], name, key, time + 86400)
        invariant forall k | 0 <= k < i ::
          catalogue[k] == old(catalogue)[k].(enabled := old(catalogue)[k].enabled && !Named(old(catalogue)[k], name))
        invariant forall k | i <= k < |catalogue| :: catalogue[k] == old(catalogue)[k]
      {
        var m := catalogue[i];
        assert old(catalogue)[..i + 1] == old(catalogue)[..i] + [m];
        ghost var was := unavailable;
        if Named(m, name) {
          catalogue := catalogue[i := m.(enabled := false)];
          if !Until(unavailable, Key(m), time + 86400) { unavailable := unavailable[Key(m) := time + 86400]; }
        }
        forall key ensures TimeOf(unavailable, key) == OutUntil(old(unavailable), old(catalogue)[..i + 1], name, key, time + 86400) {
          OutNext(old(unavailable), old(catalogue)[..i], m, name, key, time + 86400);
          assert TimeOf(was, key) == OutUntil(old(unavailable), old(catalogue)[..i], name, key, time + 86400);
        }
      }
      assert old(catalogue)[..|catalogue|] == old(catalogue);
      SameRoutesCharted(old(catalogue), catalogue, slots);
      SameRoutesAgain(routes, old(catalogue), catalogue);
    }

    /** A provider named the largest request that a route takes; the smallest such limit counts. */
    method LearnRequestLimit(key: string, tokens: nat)
      requires Valid()
      modifies this`limits
      ensures Valid()
      ensures limits == if tokens == 0 || (key in old(limits) && 0 < old(limits)[key] <= tokens) then old(limits)
                        else old(limits)[key := tokens]
    {
      if tokens == 0 || (key in limits && 0 < limits[key] <= tokens) { return; }
      limits := limits[key := tokens];
    }

    /** The keys of all routes to a model through its provider. */
    method RoutesOfModel(m: Model) returns (keys: seq<string>)
      requires Valid()
      ensures forall key :: key in keys <==> key in Family(routes, m)
    {
      hide Key, Slot, CostsKnown, DistinctKeys, Charted, Bounded, Spaced, SameRoutes;
      keys := [];
      for i := 0 to |catalogue|
        invariant forall key :: key in keys <==> key in Family(catalogue[..i], m)
      {
        assert catalogue[..i + 1] == catalogue[..i] + [catalogue[i]];
        if catalogue[i].id == m.id && catalogue[i].provider == m.provider { keys := keys + [Key(catalogue[i])]; }
      }
      assert catalogue[..|catalogue|] == catalogue;
      SameFamily(routes, catalogue, m);
    }

    /** The diagnostic count of routes. */
    method RouteAvailability(q: Query) returns (a: Availability)
      requires Valid()
      modifies this`time
      ensures Valid() && time >= old(time) && (old(Tallied()) ==> Tallied())
      ensures a.eligible == |EligibleRoutes(Elements(catalogue), Sight(), q, capacity, inFlight)|
      ensures a.potential == |set m | m in catalogue && Potential(Sight(), q, m)|
      ensures a.untried == |set m | m in EligibleRoutes(Elements(catalogue), Sight(), q, capacity, inFlight) && Key(m) !in q.policy.tried|
      ensures a.untriedProviders == |set m | m in EligibleRoutes(Elements(catalogue), Sight(), q, capacity, inFlight)
                                             && Key(m) !in q.policy.tried && Fresh(catalogue, q.policy, m.provider) :: m.provider|
    {
      hide Slot, Key, CostsKnown, Charted, SameRoutes, Bounded, Spaced, Potential, RouteAvailable, DistinctKeys;
      Now();
      a := CountRoutes(q);
      assert (set m | m in catalogue && Eligible(Sight(), q, capacity, inFlight, m))
          == EligibleRoutes(Elements(catalogue), Sight(), q, capacity, inFlight);
      assert (set m | m in catalogue && Eligible(Sight(), q, capacity, inFlight, m) && Key(m) !in q.policy.tried)
          == (set m | m in EligibleRoutes(Elements(catalogue), Sight(), q, capacity, inFlight) && Key(m) !in q.policy.tried);
      assert (set m | m in catalogue && Eligible(Sight(), q, capacity, inFlight, m) && Key(m) !in q.policy.tried
                      && Fresh(catalogue, q.policy, m.provider) :: m.provider)
          == (set m | m in EligibleRoutes(Elements(catalogue), Sight(), q, capacity, inFlight)
                      && Key(m) !in q.policy.tried && Fresh(catalogue, q.policy, m.provider) :: m.provider);
    }

    method CountRoutes(q: Query) returns (a: Availability)
      requires Valid()
      ensures a.potential == |set m | m in catalogue && Potential(Sight(), q, m)|
      ensures a.eligible == |set m | m in catalogue && Eligible(Sight(), q, capacity, inFlight, m)|
      ensures a.untried == |set m | m in catalogue && Eligible(Sight(), q, capacity, inFlight, m) && Key(m) !in q.policy.tried|
      ensures a.untriedProviders == |set m | m in catalogue && Eligible(Sight(), q, capacity, inFlight, m) && Key(m) !in q.policy.tried
                                             && Fresh(catalogue, q.policy, m.provider) :: m.provider|
    {
      hide Slot, Key, CostsKnown, Charted, SameRoutes, Bounded, Potential, RouteAvailable, DistinctKeys, Count;
      ghost var v, c, f := Sight(), capacity, inFlight;
      ghost var potential := (m: Model) => Potential(v, q, m);
      ghost var eligible := (m: Model) => Eligible(v, q, c, f, m);
      assert catalogue[..|catalogue|] == catalogue;
      ghost var untried := (m: Model) => Eligible(v, q, c, f, m) && Key(m) !in q.policy.tried;
      NothingCounted(catalogue, potential);
      NothingCounted(catalogue, eligible);
      NothingCounted(catalogue, untried);
      var triedProviders: set<string> := {};
      for i := 0 to |catalogue|
        invariant forall p :: p in triedProviders <==> !Fresh(catalogue[..i], q.policy, p)
      {
        assert catalogue[..i + 1] == catalogue[..i] + [catalogue[i]];
        if Key(catalogue[i]) in q.policy.tried { triedProviders := triedProviders + {catalogue[i].provider}; }
      }
      a := Availability(0, 0, 0, 0);
      var untriedProviders: set<string> := {};
      for i := 0 to |catalogue|
        invariant a.potential == Count(catalogue[..i], potential) && a.eligible == Count(catalogue[..i], eligible)
        invariant a.untried == Count(catalogue[..i], untried)
        invariant forall p :: p in untriedProviders <==>
          Fresh(catalogue, q.policy, p) && exists m :: m in catalogue[..i] && untried(m) && m.provider == p
      {
        var m := catalogue[i];
        NotAgain(catalogue, i);
        CountedOne(catalogue[..i], m, potential);
        CountedOne(catalogue[..i], m, eligible);
        CountedOne(catalogue[..i], m, untried);
        assert catalogue[..i + 1] == catalogue[..i] + [m];
        if !Potential(Sight(), q, m) { continue; }
        a := a.(potential := a.potential + 1);
        if !RouteAvailable(Sight(), m) || (At(capacity, Slot(m)) > 0 && At(inFlight, Slot(m)) >= At(capacity, Slot(m))) { continue; }
        a := a.(eligible := a.eligible + 1);
        if Key(m) !in q.policy.tried {
          a := a.(untried := a.untried + 1);
          if m.provider !in triedProviders { untriedProviders := untriedProviders + {m.provider}; }
        }
      }
      assert catalogue[..|catalogue|] == catalogue;
      a := a.(untriedProviders := |untriedProviders|);
      assert untriedProviders == set m | m in catalogue && Eligible(v, q, c, f, m) && Key(m) !in q.policy.tried
                                         && Fresh(catalogue, q.policy, m.provider) :: m.provider;
      assert a.potential == |set m | m in catalogue && Potential(v, q, m)| by {
        CountIs(catalogue, potential, set m | m in catalogue && Potential(v, q, m));
      }
      assert a.eligible == |set m | m in catalogue && Eligible(v, q, c, f, m)| by {
        CountIs(catalogue, eligible, set m | m in catalogue && Eligible(v, q, c, f, m));
      }
      assert a.untried == |set m | m in catalogue && Eligible(v, q, c, f, m) && Key(m) !in q.policy.tried| by {
        CountIs(catalogue, untried, set m | m in catalogue && Eligible(v, q, c, f, m) && Key(m) !in q.policy.tried);
      }
    }

    /** The confidence filter, which records the prior of a route it has not seen. */
    method Trusts(q: Query, m: Model) returns (confident: bool)
      requires forall k | k in matrix :: 0.0 <= matrix[k] <= 1.0
      modifies this`matrix
      ensures forall k | k in matrix :: 0.0 <= matrix[k] <= 1.0
      ensures SameOdds(old(matrix), matrix) && confident == Confident(old(Sight()), q, m)
    {
      if !learning { return true; }
      if (q.agent, Key(m)) !in matrix { matrix := matrix[(q.agent, Key(m)) := 0.90]; }
      confident := matrix[(q.agent, Key(m))] >= q.required || Key(m) == q.policy.preferredKey;
    }
  }

  /** No route of the provider was tried. */
  ghost predicate Fresh(catalogue: seq<Model>, p: RoutePolicy, provider: string) {
    forall m | m in catalogue && m.provider == provider :: Key(m) !in p.tried
  }

  ghost function Count(s: seq<Model>, counts: Model -> bool): nat {
    |set x | x in s && counts(x)|
  }

  lemma CountIs(s: seq<Model>, counts: Model -> bool, all: set<Model>)
    requires forall m :: m in all <==> m in s && counts(m)
    ensures Count(s, counts) == |all|
  {
    assert all == set x | x in s && counts(x);
  }

  lemma NothingCounted(s: seq<Model>, counts: Model -> bool)
    ensures Count(s[..0], counts) == 0
  {
    assert (set x | x in s[..0] && counts(x)) == {};
  }

  lemma CountedOne(done: seq<Model>, m: Model, counts: Model -> bool)
    requires m !in done
    ensures Count(done + [m], counts) == Count(done, counts) + if counts(m) then 1 else 0
  {
    assert (set x | x in done + [m] && counts(x)) == (set x | x in done && counts(x)) + if counts(m) then {m} else {};
  }

  lemma TrackedAreCharted(tracked: map<string, string>, slots: map<string, string>, inFlight: map<string, int>)
    requires Tallies(tracked, slots, inFlight)
    ensures forall t | t in tracked :: tracked[t] in slots
  {
  }

  lemma RaisedIsBounded(capacity: map<string, int>, slot: string, occupancy: int)
    requires Bounded(capacity)
    ensures Bounded(Raised(capacity, slot, occupancy))
  {
    hide Contains, Lower;
  }

  lemma ListedOrEmpty(s: seq<Model>)
    ensures s == [] <==> Elements(s) == {}
  {
    if s != [] { assert s[0] in Elements(s); }
  }

  lemma SightByOdds(all: set<Model>, v: View, w: View, q: Query, capacity: map<string, int>, inFlight: map<string, int>)
    requires w == v.(matrix := w.matrix)
    ensures forall allowed :: OpenRoutes(all, v, q, capacity, inFlight, allowed) == OpenRoutes(all, w, q, capacity, inFlight, allowed)
  {
    forall m ensures Available(v, m, q.policy) == Available(w, m, q.policy) { OddsDoNotMatter(v, w, m, q.policy); }
    hide Available, Slot;
  }

  lemma NarrowedByOdds(s: set<Model>, v: View, w: View, p: RoutePolicy)
    requires w == v.(matrix := w.matrix)
    ensures Narrowed(s, v, p) == Narrowed(s, w, p)
  {
    forall t: set<Model> ensures Prefer(t, Trust(v)) == Prefer(t, Trust(w)) {
      forall m ensures Trust(v)(m) == Trust(w)(m) { assert DeadRoutes(v, m) == DeadRoutes(w, m); }
    }
    hide Prefer, Trust;
  }

  lemma KeysOfCatalogue(catalogue: seq<Model>)
    requires DistinctKeys(catalogue)
    ensures KeysDistinct(Elements(catalogue))
  {
    hide Key;
    forall a, b | a in catalogue && b in catalogue && Key(a) == Key(b) ensures a == b {
      var i :| 0 <= i < |catalogue| && catalogue[i] == a;
      var j :| 0 <= j < |catalogue| && catalogue[j] == b;
    }
  }

  /** Sorting and taking the element at the tier's index yields the route of that rank. */
  lemma RankedAtIndex(narrowed: seq<Model>, n: set<Model>, all: set<Model>, catalogue: seq<Model>, tier: int)
    requires Lists(narrowed, n) && n != {} && n <= all && all == Elements(catalogue)
    requires DistinctKeys(catalogue) && CostsKnown(all)
    ensures var t := Sort(narrowed);
      |t| > 0 && Ranked(t[Index(tier, |t|)], n, tier) && t[Index(tier, |t|)] in catalogue
  {
    KeysOfCatalogue(catalogue);
    SortKeeps(narrowed, all);
    var t := Sort(narrowed);
    forall m ensures m in t <==> m in n {
      assert m in t <==> m in multiset(t);
      assert m in narrowed <==> m in multiset(narrowed);
    }
    assert Elements(t) == n;
    IndexIsRank(t, n, Index(tier, |t|));
  }

  /** The routes gathered so far, given that every slot they may need has a capacity by now. */
  ghost predicate Gathered(capable: seq<Model>, done: seq<Model>, v: View, q: Query, capacity: map<string, int>, inFlight: map<string, int>) {
    && Distinct(capable)
    && (forall m | m in done && Available(v, m, q.policy) && m.modality == Wanted(q) :: At(capacity, Slot(m)) > 0)
    && forall m :: m in capable <==>
         m in done && Confident(v, q, m) && Open(v, q, capacity, inFlight, m) && m.modality == Wanted(q)
  }

  lemma NothingGathered(capacity: map<string, int>, inFlight: map<string, int>, catalogue: seq<Model>, v: View, q: Query)
    ensures Gathered([], catalogue[..0], v, q, capacity, inFlight)
    ensures Defaulted(capacity, capacity, Elements(catalogue[..0]), v, q)
    ensures SameOdds(v.matrix, v.matrix)
  {
  }

  lemma AllGathered(capable: seq<Model>, done: seq<Model>, v: View, q: Query, capacity: map<string, int>, inFlight: map<string, int>)
    requires Gathered(capable, done, v, q, capacity, inFlight)
    ensures Lists(capable, set m | m in OpenRoutes(Elements(done), v, q, capacity, inFlight, Modality(Wanted(q))) && Confident(v, q, m))
  {
    hide Open, Confident;
  }

  lemma GatheredSkips(capable: seq<Model>, done: seq<Model>, v: View, q: Query, capacity: map<string, int>, inFlight: map<string, int>, m: Model)
    requires Gathered(capable, done, v, q, capacity, inFlight)
    requires Available(v, m, q.policy) && m.modality == Wanted(q) ==> At(capacity, Slot(m)) > 0
    requires !Confident(v, q, m) || !Open(v, q, capacity, inFlight, m) || m.modality != Wanted(q)
    ensures Gathered(capable, done + [m], v, q, capacity, inFlight)
  {
    hide Open, Confident, Available, Slot;
  }

  lemma GatheredTakes(capable: seq<Model>, done: seq<Model>, v: View, q: Query, capacity: map<string, int>, inFlight: map<string, int>, m: Model)
    requires Gathered(capable, done, v, q, capacity, inFlight) && m !in done && At(capacity, Slot(m)) > 0
    requires Confident(v, q, m) && Open(v, q, capacity, inFlight, m) && m.modality == Wanted(q)
    ensures Gathered(capable + [m], done + [m], v, q, capacity, inFlight)
  {
    hide Open, Confident, Available, Slot;
  }

  lemma GatheredDefaults(capable: seq<Model>, done: seq<Model>, v: View, q: Query, capacity: map<string, int>, inFlight: map<string, int>, m: Model)
    requires Gathered(capable, done, v, q, capacity, inFlight) && At(capacity, Slot(m)) == 0
    ensures Gathered(capable, done, v, q, capacity[Slot(m) := DefaultCapacity(m)], inFlight)
  {
    hide Confident, Available, Slot;
  }

  lemma BoundedDefault(capacity: map<string, int>, m: Model)
    requires Bounded(capacity)
    ensures Bounded(capacity[Slot(m) := DefaultCapacity(m)])
    ensures At(capacity, Slot(m)) == 0 || At(capacity, Slot(m)) > 0
  {
    hide Slot;
  }

  lemma SameConfidence(v: View, w: View, q: Query, m: Model)
    requires SameOdds(v.matrix, w.matrix) && w == v.(matrix := w.matrix)
    ensures Confident(v, q, m) == Confident(w, q, m)
  {
    assert Probability(v, q.agent, Key(m)) == Probability(w, q.agent, Key(m)) by { hide Key; }
  }

  /** Filling in the optimistic prior changes no odds. */
  ghost predicate SameOdds(a: map<(string, string), real>, b: map<(string, string), real>) {
    forall k :: (if k in b then b[k] else 0.90) == (if k in a then a[k] else 0.90)
  }

  lemma OddsCompose(a: map<(string, string), real>, b: map<(string, string), real>, c: map<(string, string), real>)
    requires SameOdds(a, b) && SameOdds(b, c)
    ensures SameOdds(a, c)
  {
    forall k ensures (if k in c then c[k] else 0.90) == (if k in a then a[k] else 0.90) {
      assert (if k in b then b[k] else 0.90) == (if k in a then a[k] else 0.90);
    }
  }

  lemma NotAgain(catalogue: seq<Model>, i: nat)
    requires DistinctKeys(catalogue) && i < |catalogue|
    ensures catalogue[i] !in catalogue[..i]
  {
    hide Key;
  }

  lemma OddsDoNotMatter(v: View, w: View, m: Model, p: RoutePolicy)
    requires w == v.(matrix := w.matrix)
    ensures Available(v, m, p) == Available(w, m, p)
  {
  }

  /** Two tasks forced onto a route occupy its slot although nothing has set its capacity. There the
      order of the catalogue decides: one default of a shared slot leaves a route, the other none. */
  method FillUnsetSlot(catalogue: seq<Model>, a: Model, b: Model, name: string, first: string, second: string)
    returns (router: ModelRouter)
    requires DistinctKeys(catalogue) && CostsKnown(Elements(catalogue)) && a in catalogue && b in catalogue
    requires MayMeet(a, b) && a.apiKeyEnv != "" && b.apiKeyEnv == "" && FirstNamed(catalogue, name) == Route(a) && first != second
    ensures router.Valid() && router.Tallied() && router.catalogue == catalogue && router.tracked.Keys == {first, second}
    ensures router.capacity == map[] && router.inFlight == map[Slot(a) := 2]
    ensures router.Sight().(now := a.cooldownUntil + b.cooldownUntil) == Calm(a, b)
    ensures Disagree(Elements(catalogue), Calm(a, b), OnlyBetween(Elements(catalogue), a, b), router.capacity,
                     map[Slot(a) := 2], map[Slot(a) := 50], router.inFlight, NoRoute, Route(a))
  {
    hide Slot, Key, MayMeet, CostsKnown, Disagree, OnlyBetween, Charted, SameRoutes, Spaced, Bounded, Tallies;
    router := new ModelRouter(catalogue, {});
    router.TrackForcedModel(first, name);
    router.TrackForcedModel(second, name);
    assert KeysDistinct(Elements(catalogue));
    MixedSlotDisagrees(Elements(catalogue), a, b);
  }

  ghost function SlotChart(catalogue: seq<Model>): map<string, string> {
    if catalogue == [] then map[] else SlotChart(catalogue[1..])[Key(catalogue[0]) := Slot(catalogue[0])]
  }

  lemma {:induction false} ChartIsRight(catalogue: seq<Model>)
    requires DistinctKeys(catalogue)
    ensures Charted(catalogue, SlotChart(catalogue))
  {
    hide Key, Slot;
    if catalogue != [] {
      ChartIsRight(catalogue[1..]);
      assert forall m :: m in catalogue <==> m == catalogue[0] || m in catalogue[1..];
    }
  }
}
