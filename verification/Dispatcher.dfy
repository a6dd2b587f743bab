/** The attempt loop of one task (runtime/agent/dispatcher.go, retry_routes.go): what it publishes,
    the tool-broker sessions and worker slots it takes, and how it uses the model router, while
    other tasks use the same router between any two of its steps. */
module Dispatching {
  import opened Collections
  import opened RouterModel
  import opened Routers

  datatype Category =
    | ModelRequest | ModelIncompatible | ModelUnavailable | ProviderTransient | AttemptTimeout
    | RateWindow | RateLimited | QuotaExceeded | AccessDenied | Unclassified

  /** How a failure is classified, as an arbitrary value. `outputLimit` is an output bound that the
      provider named and that is below the one requested, `requestLimit` the largest request that it
      says the route takes; each is 0 if none. */
  datatype Disposition = Disposition(
    category: Category, retryable: bool, penalizeProvider: bool, disableModel: bool, outputLimit: nat, requestLimit: nat,
    resetAt: nat)

  datatype Ended = Success | ContractFailure | Failed(disposition: Disposition)

  /** What a task publishes. The start of an attempt names its route. */
  datatype Signal =
    | AttemptStarted(attempt: string, number: nat, route: Choice)
    | AttemptFinished(attempt: string, succeeded: bool)
    | WorkerCompleted(attempt: string)
    | WorkerFailed(attempt: string)

  // ---------- the conversation that listeners rely on ----------

  datatype Phase = Idle(attempts: nat, last: string) | Running(attempts: nat, attempt: string) | Won(attempts: nat, attempt: string)
                 | Over(attempts: nat, completed: bool) | Broken

  function Next(p: Phase, s: Signal): Phase {
    match (p, s)
    case (Idle(n, _), AttemptStarted(a, number, _)) => if number == n + 1 then Running(number, a) else Broken
    case (Running(n, a), AttemptFinished(b, ok)) => if a != b then Broken else if ok then Won(n, a) else Idle(n, a)
    case (Won(n, a), WorkerCompleted(b)) => if a == b then Over(n, true) else Broken
    case (Idle(n, a), WorkerFailed(b)) => if a == b then Over(n, false) else Broken
    case _ => Broken
  }

  function Follow(signals: seq<Signal>): Phase {
    if signals == [] then Idle(0, "") else Next(Follow(signals[..|signals| - 1]), signals[|signals| - 1])
  }

  lemma Followed(signals: seq<Signal>, s: Signal)
    ensures Follow(signals + [s]) == Next(Follow(signals), s)
    ensures Starts(signals + [s]) == Starts(signals) + if s.AttemptStarted? then [s.route] else []
    ensures Identities(signals + [s]) == Identities(signals) + if s.AttemptStarted? then [s.attempt] else []
  {
    assert (signals + [s])[..|signals|] == signals;
  }

  /** The routes of the attempts started, in order. */
  function Starts(signals: seq<Signal>): seq<Choice> {
    if signals == [] then []
    else
      var last := signals[|signals| - 1];
      Starts(signals[..|signals| - 1]) + if last.AttemptStarted? then [last.route] else []
  }

  /** The identities of the attempts started, in order. */
  function Identities(signals: seq<Signal>): seq<string> {
    if signals == [] then []
    else
      var last := signals[|signals| - 1];
      Identities(signals[..|signals| - 1]) + if last.AttemptStarted? then [last.attempt] else []
  }

  /** The answers that named a route. */
  function Hits(choices: seq<Choice>): seq<Choice> {
    if choices == [] then []
    else
      var last := choices[|choices| - 1];
      Hits(choices[..|choices| - 1]) + if last.Route? then [last] else []
  }

  lemma {:induction false} HitsJoin(a: seq<Choice>, b: seq<Choice>)
    ensures Hits(a + b) == Hits(a) + Hits(b)
  {
    if b == [] {
      assert a + b == a;
    } else {
      HitsJoin(a, b[..|b| - 1]);
      assert (a + b)[..|a + b| - 1] == a + b[..|b| - 1];
    }
  }

  function Clamp(n: int): nat {
    if n < 1 then 1 else if n > 15 then 15 else n
  }

  predicate RulesOut(d: Disposition) {
    d.category == ModelRequest || d.category == ModelIncompatible || d.category == ModelUnavailable
  }

  /** A provider is avoided after trouble with its service, or after a second rejection. */
  predicate Correlated(d: Disposition, failures: map<string, int>, provider: string) {
    || d.category == ProviderTransient || d.category == AttemptTimeout
    || (RulesOut(d) && At(failures, provider) >= 2)
  }

  /** The ledger of one task. */
  class RetryRoutes {
    var policy: RoutePolicy
    var failures: map<string, int>
    var limits: map<string, nat>

    constructor (minTokens: nat)
      ensures policy == RoutePolicy({}, {}, {}, "", minTokens) && limits == map[]
    {
      policy, failures, limits := RoutePolicy({}, {}, {}, "", minTokens), map[], map[];
    }

    method Started(r: Choice)
      modifies this`policy
      ensures policy.excluded == old(policy.excluded) && policy.avoid == old(policy.avoid)
      ensures policy.minTokens == old(policy.minTokens)
      ensures policy.tried == old(policy.tried) + if r.Route? then {Key(r.model)} else {}
      ensures policy.preferredKey == ""
    {
      policy := policy.(preferredKey := "");
      if r.Route? { policy := policy.(tried := policy.tried + {Key(r.model)}); }
    }

    /** A route is retried with a smaller output bound once; otherwise a rejection of the request
        or of the model excludes the route. */
    method RecordFailure(r: Choice, d: Disposition) returns (adjusted: bool)
      modifies this
      ensures adjusted <==> r.Route? && d.category == ModelRequest && Key(r.model) !in old(limits) && d.outputLimit > 0
      ensures adjusted ==> policy.preferredKey == Key(r.model) && limits == old(limits)[Key(r.model) := d.outputLimit]
      ensures !adjusted ==> limits == old(limits)
      ensures policy.excluded == old(policy.excluded) + if r.Route? && !adjusted && RulesOut(d) then {Key(r.model)} else {}
      ensures policy.tried == old(policy.tried) && policy.minTokens == old(policy.minTokens)
      ensures failures == if r.Route? && !adjusted && RulesOut(d)
                          then old(failures)[r.model.provider := At(old(failures), r.model.provider) + 1] else old(failures)
      ensures policy.avoid == old(policy.avoid) + if r.Route? && !adjusted && Correlated(d, failures, r.model.provider)
                                                  then {r.model.provider} else {}
    {
      if r.NoRoute? { return false; }
      var key, provider := Key(r.model), r.model.provider;
      if d.category == ModelRequest && key !in limits && d.outputLimit > 0 {
        limits := limits[key := d.outputLimit];
        policy := policy.(preferredKey := key);
        return true;
      }
      if RulesOut(d) {
        policy := policy.(excluded := policy.excluded + {key});
        failures := failures[provider := At(failures, provider) + 1];
        if failures[provider] >= 2 { policy := policy.(avoid := policy.avoid + {provider}); }
      }
      if d.category == ProviderTransient || d.category == AttemptTimeout {
        policy := policy.(avoid := policy.avoid + {provider});
      }
      return false;
    }

    /** None of these routes is used again. */
    method Exclude(keys: seq<string>)
      modifies this`policy
      ensures forall key :: key in policy.excluded <==> key in old(policy.excluded) || key in keys
      ensures policy == old(policy).(excluded := policy.excluded)
    {
      for i := 0 to |keys|
        invariant forall key :: key in policy.excluded <==> key in old(policy.excluded) || key in keys[..i]
        invariant policy == old(policy).(excluded := policy.excluded)
      {
        policy := policy.(excluded := policy.excluded + {keys[i]});
      }
    }
  }

  /** What the worker does in each attempt of a task; an attempt that is not listed succeeds. */
  function OutcomeOf(outcomes: seq<Ended>, n: nat): Ended {
    if n < |outcomes| then outcomes[n] else Success
  }

  predicate Retryable(e: Ended) {
    e.Failed? && e.disposition.retryable
  }

  /** The provider named an output bound. */
  predicate Bounding(e: Ended) {
    e.Failed? && e.disposition.category == ModelRequest && e.disposition.outputLimit > 0
  }

  ghost predicate SameRoute(a: Choice, b: Choice) {
    a.Route? && b.Route? && Key(a.model) == Key(b.model)
  }

  /** Attempt `j` was refused in a way that rules its route out: the request or the model was
      rejected, and it was not the first time that the route named an output bound. */
  ghost predicate Excluding(starts: seq<Choice>, outcomes: seq<Ended>, j: nat)
    requires j < |starts|
  {
    var e := OutcomeOf(outcomes, j);
    && starts[j].Route? && e.Failed? && RulesOut(e.disposition)
    && (Bounding(e) ==> exists i :: 0 <= i < j && SameRoute(starts[i], starts[j]) && Bounding(OutcomeOf(outcomes, i)))
  }

  /** The route takes no request as large as the smallest that the task can make. */
  predicate Outgrown(d: Disposition, minTokens: nat) {
    d.category == ModelRequest && !d.penalizeProvider && !d.disableModel && 0 < d.requestLimit < minTokens
  }

  predicate TooSmall(e: Ended, minTokens: nat) {
    e.Failed? && Outgrown(e.disposition, minTokens)
  }

  /** Two routes to one model through one provider. */
  ghost predicate SameModel(a: Choice, b: Choice) {
    a.Route? && b.Route? && a.model.id == b.model.id && a.model.provider == b.model.provider
  }

  /** No attempt uses a route that an earlier one excluded, nor, after one that was too large for its
      route, any route to that model through that provider. */
  ghost predicate NeverReused(starts: seq<Choice>, outcomes: seq<Ended>, minTokens: nat) {
    forall j, k | 0 <= j < k < |starts| && Excluding(starts, outcomes, j) ::
      !SameRoute(starts[j], starts[k]) && (TooSmall(OutcomeOf(outcomes, j), minTokens) ==> !SameModel(starts[j], starts[k]))
  }

  /** What the ledger of a task remembers of its attempts. */
  ghost predicate Remembers(starts: seq<Choice>, outcomes: seq<Ended>, minTokens: nat, routes: seq<Model>,
                            excluded: set<string>, limits: map<string, nat>) {
    && (forall j | 0 <= j < |starts| && Excluding(starts, outcomes, j) ::
          && Key(starts[j].model) in excluded
          && (TooSmall(OutcomeOf(outcomes, j), minTokens) ==> Family(routes, starts[j].model) <= excluded))
    && (forall key :: key in limits <==>
         exists i :: 0 <= i < |starts| && starts[i].Route? && Key(starts[i].model) == key && Bounding(OutcomeOf(outcomes, i)))
  }

  /** How one failure changes the ledger. */
  ghost predicate Records(r: Choice, e: Ended, minTokens: nat, routes: seq<Model>, excluded: set<string>, limits: map<string, nat>,
                          excluded': set<string>, limits': map<string, nat>) {
    e.Failed? &&
    var adjusted := r.Route? && Bounding(e) && Key(r.model) !in limits;
    && excluded' == excluded + (if r.Route? && !adjusted && RulesOut(e.disposition) then {Key(r.model)} else {})
                             + (if r.Route? && !adjusted && TooSmall(e, minTokens) then Family(routes, r.model) else {})
    && limits' == if adjusted then limits[Key(r.model) := e.disposition.outputLimit] else limits
  }

  /** A route of the catalogue that the task has not excluded. */
  ghost predicate Permitted(r: Choice, routes: seq<Model>, excluded: set<string>) {
    r.Route? ==> Key(r.model) in Family(routes, r.model) && Key(r.model) !in excluded
  }

  lemma NoneIsPermitted(routes: seq<Model>, excluded: set<string>)
    ensures Permitted(NoRoute, routes, excluded)
  {
  }

  lemma AnotherAttempt(starts: seq<Choice>, outcomes: seq<Ended>, minTokens: nat, routes: seq<Model>, r: Choice,
                       excluded: set<string>, limits: map<string, nat>)
    requires NeverReused(starts, outcomes, minTokens) && Remembers(starts, outcomes, minTokens, routes, excluded, limits)
    requires Permitted(r, routes, excluded)
    ensures NeverReused(starts + [r], outcomes, minTokens)
  {
    var after := starts + [r];
    forall j, k | 0 <= j < k < |after| && Excluding(after, outcomes, j)
      ensures !SameRoute(after[j], after[k]) && (TooSmall(OutcomeOf(outcomes, j), minTokens) ==> !SameModel(after[j], after[k]))
    {
      SameExcluding(starts, outcomes, r, j);
      hide Key, OutcomeOf, Excluding, TooSmall;
      assert after[j] == starts[j];
      if k == |starts| && SameModel(after[j], r) { assert Family(routes, starts[j].model) == Family(routes, r.model); }
    }
  }

  lemma SameExcluding(starts: seq<Choice>, outcomes: seq<Ended>, r: Choice, j: nat)
    requires j < |starts|
    ensures Excluding(starts + [r], outcomes, j) == Excluding(starts, outcomes, j)
  {
    hide Key, OutcomeOf, Bounding, RulesOut;
    assert forall i | 0 <= i <= j :: (starts + [r])[i] == starts[i];
  }

  lemma LedgerGrows(starts: seq<Choice>, outcomes: seq<Ended>, minTokens: nat, routes: seq<Model>, r: Choice,
                    excluded: set<string>, limits: map<string, nat>, excluded': set<string>, limits': map<string, nat>)
    requires Remembers(starts, outcomes, minTokens, routes, excluded, limits)
    requires Records(r, OutcomeOf(outcomes, |starts|), minTokens, routes, excluded, limits, excluded', limits')
    ensures Remembers(starts + [r], outcomes, minTokens, routes, excluded', limits')
  {
    hide Key, OutcomeOf, RulesOut, Bounding, TooSmall, Family;
    var n := |starts|;
    var after := starts + [r];
    forall j | 0 <= j < |after| && Excluding(after, outcomes, j)
      ensures Key(after[j].model) in excluded'
      ensures TooSmall(OutcomeOf(outcomes, j), minTokens) ==> Family(routes, after[j].model) <= excluded'
    {
      if j < n {
        SameExcluding(starts, outcomes, r, j);
        assert after[j] == starts[j];
      } else if Bounding(OutcomeOf(outcomes, n)) {
        var i :| 0 <= i < n && SameRoute(after[i], r) && Bounding(OutcomeOf(outcomes, i));
        assert starts[i] == after[i];
        assert Key(r.model) in limits;
      }
    }
    forall key ensures key in limits' <==>
      exists i :: 0 <= i < |after| && after[i].Route? && Key(after[i].model) == key && Bounding(OutcomeOf(outcomes, i))
    {
      if key in limits {
        var i :| 0 <= i < n && starts[i].Route? && Key(starts[i].model) == key && Bounding(OutcomeOf(outcomes, i));
        assert after[i] == starts[i];
      }
      if r.Route? && Key(r.model) == key { assert after[n] == r; }
    }
  }

  /** The attempts of `task` in a table of attempts by task. */
  function Mine(table: map<string, string>, task: string): set<string> {
    set a | a in table && table[a] == task
  }

  /** `before` was extended by at most `limit` answers, of which exactly `hit` named a route. */
  ghost predicate Picked(before: seq<Choice>, after: seq<Choice>, hit: seq<Choice>, limit: nat) {
    before <= after && |after| <= |before| + limit && Hits(after[|before|..]) == hit
  }

  lemma PickedMore(a: seq<Choice>, b: seq<Choice>, c: seq<Choice>, h: seq<Choice>, k: seq<Choice>, m: nat, n: nat)
    requires Picked(a, b, h, m) && Picked(b, c, k, n)
    ensures Picked(a, c, h + k, m + n)
  {
    HitsJoin(b[|a|..], c[|b|..]);
    assert c[|a|..] == b[|a|..] + c[|b|..];
  }

  lemma PickedOne(a: seq<Choice>, r: Choice)
    ensures Picked(a, a + [r], if r.Route? then [r] else [], 1) && Picked(a, a, [], 0)
  {
    assert (a + [r])[|a|..] == [r] && [r][..0] == [] && a[|a|..] == [];
  }

  const MOST_SELECTIONS: nat := 25

  class Dispatcher {
    const router: ModelRouter
    /** The task of every attempt that has a broker session, and that holds a worker slot. */
    var sessions: map<string, string>
    var slots: map<string, string>
    /** Identities ever given to an attempt. */
    var issued: set<string>
    /** What was published, each signal with the task it is about. */
    ghost var bus: seq<(string, Signal)>

    ghost predicate Valid()
      reads this, router
    {
      router.Valid() && router.Tallied() && sessions.Keys <= issued && slots.Keys <= issued
    }

    constructor (router: ModelRouter)
      requires router.Valid() && router.Tallied()
      ensures Valid() && this.router == router && sessions == map[] && slots == map[] && bus == []
    {
      this.router := router;
      sessions, slots, issued, bus := map[], map[], {}, [];
    }

    method Publish(task: string, s: Signal)
      modifies this`bus
      ensures bus == old(bus) + [(task, s)] && Owned(bus, task) == old(Owned(bus, task)) + [s]
    {
      OwnedAppend(bus, task, s, task);
      bus := bus + [(task, s)];
    }

    /** What other tasks leave alone: the task's tracking, slots, signals and selections. Its
        sessions may be revoked from outside. */
    twostate predicate Untouched(task: string)
      reads this, router
    {
      && (task in router.tracked <==> task in old(router.tracked))
      && Mine(sessions, task) <= Mine(old(sessions), task) && Mine(slots, task) == Mine(old(slots), task)
      && Owned(bus, task) == Owned(old(bus), task)
      && Owned(router.selections, task) == Owned(old(router.selections), task)
      && old(issued) <= issued
    }

    /** Any number of steps of other tasks. Each of them follows the protocol that RunTask follows:
        it is not tracked when it selects a route, and its attempts have new identities. */
    method Others(task: string)
      requires Valid()
      modifies this`sessions, this`slots, this`issued, this`bus, router
      ensures Valid() && Untouched(task)
    {
      hide Charted, SameRoutes, CostsKnown, Tallies, DistinctKeys, Bounded, Spaced, Owned, Mine;
      var steps: nat :| true;
      for i := 0 to steps
        invariant Valid() && Untouched(task)
      {
        var other: string, id: string, s: Signal := *, *, *;
        if other != task {
          RouterStep(task, other);
          BrokerStep(task, other, id);
          OwnedAppend(bus, other, s, task);
          bus := bus + [(other, s)];
        }
      }
    }

    method BrokerStep(task: string, other: string, id: string)
      requires Valid() && other != task
      modifies this`sessions, this`slots, this`issued
      ensures Valid() && Untouched(task)
    {
      hide Charted, SameRoutes, CostsKnown, Tallies, DistinctKeys, Bounded, Spaced, Owned;
      if
      case id !in issued => issued, sessions := issued + {id}, sessions[id := other];
      case id in sessions && sessions[id] == other && id !in slots => slots := slots[id := other];
      case id in slots && slots[id] == other => slots := slots - {id};
      case true => sessions := sessions - {id};
    }

    /** One step of another task on the router. */
    method RouterStep(task: string, other: string)
      requires router.Valid() && router.Tallied() && other != task
      modifies router
      ensures router.Valid() && router.Tallied()
      ensures task in router.tracked <==> task in old(router.tracked)
      ensures Owned(router.selections, task) == old(Owned(router.selections, task))
    {
      hide Charted, SameRoutes, CostsKnown, Tallies, DistinctKeys, Bounded, Spaced, Owned;
      var q: Query, name: string, ok: bool, delay: nat, failure: Failure := *, *, *, *, *;
      var r;
      if
      case other !in router.tracked =>
        ghost var log := router.selections;
        r := router.SelectModel(other, q);
        OwnedAppend(log, other, r, task);
      case other !in router.tracked => router.TrackForcedModel(other, name);
      case true => router.Release(other);
      case true => router.UpdateProbability(name, other, ok);
      case true => router.PenalizeProvider(name, failure);
      case true => router.CoolProviderSlot(name, delay);
      case true => router.PenalizeModel(name);
      case true => router.LearnRequestLimit(name, delay);
    }

    /** Select a route, waiting at most 24 times while one may still become available. */
    method PickRoute(task: string, q: Query) returns (r: Choice)
      requires Valid() && task !in router.tracked
      modifies this`sessions, this`slots, this`issued, this`bus, router
      ensures Valid() && (r.Route? <==> task in router.tracked) && old(issued) <= issued
      ensures Mine(sessions, task) <= Mine(old(sessions), task) && Mine(slots, task) == Mine(old(slots), task)
      ensures Owned(bus, task) == old(Owned(bus, task))
      ensures Picked(old(Owned(router.selections, task)), Owned(router.selections, task), if r.Route? then [r] else [], MOST_SELECTIONS)
      ensures Permitted(r, router.routes, q.policy.excluded)
    {
      hide ModelRouter.Valid, ModelRouter.Tallied, Permitted, Owned, Mine, Picked;
      ghost var before := Owned(router.selections, task);
      r := Select(task, q);
      var tries := 0;
      while r.NoRoute?
        invariant Valid() && (r.Route? <==> task in router.tracked) && old(issued) <= issued
        invariant Mine(sessions, task) <= Mine(old(sessions), task) && Mine(slots, task) == Mine(old(slots), task)
        invariant Owned(bus, task) == old(Owned(bus, task))
        invariant tries <= 26
        invariant Picked(before, Owned(router.selections, task), if r.Route? then [r] else [], Least(tries, 24) + 1)
        invariant Permitted(r, router.routes, q.policy.excluded)
        decreases r.NoRoute?, 26 - tries
      {
        var a := router.RouteAvailability(q);
        if a.potential == 0 { break; }
        tries := tries + 1;
        if tries > 24 { break; }
        var cancelled: bool := *;
        if cancelled {
          PickedWithin(before, Owned(router.selections, task), [], tries, 25);
          tries := 25;
          continue;
        }
        ghost var sofar := Owned(router.selections, task);
        Others(task);
        r := Select(task, q);
        assert [] + (if r.Route? then [r] else []) == if r.Route? then [r] else [];
        PickedMore(before, sofar, Owned(router.selections, task), [], if r.Route? then [r] else [], tries, 1);
      }
      PickedWithin(before, Owned(router.selections, task), if r.Route? then [r] else [], Least(tries, 24) + 1, MOST_SELECTIONS);
    }

    method Select(task: string, q: Query) returns (r: Choice)
      requires Valid() && task !in router.tracked
      modifies router
      ensures Valid() && (r.Route? <==> task in router.tracked)
      ensures Picked(old(Owned(router.selections, task)), Owned(router.selections, task), if r.Route? then [r] else [], 1)
      ensures Permitted(r, router.routes, q.policy.excluded)
    {
      hide Charted, SameRoutes, CostsKnown, Tallies, DistinctKeys, Bounded, Spaced, SameOdds, Defaulted, Picked, Owned;
      ghost var all, v, inFlight := Elements(router.catalogue), router.Sight(), router.inFlight;
      ghost var log := router.selections;
      r := router.SelectModel(task, q);
      OwnedAppend(log, task, r, task);
      PickedOne(Owned(log, task), r);
      NeverExcluded(all, v.(now := router.time), q, router.capacity, inFlight, r);
      if r.Route? { SameFamily(router.routes, router.catalogue, r.model); }
    }

    /** A new identity. */
    method NewAttempt() returns (id: string)
      requires Valid()
      modifies this`issued
      ensures Valid() && id !in old(issued) && id != "" && issued == old(issued) + {id}
    {
      FreshName(issued);
      id :| id !in issued && id != "";
      issued := issued + {id};
    }

    /** One attempt of a worker: a session, a slot, the work, and both given back. */
    method RunAttempt(task: string, attempt: string, outcome: Ended) returns (ended: Option)
      requires Valid() && attempt in issued && attempt !in sessions && attempt !in slots
      requires Mine(sessions, task) == {} == Mine(slots, task)
      modifies this`sessions, this`slots, this`issued, this`bus, router
      ensures Valid() && Untouched(task)
      ensures ended.Some? ==> ended.value == outcome
    {
      hide Charted, SameRoutes, CostsKnown, Tallies, DistinctKeys, Bounded, Spaced, Owned;
      var began: bool := *;
      if !began { return None; }
      sessions := sessions[attempt := task];
      assert Mine(sessions, task) == {attempt} && Mine(slots, task) == {};
      Others(task);
      var admitted: bool := *;
      if !admitted {
        sessions := sessions - {attempt};
        return None;
      }
      slots := slots[attempt := task];
      assert Mine(slots, task) == {attempt};
      Others(task);
      slots := slots - {attempt};
      sessions := sessions - {attempt};
      return Some(outcome);
    }

    /** The route of a forced model, by key or by name. */
    method FindModel(name: string) returns (r: Choice)
      ensures r == FirstNamed(router.catalogue, name)
    {
      for i := 0 to |router.catalogue|
        invariant FirstNamed(router.catalogue[i..], name) == FirstNamed(router.catalogue, name)
      {
        assert router.catalogue[i..][1..] == router.catalogue[i + 1..];
        if Key(router.catalogue[i]) == name || router.catalogue[i].id == name { return Route(router.catalogue[i]); }
      }
      return NoRoute;
    }

    /** What a retryable failure teaches the router, and the task about the model's other routes. */
    method Penalize(routes: RetryRoutes, r: Choice, d: Disposition)
      requires router.Valid() && router.Tallied()
      modifies router, routes`policy
      ensures routes.policy.excluded == old(routes.policy.excluded)
        + (if r.Route? && Outgrown(d, old(routes.policy.minTokens)) then Family(router.routes, r.model) else {})
      ensures routes.policy == old(routes.policy).(excluded := routes.policy.excluded)
      ensures router.Valid() && router.Tallied() && router.tracked == old(router.tracked)
      ensures router.selections == old(router.selections)
      ensures router.capacity == if r.Route? && d.penalizeProvider && r.model.apiKeyEnv != "" && Reported(d) == RateLimit
                                 then Halved(old(router.capacity), old(router.penaltyUntil), r.model.apiKeyEnv, router.time)
                                 else old(router.capacity)
    {
      hide Charted, SameRoutes, CostsKnown, Tallies, DistinctKeys, Bounded, Spaced;
      if r.NoRoute? { return; }
      if d.penalizeProvider {
        if r.model.apiKeyEnv != "" { router.PenalizeProvider(r.model.apiKeyEnv, Reported(d)); }
      } else if d.disableModel {
        router.PenalizeModel(r.model.id);
      } else if d.category == ModelRequest && d.requestLimit > 0 {
        router.LearnRequestLimit(Key(r.model), d.requestLimit);
        if routes.policy.minTokens > d.requestLimit {
          var siblings := router.RoutesOfModel(r.model);
          routes.Exclude(siblings);
        }
      }
      if d.category == ProviderTransient || d.category == AttemptTimeout {
        router.CoolProviderSlot(Slot(r.model), 60);
      }
    }

    /** What follows a failed attempt: stop, or go on with the next one, untracked. */
    method Conclude(t: Task, routes: RetryRoutes, r: Choice, ended: Ended) returns (again: bool)
      requires Valid()
      modifies router, routes
      ensures Valid() && router.selections == old(router.selections)
      ensures again ==> t.id !in router.tracked && !t.forced && Retryable(ended)
      ensures routes.policy.minTokens == old(routes.policy.minTokens)
      ensures again ==> Records(r, ended, routes.policy.minTokens, router.routes, old(routes.policy.excluded), old(routes.limits),
                                routes.policy.excluded, routes.limits)
    {
      hide Charted, SameRoutes, CostsKnown, Tallies, DistinctKeys, Bounded, Spaced, Key;
      again := false;
      if !ended.Failed? || !ended.disposition.retryable { return; }
      if !t.forced {
        var adjusted := routes.RecordFailure(r, ended.disposition);
        if adjusted {
          router.Release(t.id);
          return true;
        }
      }
      Penalize(routes, r, ended.disposition);
      router.UpdateProbability(t.agent, t.id, false);
      again := !t.forced;
    }

    /** The route of the next attempt: the task's own choice, the forced model on the first attempt,
        or none for a deterministic worker. */
    method Prepare(t: Task, policy: RoutePolicy, number: nat, model: Choice) returns (ready: bool, route: Choice)
      requires Valid() && t.id !in router.tracked
      modifies this`sessions, this`slots, this`issued, this`bus, router
      ensures Valid() && old(issued) <= issued && Owned(bus, t.id) == old(Owned(bus, t.id))
      ensures Mine(sessions, t.id) <= Mine(old(sessions), t.id) && Mine(slots, t.id) == Mine(old(slots), t.id)
      ensures Picked(old(Owned(router.selections, t.id)), Owned(router.selections, t.id),
                     if Selecting(t) && ready then [route] else [], MOST_SELECTIONS)
      ensures Selecting(t) && ready ==> route.Route? && Permitted(route, router.routes, policy.excluded)
      ensures t.deterministic ==> route == model
      ensures !Selecting(t) ==> Owned(router.selections, t.id) == old(Owned(router.selections, t.id))
    {
      hide Charted, SameRoutes, CostsKnown, Tallies, DistinctKeys, Bounded, Spaced, Key, Owned, Mine;
      PickedNone(Owned(router.selections, t.id), MOST_SELECTIONS);
      Others(t.id);
      ready, route := true, model;
      if Selecting(t) {
        ghost var before := Owned(router.selections, t.id);
        route := PickRoute(t.id, Query(t.agent, t.tier, 0.90, t.modality, policy));
        ready := route.Route?;
      } else if !t.deterministic && number == 1 {
        route := FindModel(t.forcedName);
        router.TrackForcedModel(t.id, t.forcedName);
      }
    }

    /** One round of the loop. */
    method TryOnce(t: Task, routes: RetryRoutes, number: nat, model: Choice, outcome: Ended) returns (step: Step, route: Choice)
      requires Valid() && t.id !in router.tracked && Mine(sessions, t.id) == {} == Mine(slots, t.id)
      modifies this`sessions, this`slots, this`issued, this`bus, router, routes
      ensures Valid() && old(issued) <= issued && Mine(sessions, t.id) == {} == Mine(slots, t.id)
      ensures step.Attempted? ==> step.id !in old(issued) && step.id in issued
      ensures Owned(bus, t.id) == old(Owned(bus, t.id)) + Round(step, number, route)
      ensures Picked(old(Owned(router.selections, t.id)), Owned(router.selections, t.id),
                     if Selecting(t) && step.Attempted? then [route] else [], MOST_SELECTIONS)
      ensures Selecting(t) && step.Attempted? ==> route.Route? && Permitted(route, router.routes, old(routes.policy.excluded))
      ensures t.deterministic ==> route == model
      ensures !Selecting(t) ==> Owned(router.selections, t.id) == old(Owned(router.selections, t.id))
      ensures step.succeeded ==> outcome.Success? && t.id !in router.tracked && !step.again
      ensures step.again ==> step.Attempted? && t.id !in router.tracked && !t.forced && Retryable(outcome)
      ensures routes.policy.minTokens == old(routes.policy.minTokens)
      ensures step.again ==> Records(route, outcome, routes.policy.minTokens, router.routes, old(routes.policy.excluded),
                                     old(routes.limits), routes.policy.excluded, routes.limits)
    {
      hide ModelRouter.Valid, ModelRouter.Tallied, Key, Owned, Mine, Picked, Records;
      step := NotStarted(false, false);
      var ready;
      ready, route := Prepare(t, routes.policy, number, model);
      NothingMine(sessions, slots, t.id);
      if !ready { return; }
      var id := NewAttempt();
      Publish(t.id, AttemptStarted(id, number, route));
      var ended := RunAttempt(t.id, id, outcome);
      NothingMine(sessions, slots, t.id);
      var cancelled: bool := *;
      var succeeded := ended.Some? && !cancelled && ended.value.Success?;
      Publish(t.id, AttemptFinished(id, succeeded));
      step := Attempted(id, succeeded, false);
      if ended.None? { return; }
      routes.Started(route);
      if cancelled { return; }
      if succeeded {
        router.UpdateProbability(t.agent, t.id, true);
        return;
      }
      var again := Conclude(t, routes, route, ended.value);
      step := step.(again := again);
    }

    /** All attempts of one task. Whatever the other tasks, the workers, the broker, the providers
        and the user do: the task ends untracked and every counter still equals the number of
        tracked tasks; no session or slot of the task survives; listeners see each attempt start
        once and finish once under a new identity, at most the allowed number of them, and then
        exactly one verdict, which is success only after an attempt that succeeded; another attempt
        follows only a failure that is safe to retry; the attempts use exactly the routes selected
        for the task, at most 25 selections each, and never one that an earlier attempt excluded, for
        itself or with all routes to its model. */
    method RunTask(t: Task, minTokens: nat, requestedRetries: int, devicesAdmitted: bool, outcomes: seq<Ended>)
      requires Valid() && t.id !in router.tracked && Mine(sessions, t.id) == {} == Mine(slots, t.id)
      modifies this`sessions, this`slots, this`issued, this`bus, router
      ensures Valid() && t.id !in router.tracked && Mine(sessions, t.id) == {} == Mine(slots, t.id)
      ensures old(Owned(bus, t.id)) <= Owned(bus, t.id)
      ensures var signals := Owned(bus, t.id)[|old(Owned(bus, t.id))|..];
        && Conversation(signals, Clamp(requestedRetries), outcomes)
        && (t.forced ==> |Starts(signals)| <= 1)
        && (forall a | a in Identities(signals) :: a !in old(issued))
        && (!t.forced ==> NeverReused(Starts(signals), outcomes, minTokens))
        && Picked(old(Owned(router.selections, t.id)), Owned(router.selections, t.id),
                  if Selecting(t) then Starts(signals) else [], MOST_SELECTIONS * Clamp(requestedRetries))
    {
      hide ModelRouter.Valid, ModelRouter.Tallied, Key, Owned, Mine, Picked;
      hide NeverReused, Talking, Winning, Conversation, Starts, Identities;
      ghost var before, picked := Owned(bus, t.id), Owned(router.selections, t.id);
      var max, last, completed := Clamp(requestedRetries), "", false;
      ghost var said: seq<Signal>, n: nat := [], 0;
      if devicesAdmitted {
        last, completed, said, n := Attempts(t, minTokens, max, outcomes);
      } else {
        Beginning(outcomes, minTokens, picked);
        PickedWithin(picked, picked, [], 0, MOST_SELECTIONS * max);
        assert before + said == before;
      }
      router.Release(t.id);
      if completed {
        Publish(t.id, WorkerCompleted(last));
        EndsWell(said, n, last, outcomes, max);
        assert Owned(bus, t.id)[|before|..] == said + [WorkerCompleted(last)];
      } else {
        Publish(t.id, WorkerFailed(last));
        EndsFailed(said, n, last, outcomes, max);
        assert Owned(bus, t.id)[|before|..] == said + [WorkerFailed(last)];
      }
    }

    /** The loop over the attempts. */
    method Attempts(t: Task, minTokens: nat, max: nat, outcomes: seq<Ended>)
      returns (last: string, completed: bool, ghost said: seq<Signal>, ghost n: nat)
      requires Valid() && t.id !in router.tracked && Mine(sessions, t.id) == {} == Mine(slots, t.id) && max > 0
      modifies this`sessions, this`slots, this`issued, this`bus, router
      ensures Valid() && Mine(sessions, t.id) == {} == Mine(slots, t.id)
      ensures Owned(bus, t.id) == old(Owned(bus, t.id)) + said && n <= max && (t.forced ==> n <= 1) && n == |Starts(said)|
      ensures if completed then n > 0 && OutcomeOf(outcomes, n - 1).Success? && Winning(said, n, last, outcomes)
              else Talking(said, n, last, outcomes)
      ensures forall a | a in Identities(said) :: a !in old(issued)
      ensures !t.forced ==> NeverReused(Starts(said), outcomes, minTokens)
      ensures Picked(old(Owned(router.selections, t.id)), Owned(router.selections, t.id),
                     if Selecting(t) then Starts(said) else [], MOST_SELECTIONS * max)
    {
      hide ModelRouter.Valid, ModelRouter.Tallied, Key, Owned, Mine, Picked, Records;
      hide NeverReused, Remembers, Permitted, Talking, Winning, Round, Starts, Identities, Retryable, OutcomeOf;
      ghost var before, picked, spent: nat := Owned(bus, t.id), Owned(router.selections, t.id), 0;
      last, completed, said, n := "", false, [], 0;
      Beginning(outcomes, minTokens, picked);
      assert before + said == before;
      var routes := new RetryRoutes(minTokens);
      Blank(outcomes, minTokens, router.routes, routes.policy.excluded, routes.limits);
      var model, number := NoRoute, 1;
      while number <= max
        invariant 1 <= number <= max + 1 && n == number - 1 && Valid() && t.id !in router.tracked && !completed
        invariant fresh(routes) && Mine(sessions, t.id) == {} == Mine(slots, t.id) && old(issued) <= issued
        invariant Owned(bus, t.id) == before + said && n == |Starts(said)|
        invariant Talking(said, n, last, outcomes) && (n > 0 ==> Retryable(OutcomeOf(outcomes, n - 1)))
        invariant forall a | a in Identities(said) :: a !in old(issued) && a in issued
        invariant Picked(picked, Owned(router.selections, t.id), if Selecting(t) then Starts(said) else [], spent)
        invariant spent == MOST_SELECTIONS * n
        invariant !t.forced ==>
          && NeverReused(Starts(said), outcomes, minTokens)
          && Remembers(Starts(said), outcomes, minTokens, router.routes, routes.policy.excluded, routes.limits)
        invariant routes.policy.minTokens == minTokens
        invariant (t.forced ==> number == 1) && (t.deterministic ==> model == NoRoute)
        decreases max + 1 - number
      {
        var cancelled: bool := *;
        if cancelled { break; }
        ghost var sofar, excluded, limits := Owned(router.selections, t.id), routes.policy.excluded, routes.limits;
        ghost var starts, was := Starts(said), said;
        var step;
        step, model := TryOnce(t, routes, number, model, OutcomeOf(outcomes, number - 1));
        PickedMore(picked, sofar, Owned(router.selections, t.id), if Selecting(t) then starts else [],
                   if Selecting(t) && step.Attempted? then [model] else [], spent, MOST_SELECTIONS);
        RoundTalks(said, n, last, outcomes, step, number, model);
        said := said + Round(step, number, model);
        assert Owned(bus, t.id) == before + said;
        spent := spent + MOST_SELECTIONS;
        if step.NotStarted? {
          assert starts + [] == starts;
          break;
        }
        if !t.forced {
          NoneIsPermitted(router.routes, excluded);
          AnotherAttempt(starts, outcomes, minTokens, router.routes, model, excluded, limits);
        }
        n, last := n + 1, step.id;
        if step.succeeded {
          completed := true;
          break;
        }
        if !step.again { break; }
        if !t.forced {
          LedgerGrows(starts, outcomes, minTokens, router.routes, model, excluded, limits, routes.policy.excluded, routes.limits);
        }
        number := number + 1;
      }
      PickedWithin(picked, Owned(router.selections, t.id), if Selecting(t) then Starts(said) else [], spent, MOST_SELECTIONS * max);
    }
  }

  /** What stays the same over the attempts of a task. */
  datatype Task = Task(id: string, agent: string, tier: int, modality: string, forced: bool, forcedName: string, deterministic: bool)

  datatype Option = None | Some(value: Ended)

  datatype Step = NotStarted(succeeded: bool, again: bool) | Attempted(id: string, succeeded: bool, again: bool)

  /** The task looks for routes itself. */
  predicate Selecting(t: Task) {
    !t.deterministic && !t.forced
  }

  function Least(a: nat, b: nat): nat {
    if a < b then a else b
  }

  /** What one round publishes. */
  function Round(step: Step, number: nat, route: Choice): seq<Signal> {
    if step.NotStarted? then []
    else [AttemptStarted(step.id, number, route), AttemptFinished(step.id, step.succeeded)]
  }

  /** After `n` attempts, all but perhaps the last of which failed in a way that is safe to retry. */
  ghost predicate Talking(signals: seq<Signal>, n: nat, last: string, outcomes: seq<Ended>) {
    && Follow(signals) == Idle(n, last) && |Starts(signals)| == n == |Identities(signals)| && Distinct(Identities(signals))
    && forall j | 0 <= j && j + 1 < n :: Retryable(OutcomeOf(outcomes, j))
  }

  /** A complete conversation of at most `max` attempts. */
  ghost predicate Conversation(signals: seq<Signal>, max: nat, outcomes: seq<Ended>) {
    var over := Follow(signals);
    && over.Over? && |Starts(signals)| == over.attempts == |Identities(signals)| <= max && Distinct(Identities(signals))
    && (forall j | 0 <= j && j + 1 < over.attempts :: Retryable(OutcomeOf(outcomes, j)))
    && (over.completed ==> over.attempts > 0 && OutcomeOf(outcomes, over.attempts - 1).Success?)
  }

  lemma RoundTalks(said: seq<Signal>, n: nat, last: string, outcomes: seq<Ended>, step: Step, number: nat, route: Choice)
    requires Talking(said, n, last, outcomes) && number == n + 1 && (n > 0 ==> Retryable(OutcomeOf(outcomes, n - 1)))
    requires step.Attempted? ==> step.id !in Identities(said)
    ensures var after := said + Round(step, number, route);
      && (step.NotStarted? ==> after == said)
      && (step.Attempted? ==>
            && Starts(after) == Starts(said) + [route] && |Starts(said)| == n
            && Identities(after) == Identities(said) + [step.id]
            && (step.succeeded ==> Winning(after, n + 1, step.id, outcomes))
            && (!step.succeeded ==> Talking(after, n + 1, step.id, outcomes)))
  {
    hide Follow, Starts, Identities, Retryable, OutcomeOf;
    if step.Attempted? {
      var first := said + [AttemptStarted(step.id, number, route)];
      Followed(said, AttemptStarted(step.id, number, route));
      Followed(first, AttemptFinished(step.id, step.succeeded));
      assert first + [AttemptFinished(step.id, step.succeeded)] == said + Round(step, number, route);
    }
  }

  ghost predicate Winning(signals: seq<Signal>, n: nat, last: string, outcomes: seq<Ended>) {
    && Follow(signals) == Won(n, last) && |Starts(signals)| == n == |Identities(signals)| && Distinct(Identities(signals))
    && forall j | 0 <= j && j + 1 < n :: Retryable(OutcomeOf(outcomes, j))
  }

  lemma EndsWell(said: seq<Signal>, n: nat, last: string, outcomes: seq<Ended>, max: nat)
    requires Winning(said, n, last, outcomes) && 0 < n <= max && OutcomeOf(outcomes, n - 1).Success?
    ensures Conversation(said + [WorkerCompleted(last)], max, outcomes)
    ensures Starts(said + [WorkerCompleted(last)]) == Starts(said) && Identities(said + [WorkerCompleted(last)]) == Identities(said)
  {
    hide Follow, Starts, Identities, Retryable, OutcomeOf;
    Followed(said, WorkerCompleted(last));
  }

  lemma EndsFailed(said: seq<Signal>, n: nat, last: string, outcomes: seq<Ended>, max: nat)
    requires Talking(said, n, last, outcomes) && n <= max
    ensures Conversation(said + [WorkerFailed(last)], max, outcomes)
    ensures Starts(said + [WorkerFailed(last)]) == Starts(said) && Identities(said + [WorkerFailed(last)]) == Identities(said)
  {
    hide Follow, Starts, Identities, Retryable, OutcomeOf;
    Followed(said, WorkerFailed(last));
  }

  lemma PickedNone(a: seq<Choice>, limit: nat)
    ensures Picked(a, a, [], limit)
  {
    assert a[|a|..] == [];
  }

  lemma PickedWithin(a: seq<Choice>, b: seq<Choice>, hit: seq<Choice>, m: nat, n: nat)
    requires Picked(a, b, hit, m) && m <= n
    ensures Picked(a, b, hit, n)
  {
  }

  lemma NothingMine(sessions: map<string, string>, slots: map<string, string>, task: string)
    requires Mine(sessions, task) == {} == Mine(slots, task)
    ensures forall a | a in sessions :: sessions[a] != task
  {
    forall a | a in sessions ensures sessions[a] != task { assert a !in Mine(sessions, task); }
  }

  lemma Beginning(outcomes: seq<Ended>, minTokens: nat, picked: seq<Choice>)
    ensures Talking([], 0, "", outcomes) && Starts([]) == [] && Identities([]) == [] && NeverReused([], outcomes, minTokens)
    ensures Picked(picked, picked, [], 0)
  {
    PickedNone(picked, 0);
  }

  lemma Blank(outcomes: seq<Ended>, minTokens: nat, routes: seq<Model>, excluded: set<string>, limits: map<string, nat>)
    requires limits == map[]
    ensures Remembers([], outcomes, minTokens, routes, excluded, limits)
  {
  }

  function Reported(d: Disposition): Failure {
    match d.category
    case RateLimited => RateLimit
    case QuotaExceeded => QuotaSpent(d.resetAt)
    case AccessDenied => AccessRefused
    case _ => OtherFailure
  }

  lemma NeverExcluded(all: set<Model>, v: View, q: Query, capacity: map<string, int>, inFlight: map<string, int>, r: Choice)
    requires exists before :: Selects(all, v, q, before, capacity, inFlight, r)
    ensures r.Route? ==> Key(r.model) !in q.policy.excluded
  {
    var c := Candidates(all, v, q, capacity, inFlight);
    CandidatesAreRoutes(all, v, q, capacity, inFlight);
    NarrowedKeepsSome(c, v, q.policy);
    hide Candidates, Narrowed, Defaulted;
  }

  /** There is always a new name. */
  lemma FreshName(names: set<string>)
    ensures exists x: string :: x !in names && x != ""
  {
    var n := LengthBound(names);
    var x: string := seq(n + 1, _ => 'a');
    assert |x| == n + 1;
  }
}
