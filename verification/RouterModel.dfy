/** Model routes (runtime/routing/router.go, route_learning.go, models.go): when a route may serve
    a request, which routes a request may fall back to, and the order among the candidates. */
module RouterModel {
  import opened Collections

  datatype Model = Model(
    id: string, provider: string, apiKeyEnv: string, endpointEnv: string, modality: string,
    cost: real, capability: real, enabled: bool, cooldownUntil: nat)

  /** `retryAt` 0 is the zero time. */
  datatype KeyHealth = Healthy | RateLimited | AuthenticationFailed | QuotaExhausted(retryAt: nat)

  datatype Dead = Dead(provider: string, credential: string, until: nat)

  datatype RoutePolicy = RoutePolicy(
    excluded: set<string>, tried: set<string>, avoid: set<string>, preferredKey: string, minTokens: nat)

  datatype Query = Query(agent: string, tier: int, required: real, modality: string, policy: RoutePolicy)

  /** What selection reads of the router, at one clock reading. */
  datatype View = View(
    now: nat, nonChat: set<string>, health: map<string, KeyHealth>, unavailable: map<string, nat>,
    credentials: map<string, nat>, limits: map<string, nat>, dead: map<string, Dead>, succeeded: set<string>,
    matrix: map<(string, string), real>, learning: bool, textToCoding: bool)

  function Key(m: Model): string {
    if m.apiKeyEnv != "" then m.id + "|" + m.apiKeyEnv else m.id
  }

  function Slot(m: Model): string {
    if m.apiKeyEnv != "" then m.apiKeyEnv
    else if m.endpointEnv != "" then m.endpointEnv
    else if m.provider != "" then "provider:" + m.provider
    else "model:" + m.id
  }

  /** A missing counter reads as zero. */
  function At(counters: map<string, int>, slot: string): int {
    if slot in counters then counters[slot] else 0
  }

  predicate Until(times: map<string, nat>, key: string, now: nat) {
    key in times && now < times[key]
  }

  predicate KeyLocked(v: View, key: string) {
    key in v.health &&
    match v.health[key]
    case AuthenticationFailed => true
    case QuotaExhausted(retryAt) => retryAt == 0 || v.now < retryAt
    case _ => false
  }

  predicate ServesChat(v: View, m: Model) {
    m.modality == "image" || m.id !in v.nonChat
  }

  predicate RouteBlocked(v: View, m: Model, p: RoutePolicy) {
    || Until(v.unavailable, Key(m), v.now)
    || Until(v.credentials, m.apiKeyEnv, v.now)
    || (Key(m) in v.limits && 0 < v.limits[Key(m)] < p.minTokens)
  }

  predicate RouteAvailable(v: View, m: Model) {
    m.enabled && v.now >= m.cooldownUntil && !KeyLocked(v, m.apiKeyEnv)
  }

  predicate Available(v: View, m: Model, p: RoutePolicy) {
    Key(m) !in p.excluded && ServesChat(v, m) && RouteAvailable(v, m) && !RouteBlocked(v, m, p)
  }

  predicate Saturated(capacity: map<string, int>, inFlight: map<string, int>, m: Model) {
    At(capacity, Slot(m)) > 0 && At(inFlight, Slot(m)) >= At(capacity, Slot(m))
  }

  function Probability(v: View, agent: string, key: string): real {
    if (agent, key) in v.matrix then v.matrix[(agent, key)] else 0.90
  }

  predicate Confident(v: View, q: Query, m: Model) {
    !v.learning || Probability(v, q.agent, Key(m)) >= q.required || Key(m) == q.policy.preferredKey
  }

  function Wanted(q: Query): string {
    if q.modality == "" then "text" else q.modality
  }

  // ---------- the cascade ----------

  /** Routes open to the request, among those of the modalities allowed. */
  predicate Open(v: View, q: Query, capacity: map<string, int>, inFlight: map<string, int>, m: Model) {
    Available(v, m, q.policy) && !Saturated(capacity, inFlight, m)
  }

  ghost function OpenRoutes(all: set<Model>, v: View, q: Query, capacity: map<string, int>, inFlight: map<string, int>,
                            allowed: Model -> bool): set<Model> {
    set m | m in all && Open(v, q, capacity, inFlight, m) && allowed(m)
  }

  function Modality(modality: string): Model -> bool {
    (m: Model) => m.modality == modality
  }

  /** The last resort: another text model for text when coding models are not to be used, and
      anything but an image model otherwise. */
  function LastResort(textToCoding: bool, modality: string): Model -> bool {
    (m: Model) => if modality == "text" && !textToCoding then m.modality == "text" else m.modality != "image"
  }

  /** The candidates: the first nonempty stage of the cascade. */
  ghost function Candidates(all: set<Model>, v: View, q: Query, capacity: map<string, int>, inFlight: map<string, int>): set<Model> {
    var same := OpenRoutes(all, v, q, capacity, inFlight, Modality(Wanted(q)));
    var confident := set m | m in same && Confident(v, q, m);
    var text := OpenRoutes(all, v, q, capacity, inFlight, Modality("text"));
    var coding := OpenRoutes(all, v, q, capacity, inFlight, Modality("coding"));
    if confident != {} then confident
    else if same != {} then same
    else if Wanted(q) == "coding" && text != {} then text
    else if Wanted(q) == "text" && v.textToCoding && coding != {} then coding
    else if Wanted(q) == "image" then {}
    else OpenRoutes(all, v, q, capacity, inFlight, LastResort(v.textToCoding, Wanted(q)))
  }

  // ---------- preferences ----------

  ghost function Prefer(s: set<Model>, matches: Model -> bool): set<Model> {
    var preferred := set m | m in s && matches(m);
    if preferred != {} then preferred else s
  }

  function SuspectThreshold(): nat { 3 }

  function DeadRoutes(v: View, m: Model): set<string> {
    set k | k in v.dead && v.dead[k].provider == m.provider && v.dead[k].credential == m.apiKeyEnv && v.now < v.dead[k].until
  }

  predicate Trusted(v: View, m: Model) {
    |DeadRoutes(v, m)| < SuspectThreshold() || Key(m) in v.succeeded
  }

  function IsPreferred(p: RoutePolicy): Model -> bool {
    (m: Model) => Key(m) == p.preferredKey
  }

  function Untried(p: RoutePolicy): Model -> bool {
    (m: Model) => Key(m) !in p.tried
  }

  function Trust(v: View): Model -> bool {
    (m: Model) => Trusted(v, m)
  }

  function NotAvoided(p: RoutePolicy): Model -> bool {
    (m: Model) => m.provider !in p.avoid
  }

  ghost function Narrowed(s: set<Model>, v: View, p: RoutePolicy): set<Model> {
    if exists m :: m in s && IsPreferred(p)(m) then Prefer(s, IsPreferred(p))
    else Prefer(Prefer(Prefer(s, Untried(p)), Trust(v)), NotAvoided(p))
  }

  // ---------- the order among candidates ----------

  /** Strings compare position by position. */
  predicate LexLess(s: string, t: string) {
    t != "" && (s == "" || s[0] < t[0] || (s[0] == t[0] && LexLess(s[1..], t[1..])))
  }

  predicate Third(m: Model) {
    |m.apiKeyEnv| >= 2 && m.apiKeyEnv[|m.apiKeyEnv| - 2..] == "_3"
  }

  /** The comparator of the sort, branch by branch. */
  predicate Less(a: Model, b: Model) {
    if a.capability != b.capability then a.capability < b.capability
    else if a.cost == b.cost then
      if Third(a) && !Third(b) then true
      else if Third(b) && !Third(a) then false
      else LexLess(Key(a), Key(b))
    else if a.cost < 0.0 then false
    else if b.cost < 0.0 then true
    else a.cost < b.cost
  }

  ghost predicate CostsKnown(s: set<Model>) {
    forall m | m in s :: m.cost >= 0.0 || m.cost == -1.0
  }

  ghost predicate KeysDistinct(s: set<Model>) {
    forall a, b | a in s && b in s && Key(a) == Key(b) :: a == b
  }

  lemma {:induction false} LexTotal(s: string, t: string)
    ensures !LexLess(s, s)
    ensures s != t ==> LexLess(s, t) || LexLess(t, s)
    ensures !(LexLess(s, t) && LexLess(t, s))
  {
    if s != "" { LexTotal(s[1..], if t != "" then t[1..] else ""); }
    if s != "" && t != "" && s[0] == t[0] && s[1..] == t[1..] { assert s == [s[0]] + s[1..] == t; }
  }

  lemma {:induction false} LexTransitive(s: string, t: string, u: string)
    requires LexLess(s, t) && LexLess(t, u)
    ensures LexLess(s, u)
  {
    if s != "" && s[0] == t[0] && t[0] == u[0] { LexTransitive(s[1..], t[1..], u[1..]); }
  }

  /** On routes with distinct keys whose costs are known or -1 the comparator is a strict total
      order. */
  lemma LessIsTotal(s: set<Model>, a: Model, b: Model, c: Model)
    requires KeysDistinct(s) && CostsKnown(s) && a in s && b in s && c in s
    ensures !Less(a, a)
    ensures a != b ==> (Less(a, b) <==> !Less(b, a))
    ensures Less(a, b) && Less(b, c) ==> Less(a, c)
  {
    LexTotal(Key(a), Key(b));
    hide LexLess, Key, Third;
    if a.capability == b.capability == c.capability && a.cost == b.cost == c.cost && LexLess(Key(a), Key(b))
       && LexLess(Key(b), Key(c)) {
      LexTransitive(Key(a), Key(b), Key(c));
    }
    if a.capability == c.capability && a.cost == c.cost { LexTotal(Key(a), Key(c)); }
  }

  /** Costs below zero other than -1 would break the order: neither of two such routes comes first. */
  lemma StrayCostsDoNotCompare()
    ensures exists a: Model, b: Model :: Key(a) != Key(b) && !Less(a, b) && !Less(b, a)
  {
    var a := Model("a", "p", "", "", "text", -1.0, 1.0, true, 0);
    var b := Model("b", "p", "", "", "text", -2.0, 1.0, true, 0);
    assert Key(a)[0] != Key(b)[0];
    assert !Less(a, b) && !Less(b, a);
  }

  ghost function Before(s: set<Model>, m: Model): set<Model> {
    set c | c in s && Less(c, m)
  }

  function RoundAway(x: real): int {
    if x >= 0.0 then (x + 0.5).Floor else -((0.5 - x).Floor)
  }

  /** A fifth of the way through the candidates for each tier. */
  function Share(tier: int, count: nat): real
    requires count > 0
  {
    (tier as real * 0.2) * (count - 1) as real
  }

  function Index(tier: int, count: nat): nat
    requires count > 0
  {
    var i := RoundAway(Share(tier, count));
    if i < 0 then 0 else if i >= count then count - 1 else i
  }

  /** The route that has as many candidates before it as the effort tier asks for. */
  ghost predicate Ranked(m: Model, s: set<Model>, tier: int) {
    m in s && |Before(s, m)| == Index(tier, |s|)
  }

  lemma FewerBefore(s: set<Model>, a: Model, b: Model)
    requires KeysDistinct(s) && CostsKnown(s) && a in s && b in s && Less(a, b)
    ensures |Before(s, a)| < |Before(s, b)|
  {
    LessIsTotal(s, a, a, a);
    forall c | c in Before(s, a) ensures c in Before(s, b) - {a} { LessIsTotal(s, c, a, b); }
    SubsetSize(Before(s, a), Before(s, b) - {a});
  }

  /** The choice depends on the set of candidates only. */
  lemma RankedIsUnique(s: set<Model>, a: Model, b: Model, tier: int)
    requires KeysDistinct(s) && CostsKnown(s) && Ranked(a, s, tier) && Ranked(b, s, tier)
    ensures a == b
  {
    if a != b {
      LessIsTotal(s, a, b, b);
      if Less(a, b) { FewerBefore(s, a, b); } else { FewerBefore(s, b, a); }
    }
  }

  lemma IndexGrows(tier: int, higher: int, count: nat)
    requires count > 0 && tier <= higher
    ensures Index(tier, count) <= Index(higher, count)
  {
    Scaled(tier as real * 0.2, higher as real * 0.2, (count - 1) as real);
    RoundGrows(Share(tier, count), Share(higher, count));
    hide RoundAway, Share;
  }

  lemma Scaled(a: real, b: real, n: real)
    requires a <= b && n >= 0.0
    ensures a * n <= b * n
  {
  }

  lemma RoundGrows(a: real, b: real)
    requires a <= b
    ensures RoundAway(a) <= RoundAway(b)
  {
  }

  /** More effort never yields a less capable route. */
  lemma MoreEffortIsNotLess(s: set<Model>, a: Model, b: Model, tier: int, higher: int)
    requires KeysDistinct(s) && CostsKnown(s) && tier <= higher
    requires Ranked(a, s, tier) && Ranked(b, s, higher)
    ensures a.capability <= b.capability
  {
    IndexGrows(tier, higher, |s|);
    if b.capability < a.capability { FewerBefore(s, b, a); }
  }

  // ---------- capacity defaults ----------

  function DefaultCapacity(m: Model): int {
    if m.apiKeyEnv == "" then 2 else 50
  }

  /** Selection gives a slot without a capacity the default of one of its routes, if a route of the
      wanted modality is available there. */
  ghost predicate Defaulted(before: map<string, int>, after: map<string, int>, all: set<Model>, v: View, q: Query) {
    forall slot ::
      if At(before, slot) != 0 then At(after, slot) == At(before, slot)
      else
        || (exists m :: Asks(all, v, q, slot, m) && At(after, slot) == DefaultCapacity(m))
        || (At(after, slot) == 0 && forall m :: !Asks(all, v, q, slot, m))
  }

  ghost predicate Asks(all: set<Model>, v: View, q: Query, slot: string, m: Model) {
    m in all && Available(v, m, q.policy) && m.modality == Wanted(q) && Slot(m) == slot
  }

  /** No two enabled routes of one modality share a slot of which one has a credential variable and
      the other has not. Routes without a modality are never asked for. */
  ghost predicate SlotsTyped(all: set<Model>) {
    forall a, b | a in all && b in all && MayMeet(a, b) :: a.apiKeyEnv == "" <==> b.apiKeyEnv == ""
  }

  predicate MayMeet(a: Model, b: Model) {
    a.enabled && b.enabled && a.modality == b.modality != "" && Slot(a) == Slot(b)
  }

  lemma AskedIsEnabled(all: set<Model>, v: View, q: Query, slot: string, m: Model)
    requires Asks(all, v, q, slot, m)
    ensures m in all && m.enabled && m.modality == Wanted(q) != "" && Slot(m) == slot
  {
  }

  lemma DefaultsAreUnique(before: map<string, int>, a: map<string, int>, b: map<string, int>, all: set<Model>, v: View, q: Query)
    requires SlotsTyped(all) && Defaulted(before, a, all, v, q) && Defaulted(before, b, all, v, q)
    ensures forall slot :: At(a, slot) == At(b, slot)
  {
    hide Available, Slot;
    forall slot ensures At(a, slot) == At(b, slot) {
      if At(before, slot) == 0 && exists m :: Asks(all, v, q, slot, m) {
        var m :| Asks(all, v, q, slot, m) && At(a, slot) == DefaultCapacity(m);
        var n :| Asks(all, v, q, slot, n) && At(b, slot) == DefaultCapacity(n);
        AskedIsEnabled(all, v, q, slot, m);
        AskedIsEnabled(all, v, q, slot, n);
        assert MayMeet(m, n);
      }
    }
  }

  // ---------- selection as a relation ----------

  /** `r` is what selection may answer: the capacities it works with are defaulted, and its choice
      has its rank among the narrowed candidates. */
  ghost predicate Selects(all: set<Model>, v: View, q: Query, before: map<string, int>, after: map<string, int>,
                          inFlight: map<string, int>, r: Choice) {
    && Defaulted(before, after, all, v, q)
    && var s := Narrowed(Candidates(all, v, q, after, inFlight), v, q.policy);
    match r
    case NoRoute => s == {}
    case Route(m) => Ranked(m, s, q.tier)
  }

  datatype Choice = NoRoute | Route(model: Model)

  lemma PreferKeepsSome(s: set<Model>, matches: Model -> bool)
    ensures Prefer(s, matches) <= s && (s != {} ==> Prefer(s, matches) != {})
  {
  }

  lemma NarrowedKeepsSome(s: set<Model>, v: View, p: RoutePolicy)
    ensures Narrowed(s, v, p) <= s && (s != {} ==> Narrowed(s, v, p) != {})
  {
    PreferKeepsSome(s, IsPreferred(p));
    var t := Prefer(s, Untried(p));
    PreferKeepsSome(s, Untried(p));
    PreferKeepsSome(t, Trust(v));
    PreferKeepsSome(Prefer(t, Trust(v)), NotAvoided(p));
    hide Prefer, IsPreferred;
  }

  lemma OpenByCounters(all: set<Model>, v: View, q: Query, a: map<string, int>, b: map<string, int>,
                       inFlight: map<string, int>, allowed: Model -> bool)
    requires forall slot :: At(a, slot) == At(b, slot)
    ensures OpenRoutes(all, v, q, a, inFlight, allowed) == OpenRoutes(all, v, q, b, inFlight, allowed)
  {
    hide At, Available, Slot;
    forall m ensures Open(v, q, a, inFlight, m) == Open(v, q, b, inFlight, m) {}
  }

  lemma CandidatesByCounters(all: set<Model>, v: View, q: Query, a: map<string, int>, b: map<string, int>, inFlight: map<string, int>)
    requires forall slot :: At(a, slot) == At(b, slot)
    ensures Candidates(all, v, q, a, inFlight) == Candidates(all, v, q, b, inFlight)
  {
    OpenByCounters(all, v, q, a, b, inFlight, Modality(Wanted(q)));
    OpenByCounters(all, v, q, a, b, inFlight, Modality("text"));
    OpenByCounters(all, v, q, a, b, inFlight, Modality("coding"));
    OpenByCounters(all, v, q, a, b, inFlight, LastResort(v.textToCoding, Wanted(q)));
    hide OpenRoutes, Confident, Modality, LastResort;
  }

  /** Whatever order the catalogue is in and however it is sorted, the answer is the same. */
  lemma SelectionIsUnique(all: set<Model>, v: View, q: Query, before: map<string, int>, a: map<string, int>, b: map<string, int>,
                          inFlight: map<string, int>, r: Choice, r': Choice)
    requires KeysDistinct(all) && CostsKnown(all) && SlotsTyped(all)
    requires Selects(all, v, q, before, a, inFlight, r) && Selects(all, v, q, before, b, inFlight, r')
    ensures r == r'
  {
    DefaultsAreUnique(before, a, b, all, v, q);
    CandidatesByCounters(all, v, q, a, b, inFlight);
    CandidatesAreRoutes(all, v, q, a, inFlight);
    var c := Candidates(all, v, q, a, inFlight);
    NarrowedKeepsSome(c, v, q.policy);
    hide Candidates, Narrowed, Defaulted;
    if r.Route? && r'.Route? {
      RankedIsUnique(Narrowed(c, v, q.policy), r.model, r'.model, q.tier);
    }
  }

  lemma CandidatesAreRoutes(all: set<Model>, v: View, q: Query, capacity: map<string, int>, inFlight: map<string, int>)
    ensures forall m | m in Candidates(all, v, q, capacity, inFlight) :: m in all && Open(v, q, capacity, inFlight, m)
  {
    hide Open, Confident;
  }

  // ---------- the second definition of eligibility ----------

  /** The modalities that the diagnostics accept for a request. */
  predicate Diagnosed(v: View, q: Query, m: Model) {
    if Wanted(q) == "coding" || (Wanted(q) == "text" && v.textToCoding) then m.modality != "image" else m.modality == Wanted(q)
  }

  predicate Potential(v: View, q: Query, m: Model) {
    m.enabled && Diagnosed(v, q, m) && ServesChat(v, m) && Key(m) !in q.policy.excluded && !RouteBlocked(v, m, q.policy)
  }

  predicate Eligible(v: View, q: Query, capacity: map<string, int>, inFlight: map<string, int>, m: Model) {
    Potential(v, q, m) && RouteAvailable(v, m) && !Saturated(capacity, inFlight, m)
  }

  ghost function EligibleRoutes(all: set<Model>, v: View, q: Query, capacity: map<string, int>, inFlight: map<string, int>): set<Model> {
    set m | m in all && Eligible(v, q, capacity, inFlight, m)
  }

  ghost predicate KnownModality(q: Query) {
    Wanted(q) == "text" || Wanted(q) == "coding" || Wanted(q) == "image"
  }

  lemma EligibleIsOpen(v: View, q: Query, capacity: map<string, int>, inFlight: map<string, int>, m: Model)
    ensures Eligible(v, q, capacity, inFlight, m) <==> Open(v, q, capacity, inFlight, m) && Diagnosed(v, q, m)
  {
  }

  /** Selection finds a route exactly when the diagnostics count one. For a modality that neither
      knows, this holds exactly when its own routes are open or no non-image route is. */
  lemma CandidatesExistIffEligible(all: set<Model>, v: View, q: Query, capacity: map<string, int>, inFlight: map<string, int>)
    ensures (Candidates(all, v, q, capacity, inFlight) != {} <==> EligibleRoutes(all, v, q, capacity, inFlight) != {})
       <==> (|| KnownModality(q)
             || OpenRoutes(all, v, q, capacity, inFlight, Modality(Wanted(q))) != {}
             || OpenRoutes(all, v, q, capacity, inFlight, LastResort(v.textToCoding, Wanted(q))) == {})
  {
    EligibleByModality(all, v, q, capacity, inFlight);
    StagesAreLast(all, v, q, capacity, inFlight);
    hide OpenRoutes, EligibleRoutes, Confident;
  }

  lemma EligibleByModality(all: set<Model>, v: View, q: Query, capacity: map<string, int>, inFlight: map<string, int>)
    ensures EligibleRoutes(all, v, q, capacity, inFlight)
         == OpenRoutes(all, v, q, capacity, inFlight,
              if Wanted(q) == "coding" || (Wanted(q) == "text" && v.textToCoding)
              then LastResort(v.textToCoding, Wanted(q)) else Modality(Wanted(q)))
  {
    forall m ensures Eligible(v, q, capacity, inFlight, m) <==> Open(v, q, capacity, inFlight, m) && Diagnosed(v, q, m) {
      EligibleIsOpen(v, q, capacity, inFlight, m);
    }
    hide Eligible, Open;
  }

  lemma StagesAreLast(all: set<Model>, v: View, q: Query, capacity: map<string, int>, inFlight: map<string, int>)
    ensures Wanted(q) == "coding" ==>
      OpenRoutes(all, v, q, capacity, inFlight, Modality("text"))
        <= OpenRoutes(all, v, q, capacity, inFlight, LastResort(v.textToCoding, Wanted(q)))
    ensures Wanted(q) == "text" && v.textToCoding ==>
      OpenRoutes(all, v, q, capacity, inFlight, Modality("coding"))
        <= OpenRoutes(all, v, q, capacity, inFlight, LastResort(v.textToCoding, Wanted(q)))
    ensures Wanted(q) == "text" || Wanted(q) == "coding" ==>
      OpenRoutes(all, v, q, capacity, inFlight, Modality(Wanted(q)))
        <= OpenRoutes(all, v, q, capacity, inFlight, LastResort(v.textToCoding, Wanted(q)))
    ensures Wanted(q) == "text" && !v.textToCoding ==>
      OpenRoutes(all, v, q, capacity, inFlight, Modality(Wanted(q)))
        == OpenRoutes(all, v, q, capacity, inFlight, LastResort(v.textToCoding, Wanted(q)))
  {
    hide Open;
  }

  /** With a known modality, selection answers NoRoute exactly when no route is eligible, and
      otherwise an eligible one. */
  lemma NoRouteIffNoneEligible(all: set<Model>, v: View, q: Query, before: map<string, int>, after: map<string, int>,
                               inFlight: map<string, int>, r: Choice)
    requires KnownModality(q) && Selects(all, v, q, before, after, inFlight, r)
    ensures r.NoRoute? <==> EligibleRoutes(all, v, q, after, inFlight) == {}
    ensures r.Route? ==> r.model in EligibleRoutes(all, v, q, after, inFlight)
  {
    CandidatesExistIffEligible(all, v, q, after, inFlight);
    var c := Candidates(all, v, q, after, inFlight);
    NarrowedKeepsSome(c, v, q.policy);
    CandidatesAreEligible(all, v, q, after, inFlight);
    hide Candidates, Narrowed, Defaulted, EligibleRoutes;
  }

  lemma CandidatesAreEligible(all: set<Model>, v: View, q: Query, capacity: map<string, int>, inFlight: map<string, int>)
    requires KnownModality(q)
    ensures Candidates(all, v, q, capacity, inFlight) <= EligibleRoutes(all, v, q, capacity, inFlight)
  {
    forall m ensures Eligible(v, q, capacity, inFlight, m) <==> Open(v, q, capacity, inFlight, m) && Diagnosed(v, q, m) {
      EligibleIsOpen(v, q, capacity, inFlight, m);
    }
    hide Eligible, Open, Confident;
  }

  /** Two answers that one and the same question may get. */
  ghost predicate Disagree(all: set<Model>, v: View, q: Query, before: map<string, int>, a: map<string, int>, b: map<string, int>,
                           inFlight: map<string, int>, r: Choice, r': Choice) {
    Selects(all, v, q, before, a, inFlight, r) && Selects(all, v, q, before, b, inFlight, r') && r != r'
  }

  /** No question has two answers, in whatever order the catalogue is. */
  ghost predicate OrderFree(all: set<Model>) {
    forall v, q, before, a, b, inFlight, r, r' :: !Disagree(all, v, q, before, a, b, inFlight, r, r')
  }

  /** The answer never depends on the order of the catalogue, for any question, exactly when no slot
      is shared by a keyed and an unkeyed enabled route of one modality. */
  lemma OrderFreeExactly(all: set<Model>)
    requires KeysDistinct(all) && CostsKnown(all)
    ensures OrderFree(all) <==> SlotsTyped(all)
  {
    hide Selects, KeysDistinct, CostsKnown, Disagree, Slot;
    if SlotsTyped(all) {
      forall v, q, before, a, b, inFlight, r, r' ensures !Disagree(all, v, q, before, a, b, inFlight, r, r') {
        TypedAgree(all, v, q, before, a, b, inFlight, r, r');
      }
    } else {
      var x, y :| x in all && y in all && MayMeet(x, y) && (x.apiKeyEnv == "") != (y.apiKeyEnv == "");
      var (a, b) := if x.apiKeyEnv != "" then (x, y) else (y, x);
      MixedSlotDisagrees(all, a, b);
      var q := OnlyBetween(all, a, b);
      assert Disagree(all, Calm(a, b), q, map[], map[Slot(a) := 2], map[Slot(a) := 50], map[Slot(a) := 2], NoRoute, Route(a));
    }
  }

  lemma TypedAgree(all: set<Model>, v: View, q: Query, before: map<string, int>, a: map<string, int>, b: map<string, int>,
                   inFlight: map<string, int>, r: Choice, r': Choice)
    requires KeysDistinct(all) && CostsKnown(all) && SlotsTyped(all)
    ensures !Disagree(all, v, q, before, a, b, inFlight, r, r')
  {
    hide Selects, SlotsTyped, KeysDistinct, CostsKnown;
    if Disagree(all, v, q, before, a, b, inFlight, r, r') {
      SelectionIsUnique(all, v, q, before, a, b, inFlight, r, r');
    }
  }

  /** A question that only two routes may answer, of which the first is preferred. */
  ghost function OnlyBetween(all: set<Model>, a: Model, b: Model): Query {
    Query("", 0, 0.0, a.modality, RoutePolicy(set m | m in all && m != a && m != b :: Key(m), {}, {}, Key(a), 0))
  }

  /** Nothing is known against any route, and the cooldowns of both are over. */
  function Calm(a: Model, b: Model): View {
    View(a.cooldownUntil + b.cooldownUntil, {}, map[], map[], map[], map[], map[], {}, map[], true, false)
  }

  /** Such a slot has two possible defaults. With two tasks in flight there is a route under one of
      them and none under the other. */
  lemma MixedSlotDisagrees(all: set<Model>, a: Model, b: Model)
    requires KeysDistinct(all) && a in all && b in all && MayMeet(a, b) && a.apiKeyEnv != "" && b.apiKeyEnv == ""
    ensures Disagree(all, Calm(a, b), OnlyBetween(all, a, b), map[], map[Slot(a) := 2], map[Slot(a) := 50], map[Slot(a) := 2],
                     NoRoute, Route(a))
  {
    OnlyTheTwo(all, a, b);
    MixedDefaults(all, a, b, 2);
    MixedDefaults(all, a, b, 50);
    MixedCandidates(all, a, b);
    MixedChoice(all, a, b);
    hide Candidates, Narrowed, Defaulted, Key, Slot, MayMeet, KeysDistinct, Ranked, OnlyBetween;
  }

  lemma OnlyTheTwo(all: set<Model>, a: Model, b: Model)
    requires KeysDistinct(all) && a in all && b in all && MayMeet(a, b) && a.apiKeyEnv != "" && b.apiKeyEnv == ""
    ensures forall m | m in all :: Available(Calm(a, b), m, OnlyBetween(all, a, b).policy) <==> m == a || m == b
    ensures Key(a) != Key(b) && Wanted(OnlyBetween(all, a, b)) == a.modality
  {
    hide Key, Slot;
    var v, p := Calm(a, b), OnlyBetween(all, a, b).policy;
    forall m | m in all ensures Available(v, m, p) <==> m == a || m == b {
      assert ServesChat(v, m) && !RouteBlocked(v, m, p) && !KeyLocked(v, m.apiKeyEnv);
      if m != a && m != b { assert Key(m) in p.excluded; }
    }
  }

  lemma MixedDefaults(all: set<Model>, a: Model, b: Model, capacity: int)
    requires a in all && b in all && MayMeet(a, b) && a.apiKeyEnv != "" && b.apiKeyEnv == "" && (capacity == 2 || capacity == 50)
    requires forall m | m in all :: Available(Calm(a, b), m, OnlyBetween(all, a, b).policy) <==> m == a || m == b
    requires Wanted(OnlyBetween(all, a, b)) == a.modality
    ensures Defaulted(map[], map[Slot(a) := capacity], all, Calm(a, b), OnlyBetween(all, a, b))
  {
    hide Available, Slot, Key, OnlyBetween;
    var v, q := Calm(a, b), OnlyBetween(all, a, b);
    assert Asks(all, v, q, Slot(a), a) && Asks(all, v, q, Slot(a), b);
    assert DefaultCapacity(a) == 50 && DefaultCapacity(b) == 2;
  }

  lemma MixedCandidates(all: set<Model>, a: Model, b: Model)
    requires a in all && b in all && MayMeet(a, b)
    requires forall m | m in all :: Available(Calm(a, b), m, OnlyBetween(all, a, b).policy) <==> m == a || m == b
    requires Wanted(OnlyBetween(all, a, b)) == a.modality
    ensures Candidates(all, Calm(a, b), OnlyBetween(all, a, b), map[Slot(a) := 2], map[Slot(a) := 2]) == {}
    ensures Candidates(all, Calm(a, b), OnlyBetween(all, a, b), map[Slot(a) := 50], map[Slot(a) := 2]) == {a, b}
  {
    var v, q := Calm(a, b), OnlyBetween(all, a, b);
    assert q.required == 0.0;
    hide Available, Slot, OnlyBetween;
    forall m | m in all
      ensures !Open(v, q, map[Slot(a) := 2], map[Slot(a) := 2], m)
      ensures Open(v, q, map[Slot(a) := 50], map[Slot(a) := 2], m) <==> m == a || m == b {}
    assert forall m :: Confident(v, q, m);
    hide Open, Confident;
    assert OpenRoutes(all, v, q, map[Slot(a) := 50], map[Slot(a) := 2], Modality(Wanted(q))) == {a, b};
    var same := OpenRoutes(all, v, q, map[Slot(a) := 50], map[Slot(a) := 2], Modality(Wanted(q)));
    assert (set m | m in same && Confident(v, q, m)) == {a, b};
    assert a in {a, b};
  }

  lemma MixedChoice(all: set<Model>, a: Model, b: Model)
    requires Key(a) != Key(b)
    ensures Narrowed({}, Calm(a, b), OnlyBetween(all, a, b).policy) == {}
    ensures Narrowed({a, b}, Calm(a, b), OnlyBetween(all, a, b).policy) == {a}
    ensures Ranked(a, {a}, 0) && OnlyBetween(all, a, b).tier == 0
  {
    var p := OnlyBetween(all, a, b).policy;
    LexTotal(Key(a), Key(a));
    hide Key, LexLess;
    assert IsPreferred(p)(a) && !IsPreferred(p)(b);
    assert (set m | m in {a, b} && IsPreferred(p)(m)) == {a};
    assert !Less(a, a);
    assert Before({a}, a) == {};
  }
}
