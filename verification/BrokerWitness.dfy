/** The converse of the separation: an outside request, be it a finish or a reconciliation, that
    settles a record between the intent and the entry of its call can be followed by two entries of which the first is unresolved. */
module BrokerWitness {
  import opened Collections
  import opened Storage
  import opened EffectModel
  import opened BrokerModel
  import opened BrokerSafety
  import opened BrokerSlots

  /** An adapter was entered twice for one operation, the first time without a resolution. */
  ghost predicate Overlapping(b: Broker) {
    exists i, k :: 0 <= i < k < |b.entries| && Overlaps(b, i, k)
  }

  ghost predicate Overlaps(b: Broker, i: nat, k: nat)
    requires i < |b.entries| && k < |b.entries|
  {
    && b.entries[i].op == b.entries[k].op
    && b.entries[i].id in b.journal.disk && Unresolved(b.journal.disk[b.entries[i].id])
  }

  // ---------- runs from the front ----------

  function Play(b: Broker, events: seq<Event>): Broker
    decreases |events|
  {
    if events == [] then b else Play(Step(b, events[0]), events[1..])
  }

  lemma {:induction false} PlayIsRun(b: Broker, done: seq<Event>, events: seq<Event>)
    ensures Run(b, done + events) == Play(Run(b, done), events)
    decreases |events|
  {
    hide Step;
    if events == [] {
      assert done + events == done;
    } else {
      assert (done + [events[0]])[..|done|] == done;
      PlayIsRun(b, done + [events[0]], events[1..]);
      assert done + [events[0]] + events[1..] == done + events;
    }
  }

  lemma PlayFromStart(b: Broker, events: seq<Event>)
    ensures Run(b, events) == Play(b, events)
  {
    hide Step, Play;
    PlayIsRun(b, [], events);
    assert [] + events == events;
  }

  lemma PlayStep(b: Broker, e: Event, rest: seq<Event>)
    ensures Play(b, [e] + rest) == Play(Step(b, e), rest)
  {
    assert ([e] + rest)[1..] == rest;
  }

  // ---------- driving a new call up to its intent ----------

  function Id(a: string): string {
    a + "/" + "1"
  }

  function NewRef(b: Broker): Ref {
    Ref(b.nextSession, "1")
  }

  /** A new attempt can bring a call of this operation up to its intent without waiting. */
  ghost predicate Clear(b: Broker, a: string, op: Operation) {
    && b.journal.alive && b.journal.plan == [] && b.journal.records == b.journal.disk && !b.failed
    && a !in b.current && CallIdentified(Id(a), a, op) && Id(a) !in b.journal.records && !BlockedBy(b.journal.records, op)
    && b.nextSession !in b.sessions && NewRef(b) !in b.calls
    && b.slots.globalUsed < GLOBAL_SLOTS && Used(b.slots.sessionUsed, b.nextSession) < SESSION_SLOTS
    && Used(b.slots.adapterUsed, op.adapter) < ADAPTER_SLOTS
  }

  function Opened(b: Broker, a: string, op: Operation): Broker {
    b.(sessions := b.sessions[b.nextSession := Session(a, op.execution, op.task, false, false)],
       current := b.current[a := b.nextSession], nextSession := b.nextSession + 1)
  }

  /** The new call at a phase, holding slots. */
  function At(b: Broker, a: string, op: Operation, phase: Phase, slots: Slots): Broker {
    Opened(b, a, op).(calls := b.calls[NewRef(b) := Call(Id(a), op, phase, false)], slots := slots)
  }

  function Slots1(b: Broker): Slots {
    b.slots.(globalUsed := b.slots.globalUsed + 1)
  }

  function Slots2(b: Broker): Slots {
    var n := b.nextSession;
    Slots1(b).(sessionUsed := b.slots.sessionUsed[n := Used(b.slots.sessionUsed, n) + 1])
  }

  function Slots3(b: Broker, adapter: string): Slots {
    Slots2(b).(adapterUsed := b.slots.adapterUsed[adapter := Used(b.slots.adapterUsed, adapter) + 1])
  }

  function Driven(b: Broker, a: string, op: Operation): Broker {
    var records := b.journal.records[Id(a) := Record(Id(a), a, op, "", EffectRunning)];
    At(b, a, op, Intended, Slots3(b, op.adapter))
      .(journal := Journal(records, records, true, []), intents := b.intents + {Id(a)})
  }

  function DriveEvents(b: Broker, a: string, op: Operation): seq<Event> {
    var r := NewRef(b);
    [BeginAttempt(a, op.execution, op.task)] + ([HandleCall(r, op.adapter, op.target, op.requestHash, true)] + ([TakeSlot(r)] +
      ([TakeSlot(r)] + ([TakeSlot(r)] + ([CheckAdmission(r)] + ([JournalIntent(r)] + []))))))
  }

  lemma Moved(b: Broker, a: string, op: Operation, p: Phase, q: Phase)
    ensures b.calls[NewRef(b) := Call(Id(a), op, p, false)][NewRef(b) := Call(Id(a), op, q, false)]
         == b.calls[NewRef(b) := Call(Id(a), op, q, false)]
  {
  }

  lemma DriveOpens(b: Broker, a: string, op: Operation)
    requires Clear(b, a, op)
    ensures var s := Step(b, BeginAttempt(a, op.execution, op.task));
      && s == Opened(b, a, op)
      && Step(s, HandleCall(NewRef(b), op.adapter, op.target, op.requestHash, true)) == At(b, a, op, WaitGlobal, b.slots)
  {
    hide BlockedBy;
  }

  lemma DriveTakesGlobal(b: Broker, a: string, op: Operation)
    requires Clear(b, a, op)
    ensures Step(At(b, a, op, WaitGlobal, b.slots), TakeSlot(NewRef(b))) == At(b, a, op, WaitSession, Slots1(b))
  {
    Moved(b, a, op, WaitGlobal, WaitSession);
    hide BlockedBy, Id;
  }

  lemma DriveTakesSession(b: Broker, a: string, op: Operation)
    requires Clear(b, a, op)
    ensures Step(At(b, a, op, WaitSession, Slots1(b)), TakeSlot(NewRef(b))) == At(b, a, op, WaitAdapter, Slots2(b))
  {
    Moved(b, a, op, WaitSession, WaitAdapter);
    hide BlockedBy, Id;
  }

  lemma DriveTakesAdapter(b: Broker, a: string, op: Operation)
    requires Clear(b, a, op)
    ensures Step(At(b, a, op, WaitAdapter, Slots2(b)), TakeSlot(NewRef(b))) == At(b, a, op, Holding, Slots3(b, op.adapter))
  {
    Moved(b, a, op, WaitAdapter, Holding);
    hide BlockedBy, Id;
  }

  lemma DriveAdmits(b: Broker, a: string, op: Operation)
    requires Clear(b, a, op)
    ensures Step(At(b, a, op, Holding, Slots3(b, op.adapter)), CheckAdmission(NewRef(b))) == At(b, a, op, Admitted, Slots3(b, op.adapter))
  {
    Moved(b, a, op, Holding, Admitted);
    hide BlockedBy, Id, Slots3;
  }

  lemma DriveJournals(b: Broker, a: string, op: Operation)
    requires Clear(b, a, op)
    ensures Step(At(b, a, op, Admitted, Slots3(b, op.adapter)), JournalIntent(NewRef(b))) == Driven(b, a, op)
  {
    Moved(b, a, op, Admitted, Intended);
    hide BlockedBy, Id, Slots3;
  }

  lemma Drive(b: Broker, a: string, op: Operation)
    requires Clear(b, a, op)
    ensures Play(b, DriveEvents(b, a, op)) == Driven(b, a, op)
  {
    DriveOpens(b, a, op);
    DriveTakesGlobal(b, a, op);
    DriveTakesSession(b, a, op);
    DriveTakesAdapter(b, a, op);
    DriveAdmits(b, a, op);
    DriveJournals(b, a, op);
    hide Step, At, Driven, Opened, Clear, Slots1, Slots2, Slots3;
    var r := NewRef(b);
    var e6 := [JournalIntent(r)] + [];
    var e5 := [CheckAdmission(r)] + e6;
    var e4 := [TakeSlot(r)] + e5;
    var e3 := [TakeSlot(r)] + e4;
    var e2 := [TakeSlot(r)] + e3;
    var e1 := [HandleCall(r, op.adapter, op.target, op.requestHash, true)] + e2;
    PlayStep(b, BeginAttempt(a, op.execution, op.task), e1);
    PlayStep(Opened(b, a, op), HandleCall(r, op.adapter, op.target, op.requestHash, true), e2);
    PlayStep(At(b, a, op, WaitGlobal, b.slots), TakeSlot(r), e3);
    PlayStep(At(b, a, op, WaitSession, Slots1(b)), TakeSlot(r), e4);
    PlayStep(At(b, a, op, WaitAdapter, Slots2(b)), TakeSlot(r), e5);
    PlayStep(At(b, a, op, Holding, Slots3(b, op.adapter)), CheckAdmission(r), e6);
    PlayStep(At(b, a, op, Admitted, Slots3(b, op.adapter)), JournalIntent(r), []);
  }

  // ---------- overtaking ----------

  /** There is room for one more call of this operation, and only record `id` could stand in its way. */
  ghost predicate Room(b: Broker, id: string, op: Operation) {
    && b.journal.alive && b.journal.plan == [] && !b.failed
    && b.slots.globalUsed < GLOBAL_SLOTS && Used(b.slots.adapterUsed, op.adapter) < ADAPTER_SLOTS
    && forall other | other in b.journal.records && Equivalent(b.journal.records[other], op) :: other == id
  }

  lemma FreshAttempt(b: Broker) returns (a: string)
    ensures a != "" && a !in b.current && Id(a) !in b.journal.records
  {
    var n := LengthBound(b.current.Keys + b.journal.records.Keys);
    a := seq(n + 1, _ => 'a');
    assert |a| == n + 1 && |Id(a)| == n + 3;
    assert a !in b.current.Keys && Id(a) !in b.journal.records.Keys;
  }

  /** Either request is a finish of the record. */
  lemma RequestFinishes(b: Broker, e: Event, id: string) returns (state: EffectState, externalId: string)
    requires b.journal.alive && Settles(b.journal, e, id)
    ensures TerminalState(state) && Step(b, e) == b.(journal := Finish(b.journal, id, state, externalId).0)
  {
    if e.ExternalFinish? { state, externalId := e.state, e.externalId; } else { state, externalId := e.observed, e.externalId; }
  }

  /** The premature request leaves everything but the record, and clears the way for its operation. */
  lemma Settled(b: Broker, ref: Ref, e: Event, a: string)
    requires Ledgered(b) && Gated(b) && Counted(b.calls, b.slots) && b.journal.alive
    requires ref in b.calls && Settles(b.journal, e, b.calls[ref].id)
    requires Approaching(b.calls[ref].phase) && Room(b, b.calls[ref].id, b.calls[ref].op)
    requires a != "" && a !in b.current && Id(a) !in b.journal.records
    ensures var t := Step(b, e);
      t == b.(journal := t.journal) && Clear(t, a, b.calls[ref].op)
  {
    var c := b.calls[ref];
    var state, externalId := RequestFinishes(b, e, c.id);
    hide Ledgered, Counted, Gated, Finish, BlockedBy, Equivalent, Unresolved, Id, TerminalState, Step, Settles;
    ApproachingFacts(b, ref);
    ApproachingIdentified(b, ref);
    ApproachingCall(b, ref);
    NoHolders(b);
    JournaledKnown(b);
    NonemptyId(a);
    RecordSettles(b.journal, c.id, c.op, state, externalId);
  }

  lemma NonemptyId(a: string)
    ensures Id(a) != ""
  {
    assert |Id(a)| == |a| + 2;
  }

  lemma ApproachingCall(b: Broker, ref: Ref)
    requires Gated(b) && ref in b.calls
    ensures b.calls[ref].op.execution != "" && b.calls[ref].op.task != ""
  {
    assert ref.session in b.sessions;
  }

  lemma RecordSettles(j: Journal, id: string, op: Operation, state: EffectState, externalId: string)
    requires j.alive && j.plan == [] && j.records == j.disk && id in j.records && Unresolved(j.records[id]) && TerminalState(state)
    requires forall other | other in j.records && Equivalent(j.records[other], op) :: other == id
    ensures var t := Finish(j, id, state, externalId).0;
      && t.alive && t.plan == [] && t.records == t.disk && t.records.Keys == j.records.Keys && !BlockedBy(t.records, op)
  {
    assert MayFinish(j, id, state);
    var t := Finish(j, id, state, externalId).0;
    assert t.records == j.records[id := j.records[id].(state := state, externalId := externalId)];
  }

  lemma ApproachingIdentified(b: Broker, ref: Ref)
    requires Ledgered(b) && b.journal.alive && ref in b.calls && Approaching(b.calls[ref].phase)
    ensures b.calls[ref].op.adapter != "" && b.calls[ref].op.target != "" && b.calls[ref].op.requestHash != ""
  {
    ApproachingFacts(b, ref);
    assert Identified(b.journal.disk[b.calls[ref].id]);
  }

  lemma NoHolders(b: Broker)
    requires Gated(b) && Counted(b.calls, b.slots)
    ensures b.nextSession !in b.sessions && NewRef(b) !in b.calls && Used(b.slots.sessionUsed, b.nextSession) == 0
  {
    assert SessionHolders(b.calls, b.nextSession) == {};
  }

  /** The new call enters first, and then the old one, whose record is settled already. */
  lemma BothEnter(b: Broker, ref: Ref, a: string)
    requires ref in b.calls && Approaching(b.calls[ref].phase) && ref.session in b.sessions && ref != NewRef(b)
    requires b.calls[ref].phase.Intended? ==> !b.calls[ref].cancelled
    requires Clear(b, a, b.calls[ref].op)
    ensures var t := Play(Driven(b, a, b.calls[ref].op), [InvokeAdapter(NewRef(b)), EnterAdapter(NewRef(b)), InvokeAdapter(ref), EnterAdapter(ref)]);
      Overlapping(t)
  {
    var c, n := b.calls[ref], NewRef(b);
    var d := Driven(b, a, c.op);
    var s1 := Step(d, InvokeAdapter(n));
    var s2 := Step(s1, EnterAdapter(n));
    NewEnters(b, ref, a);
    OldEnters(s2, ref);
    var s3 := Step(s2, InvokeAdapter(ref));
    var s4 := Step(s3, EnterAdapter(ref));
    hide Step, Driven, Clear;
    var rest := [InvokeAdapter(ref)] + ([EnterAdapter(ref)] + []);
    PlayStep(d, InvokeAdapter(n), [EnterAdapter(n)] + rest);
    PlayStep(s1, EnterAdapter(n), rest);
    PlayStep(s2, InvokeAdapter(ref), [EnterAdapter(ref)] + []);
    PlayStep(s3, EnterAdapter(ref), []);
    assert [InvokeAdapter(n)] + ([EnterAdapter(n)] + rest) == [InvokeAdapter(n), EnterAdapter(n), InvokeAdapter(ref), EnterAdapter(ref)];
    assert Overlaps(s4, |b.entries|, |b.entries| + 1);
  }

  lemma NewEnters(b: Broker, ref: Ref, a: string)
    requires ref in b.calls && ref.session in b.sessions && ref != NewRef(b) && Clear(b, a, b.calls[ref].op)
    ensures var c, n := b.calls[ref], NewRef(b);
      var t := Step(Step(Driven(b, a, c.op), InvokeAdapter(n)), EnterAdapter(n));
      && t.entries == b.entries + [Entry(n, Id(a), c.op)] && t.journal.alive
      && ref in t.calls && t.calls[ref] == c && ref.session in t.sessions
      && Id(a) in t.journal.disk && Unresolved(t.journal.disk[Id(a)])
  {
    hide BlockedBy, Slots3, Id;
  }

  lemma OldEnters(b: Broker, ref: Ref)
    requires b.journal.alive && ref in b.calls && ref.session in b.sessions && Approaching(b.calls[ref].phase)
    requires b.calls[ref].phase.Intended? ==> !b.calls[ref].cancelled
    ensures var t := Step(Step(b, InvokeAdapter(ref)), EnterAdapter(ref));
      t.entries == b.entries + [Entry(ref, b.calls[ref].id, b.calls[ref].op)] && t.journal == b.journal
  {
  }

  /** Every outside request that settles a record between the intent of its call and the entry breaks
      the separation in some continuation, if there is room for one more call and the context of the
      call is not done before it has been looked at. */
  lemma PrematureBreaks(b: Broker, ref: Ref, e: Event)
    requires Ledgered(b) && Gated(b) && Counted(b.calls, b.slots)
    requires ref in b.calls && Approaching(b.calls[ref].phase) && Settles(b.journal, e, b.calls[ref].id)
    requires Room(b, b.calls[ref].id, b.calls[ref].op)
    requires b.calls[ref].phase.Intended? ==> !b.calls[ref].cancelled
    ensures Premature(b, e)
    ensures exists events :: Overlapping(Run(Step(b, e), events))
  {
    NoHolders(b);
    var a := FreshAttempt(b);
    Settled(b, ref, e, a);
    hide Ledgered, Gated, Counted, Clear, Step, Overlapping, Settles, Room;
    Continues(Step(b, e), ref, a);
  }

  lemma Continues(t: Broker, ref: Ref, a: string)
    requires ref in t.calls && Approaching(t.calls[ref].phase) && ref.session in t.sessions && ref != NewRef(t)
    requires t.calls[ref].phase.Intended? ==> !t.calls[ref].cancelled
    requires Clear(t, a, t.calls[ref].op)
    ensures exists events :: Overlapping(Run(t, events))
  {
    var op := t.calls[ref].op;
    Drive(t, a, op);
    BothEnter(t, ref, a);
    hide Clear, Driven, DriveEvents, Step, Overlapping, Play, Run;
    var first := DriveEvents(t, a, op);
    var last := [InvokeAdapter(NewRef(t)), EnterAdapter(NewRef(t)), InvokeAdapter(ref), EnterAdapter(ref)];
    RunPlays(t, first, last);
    assert Overlapping(Run(t, first + last));
  }

  lemma RunPlays(b: Broker, first: seq<Event>, last: seq<Event>)
    ensures Run(b, first + last) == Play(Play(b, first), last)
  {
    hide Play, Run;
    PlayFromStart(b, first);
    PlayIsRun(b, first, last);
  }

  lemma BreaksAfter(first: seq<Event>, ref: Ref, e: Event)
    requires var d := Run(Boot([]), first);
      && Ledgered(d) && Gated(d) && Counted(d.calls, d.slots) && NewIntended(d, ref)
      && Settles(d.journal, e, d.calls[ref].id)
    ensures exists rest :: Overlapping(Run(Boot([]), first + [e] + rest))
  {
    var d := Run(Boot([]), first);
    hide Run, Step, Overlapping, Premature, Ledgered, Gated, Counted, Room, Settles;
    PrematureBreaks(d, ref, e);
    var rest :| Overlapping(Run(Step(d, e), rest));
    RunOne(Boot([]), first, e);
    RunJoins(Boot([]), first + [e], rest);
    assert Overlapping(Run(Boot([]), first + [e] + rest));
  }

  /** And there are such runs: from the start, one call up to its intent, the request, and the rest. */
  lemma OutsideFinishBreaksSeparation()
    ensures exists first, id, rest :: Overlapping(Run(Boot([]), first + [ExternalFinish(id, EffectSucceeded, "")] + rest))
  {
    var first := IntendedFromBoot();
    var d := Run(Boot([]), first);
    hide Run, Step, Overlapping, Ledgered, Gated, Counted, Room;
    var ref :| NewIntended(d, ref);
    var e := ExternalFinish(d.calls[ref].id, EffectSucceeded, "");
    BreaksAfter(first, ref, e);
    var rest :| Overlapping(Run(Boot([]), first + [e] + rest));
  }

  /** A report of uncertainty interrupts the record and leaves the call approaching. */
  lemma InterruptedIntent(d: Broker, ref: Ref)
    requires Ledgered(d) && NewIntended(d, ref)
    ensures var e := ExternalFinish(d.calls[ref].id, EffectInterrupted, "");
      var t := Step(d, e);
      && !Premature(d, e) && NewIntended(t, ref) && t.calls == d.calls && t.slots == d.slots
      && Settles(t.journal, ReconcileEffect(d.calls[ref].id, EffectSucceeded, ""), d.calls[ref].id)
  {
    var c := d.calls[ref];
    ApproachingFacts(d, ref);
    InterruptedRecord(d.journal, c.id, c.op);
    FinishStep(d, c.id, EffectInterrupted, "");
    UncertaintyIsTimely(d, c.id);
    hide Ledgered, Finish, Equivalent, Unresolved, Step, Approaching, Premature;
  }

  lemma UncertaintyIsTimely(b: Broker, id: string)
    ensures !Premature(b, ExternalFinish(id, EffectInterrupted, ""))
  {
  }

  lemma FinishStep(b: Broker, id: string, state: EffectState, externalId: string)
    requires b.journal.alive
    ensures Step(b, ExternalFinish(id, state, externalId)) == b.(journal := Finish(b.journal, id, state, externalId).0)
  {
  }

  lemma InterruptedRecord(j: Journal, id: string, op: Operation)
    requires j.alive && j.plan == [] && id in j.records && Unresolved(j.records[id])
    requires forall other | other in j.records && Equivalent(j.records[other], op) :: other == id
    ensures var t := Finish(j, id, EffectInterrupted, "").0;
      && t.alive && t.plan == [] && id in t.records && t.records[id].state == EffectInterrupted
      && forall other | other in t.records && Equivalent(t.records[other], op) :: other == id
  {
    assert MayFinish(j, id, EffectInterrupted);
    assert forall other | other in j.records && other != id :: !Equivalent(j.records[other], op);
  }

  /** There are runs in which the record was first interrupted and is then reconciled too early. */
  lemma OutsideReconciliationBreaksSeparation()
    ensures exists first, id, rest :: Overlapping(Run(Boot([]), first + [ReconcileEffect(id, EffectSucceeded, "")] + rest))
  {
    var start := IntendedFromBoot();
    var d := Run(Boot([]), start);
    hide Run, Step, Overlapping, Ledgered, Gated, Counted, Room, Premature, Settles;
    var ref :| NewIntended(d, ref);
    var id := d.calls[ref].id;
    var interruption := ExternalFinish(id, EffectInterrupted, "");
    InterruptedIntent(d, ref);
    RunOne(Boot([]), start, interruption);
    StepKeepsLedger(d, interruption);
    StepKeepsGate(d, interruption);
    BreaksAfter(start + [interruption], ref, ReconcileEffect(id, EffectSucceeded, ""));
    var first := start + [interruption];
    var rest :| Overlapping(Run(Boot([]), first + [ReconcileEffect(id, EffectSucceeded, "")] + rest));
  }

  lemma RunOne(b: Broker, first: seq<Event>, e: Event)
    ensures Run(b, first + [e]) == Step(Run(b, first), e)
  {
    assert (first + [e])[..|first|] == first;
  }

  lemma {:induction false} RunJoins(b: Broker, first: seq<Event>, rest: seq<Event>)
    ensures Run(b, first + rest) == Run(Run(b, first), rest)
  {
    hide Step;
    if rest == [] {
      assert first + rest == first;
    } else {
      RunJoins(b, first, rest[..|rest| - 1]);
      assert (first + rest)[..|first + rest| - 1] == first + rest[..|rest| - 1];
    }
  }

  /** The new call of a driven broker. */
  ghost predicate NewIntended(d: Broker, ref: Ref) {
    ref in d.calls && d.calls[ref].phase.Intended? && !d.calls[ref].cancelled && Room(d, d.calls[ref].id, d.calls[ref].op)
  }

  lemma BootDriven(a: string, op: Operation)
    requires a == "a" && op == Operation("x", "t", "adapter", "tool", "hash")
    ensures Clear(Boot([]), a, op) && NewIntended(Driven(Boot([]), a, op), NewRef(Boot([])))
  {
    assert |Id(a)| > 0 && !BlockedBy(map[], op);
    hide Id;
  }

  lemma IntendedFromBoot() returns (events: seq<Event>)
    ensures var d := Run(Boot([]), events);
      && Ledgered(d) && Gated(d) && Counted(d.calls, d.slots)
      && exists ref :: NewIntended(d, ref)
  {
    var b, a, op := Boot([]), "a", Operation("x", "t", "adapter", "tool", "hash");
    BootDriven(a, op);
    Drive(b, a, op);
    events := DriveEvents(b, a, op);
    Unhurried(b, a, op);
    hide Step, Driven, Clear, DriveEvents, NewIntended, Ledgered, Gated, Counted, Boot, Timely, Run, Play;
    RunStands(events);
    PlayFromStart(b, events);
    assert NewIntended(Run(b, events), NewRef(b));
  }

  lemma RunStands(events: seq<Event>)
    requires Timely(Boot([]), events)
    ensures var d := Run(Boot([]), events); Ledgered(d) && Gated(d) && Counted(d.calls, d.slots)
  {
    hide Step, Timely, Run;
    RunKeepsLedger(Boot([]), events);
    RunKeepsGate(Boot([]), events);
    SlotsConserved([], events, "");
  }

  lemma Unhurried(b: Broker, a: string, op: Operation)
    ensures Timely(b, DriveEvents(b, a, op))
  {
    hide Run, Step;
    var events := DriveEvents(b, a, op);
    forall i | 0 <= i < |events| ensures !Premature(Run(b, events[..i]), events[i]) {
      assert !events[i].ExternalFinish? && !events[i].ReconcileEffect?;
    }
  }
}
