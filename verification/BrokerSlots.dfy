/** Conservation of slots: the counters of the three slot pools always equal the number of calls
    holding one, through every way a call can end. */
module BrokerSlots {
  import opened Collections
  import opened Storage
  import opened EffectModel
  import opened BrokerModel

  ghost function GlobalHolders(calls: map<Ref, Call>): set<Ref> {
    set r | r in calls && HoldsGlobal(calls[r].phase)
  }

  ghost function SessionHolders(calls: map<Ref, Call>, session: nat): set<Ref> {
    set r | r in calls && r.session == session && HoldsSession(calls[r].phase)
  }

  ghost function AdapterHolders(calls: map<Ref, Call>, adapter: string): set<Ref> {
    set r | r in calls && calls[r].op.adapter == adapter && HoldsAdapter(calls[r].phase)
  }

  ghost predicate Counted(calls: map<Ref, Call>, slots: Slots) {
    && slots.globalUsed == |GlobalHolders(calls)| <= GLOBAL_SLOTS
    && (forall s :: Used(slots.sessionUsed, s) == |SessionHolders(calls, s)| <= SESSION_SLOTS)
    && (forall a :: Used(slots.adapterUsed, a) == |AdapterHolders(calls, a)| <= ADAPTER_SLOTS)
  }

  /** Two call tables with the same holders. */
  ghost predicate SameHolders(before: map<Ref, Call>, after: map<Ref, Call>) {
    && GlobalHolders(before) == GlobalHolders(after)
    && (forall s :: SessionHolders(before, s) == SessionHolders(after, s))
    && (forall a :: AdapterHolders(before, a) == AdapterHolders(after, a))
  }

  lemma SameHoldersCounted(before: map<Ref, Call>, after: map<Ref, Call>, slots: Slots)
    requires Counted(before, slots) && SameHolders(before, after)
    ensures Counted(after, slots)
  {
  }

  lemma HoldingSame(before: map<Ref, Call>, after: map<Ref, Call>)
    requires forall r | r in before :: r in after && before[r].op == after[r].op
    requires forall r | r in after ::
      if r in before then
        && HoldsGlobal(before[r].phase) == HoldsGlobal(after[r].phase)
        && HoldsSession(before[r].phase) == HoldsSession(after[r].phase)
        && HoldsAdapter(before[r].phase) == HoldsAdapter(after[r].phase)
      else !HoldsGlobal(after[r].phase)
    ensures SameHolders(before, after)
  {
  }

  function One(holds: bool): int {
    if holds then 1 else 0
  }

  lemma Swap(before: set<Ref>, after: set<Ref>, ref: Ref, was: bool, now: bool)
    requires (ref in before <==> was) && (ref in after <==> now)
    requires forall r | r != ref :: r in before <==> r in after
    ensures |after| == |before| - One(was) + One(now)
  {
    var others := before - {ref};
    assert others == after - {ref};
    if was { assert before == others + {ref}; } else { assert before == others; }
    if now { assert after == others + {ref}; } else { assert after == others; }
  }

  lemma GlobalAfter(calls: map<Ref, Call>, ref: Ref, phase: Phase)
    requires ref in calls
    ensures |GlobalHolders(calls[ref := calls[ref].(phase := phase)])|
         == |GlobalHolders(calls)| - One(HoldsGlobal(calls[ref].phase)) + One(HoldsGlobal(phase))
  {
    hide HoldsGlobal, HoldsSession, HoldsAdapter, One;
    Swap(GlobalHolders(calls), GlobalHolders(calls[ref := calls[ref].(phase := phase)]), ref,
         HoldsGlobal(calls[ref].phase), HoldsGlobal(phase));
  }

  lemma SessionAfter(calls: map<Ref, Call>, ref: Ref, phase: Phase, s: nat)
    requires ref in calls
    ensures |SessionHolders(calls[ref := calls[ref].(phase := phase)], s)| == |SessionHolders(calls, s)|
      + if s == ref.session then One(HoldsSession(phase)) - One(HoldsSession(calls[ref].phase)) else 0
  {
    hide HoldsGlobal, HoldsSession, HoldsAdapter, One;
    Swap(SessionHolders(calls, s), SessionHolders(calls[ref := calls[ref].(phase := phase)], s), ref,
         s == ref.session && HoldsSession(calls[ref].phase), s == ref.session && HoldsSession(phase));
  }

  lemma AdapterAfter(calls: map<Ref, Call>, ref: Ref, phase: Phase, a: string)
    requires ref in calls
    ensures |AdapterHolders(calls[ref := calls[ref].(phase := phase)], a)| == |AdapterHolders(calls, a)|
      + if a == calls[ref].op.adapter then One(HoldsAdapter(phase)) - One(HoldsAdapter(calls[ref].phase)) else 0
  {
    hide HoldsGlobal, HoldsSession, HoldsAdapter, One;
    Swap(AdapterHolders(calls, a), AdapterHolders(calls[ref := calls[ref].(phase := phase)], a), ref,
         a == calls[ref].op.adapter && HoldsAdapter(calls[ref].phase), a == calls[ref].op.adapter && HoldsAdapter(phase));
  }

  /** Counters that move with the phase of one call, and stay within the pools, remain counted. */
  lemma PhaseCounts(calls: map<Ref, Call>, slots: Slots, ref: Ref, phase: Phase, t: Slots)
    requires Counted(calls, slots) && ref in calls
    requires var c := calls[ref];
      && t.globalUsed == slots.globalUsed - One(HoldsGlobal(c.phase)) + One(HoldsGlobal(phase)) <= GLOBAL_SLOTS
      && (forall s :: Used(t.sessionUsed, s) == Used(slots.sessionUsed, s)
           + (if s == ref.session then One(HoldsSession(phase)) - One(HoldsSession(c.phase)) else 0) <= SESSION_SLOTS)
      && (forall a :: Used(t.adapterUsed, a) == Used(slots.adapterUsed, a)
           + (if a == c.op.adapter then One(HoldsAdapter(phase)) - One(HoldsAdapter(c.phase)) else 0) <= ADAPTER_SLOTS)
    ensures Counted(calls[ref := calls[ref].(phase := phase)], t)
  {
    hide HoldsGlobal, HoldsSession, HoldsAdapter, GlobalHolders, SessionHolders, AdapterHolders, One, Used;
    var after := calls[ref := calls[ref].(phase := phase)];
    GlobalAfter(calls, ref, phase);
    forall s ensures Used(t.sessionUsed, s) == |SessionHolders(after, s)| <= SESSION_SLOTS {
      SessionAfter(calls, ref, phase, s);
      assert Used(slots.sessionUsed, s) == |SessionHolders(calls, s)|;
    }
    forall a ensures Used(t.adapterUsed, a) == |AdapterHolders(after, a)| <= ADAPTER_SLOTS {
      AdapterAfter(calls, ref, phase, a);
      assert Used(slots.adapterUsed, a) == |AdapterHolders(calls, a)|;
    }
  }

  lemma TakeCounts(b: Broker, ref: Ref)
    requires Counted(b.calls, b.slots)
    ensures Counted(Take(b, ref).calls, Take(b, ref).slots)
  {
    hide GlobalHolders, SessionHolders, AdapterHolders;
    if ref in b.calls && SlotFree(b.slots, ref, b.calls[ref]) {
      PhaseCounts(b.calls, b.slots, ref, AfterSlot(b.calls[ref].phase), TakeFrom(b.slots, ref, b.calls[ref]));
    }
  }

  lemma HolderCounts(calls: map<Ref, Call>, slots: Slots, ref: Ref)
    requires Counted(calls, slots) && ref in calls
    ensures var p := calls[ref].phase;
      && (HoldsGlobal(p) ==> slots.globalUsed > 0)
      && (HoldsSession(p) ==> Used(slots.sessionUsed, ref.session) > 0)
      && (HoldsAdapter(p) ==> Used(slots.adapterUsed, calls[ref].op.adapter) > 0)
  {
    var c := calls[ref];
    if HoldsGlobal(c.phase) { assert ref in GlobalHolders(calls); }
    if HoldsSession(c.phase) { assert ref in SessionHolders(calls, ref.session); }
    if HoldsAdapter(c.phase) { assert ref in AdapterHolders(calls, c.op.adapter); }
  }

  lemma ReleaseCounts(b: Broker, ref: Ref)
    requires Counted(b.calls, b.slots) && ref in b.calls
    ensures Counted(Release(b, ref).calls, Release(b, ref).slots)
  {
    hide GlobalHolders, SessionHolders, AdapterHolders;
    HolderCounts(b.calls, b.slots, ref);
    PhaseCounts(b.calls, b.slots, ref, Ended, ReturnTo(b.slots, ref, b.calls[ref]));
  }

  lemma SteadyCounts(b: Broker, ref: Ref, phase: Phase)
    requires Counted(b.calls, b.slots) && ref in b.calls
    requires HoldsAdapter(b.calls[ref].phase) && HoldsAdapter(phase)
    ensures Counted(b.calls[ref := b.calls[ref].(phase := phase)], b.slots)
  {
    HoldingSame(b.calls, b.calls[ref := b.calls[ref].(phase := phase)]);
    SameHoldersCounted(b.calls, b.calls[ref := b.calls[ref].(phase := phase)], b.slots);
  }

  lemma CancelCounts(b: Broker, refs: set<Ref>)
    requires Counted(b.calls, b.slots)
    ensures Counted(CancelCalls(b.calls, refs), b.slots)
  {
    HoldingSame(b.calls, CancelCalls(b.calls, refs));
    SameHoldersCounted(b.calls, CancelCalls(b.calls, refs), b.slots);
  }

  lemma RegisterCounts(b: Broker, ref: Ref, adapter: string, tool: string, hash: string, permitted: bool)
    requires Counted(b.calls, b.slots)
    ensures Counted(Register(b, ref, adapter, tool, hash, permitted).calls, b.slots)
  {
    var t := Register(b, ref, adapter, tool, hash, permitted);
    HoldingSame(b.calls, t.calls);
    SameHoldersCounted(b.calls, t.calls, b.slots);
  }

  lemma StepCounts(b: Broker, e: Event)
    requires Counted(b.calls, b.slots)
    ensures Counted(Step(b, e).calls, Step(b, e).slots)
  {
    if e.Restart? {
      assert GlobalHolders(map[]) == {};
      assert forall s :: SessionHolders(map[], s) == {};
      assert forall a :: AdapterHolders(map[], a) == {};
    } else if b.journal.alive {
      if e.CheckAdmission? || e.JournalIntent? || e.InvokeAdapter? || e.EnterAdapter? || e.AdapterReturns? || e.JournalOutcome? {
        PassageCounts(b, e);
      } else {
        OtherCounts(b, e);
      }
    }
  }

  lemma PassageCounts(b: Broker, e: Event)
    requires Counted(b.calls, b.slots) && b.journal.alive
    requires e.CheckAdmission? || e.JournalIntent? || e.InvokeAdapter? || e.EnterAdapter? || e.AdapterReturns? || e.JournalOutcome?
    ensures Counted(Step(b, e).calls, Step(b, e).slots)
  {
    hide Counted, Release, BeginCall, FinishCall;
    var ref := e.ref;
    match e
    case CheckAdmission(_) =>
      if In(b, ref, Holding) { ReleaseCounts(b, ref); SteadyCounts(b, ref, Admitted); }
    case JournalIntent(_) =>
      if In(b, ref, Admitted) {
        ReleaseCounts(b, ref);
        SteadyCounts(b, ref, Intended);
        SteadyCounts(b, ref, BeginRefused);
      }
    case InvokeAdapter(_) =>
      if In(b, ref, Intended) {
        SteadyCounts(b, ref, Cleared);
        SteadyCounts(b, ref, Answered(false, NoEffect));
      }
    case EnterAdapter(_) => if In(b, ref, Cleared) { SteadyCounts(b, ref, Inside); }
    case AdapterReturns(_, ok, effect) => if In(b, ref, Inside) { SteadyCounts(b, ref, Answered(ok, effect)); }
    case JournalOutcome(_) =>
      if ref in b.calls && b.calls[ref].phase.Answered? {
        SteadyCounts(b, ref, Settled);
        SteadyCounts(b, ref, FinishRefused);
      }
  }

  lemma OtherCounts(b: Broker, e: Event)
    requires Counted(b.calls, b.slots) && b.journal.alive && !e.Restart?
    requires !(e.CheckAdmission? || e.JournalIntent? || e.InvokeAdapter? || e.EnterAdapter? || e.AdapterReturns? || e.JournalOutcome?)
    ensures Counted(Step(b, e).calls, Step(b, e).slots)
  {
    hide Counted, Release, Take, CancelCalls, Register, Begin, Finish, Reconcile, StopBroker;
    match e
    case TakeSlot(ref) => TakeCounts(b, ref);
    case HandleCall(ref, adapter, tool, hash, permitted) =>
      RegisterCounts(b, ref, adapter, tool, hash, permitted);
      RegisterKeepsSlots(b, ref, adapter, tool, hash, permitted);
    case ContextDone(ref) => CancelCounts(b, {ref});
    case RevokeAttempt(attempt) =>
      if attempt in b.current { CancelCounts(b, CallsOf(b, b.current[attempt])); }
    case FailPersistence(ref) => StopCounts(b, ref);
    case GiveUp(ref) => if ref in b.calls { ReleaseCounts(b, ref); }
    case EndCall(ref) => if ref in b.calls { ReleaseCounts(b, ref); }
    case _ =>
  }

  lemma RegisterKeepsSlots(b: Broker, ref: Ref, adapter: string, tool: string, hash: string, permitted: bool)
    ensures Register(b, ref, adapter, tool, hash, permitted).slots == b.slots
  {
  }

  lemma StopCounts(b: Broker, ref: Ref)
    requires Counted(b.calls, b.slots)
    ensures Counted(StopBroker(b, ref).calls, StopBroker(b, ref).slots)
  {
    var stopped := b.(failed := true, calls := CancelCalls(b.calls, CurrentCalls(b)));
    CancelCounts(b, CurrentCalls(b));
    hide Counted, Release, CurrentCalls;
    if In(b, ref, BeginRefused) {
      ReleaseCounts(stopped, ref);
    } else if In(b, ref, FinishRefused) {
      SteadyCounts(stopped, ref, Settled);
    }
  }

  lemma {:induction false} RunCounts(b: Broker, events: seq<Event>)
    requires Counted(b.calls, b.slots)
    ensures Counted(Run(b, events).calls, Run(b, events).slots)
  {
    if events != [] {
      RunCounts(b, events[..|events| - 1]);
      StepCounts(Run(b, events[..|events| - 1]), events[|events| - 1]);
    }
  }

  /** In every run each pool's counter is the number of calls holding its slots, no pool is ever
      overdrawn, and so at most eight calls are inside one adapter at a time. */
  lemma SlotsConserved(plan: seq<Outcome>, events: seq<Event>, adapter: string)
    ensures var b := Run(Boot(plan), events);
      && Counted(b.calls, b.slots)
      && |set r | r in b.calls && b.calls[r].op.adapter == adapter && b.calls[r].phase.Inside?| <= ADAPTER_SLOTS
  {
    assert GlobalHolders(map[]) == {};
    assert forall s :: SessionHolders(map[], s) == {};
    assert forall a :: AdapterHolders(map[], a) == {};
    RunCounts(Boot(plan), events);
    var b := Run(Boot(plan), events);
    var inside := set r | r in b.calls && b.calls[r].op.adapter == adapter && b.calls[r].phase.Inside?;
    SubsetSize(inside, AdapterHolders(b.calls, adapter));
  }
}
