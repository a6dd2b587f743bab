/** Safety of every interleaving of the broker: revoked or stopped work never reaches an adapter,
    and two entries for one operation are separated by a durable resolution of the first. */
module BrokerSafety {
  import opened Storage
  import opened EffectModel
  import opened BrokerModel

  predicate Journaled(p: Phase) {
    Approaching(p) || p.Inside? || p.Answered?
  }

  /** Journaled and not yet entered. */
  predicate Approaching(p: Phase) {
    p.Intended? || p.Cleared?
  }

  // ---------- steps of a single call that never move it towards an adapter ----------

  ghost predicate Narrows(b: Broker, t: Broker) {
    && t == b.(calls := t.calls, slots := t.slots)
    && t.calls.Keys == b.calls.Keys
    && forall r | r in t.calls ::
      && t.calls[r].id == b.calls[r].id && t.calls[r].op == b.calls[r].op
      && (b.calls[r].cancelled ==> t.calls[r].cancelled)
      && (t.calls[r].phase != Ended ==> b.calls[r].phase != Ended)
      && (Journaled(t.calls[r].phase) ==> Journaled(b.calls[r].phase))
      && (Approaching(t.calls[r].phase) ==> t.calls[r].phase == b.calls[r].phase)
  }

  lemma PhaseNarrows(b: Broker, ref: Ref, phase: Phase)
    requires ref in b.calls
    requires phase != Ended ==> b.calls[ref].phase != Ended
    requires Journaled(phase) ==> Journaled(b.calls[ref].phase) && !Approaching(phase)
    ensures Narrows(b, SetPhase(b, ref, phase))
  {
  }

  lemma SlotsNarrow(b: Broker, t: Broker, slots: Slots)
    requires Narrows(b, t)
    ensures Narrows(b, t.(slots := slots))
  {
  }

  lemma TakeNarrows(b: Broker, ref: Ref)
    ensures Narrows(b, Take(b, ref))
  {
    hide TakeFrom;
    assert Narrows(b, b);
    if ref in b.calls && SlotFree(b.slots, ref, b.calls[ref]) {
      var phase := AfterSlot(b.calls[ref].phase);
      PhaseNarrows(b, ref, phase);
      hide Narrows;
      SlotsNarrow(b, SetPhase(b, ref, phase), TakeFrom(b.slots, ref, b.calls[ref]));
    }
  }

  lemma ReleaseNarrows(b: Broker, ref: Ref)
    requires ref in b.calls
    ensures Narrows(b, Release(b, ref))
  {
    hide ReturnTo;
  }

  lemma CheckNarrows(b: Broker, ref: Ref)
    ensures Narrows(b, Check(b, ref))
  {
  }

  lemma CancelNarrows(b: Broker, refs: set<Ref>)
    ensures Narrows(b, b.(calls := CancelCalls(b.calls, refs)))
  {
  }

  lemma NarrowsSelf(b: Broker)
    ensures Narrows(b, b)
  {
  }

  predicate Narrowing(e: Event) {
    e.ContextDone? || e.TakeSlot? || e.GiveUp? || e.CheckAdmission? || e.AdapterReturns? || e.EndCall?
  }

  lemma StepNarrows(b: Broker, e: Event)
    requires Narrowing(e) && b.journal.alive
    ensures Narrows(b, Step(b, e))
  {
    hide Narrows, Take, Check, Release, CancelCalls, SetPhase;
    NarrowsSelf(b);
    match e
    case ContextDone(ref) => CancelNarrows(b, {ref});
    case TakeSlot(ref) => TakeNarrows(b, ref);
    case CheckAdmission(ref) => CheckNarrows(b, ref);
    case AdapterReturns(ref, ok, effect) => if In(b, ref, Inside) { PhaseNarrows(b, ref, Answered(ok, effect)); }
    case GiveUp(ref) => if ref in b.calls { ReleaseNarrows(b, ref); }
    case EndCall(ref) => if ref in b.calls { ReleaseNarrows(b, ref); }
  }

  // ---------- the gate in front of the adapters ----------

  ghost predicate SessionsTracked(b: Broker) {
    && (forall s | s in b.sessions ::
          s < b.nextSession && b.sessions[s].attempt != "" && b.sessions[s].execution != "" && b.sessions[s].task != "")
    && (forall s | s in b.sessions && !b.sessions[s].revoked ::
          b.sessions[s].attempt in b.current && b.current[b.sessions[s].attempt] == s)
    && (forall a | a in b.current :: b.current[a] in b.sessions && b.sessions[b.current[a]].attempt == a)
  }

  ghost predicate CallsGated(b: Broker) {
    forall r | r in b.calls ::
      && r.session in b.sessions
      && b.calls[r].op.execution == b.sessions[r.session].execution && b.calls[r].op.task == b.sessions[r.session].task
      && (b.calls[r].phase != Ended && (b.failed || b.sessions[r.session].revoked) ==> b.calls[r].cancelled)
  }

  ghost predicate Gated(b: Broker) {
    SessionsTracked(b) && CallsGated(b)
  }

  lemma NarrowsKeepsGate(b: Broker, t: Broker)
    requires Gated(b) && Narrows(b, t)
    ensures Gated(t)
  {
  }

  lemma RevokeKeepsGate(b: Broker, attempt: string)
    requires Gated(b)
    ensures Gated(Revoke(b, attempt))
  {
    if attempt in b.current {
      var t := Revoke(b, attempt);
      forall r | r in t.calls ensures r in b.calls && r.session in t.sessions {}
    }
  }

  lemma StopKeepsGate(b: Broker, ref: Ref)
    requires Gated(b)
    ensures Gated(StopBroker(b, ref))
  {
    var stopped := b.(failed := true, calls := CancelCalls(b.calls, CurrentCalls(b)));
    CancelledKeepsGate(b);
    hide Gated, Release, CancelCalls, CurrentCalls;
    if In(b, ref, BeginRefused) {
      ReleaseNarrows(stopped, ref);
      NarrowsKeepsGate(stopped, Release(stopped, ref));
    } else if In(b, ref, FinishRefused) {
      PhaseNarrows(stopped, ref, Settled);
      NarrowsKeepsGate(stopped, SetPhase(stopped, ref, Settled));
    }
  }

  lemma CancelledKeepsGate(b: Broker)
    requires Gated(b)
    ensures Gated(b.(failed := true, calls := CancelCalls(b.calls, CurrentCalls(b))))
  {
    forall r | r in b.calls && b.calls[r].phase != Ended && !b.calls[r].cancelled ensures r in CurrentCalls(b) {
      assert b.current[b.sessions[r.session].attempt] == r.session;
    }
  }

  lemma SessionsKeepGate(b: Broker, e: Event)
    requires Gated(b) && (e.BeginAttempt? || e.SetExecutionPaused? || e.HandleCall?)
    ensures Gated(Step(b, e))
  {
    hide Gated, Open, PauseSessions, Register;
    match e
    case BeginAttempt(attempt, execution, task) => OpenKeepsGate(b, attempt, execution, task);
    case SetExecutionPaused(execution, paused) => PausedKeepsGate(b, execution, paused);
    case HandleCall(ref, adapter, tool, hash, permitted) => RegisterKeepsGate(b, ref, adapter, tool, hash, permitted);
  }

  lemma OpenKeepsGate(b: Broker, attempt: string, execution: string, task: string)
    requires Gated(b)
    ensures Gated(Open(b, attempt, execution, task))
  {
  }

  lemma PausedKeepsGate(b: Broker, execution: string, paused: bool)
    requires Gated(b)
    ensures Gated(PauseSessions(b, execution, paused))
  {
  }

  lemma RegisterKeepsGate(b: Broker, ref: Ref, adapter: string, tool: string, hash: string, permitted: bool)
    requires Gated(b)
    ensures Gated(Register(b, ref, adapter, tool, hash, permitted))
  {
  }

  /** Steps that only touch the journal, the history and the phase of one unended call. */
  lemma PhaseKeepsGate(b: Broker, ref: Ref, phase: Phase, t: Broker)
    requires Gated(b) && ref in b.calls && b.calls[ref].phase != Ended
    requires t == SetPhase(b, ref, phase).(journal := t.journal, intents := t.intents, entries := t.entries)
    ensures Gated(t)
  {
  }

  lemma JournalKeepsGate(b: Broker, j: Journal)
    requires Gated(b)
    ensures Gated(b.(journal := j))
  {
  }

  lemma StepKeepsGate(b: Broker, e: Event)
    requires Gated(b)
    ensures Gated(Step(b, e))
  {
    hide Gated, Release, Reboot, Open, PauseSessions, Register, Revoke, StopBroker, Invoke, Enter, Settle, Intend;
    if e.Restart? {
      RebootKeepsGate(b);
    } else if b.journal.alive {
      if Narrowing(e) {
        StepNarrows(b, e);
        NarrowsKeepsGate(b, Step(b, e));
      } else {
        match e
        case BeginAttempt(_, _, _) => SessionsKeepGate(b, e);
        case SetExecutionPaused(_, _) => SessionsKeepGate(b, e);
        case HandleCall(_, _, _, _, _) => SessionsKeepGate(b, e);
        case RevokeAttempt(attempt) => RevokeKeepsGate(b, attempt);
        case FailPersistence(ref) => StopKeepsGate(b, ref);
        case ExternalBegin(record) => JournalKeepsGate(b, Begin(b.journal, record).0);
        case ExternalFinish(id, state, externalId) => JournalKeepsGate(b, Finish(b.journal, id, state, externalId).0);
        case ReconcileEffect(id, observed, externalId) =>
          JournalKeepsGate(b, Reconcile(b.journal, id, observed, externalId).0);
        case JournalIntent(ref) => IntendKeepsGate(b, ref);
        case InvokeAdapter(ref) => PassKeepsGate(b, ref);
        case EnterAdapter(ref) => PassKeepsGate(b, ref);
        case JournalOutcome(ref) => PassKeepsGate(b, ref);
      }
    }
  }

  lemma RebootKeepsGate(b: Broker)
    requires Gated(b)
    ensures Gated(Reboot(b))
  {
    hide Recover;
  }

  lemma PassKeepsGate(b: Broker, ref: Ref)
    requires Gated(b)
    ensures Gated(Invoke(b, ref)) && Gated(Enter(b, ref)) && Gated(Settle(b, ref))
  {
    hide Gated, FinishCall;
    if In(b, ref, Intended) { PhaseKeepsGate(b, ref, Invoke(b, ref).calls[ref].phase, Invoke(b, ref)); }
    if In(b, ref, Cleared) { PhaseKeepsGate(b, ref, Inside, Enter(b, ref)); }
    if ref in b.calls && b.calls[ref].phase.Answered? {
      PhaseKeepsGate(b, ref, Settle(b, ref).calls[ref].phase, Settle(b, ref));
    }
  }

  lemma IntendKeepsGate(b: Broker, ref: Ref)
    requires Gated(b)
    ensures Gated(Intend(b, ref))
  {
    hide Gated, Release;
    if In(b, ref, Admitted) {
      var (_, reply) := BeginCall(b.journal, b.calls[ref].id, b.sessions[ref.session].attempt, b.calls[ref].op);
      if reply == Rejected {
        ReleaseNarrows(b, ref);
        NarrowsKeepsGate(b, Release(b, ref));
      } else {
        PhaseKeepsGate(b, ref, Intend(b, ref).calls[ref].phase, Intend(b, ref));
      }
    }
  }

  lemma {:induction false} RunKeepsGate(b: Broker, events: seq<Event>)
    requires Gated(b)
    ensures Gated(Run(b, events))
  {
    if events != [] {
      RunKeepsGate(b, events[..|events| - 1]);
      StepKeepsGate(Run(b, events[..|events| - 1]), events[|events| - 1]);
    }
  }

  /** In every run an attempt has at most one session that is not revoked, and that is the one in the
      table of open sessions. */
  lemma OneOpenSession(plan: seq<Outcome>, events: seq<Event>, s: nat, t: nat)
    requires var b := Run(Boot(plan), events);
      && s in b.sessions && t in b.sessions && !b.sessions[s].revoked && !b.sessions[t].revoked
      && b.sessions[s].attempt == b.sessions[t].attempt
    ensures s == t && Run(Boot(plan), events).sessions[s].attempt in Run(Boot(plan), events).current
  {
    RunKeepsGate(Boot(plan), events);
    hide Run;
  }

  lemma StepKeepsIdentity(b: Broker, e: Event, r: Ref)
    requires r in b.calls && !e.Restart?
    ensures r in Step(b, e).calls && Step(b, e).calls[r].id == b.calls[r].id && Step(b, e).calls[r].op == b.calls[r].op
  {
    if b.journal.alive {
      if Narrowing(e) {
        StepNarrows(b, e);
        hide Step;
      } else if e.FailPersistence? {
        StopKeepsIdentity(b, e.ref, r);
        hide StopBroker;
      } else if e.JournalIntent? || e.InvokeAdapter? || e.EnterAdapter? || e.JournalOutcome? {
        hide Release, BeginCall, FinishCall;
        if e.JournalIntent? && In(b, e.ref, Admitted) { ReleasedNotCleared(b, e.ref); }
      } else {
        hide Begin, Finish, Reconcile;
      }
    }
  }

  lemma StopKeepsIdentity(b: Broker, ref: Ref, r: Ref)
    requires r in b.calls
    ensures var t := StopBroker(b, ref); r in t.calls && t.calls[r].id == b.calls[r].id && t.calls[r].op == b.calls[r].op
  {
    hide ReturnTo;
  }

  /** A call id stands for one call of its session: until a restart, whatever is requested under it
      later, the record keeps its identity and its operation. */
  lemma {:induction false} CallsKeepIdentity(b: Broker, events: seq<Event>, r: Ref)
    requires r in b.calls && forall e | e in events :: !e.Restart?
    ensures r in Run(b, events).calls && Run(b, events).calls[r].id == b.calls[r].id && Run(b, events).calls[r].op == b.calls[r].op
  {
    hide Step;
    if events != [] {
      var e := events[|events| - 1];
      assert e in events;
      CallsKeepIdentity(b, events[..|events| - 1], r);
      StepKeepsIdentity(Run(b, events[..|events| - 1]), e, r);
    }
  }

  /** A session that was revoked, or that a restart has forgotten. */
  ghost predicate Barred(b: Broker, session: nat) {
    session < b.nextSession && (session in b.sessions ==> b.sessions[session].revoked)
  }

  /** Sessions are only opened and revoked; nothing reinstates one. */
  lemma BarredStays(b: Broker, e: Event, session: nat)
    requires Gated(b) && Barred(b, session)
    ensures Barred(Step(b, e), session)
  {
    if !e.Restart? && b.journal.alive {
      if Narrowing(e) {
        StepNarrows(b, e);
        hide Step;
      } else if e.BeginAttempt? || e.SetExecutionPaused? || e.HandleCall? || e.RevokeAttempt? {
        hide CancelCalls;
      } else {
        SessionsUntouched(b, e);
        hide Step;
      }
    }
  }

  predicate Journaling(e: Event) {
    e.JournalIntent? || e.FailPersistence? || e.InvokeAdapter? || e.EnterAdapter? || e.JournalOutcome? || e.ExternalBegin?
    || e.ExternalFinish? || e.ReconcileEffect?
  }

  lemma SessionsUntouched(b: Broker, e: Event)
    requires Journaling(e) && b.journal.alive
    ensures Step(b, e).sessions == b.sessions && Step(b, e).nextSession == b.nextSession
  {
    hide BeginCall, FinishCall, Begin, Finish, Reconcile, CancelCalls, CurrentCalls;
    match e
    case JournalIntent(ref) => if In(b, ref, Admitted) { ReleaseFrame(b, ref); }
    case FailPersistence(ref) =>
      if In(b, ref, BeginRefused) {
        var stopped := b.(failed := true, calls := CancelCalls(b.calls, CurrentCalls(b)));
        CancelNarrows(b, CurrentCalls(b));
        ReleaseFrame(stopped, ref);
      }
    case _ =>
  }

  lemma ReleaseFrame(b: Broker, ref: Ref)
    requires ref in b.calls
    ensures Release(b, ref).sessions == b.sessions && Release(b, ref).nextSession == b.nextSession
    ensures Release(b, ref).failed == b.failed && Release(b, ref).entries == b.entries
  {
  }

  /** Only EnterAdapter enters, and only a call that was cleared, which then no longer is. */
  lemma EntriesGrow(b: Broker, e: Event)
    ensures if e.EnterAdapter? && b.journal.alive && In(b, e.ref, Cleared)
            then Step(b, e) == Enter(b, e.ref) else Step(b, e).entries == b.entries
  {
  }

  /** A call becomes cleared only by looking at its context while its session is neither revoked nor
      the broker stopped; a restart forgets all calls. */
  lemma ClearedOnlyWhileOpen(b: Broker, e: Event, r: Ref)
    requires Gated(b) && r in Step(b, e).calls && Step(b, e).calls[r].phase.Cleared?
    ensures !e.Restart?
    ensures r in b.calls
    ensures b.calls[r].phase.Cleared? || (e == InvokeAdapter(r) && !b.failed && r.session in b.sessions && !b.sessions[r.session].revoked)
  {
    hide Step, Gated;
    StepWhenDead(b, e);
    if !e.Restart? && b.journal.alive {
      if e.InvokeAdapter? {
        InvokeClears(b, e.ref, r);
      } else if Narrowing(e) {
        StepNarrows(b, e);
      } else if e.FailPersistence? {
        StepIsStop(b, e.ref);
      } else {
        OthersClearNone(b, e, r);
      }
    }
  }

  lemma StepWhenDead(b: Broker, e: Event)
    ensures e.Restart? ==> Step(b, e).calls == map[]
    ensures !e.Restart? && !b.journal.alive ==> Step(b, e) == b
  {
    hide Recover;
  }

  lemma InvokeClears(b: Broker, ref: Ref, r: Ref)
    requires Gated(b) && b.journal.alive
    requires r in Step(b, InvokeAdapter(ref)).calls && Step(b, InvokeAdapter(ref)).calls[r].phase.Cleared?
    ensures r in b.calls
    ensures b.calls[r].phase.Cleared? || (ref == r && !b.failed && r.session in b.sessions && !b.sessions[r.session].revoked)
  {
    if In(b, ref, Intended) { assert b.calls[ref].phase != Ended; }
  }

  lemma OthersClearNone(b: Broker, e: Event, r: Ref)
    requires b.journal.alive && !e.Restart? && !Narrowing(e) && !e.FailPersistence? && !e.InvokeAdapter?
    requires r in Step(b, e).calls && Step(b, e).calls[r].phase.Cleared?
    ensures r in b.calls && b.calls[r].phase.Cleared?
  {
    hide Release, BeginCall, FinishCall, Begin, Finish, Reconcile, StopBroker, Take, Check;
    if e.JournalIntent? && In(b, e.ref, Admitted) { ReleasedNotCleared(b, e.ref); }
  }

  lemma ReleasedNotCleared(b: Broker, ref: Ref)
    requires ref in b.calls
    ensures Release(b, ref).calls == b.calls[ref := b.calls[ref].(phase := Ended)]
  {
  }

  lemma StopClears(b: Broker, ref: Ref, r: Ref)
    requires r in StopBroker(b, ref).calls && StopBroker(b, ref).calls[r].phase.Cleared?
    ensures r in b.calls && b.calls[r].phase.Cleared?
  {
    hide ReturnTo;
  }

  /** Since `base`, calls of the sessions in `barred` entered only if they were cleared then, each at
      most once, and those that are still cleared were cleared then and have not entered. */
  ghost predicate Draining(base: Broker, b: Broker, barred: set<nat>) {
    && base.entries <= b.entries
    && (forall i | |base.entries| <= i < |b.entries| && b.entries[i].ref.session in barred ::
          b.entries[i].ref in base.calls && base.calls[b.entries[i].ref].phase.Cleared?)
    && (forall i, k | |base.entries| <= i < k < |b.entries| && b.entries[i].ref.session in barred :: b.entries[i].ref != b.entries[k].ref)
    && (forall r | r in b.calls && b.calls[r].phase.Cleared? && r.session in barred ::
          && r in base.calls && base.calls[r].phase.Cleared?
          && forall i | |base.entries| <= i < |b.entries| :: b.entries[i].ref != r)
  }

  lemma DrainStep(base: Broker, b: Broker, e: Event, barred: set<nat>)
    requires Gated(b) && Draining(base, b, barred)
    requires forall s | s in barred :: b.failed || Barred(b, s)
    ensures Draining(base, Step(b, e), barred)
  {
    hide Step, Gated, Barred;
    var t := Step(b, e);
    EntriesGrow(b, e);
    forall r | r in t.calls && t.calls[r].phase.Cleared? && r.session in barred
      ensures r in b.calls && b.calls[r].phase.Cleared?
    {
      ClearedOnlyWhileOpen(b, e, r);
      if Barred(b, r.session) && r.session in b.sessions { BarredMeans(b, r.session); }
    }
    if e.EnterAdapter? && b.journal.alive && In(b, e.ref, Cleared) {
      DrainEnters(base, b, t, e.ref, barred);
    } else {
      DrainWaits(base, b, t, barred);
    }
  }

  lemma BarredMeans(b: Broker, session: nat)
    requires Barred(b, session) && session in b.sessions
    ensures b.sessions[session].revoked
  {
  }

  lemma DrainEnters(base: Broker, b: Broker, t: Broker, ref: Ref, barred: set<nat>)
    requires Draining(base, b, barred) && In(b, ref, Cleared) && t == Enter(b, ref)
    ensures Draining(base, t, barred)
  {
    assert t.entries == b.entries + [Entry(ref, b.calls[ref].id, b.calls[ref].op)];
  }

  lemma DrainWaits(base: Broker, b: Broker, t: Broker, barred: set<nat>)
    requires Draining(base, b, barred) && t.entries == b.entries
    requires forall r | r in t.calls && t.calls[r].phase.Cleared? && r.session in barred :: r in b.calls && b.calls[r].phase.Cleared?
    ensures Draining(base, t, barred)
  {
  }

  lemma {:induction false} RevokedDrains(base: Broker, b: Broker, session: nat, events: seq<Event>)
    requires Gated(b) && Barred(b, session) && Draining(base, b, {session})
    ensures Gated(Run(b, events)) && Barred(Run(b, events), session) && Draining(base, Run(b, events), {session})
  {
    hide Gated, Barred, Draining, Step;
    if events != [] {
      var t, e := Run(b, events[..|events| - 1]), events[|events| - 1];
      RevokedDrains(base, b, session, events[..|events| - 1]);
      StepKeepsGate(t, e);
      BarredStays(t, e, session);
      DrainStep(base, t, e, {session});
    }
  }

  lemma DrainBegins(base: Broker, b: Broker, barred: set<nat>)
    requires b.entries == base.entries
    requires forall r | r in b.calls && b.calls[r].phase.Cleared? :: r in base.calls && base.calls[r].phase.Cleared?
    ensures Draining(base, b, barred)
  {
  }

  /** Once the critical section of RevokeAttempt has run, the only calls of that attempt's session
      that can still enter an adapter are those that had already looked at their context, each at
      most once, whatever was queued for slots and whatever happens next. */
  lemma RevokedAttemptDrains(plan: seq<Outcome>, before: seq<Event>, attempt: string, after: seq<Event>)
    requires var b := Run(Boot(plan), before); b.journal.alive && attempt in b.current
    ensures var b := Run(Boot(plan), before);
      Draining(b, Run(Step(b, RevokeAttempt(attempt)), after), {b.current[attempt]})
  {
    RunKeepsGate(Boot(plan), before);
    hide Run, Gated, Draining, Step;
    RevokeDrains(Run(Boot(plan), before), attempt, after);
  }

  lemma RevokeDrains(b: Broker, attempt: string, after: seq<Event>)
    requires Gated(b) && b.journal.alive && attempt in b.current
    ensures Draining(b, Run(Step(b, RevokeAttempt(attempt)), after), {b.current[attempt]})
  {
    hide Run, Draining;
    var s, t := b.current[attempt], Step(b, RevokeAttempt(attempt));
    StepKeepsGate(b, RevokeAttempt(attempt));
    RevokeBars(b, attempt);
    assert t == Revoke(b, attempt);
    hide Gated, Barred, Step, Revoke;
    DrainBegins(b, t, {s});
    RevokedDrains(b, t, s, after);
  }

  lemma RevokeBars(b: Broker, attempt: string)
    requires Gated(b) && attempt in b.current
    ensures var t := Revoke(b, attempt);
      && Barred(t, b.current[attempt]) && t.entries == b.entries
      && forall r | r in t.calls :: r in b.calls && t.calls[r].phase == b.calls[r].phase
  {
  }

  /** So a revoked attempt none of whose calls was at that point never enters an adapter again. */
  lemma RevokedAttemptNeverEnters(plan: seq<Outcome>, before: seq<Event>, attempt: string, after: seq<Event>)
    requires var b := Run(Boot(plan), before); b.journal.alive && attempt in b.current
    requires var b := Run(Boot(plan), before);
      forall r | r in b.calls && r.session == b.current[attempt] :: !b.calls[r].phase.Cleared?
    ensures var b := Run(Boot(plan), before);
      var t := Run(Step(b, RevokeAttempt(attempt)), after);
      && b.entries <= t.entries
      && forall i | |b.entries| <= i < |t.entries| :: t.entries[i].ref.session != b.current[attempt]
  {
    RevokedAttemptDrains(plan, before, attempt, after);
    hide Run, Step;
  }

  /** The same for all sessions once failPersistence has run, until the runtime is restarted. */
  lemma {:induction false} StoppedDrains(base: Broker, b: Broker, sessions: set<nat>, events: seq<Event>)
    requires Gated(b) && b.failed && Draining(base, b, sessions) && forall e | e in events :: !e.Restart?
    ensures Gated(Run(b, events)) && Run(b, events).failed && Draining(base, Run(b, events), sessions)
  {
    hide Gated, Draining, Step;
    if events != [] {
      var t, e := Run(b, events[..|events| - 1]), events[|events| - 1];
      assert e in events;
      StoppedDrains(base, b, sessions, events[..|events| - 1]);
      StepKeepsGate(t, e);
      FailedStays(t, e);
      DrainStep(base, t, e, sessions);
    }
  }

  lemma Stops(b: Broker, ref: Ref)
    requires In(b, ref, BeginRefused) || In(b, ref, FinishRefused)
    ensures StopBroker(b, ref).failed && StopBroker(b, ref).entries == b.entries
  {
    hide ReturnTo, CancelCalls, CurrentCalls;
  }

  lemma FailedStays(b: Broker, e: Event)
    requires b.failed && !e.Restart?
    ensures Step(b, e).failed
  {
  }

  /** After the journal could not be written, the only calls that can still enter an adapter before
      a restart are those that had already looked at their context, each at most once. */
  lemma PersistenceFailureDrains(plan: seq<Outcome>, before: seq<Event>, ref: Ref, after: seq<Event>, sessions: set<nat>)
    requires var b := Run(Boot(plan), before);
      b.journal.alive && (In(b, ref, BeginRefused) || In(b, ref, FinishRefused))
    requires forall e | e in after :: !e.Restart?
    ensures var b := Run(Boot(plan), before);
      Draining(b, Run(Step(b, FailPersistence(ref)), after), sessions)
  {
    RunKeepsGate(Boot(plan), before);
    hide Run, Gated, Draining, Step;
    StopDrains(Run(Boot(plan), before), ref, after, sessions);
  }

  lemma StopDrains(b: Broker, ref: Ref, after: seq<Event>, sessions: set<nat>)
    requires Gated(b) && b.journal.alive && (In(b, ref, BeginRefused) || In(b, ref, FinishRefused))
    requires forall e | e in after :: !e.Restart?
    ensures Draining(b, Run(Step(b, FailPersistence(ref)), after), sessions)
  {
    hide Run, Draining, Gated;
    StepKeepsGate(b, FailPersistence(ref));
    Stops(b, ref);
    var t := Step(b, FailPersistence(ref));
    StepIsStop(b, ref);
    hide Step, StopBroker;
    DrainBegins(b, t, sessions);
    StoppedDrains(b, t, sessions, after);
  }

  lemma StepIsStop(b: Broker, ref: Ref)
    requires b.journal.alive
    ensures Step(b, FailPersistence(ref)) == StopBroker(b, ref)
    ensures forall r | r in StopBroker(b, ref).calls && StopBroker(b, ref).calls[r].phase.Cleared? :: r in b.calls && b.calls[r].phase.Cleared?
  {
    hide StopBroker;
    forall r | r in StopBroker(b, ref).calls && StopBroker(b, ref).calls[r].phase.Cleared? ensures r in b.calls && b.calls[r].phase.Cleared? {
      StopClears(b, ref, r);
    }
  }

  // ---------- the ledger behind them ----------

  /** Broker-opened records are durable, and at most one of them per operation is unresolved. */
  ghost predicate Unique(disk: map<string, Record>, intents: set<string>) {
    && (forall id | id in intents :: id in disk)
    && (forall a, b | a in intents && b in intents && Unresolved(disk[a]) && Unresolved(disk[b])
          && disk[a].op == disk[b].op :: a == b)
  }

  /** Every entry but the last for an operation is terminal. */
  ghost predicate LedgerDurable(disk: map<string, Record>, intents: set<string>, entries: seq<Entry>) {
    && Unique(disk, intents)
    && (forall i | 0 <= i < |entries| :: entries[i].id in intents && disk[entries[i].id].op == entries[i].op)
    && (forall i, k | 0 <= i < k < |entries| && entries[i].op == entries[k].op :: !Unresolved(disk[entries[i].id]))
  }

  /** Live facts: a call past the journal has a record of its own; before its entry that record is
      unresolved, and it is not among the entries. */
  ghost predicate LedgerLive(disk: map<string, Record>, calls: map<Ref, Call>, intents: set<string>, entries: seq<Entry>) {
    && (forall r | r in calls && Journaled(calls[r].phase) ::
          calls[r].id in intents && calls[r].id in disk && disk[calls[r].id].op == calls[r].op)
    && (forall r | r in calls && Approaching(calls[r].phase) :: calls[r].id in disk && Unresolved(disk[calls[r].id]))
    && (forall r, q | r in calls && q in calls && Journaled(calls[r].phase) && Journaled(calls[q].phase)
          && calls[r].id == calls[q].id :: r == q)
    && (forall r, i | r in calls && Approaching(calls[r].phase) && 0 <= i < |entries| :: entries[i].id != calls[r].id)
  }

  ghost predicate Ledgered(b: Broker) {
    && Synced(b.journal)
    && LedgerDurable(b.journal.disk, b.intents, b.entries)
    && (b.journal.alive ==> LedgerLive(b.journal.disk, b.calls, b.intents, b.entries))
  }

  predicate TerminalState(state: EffectState) {
    state == EffectSucceeded || state == EffectFailed || state == EffectCancelled
  }

  /** An outside request that settles a record: a finish, or the reconciliation of an interrupted one. */
  predicate Settles(j: Journal, e: Event, id: string) {
    match e
    case ExternalFinish(x, state, _) => x == id && TerminalState(state)
    case ReconcileEffect(x, observed, _) =>
      x == id && TerminalState(observed) && id in j.records && j.records[id].state == EffectInterrupted
    case _ => false
  }

  /** It comes between the intent of a call and its entry. */
  ghost predicate Premature(b: Broker, e: Event) {
    exists r :: r in b.calls && Approaching(b.calls[r].phase) && Settles(b.journal, e, b.calls[r].id)
  }

  lemma DurableAdvances(before: map<string, Record>, after: map<string, Record>, intents: set<string>, entries: seq<Entry>)
    requires LedgerDurable(before, intents, entries) && Advances(before, after)
    ensures LedgerDurable(after, intents, entries)
  {
    forall id | id in before ensures id in after && after[id].op == before[id].op
                             ensures Unresolved(after[id]) ==> Unresolved(before[id]) {}
    hide Advances, Unresolved;
  }

  /** A journal update that settles no record of a call before its entry. */
  lemma JournalKeepsLedger(b: Broker, j: Journal)
    requires Ledgered(b) && Synced(j) && Advances(b.journal.disk, j.disk) && b.journal.alive
    requires j.alive ==> forall r | r in b.calls && Approaching(b.calls[r].phase) && b.calls[r].id in j.disk :: Unresolved(j.disk[b.calls[r].id])
    ensures Ledgered(b.(journal := j))
  {
    DurableAdvances(b.journal.disk, j.disk, b.intents, b.entries);
    forall id | id in b.journal.disk ensures id in j.disk && j.disk[id].op == b.journal.disk[id].op {}
    hide LedgerDurable, Synced, Advances, Unresolved;
  }

  /** A change of calls in which no call newly gets past the journal or back before its entry. */
  lemma CallsKeepLedger(b: Broker, t: Broker)
    requires Ledgered(b) && t.journal == b.journal && t.intents == b.intents && t.entries == b.entries
    requires forall r | r in t.calls && Journaled(t.calls[r].phase) ::
      && r in b.calls && Journaled(b.calls[r].phase)
      && t.calls[r].id == b.calls[r].id && t.calls[r].op == b.calls[r].op
      && (Approaching(t.calls[r].phase) ==> Approaching(b.calls[r].phase))
    ensures Ledgered(t)
  {
    hide LedgerDurable, Synced;
  }

  lemma IntendKeepsLedger(b: Broker, ref: Ref)
    requires Ledgered(b) && b.journal.alive && In(b, ref, Admitted)
    ensures Ledgered(Intend(b, ref))
  {
    hide Ledgered, Release, MayBeginCall;
    if MayBeginCall(b.journal, b.calls[ref].id, b.sessions[ref.session].attempt, b.calls[ref].op) {
      WrittenIntentKeepsLedger(b, ref);
    } else {
      ReleaseNarrows(b, ref);
      NarrowsKeepsLedger(b, Release(b, ref));
    }
  }

  lemma WrittenIntentKeepsLedger(b: Broker, ref: Ref)
    requires Ledgered(b) && b.journal.alive && In(b, ref, Admitted)
    requires MayBeginCall(b.journal, b.calls[ref].id, b.sessions[ref.session].attempt, b.calls[ref].op)
    ensures Ledgered(Intend(b, ref))
  {
    var c := b.calls[ref];
    var attempt := b.sessions[ref.session].attempt;
    BeginCallAdvances(b.journal, c.id, attempt, c.op);
    JournaledKnown(b);
    assert c.id !in b.journal.records;
    hide Ledgered, Advances, Synced, Release, MayBeginCall;
    if Next(b.journal) == Refused || Next(b.journal) == Crashed(false) {
      IntentLost(b, ref, Intend(b, ref));
    } else {
      IntentRecorded(b, ref, Intend(b, ref));
    }
  }

  /** The intent did not become durable: the call is not past the journal, or the process died. */
  lemma IntentLost(b: Broker, ref: Ref, t: Broker)
    requires Ledgered(b) && b.journal.alive && Synced(t.journal) && t.journal.disk == b.journal.disk
    requires t.intents == b.intents && t.entries == b.entries && ref in b.calls
    requires t.journal.alive ==> t.calls == b.calls[ref := b.calls[ref].(phase := BeginRefused)]
    ensures Ledgered(t)
  {
    hide LedgerDurable, Synced;
  }

  lemma NewIntentDurable(disk: map<string, Record>, intents: set<string>, entries: seq<Entry>, r: Record)
    requires LedgerDurable(disk, intents, entries) && r.id !in disk && !BlockedBy(disk, r.op)
    ensures LedgerDurable(disk[r.id := r], intents + {r.id}, entries)
  {
    NewIntentUnique(disk, intents, r);
    hide BlockedBy, Unresolved;
  }

  lemma NewIntentLive(disk: map<string, Record>, calls: map<Ref, Call>, intents: set<string>, entries: seq<Entry>,
                      ref: Ref, r: Record)
    requires LedgerLive(disk, calls, intents, entries) && r.id !in disk && ref in calls
    requires (forall id | id in intents :: id in disk) && forall i | 0 <= i < |entries| :: entries[i].id in intents
    requires r.state == EffectRunning && r.op == calls[ref].op && r.id == calls[ref].id && !Journaled(calls[ref].phase)
    ensures LedgerLive(disk[r.id := r], calls[ref := calls[ref].(phase := Intended)], intents + {r.id}, entries)
  {
    var after := calls[ref := calls[ref].(phase := Intended)];
    forall q | q in after && q != ref && Journaled(after[q].phase) ensures after[q] == calls[q] && after[q].id != r.id {}
  }

  lemma IntentRecorded(b: Broker, ref: Ref, t: Broker)
    requires Ledgered(b) && b.journal.alive && In(b, ref, Admitted)
    requires var c := b.calls[ref];
      var attempt := b.sessions[ref.session].attempt;
      && MayBeginCall(b.journal, c.id, attempt, c.op)
      && Synced(t.journal)
      && t.journal.disk == b.journal.records[c.id := Record(c.id, attempt, c.op, "", EffectRunning)]
      && t.intents == b.intents + {c.id} && t.entries == b.entries
      && (t.journal.alive ==> t.calls == b.calls[ref := c.(phase := Intended)])
    ensures Ledgered(t)
  {
    var c := b.calls[ref];
    var r := Record(c.id, b.sessions[ref.session].attempt, c.op, "", EffectRunning);
    var disk := b.journal.disk;
    assert b.journal.records == disk;
    NewIntentDurable(disk, b.intents, b.entries, r);
    LedgerIds(b);
    hide LedgerDurable, LedgerLive, BlockedBy, CallIdentified, Synced;
    NewIntentLive(disk, b.calls, b.intents, b.entries, ref, r);
  }

  lemma LedgerIds(b: Broker)
    requires Ledgered(b)
    ensures forall id | id in b.intents :: id in b.journal.disk
    ensures forall i | 0 <= i < |b.entries| :: b.entries[i].id in b.intents
  {
  }

  lemma InvokeKeepsLedger(b: Broker, ref: Ref)
    requires Ledgered(b) && b.journal.alive && In(b, ref, Intended)
    ensures Ledgered(Invoke(b, ref))
  {
    hide Ledgered;
    CallsKeepLedger(b, Invoke(b, ref));
  }

  lemma EnterKeepsLedger(b: Broker, ref: Ref)
    requires Ledgered(b) && b.journal.alive && In(b, ref, Cleared)
    ensures Ledgered(Enter(b, ref))
  {
    var c := b.calls[ref];
    var entry := Entry(ref, c.id, c.op);
    assert LedgerDurable(b.journal.disk, b.intents, b.entries);
    assert LedgerLive(b.journal.disk, b.calls, b.intents, b.entries);
    ApproachingFacts(b, ref);
    EntryDurable(b.journal.disk, b.intents, b.entries, entry);
    EntryLive(b.journal.disk, b.calls, b.intents, b.entries, entry);
    hide LedgerDurable, LedgerLive, Synced;
  }

  lemma ApproachingFacts(b: Broker, ref: Ref)
    requires Ledgered(b) && b.journal.alive && ref in b.calls && Approaching(b.calls[ref].phase)
    ensures var c := b.calls[ref];
      && c.id in b.intents && c.id in b.journal.disk && Unresolved(b.journal.disk[c.id])
      && b.journal.disk[c.id].op == c.op && forall i | 0 <= i < |b.entries| :: b.entries[i].id != c.id
  {
  }

  /** The heart of the separation: a record about to be entered is unresolved, so every earlier
      entry for its operation, being another record, must be resolved. */
  lemma EntryDurable(disk: map<string, Record>, intents: set<string>, entries: seq<Entry>, e: Entry)
    requires LedgerDurable(disk, intents, entries)
    requires e.id in intents && Unresolved(disk[e.id]) && disk[e.id].op == e.op
    requires forall i | 0 <= i < |entries| :: entries[i].id != e.id
    ensures LedgerDurable(disk, intents, entries + [e])
  {
    forall i | 0 <= i < |entries| && entries[i].op == e.op ensures !Unresolved(disk[entries[i].id]) {
      assert disk[entries[i].id].op == disk[e.id].op;
    }
    hide Unresolved;
  }

  lemma EntryLive(disk: map<string, Record>, calls: map<Ref, Call>, intents: set<string>, entries: seq<Entry>, e: Entry)
    requires LedgerLive(disk, calls, intents, entries)
    requires e.ref in calls && calls[e.ref].phase.Cleared? && calls[e.ref].id == e.id
    ensures LedgerLive(disk, calls[e.ref := calls[e.ref].(phase := Inside)], intents, entries + [e])
  {
    var after := calls[e.ref := calls[e.ref].(phase := Inside)];
    forall q | q in after && Approaching(after[q].phase) ensures q != e.ref && after[q].id != e.id {}
  }

  lemma SettleKeepsLedger(b: Broker, ref: Ref)
    requires Ledgered(b) && b.journal.alive && ref in b.calls && b.calls[ref].phase.Answered?
    ensures Ledgered(Settle(b, ref))
  {
    var c := b.calls[ref];
    var t := Settle(b, ref);
    var mid := SetPhase(b, ref, t.calls[ref].phase);
    CallsKeepLedger(b, mid);
    FinishSpares(b, c.id, OutcomeState(c.phase.ok, c.phase.effect), "");
    hide Ledgered, Advances, Synced, Unresolved;
    JournalKeepsLedger(mid, t.journal);
  }

  /** Finishing one record, outside the time between the intent and the entry of its call. */
  lemma FinishSpares(b: Broker, id: string, state: EffectState, externalId: string)
    requires Ledgered(b) && b.journal.alive
    requires TerminalState(state) ==> forall r | r in b.calls && Approaching(b.calls[r].phase) :: b.calls[r].id != id
    ensures var j := Finish(b.journal, id, state, externalId).0;
      && Synced(j) && Advances(b.journal.disk, j.disk)
      && (j.alive ==> forall r | r in b.calls && Approaching(b.calls[r].phase) && b.calls[r].id in j.disk :: Unresolved(j.disk[b.calls[r].id]))
  {
    FinishAdvances(b.journal, id, state, externalId);
    hide Advances;
  }

  lemma ReconcileKeepsLedger(b: Broker, e: Event)
    requires Ledgered(b) && b.journal.alive && e.ReconcileEffect? && !Premature(b, e)
    ensures Ledgered(Step(b, e))
  {
    var j := Reconcile(b.journal, e.id, e.observed, e.externalId).0;
    if e.id in b.journal.records && b.journal.records[e.id].state == EffectInterrupted && TerminalState(e.observed) {
      forall r | r in b.calls && Approaching(b.calls[r].phase) ensures b.calls[r].id != e.id {
        assert !Settles(b.journal, e, b.calls[r].id);
      }
      FinishSpares(b, e.id, e.observed, e.externalId);
      hide Ledgered, Advances, Synced, Unresolved;
      JournalKeepsLedger(b, j);
    }
  }

  lemma JournaledKnown(b: Broker)
    requires Ledgered(b) && b.journal.alive
    ensures b.journal.records == b.journal.disk && Synced(b.journal)
    ensures forall r | r in b.calls && Journaled(b.calls[r].phase) ::
      b.calls[r].id in b.intents && b.calls[r].id in b.journal.disk
  {
  }

  lemma ExternalKeepsLedger(b: Broker, e: Event)
    requires Ledgered(b) && b.journal.alive && !Premature(b, e) && (e.ExternalBegin? || e.ExternalFinish?)
    ensures Ledgered(Step(b, e))
  {
    hide Ledgered, Advances, Synced, Identified, Unresolved, Begin, Finish, Premature;
    if e.ExternalBegin? {
      BeginSpares(b, e.record);
      JournalKeepsLedger(b, Begin(b.journal, e.record).0);
    } else {
      Spared(b, e);
      FinishSpares(b, e.id, e.state, e.externalId);
      JournalKeepsLedger(b, Finish(b.journal, e.id, e.state, e.externalId).0);
    }
  }

  lemma Spared(b: Broker, e: Event)
    requires e.ExternalFinish? && !Premature(b, e)
    ensures TerminalState(e.state) ==> forall r | r in b.calls && Approaching(b.calls[r].phase) :: b.calls[r].id != e.id
  {
    forall r | TerminalState(e.state) && r in b.calls && Approaching(b.calls[r].phase) ensures b.calls[r].id != e.id {
      assert !Settles(b.journal, e, b.calls[r].id);
    }
  }

  lemma BeginSpares(b: Broker, record: Record)
    requires Ledgered(b) && b.journal.alive
    ensures var j := Begin(b.journal, record).0;
      && Synced(j) && Advances(b.journal.disk, j.disk)
      && (j.alive ==> forall r | r in b.calls && Approaching(b.calls[r].phase) && b.calls[r].id in j.disk :: Unresolved(j.disk[b.calls[r].id]))
  {
    BeginAdvances(b.journal, record);
    hide Advances, Identified;
  }

  lemma RebootKeepsLedger(b: Broker)
    requires Ledgered(b)
    ensures Ledgered(Reboot(b))
  {
    RecoverAdvances(b.journal);
    DurableAdvances(b.journal.disk, Recover(b.journal).disk, b.intents, b.entries);
    hide LedgerDurable, Advances, Synced;
  }

  lemma NarrowsKeepsLedger(b: Broker, t: Broker)
    requires Ledgered(b) && Narrows(b, t)
    ensures Ledgered(t)
  {
    hide Ledgered;
    CallsKeepLedger(b, t);
  }

  lemma StopKeepsLedger(b: Broker, ref: Ref)
    requires Ledgered(b)
    ensures Ledgered(StopBroker(b, ref))
  {
    hide Ledgered, Release;
    var stopped := b.(failed := true, calls := CancelCalls(b.calls, CurrentCalls(b)));
    CallsKeepLedger(b, stopped);
    if In(b, ref, BeginRefused) {
      ReleaseNarrows(stopped, ref);
      NarrowsKeepsLedger(stopped, Release(stopped, ref));
    } else if In(b, ref, FinishRefused) {
      PhaseNarrows(stopped, ref, Settled);
      NarrowsKeepsLedger(stopped, SetPhase(stopped, ref, Settled));
    }
  }

  lemma StepKeepsLedger(b: Broker, e: Event)
    requires Ledgered(b) && !Premature(b, e)
    ensures Ledgered(Step(b, e))
  {
    hide Ledgered;
    if e.Restart? {
      RebootKeepsLedger(b);
    } else if b.journal.alive {
      match e
      case JournalIntent(ref) => if In(b, ref, Admitted) { IntendKeepsLedger(b, ref); }
      case InvokeAdapter(ref) => if In(b, ref, Intended) { InvokeKeepsLedger(b, ref); }
      case JournalOutcome(ref) => if ref in b.calls && b.calls[ref].phase.Answered? { SettleKeepsLedger(b, ref); }
      case EnterAdapter(ref) => if In(b, ref, Cleared) { EnterKeepsLedger(b, ref); }
      case ReconcileEffect(_, _, _) => ReconcileKeepsLedger(b, e);
      case ExternalBegin(_) => ExternalKeepsLedger(b, e);
      case ExternalFinish(_, _, _) => ExternalKeepsLedger(b, e);
      case FailPersistence(ref) => StopKeepsLedger(b, ref);
      case BeginAttempt(_, _, _) => CallsKeepLedger(b, Step(b, e));
      case SetExecutionPaused(_, _) => CallsKeepLedger(b, Step(b, e));
      case RevokeAttempt(attempt) => CallsKeepLedger(b, Revoke(b, attempt));
      case HandleCall(_, _, _, _, _) => CallsKeepLedger(b, Step(b, e));
      case _ =>
        StepNarrows(b, e);
        NarrowsKeepsLedger(b, Step(b, e));
    }
  }

  /** No outside request settles a record between the intent and the entry of its call. */
  ghost predicate Timely(b: Broker, events: seq<Event>) {
    forall i | 0 <= i < |events| :: !Premature(Run(b, events[..i]), events[i])
  }

  lemma {:induction false} RunKeepsLedger(b: Broker, events: seq<Event>)
    requires Ledgered(b) && Timely(b, events)
    ensures Ledgered(Run(b, events))
  {
    hide Ledgered;
    if events != [] {
      var front := events[..|events| - 1];
      forall i | 0 <= i < |front| ensures !Premature(Run(b, front[..i]), front[i]) {
        assert front[..i] == events[..i];
      }
      RunKeepsLedger(b, front);
      StepKeepsLedger(Run(b, front), events[|events| - 1]);
    }
  }

  /** Across every interleaving, crash and restart in which no outside request comes between an
      intent and its entry: if an adapter was entered twice for one operation, the first entry has
      a durable terminal resolution. */
  lemma EntriesAreSeparated(plan: seq<Outcome>, events: seq<Event>, i: nat, k: nat)
    requires Timely(Boot(plan), events)
    requires var es := Run(Boot(plan), events).entries; i < k < |es| && es[i].op == es[k].op
    ensures var b := Run(Boot(plan), events);
      && b.entries[i].id in b.journal.disk && TerminalState(b.journal.disk[b.entries[i].id].state)
  {
    BootLedgered(plan);
    RunKeepsLedger(Boot(plan), events);
    hide Run, Ledgered, Timely;
    EarlierSettled(Run(Boot(plan), events), i, k);
  }

  lemma BootLedgered(plan: seq<Outcome>)
    ensures Ledgered(Boot(plan))
  {
  }

  lemma EarlierSettled(b: Broker, i: nat, k: nat)
    requires Ledgered(b) && i < k < |b.entries| && b.entries[i].op == b.entries[k].op
    ensures b.entries[i].id in b.journal.disk && TerminalState(b.journal.disk[b.entries[i].id].state)
  {
    assert !Unresolved(b.journal.disk[b.entries[i].id]);
  }

  // ---------- what needs no assumption about outside requests ----------

  /** Every step of the broker only settles records. */
  lemma StepAdvances(b: Broker, e: Event)
    requires Synced(b.journal)
    ensures Synced(Step(b, e).journal) && Advances(b.journal.disk, Step(b, e).journal.disk)
  {
    NothingChanged(b.journal.disk);
    hide Synced, Advances, Release, CancelCalls, Take, Register, Check, StopBroker, Revoke;
    if e.Restart? {
      RecoverAdvances(b.journal);
    } else if b.journal.alive {
      match e
      case JournalIntent(ref) =>
        if In(b, ref, Admitted) {
          BeginCallAdvances(b.journal, b.calls[ref].id, b.sessions[ref.session].attempt, b.calls[ref].op);
          ReleaseJournal(b, ref);
        }
      case JournalOutcome(ref) =>
        if ref in b.calls && b.calls[ref].phase.Answered? {
          var c := b.calls[ref];
          FinishAdvances(b.journal, c.id, OutcomeState(c.phase.ok, c.phase.effect), "");
        }
      case ExternalBegin(record) => BeginAdvances(b.journal, record);
      case ExternalFinish(id, state, externalId) => FinishAdvances(b.journal, id, state, externalId);
      case ReconcileEffect(id, observed, externalId) => FinishAdvances(b.journal, id, observed, externalId);
      case _ => JournalAside(b, e);
    }
  }

  lemma ReleaseJournal(b: Broker, ref: Ref)
    requires ref in b.calls
    ensures Release(b, ref).journal == b.journal && Release(b, ref).intents == b.intents
  {
  }

  lemma JournalAside(b: Broker, e: Event)
    requires !e.Restart? && !e.JournalIntent? && !e.JournalOutcome? && !e.ExternalBegin? && !e.ExternalFinish? && !e.ReconcileEffect?
    ensures Step(b, e).journal == b.journal && Step(b, e).intents == b.intents
  {
  }

  lemma AdvancesTransitive(a: map<string, Record>, b: map<string, Record>, c: map<string, Record>)
    requires Advances(a, b) && Advances(b, c)
    ensures Advances(a, c)
  {
    forall id | id in a
      ensures id in c && c[id].op == a[id].op && c[id].attempt == a[id].attempt && Rank(a[id].state) <= Rank(c[id].state)
      ensures Rank(a[id].state) == 2 ==> c[id] == a[id]
    {
      assert id in b;
    }
  }

  /** Over every run records are only added and only become more settled. In particular an
      interrupted record never runs again, and a terminal one never changes. */
  lemma {:induction false} RecordsOnlySettle(b: Broker, events: seq<Event>)
    requires Synced(b.journal)
    ensures Synced(Run(b, events).journal) && Advances(b.journal.disk, Run(b, events).journal.disk)
  {
    hide Synced, Advances, Step;
    if events == [] {
      NothingChanged(b.journal.disk);
    } else {
      var t, e := Run(b, events[..|events| - 1]), events[|events| - 1];
      RecordsOnlySettle(b, events[..|events| - 1]);
      StepAdvances(t, e);
      AdvancesTransitive(b.journal.disk, t.journal.disk, Step(t, e).journal.disk);
    }
  }

  lemma StepKeepsUnique(b: Broker, e: Event)
    requires Synced(b.journal) && Unique(b.journal.disk, b.intents)
    ensures Unique(Step(b, e).journal.disk, Step(b, e).intents)
  {
    hide Step, Synced, Unique, Advances;
    StepAdvances(b, e);
    if e.JournalIntent? && b.journal.alive && In(b, e.ref, Admitted) {
      IntendKeepsUnique(b, e.ref);
      StepIsIntend(b, e.ref);
    } else {
      IntentsAside(b, e);
      AdvancesKeepsUnique(b.journal.disk, Step(b, e).journal.disk, b.intents);
    }
  }

  lemma StepIsIntend(b: Broker, ref: Ref)
    requires b.journal.alive
    ensures Step(b, JournalIntent(ref)) == Intend(b, ref)
  {
    hide Intend;
  }

  lemma IntentsAside(b: Broker, e: Event)
    requires !(e.JournalIntent? && b.journal.alive && In(b, e.ref, Admitted))
    ensures Step(b, e).intents == b.intents
  {
    hide BeginCall, FinishCall, Begin, Finish, Reconcile, Recover;
  }

  lemma AdvancesKeepsUnique(before: map<string, Record>, after: map<string, Record>, intents: set<string>)
    requires Unique(before, intents) && Advances(before, after)
    ensures Unique(after, intents)
  {
    forall id | id in before ensures id in after && after[id].op == before[id].op
                             ensures Unresolved(after[id]) ==> Unresolved(before[id]) {}
    hide Advances, Unresolved;
  }

  lemma IntendKeepsUnique(b: Broker, ref: Ref)
    requires Synced(b.journal) && b.journal.alive && Unique(b.journal.disk, b.intents) && In(b, ref, Admitted)
    ensures Unique(Intend(b, ref).journal.disk, Intend(b, ref).intents)
  {
    var c, attempt := b.calls[ref], b.sessions[ref.session].attempt;
    ReleaseJournal(b, ref);
    assert b.journal.records == b.journal.disk;
    hide Synced, Release, Unique;
    if MayBeginCall(b.journal, c.id, attempt, c.op) {
      NewIntentUnique(b.journal.disk, b.intents, Record(c.id, attempt, c.op, "", EffectRunning));
    }
  }

  lemma NewIntentUnique(disk: map<string, Record>, intents: set<string>, r: Record)
    requires Unique(disk, intents) && r.id !in disk && !BlockedBy(disk, r.op)
    ensures Unique(disk[r.id := r], intents + {r.id})
  {
    forall id | id in disk ensures disk[r.id := r][id] == disk[id] && !Equivalent(disk[id], r.op) {}
    hide BlockedBy;
  }

  lemma {:induction false} RunKeepsUnique(b: Broker, events: seq<Event>)
    requires Synced(b.journal) && Unique(b.journal.disk, b.intents)
    ensures Unique(Run(b, events).journal.disk, Run(b, events).intents)
  {
    hide Synced, Unique, Step;
    if events != [] {
      RunKeepsUnique(b, events[..|events| - 1]);
      RecordsOnlySettle(b, events[..|events| - 1]);
      StepKeepsUnique(Run(b, events[..|events| - 1]), events[|events| - 1]);
    }
  }

  /** Of the records the broker opened, at most one per operation is unresolved, in every run. */
  lemma OneUnresolvedPerOperation(plan: seq<Outcome>, events: seq<Event>, a: string, c: string)
    requires var b := Run(Boot(plan), events);
      && a in b.intents && c in b.intents && a in b.journal.disk && c in b.journal.disk
      && b.journal.disk[a].op == b.journal.disk[c].op
      && Unresolved(b.journal.disk[a]) && Unresolved(b.journal.disk[c])
    ensures a == c
  {
    RunKeepsUnique(Boot(plan), events);
    hide Run;
  }
}
