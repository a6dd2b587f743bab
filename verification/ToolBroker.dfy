/** The broker's tables and the atomic sections that update them. A request handler runs these
    sections one after the other; between them anything else may run. */
module ToolBrokers {
  import opened Storage
  import opened EffectModel
  import opened BrokerModel
  import opened EffectManagers
  import opened BrokerSafety
  import opened BrokerSlots

  /** What holds of the broker between any two of its sections, whatever the outside does. */
  ghost predicate Standing(b: Broker) {
    Gated(b) && Counted(b.calls, b.slots) && Synced(b.journal) && Unique(b.journal.disk, b.intents)
  }

  lemma StepStands(b: Broker, e: Event)
    requires Standing(b)
    ensures Standing(Step(b, e))
    ensures Ledgered(b) && !e.ExternalFinish? && !e.ReconcileEffect? ==> Ledgered(Step(b, e))
  {
    StepKeepsGate(b, e);
    StepCounts(b, e);
    StepAdvances(b, e);
    StepKeepsUnique(b, e);
    hide Gated, Counted, Synced, Unique, Step, Ledgered;
    if Ledgered(b) && !e.ExternalFinish? && !e.ReconcileEffect? {
      StepKeepsLedger(b, e);
    }
  }

  /** What every section keeps: the standing facts, and the separation of adapter entries. */
  ghost predicate Keeps(b: Broker, t: Broker) {
    Standing(t) && (Ledgered(b) ==> Ledgered(t))
  }

  lemma JournalStands(b: Broker, j: Journal)
    requires Standing(b) && b.journal.alive && Synced(j) && Advances(b.journal.disk, j.disk)
    ensures Standing(b.(journal := j))
    ensures Ledgered(b) && (forall r | r in b.calls && Approaching(b.calls[r].phase) && b.calls[r].id in j.disk :: Unresolved(j.disk[b.calls[r].id]))
            ==> Ledgered(b.(journal := j))
  {
    JournalKeepsGate(b, j);
    AdvancesKeepsUnique(b.journal.disk, j.disk, b.intents);
    hide Gated, Counted, Synced, Unique, Advances, Ledgered, Unresolved;
    if Ledgered(b) && forall r | r in b.calls && Approaching(b.calls[r].phase) && b.calls[r].id in j.disk :: Unresolved(j.disk[b.calls[r].id]) {
      JournalKeepsLedger(b, j);
    }
  }

  lemma StandingJournal(b: Broker)
    requires Standing(b)
    ensures Synced(b.journal)
  {
  }

  function Returned(b: Broker, ref: Ref, ok: bool, effect: Certainty): Broker {
    if In(b, ref, Inside) then SetPhase(b, ref, Answered(ok, effect)) else b
  }

  function GivenUp(b: Broker, ref: Ref): Broker {
    if ref in b.calls && b.calls[ref].cancelled && b.calls[ref].phase in {WaitGlobal, WaitSession, WaitAdapter}
    then Release(b, ref) else b
  }

  function AnsweredCall(b: Broker, ref: Ref): Broker {
    if In(b, ref, Settled) then Release(b, ref) else b
  }

  lemma OpenKeeps(b: Broker, attempt: string, execution: string, task: string)
    requires Standing(b) && b.journal.alive
    ensures Keeps(b, Open(b, attempt, execution, task))
  {
    hide Open, Standing, Ledgered;
    StepStands(b, Event.BeginAttempt(attempt, execution, task));
  }

  lemma RevokeKeeps(b: Broker, attempt: string)
    requires Standing(b) && b.journal.alive
    ensures Keeps(b, Revoke(b, attempt))
  {
    hide Revoke, Standing, Ledgered;
    StepStands(b, Event.RevokeAttempt(attempt));
  }

  lemma PauseKeeps(b: Broker, execution: string, paused: bool)
    requires Standing(b) && b.journal.alive
    ensures Keeps(b, PauseSessions(b, execution, paused))
  {
    hide PauseSessions, Standing, Ledgered;
    StepStands(b, Event.SetExecutionPaused(execution, paused));
  }

  lemma RegisterKeeps(b: Broker, ref: Ref, adapter: string, tool: string, hash: string, permitted: bool)
    requires Standing(b) && b.journal.alive
    ensures Keeps(b, Register(b, ref, adapter, tool, hash, permitted))
  {
    hide Register, Standing, Ledgered;
    StepStands(b, HandleCall(ref, adapter, tool, hash, permitted));
  }

  lemma TakeKeeps(b: Broker, ref: Ref)
    requires Standing(b) && b.journal.alive
    ensures Keeps(b, Take(b, ref))
  {
    hide Take, Standing, Ledgered;
    StepStands(b, Event.TakeSlot(ref));
  }

  lemma CheckKeeps(b: Broker, ref: Ref)
    requires Standing(b) && b.journal.alive
    ensures Keeps(b, Check(b, ref))
  {
    hide Check, Standing, Ledgered;
    StepStands(b, Event.CheckAdmission(ref));
  }

  lemma IntendKeeps(b: Broker, ref: Ref)
    requires Standing(b) && b.journal.alive
    ensures Keeps(b, Intend(b, ref))
  {
    hide Intend, Standing, Ledgered;
    StepStands(b, Event.JournalIntent(ref));
  }

  lemma StopKeeps(b: Broker, ref: Ref)
    requires Standing(b) && b.journal.alive
    ensures Keeps(b, StopBroker(b, ref))
  {
    hide StopBroker, Standing, Ledgered;
    StepStands(b, Event.FailPersistence(ref));
  }

  lemma SettleKeeps(b: Broker, ref: Ref)
    requires Standing(b) && b.journal.alive
    ensures Keeps(b, Settle(b, ref))
  {
    hide Settle, Standing, Ledgered;
    StepStands(b, Event.JournalOutcome(ref));
  }

  lemma InvokeKeeps(b: Broker, ref: Ref)
    requires Standing(b) && b.journal.alive
    ensures Keeps(b, Invoke(b, ref))
  {
    hide Invoke, Standing, Ledgered;
    StepStands(b, Event.InvokeAdapter(ref));
  }

  lemma EnterKeeps(b: Broker, ref: Ref)
    requires Standing(b) && b.journal.alive
    ensures Keeps(b, Enter(b, ref))
  {
    hide Enter, Standing, Ledgered;
    StepStands(b, Event.EnterAdapter(ref));
  }

  lemma ReturnKeeps(b: Broker, ref: Ref, ok: bool, effect: Certainty)
    requires Standing(b) && b.journal.alive
    ensures Keeps(b, Returned(b, ref, ok, effect))
  {
    hide SetPhase, Standing, Ledgered;
    StepStands(b, Event.AdapterReturns(ref, ok, effect));
  }

  lemma CancelKeeps(b: Broker, ref: Ref)
    requires Standing(b) && b.journal.alive
    ensures Keeps(b, b.(calls := CancelCalls(b.calls, {ref})))
  {
    hide CancelCalls, Standing, Ledgered;
    StepStands(b, Event.ContextDone(ref));
  }

  lemma GiveUpKeeps(b: Broker, ref: Ref)
    requires Standing(b) && b.journal.alive
    ensures Keeps(b, GivenUp(b, ref))
  {
    hide Release, Standing, Ledgered;
    StepStands(b, Event.GiveUp(ref));
  }

  lemma AnswerKeeps(b: Broker, ref: Ref)
    requires Standing(b) && b.journal.alive
    ensures Keeps(b, AnsweredCall(b, ref))
  {
    hide Release, Standing, Ledgered;
    StepStands(b, Event.EndCall(ref));
  }

  lemma RebootKeeps(b: Broker)
    requires Standing(b)
    ensures Keeps(b, Reboot(b))
  {
    hide Reboot, Standing, Ledgered;
    StepStands(b, Event.Restart);
  }

  lemma BootStands(plan: seq<Outcome>)
    ensures Standing(Boot(plan)) && Ledgered(Boot(plan))
  {
    RunCounts(Boot(plan), []);
    assert GlobalHolders(map[]) == {};
    assert forall s :: SessionHolders(map[], s) == {};
    assert forall a :: AdapterHolders(map[], a) == {};
  }

  class ToolBroker {
    var sessions: map<nat, Session>
    var current: map<string, nat>
    var calls: map<Ref, Call>
    var slots: Slots
    var persistenceFailed: bool
    var nextSession: nat
    const journal: EffectManager
    ghost var intents: set<string>
    ghost var entries: seq<Entry>

    ghost function Abs(): Broker
      reads this, journal
    {
      Broker(sessions, current, calls, slots, persistenceFailed, journal.Abs(), nextSession, intents, entries)
    }

    ghost predicate Valid()
      reads this, journal
    {
      Standing(Abs())
    }

    /** Every adapter entry but the last for an operation is durably resolved. */
    ghost predicate Separated()
      reads this, journal
    {
      Ledgered(Abs())
    }

    constructor (journal: EffectManager)
      requires journal.Abs().records == map[] && journal.Abs().disk == map[] && journal.alive
      ensures this.journal == journal && Abs() == Boot(journal.outcomes) && Valid() && Separated()
    {
      BootStands(journal.outcomes);
      this.journal := journal;
      sessions, current, calls := map[], map[], map[];
      slots, persistenceFailed, nextSession := Slots(0, map[], map[]), false, 0;
      intents, entries := {}, [];
    }

    method BeginAttempt(attempt: string, execution: string, task: string)
      requires Valid() && journal.alive
      modifies this
      ensures Abs() == Open(old(Abs()), attempt, execution, task)
      ensures Keeps(old(Abs()), Abs())
    {
      hide Keeps, Standing;
      OpenKeeps(Abs(), attempt, execution, task);
      if attempt == "" || execution == "" || task == "" || persistenceFailed || attempt in current { return; }
      sessions := sessions[nextSession := Session(attempt, execution, task, false, false)];
      current := current[attempt := nextSession];
      nextSession := nextSession + 1;
    }

    /** The loop over a set of calls that cancels the context of each active one. */
    method CancelEach(refs: set<Ref>)
      modifies this
      ensures Abs() == old(Abs()).(calls := CancelCalls(old(calls), refs))
    {
      var left := calls.Keys;
      while left != {}
        invariant left <= calls.Keys == old(calls).Keys
        invariant forall r | r in left :: calls[r] == old(calls)[r]
        invariant forall r | r in calls && r !in left :: calls[r] == CancelCalls(old(calls), refs)[r]
        invariant Abs() == old(Abs()).(calls := calls)
        decreases left
      {
        var r :| r in left;
        left := left - {r};
        if r in refs && calls[r].phase != Ended {
          calls := calls[r := calls[r].(cancelled := true)];
        }
      }
      assert calls == CancelCalls(old(calls), refs);
    }

    method RevokeAttempt(attempt: string)
      requires Valid() && journal.alive
      modifies this
      ensures Abs() == Revoke(old(Abs()), attempt)
      ensures Keeps(old(Abs()), Abs())
    {
      hide Keeps, Standing;
      RevokeKeeps(Abs(), attempt);
      if attempt !in current || current[attempt] !in sessions { return; }
      var s := current[attempt];
      sessions := sessions[s := sessions[s].(revoked := true)];
      current := current - {attempt};
      CancelEach(set r | r in calls && r.session == s);
    }

    method SetExecutionPaused(execution: string, paused: bool)
      requires Valid() && journal.alive
      modifies this
      ensures Abs() == PauseSessions(old(Abs()), execution, paused)
      ensures Keeps(old(Abs()), Abs())
    {
      hide Keeps, Standing, PauseSessions;
      PauseKeeps(Abs(), execution, paused);
      PauseEach(execution, paused);
    }

    /** The loop over the open sessions of an execution. */
    method PauseEach(execution: string, paused: bool)
      modifies this
      ensures Abs() == PauseSessions(old(Abs()), execution, paused)
    {
      var left := sessions.Keys;
      while left != {}
        invariant left <= sessions.Keys == old(sessions).Keys
        invariant forall s | s in left :: sessions[s] == old(sessions)[s]
        invariant forall s | s in sessions && s !in left ::
            sessions[s] == PauseSessions(old(Abs()), execution, paused).sessions[s]
        invariant Abs() == old(Abs()).(sessions := sessions)
        decreases left
      {
        var s :| s in left;
        left := left - {s};
        if s in current.Values && sessions[s].execution == execution {
          sessions := sessions[s := sessions[s].(paused := paused)];
        }
      }
      assert sessions == PauseSessions(old(Abs()), execution, paused).sessions;
    }

    method RegisterCall(ref: Ref, adapter: string, tool: string, hash: string, permitted: bool)
      requires Valid() && journal.alive
      modifies this
      ensures Abs() == Register(old(Abs()), ref, adapter, tool, hash, permitted)
      ensures Keeps(old(Abs()), Abs())
    {
      hide Keeps, Standing;
      RegisterKeeps(Abs(), ref, adapter, tool, hash, permitted);
      if ref.session !in sessions || persistenceFailed { return; }
      var s := sessions[ref.session];
      if s.revoked || s.paused || ref in calls || !permitted { return; }
      calls := calls[ref := Call(s.attempt + "/" + ref.callId, Operation(s.execution, s.task, adapter, tool, hash),
                                 WaitGlobal, false)];
    }

    method TakeSlot(ref: Ref)
      requires Valid() && journal.alive
      modifies this
      ensures Abs() == Take(old(Abs()), ref)
      ensures Keeps(old(Abs()), Abs())
    {
      hide Keeps, Standing;
      TakeKeeps(Abs(), ref);
      if ref !in calls { return; }
      var c := calls[ref];
      match c.phase
      case WaitGlobal =>
        if slots.globalUsed < GLOBAL_SLOTS {
          slots := slots.(globalUsed := slots.globalUsed + 1);
          calls := calls[ref := c.(phase := WaitSession)];
        }
      case WaitSession =>
        var used := Used(slots.sessionUsed, ref.session);
        if used < SESSION_SLOTS {
          slots := slots.(sessionUsed := slots.sessionUsed[ref.session := used + 1]);
          calls := calls[ref := c.(phase := WaitAdapter)];
        }
      case WaitAdapter =>
        var used := Used(slots.adapterUsed, c.op.adapter);
        if used < ADAPTER_SLOTS {
          slots := slots.(adapterUsed := slots.adapterUsed[c.op.adapter := used + 1]);
          calls := calls[ref := c.(phase := Holding)];
        }
      case _ =>
    }

    /** finishCall and the deferred returns of the slots, in reverse order of taking them. */
    method EndCall(ref: Ref)
      requires ref in calls
      modifies this
      ensures Abs() == Release(old(Abs()), ref)
    {
      var c := calls[ref];
      if HoldsAdapter(c.phase) {
        slots := slots.(adapterUsed := slots.adapterUsed[c.op.adapter := Less(Used(slots.adapterUsed, c.op.adapter))]);
      }
      if HoldsSession(c.phase) {
        slots := slots.(sessionUsed := slots.sessionUsed[ref.session := Less(Used(slots.sessionUsed, ref.session))]);
      }
      if HoldsGlobal(c.phase) {
        slots := slots.(globalUsed := Less(slots.globalUsed));
      }
      calls := calls[ref := c.(phase := Ended)];
    }

    method CheckAdmission(ref: Ref)
      requires Valid() && journal.alive
      modifies this
      ensures Abs() == Check(old(Abs()), ref)
      ensures Keeps(old(Abs()), Abs())
    {
      hide Keeps, Standing;
      CheckKeeps(Abs(), ref);
      if ref !in calls || ref.session !in sessions || calls[ref].phase != Holding { return; }
      var s := sessions[ref.session];
      if !persistenceFailed && !s.revoked && !s.paused && !calls[ref].cancelled {
        calls := calls[ref := calls[ref].(phase := Admitted)];
      } else {
        EndCall(ref);
      }
    }

    method JournalIntent(ref: Ref)
      requires Valid() && journal.alive
      modifies this, journal
      ensures Abs() == Intend(old(Abs()), ref)
      ensures Keeps(old(Abs()), Abs())
    {
      hide Keeps, Standing, Synced, Advances, MayBeginCall, Write, ReturnTo;
      StandingJournal(Abs());
      IntendKeeps(Abs(), ref);
      if ref !in calls || ref.session !in sessions || calls[ref].phase != Admitted { return; }
      var c := calls[ref];
      var reply := journal.BeginCall(c.id, sessions[ref.session].attempt, c.op);
      match reply
      case Accepted =>
        if c.id in journal.file && c.id !in old(journal.file) { intents := intents + {c.id}; }
        calls := calls[ref := c.(phase := Intended)];
      case NotPersisted => calls := calls[ref := c.(phase := BeginRefused)];
      case Rejected => EndCall(ref);
    }

    method FailPersistence(ref: Ref)
      requires Valid() && journal.alive
      modifies this
      ensures Abs() == StopBroker(old(Abs()), ref)
      ensures Keeps(old(Abs()), Abs())
    {
      hide Keeps, Standing;
      StopKeeps(Abs(), ref);
      if ref !in calls || ref.session !in sessions { return; }
      var phase := calls[ref].phase;
      if phase != BeginRefused && phase != FinishRefused { return; }
      persistenceFailed := true;
      CancelEach(set r | r in calls && r.session in current.Values);
      if phase == BeginRefused {
        EndCall(ref);
      } else {
        calls := calls[ref := calls[ref].(phase := Settled)];
      }
    }

    /** Look at the context of a call before the adapter is entered. */
    method InvokeAdapter(ref: Ref) returns (cleared: bool)
      requires Valid() && journal.alive
      modifies this
      ensures Abs() == Invoke(old(Abs()), ref)
      ensures Keeps(old(Abs()), Abs())
      ensures cleared ==> !persistenceFailed && ref.session in sessions && !sessions[ref.session].revoked
    {
      hide Keeps, Standing;
      InvokeKeeps(Abs(), ref);
      OpenUnlessCancelled(Abs(), ref);
      cleared := false;
      if ref !in calls || ref.session !in sessions || calls[ref].phase != Intended { return; }
      cleared := !calls[ref].cancelled;
      calls := calls[ref := calls[ref].(phase := if cleared then Cleared else Answered(false, NoEffect))];
    }

    /** Enter the adapter. Whatever entered for the same operation before is durably resolved. */
    method EnterAdapter(ref: Ref) returns (entered: bool)
      requires Valid() && journal.alive
      modifies this
      ensures Abs() == Enter(old(Abs()), ref)
      ensures Keeps(old(Abs()), Abs())
      ensures entered <==> entries != old(entries)
      ensures entered && old(Separated()) ==> forall i | 0 <= i < |old(entries)| && old(entries)[i].op == calls[ref].op ::
        old(entries)[i].id in journal.file && TerminalState(journal.file[old(entries)[i].id].state)
    {
      hide Keeps, Standing;
      EnterKeeps(Abs(), ref);
      entered := false;
      if ref !in calls || ref.session !in sessions || calls[ref].phase != Cleared { return; }
      var c := calls[ref];
      entered := true;
      entries := entries + [Entry(ref, c.id, c.op)];
      calls := calls[ref := c.(phase := Inside)];
      assert |entries| == |old(entries)| + 1;
      if old(Separated()) { EarlierResolved(old(Abs()), Abs(), |entries| - 1); }
    }

    method AdapterReturns(ref: Ref, ok: bool, effect: Certainty)
      requires Valid() && journal.alive
      modifies this
      ensures Abs() == Returned(old(Abs()), ref, ok, effect)
      ensures Keeps(old(Abs()), Abs())
    {
      hide Keeps, Standing;
      ReturnKeeps(Abs(), ref, ok, effect);
      if ref !in calls || ref.session !in sessions || calls[ref].phase != Inside { return; }
      calls := calls[ref := calls[ref].(phase := Answered(ok, effect))];
    }

    /** The deadline of a call, or its cancellation by the caller. */
    method ContextDone(ref: Ref)
      requires Valid() && journal.alive
      modifies this
      ensures Abs() == old(Abs()).(calls := CancelCalls(old(calls), {ref}))
      ensures Keeps(old(Abs()), Abs())
    {
      hide Keeps, Standing;
      CancelKeeps(Abs(), ref);
      CancelEach({ref});
    }

    /** A call whose context is done while it waits for a slot ends. */
    method GiveUp(ref: Ref)
      requires Valid() && journal.alive
      modifies this
      ensures Abs() == GivenUp(old(Abs()), ref)
      ensures Keeps(old(Abs()), Abs())
    {
      hide Keeps, Standing;
      GiveUpKeeps(Abs(), ref);
      if ref in calls && calls[ref].cancelled && calls[ref].phase in {WaitGlobal, WaitSession, WaitAdapter} { EndCall(ref); }
    }

    /** A call whose outcome is journaled ends. */
    method AnswerCall(ref: Ref)
      requires Valid() && journal.alive
      modifies this
      ensures Abs() == AnsweredCall(old(Abs()), ref)
      ensures Keeps(old(Abs()), Abs())
    {
      hide Keeps, Standing;
      AnswerKeeps(Abs(), ref);
      if ref in calls && ref.session in sessions && calls[ref].phase == Settled { EndCall(ref); }
    }

    /** A new process. */
    method Restart()
      requires Valid()
      modifies this, journal
      ensures Abs() == Reboot(old(Abs()))
      ensures Keeps(old(Abs()), Abs())
    {
      hide Keeps, Standing;
      RebootKeeps(Abs());
      sessions, current, calls := map[], map[], map[];
      slots, persistenceFailed := Slots(0, map[], map[]), false;
      journal.Reopen();
    }

    method JournalOutcome(ref: Ref)
      requires Valid() && journal.alive
      modifies this, journal
      ensures Abs() == Settle(old(Abs()), ref)
      ensures Keeps(old(Abs()), Abs())
    {
      hide Keeps, Standing, Synced, Advances;
      StandingJournal(Abs());
      SettleKeeps(Abs(), ref);
      if ref !in calls || !calls[ref].phase.Answered? { return; }
      var c := calls[ref];
      var reply := journal.FinishCall(c.id, c.phase.ok, c.phase.effect);
      calls := calls[ref := c.(phase := if reply == Accepted then Settled else FinishRefused)];
    }

    /** Requests that reach the journal from outside keep the broker standing, and keep the separation
        if they settle no record between the intent of a call and its entry. */
    twostate lemma JournalMoved()
      requires old(Valid()) && old(journal.alive) && unchanged(this) && journal.Valid() && Advances(old(journal.file), journal.file)
      ensures Valid()
      ensures old(Separated()) && (forall r | r in calls && Approaching(calls[r].phase) && calls[r].id in journal.file :: Unresolved(journal.file[calls[r].id]))
              ==> Separated()
    {
      JournalStands(old(Abs()), journal.Abs());
      hide Standing, Ledgered;
    }
  }

  lemma OpenUnlessCancelled(b: Broker, ref: Ref)
    requires Standing(b)
    ensures In(b, ref, Intended) && !b.calls[ref].cancelled ==> !b.failed && !b.sessions[ref.session].revoked
  {
    if In(b, ref, Intended) { assert b.calls[ref].phase != Ended; }
  }

  lemma EarlierResolved(a: Broker, b: Broker, k: nat)
    requires Ledgered(a) && Keeps(a, b) && k < |b.entries|
    ensures forall i | 0 <= i < k && b.entries[i].op == b.entries[k].op ::
      b.entries[i].id in b.journal.disk && TerminalState(b.journal.disk[b.entries[i].id].state)
  {
    forall i | 0 <= i < k && b.entries[i].op == b.entries[k].op
      ensures b.entries[i].id in b.journal.disk && TerminalState(b.journal.disk[b.entries[i].id].state)
    {
      EarlierSettled(b, i, k);
    }
  }
}
