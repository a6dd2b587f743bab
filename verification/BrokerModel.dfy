/** The tool broker (runtime/toolbroker/broker.go, runtime/toolbroker/journal.go) as a state
    machine. A call is a small program that runs concurrently with all others; each constructor
    of Phase is a point between two of its atomic sections, so a sequence of events is an
    arbitrary interleaving of calls, revocations, persistence failures, crashes and restarts. */
module BrokerModel {
  import opened Storage
  import opened EffectModel

  const GLOBAL_SLOTS := 32
  const SESSION_SLOTS := 4
  const ADAPTER_SLOTS := 8

  datatype Session = Session(attempt: string, execution: string, task: string, paused: bool, revoked: bool)

  /** A call is named by its session and the caller's call id. */
  datatype Ref = Ref(session: nat, callId: string)

  datatype Phase =
    | WaitGlobal | WaitSession | WaitAdapter    // queued for slots
    | Holding                                   // all slots taken, admission not yet checked
    | Admitted                                  // admission checked, intent not yet journaled
    | BeginRefused                              // the journal could not be written
    | Intended                                  // the intent is durable
    | Cleared                                   // the context was not done when it was last looked at
    | Inside                                    // the adapter has been entered
    | Answered(ok: bool, effect: Certainty)     // the adapter has returned or was not entered
    | FinishRefused                             // the outcome could not be journaled
    | Settled                                   // the outcome is journaled
    | Ended                                     // slots returned

  datatype Call = Call(id: string, op: Operation, phase: Phase, cancelled: bool)

  datatype Slots = Slots(globalUsed: nat, sessionUsed: map<nat, nat>, adapterUsed: map<string, nat>)

  datatype Entry = Entry(ref: Ref, id: string, op: Operation)

  /** `current` is the table of open sessions by attempt. `intents` collects the identities of the
      records this broker journaled and `entries` the adapter calls entered, in order; both only
      record history and survive restarts. */
  datatype Broker = Broker(
    sessions: map<nat, Session>,
    current: map<string, nat>,
    calls: map<Ref, Call>,
    slots: Slots,
    failed: bool,
    journal: Journal,
    nextSession: nat,
    intents: set<string>,
    entries: seq<Entry>)

  datatype Event =
    | BeginAttempt(attempt: string, execution: string, task: string)
    | SetExecutionPaused(execution: string, paused: bool)
    | RevokeAttempt(attempt: string)
    | HandleCall(ref: Ref, adapter: string, tool: string, hash: string, permitted: bool)
    | ContextDone(ref: Ref)
    | TakeSlot(ref: Ref)
    | GiveUp(ref: Ref)
    | CheckAdmission(ref: Ref)
    | JournalIntent(ref: Ref)
    | FailPersistence(ref: Ref)
    | InvokeAdapter(ref: Ref)
    | EnterAdapter(ref: Ref)
    | AdapterReturns(ref: Ref, ok: bool, effect: Certainty)
    | JournalOutcome(ref: Ref)
    | EndCall(ref: Ref)
    | ExternalBegin(record: Record)
    | ExternalFinish(id: string, state: EffectState, externalId: string)
    | ReconcileEffect(id: string, observed: EffectState, externalId: string)
    | Restart

  function Used<K>(m: map<K, nat>, k: K): nat {
    if k in m then m[k] else 0
  }

  predicate In(b: Broker, ref: Ref, phase: Phase) {
    ref in b.calls && ref.session in b.sessions && b.calls[ref].phase == phase
  }

  predicate HoldsGlobal(p: Phase) {
    p != WaitGlobal && p != Ended
  }

  predicate HoldsSession(p: Phase) {
    HoldsGlobal(p) && p != WaitSession
  }

  predicate HoldsAdapter(p: Phase) {
    HoldsSession(p) && p != WaitAdapter
  }

  function SetPhase(b: Broker, ref: Ref, phase: Phase): Broker
    requires ref in b.calls
  {
    b.(calls := b.calls[ref := b.calls[ref].(phase := phase)])
  }

  /** The context is done for every call in `refs` that has not ended. */
  function CancelCalls(calls: map<Ref, Call>, refs: set<Ref>): map<Ref, Call> {
    map r | r in calls :: if r in refs && calls[r].phase != Ended then calls[r].(cancelled := true) else calls[r]
  }

  function CallsOf(b: Broker, session: nat): set<Ref> {
    set r | r in b.calls && r.session == session
  }

  function CurrentCalls(b: Broker): set<Ref> {
    set r | r in b.calls && r.session in b.current.Values
  }

  function Open(b: Broker, attempt: string, execution: string, task: string): Broker {
    if attempt == "" || execution == "" || task == "" || b.failed || attempt in b.current then b
    else
      b.(sessions := b.sessions[b.nextSession := Session(attempt, execution, task, false, false)],
         current := b.current[attempt := b.nextSession],
         nextSession := b.nextSession + 1)
  }

  function PauseSessions(b: Broker, execution: string, paused: bool): Broker {
    b.(sessions := map s | s in b.sessions ::
      if s in b.current.Values && b.sessions[s].execution == execution
      then b.sessions[s].(paused := paused) else b.sessions[s])
  }

  function Revoke(b: Broker, attempt: string): Broker {
    if attempt !in b.current || b.current[attempt] !in b.sessions then b
    else
      var s := b.current[attempt];
      b.(sessions := b.sessions[s := b.sessions[s].(revoked := true)],
         current := b.current - {attempt},
         calls := CancelCalls(b.calls, CallsOf(b, s)))
  }

  /** The registration section of a request: a known call id is answered from its record, so only
      a new one starts a call. `permitted` stands for tool lookup, grants and argument checks. */
  function Register(b: Broker, ref: Ref, adapter: string, tool: string, hash: string, permitted: bool): Broker {
    if ref.session !in b.sessions || b.failed || b.sessions[ref.session].revoked || b.sessions[ref.session].paused
       || ref in b.calls || !permitted
    then b
    else
      var s := b.sessions[ref.session];
      b.(calls := b.calls[ref := Call(s.attempt + "/" + ref.callId,
           Operation(s.execution, s.task, adapter, tool, hash), WaitGlobal, false)])
  }

  /** The slot a queued call waits for, if one is free: global, then session, then adapter. */
  predicate SlotFree(slots: Slots, ref: Ref, c: Call) {
    match c.phase
    case WaitGlobal => slots.globalUsed < GLOBAL_SLOTS
    case WaitSession => Used(slots.sessionUsed, ref.session) < SESSION_SLOTS
    case WaitAdapter => Used(slots.adapterUsed, c.op.adapter) < ADAPTER_SLOTS
    case _ => false
  }

  function AfterSlot(p: Phase): Phase {
    if p == WaitGlobal then WaitSession else if p == WaitSession then WaitAdapter else Holding
  }

  function TakeFrom(slots: Slots, ref: Ref, c: Call): Slots {
    match c.phase
    case WaitGlobal => slots.(globalUsed := slots.globalUsed + 1)
    case WaitSession =>
      slots.(sessionUsed := slots.sessionUsed[ref.session := Used(slots.sessionUsed, ref.session) + 1])
    case _ =>
      slots.(adapterUsed := slots.adapterUsed[c.op.adapter := Used(slots.adapterUsed, c.op.adapter) + 1])
  }

  function Less(n: nat): nat {
    if n == 0 then 0 else n - 1
  }

  /** Exactly the slots the call holds. */
  function ReturnTo(slots: Slots, ref: Ref, c: Call): Slots {
    Slots(
      if HoldsGlobal(c.phase) then Less(slots.globalUsed) else slots.globalUsed,
      if HoldsSession(c.phase) then slots.sessionUsed[ref.session := Less(Used(slots.sessionUsed, ref.session))]
      else slots.sessionUsed,
      if HoldsAdapter(c.phase) then slots.adapterUsed[c.op.adapter := Less(Used(slots.adapterUsed, c.op.adapter))]
      else slots.adapterUsed)
  }

  function Take(b: Broker, ref: Ref): Broker {
    if ref !in b.calls || !SlotFree(b.slots, ref, b.calls[ref]) then b
    else SetPhase(b, ref, AfterSlot(b.calls[ref].phase)).(slots := TakeFrom(b.slots, ref, b.calls[ref]))
  }

  function Release(b: Broker, ref: Ref): Broker
    requires ref in b.calls
  {
    SetPhase(b, ref, Ended).(slots := ReturnTo(b.slots, ref, b.calls[ref]))
  }

  function Check(b: Broker, ref: Ref): Broker {
    if !In(b, ref, Holding) then b
    else
      var s := b.sessions[ref.session];
      if !b.failed && !s.revoked && !s.paused && !b.calls[ref].cancelled then SetPhase(b, ref, Admitted)
      else Release(b, ref)
  }

  function Intend(b: Broker, ref: Ref): Broker {
    if !In(b, ref, Admitted) then b
    else
      var c := b.calls[ref];
      var (j, reply) := BeginCall(b.journal, c.id, b.sessions[ref.session].attempt, c.op);
      var recorded := if c.id in j.disk && c.id !in b.journal.disk then b.intents + {c.id} else b.intents;
      match reply
      case Accepted => SetPhase(b, ref, Intended).(journal := j, intents := recorded)
      case NotPersisted => SetPhase(b, ref, BeginRefused).(journal := j)
      case Rejected => Release(b, ref)
  }

  /** The broker stops: no new attempts or calls, and every call of an open session is cancelled. */
  function StopBroker(b: Broker, ref: Ref): Broker {
    var stopped := b.(failed := true, calls := CancelCalls(b.calls, CurrentCalls(b)));
    if In(b, ref, BeginRefused) then Release(stopped, ref)
    else if In(b, ref, FinishRefused) then SetPhase(stopped, ref, Settled)
    else b
  }

  /** The look at the context. No lock is held between it and the entry. */
  function Invoke(b: Broker, ref: Ref): Broker {
    if !In(b, ref, Intended) then b
    else SetPhase(b, ref, if b.calls[ref].cancelled then Answered(false, NoEffect) else Cleared)
  }

  function Enter(b: Broker, ref: Ref): Broker {
    if !In(b, ref, Cleared) then b
    else SetPhase(b, ref, Inside).(entries := b.entries + [Entry(ref, b.calls[ref].id, b.calls[ref].op)])
  }

  function Settle(b: Broker, ref: Ref): Broker {
    if ref !in b.calls || !b.calls[ref].phase.Answered? then b
    else
      var c := b.calls[ref];
      var (j, reply) := FinishCall(b.journal, c.id, c.phase.ok, c.phase.effect);
      SetPhase(b, ref, if reply == Accepted then Settled else FinishRefused).(journal := j)
  }

  /** A new process: sessions, calls and slots are gone; the journal recovers from disk. */
  function Reboot(b: Broker): Broker {
    Broker(map[], map[], map[], Slots(0, map[], map[]), false, Recover(b.journal), b.nextSession, b.intents, b.entries)
  }

  function Step(b: Broker, e: Event): Broker {
    if e.Restart? then Reboot(b)
    else if !b.journal.alive then b
    else
      match e
      case BeginAttempt(attempt, execution, task) => Open(b, attempt, execution, task)
      case SetExecutionPaused(execution, paused) => PauseSessions(b, execution, paused)
      case RevokeAttempt(attempt) => Revoke(b, attempt)
      case HandleCall(ref, adapter, tool, hash, permitted) => Register(b, ref, adapter, tool, hash, permitted)
      case ContextDone(ref) => b.(calls := CancelCalls(b.calls, {ref}))
      case TakeSlot(ref) => Take(b, ref)
      case GiveUp(ref) =>
        if ref in b.calls && b.calls[ref].cancelled && b.calls[ref].phase in {WaitGlobal, WaitSession, WaitAdapter}
        then Release(b, ref) else b
      case CheckAdmission(ref) => Check(b, ref)
      case JournalIntent(ref) => Intend(b, ref)
      case FailPersistence(ref) => StopBroker(b, ref)
      case InvokeAdapter(ref) => Invoke(b, ref)
      case EnterAdapter(ref) => Enter(b, ref)
      case AdapterReturns(ref, ok, effect) =>
        if In(b, ref, Inside) then SetPhase(b, ref, Answered(ok, effect)) else b
      case JournalOutcome(ref) => Settle(b, ref)
      case EndCall(ref) => if In(b, ref, Settled) then Release(b, ref) else b
      case ExternalBegin(record) => b.(journal := Begin(b.journal, record).0)
      case ExternalFinish(id, state, externalId) => b.(journal := Finish(b.journal, id, state, externalId).0)
      case ReconcileEffect(id, observed, externalId) => b.(journal := Reconcile(b.journal, id, observed, externalId).0)
      case Restart => b
  }

  function Run(b: Broker, events: seq<Event>): Broker {
    if events == [] then b else Step(Run(b, events[..|events| - 1]), events[|events| - 1])
  }

  function Boot(plan: seq<Outcome>): Broker {
    Broker(map[], map[], map[], Slots(0, map[], map[]), false, Journal(map[], map[], true, plan), 0, {}, [])
  }
}
