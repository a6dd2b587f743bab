/** The effect journal (runtime/agent/effects.go, runtime/agent/broker_effects.go): a durable
    table of operations that may outlive the worker that asked for them. Every update is written
    through; a refused write leaves the table as it was. */
module EffectModel {
  import opened Storage

  datatype EffectState =
    | EffectPrepared | EffectRunning | EffectSucceeded | EffectFailed | EffectCancelled | EffectInterrupted

  datatype Certainty = NoEffect | EffectStarted | Uncertain

  datatype Operation = Operation(execution: string, task: string, adapter: string, target: string, requestHash: string)

  datatype Record = Record(id: string, attempt: string, op: Operation, externalId: string, state: EffectState)

  datatype Journal = Journal(records: map<string, Record>, disk: map<string, Record>, alive: bool, plan: seq<Outcome>)

  datatype Reply = Accepted | Rejected | NotPersisted

  predicate Unresolved(r: Record) {
    r.state == EffectPrepared || r.state == EffectRunning || r.state == EffectInterrupted
  }

  predicate Equivalent(r: Record, op: Operation) {
    r.op == op && Unresolved(r)
  }

  predicate BlockedBy(records: map<string, Record>, op: Operation) {
    exists id | id in records :: Equivalent(records[id], op)
  }

  predicate Identified(r: Record) {
    r.id != "" && r.attempt != "" && r.op.adapter != "" && r.op.target != "" && r.op.requestHash != ""
  }

  function Next(j: Journal): Outcome {
    if j.plan == [] then Saved else j.plan[0]
  }

  function ReplyOf(outcome: Outcome): Reply {
    if outcome == Refused then NotPersisted else Accepted
  }

  /** Install `records` and save; revert if the write is refused. */
  function Write(j: Journal, records: map<string, Record>): Journal {
    var rest := j.(plan := if j.plan == [] then [] else j.plan[1..]);
    match Next(j)
    case Saved => rest.(records := records, disk := records)
    case Refused => rest
    case Crashed(wrote) => rest.(alive := false, disk := if wrote then records else j.disk)
  }

  predicate CallIdentified(id: string, attempt: string, op: Operation) {
    id != "" && attempt != "" && op.execution != "" && op.task != "" && op.adapter != "" && op.target != "" && op.requestHash != ""
  }

  predicate MayBeginCall(j: Journal, id: string, attempt: string, op: Operation) {
    CallIdentified(id, attempt, op) && id !in j.records && !BlockedBy(j.records, op)
  }

  function BeginCall(j: Journal, id: string, attempt: string, op: Operation): (Journal, Reply) {
    if !MayBeginCall(j, id, attempt, op) then (j, Rejected)
    else (Write(j, j.records[id := Record(id, attempt, op, "", EffectRunning)]), ReplyOf(Next(j)))
  }

  function Begin(j: Journal, r: Record): (Journal, Reply) {
    if !Identified(r) then (j, Rejected)
    else if r.id in j.records then
      var known := j.records[r.id];
      (j, if known.op.requestHash != r.op.requestHash || known.op.target != r.op.target
             || known.attempt != r.attempt || known.op.adapter != r.op.adapter then Rejected else Accepted)
    else (Write(j, j.records[r.id := r.(state := EffectRunning)]), ReplyOf(Next(j)))
  }

  predicate MayFinish(j: Journal, id: string, state: EffectState) {
    state != EffectPrepared && state != EffectRunning && id in j.records && Unresolved(j.records[id])
  }

  function Finish(j: Journal, id: string, state: EffectState, externalId: string): (Journal, Reply) {
    if MayFinish(j, id, state) then
      (Write(j, j.records[id := j.records[id].(state := state, externalId := externalId)]), ReplyOf(Next(j)))
    else
      (j, if state != EffectPrepared && state != EffectRunning && id in j.records && j.records[id].state == state
             && j.records[id].externalId == externalId then Accepted else Rejected)
  }

  /** Only an effect known not to have happened, or to have happened, is settled; anything else
      stays open for reconciliation. */
  function OutcomeState(ok: bool, effect: Certainty): EffectState {
    if effect == NoEffect then (if ok then EffectSucceeded else EffectFailed) else EffectInterrupted
  }

  function FinishCall(j: Journal, id: string, ok: bool, effect: Certainty): (Journal, Reply) {
    Finish(j, id, OutcomeState(ok, effect), "")
  }

  function Reconcile(j: Journal, id: string, observed: EffectState, externalId: string): (Journal, Reply) {
    if id !in j.records || j.records[id].state != EffectInterrupted then (j, Rejected)
    else if observed != EffectSucceeded && observed != EffectFailed && observed != EffectCancelled then (j, Rejected)
    else Finish(j, id, observed, externalId)
  }

  function RecoverRecord(r: Record): Record {
    if r.state == EffectRunning || r.state == EffectPrepared then r.(state := EffectInterrupted) else r
  }

  function RecoverRecords(records: map<string, Record>): map<string, Record> {
    map id | id in records :: RecoverRecord(records[id])
  }

  predicate ValidSnapshot(records: map<string, Record>) {
    forall id | id in records :: records[id].id == id && Identified(records[id])
  }

  /** A new process: it comes up only on a valid snapshot, and only once every operation that was
      under way is durably marked interrupted. */
  function Recover(j: Journal): Journal {
    var loaded := j.(alive := true, records := j.disk);
    if !ValidSnapshot(j.disk) then j.(alive := false)
    else if RecoverRecords(j.disk) == j.disk then loaded
    else if Next(j).Refused? then Write(loaded, j.disk).(alive := false)
    else Write(loaded, RecoverRecords(j.disk))
  }

  // ---------- what the journal promises on its own ----------

  /** How settled a record is; updates never lower it. */
  function Rank(state: EffectState): nat {
    if state == EffectPrepared || state == EffectRunning then 0
    else if state == EffectInterrupted then 1 else 2
  }

  ghost predicate Synced(j: Journal) {
    ValidSnapshot(j.disk) && (j.alive ==> j.records == j.disk)
  }

  /** Records are only added and only become more settled; a settled one never changes. */
  ghost predicate Advances(before: map<string, Record>, after: map<string, Record>) {
    forall id | id in before ::
      && id in after
      && after[id].op == before[id].op && after[id].attempt == before[id].attempt
      && Rank(before[id].state) <= Rank(after[id].state)
      && (Rank(before[id].state) == 2 ==> after[id] == before[id])
  }

  lemma WriteAdvances(j: Journal, records: map<string, Record>)
    requires Synced(j) && j.alive && ValidSnapshot(records) && Advances(j.disk, records)
    ensures Synced(Write(j, records)) && Advances(j.disk, Write(j, records).disk)
  {
  }

  lemma RecoveredRecords(records: map<string, Record>)
    requires ValidSnapshot(records)
    ensures ValidSnapshot(RecoverRecords(records)) && Advances(records, RecoverRecords(records))
    ensures forall id | id in RecoverRecords(records) :: Rank(RecoverRecords(records)[id].state) > 0
  {
  }

  /** Recovery comes up only when nothing is left running. */
  lemma RecoverAdvances(j: Journal)
    requires Synced(j)
    ensures Synced(Recover(j)) && Advances(j.disk, Recover(j).disk)
    ensures Recover(j).alive ==> forall id | id in Recover(j).records :: Rank(Recover(j).records[id].state) > 0
  {
    RecoveredRecords(j.disk);
    NothingChanged(j.disk);
    hide ValidSnapshot, Advances, RecoverRecords;
    if RecoverRecords(j.disk) != j.disk && !Next(j).Refused? {
      WriteAdvances(j.(alive := true, records := j.disk), RecoverRecords(j.disk));
    }
  }

  lemma NothingChanged(records: map<string, Record>)
    ensures Advances(records, records)
  {
  }

  lemma BeginCallAdvances(j: Journal, id: string, attempt: string, op: Operation)
    requires Synced(j) && j.alive
    ensures Synced(BeginCall(j, id, attempt, op).0) && Advances(j.disk, BeginCall(j, id, attempt, op).0.disk)
  {
    NothingChanged(j.disk);
    if MayBeginCall(j, id, attempt, op) {
      WriteAdvances(j, j.records[id := Record(id, attempt, op, "", EffectRunning)]);
    }
  }

  lemma BeginAdvances(j: Journal, r: Record)
    requires Synced(j) && j.alive
    ensures Synced(Begin(j, r).0) && Advances(j.disk, Begin(j, r).0.disk)
  {
    NothingChanged(j.disk);
    if Identified(r) && r.id !in j.records {
      WriteAdvances(j, j.records[r.id := r.(state := EffectRunning)]);
    }
  }

  lemma FinishAdvances(j: Journal, id: string, state: EffectState, externalId: string)
    requires Synced(j) && j.alive
    ensures Synced(Finish(j, id, state, externalId).0) && Advances(j.disk, Finish(j, id, state, externalId).0.disk)
  {
    NothingChanged(j.disk);
    if MayFinish(j, id, state) {
      WriteAdvances(j, j.records[id := j.records[id].(state := state, externalId := externalId)]);
    }
  }

  // ---------- calls, outcomes and reconciliation together ----------

  /** No other unresolved record has this operation. */
  ghost predicate OnlyHolder(records: map<string, Record>, id: string, op: Operation) {
    forall other | other in records && other != id :: !Equivalent(records[other], op)
  }

  /** A call whose effect is certain not to have started frees its operation at once. Any other
      outcome, success included, keeps blocking it. */
  lemma UncertaintyBlocks(j: Journal, id: string, ok: bool, effect: Certainty)
    requires j.alive && j.plan == [] && id in j.records && Unresolved(j.records[id]) && OnlyHolder(j.records, id, j.records[id].op)
    ensures var t := FinishCall(j, id, ok, effect).0;
      && t.alive && t.plan == [] && id in t.records && OnlyHolder(t.records, id, j.records[id].op)
      && t.records[id].op == j.records[id].op
      && (BlockedBy(t.records, j.records[id].op) <==> effect != NoEffect)
      && (effect != NoEffect ==> t.records[id].state == EffectInterrupted)
  {
    var t := FinishCall(j, id, ok, effect).0;
    assert t.records == j.records[id := j.records[id].(state := OutcomeState(ok, effect), externalId := "")];
    if effect != NoEffect { assert Equivalent(t.records[id], j.records[id].op); }
  }

  /** And only a reconciliation with an observed terminal state frees it again. */
  lemma ReconciliationFrees(j: Journal, id: string, observed: EffectState, externalId: string)
    requires j.alive && j.plan == [] && id in j.records && j.records[id].state == EffectInterrupted
    requires OnlyHolder(j.records, id, j.records[id].op)
    ensures var t := Reconcile(j, id, observed, externalId).0;
      BlockedBy(t.records, j.records[id].op) <==> observed != EffectSucceeded && observed != EffectFailed && observed != EffectCancelled
  {
    var t := Reconcile(j, id, observed, externalId).0;
    if observed != EffectSucceeded && observed != EffectFailed && observed != EffectCancelled {
      assert Equivalent(t.records[id], j.records[id].op);
    } else {
      assert t.records == j.records[id := j.records[id].(state := observed, externalId := externalId)];
    }
  }
}
