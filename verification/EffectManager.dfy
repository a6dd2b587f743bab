/** The journal and the broker as objects that update their tables in place. Each method is
    proved to do what its function in EffectModel or BrokerModel does. */
module EffectManagers {
  import opened Storage
  import opened EffectModel

  class EffectManager {
    var records: map<string, Record>
    var file: map<string, Record>
    var alive: bool
    var outcomes: seq<Outcome>

    ghost function Abs(): Journal
      reads this
    {
      Journal(records, file, alive, outcomes)
    }

    /** The file holds well-formed records, and memory agrees with it while the process lives. */
    ghost predicate Valid()
      reads this
    {
      Synced(Abs())
    }

    constructor (plan: seq<Outcome>)
      ensures Abs() == Journal(map[], map[], true, plan) && Valid()
    {
      records, file, alive, outcomes := map[], map[], true, plan;
    }

    method SaveLocked() returns (outcome: Outcome)
      modifies this
      ensures outcome == Next(old(Abs()))
      ensures Abs() == Write(old(Abs()), old(records)).(records := old(records))
    {
      outcome := Saved;
      if outcomes != [] {
        outcome := outcomes[0];
        outcomes := outcomes[1..];
      }
      match outcome
      case Saved => file := records;
      case Refused =>
      case Crashed(wrote) =>
        alive := false;
        if wrote { file := records; }
    }

    /** Insert or replace one record and save; put the table back if that fails. */
    method Put(id: string, r: Record) returns (reply: Reply)
      modifies this
      ensures reply == ReplyOf(Next(old(Abs())))
      ensures Abs() == Write(old(Abs()), old(records)[id := r])
    {
      var before := records;
      records := records[id := r];
      var outcome := SaveLocked();
      if outcome != Saved { records := before; }
      reply := if outcome == Refused then NotPersisted else Accepted;
    }

    /** The scan over all records for an unresolved equivalent. */
    method FindEquivalent(op: Operation) returns (found: bool)
      ensures found == BlockedBy(records, op)
    {
      var left := records.Keys;
      while left != {}
        invariant left <= records.Keys
        invariant forall id | id in records && id !in left :: !Equivalent(records[id], op)
        decreases left
      {
        var id :| id in left;
        left := left - {id};
        if Equivalent(records[id], op) { return true; }
      }
      return false;
    }

    method BeginCall(id: string, attempt: string, op: Operation) returns (reply: Reply)
      requires Valid() && alive
      modifies this
      ensures (Abs(), reply) == EffectModel.BeginCall(old(Abs()), id, attempt, op)
      ensures Valid() && Advances(old(file), file)
    {
      BeginCallAdvances(old(Abs()), id, attempt, op);
      if !CallIdentified(id, attempt, op) || id in records { return Rejected; }
      var blocked := FindEquivalent(op);
      if blocked { return Rejected; }
      reply := Put(id, Record(id, attempt, op, "", EffectRunning));
    }

    method Begin(r: Record) returns (reply: Reply)
      requires Valid() && alive
      modifies this
      ensures (Abs(), reply) == EffectModel.Begin(old(Abs()), r)
      ensures Valid() && Advances(old(file), file)
    {
      BeginAdvances(old(Abs()), r);
      if !Identified(r) { return Rejected; }
      if r.id in records {
        var known := records[r.id];
        if known.op.requestHash != r.op.requestHash || known.op.target != r.op.target
           || known.attempt != r.attempt || known.op.adapter != r.op.adapter {
          return Rejected;
        }
        return Accepted;
      }
      reply := Put(r.id, r.(state := EffectRunning));
    }

    method Finish(id: string, state: EffectState, externalId: string) returns (reply: Reply)
      requires Valid() && alive
      modifies this
      ensures (Abs(), reply) == EffectModel.Finish(old(Abs()), id, state, externalId)
      ensures Valid() && Advances(old(file), file)
    {
      FinishAdvances(old(Abs()), id, state, externalId);
      if state == EffectPrepared || state == EffectRunning || id !in records { return Rejected; }
      var r := records[id];
      if !Unresolved(r) {
        return if r.state == state && r.externalId == externalId then Accepted else Rejected;
      }
      reply := Put(id, r.(state := state, externalId := externalId));
    }

    method FinishCall(id: string, ok: bool, effect: Certainty) returns (reply: Reply)
      requires Valid() && alive
      modifies this
      ensures (Abs(), reply) == EffectModel.FinishCall(old(Abs()), id, ok, effect)
      ensures Valid() && Advances(old(file), file)
    {
      FinishAdvances(old(Abs()), id, OutcomeState(ok, effect), "");
      var state := EffectInterrupted;
      if effect == NoEffect {
        state := EffectFailed;
        if ok { state := EffectSucceeded; }
      }
      reply := Finish(id, state, "");
    }

    method Reconcile(id: string, observed: EffectState, externalId: string) returns (reply: Reply)
      requires Valid() && alive
      modifies this
      ensures (Abs(), reply) == EffectModel.Reconcile(old(Abs()), id, observed, externalId)
      ensures Valid() && Advances(old(file), file)
    {
      FinishAdvances(old(Abs()), id, observed, externalId);
      NothingChanged(file);
      if id !in records || records[id].state != EffectInterrupted { return Rejected; }
      if observed != EffectSucceeded && observed != EffectFailed && observed != EffectCancelled { return Rejected; }
      reply := Finish(id, observed, externalId);
    }

    /** A new process reads the file, checks every record and interrupts what was under way. */
    method Reopen()
      modifies this
      ensures Abs() == Recover(old(Abs()))
      ensures old(Valid()) ==> Valid() && Advances(old(file), file)
      ensures old(Valid()) && alive ==> forall id | id in records :: Rank(records[id].state) > 0
    {
      if Valid() { RecoverAdvances(Abs()); }
      var valid, loaded, changed := RecoverEach(file);
      if !valid {
        alive := false;
        return;
      }
      var before := file;
      alive := true;
      records := loaded;
      if changed {
        var outcome := SaveLocked();
        if outcome != Saved { records := before; }
        if outcome == Refused { alive := false; }
      }
    }
  }

  method RecoverEach(file: map<string, Record>) returns (valid: bool, loaded: map<string, Record>, changed: bool)
    ensures valid == ValidSnapshot(file)
    ensures valid ==> loaded == RecoverRecords(file) && (changed <==> loaded != file)
  {
    loaded, changed := file, false;
    var left := file.Keys;
    while left != {}
      invariant left <= loaded.Keys == file.Keys
      invariant forall id | id in left :: loaded[id] == file[id]
      invariant forall id | id in file && id !in left ::
          loaded[id] == RecoverRecord(file[id]) && file[id].id == id && Identified(file[id])
      invariant changed <==> loaded != file
      decreases left
    {
      var id :| id in left;
      left := left - {id};
      var r := file[id];
      if r.id != id || !Identified(r) { return false, loaded, changed; }
      if r.state == EffectRunning || r.state == EffectPrepared {
        loaded := loaded[id := r.(state := EffectInterrupted)];
        assert loaded[id] != file[id];
        changed := true;
      }
    }
    return true, loaded, changed;
  }
}
