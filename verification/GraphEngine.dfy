/** The engine as it runs: maps updated in place under one lock, loops over nodes and children.
    Each method is proved to move the state exactly as its function in EngineModel does, so what
    is proved there about runs holds of these methods. */
module GraphEngines {
  import opened Collections
  import opened Graph
  import opened Workflow
  import opened Storage
  import opened EngineModel
  import opened EngineDurability
  import opened EngineCausality
  import opened EngineProgress

  /** What a handler keeps, from the weakest assumptions to the strongest: the durable accounts of
      graphs and tasks always; order and terminal statuses if no write has been or is refused; and
      progress if moreover no write crashes and the event is orderly. */
  ghost predicate Carried(s: Engine, event: Event, t: Engine) {
    && Durable(t)
    && (Ordered(s) ==> Advances(s, t))
    && (AllMoving(s) && Orderly(s, event) ==> AllMoving(t))
  }

  lemma StepCarries(s: Engine, event: Event)
    requires Durable(s) && Admissible(event)
    ensures Carried(s, event, Step(s, event))
  {
    hide Durable, Ordered, Advances, AllMoving, Orderly, Admissible, Step;
    StepKeeps(s, event);
    if Ordered(s) { EngineCausality.StepAdvances(s, event); }
    if AllMoving(s) && Orderly(s, event) { StepMoves(s, event); }
  }

  lemma SubmitCarries(s: Engine, x: ExecId, wf: Definition, accepting: bool)
    requires Durable(s) && s.alive && Admissible(Event.SubmitWorkflow(x, wf, accepting))
    ensures Carried(s, Event.SubmitWorkflow(x, wf, accepting), Submit(s, x, wf, accepting))
  {
    hide Submit, Durable, Carried;
    StepCarries(s, Event.SubmitWorkflow(x, wf, accepting));
  }

  lemma StartCarries(s: Engine, x: ExecId, n: NodeId, attempt: string)
    requires Durable(s) && s.alive
    ensures Carried(s, AttemptStarted(x, n, attempt), StartAttempt(s, x, n, attempt))
  {
    hide StartAttempt, Durable, Carried;
    StepCarries(s, AttemptStarted(x, n, attempt));
  }

  lemma FinishCarries(s: Engine, x: ExecId)
    requires Durable(s) && s.alive
    ensures Carried(s, AttemptFinished(x), FinishAttempt(s, x))
  {
    hide FinishAttempt, Durable, Carried;
    StepCarries(s, AttemptFinished(x));
  }

  lemma MutateCarries(s: Engine, x: ExecId, n: NodeId, attempt: string, target: string, back: bool, admitted: bool, authorized: bool)
    requires Durable(s) && s.alive
    ensures Carried(s, GraphMutationRequested(x, n, attempt, target, back, admitted, authorized), Mutate(s, x, n, attempt, target, back, admitted, authorized))
  {
    hide Mutate, Durable, Carried;
    StepCarries(s, GraphMutationRequested(x, n, attempt, target, back, admitted, authorized));
  }

  lemma StoreCarries(s: Engine, x: ExecId, n: NodeId)
    requires Durable(s) && s.alive
    ensures Carried(s, ArtifactStored(x, n), StoreArtifact(s, x, n))
  {
    hide StoreArtifact, Durable, Carried;
    StepCarries(s, ArtifactStored(x, n));
  }

  lemma CompleteCarries(s: Engine, x: ExecId, n: NodeId, attempt: string)
    requires Durable(s) && s.alive
    ensures Carried(s, WorkerCompleted(x, n, attempt), Complete(s, x, n, attempt))
  {
    hide Complete, Durable, Carried;
    StepCarries(s, WorkerCompleted(x, n, attempt));
  }

  lemma FailCarries(s: Engine, x: ExecId, n: NodeId)
    requires Durable(s) && s.alive
    ensures Carried(s, WorkerFailed(x, n), FailWorker(s, x, n))
  {
    hide FailWorker, Durable, Carried;
    StepCarries(s, WorkerFailed(x, n));
  }

  lemma KillCarries(s: Engine, x: ExecId)
    requires Durable(s) && s.alive
    ensures Carried(s, ExecutionKilled(x), Kill(s, x))
  {
    hide Kill, Durable, Carried;
    StepCarries(s, ExecutionKilled(x));
  }

  lemma PauseCarries(s: Engine, x: ExecId)
    requires Durable(s) && s.alive
    ensures Carried(s, ExecutionPauseRequested(x), Pause(s, x))
  {
    hide Pause, Durable, Carried;
    StepCarries(s, ExecutionPauseRequested(x));
  }

  lemma ResumeCarries(s: Engine, x: ExecId, order: seq<NodeId>)
    requires Durable(s) && s.alive
    ensures Carried(s, ExecutionResumed(x, order), Resume(s, x, order))
  {
    hide Resume, Durable, Carried;
    StepCarries(s, ExecutionResumed(x, order));
  }

  lemma ReconcileCarries(s: Engine, x: ExecId, action: Action, order: seq<NodeId>)
    requires Durable(s) && s.alive
    ensures Carried(s, ExecutionReconciled(x, action, order), Reconcile(s, x, action, order))
  {
    hide Reconcile, Durable, Carried;
    StepCarries(s, ExecutionReconciled(x, action, order));
  }

  lemma OverloadCarries(s: Engine)
    requires Durable(s) && s.alive
    ensures Carried(s, RuntimeOverloaded, Overload(s))
  {
    hide Overload, Durable, Carried;
    StepCarries(s, RuntimeOverloaded);
  }

  lemma RecoverCarries(s: Engine)
    requires Durable(s)
    ensures Carried(s, Event.Restart, Recover(s))
  {
    hide Recover, Durable, Carried;
    StepCarries(s, Event.Restart);
  }

  /** The range over a state map that rewrites every node state. */
  method SweepStates(states: map<NodeId, NodeState>, f: NodeState -> NodeState)
    returns (r: map<NodeId, NodeState>)
    ensures r == Sweep(states, f)
  {
    r := states;
    var left := states.Keys;
    while left != {}
      invariant left <= states.Keys == r.Keys
      invariant forall n | n in states :: r[n] == if n in left then states[n] else f(states[n])
      decreases left
    {
      var n :| n in left;
      r := r[n := f(r[n])];
      left := left - {n};
    }
  }

  /** The scan that decides whether an execution is complete. */
  method EveryNodeDone(e: Execution) returns (done: bool)
    ensures done == AllDone(e)
  {
    var left := e.states.Keys;
    while left != {}
      invariant left <= e.states.Keys
      invariant forall n | n in e.states && n !in left :: e.states[n] == NodeDone
      decreases left
    {
      var n :| n in left;
      if e.states[n] != NodeDone { return false; }
      left := left - {n};
    }
    return true;
  }

  /** The scan over incoming dependencies. */
  method DependenciesDone(e: Execution, n: NodeId) returns (done: bool)
    ensures done == ParentsDone(e, n)
  {
    var parents := At(e.workflow.parents, n);
    for i := 0 to |parents|
      invariant forall p | p in parents[..i] :: Is(e, p, NodeDone)
    {
      if !Is(e, parents[i], NodeDone) { return false; }
    }
    assert parents[..|parents|] == parents;
    return true;
  }

  /** The constructor of an execution: a loop that makes every node pending. */
  method NewWorkflowExecution(wf: Definition, status: Status, maxNodes: nat) returns (e: Execution)
    ensures e == NewExecution(wf, status, maxNodes)
  {
    var states: map<NodeId, NodeState> := map[];
    var left := wf.nodes.Keys;
    while left != {}
      invariant left <= wf.nodes.Keys && states.Keys == wf.nodes.Keys - left
      invariant forall n | n in states :: states[n] == NodePending
      decreases left
    {
      var n :| n in left;
      states := states[n := NodePending];
      left := left - {n};
    }
    e := Execution(wf, status, states, map[], maxNodes, 0);
    assert e.states == NewExecution(wf, status, maxNodes).states;
  }

  method Interrupted(e: Execution, target: bool, n: NodeId) returns (r: Execution)
    ensures r == Interrupt(e, target, n)
  {
    if !InProgress(e) && !target { return e; }
    var states := SweepStates(e.states, InterruptRunning);
    if target && n in states { states := states[n := NodeInterrupted]; }
    r := e.(status := ExecutionInterrupted, states := states);
    assert r.states == Interrupt(e, target, n).states;
  }

  /** The range over the executions after a refused write. */
  method InterruptEach(xs: map<ExecId, Execution>, x: ExecId, n: NodeId)
    returns (r: map<ExecId, Execution>, affected: set<ExecId>)
    ensures r == map y | y in xs :: Interrupt(xs[y], y == x, n)
    ensures affected == set y | y in xs && (InProgress(xs[y]) || y == x)
  {
    hide Interrupt;
    r, affected := xs, {};
    var left := xs.Keys;
    while left != {}
      invariant left <= xs.Keys == r.Keys
      invariant forall y | y in left :: r[y] == xs[y]
      invariant forall y | y in xs && y !in left :: r[y] == Interrupt(xs[y], y == x, n)
      invariant affected == set y | y in xs && y !in left && (InProgress(xs[y]) || y == x)
      decreases left
    {
      var y :| y in left;
      left := left - {y};
      var e := Interrupted(xs[y], y == x, n);
      r := r[y := e];
      if InProgress(xs[y]) || y == x { affected := affected + {y}; }
    }
  }

  /** The range over the executions of an overloaded runtime. */
  method FailEach(xs: map<ExecId, Execution>) returns (r: map<ExecId, Execution>, affected: set<ExecId>)
    ensures r == map y | y in xs :: if InProgress(xs[y]) then Failed(xs[y]) else xs[y]
    ensures affected == set y | y in xs && InProgress(xs[y])
  {
    r, affected := xs, {};
    var left := xs.Keys;
    while left != {}
      invariant left <= xs.Keys == r.Keys
      invariant forall y | y in left :: r[y] == xs[y]
      invariant forall y | y in xs && y !in left :: r[y] == if InProgress(xs[y]) then Failed(xs[y]) else xs[y]
      invariant affected == set y | y in xs && y !in left && InProgress(xs[y])
      decreases left
    {
      var y :| y in left;
      left := left - {y};
      if InProgress(xs[y]) {
        var states := SweepStates(xs[y].states, FailUnfinished);
        r := r[y := xs[y].(status := ExecutionFailed, states := states)];
        affected := affected + {y};
      }
    }
  }

  method AnyNodeRunning(e: Execution) returns (found: bool)
    ensures found == exists n | n in e.states :: e.states[n] == NodeRunning
  {
    var left := e.states.Keys;
    while left != {}
      invariant left <= e.states.Keys
      invariant forall n | n in e.states && n !in left :: e.states[n] != NodeRunning
      decreases left
    {
      var n :| n in left;
      if e.states[n] == NodeRunning { return true; }
      left := left - {n};
    }
    return false;
  }

  /** The range over the loaded executions of a new process. */
  method RecoverEach(xs: map<ExecId, Execution>, maxNodes: nat)
    returns (r: map<ExecId, Execution>, recovered: bool)
    ensures r == RecoverAll(xs, maxNodes)
    ensures recovered == exists y | y in xs :: NeedsRecovery(xs[y])
  {
    r, recovered := xs, false;
    var left := xs.Keys;
    while left != {}
      invariant left <= xs.Keys == r.Keys
      invariant forall y | y in left :: r[y] == xs[y]
      invariant forall y | y in xs && y !in left :: r[y] == RecoverExecution(xs[y], maxNodes)
      invariant recovered == exists y | y in xs && y !in left :: NeedsRecovery(xs[y])
      decreases left
    {
      var y :| y in left;
      left := left - {y};
      var e := xs[y];
      var running := AnyNodeRunning(e);
      var states := SweepStates(e.states, InterruptRunning);
      recovered := recovered || e.status == ExecutionRunning || running;
      r := r[y := e.(
        status := if e.status == ExecutionRunning then ExecutionInterrupted else e.status,
        states := states,
        maxNodes := if e.maxNodes == 0 then maxNodes else e.maxNodes)];
    }
  }

  class GraphEngine {
    var executions: map<ExecId, Execution>
    var cancelled: set<ExecId>
    var paused: set<ExecId>
    var store: Snapshot
    var alive: bool
    var outcomes: seq<Outcome>
    var published: multiset<Task>
    ghost var retries: multiset<ExecId>
    const maxNodes: nat

    ghost function Abs(): Engine
      reads this
    {
      Engine(Snapshot(executions, cancelled, paused), store, alive, outcomes, published, retries, maxNodes)
    }

    ghost predicate Valid()
      reads this
    {
      Durable(Abs())
    }

    /** At any time a node was announced as a task at most once, plus once for every durable retry. */
    lemma AnnouncedWithinRetries(x: ExecId, n: NodeId)
      requires Valid()
      ensures published[Task(x, n)] <= 1 + retries[x]
    {
      if Task(x, n) in published {
        assert x in store.executions;
        assert published[Task(x, n)] <= Budget(store.executions[x], n, retries[x]);
      }
    }

    constructor (plan: seq<Outcome>, maxNodes: nat)
      ensures Abs() == Boot(plan, maxNodes) && Valid()
    {
      executions, cancelled, paused := map[], {}, {};
      store := Snapshot(map[], {}, {});
      alive, outcomes, published, retries := true, plan, multiset{}, multiset{};
      this.maxNodes := maxNodes;
    }

    method PersistLocked() returns (outcome: Outcome)
      modifies this
      ensures outcome == Next(old(Abs())) && Abs() == Persist(old(Abs()))
    {
      outcome := Saved;
      if outcomes != [] {
        outcome := outcomes[0];
        outcomes := outcomes[1..];
      }
      var snapshot := Snapshot(executions, cancelled, paused);
      match outcome
      case Saved => store := snapshot;
      case Refused =>
      case Crashed(wrote) =>
        alive := false;
        if wrote { store := snapshot; }
    }

    method ReportPersistenceFailure(x: ExecId, n: NodeId)
      modifies this
      ensures Abs() == ReportFailure(old(Abs()), x, n)
    {
      var affected;
      executions, affected := InterruptEach(executions, x, n);
      cancelled := cancelled + affected;
    }

    method CommitOrReport(x: ExecId, n: NodeId)
      modifies this
      ensures Abs() == Commit(old(Abs()), x, n)
    {
      var outcome := PersistLocked();
      if outcome == Refused { ReportPersistenceFailure(x, n); }
    }

    method DispatchNode(x: ExecId, n: NodeId)
      requires x in executions
      modifies this
      ensures x in executions && Abs() == EngineModel.DispatchNode(old(Abs()), x, n)
    {
      executions := executions[x := SetNode(executions[x], n, NodeRunning)];
      var outcome := PersistLocked();
      match outcome
      case Saved => published := published + multiset{Task(x, n)};
      case Refused => ReportPersistenceFailure(x, n);
      case Crashed(_) =>
    }

    method CheckAndDispatch(x: ExecId, n: NodeId)
      requires x in executions
      modifies this
      ensures x in executions && Abs() == EngineModel.CheckAndDispatch(old(Abs()), x, n)
    {
      var e := executions[x];
      if !alive || e.status != ExecutionRunning || !Is(e, n, NodePending) { return; }
      var ready := DependenciesDone(e, n);
      if ready { DispatchNode(x, n); }
    }

    method DispatchEach(x: ExecId, ns: seq<NodeId>)
      requires x in executions
      modifies this
      ensures x in executions && Abs() == DispatchAll(old(Abs()), x, ns)
    {
      for i := 0 to |ns|
        invariant x in executions
        invariant DispatchAll(Abs(), x, ns[i..]) == DispatchAll(old(Abs()), x, ns)
      {
        assert ns[i..][1..] == ns[i + 1..];
        CheckAndDispatch(x, ns[i]);
      }
    }

    method SubmitWorkflow(x: ExecId, wf: Definition, accepting: bool) returns (ok: bool)
      requires alive
      modifies this
      ensures Abs() == Submit(old(Abs()), x, wf, accepting)
      ensures old(Valid()) && Admissible(Event.SubmitWorkflow(x, wf, accepting)) ==> Carried(old(Abs()), Event.SubmitWorkflow(x, wf, accepting), Abs())
    {
      hide Durable, Carried;
      if Valid() && Admissible(Event.SubmitWorkflow(x, wf, accepting)) { SubmitCarries(Abs(), x, wf, accepting); }
      if !accepting || x in cancelled || x == "" || |wf.nodes| == 0 || |wf.nodes| > maxNodes || x in executions {
        return false;
      }
      var before := executions;
      var status := if x in paused then ExecutionPaused else ExecutionRunning;
      var created := NewWorkflowExecution(wf, status, maxNodes);
      executions := executions[x := created];
      var outcome := PersistLocked();
      match outcome
      case Refused =>
        executions := before;
        return false;
      case Crashed(_) => return false;
      case Saved =>
        ghost var admitted := Abs();
        assert wf.roots[0..] == wf.roots;
        for i := 0 to |wf.roots|
          invariant x in executions
          invariant DispatchRoots(Abs(), x, wf.roots[i..]) == DispatchRoots(admitted, x, wf.roots)
        {
          assert wf.roots[i..][1..] == wf.roots[i + 1..];
          if alive { DispatchNode(x, wf.roots[i]); }
        }
        return true;
    }

    method OnAttemptStarted(x: ExecId, n: NodeId, attempt: string)
      requires Valid() && alive
      modifies this
      ensures Abs() == StartAttempt(old(Abs()), x, n, attempt)
      ensures Carried(old(Abs()), AttemptStarted(x, n, attempt), Abs())
    {
      hide Durable, Carried;
      StartCarries(Abs(), x, n, attempt);
      if x !in executions || attempt == "" || executions[x].status != ExecutionRunning { return; }
      var e := executions[x];
      executions := executions[x := e.(active := e.active[n := attempt])];
      CommitOrReport("", "");
    }

    method OnAttemptFinished(x: ExecId)
      requires Valid() && alive
      modifies this
      ensures Abs() == FinishAttempt(old(Abs()), x)
      ensures Carried(old(Abs()), AttemptFinished(x), Abs())
    {
      hide Durable, Carried;
      FinishCarries(Abs(), x);
      if x in executions { CommitOrReport("", ""); }
    }

    method OnGraphMutationRequested(x: ExecId, n: NodeId, attempt: string, target: string, back: bool,
                                    admitted: bool, authorized: bool)
      requires Valid() && alive
      modifies this
      ensures Abs() == Mutate(old(Abs()), x, n, attempt, target, back, admitted, authorized)
      ensures Carried(old(Abs()), GraphMutationRequested(x, n, attempt, target, back, admitted, authorized), Abs())
    {
      hide Durable, Carried;
      MutateCarries(Abs(), x, n, attempt, target, back, admitted, authorized);
      if x !in executions || !admitted || !authorized { return; }
      var e := executions[x];
      if e.status != ExecutionRunning || attempt == "" || ActiveOf(e, n) != attempt ||
         |e.workflow.nodes| + (if back then 2 else 1) > e.maxNodes || n !in e.workflow.nodes {
        return;
      }
      var before := executions[x];
      executions := executions[x := Delegate(before, n, target, back)];
      var outcome := PersistLocked();
      if outcome == Refused {
        executions := executions[x := before];
        ReportPersistenceFailure(x, n);
      }
    }

    method OnArtifactStored(x: ExecId, n: NodeId)
      requires Valid() && alive
      modifies this
      ensures Abs() == StoreArtifact(old(Abs()), x, n)
      ensures Carried(old(Abs()), ArtifactStored(x, n), Abs())
    {
      hide Durable, Carried;
      StoreCarries(Abs(), x, n);
      if x == "" || n == "" || x !in executions || !InProgress(executions[x]) { return; }
      CommitOrReport(x, n);
    }

    method OnWorkerCompleted(x: ExecId, n: NodeId, attempt: string)
      requires Valid() && alive
      modifies this
      ensures Abs() == Complete(old(Abs()), x, n, attempt)
      ensures Carried(old(Abs()), WorkerCompleted(x, n, attempt), Abs())
    {
      hide Durable, Carried;
      CompleteCarries(Abs(), x, n, attempt);
      hide DispatchAll, AllDone, Commit, Conclude, ReportFailure;
      if x !in executions { return; }
      var e := executions[x];
      if !InProgress(e) || !Is(e, n, NodeRunning) || (attempt != "" && ActiveOf(e, n) != attempt) { return; }
      var done := SetNode(e, n, NodeDone).(active := e.active - {n});
      executions := executions[x := done];
      var outcome := PersistLocked();
      match outcome
      case Refused =>
        KeepAttempt(x, n, e);
      case Crashed(_) =>
      case Saved =>
        DispatchEach(x, At(e.workflow.children, n));
        CompleteIfDone(x, n);
    }

    /** A completion that could not be written: the attempt stays recorded. */
    method KeepAttempt(x: ExecId, n: NodeId, e: Execution)
      requires x in executions && executions[x] == SetNode(e, n, NodeDone).(active := e.active - {n})
      modifies this
      ensures var kept := if ActiveOf(e, n) != "" then old(executions)[x].(active := e.active) else old(executions)[x];
        Abs() == ReportFailure(Edit(old(Abs()), x, kept), x, n)
    {
      hide ReportFailure;
      if ActiveOf(e, n) != "" { executions := executions[x := executions[x].(active := e.active)]; }
      assert executions == old(executions)[x := executions[x]];
      ReportPersistenceFailure(x, n);
    }

    /** The scan after the children of a finished node were dispatched. */
    method CompleteIfDone(x: ExecId, n: NodeId)
      requires x in executions
      modifies this
      ensures Abs() == Conclude(old(Abs()), x, n)
    {
      if !alive { return; }
      var finished := EveryNodeDone(executions[x]);
      if finished {
        executions := executions[x := executions[x].(status := ExecutionSucceeded)];
        CommitOrReport(x, n);
      }
    }

    method OnWorkerFailed(x: ExecId, n: NodeId)
      requires Valid() && alive
      modifies this
      ensures Abs() == FailWorker(old(Abs()), x, n)
      ensures Carried(old(Abs()), WorkerFailed(x, n), Abs())
    {
      hide Durable, Carried;
      FailCarries(Abs(), x, n);
      if x == "" || n == "" || x !in executions || !InProgress(executions[x]) { return; }
      var e := executions[x];
      var states := SweepStates(e.states[n := NodeFailed], BlockPending);
      executions := executions[x := e.(status := ExecutionFailed, states := states, active := e.active - {n})];
      CommitOrReport(x, n);
    }

    method OnExecutionKilled(x: ExecId)
      requires Valid() && alive
      modifies this
      ensures Abs() == Kill(old(Abs()), x)
      ensures Carried(old(Abs()), ExecutionKilled(x), Abs())
    {
      hide Durable, Carried;
      KillCarries(Abs(), x);
      cancelled := cancelled + {x, "compile-" + x};
      if x in executions {
        var e := executions[x];
        var states := SweepStates(e.states, BlockIdle);
        executions := executions[x := e.(status := if InProgress(e) then ExecutionCancelled else e.status,
                                         states := states)];
      }
      CommitOrReport(x, "");
    }

    method OnExecutionPaused(x: ExecId)
      requires Valid() && alive
      modifies this
      ensures Abs() == Pause(old(Abs()), x)
      ensures Carried(old(Abs()), ExecutionPauseRequested(x), Abs())
    {
      hide Durable, Carried;
      PauseCarries(Abs(), x);
      paused := paused + {x};
      if x in executions && executions[x].status == ExecutionRunning {
        executions := executions[x := executions[x].(status := ExecutionPaused)];
      }
      CommitOrReport(x, "");
    }

    /** `order` is the order in which the range over the node states visited the nodes. */
    method OnExecutionResumed(x: ExecId) returns (order: seq<NodeId>)
      requires Valid() && alive
      modifies this
      ensures x in old(executions) ==> forall n :: n in order <==> n in old(executions[x]).states
      ensures Abs() == Resume(old(Abs()), x, order)
      ensures Carried(old(Abs()), ExecutionResumed(x, order), Abs())
    {
      hide Durable, Carried;
      order := [];
      if x in executions { order := VisitingOrder(executions[x].states.Keys); }
      ResumeCarries(Abs(), x, order);
      paused := paused - {x};
      if x !in executions { return; }
      var e := executions[x];
      if e.status != ExecutionPaused { return; }
      executions := executions[x := e.(status := ExecutionRunning)];
      var outcome := PersistLocked();
      match outcome
      case Refused =>
        executions := executions[x := e];
        ReportPersistenceFailure(x, "");
      case Crashed(_) =>
      case Saved =>
        DispatchEach(x, e.workflow.roots);
        ghost var rooted := Abs();
        assert order[0..] == order;
        for i := 0 to |order|
          invariant x in executions
          invariant DispatchSuccessors(Abs(), x, order[i..]) == DispatchSuccessors(rooted, x, order)
        {
          assert order[i..][1..] == order[i + 1..];
          if Is(executions[x], order[i], NodeDone) {
            DispatchEach(x, At(executions[x].workflow.children, order[i]));
          }
        }
    }

    method OnExecutionReconciled(x: ExecId, action: Action) returns (order: seq<NodeId>)
      requires Valid() && alive
      modifies this
      ensures x in old(executions) ==> forall n :: n in order <==> n in old(executions[x]).states
      ensures Abs() == Reconcile(old(Abs()), x, action, order)
      ensures Carried(old(Abs()), ExecutionReconciled(x, action, order), Abs())
    {
      hide Durable, Carried;
      order := [];
      if x in executions { order := VisitingOrder(executions[x].states.Keys); }
      ReconcileCarries(Abs(), x, action, order);
      if x !in executions { return; }
      var e := executions[x];
      if e.status != ExecutionInterrupted { return; }
      if action == RetryAction {
        var states := SweepStates(e.states, RequeueInterrupted);
        executions := executions[x := e.(status := ExecutionRunning, states := states,
          active := e.active - set n | n in e.states && e.states[n] == NodeInterrupted)];
        var outcome := PersistLocked();
        match outcome
        case Refused =>
          executions := executions[x := e];
          ReportPersistenceFailure(x, "");
        case Crashed(wrote) => if wrote { retries := retries + multiset{x}; }
        case Saved =>
          retries := retries + multiset{x};
          DispatchEach(x, order);
      } else {
        var states := SweepStates(e.states, BlockIdle);
        executions := executions[x := e.(
          status := if action == CancelAction then ExecutionCancelled else ExecutionFailed, states := states)];
        CommitOrReport(x, "");
      }
    }

    method OnRuntimeOverloaded()
      requires Valid() && alive
      modifies this
      ensures Abs() == Overload(old(Abs()))
      ensures Carried(old(Abs()), RuntimeOverloaded, Abs())
    {
      hide Durable, Carried;
      OverloadCarries(Abs());
      var affected;
      executions, affected := FailEach(executions);
      cancelled := cancelled + affected;
      CommitOrReport("", "");
    }

    /** A new process on the same store. */
    method Restart()
      requires Valid()
      modifies this
      ensures Abs() == Recover(old(Abs()))
      ensures Carried(old(Abs()), Event.Restart, Abs())
    {
      hide Durable, Carried;
      RecoverCarries(Abs());
      alive := true;
      executions, cancelled, paused := store.executions, store.cancelled, store.paused;
      var recovered;
      executions, recovered := RecoverEach(executions, maxNodes);
      if recovered {
        var outcome := PersistLocked();
        if outcome == Refused { alive := false; }
      }
    }
  }

  /** Some enumeration of a finite set of nodes. */
  method VisitingOrder(nodes: set<NodeId>) returns (order: seq<NodeId>)
    ensures Distinct(order) && forall n :: n in order <==> n in nodes
  {
    order := [];
    var left := nodes;
    while left != {}
      invariant left <= nodes && Distinct(order)
      invariant forall n :: n in order <==> n in nodes && n !in left
      decreases left
    {
      var n :| n in left;
      order := order + [n];
      left := left - {n};
    }
  }
}
