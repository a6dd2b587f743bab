/** Runs in which no snapshot write is refused, although the process may die at any write and
    be restarted any number of times. Work never overtakes its inputs, completion means that
    everything is done, and a terminal status is final. */
module EngineCausality {
  import opened Collections
  import opened Graph
  import opened Workflow
  import opened Storage
  import opened EngineModel
  import opened EngineDurability

  ghost predicate Begun(e: Execution, n: NodeId) {
    Is(e, n, NodeRunning) || Is(e, n, NodeDone) || Is(e, n, NodeInterrupted)
  }

  predicate Terminal(status: Status) {
    status == ExecutionSucceeded || status == ExecutionFailed || status == ExecutionCancelled
  }

  /** Unless the execution failed or was cancelled, every node that has begun has all its
      parents done; a completed execution has every node done. */
  ghost predicate Causal(e: Execution) {
    && (e.status != ExecutionFailed && e.status != ExecutionCancelled ==>
          forall n | Begun(e, n) :: ParentsDone(e, n))
    && (e.status == ExecutionSucceeded ==> forall n | n in e.workflow.nodes :: Is(e, n, NodeDone))
  }

  ghost predicate Willing(plan: seq<Outcome>) {
    forall o | o in plan :: !o.Refused?
  }

  ghost predicate AllCausal(snap: Snapshot) {
    forall x | x in snap.executions :: Causal(snap.executions[x])
  }

  /** Between handlers the live executions are exactly the durable ones. */
  ghost predicate Ordered(s: Engine) {
    && Willing(s.plan)
    && AllCausal(s.disk)
    && (s.alive ==> s.live.executions == s.disk.executions)
  }

  /** Terminal statuses of `before` are unchanged in `after`. */
  ghost predicate Final(before: Snapshot, after: Snapshot) {
    forall x | x in before.executions && Terminal(before.executions[x].status) ::
      x in after.executions && after.executions[x].status == before.executions[x].status
  }

  lemma FinalTransitive(a: Snapshot, b: Snapshot, c: Snapshot)
    requires Final(a, b) && Final(b, c)
    ensures Final(a, c)
  {
  }

  lemma FinalReflexive(a: Snapshot)
    ensures Final(a, a)
  {
  }

  lemma PersistOrders(s: Engine)
    requires s.alive && Willing(s.plan) && AllCausal(s.disk) && AllCausal(s.live) && Final(s.disk, s.live)
    ensures !Next(s).Refused?
    ensures Ordered(Persist(s)) && Final(s.disk, Persist(s).disk)
  {
    hide AllCausal;
  }

  /** One execution replaced while the live and durable executions agree. */
  lemma EditOrders(s: Engine, x: ExecId, e: Execution)
    requires s.alive && Willing(s.plan) && AllCausal(s.disk) && s.live.executions == s.disk.executions
    requires Causal(e)
    requires x in s.live.executions && Terminal(s.live.executions[x].status) ==>
      e.status == s.live.executions[x].status
    ensures !Next(Edit(s, x, e)).Refused?
    ensures Ordered(Persist(Edit(s, x, e))) && Final(s.disk, Persist(Edit(s, x, e)).disk)
  {
    hide Causal;
    PersistOrders(Edit(s, x, e));
  }

  // ---------- dispatch ----------

  lemma RunningCausal(e: Execution, n: NodeId)
    requires Causal(e) && !Terminal(e.status) && Is(e, n, NodePending) && ParentsDone(e, n)
    ensures Causal(SetNode(e, n, NodeRunning))
  {
    var f := SetNode(e, n, NodeRunning);
    forall m | Begun(f, m) ensures ParentsDone(f, m) {
      if m != n { assert Begun(e, m); }
    }
  }

  lemma DispatchNodeOrders(s: Engine, x: ExecId, n: NodeId)
    requires s.alive && Ordered(s) && x in s.live.executions
    requires var e := s.live.executions[x];
      !Terminal(e.status) && Is(e, n, NodePending) && ParentsDone(e, n)
    ensures Ordered(DispatchNode(s, x, n)) && Final(s.disk, DispatchNode(s, x, n).disk)
    ensures DispatchNode(s, x, n).live.executions[x] == SetNode(s.live.executions[x], n, NodeRunning)
  {
    hide Causal;
    var e := s.live.executions[x];
    RunningCausal(e, n);
    EditOrders(s, x, SetNode(e, n, NodeRunning));
  }

  lemma {:induction false} DispatchAllOrders(s: Engine, x: ExecId, ns: seq<NodeId>)
    requires Ordered(s) && x in s.live.executions
    ensures Ordered(DispatchAll(s, x, ns)) && Final(s.disk, DispatchAll(s, x, ns).disk)
    ensures DispatchAll(s, x, ns).live.executions[x].status == s.live.executions[x].status
    decreases |ns|
  {
    hide Ordered;
    if ns != [] {
      var t := CheckAndDispatch(s, x, ns[0]);
      if Dispatchable(s, x, ns[0]) { DispatchNodeOrders(s, x, ns[0]); }
      DispatchAllOrders(t, x, ns[1..]);
      FinalTransitive(s.disk, t.disk, DispatchAll(t, x, ns[1..]).disk);
    }
  }

  lemma {:induction false} DispatchSuccessorsOrders(s: Engine, x: ExecId, order: seq<NodeId>)
    requires Ordered(s) && x in s.live.executions
    ensures Ordered(DispatchSuccessors(s, x, order)) && Final(s.disk, DispatchSuccessors(s, x, order).disk)
    decreases |order|
  {
    FinalReflexive(s.disk);
    hide Ordered, Final;
    if order != [] {
      var e := s.live.executions[x];
      var t := if Is(e, order[0], NodeDone) then DispatchAll(s, x, At(e.workflow.children, order[0])) else s;
      DispatchAllOrders(s, x, At(e.workflow.children, order[0]));
      DispatchSuccessorsOrders(t, x, order[1..]);
      if t != s { FinalTransitive(s.disk, t.disk, DispatchSuccessors(t, x, order[1..]).disk); }
    }
  }

  lemma {:induction false} DispatchRootsOrders(s: Engine, x: ExecId, roots: seq<NodeId>)
    requires Ordered(s) && x in s.live.executions && Distinct(roots)
    requires var e := s.live.executions[x];
      !Terminal(e.status) && forall r | r in roots :: Is(e, r, NodePending) && At(e.workflow.parents, r) == []
    ensures Ordered(DispatchRoots(s, x, roots)) && Final(s.disk, DispatchRoots(s, x, roots).disk)
    decreases |roots|
  {
    FinalReflexive(s.disk);
    hide Ordered, Final;
    if roots != [] && s.alive {
      var t := DispatchNode(s, x, roots[0]);
      assert roots[0] in roots;
      DispatchNodeOrders(s, x, roots[0]);
      forall r | r in roots[1..]
        ensures Is(t.live.executions[x], r, NodePending) && At(t.live.executions[x].workflow.parents, r) == []
      {
        assert r in roots && r != roots[0];
      }
      DispatchRootsOrders(t, x, roots[1..]);
      FinalTransitive(s.disk, t.disk, DispatchRoots(t, x, roots[1..]).disk);
    }
  }

  // ---------- handlers ----------

  /** What each handler owes: order kept, and terminal statuses final. */
  ghost predicate Advances(s: Engine, t: Engine) {
    Ordered(t) && Final(s.disk, t.disk)
  }

  lemma CommitAdvances(s: Engine, t: Engine, x: ExecId, n: NodeId)
    requires s.alive && Ordered(s) && t.alive && t.plan == s.plan && t.disk == s.disk
    requires AllCausal(t.live) && Final(s.disk, t.live)
    ensures Advances(s, Commit(t, x, n)) && Commit(t, x, n) == Persist(t)
  {
    PersistOrders(t);
  }

  lemma EditAdvances(s: Engine, t: Engine, x: ExecId, e: Execution, y: ExecId, n: NodeId)
    requires s.alive && Ordered(s) && Causal(e) && x in s.live.executions
    requires t == Edit(s.(live := s.live.(cancelled := t.live.cancelled, paused := t.live.paused)), x, e)
    requires Terminal(s.live.executions[x].status) ==> e.status == s.live.executions[x].status
    ensures Advances(s, Commit(t, y, n)) && Commit(t, y, n) == Persist(t)
  {
    hide Causal;
    CommitAdvances(s, t, y, n);
  }

  lemma SubmitAdvances(s: Engine, x: ExecId, wf: Definition, accepting: bool)
    requires s.alive && Ordered(s) && WellFormed(wf)
    ensures Advances(s, Submit(s, x, wf, accepting))
  {
    hide Causal, Acyclic, Consistent;
    if Submit(s, x, wf, accepting) != s {
      var status := if x in s.live.paused then ExecutionPaused else ExecutionRunning;
      var e := NewExecution(wf, status, s.maxNodes);
      NewCausal(wf, status, s.maxNodes);
      EditOrders(s, x, e);
      var t := Edit(s, x, e);
      if Next(t).Saved? {
        DispatchRootsOrders(Persist(t), x, wf.roots);
        FinalTransitive(s.disk, Persist(t).disk, DispatchRoots(Persist(t), x, wf.roots).disk);
      }
    }
  }

  lemma NewCausal(wf: Definition, status: Status, maxNodes: nat)
    requires !Terminal(status)
    ensures Causal(NewExecution(wf, status, maxNodes))
  {
  }

  lemma GrowsCausal(e: Execution, g: Execution)
    requires Sound(e) && Sound(g) && Causal(e) && Grows(e, g) && e.status == ExecutionRunning
    ensures Causal(g)
  {
    hide RootsExact, Acyclic, NamesBounded;
    forall n | Begun(g, n) ensures ParentsDone(g, n) {
      if n in e.workflow.nodes {
        assert Begun(e, n);
        forall p | p in At(g.workflow.parents, n) ensures Is(g, p, NodeDone) {
          ParentKnown(e, p, n);
        }
      } else {
        assert n !in g.workflow.nodes;
        EdgesOfUnknown(g.workflow, n);
      }
    }
  }

  lemma ParentKnown(e: Execution, p: NodeId, n: NodeId)
    requires Sound(e) && p in At(e.workflow.parents, n)
    ensures p in e.workflow.nodes
  {
    InSources(e.workflow.edges, p, n);
  }

  lemma MutateAdvances(s: Engine, x: ExecId, n: NodeId, attempt: string, target: string, back: bool,
                       admitted: bool, authorized: bool)
    requires s.alive && Ordered(s) && Durable(s)
    ensures Advances(s, Mutate(s, x, n, attempt, target, back, admitted, authorized))
  {
    hide ReportFailure;
    if MayDelegate(s, x, n, attempt, back, admitted, authorized) {
      var e := s.live.executions[x];
      assert Sound(e) && Causal(e);
      assert !Next(s).Refused?;
      hide Causal, Sound, Durable;
      DelegateKeepsSound(e, n, target, back);
      var g := Delegate(e, n, target, back);
      GrowsCausal(e, g);
      EditAdvances(s, Edit(s, x, g), x, g, x, n);
      hide Advances, Delegate, Ordered, Commit, Persist;
    }
  }

  lemma DoneCausal(e: Execution, n: NodeId)
    requires Causal(e) && InProgress(e) && Is(e, n, NodeRunning)
    ensures Causal(SetNode(e, n, NodeDone).(active := e.active - {n}))
  {
    var f := SetNode(e, n, NodeDone).(active := e.active - {n});
    forall m | Begun(f, m) ensures ParentsDone(f, m) {
      assert Begun(e, m);
    }
  }

  lemma CompleteAdvances(s: Engine, x: ExecId, n: NodeId, attempt: string)
    requires s.alive && Ordered(s) && Durable(s)
    ensures Advances(s, Complete(s, x, n, attempt))
  {
    if Complete(s, x, n, attempt) != s {
      var e := s.live.executions[x];
      assert Causal(e);
      hide Causal, Durable;
      DoneCausal(e, n);
      var done := SetNode(e, n, NodeDone).(active := e.active - {n});
      var t := Edit(s, x, done);
      EditAdvances(s, t, x, done, x, n);
      if Next(t).Saved? {
        SettleKeeps(s, x, done);
        PersistKeeps(t);
        var u := DispatchAll(Persist(t), x, At(e.workflow.children, n));
        DispatchAllKeeps(Persist(t), x, At(e.workflow.children, n));
        DispatchAllOrders(Persist(t), x, At(e.workflow.children, n));
        FinalTransitive(s.disk, t.live, u.disk);
        ConcludeAdvances(u, x, n);
        FinalTransitive(s.disk, u.disk, Conclude(u, x, n).disk);
      }
    }
  }

  lemma DoneCompletes(e: Execution)
    requires Sound(e) && Causal(e) && InProgress(e) && AllDone(e)
    ensures Causal(e.(status := ExecutionSucceeded))
  {
    hide WellFormed, NamesBounded;
    forall n | Begun(e, n) ensures ParentsDone(e.(status := ExecutionSucceeded), n) {
      assert ParentsDone(e, n);
    }
  }

  lemma ConcludeAdvances(s: Engine, x: ExecId, n: NodeId)
    requires Ordered(s) && Durable(s) && x in s.live.executions && InProgress(s.live.executions[x])
    ensures Advances(s, Conclude(s, x, n))
  {
    FinalReflexive(s.disk);
    var e := s.live.executions[x];
    if s.alive && AllDone(e) {
      assert Sound(e) && Causal(e);
      hide Durable, Final;
      var f := e.(status := ExecutionSucceeded);
      assert Causal(f) by { DoneCompletes(e); }
      hide Causal, Sound;
      EditAdvances(s, Edit(s, x, f), x, f, x, n);
    }
  }

  lemma FailWorkerAdvances(s: Engine, x: ExecId, n: NodeId)
    requires s.alive && Ordered(s)
    ensures Advances(s, FailWorker(s, x, n))
  {
    if FailWorker(s, x, n) != s {
      var e := s.live.executions[x];
      var f := e.(status := ExecutionFailed, states := Sweep(e.states[n := NodeFailed], BlockPending),
                  active := e.active - {n});
      EditAdvances(s, Edit(s, x, f), x, f, x, n);
    }
  }

  /** Updates that leave no more begun nodes and exactly the same done nodes. */
  lemma FewerBegun(e: Execution, f: Execution)
    requires Causal(e) && f.workflow == e.workflow
    requires forall n :: (Begun(f, n) ==> Begun(e, n)) && (Is(f, n, NodeDone) <==> Is(e, n, NodeDone))
    requires f.status == ExecutionSucceeded ==> e.status == ExecutionSucceeded
    requires f.status != ExecutionFailed && f.status != ExecutionCancelled ==>
      e.status != ExecutionFailed && e.status != ExecutionCancelled
    ensures Causal(f)
  {
    if f.status != ExecutionFailed && f.status != ExecutionCancelled {
      forall n | Begun(f, n) ensures ParentsDone(f, n) {
        assert ParentsDone(e, n);
      }
    }
  }

  lemma KillAdvances(s: Engine, x: ExecId)
    requires s.alive && Ordered(s)
    ensures Advances(s, Kill(s, x))
  {
    var t := s.(live := s.live.(cancelled := s.live.cancelled + {x, "compile-" + x}));
    if x in s.live.executions {
      var e := s.live.executions[x];
      var f := e.(status := if InProgress(e) then ExecutionCancelled else e.status,
                  states := Sweep(e.states, BlockIdle));
      FewerBegun(e, f);
      EditAdvances(s, Edit(t, x, f), x, f, x, "");
    } else {
      CommitAdvances(s, t, x, "");
    }
  }

  lemma PauseAdvances(s: Engine, x: ExecId)
    requires s.alive && Ordered(s)
    ensures Advances(s, Pause(s, x))
  {
    var t := s.(live := s.live.(paused := s.live.paused + {x}));
    CommitAdvances(s, t, x, "");
    if x in s.live.executions && s.live.executions[x].status == ExecutionRunning {
      var f := s.live.executions[x].(status := ExecutionPaused);
      FewerBegun(s.live.executions[x], f);
      EditAdvances(s, Edit(t, x, f), x, f, x, "");
    }
  }

  lemma StartAttemptAdvances(s: Engine, x: ExecId, n: NodeId, attempt: string)
    requires s.alive && Ordered(s)
    ensures Advances(s, StartAttempt(s, x, n, attempt))
  {
    if StartAttempt(s, x, n, attempt) != s {
      var e := s.live.executions[x];
      FewerBegun(e, e.(active := e.active[n := attempt]));
      EditAdvances(s, Edit(s, x, e.(active := e.active[n := attempt])), x, e.(active := e.active[n := attempt]), "", "");
    }
  }

  lemma ResumeAdvances(s: Engine, x: ExecId, order: seq<NodeId>)
    requires s.alive && Ordered(s)
    ensures Advances(s, Resume(s, x, order))
  {
    hide Causal;
    var t := s.(live := s.live.(paused := s.live.paused - {x}));
    if x in s.live.executions && s.live.executions[x].status == ExecutionPaused {
      var e := s.live.executions[x];
      var u := Edit(t, x, e.(status := ExecutionRunning));
      Relabelled(e, ExecutionRunning);
      EditAdvances(s, u, x, e.(status := ExecutionRunning), x, "");
      if Next(u).Saved? {
        var v := DispatchAll(Persist(u), x, e.workflow.roots);
        DispatchAllOrders(Persist(u), x, e.workflow.roots);
        DispatchSuccessorsOrders(v, x, order);
        FinalTransitive(s.disk, u.live, v.disk);
        FinalTransitive(s.disk, v.disk, DispatchSuccessors(v, x, order).disk);
      }
    }
  }

  lemma Relabelled(e: Execution, status: Status)
    requires Causal(e) && !Terminal(e.status) && status != ExecutionSucceeded
    ensures Causal(e.(status := status))
  {
    FewerBegun(e, e.(status := status));
  }

  lemma ReconcileAdvances(s: Engine, x: ExecId, action: Action, order: seq<NodeId>)
    requires s.alive && Ordered(s)
    ensures Advances(s, Reconcile(s, x, action, order))
  {
    if x in s.live.executions && s.live.executions[x].status == ExecutionInterrupted {
      var e := s.live.executions[x];
      if action == RetryAction {
        FewerBegun(e, Requeue(e));
        RetryAdvances(s, x, order);
      } else {
        var f := e.(status := if action == CancelAction then ExecutionCancelled else ExecutionFailed,
                    states := Sweep(e.states, BlockIdle));
        FewerBegun(e, f);
        EditAdvances(s, Edit(s, x, f), x, f, x, "");
      }
    }
  }

  lemma RetryAdvances(s: Engine, x: ExecId, order: seq<NodeId>)
    requires s.alive && Ordered(s) && x in s.live.executions
    requires s.live.executions[x].status == ExecutionInterrupted && Causal(Requeue(s.live.executions[x]))
    ensures Advances(s, Reconcile(s, x, RetryAction, order))
  {
    hide Causal;
    var t := Edit(s, x, Requeue(s.live.executions[x]));
    EditAdvances(s, t, x, Requeue(s.live.executions[x]), x, "");
    if Next(t).Saved? {
      var u := Persist(t).(retries := t.retries + multiset{x});
      DispatchAllOrders(u, x, order);
      FinalTransitive(s.disk, u.disk, DispatchAll(u, x, order).disk);
    }
  }

  lemma OverloadAdvances(s: Engine)
    requires s.alive && Ordered(s)
    ensures Advances(s, Overload(s))
  {
    var xs := s.live.executions;
    var t := s.(live := s.live.(
      executions := map y | y in xs ::
        if InProgress(xs[y]) then Failed(xs[y]) else xs[y],
      cancelled := s.live.cancelled + set y | y in xs && InProgress(xs[y])));
    CommitAdvances(s, t, "", "");
  }

  lemma RecoveredCausal(e: Execution, maxNodes: nat)
    requires Causal(e)
    ensures Causal(RecoverExecution(e, maxNodes))
  {
    FewerBegun(e, RecoverExecution(e, maxNodes));
  }

  lemma RecoverAdvances(s: Engine)
    requires Ordered(s) && Durable(s)
    ensures Advances(s, Recover(s))
  {
    hide AllCausal, Durable, Final, NeedsRecovery, RecoverAll;
    var xs := s.disk.executions;
    RecoveredInOrder(s.disk, s.maxNodes);
    if forall y | y in xs :: !NeedsRecovery(xs[y]) {
      UntouchedByRecovery(s);
      FinalReflexive(s.disk);
    } else {
      PersistOrders(s.(alive := true, live := s.disk.(executions := RecoverAll(xs, s.maxNodes))));
    }
  }

  lemma UntouchedByRecovery(s: Engine)
    requires Durable(s) && forall y | y in s.disk.executions :: !NeedsRecovery(s.disk.executions[y])
    ensures RecoverAll(s.disk.executions, s.maxNodes) == s.disk.executions
  {
    forall y | y in s.disk.executions
      ensures RecoverExecution(s.disk.executions[y], s.maxNodes) == s.disk.executions[y]
    {
      NothingToRecover(s, y);
    }
    hide Durable, NeedsRecovery, RecoverExecution;
  }

  lemma RecoveredInOrder(disk: Snapshot, maxNodes: nat)
    requires AllCausal(disk)
    ensures AllCausal(disk.(executions := RecoverAll(disk.executions, maxNodes)))
    ensures Final(disk, disk.(executions := RecoverAll(disk.executions, maxNodes)))
  {
    forall y | y in disk.executions ensures Causal(RecoverAll(disk.executions, maxNodes)[y]) {
      RecoveredCausal(disk.executions[y], maxNodes);
    }
  }

  lemma NothingToRecover(s: Engine, x: ExecId)
    requires Durable(s) && x in s.disk.executions && !NeedsRecovery(s.disk.executions[x])
    ensures RecoverExecution(s.disk.executions[x], s.maxNodes) == s.disk.executions[x]
  {
    var e := s.disk.executions[x];
    assert Sound(e);
    assert e.workflow.nodes != map[];
    assert Sweep(e.states, InterruptRunning) == e.states;
  }

  lemma StandingAdvances(s: Engine)
    requires Ordered(s)
    ensures Advances(s, s) && (s.alive ==> AllCausal(s.live) && Final(s.disk, s.live))
  {
    hide Causal;
  }

  lemma StepAdvances(s: Engine, event: Event)
    requires Ordered(s) && Durable(s) && Admissible(event)
    ensures Advances(s, Step(s, event))
  {
    hide Submit, Mutate, Complete, Resume, Reconcile, Overload, StartAttempt, FailWorker, Kill, Pause, Recover, Commit;
    hide Sound, Causal, AllCausal, Durable;
    StandingAdvances(s);
    if event.Restart? {
      RecoverAdvances(s);
    } else if s.alive {
      match event
      case SubmitWorkflow(x, wf, accepting) => SubmitAdvances(s, x, wf, accepting);
      case GraphMutationRequested(x, n, attempt, target, back, admitted, authorized) =>
        MutateAdvances(s, x, n, attempt, target, back, admitted, authorized);
      case WorkerCompleted(x, n, attempt) => CompleteAdvances(s, x, n, attempt);
      case ExecutionResumed(x, order) => ResumeAdvances(s, x, order);
      case ExecutionReconciled(x, action, order) => ReconcileAdvances(s, x, action, order);
      case RuntimeOverloaded => OverloadAdvances(s);
      case AttemptStarted(x, n, attempt) => StartAttemptAdvances(s, x, n, attempt);
      case AttemptFinished(x) => CommitAdvances(s, s, "", "");
      case ArtifactStored(x, n) => CommitAdvances(s, s, x, n);
      case WorkerFailed(x, n) => FailWorkerAdvances(s, x, n);
      case ExecutionKilled(x) => KillAdvances(s, x);
      case ExecutionPauseRequested(x) => PauseAdvances(s, x);
    }
  }

  // ---------- whole runs ----------

  lemma {:induction false} RunAdvances(s: Engine, events: seq<Event>)
    requires Ordered(s) && Durable(s) && forall e | e in events :: Admissible(e)
    ensures Advances(s, Run(s, events)) && Durable(Run(s, events))
  {
    if events != [] {
      var before := Run(s, events[..|events| - 1]);
      RunAdvances(s, events[..|events| - 1]);
      StepKeeps(before, events[|events| - 1]);
      StepAdvances(before, events[|events| - 1]);
      FinalTransitive(s.disk, before.disk, Run(s, events).disk);
    }
  }

  lemma BootOrdered(plan: seq<Outcome>, maxNodes: nat)
    requires Willing(plan)
    ensures Ordered(Boot(plan, maxNodes)) && Durable(Boot(plan, maxNodes))
  {
  }

  /** No work overtakes its inputs: in an execution that has neither failed nor been cancelled,
      every node that is running, done or interrupted has all its parents done; a completed
      execution has every node of its graph done. */
  lemma WorkFollowsInputs(plan: seq<Outcome>, maxNodes: nat, events: seq<Event>, x: ExecId, n: NodeId)
    requires Willing(plan) && forall e | e in events :: Admissible(e)
    ensures var s := Run(Boot(plan, maxNodes), events);
      s.alive && x in s.live.executions ==>
        var e := s.live.executions[x];
        && (e.status != ExecutionFailed && e.status != ExecutionCancelled && Begun(e, n) ==> ParentsDone(e, n))
        && (e.status == ExecutionSucceeded && n in e.workflow.nodes ==> Is(e, n, NodeDone))
  {
    BootOrdered(plan, maxNodes);
    RunAdvances(Boot(plan, maxNodes), events);
    var s := Run(Boot(plan, maxNodes), events);
    if s.alive && x in s.live.executions {
      assert Causal(s.live.executions[x]);
    }
  }

  lemma {:induction false} RunSplit(s: Engine, first: seq<Event>, rest: seq<Event>)
    ensures Run(s, first + rest) == Run(Run(s, first), rest)
  {
    if rest == [] {
      assert first + rest == first;
    } else {
      RunSplit(s, first, rest[..|rest| - 1]);
      assert (first + rest)[..|first + rest| - 1] == first + rest[..|rest| - 1];
    }
  }

  /** Once an execution is completed, failed or cancelled, no later events, crashes or restarts
      change that. */
  lemma TerminalIsFinal(plan: seq<Outcome>, maxNodes: nat, first: seq<Event>, rest: seq<Event>, x: ExecId)
    requires Willing(plan) && (forall e | e in first + rest :: Admissible(e))
    requires var s := Run(Boot(plan, maxNodes), first);
      s.alive && x in s.live.executions && Terminal(s.live.executions[x].status)
    ensures var s, t := Run(Boot(plan, maxNodes), first), Run(Boot(plan, maxNodes), first + rest);
      t.alive ==> x in t.live.executions && t.live.executions[x].status == s.live.executions[x].status
  {
    forall e | e in first ensures Admissible(e) { assert e in first + rest; }
    forall e | e in rest ensures Admissible(e) { assert e in first + rest; }
    BootOrdered(plan, maxNodes);
    RunAdvances(Boot(plan, maxNodes), first);
    RunAdvances(Run(Boot(plan, maxNodes), first), rest);
    RunSplit(Boot(plan, maxNodes), first, rest);
  }
}
