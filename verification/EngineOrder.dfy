/** The order of work when snapshot writes may be refused. Refused writes interrupt executions, and
    the execution whose write it was is interrupted whatever it was doing. Five requests can thereby
    bring it out of order; everything else keeps the order of work through every run, and a completed
    execution has every node done in every run whatsoever. */
module EngineOrder {
  import opened Collections
  import opened Graph
  import opened Workflow
  import opened Names
  import opened Storage
  import opened EngineModel
  import opened EngineDurability
  import opened EngineCausality
  import opened EngineLaws

  predicate Stopped(status: Status) {
    status == ExecutionFailed || status == ExecutionCancelled
  }

  ghost predicate Fulfilled(e: Execution) {
    e.status == ExecutionSucceeded ==> forall n | n in e.workflow.nodes :: Is(e, n, NodeDone)
  }

  /** An execution is complete only with every node done and, if the order of work is asked for as
      well, Causal. */
  ghost predicate Good(e: Execution, ordered: bool) {
    "" !in e.states && if ordered then Causal(e) else Fulfilled(e)
  }

  ghost predicate AllGood(snap: Snapshot, ordered: bool) {
    "" !in snap.executions && forall x | x in snap.executions :: Good(snap.executions[x], ordered)
  }

  ghost predicate Stands(s: Engine, ordered: bool) {
    AllGood(s.disk, ordered) && (s.alive ==> AllGood(s.live, ordered))
  }

  /** Definitions come from the loader, which wants every node named. */
  ghost predicate Loaded(event: Event) {
    Admissible(event) && (event.SubmitWorkflow? ==> "" !in event.wf.nodes)
  }

  /** What runs and what is done has its inputs. */
  ghost predicate Supplied(e: Execution) {
    forall n | Is(e, n, NodeRunning) || Is(e, n, NodeDone) :: ParentsDone(e, n)
  }

  /** The next write is refused, and the request interrupts a node that may not be marked as begun, or
      brings back a stopped execution whose order of work was lost when it stopped. */
  ghost predicate Disorders(s: Engine, event: Event) {
    s.alive && Next(s).Refused? &&
    match event
    case ArtifactStored(x, n) =>
      x != "" && n != "" && x in s.live.executions && InProgress(s.live.executions[x]) && !Harmless(s.live.executions[x], n)
    case GraphMutationRequested(x, n, attempt, _, back, admitted, authorized) =>
      MayDelegate(s, x, n, attempt, back, admitted, authorized) && !Harmless(s.live.executions[x], n)
    case WorkerFailed(x, n) =>
      x != "" && n != "" && x in s.live.executions && InProgress(s.live.executions[x]) && !Spared(s.live.executions[x], n)
    case ExecutionKilled(x) =>
      x in s.live.executions && Stopped(s.live.executions[x].status) && !Supplied(s.live.executions[x])
    case ExecutionPauseRequested(x) =>
      x in s.live.executions && Stopped(s.live.executions[x].status) && !InputsDone(s.live.executions[x])
    case _ => false
  }

  // ---------- one execution ----------

  /** A refused write leaves the other executions in order. */
  lemma InterruptOthers(e: Execution, n: NodeId, ordered: bool)
    requires Good(e, ordered)
    ensures Good(Interrupt(e, false, n), ordered)
  {
    if ordered && InProgress(e) { FewerBegun(e, Interrupt(e, false, n)); }
  }

  /** The named one is in order if its inputs are. */
  lemma InterruptHere(e: Execution, n: NodeId, ordered: bool)
    requires "" !in e.states
    ensures Good(Interrupt(e, true, n), ordered) <==> (ordered ==> InputsDone(Interrupt(e, true, n)))
  {
  }

  lemma InterruptNoNode(e: Execution, ordered: bool)
    requires "" !in e.states && (ordered ==> InputsDone(e))
    ensures Good(Interrupt(e, true, ""), ordered)
  {
    if ordered { InterruptExactly(e, ""); }
    InterruptHere(e, "", ordered);
  }

  /** Updates that leave no more begun nodes and exactly the same done nodes. */
  lemma FewerGood(e: Execution, f: Execution, ordered: bool)
    requires Good(e, ordered) && f.workflow == e.workflow && f.states.Keys == e.states.Keys
    requires forall n :: (Begun(f, n) ==> Begun(e, n)) && (Is(f, n, NodeDone) <==> Is(e, n, NodeDone))
    requires f.status == ExecutionSucceeded ==> e.status == ExecutionSucceeded
    requires Stopped(e.status) ==> Stopped(f.status)
    ensures Good(f, ordered)
  {
    if ordered { FewerBegun(e, f); }
  }

  lemma InterruptNamed(e: Execution, n: NodeId, ordered: bool)
    requires Good(e, ordered) && !Stopped(e.status) && (ordered ==> Harmless(e, n))
    ensures Good(Interrupt(e, true, n), ordered)
  {
    if ordered {
      InOrder(e);
      InterruptExactly(e, n);
    }
    InterruptHere(e, n, ordered);
  }

  lemma InOrder(e: Execution)
    requires Good(e, true) && !Stopped(e.status)
    ensures InputsDone(e)
  {
  }

  // ---------- the shared write and dispatch steps ----------

  lemma ReportStands(s: Engine, x: ExecId, n: NodeId, ordered: bool)
    requires s.alive && AllGood(s.disk, ordered) && "" !in s.live.executions
    requires forall y | y in s.live.executions && y != x :: Good(s.live.executions[y], ordered)
    requires x in s.live.executions ==> Good(Interrupt(s.live.executions[x], true, n), ordered)
    ensures Stands(ReportFailure(s, x, n), ordered)
  {
    var t := ReportFailure(s, x, n);
    forall y | y in t.live.executions ensures Good(t.live.executions[y], ordered) {
      if y != x { InterruptOthers(s.live.executions[y], n, ordered); }
    }
    hide Good, Interrupt;
  }

  lemma CommitStands(s: Engine, x: ExecId, n: NodeId, ordered: bool)
    requires s.alive && Stands(s, ordered)
    requires x in s.live.executions && Next(s).Refused? ==> Good(Interrupt(s.live.executions[x], true, n), ordered)
    ensures Stands(Commit(s, x, n), ordered)
  {
    hide Good;
    if Next(s).Refused? { ReportStands(Persist(s), x, n, ordered); }
    hide ReportFailure;
  }

  /** One execution changed, and written in its name. */
  lemma EditStands(s: Engine, t: Engine, x: ExecId, e: Execution, n: NodeId, ordered: bool)
    requires s.alive && Stands(s, ordered) && x != "" && Good(e, ordered)
    requires t == Edit(s.(live := s.live.(cancelled := t.live.cancelled, paused := t.live.paused)), x, e)
    requires Next(t).Refused? ==> Good(Interrupt(e, true, n), ordered)
    ensures Stands(Commit(t, x, n), ordered)
    ensures !Next(t).Refused? ==> Stands(Persist(t), ordered)
  {
    hide Good;
    assert Stands(t, ordered);
    hide Stands, AllGood;
    CommitStands(t, x, n, ordered);
  }

  /** A refused change that is taken back. */
  lemma PutBackStands(s: Engine, t: Engine, x: ExecId, f: Execution, n: NodeId, ordered: bool)
    requires s.alive && Stands(s, ordered) && Next(t).Refused? && x != ""
    requires t.alive && t.disk == s.disk && t.live.executions.Keys == s.live.executions.Keys + {x}
    requires forall y | y in s.live.executions && y != x :: t.live.executions[y] == s.live.executions[y]
    requires Good(Interrupt(f, true, n), ordered)
    ensures Stands(ReportFailure(Edit(Persist(t), x, f), x, n), ordered)
  {
    hide Good, ReportFailure;
    ReportStands(Edit(Persist(t), x, f), x, n, ordered);
  }

  lemma RunningGood(e: Execution, n: NodeId, ordered: bool)
    requires Good(e, ordered) && !Terminal(e.status) && Is(e, n, NodePending) && ParentsDone(e, n)
    ensures var f := SetNode(e, n, NodeRunning);
      Good(f, ordered) && Good(Interrupt(f, true, n), ordered)
  {
    var f := SetNode(e, n, NodeRunning);
    if ordered {
      RunningCausal(e, n);
      InterruptExactly(f, n);
    }
    InterruptHere(f, n, ordered);
  }

  /** What dispatching node `n` of an execution leaves alone. */
  ghost predicate Dispatched(e: Execution, f: Execution, n: NodeId) {
    && f.workflow == e.workflow && (f.status == e.status || f.status == ExecutionInterrupted)
    && (forall p :: Is(f, p, NodeDone) <==> Is(e, p, NodeDone))
    && forall m :: m != n && Is(e, m, NodePending) ==> Is(f, m, NodePending)
  }

  lemma DispatchNodeStands(s: Engine, x: ExecId, n: NodeId, ordered: bool)
    requires s.alive && Stands(s, ordered) && x in s.live.executions
    requires var e := s.live.executions[x]; !Terminal(e.status) && Is(e, n, NodePending) && ParentsDone(e, n)
    ensures Stands(DispatchNode(s, x, n), ordered) && x in DispatchNode(s, x, n).live.executions
    ensures Dispatched(s.live.executions[x], DispatchNode(s, x, n).live.executions[x], n)
  {
    var e := s.live.executions[x];
    RunningGood(e, n, ordered);
    hide Good;
    EditStands(s, Edit(s, x, SetNode(e, n, NodeRunning)), x, SetNode(e, n, NodeRunning), n, ordered);
    DispatchNodeSpares(s, x, n);
    hide Commit, Dispatched;
  }

  lemma DispatchNodeSpares(s: Engine, x: ExecId, n: NodeId)
    requires x in s.live.executions && Is(s.live.executions[x], n, NodePending)
    ensures x in DispatchNode(s, x, n).live.executions
    ensures Dispatched(s.live.executions[x], DispatchNode(s, x, n).live.executions[x], n)
  {
    RunningSpares(s.live.executions[x], n);
    CommitHere(Edit(s, x, SetNode(s.live.executions[x], n, NodeRunning)), x, n);
    hide Dispatched, Commit, Interrupt;
  }

  lemma RunningSpares(e: Execution, n: NodeId)
    requires Is(e, n, NodePending)
    ensures Dispatched(e, SetNode(e, n, NodeRunning), n) && Dispatched(e, Interrupt(SetNode(e, n, NodeRunning), true, n), n)
  {
  }

  lemma CommitHere(s: Engine, x: ExecId, n: NodeId)
    requires x in s.live.executions
    ensures x in Commit(s, x, n).live.executions
    ensures var e := s.live.executions[x];
      Commit(s, x, n).live.executions[x] == if Next(s).Refused? then Interrupt(e, true, n) else e
  {
    hide Interrupt;
  }

  lemma {:induction false} DispatchAllStands(s: Engine, x: ExecId, ns: seq<NodeId>, ordered: bool)
    requires Stands(s, ordered) && x in s.live.executions
    ensures Stands(DispatchAll(s, x, ns), ordered)
    ensures var e, f := s.live.executions[x], DispatchAll(s, x, ns).live.executions[x];
      f.workflow == e.workflow && (forall p :: Is(f, p, NodeDone) <==> Is(e, p, NodeDone))
    decreases |ns|
  {
    hide Stands, DispatchNode, Is;
    if ns != [] {
      if Dispatchable(s, x, ns[0]) { DispatchNodeStands(s, x, ns[0], ordered); }
      DispatchAllStands(CheckAndDispatch(s, x, ns[0]), x, ns[1..], ordered);
    }
  }

  lemma {:induction false} DispatchSuccessorsStands(s: Engine, x: ExecId, order: seq<NodeId>, ordered: bool)
    requires Stands(s, ordered) && x in s.live.executions
    ensures Stands(DispatchSuccessors(s, x, order), ordered)
    decreases |order|
  {
    hide Stands, DispatchAll;
    if order != [] {
      var e := s.live.executions[x];
      DispatchAllStands(s, x, At(e.workflow.children, order[0]), ordered);
      var t := if Is(e, order[0], NodeDone) then DispatchAll(s, x, At(e.workflow.children, order[0])) else s;
      DispatchSuccessorsStands(t, x, order[1..], ordered);
    }
  }

  lemma {:induction false} DispatchRootsStands(s: Engine, x: ExecId, roots: seq<NodeId>, ordered: bool)
    requires Stands(s, ordered) && x in s.live.executions && Distinct(roots)
    requires var e := s.live.executions[x];
      !Terminal(e.status) && forall r | r in roots :: Is(e, r, NodePending) && At(e.workflow.parents, r) == []
    ensures Stands(DispatchRoots(s, x, roots), ordered)
    decreases |roots|
  {
    hide Stands, DispatchNode;
    if roots != [] && s.alive {
      assert roots[0] in roots;
      DispatchNodeStands(s, x, roots[0], ordered);
      forall r | r in roots[1..] ensures r in roots && r != roots[0] {}
      DispatchRootsStands(DispatchNode(s, x, roots[0]), x, roots[1..], ordered);
    }
  }

  // ---------- handlers ----------

  lemma SubmitStands(s: Engine, x: ExecId, wf: Definition, accepting: bool, ordered: bool)
    requires s.alive && Stands(s, ordered) && WellFormed(wf) && "" !in wf.nodes
    ensures Stands(Submit(s, x, wf, accepting), ordered)
  {
    var status := if x in s.live.paused then ExecutionPaused else ExecutionRunning;
    var e := NewExecution(wf, status, s.maxNodes);
    NewCausal(wf, status, s.maxNodes);
    assert Good(e, ordered);
    hide Good, Acyclic, Consistent, DispatchRoots;
    if Submit(s, x, wf, accepting) != s {
      var t := Edit(s, x, e);
      if !Next(t).Refused? { EditStands(s, t, x, e, "", ordered); }
      if Next(t).Saved? { DispatchRootsStands(Persist(t), x, wf.roots, ordered); }
    }
  }

  lemma AttemptStands(s: Engine, x: ExecId, n: NodeId, attempt: string, ordered: bool)
    requires s.alive && Stands(s, ordered)
    ensures Stands(StartAttempt(s, x, n, attempt), ordered) && Stands(FinishAttempt(s, x), ordered)
  {
    CommitStands(s, "", "", ordered);
    if x in s.live.executions {
      var e := s.live.executions[x];
      FewerGood(e, e.(active := e.active[n := attempt]), ordered);
      hide Good, Commit;
      CommitStands(Edit(s, x, e.(active := e.active[n := attempt])), "", "", ordered);
    }
  }

  lemma LiveGood(s: Engine, x: ExecId, ordered: bool)
    requires s.alive && Stands(s, ordered) && x in s.live.executions
    ensures Good(s.live.executions[x], ordered) && x != ""
  {
  }

  lemma LiveSound(s: Engine, x: ExecId)
    requires s.alive && Durable(s) && x in s.live.executions
    ensures Sound(s.live.executions[x])
  {
  }

  lemma GrownGood(e: Execution, n: NodeId, target: string, back: bool, ordered: bool)
    requires Sound(e) && Good(e, ordered) && e.status == ExecutionRunning && n in e.workflow.nodes
    requires |e.workflow.nodes| + (if back then 2 else 1) <= e.maxNodes
    ensures Good(Delegate(e, n, target, back), ordered)
  {
    var g := Delegate(e, n, target, back);
    assert "" !in g.states by { hide Sound, Causal; }
    DelegateKeepsSound(e, n, target, back);
    hide Sound, Delegate, Causal;
    if ordered { GrowsCausal(e, g); }
  }

  lemma MutateStands(s: Engine, x: ExecId, n: NodeId, attempt: string, target: string, back: bool,
                     admitted: bool, authorized: bool, ordered: bool)
    requires s.alive && Stands(s, ordered) && Durable(s)
    requires ordered ==> !Disorders(s, GraphMutationRequested(x, n, attempt, target, back, admitted, authorized))
    ensures Stands(Mutate(s, x, n, attempt, target, back, admitted, authorized), ordered)
  {
    hide Delegate, Good, Durable, Sound, Stands, ReportFailure, Interrupt, Harmless, ActiveOf;
    if MayDelegate(s, x, n, attempt, back, admitted, authorized) {
      var e := s.live.executions[x];
      LiveGood(s, x, ordered);
      LiveSound(s, x);
      GrownGood(e, n, target, back, ordered);
      var t := Edit(s, x, Delegate(e, n, target, back));
      if Next(t).Refused? { InterruptNamed(e, n, ordered); }
      if Next(t).Refused? { PutBackStands(s, t, x, e, n, ordered); } else { EditStands(s, t, x, t.live.executions[x], n, ordered); }
    }
  }

  lemma ArtifactStands(s: Engine, x: ExecId, n: NodeId, ordered: bool)
    requires s.alive && Stands(s, ordered) && (ordered ==> !Disorders(s, ArtifactStored(x, n)))
    ensures Stands(StoreArtifact(s, x, n), ordered)
  {
    if StoreArtifact(s, x, n) != s {
      var e := s.live.executions[x];
      hide Good, Interrupt, Harmless, InputsDone;
      if Next(s).Refused? { InterruptNamed(e, n, ordered); }
      CommitStands(s, x, n, ordered);
    }
  }

  lemma FailedGood(e: Execution, n: NodeId, ordered: bool)
    requires Good(e, ordered) && InProgress(e) && n != ""
    ensures Good(FailedAt(e, n), ordered)
    ensures (ordered ==> Spared(e, n)) ==> Good(Interrupt(FailedAt(e, n), true, n), ordered)
  {
    if ordered {
      InOrder(e);
      FailureMarks(e, n);
      MarkingExactly(e, Interrupt(FailedAt(e, n), true, n), n);
    }
    hide Marks, Spared, InputsDone;
    InterruptHere(FailedAt(e, n), n, ordered);
  }

  lemma FailWorkerStands(s: Engine, x: ExecId, n: NodeId, ordered: bool)
    requires s.alive && Stands(s, ordered) && (ordered ==> !Disorders(s, WorkerFailed(x, n)))
    ensures Stands(FailWorker(s, x, n), ordered)
  {
    if x != "" && n != "" && x in s.live.executions && InProgress(s.live.executions[x]) {
      var e := s.live.executions[x];
      var f := FailedAt(e, n);
      hide Good, Interrupt, Spared, InputsDone;
      FailedGood(e, n, ordered);
      assert FailWorker(s, x, n) == Commit(Edit(s, x, f), x, n);
      hide FailedAt, FailWorker;
      EditStands(s, Edit(s, x, f), x, f, n, ordered);
    }
  }

  lemma DoneGood(e: Execution, n: NodeId, active: map<NodeId, string>, ordered: bool)
    requires Good(e, ordered) && InProgress(e) && Is(e, n, NodeRunning)
    ensures var f := SetNode(e, n, NodeDone).(active := active);
      Good(f, ordered) && Good(Interrupt(f, true, n), ordered)
  {
    var f := SetNode(e, n, NodeDone).(active := active);
    if ordered {
      DoneCausal(e, n);
      FewerBegun(SetNode(e, n, NodeDone).(active := e.active - {n}), f);
      InterruptExactly(f, n);
      NothingAfter(e, n);
    }
    InterruptHere(f, n, ordered);
  }

  /** Nothing that depends on a node that is not done has begun. */
  lemma NothingAfter(e: Execution, n: NodeId)
    requires InputsDone(e) && !Is(e, n, NodeDone)
    ensures forall m | Begun(e, m) :: n !in At(e.workflow.parents, m)
  {
    forall m | Begun(e, m) ensures n !in At(e.workflow.parents, m) { assert ParentsDone(e, m); }
  }

  lemma CompleteStands(s: Engine, x: ExecId, n: NodeId, attempt: string, ordered: bool)
    requires s.alive && Stands(s, ordered) && Durable(s)
    ensures Stands(Complete(s, x, n, attempt), ordered)
  {
    hide Good, Durable, Stands, ReportFailure, DispatchAll, Conclude, Interrupt, AllDone, InputsDone;
    if x in s.live.executions && InProgress(s.live.executions[x]) && Is(s.live.executions[x], n, NodeRunning) {
      var e := s.live.executions[x];
      var done := SetNode(e, n, NodeDone).(active := e.active - {n});
      LiveGood(s, x, ordered);
      DoneGood(e, n, e.active - {n}, ordered);
      DoneGood(e, n, e.active, ordered);
      var t := Edit(s, x, done);
      if Next(t).Refused? {
        var kept := if ActiveOf(e, n) != "" then done.(active := e.active) else done;
        PutBackStands(s, t, x, kept, n, ordered);
      } else {
        EditStands(s, t, x, done, n, ordered);
        if Next(t).Saved? {
          CompletionDurable(s, x, n);
          if ordered { InOrder(e); }
          ChildrenStand(Persist(t), e, x, n, At(e.workflow.children, n), ordered);
        }
      }
    }
  }

  lemma CompletionDurable(s: Engine, x: ExecId, n: NodeId)
    requires s.alive && Durable(s) && x in s.live.executions && n in s.live.executions[x].states
    ensures var e := s.live.executions[x];
      Durable(Persist(Edit(s, x, SetNode(e, n, NodeDone).(active := e.active - {n}))))
  {
    hide Durable;
    var e := s.live.executions[x];
    var done := SetNode(e, n, NodeDone).(active := e.active - {n});
    SettleKeeps(s, x, done);
    hide SetNode;
    PersistKeeps(Edit(s, x, done));
  }

  /** After the completion of `n` is saved, the children are dispatched and the execution may be complete. */
  lemma ChildrenStand(s: Engine, e: Execution, x: ExecId, n: NodeId, ns: seq<NodeId>, ordered: bool)
    requires Stands(s, ordered) && Durable(s) && x in s.live.executions && s.live.executions[x].workflow == e.workflow
    requires forall p :: Is(s.live.executions[x], p, NodeDone) <==> Is(e, p, NodeDone) || p == n
    requires Is(e, n, NodeRunning) && (ordered ==> InputsDone(e))
    ensures Stands(Conclude(DispatchAll(s, x, ns), x, n), ordered)
  {
    hide Stands, Durable, DispatchAll, Conclude, InputsDone, Is, AllDone;
    DispatchAllKeeps(s, x, ns);
    DispatchAllStands(s, x, ns, ordered);
    if ordered { NothingLeft(e, DispatchAll(s, x, ns).live.executions[x], n); }
    ConcludeStands(DispatchAll(s, x, ns), x, n, ordered);
  }

  /** If everything is done after a completion, nothing depends on the node that completed. */
  lemma NothingLeft(e: Execution, f: Execution, n: NodeId)
    requires InputsDone(e) && Is(e, n, NodeRunning) && f.workflow == e.workflow
    requires forall p :: Is(f, p, NodeDone) <==> Is(e, p, NodeDone) || p == n
    ensures AllDone(f) ==> forall m | m in f.states :: n !in At(f.workflow.parents, m)
  {
    NothingAfter(e, n);
    if AllDone(f) {
      forall m | m in f.states ensures n !in At(f.workflow.parents, m) { assert Is(f, m, NodeDone) && Begun(e, m); }
    }
  }

  lemma CompletedGood(e: Execution, n: NodeId, ordered: bool)
    requires Sound(e) && "" !in e.states && AllDone(e)
    requires ordered ==> forall m | m in e.states :: n !in At(e.workflow.parents, m)
    ensures var f := e.(status := ExecutionSucceeded);
      Good(f, ordered) && Good(Interrupt(f, true, n), ordered)
  {
    var f := e.(status := ExecutionSucceeded);
    forall m | m in f.states ensures ParentsDone(f, m) {
      forall p | p in At(f.workflow.parents, m) ensures Is(f, p, NodeDone) { ParentKnown(e, p, m); }
    }
    hide WellFormed, NamesBounded;
    if ordered { InterruptExactly(f, n); }
    InterruptHere(f, n, ordered);
  }

  lemma ConcludeStands(s: Engine, x: ExecId, n: NodeId, ordered: bool)
    requires Stands(s, ordered) && Durable(s) && x in s.live.executions
    requires var e := s.live.executions[x];
      ordered && AllDone(e) ==> forall m | m in e.states :: n !in At(e.workflow.parents, m)
    ensures Stands(Conclude(s, x, n), ordered)
  {
    var e := s.live.executions[x];
    if s.alive && AllDone(e) {
      assert Sound(e) && Good(e, ordered) && x != "";
      CompletedGood(e, n, ordered);
      hide Good, Durable, Sound;
      EditStands(s, Edit(s, x, e.(status := ExecutionSucceeded)), x, e.(status := ExecutionSucceeded), n, ordered);
    }
  }

  /** A killed execution: nothing that was running or done is touched. */
  lemma KilledGood(e: Execution, status: Status, ordered: bool)
    requires Good(e, ordered) && (Stopped(e.status) ==> Stopped(status)) && status != ExecutionRunning
    requires status == ExecutionSucceeded ==> e.status == ExecutionSucceeded
    ensures var f := e.(status := status, states := Sweep(e.states, BlockIdle));
      && Good(f, ordered)
      && (Good(Interrupt(f, true, ""), ordered) <==> (ordered ==> Supplied(e)))
      && (ordered && !Stopped(e.status) ==> Supplied(e))
  {
    var f := e.(status := status, states := Sweep(e.states, BlockIdle));
    FewerGood(e, f, ordered);
    if ordered && !Stopped(e.status) { InOrder(e); }
    SweptSupplied(e, f);
    InterruptHere(f, "", ordered);
    InterruptedSupplied(f);
  }

  lemma SweptSupplied(e: Execution, f: Execution)
    requires f.workflow == e.workflow && f.states == Sweep(e.states, BlockIdle)
    ensures InputsDone(f) <==> Supplied(e)
  {
    forall n ensures Begun(f, n) <==> Is(e, n, NodeRunning) || Is(e, n, NodeDone) {}
    forall n ensures Is(f, n, NodeDone) <==> Is(e, n, NodeDone) {}
    hide Sweep, Begun, Is;
    forall n ensures ParentsDone(f, n) <==> ParentsDone(e, n) {}
  }

  lemma InterruptedSupplied(f: Execution)
    requires "" !in f.states
    ensures InputsDone(Interrupt(f, true, "")) <==> InputsDone(f)
  {
    var g := Interrupt(f, true, "");
    forall n ensures Begun(g, n) <==> Begun(f, n) {}
    forall n ensures Is(g, n, NodeDone) <==> Is(f, n, NodeDone) {}
    hide Interrupt, Begun, Is;
    forall n ensures ParentsDone(g, n) <==> ParentsDone(f, n) {}
  }

  function Killed(e: Execution): Execution {
    e.(status := if InProgress(e) then ExecutionCancelled else e.status, states := Sweep(e.states, BlockIdle))
  }

  lemma KillStands(s: Engine, x: ExecId, ordered: bool)
    requires s.alive && Stands(s, ordered) && (ordered ==> !Disorders(s, ExecutionKilled(x)))
    ensures Stands(Kill(s, x), ordered)
  {
    var t := s.(live := s.live.(cancelled := s.live.cancelled + {x, "compile-" + x}));
    if x in s.live.executions {
      var e := s.live.executions[x];
      KilledGood(e, Killed(e).status, ordered);
      hide Good, Supplied, Interrupt;
      EditStands(s, Edit(t, x, Killed(e)), x, Killed(e), "", ordered);
    } else {
      hide Good;
      CommitStands(t, x, "", ordered);
    }
  }

  lemma PauseStands(s: Engine, x: ExecId, ordered: bool)
    requires s.alive && Stands(s, ordered) && (ordered ==> !Disorders(s, ExecutionPauseRequested(x)))
    ensures Stands(Pause(s, x), ordered)
  {
    var t := s.(live := s.live.(paused := s.live.paused + {x}));
    if x in s.live.executions {
      var e := s.live.executions[x];
      var f := if e.status == ExecutionRunning then e.(status := ExecutionPaused) else e;
      FewerGood(e, f, ordered);
      if ordered && !Stopped(e.status) { InOrder(e); }
      if Next(s).Refused? { InterruptNoNode(f, ordered); }
      hide Good, Interrupt;
      assert Edit(t, x, f).live == if f == e then t.live else Edit(t, x, f).live;
      EditStands(s, Edit(t, x, f), x, f, "", ordered);
    } else {
      hide Good;
      CommitStands(t, x, "", ordered);
    }
  }

  lemma ResumeStands(s: Engine, x: ExecId, order: seq<NodeId>, ordered: bool)
    requires s.alive && Stands(s, ordered)
    ensures Stands(Resume(s, x, order), ordered)
  {
    var t := s.(live := s.live.(paused := s.live.paused - {x}));
    if x in s.live.executions && s.live.executions[x].status == ExecutionPaused {
      var e := s.live.executions[x];
      var f := e.(status := ExecutionRunning);
      FewerGood(e, f, ordered);
      if ordered { InOrder(e); }
      InterruptNoNode(e, ordered);
      hide Good, DispatchAll, DispatchSuccessors, ReportFailure;
      var u := Edit(t, x, f);
      if Next(u).Refused? { PutBackStands(s, u, x, e, "", ordered); } else { EditStands(s, u, x, f, "", ordered); }
      if Next(u).Saved? {
        DispatchAllStands(Persist(u), x, e.workflow.roots, ordered);
        DispatchSuccessorsStands(DispatchAll(Persist(u), x, e.workflow.roots), x, order, ordered);
      }
    }
  }

  lemma RetryStands(s: Engine, x: ExecId, order: seq<NodeId>, ordered: bool)
    requires s.alive && Stands(s, ordered) && x in s.live.executions && s.live.executions[x].status == ExecutionInterrupted
    ensures Stands(Reconcile(s, x, RetryAction, order), ordered)
  {
    var e := s.live.executions[x];
    FewerGood(e, Requeue(e), ordered);
    if ordered { InOrder(e); }
    InterruptNoNode(e, ordered);
    hide Good, DispatchAll, ReportFailure, Requeue;
    var t := Edit(s, x, Requeue(e));
    if Next(t).Refused? { PutBackStands(s, t, x, e, "", ordered); } else { EditStands(s, t, x, Requeue(e), "", ordered); }
    if Next(t).Saved? { DispatchAllStands(Persist(t).(retries := t.retries + multiset{x}), x, order, ordered); }
  }

  lemma ReconcileStands(s: Engine, x: ExecId, action: Action, order: seq<NodeId>, ordered: bool)
    requires s.alive && Stands(s, ordered)
    ensures Stands(Reconcile(s, x, action, order), ordered)
  {
    if x in s.live.executions && s.live.executions[x].status == ExecutionInterrupted {
      if action == RetryAction {
        RetryStands(s, x, order, ordered);
      } else {
        var e, status := s.live.executions[x], if action == CancelAction then ExecutionCancelled else ExecutionFailed;
        KilledGood(e, status, ordered);
        hide Good, Interrupt, Supplied;
        var f := e.(status := status, states := Sweep(e.states, BlockIdle));
        EditStands(s, Edit(s, x, f), x, f, "", ordered);
      }
    }
  }

  lemma OverloadStands(s: Engine, ordered: bool)
    requires s.alive && Stands(s, ordered)
    ensures Stands(Overload(s), ordered)
  {
    var xs := s.live.executions;
    forall y | y in xs ensures Good(Failed(xs[y]), ordered) {}
    var t := s.(live := s.live.(
      executions := map y | y in xs :: if InProgress(xs[y]) then Failed(xs[y]) else xs[y],
      cancelled := s.live.cancelled + set y | y in xs && InProgress(xs[y])));
    hide Good, Failed;
    CommitStands(t, "", "", ordered);
  }

  lemma RecoverStands(s: Engine, ordered: bool)
    requires Stands(s, ordered)
    ensures Stands(Recover(s), ordered)
  {
    var xs := s.disk.executions;
    forall y | y in xs ensures Good(RecoverExecution(xs[y], s.maxNodes), ordered) {
      FewerGood(xs[y], RecoverExecution(xs[y], s.maxNodes), ordered);
    }
    hide Good, RecoverExecution, NeedsRecovery;
  }

  // ---------- steps and runs ----------

  lemma StepStands(s: Engine, event: Event, ordered: bool)
    requires Stands(s, ordered) && Durable(s) && Loaded(event) && (ordered ==> !Disorders(s, event))
    ensures Stands(Step(s, event), ordered)
  {
    hide Submit, Mutate, Complete, Resume, Reconcile, Overload, StartAttempt, FinishAttempt, StoreArtifact, FailWorker, Kill, Pause;
    hide Recover, Stands, Durable, Disorders;
    if event.Restart? {
      RecoverStands(s, ordered);
    } else if s.alive {
      match event
      case SubmitWorkflow(x, wf, accepting) => SubmitStands(s, x, wf, accepting, ordered);
      case GraphMutationRequested(x, n, attempt, target, back, admitted, authorized) =>
        MutateStands(s, x, n, attempt, target, back, admitted, authorized, ordered);
      case WorkerCompleted(x, n, attempt) => CompleteStands(s, x, n, attempt, ordered);
      case ExecutionResumed(x, order) => ResumeStands(s, x, order, ordered);
      case ExecutionReconciled(x, action, order) => ReconcileStands(s, x, action, order, ordered);
      case RuntimeOverloaded => OverloadStands(s, ordered);
      case AttemptStarted(x, n, attempt) => AttemptStands(s, x, n, attempt, ordered);
      case AttemptFinished(x) => AttemptStands(s, x, "", "", ordered);
      case ArtifactStored(x, n) => ArtifactStands(s, x, n, ordered);
      case WorkerFailed(x, n) => FailWorkerStands(s, x, n, ordered);
      case ExecutionKilled(x) => KillStands(s, x, ordered);
      case ExecutionPauseRequested(x) => PauseStands(s, x, ordered);
    }
  }

  lemma OutOfOrder(t: Engine, x: ExecId)
    requires t.alive && x in t.live.executions && t.live.executions[x].status == ExecutionInterrupted
    requires !InputsDone(t.live.executions[x])
    ensures !Stands(t, true)
  {
  }

  lemma KillBreaksExactly(s: Engine, x: ExecId)
    requires s.alive && Next(s).Refused? && x in s.live.executions && Good(s.live.executions[x], true)
    ensures var t := Step(s, ExecutionKilled(x));
      && x in t.live.executions && t.live.executions[x].status == ExecutionInterrupted
      && (InputsDone(t.live.executions[x]) <==> Supplied(s.live.executions[x]))
  {
    var e := s.live.executions[x];
    var t := s.(live := s.live.(cancelled := s.live.cancelled + {x, "compile-" + x}));
    assert "" !in Killed(e).states;
    SweptSupplied(e, Killed(e));
    InterruptedSupplied(Killed(e));
    CommitHere(Edit(t, x, Killed(e)), x, "");
    assert Interrupt(Killed(e), true, "").status == ExecutionInterrupted;
    hide Good, Interrupt, Supplied, InputsDone, Commit;
  }

  lemma PauseBreaksExactly(s: Engine, x: ExecId)
    requires s.alive && Next(s).Refused? && x in s.live.executions && Good(s.live.executions[x], true)
    requires s.live.executions[x].status != ExecutionRunning
    ensures var t := Step(s, ExecutionPauseRequested(x));
      && x in t.live.executions && t.live.executions[x].status == ExecutionInterrupted
      && (InputsDone(t.live.executions[x]) <==> InputsDone(s.live.executions[x]))
  {
    var e := s.live.executions[x];
    InterruptedSupplied(e);
    CommitHere(s.(live := s.live.(paused := s.live.paused + {x})), x, "");
    assert Interrupt(e, true, "").status == ExecutionInterrupted;
    hide Good, Interrupt, InputsDone, Commit;
  }

  lemma ReportLives(s: Engine, event: Event)
    requires Disorders(s, event)
    ensures Step(s, event).alive
  {
    hide Interrupt, InputsDone, Harmless, Spared, Supplied, Delegate, Sweep;
  }

  /** The execution named by a disordering request is out of order afterwards. */
  lemma DisorderShows(s: Engine, event: Event)
    requires Stands(s, true) && Disorders(s, event)
    ensures !Stands(Step(s, event), true)
  {
    ReportLives(s, event);
    var x := event.x;
    assert Good(s.live.executions[x], true);
    if !Stopped(s.live.executions[x].status) { InOrder(s.live.executions[x]); }
    hide Step, Good, InputsDone, Harmless, Spared, Supplied, Stands;
    match event {
      case ArtifactStored(_, n) => ArtifactBreaksExactly(s, x, n);
      case GraphMutationRequested(_, n, attempt, target, back, admitted, authorized) =>
        DelegationBreaksExactly(s, x, n, attempt, target, back, admitted, authorized);
      case WorkerFailed(_, n) => FailureBreaksExactly(s, x, n);
      case ExecutionKilled(_) => KillBreaksExactly(s, x);
      case ExecutionPauseRequested(_) => PauseBreaksExactly(s, x);
    }
    OutOfOrder(Step(s, event), x);
  }

  /** Memory and disk stay in order over a step exactly when the step is none of the disorders. */
  lemma OrderBreaksExactly(s: Engine, event: Event)
    requires Stands(s, true) && Durable(s) && Loaded(event)
    ensures Stands(Step(s, event), true) <==> !Disorders(s, event)
  {
    hide Stands, Disorders, Durable, Step;
    if Disorders(s, event) { DisorderShows(s, event); } else { StepStands(s, event, true); }
  }

  lemma {:induction false} RunStands(s: Engine, events: seq<Event>, ordered: bool)
    requires Stands(s, ordered) && Durable(s) && (forall e | e in events :: Loaded(e))
    requires ordered ==> forall i | 0 <= i < |events| :: !Disorders(Run(s, events[..i]), events[i])
    ensures Stands(Run(s, events), ordered) && Durable(Run(s, events))
  {
    hide Stands, Disorders, Durable, Step;
    if events != [] {
      var front := events[..|events| - 1];
      forall i | 0 <= i < |front| ensures front[..i] == events[..i] {}
      RunStands(s, front, ordered);
      StepStands(Run(s, front), events[|events| - 1], ordered);
      StepKeeps(Run(s, front), events[|events| - 1]);
    }
  }

  lemma BootStands(plan: seq<Outcome>, maxNodes: nat, ordered: bool)
    ensures Stands(Boot(plan, maxNodes), ordered) && Durable(Boot(plan, maxNodes))
  {
  }

  /** The order of work, with refused writes: it holds at every point of a run, in memory and on disk,
      exactly when no step of the run is one of the disorders. */
  lemma OrderHoldsExactly(plan: seq<Outcome>, maxNodes: nat, events: seq<Event>)
    requires forall e | e in events :: Loaded(e)
    ensures (forall i | 0 <= i <= |events| :: Stands(Run(Boot(plan, maxNodes), events[..i]), true))
       <==> (forall i | 0 <= i < |events| :: !Disorders(Run(Boot(plan, maxNodes), events[..i]), events[i]))
  {
    var s := Boot(plan, maxNodes);
    BootStands(plan, maxNodes, true);
    hide Stands, Disorders, Durable, Step, Boot;
    if forall i | 0 <= i < |events| :: !Disorders(Run(s, events[..i]), events[i]) {
      forall i | 0 <= i <= |events| ensures Stands(Run(s, events[..i]), true) {
        forall j | 0 <= j < i ensures events[..i][..j] == events[..j] {}
        RunStands(s, events[..i], true);
      }
    } else {
      var i :| 0 <= i < |events| && Disorders(Run(s, events[..i]), events[i]);
      assert events[..i + 1][..i] == events[..i];
      if Stands(Run(s, events[..i]), true) { DisorderShows(Run(s, events[..i]), events[i]); }
    }
  }

  /** Completion means that everything is done, in every run: whatever is refused, wherever the
      process dies and however often it restarts. */
  lemma CompletedMeansDone(plan: seq<Outcome>, maxNodes: nat, events: seq<Event>, x: ExecId, n: NodeId)
    requires forall e | e in events :: Loaded(e)
    ensures var s := Run(Boot(plan, maxNodes), events);
      s.alive && x in s.live.executions ==>
        var e := s.live.executions[x];
        e.status == ExecutionSucceeded && n in e.workflow.nodes ==> Is(e, n, NodeDone)
  {
    BootStands(plan, maxNodes, false);
    RunStands(Boot(plan, maxNodes), events, false);
  }
}
