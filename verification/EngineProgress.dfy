/** Runs without write faults or restarts: a running execution is never stuck. */
module EngineProgress {
  import opened Collections
  import opened Graph
  import opened Workflow
  import opened Names
  import opened Storage
  import opened EngineModel
  import opened EngineDurability

  ghost predicate Faultless(s: Engine) {
    s.alive && forall o | o in s.plan :: o == Saved
  }

  /** Pending nodes that nothing holds back. */
  ghost function Ready(e: Execution): set<NodeId> {
    set n | n in e.states && e.states[n] == NodePending && ParentsDone(e, n)
  }

  /** An execution in progress: exactly the graph's nodes have states, each pending, running or
      done, and only running nodes have an active attempt. */
  ghost predicate Ongoing(e: Execution) {
    && e.states.Keys == e.workflow.nodes.Keys
    && (forall n | n in e.states :: e.states[n] in {NodePending, NodeRunning, NodeDone})
    && (forall n | n in e.active :: Is(e, n, NodeRunning))
  }

  ghost predicate Moving(e: Execution) {
    && e.status != ExecutionInterrupted
    && (InProgress(e) ==> Ongoing(e) && !AllDone(e))
    && (e.status == ExecutionRunning ==> Ready(e) == {})
  }

  ghost predicate AllMoving(s: Engine) {
    Faultless(s) && Durable(s) && forall x | x in s.live.executions :: Moving(s.live.executions[x])
  }

  /** Attempts are started only for running nodes, a range over the node states visits them all,
      and the process is not restarted. */
  ghost predicate Orderly(s: Engine, event: Event) {
    && Admissible(event)
    && !event.Restart?
    && (event.AttemptStarted? && event.x in s.live.executions ==>
          Is(s.live.executions[event.x], event.n, NodeRunning))
    && (event.ExecutionResumed? && event.x in s.live.executions ==>
          forall n | n in s.live.executions[event.x].states :: n in event.order)
  }

  /** The deadlock argument: among unfinished nodes of an acyclic graph, if none runs, some
      pending node has only done parents. */
  lemma SomeNodeRuns(e: Execution)
    requires Sound(e) && Moving(e) && e.status == ExecutionRunning
    ensures exists n :: Is(e, n, NodeRunning)
  {
    var waiting := set n | n in e.states && e.states[n] == NodePending;
    if forall n :: !Is(e, n, NodeRunning) {
      assert waiting != {} by {
        var n :| n in e.states && e.states[n] != NodeDone;
        assert Is(e, n, NodePending) || Is(e, n, NodeRunning);
        assert n in waiting;
      }
      forall n | n in waiting ensures HasSourceIn(e.workflow.edges, waiting, n) {
        assert n !in Ready(e);
        var p :| p in At(e.workflow.parents, n) && !Is(e, p, NodeDone);
        InSources(e.workflow.edges, p, n);
        assert p in e.states && !Is(e, p, NodeRunning);
        assert p in waiting;
      }
      ClosedUnderSourcesIsCyclic(e.workflow.edges, waiting);
    }
  }

  // ---------- dispatch without faults ----------

  ghost function Members(ns: seq<NodeId>): set<NodeId> {
    set n | n in ns
  }

  lemma PersistSaves(s: Engine)
    requires Faultless(s)
    ensures Next(s) == Saved && Faultless(Persist(s)) && Persist(s).live == s.live
  {
    if s.plan != [] {
      assert s.plan[0] in s.plan;
      forall o | o in s.plan[1..] ensures o == Saved { assert o in s.plan; }
    }
  }

  lemma DispatchNodeRuns(s: Engine, x: ExecId, n: NodeId)
    requires Faultless(s) && x in s.live.executions
    ensures var t := DispatchNode(s, x, n);
      Faultless(t) && t.live == Edit(s, x, SetNode(s.live.executions[x], n, NodeRunning)).live
  {
    PersistSaves(Edit(s, x, SetNode(s.live.executions[x], n, NodeRunning)));
  }

  lemma RunningIsOngoing(e: Execution, n: NodeId)
    requires Ongoing(e) && Is(e, n, NodePending)
    ensures Ongoing(SetNode(e, n, NodeRunning)) && !AllDone(SetNode(e, n, NodeRunning))
    ensures Ready(SetNode(e, n, NodeRunning)) == Ready(e) - {n}
  {
    var f := SetNode(e, n, NodeRunning);
    assert f.states[n] == NodeRunning;
    forall m ensures ParentsDone(f, m) == ParentsDone(e, m) {
      assert forall p :: Is(f, p, NodeDone) == Is(e, p, NodeDone);
    }
  }

  /** `t` results from `s` by dispatching ready nodes of the running execution `x`. */
  ghost predicate Dispatched(s: Engine, t: Engine, x: ExecId, todo: set<NodeId>)
    requires x in s.live.executions && x in t.live.executions
  {
    var e, f := s.live.executions[x], t.live.executions[x];
    && Faultless(t)
    && t.live == Edit(s, x, f).live
    && f.workflow == e.workflow && f.status == e.status && Ongoing(f)
    && (AllDone(f) ==> AllDone(e))
    && (forall n :: Is(e, n, NodeDone) ==> Is(f, n, NodeDone))
    && Ready(f) <= Ready(e) - todo
  }

  lemma DispatchedTransitive(s: Engine, t: Engine, u: Engine, x: ExecId, a: set<NodeId>, b: set<NodeId>)
    requires x in s.live.executions && x in t.live.executions && x in u.live.executions
    requires Dispatched(s, t, x, a) && Dispatched(t, u, x, b)
    ensures Dispatched(s, u, x, a + b)
  {
    hide Ongoing, ParentsDone;
  }

  lemma CheckDispatches(s: Engine, x: ExecId, n: NodeId)
    requires Faultless(s) && x in s.live.executions
    requires s.live.executions[x].status == ExecutionRunning && Ongoing(s.live.executions[x])
    ensures Dispatched(s, CheckAndDispatch(s, x, n), x, {n})
  {
    var e := s.live.executions[x];
    if Dispatchable(s, x, n) {
      DispatchNodeRuns(s, x, n);
      RunningIsOngoing(e, n);
      hide Ongoing, ParentsDone;
    } else {
      assert n !in Ready(e);
      assert Edit(s, x, e).live == s.live;
    }
  }

  lemma {:induction false} DispatchAllDispatches(s: Engine, x: ExecId, ns: seq<NodeId>)
    requires Faultless(s) && x in s.live.executions
    requires s.live.executions[x].status == ExecutionRunning && Ongoing(s.live.executions[x])
    ensures Dispatched(s, DispatchAll(s, x, ns), x, Members(ns))
    decreases |ns|
  {
    hide Ongoing, ParentsDone;
    if ns == [] {
      assert Edit(s, x, s.live.executions[x]).live == s.live;
    } else {
      var t := CheckAndDispatch(s, x, ns[0]);
      CheckDispatches(s, x, ns[0]);
      DispatchAllDispatches(t, x, ns[1..]);
      assert Members(ns) == {ns[0]} + Members(ns[1..]);
      DispatchedTransitive(s, t, DispatchAll(t, x, ns[1..]), x, {ns[0]}, Members(ns[1..]));
    }
  }

  /** The children of the done nodes among `order`. */
  ghost function Successors(e: Execution, order: seq<NodeId>): set<NodeId> {
    set n, m | n in order && Is(e, n, NodeDone) && m in At(e.workflow.children, n) :: m
  }

  lemma {:induction false} SuccessorsDispatched(s: Engine, x: ExecId, order: seq<NodeId>)
    requires Faultless(s) && x in s.live.executions
    requires s.live.executions[x].status == ExecutionRunning && Ongoing(s.live.executions[x])
    ensures Dispatched(s, DispatchSuccessors(s, x, order), x, Successors(s.live.executions[x], order))
    decreases |order|
  {
    hide Ongoing, ParentsDone;
    var e := s.live.executions[x];
    if order == [] {
      assert Edit(s, x, e).live == s.live;
      assert Successors(e, order) == {};
    } else {
      var here := if Is(e, order[0], NodeDone) then At(e.workflow.children, order[0]) else [];
      var t := DispatchAll(s, x, here);
      DispatchAllDispatches(s, x, here);
      SuccessorsDispatched(t, x, order[1..]);
      var f := t.live.executions[x];
      var later := Successors(f, order[1..]);
      DispatchedTransitive(s, t, DispatchSuccessors(t, x, order[1..]), x, Members(here), later);
      forall m | m in Successors(e, order) ensures m in Members(here) + later {
        var n :| n in order && Is(e, n, NodeDone) && m in At(e.workflow.children, n);
        if n != order[0] { assert n in order[1..] && Is(f, n, NodeDone); }
      }
      Weaken(s, DispatchSuccessors(t, x, order[1..]), x, Members(here) + later, Successors(e, order));
    }
  }

  lemma Weaken(s: Engine, t: Engine, x: ExecId, a: set<NodeId>, b: set<NodeId>)
    requires x in s.live.executions && x in t.live.executions && Dispatched(s, t, x, a) && b <= a
    ensures Dispatched(s, t, x, b)
  {
    hide Ongoing, ParentsDone;
  }

  // ---------- handlers ----------

  /** What a handler owes here; durability is kept by every handler anyway. */
  ghost predicate OnlyChanges(s: Engine, t: Engine, x: ExecId) {
    && Faultless(t)
    && forall y | y != x && y in t.live.executions ::
         y in s.live.executions && t.live.executions[y] == s.live.executions[y]
  }

  ghost predicate Moves(s: Engine, t: Engine, x: ExecId) {
    OnlyChanges(s, t, x) && (x in t.live.executions ==> Moving(t.live.executions[x]))
  }

  lemma Conclusion(s: Engine, event: Event, x: ExecId)
    requires AllMoving(s) && Admissible(event) && Moves(s, Step(s, event), x)
    ensures AllMoving(Step(s, event))
  {
    hide Durable, Moving;
    StepKeeps(s, event);
  }

  lemma Known(s: Engine, x: ExecId)
    requires AllMoving(s) && x in s.live.executions
    ensures Faultless(s)
    ensures var e := s.live.executions[x];
      && Sound(e) && Moving(e) && e.status != ExecutionInterrupted
      && (InProgress(e) ==> Ongoing(e) && !AllDone(e))
      && (e.status == ExecutionRunning ==> Ready(e) == {})
  {
  }

  lemma ActiveRuns(e: Execution, n: NodeId)
    requires Ongoing(e)
    ensures n in e.active ==> Is(e, n, NodeRunning)
  {
  }

  lemma EditMoves(s: Engine, t: Engine, x: ExecId, e: Execution, y: ExecId, n: NodeId)
    requires Faultless(s) && t == Edit(s.(live := t.live), x, e)
    requires t.live.executions == s.live.executions[x := e]
    ensures OnlyChanges(s, Commit(t, y, n), x) && Commit(t, y, n).live == t.live
  {
    PersistSaves(t);
  }

  lemma FaultlessOf(s: Engine)
    requires AllMoving(s)
    ensures Faultless(s)
  {
  }

  lemma Replaced(s: Engine, t: Engine, x: ExecId)
    requires Faultless(t) && x in t.live.executions && Moving(t.live.executions[x])
    requires t.live.executions == s.live.executions[x := t.live.executions[x]]
    ensures Moves(s, t, x)
  {
    hide Moving;
  }

  lemma NewIsReady(wf: Definition, status: Status, maxNodes: nat)
    requires WellFormed(wf)
    ensures var e := NewExecution(wf, status, maxNodes);
      Ongoing(e) && !AllDone(e) && Ready(e) == Members(wf.roots) && Distinct(wf.roots)
  {
    hide Consistent, Acyclic;
    var e := NewExecution(wf, status, maxNodes);
    var n :| n in wf.nodes;
    assert e.states[n] == NodePending;
    forall m ensures ParentsDone(e, m) <==> At(wf.parents, m) == [] {
      if At(wf.parents, m) != [] { assert At(wf.parents, m)[0] in At(wf.parents, m); }
    }
  }

  lemma AdmitMoves(s: Engine, x: ExecId, e: Execution)
    requires Faultless(s) && Ongoing(e) && !AllDone(e) && InProgress(e)
    requires Ready(e) == Members(e.workflow.roots) && Distinct(e.workflow.roots)
    ensures Next(Edit(s, x, e)).Saved?
    ensures Moves(s, DispatchRoots(Persist(Edit(s, x, e)), x, e.workflow.roots), x)
  {
    hide Ready, Ongoing, AllDone, Distinct, Moves, Moving, Members;
    var t := Persist(Edit(s, x, e));
    PersistSaves(Edit(s, x, e));
    RootsMove(t, x, e.workflow.roots);
    Replaced(s, DispatchRoots(t, x, e.workflow.roots), x);
  }

  lemma SubmitMoves(s: Engine, x: ExecId, wf: Definition, accepting: bool)
    requires AllMoving(s) && WellFormed(wf)
    ensures Moves(s, Submit(s, x, wf, accepting), x)
  {
    hide AllMoving, WellFormed, Moves, Ready, Ongoing, AllDone, Distinct;
    UnchangedMoves(s, s, x, "", "");
    FaultlessOf(s);
    var status := if x in s.live.paused then ExecutionPaused else ExecutionRunning;
    NewIsReady(wf, status, s.maxNodes);
    AdmitMoves(s, x, NewExecution(wf, status, s.maxNodes));
  }

  lemma {:induction false} RootsMove(s: Engine, x: ExecId, roots: seq<NodeId>)
    requires Faultless(s) && x in s.live.executions && Distinct(roots)
    requires var e := s.live.executions[x];
      Ongoing(e) && InProgress(e) && !AllDone(e) && Ready(e) == Members(roots)
    ensures var t := DispatchRoots(s, x, roots);
      Faultless(t) && t.live == Edit(s, x, t.live.executions[x]).live && Moving(t.live.executions[x])
    decreases |roots|
  {
    hide ParentsDone, Ongoing;
    var e := s.live.executions[x];
    if roots == [] {
      assert Edit(s, x, e).live == s.live;
    } else {
      assert roots[0] in Ready(e);
      DispatchNodeRuns(s, x, roots[0]);
      RunningIsOngoing(e, roots[0]);
      assert Members(roots) - {roots[0]} == Members(roots[1..]);
      RootsMove(DispatchNode(s, x, roots[0]), x, roots[1..]);
    }
  }

  lemma AddNodeOngoing(e: Execution, from: NodeId, id: NodeId, worker: string)
    requires Ongoing(e) && id !in e.workflow.nodes && At(e.workflow.parents, id) == []
    requires from in e.states && !Is(e, from, NodeDone)
    ensures var f := AddNode(e, from, id, worker);
      Ongoing(f) && !AllDone(f) && Is(f, id, NodePending) && Ready(f) == Ready(e)
  {
    var f := AddNode(e, from, id, worker);
    assert f.states[id] == NodePending;
    assert from in At(f.workflow.parents, id) && !Is(f, from, NodeDone);
    forall m | m != id ensures ParentsDone(f, m) == ParentsDone(e, m) {
      assert forall p :: Is(f, p, NodeDone) == Is(e, p, NodeDone);
    }
  }

  lemma DelegateMoves(e: Execution, n: NodeId, target: string, back: bool)
    requires Sound(e) && Ongoing(e) && Ready(e) == {} && e.status == ExecutionRunning
    requires n in e.workflow.nodes && Is(e, n, NodeRunning)
    requires |e.workflow.nodes| + (if back then 2 else 1) <= e.maxNodes
    ensures Moving(Delegate(e, n, target, back))
  {
    hide Sound, Ongoing, Ready, ParentsDone, DynamicName, AllDone;
    var id := DynamicName(target, |e.workflow.nodes| + 1);
    AddNodeKeepsSound(e, n, target);
    Parentless(e, id);
    AddNodeOngoing(e, n, id, target);
    var f := AddNode(e, n, id, target);
    var agent := e.workflow.nodes[n];
    if back {
      var next := DynamicName(agent, |e.workflow.nodes| + 2);
      AddNodeKeepsSound(f, id, agent);
      Parentless(f, next);
      AddNodeOngoing(f, id, next, agent);
      Revise(AddNode(f, id, next, agent), e.revision + 1);
    } else {
      Revise(f, e.revision + 1);
    }
  }

  lemma MutateMoves(s: Engine, x: ExecId, n: NodeId, attempt: string, target: string, back: bool,
                    admitted: bool, authorized: bool)
    requires AllMoving(s) && MayDelegate(s, x, n, attempt, back, admitted, authorized)
    ensures Moves(s, Mutate(s, x, n, attempt, target, back, admitted, authorized), x)
  {
    hide AllMoving, Moving, Sound, Ongoing, Ready, ParentsDone, DynamicName, Moves, AllDone;
    Known(s, x);
    var e := s.live.executions[x];
    ActiveRuns(e, n);
    DelegateMoves(e, n, target, back);
    var g := Delegate(e, n, target, back);
    PersistSaves(Edit(s, x, g));
    Replaced(s, Persist(Edit(s, x, g)), x);
  }

  lemma Revise(e: Execution, revision: nat)
    ensures Ongoing(e.(revision := revision)) == Ongoing(e)
    ensures AllDone(e.(revision := revision)) == AllDone(e)
    ensures Ready(e.(revision := revision)) == Ready(e)
  {
    var f := e.(revision := revision);
    forall n ensures ParentsDone(f, n) == ParentsDone(e, n) && (Is(f, n, NodeRunning) <==> Is(e, n, NodeRunning)) {
      assert forall p :: Is(f, p, NodeDone) == Is(e, p, NodeDone);
    }
  }

  lemma Parentless(e: Execution, id: NodeId)
    requires Sound(e) && id !in e.workflow.nodes
    ensures At(e.workflow.parents, id) == []
  {
    EdgesOfUnknown(e.workflow, id);
  }

  /** Finishing `n` makes ready only children of `n`. */
  lemma DoneReadies(e: Execution, n: NodeId)
    requires Sound(e) && Ongoing(e) && Is(e, n, NodeRunning)
    ensures var f := SetNode(e, n, NodeDone).(active := e.active - {n});
      Ongoing(f) && Ready(f) <= Ready(e) + Members(At(e.workflow.children, n))
  {
    hide RootsExact, Acyclic, NamesBounded;
    var f := SetNode(e, n, NodeDone).(active := e.active - {n});
    forall m | m in Ready(f) && m !in Ready(e) ensures m in At(e.workflow.children, n) {
      var p :| p in At(e.workflow.parents, m) && !Is(e, p, NodeDone);
      assert Is(f, p, NodeDone);
      InSources(e.workflow.edges, n, m);
      InTargets(e.workflow.edges, n, m);
    }
  }

  lemma MovesAfter(s: Engine, u: Engine, t: Engine, x: ExecId)
    requires x in u.live.executions && u.live.executions == s.live.executions[x := u.live.executions[x]]
    requires Moves(u, t, x)
    ensures Moves(s, t, x)
  {
    hide Moving;
  }

  lemma CompleteMoves(s: Engine, x: ExecId, n: NodeId, attempt: string)
    requires AllMoving(s)
    ensures Moves(s, Complete(s, x, n, attempt), x)
  {
    hide AllMoving, Sound, ParentsDone, Ongoing, Moves, Moving, Ready, AllDone;
    UnchangedMoves(s, s, x, "", "");
    if Complete(s, x, n, attempt) != s {
      Known(s, x);
      var e := s.live.executions[x];
      DoneReadies(e, n);
      var done := SetNode(e, n, NodeDone).(active := e.active - {n});
      var t := Edit(s, x, done);
      PersistSaves(t);
      var u := DispatchAll(Persist(t), x, At(e.workflow.children, n));
      if e.status == ExecutionRunning {
        DispatchAllDispatches(Persist(t), x, At(e.workflow.children, n));
      } else {
        PausedDispatchesNothing(Persist(t), x, At(e.workflow.children, n));
      }
      ConcludeMoves(u, x, n);
      MovesAfter(s, u, Conclude(u, x, n), x);
    }
  }

  lemma {:induction false} PausedDispatchesNothing(s: Engine, x: ExecId, ns: seq<NodeId>)
    requires x in s.live.executions && s.live.executions[x].status != ExecutionRunning
    ensures DispatchAll(s, x, ns) == s
    decreases |ns|
  {
    if ns != [] { PausedDispatchesNothing(s, x, ns[1..]); }
  }

  lemma ConcludeMoves(s: Engine, x: ExecId, n: NodeId)
    requires Faultless(s) && x in s.live.executions
    requires var e := s.live.executions[x];
      InProgress(e) && Ongoing(e) && (e.status == ExecutionRunning ==> Ready(e) == {})
    ensures Moves(s, Conclude(s, x, n), x)
  {
    hide Ongoing, ParentsDone;
    var e := s.live.executions[x];
    PersistSaves(Edit(s, x, e.(status := ExecutionSucceeded)));
  }

  /** Resumption reaches every ready node: a parentless one is a root, any other is a child of a
      done node. */
  lemma ResumeReaches(e: Execution, order: seq<NodeId>)
    requires Sound(e) && Ongoing(e) && forall n | n in e.states :: n in order
    ensures Ready(e) <= Members(e.workflow.roots) + Successors(e, order)
  {
    hide Acyclic, NamesBounded;
    forall m | m in Ready(e) ensures m in Members(e.workflow.roots) + Successors(e, order) {
      var parents := At(e.workflow.parents, m);
      if parents == [] {
        assert m in e.workflow.roots;
      } else {
        var p := parents[0];
        assert p in parents && Is(e, p, NodeDone);
        InSources(e.workflow.edges, p, m);
        InTargets(e.workflow.edges, p, m);
        assert m in Successors(e, order);
      }
    }
  }

  lemma MoreSuccessors(e: Execution, f: Execution, order: seq<NodeId>)
    requires f.workflow == e.workflow && forall n :: Is(e, n, NodeDone) ==> Is(f, n, NodeDone)
    ensures Successors(e, order) <= Successors(f, order)
  {
  }

  lemma Relabel(e: Execution, status: Status)
    ensures var f := e.(status := status);
      Ready(f) == Ready(e) && Ongoing(f) == Ongoing(e) && AllDone(f) == AllDone(e)
  {
    var f := e.(status := status);
    forall n ensures ParentsDone(f, n) == ParentsDone(e, n) && (Is(f, n, NodeRunning) <==> Is(e, n, NodeRunning)) {
      assert forall p :: Is(f, p, NodeDone) == Is(e, p, NodeDone);
    }
  }

  lemma ResumeMoves(s: Engine, x: ExecId, order: seq<NodeId>)
    requires AllMoving(s)
    requires x in s.live.executions ==> forall n | n in s.live.executions[x].states :: n in order
    ensures Moves(s, Resume(s, x, order), x)
  {
    hide AllMoving, Sound, ParentsDone, Ongoing, Successors, Members, Moves, Ready, AllDone;
    var t := s.(live := s.live.(paused := s.live.paused - {x}));
    UnchangedMoves(s, t, x, "", "");
    if x in s.live.executions && s.live.executions[x].status == ExecutionPaused {
      Known(s, x);
      var e := s.live.executions[x];
      var f := e.(status := ExecutionRunning);
      SoundAfter(e, f);
      Relabel(e, ExecutionRunning);
      ResumeReaches(f, order);
      var u := Edit(t, x, f);
      PersistSaves(u);
      var v := DispatchAll(Persist(u), x, e.workflow.roots);
      DispatchAllDispatches(Persist(u), x, e.workflow.roots);
      SuccessorsDispatched(v, x, order);
      MoreSuccessors(f, v.live.executions[x], order);
      DispatchedTransitive(Persist(u), v, DispatchSuccessors(v, x, order), x,
                           Members(e.workflow.roots), Successors(v.live.executions[x], order));
      Replaced(s, Resume(s, x, order), x);
    }
  }

  lemma StillMoves(e: Execution, f: Execution)
    requires Moving(e) && f.workflow == e.workflow && f.status != ExecutionInterrupted
    requires InProgress(f) ==> InProgress(e) && f.states == e.states
    requires InProgress(f) ==> forall n | n in f.active :: Is(e, n, NodeRunning)
    requires f.status == ExecutionRunning ==> e.status == ExecutionRunning
    ensures Moving(f)
  {
    if f.status == ExecutionRunning {
      forall n ensures ParentsDone(f, n) == ParentsDone(e, n) {
        assert forall p :: Is(f, p, NodeDone) == Is(e, p, NodeDone);
      }
      assert Ready(f) == Ready(e);
    }
  }

  lemma EditStillMoves(s: Engine, t: Engine, x: ExecId, f: Execution, y: ExecId, n: NodeId)
    requires AllMoving(s) && x in s.live.executions && t == Edit(s.(live := t.live), x, f)
    requires t.live.executions == s.live.executions[x := f]
    requires var e := s.live.executions[x];
      && f.workflow == e.workflow && f.status != ExecutionInterrupted
      && (InProgress(f) ==> InProgress(e) && f.states == e.states)
      && (InProgress(f) ==> forall n | n in f.active :: Is(e, n, NodeRunning))
      && (f.status == ExecutionRunning ==> e.status == ExecutionRunning)
    ensures Moves(s, Commit(t, y, n), x)
  {
    StillMoves(s.live.executions[x], f);
    hide Durable, Moving;
    EditMoves(s, t, x, f, y, n);
  }

  lemma UnchangedMoves(s: Engine, t: Engine, x: ExecId, y: ExecId, n: NodeId)
    requires AllMoving(s) && t == s.(live := t.live) && t.live.executions == s.live.executions
    ensures Moves(s, Commit(t, y, n), x) && Moves(s, t, x)
  {
    hide Durable, Moving;
    PersistSaves(t);
  }

  lemma StartAttemptMoves(s: Engine, x: ExecId, n: NodeId, attempt: string)
    requires AllMoving(s) && (x in s.live.executions ==> Is(s.live.executions[x], n, NodeRunning))
    ensures Moves(s, StartAttempt(s, x, n, attempt), x)
  {
    hide AllMoving, Moving, Moves, Ongoing;
    UnchangedMoves(s, s, x, "", "");
    if StartAttempt(s, x, n, attempt) != s {
      Known(s, x);
      var e := s.live.executions[x];
      var f := e.(active := e.active[n := attempt]);
      forall m | m in f.active ensures Is(e, m, NodeRunning) { ActiveRuns(e, m); }
      EditStillMoves(s, Edit(s, x, f), x, f, "", "");
    }
  }

  lemma FailWorkerMoves(s: Engine, x: ExecId, n: NodeId)
    requires AllMoving(s)
    ensures Moves(s, FailWorker(s, x, n), x)
  {
    hide AllMoving, Moving, Moves, Sweep;
    UnchangedMoves(s, s, x, "", "");
    if FailWorker(s, x, n) != s {
      var e := s.live.executions[x];
      var f := e.(status := ExecutionFailed, states := Sweep(e.states[n := NodeFailed], BlockPending),
                  active := e.active - {n});
      EditStillMoves(s, Edit(s, x, f), x, f, x, n);
    }
  }

  lemma KillMoves(s: Engine, x: ExecId)
    requires AllMoving(s)
    ensures Moves(s, Kill(s, x), x)
  {
    hide AllMoving, Moving, Moves, Sweep, Ongoing;
    var t := s.(live := s.live.(cancelled := s.live.cancelled + {x, "compile-" + x}));
    UnchangedMoves(s, t, x, x, "");
    if x in s.live.executions {
      Known(s, x);
      var e := s.live.executions[x];
      var f := e.(status := if InProgress(e) then ExecutionCancelled else e.status,
                  states := Sweep(e.states, BlockIdle));
      EditStillMoves(s, Edit(t, x, f), x, f, x, "");
    }
  }

  lemma PauseMoves(s: Engine, x: ExecId)
    requires AllMoving(s)
    ensures Moves(s, Pause(s, x), x)
  {
    hide AllMoving, Moving, Moves, Ongoing;
    var t := s.(live := s.live.(paused := s.live.paused + {x}));
    UnchangedMoves(s, t, x, x, "");
    if x in s.live.executions && s.live.executions[x].status == ExecutionRunning {
      Known(s, x);
      var e := s.live.executions[x];
      var f := e.(status := ExecutionPaused);
      forall m | m in f.active ensures Is(e, m, NodeRunning) { ActiveRuns(e, m); }
      EditStillMoves(s, Edit(t, x, f), x, f, x, "");
    }
  }

  lemma OverloadMoves(s: Engine)
    requires AllMoving(s)
    ensures AllMoving(Step(s, RuntimeOverloaded))
  {
    hide Durable, Moving;
    StepKeeps(s, RuntimeOverloaded);
    var t := Overload(s);
    var xs := s.live.executions;
    PersistSaves(s.(live := s.live.(
      executions := map y | y in xs ::
        if InProgress(xs[y]) then Failed(xs[y]) else xs[y],
      cancelled := s.live.cancelled + set y | y in xs && InProgress(xs[y]))));
    forall y | y in t.live.executions ensures Moving(t.live.executions[y]) {
      if InProgress(xs[y]) { StillMoves(xs[y], t.live.executions[y]); }
    }
  }

  lemma StepMoves(s: Engine, event: Event)
    requires AllMoving(s) && Orderly(s, event)
    ensures AllMoving(Step(s, event))
  {
    if event.RuntimeOverloaded? {
      OverloadMoves(s);
    } else {
      var x := event.x;
      HandlerMoves(s, event, x);
      hide AllMoving, Moves;
      Conclusion(s, event, x);
    }
  }

  lemma HandlerMoves(s: Engine, event: Event, x: ExecId)
    requires AllMoving(s) && s.alive && Orderly(s, event) && !event.RuntimeOverloaded? && event.x == x
    ensures Moves(s, Step(s, event), x)
  {
    hide AllMoving, Moves, Moving, Ongoing, Ready, Durable, WellFormed;
    UnchangedMoves(s, s, x, "", "");
    match event
    case SubmitWorkflow(_, wf, accepting) => SubmitMoves(s, x, wf, accepting);
    case GraphMutationRequested(_, n, attempt, target, back, admitted, authorized) =>
      if MayDelegate(s, x, n, attempt, back, admitted, authorized) {
        MutateMoves(s, x, n, attempt, target, back, admitted, authorized);
      }
    case WorkerCompleted(_, n, attempt) => CompleteMoves(s, x, n, attempt);
    case ExecutionResumed(_, order) => ResumeMoves(s, x, order);
    case ExecutionReconciled(_, action, order) => if x in s.live.executions { Known(s, x); }
    case AttemptStarted(_, n, attempt) => StartAttemptMoves(s, x, n, attempt);
    case AttemptFinished(_) =>
    case ArtifactStored(_, n) => UnchangedMoves(s, s, x, x, n);
    case WorkerFailed(_, n) => FailWorkerMoves(s, x, n);
    case ExecutionKilled(_) => KillMoves(s, x);
    case ExecutionPauseRequested(_) => PauseMoves(s, x);
  }

  // ---------- whole runs ----------

  ghost predicate OrderlyRun(s: Engine, events: seq<Event>) {
    forall i | 0 <= i < |events| :: Orderly(Run(s, events[..i]), events[i])
  }

  lemma {:induction false} RunMoves(s: Engine, events: seq<Event>)
    requires AllMoving(s) && OrderlyRun(s, events)
    ensures AllMoving(Run(s, events))
  {
    hide AllMoving;
    if events != [] {
      var front := events[..|events| - 1];
      forall i | 0 <= i < |front| ensures Orderly(Run(s, front[..i]), front[i]) {
        assert front[..i] == events[..i];
      }
      RunMoves(s, front);
      StepMoves(Run(s, front), events[|events| - 1]);
    }
  }

  lemma BootMoves(plan: seq<Outcome>, maxNodes: nat)
    requires Faultless(Boot(plan, maxNodes))
    ensures AllMoving(Boot(plan, maxNodes))
  {
  }

  lemma MovingProgresses(s: Engine, x: ExecId)
    requires AllMoving(s) && x in s.live.executions && s.live.executions[x].status == ExecutionRunning
    ensures var e := s.live.executions[x];
      (exists n :: Is(e, n, NodeRunning)) && forall n | Is(e, n, NodePending) :: !ParentsDone(e, n)
  {
    var e := s.live.executions[x];
    assert Sound(e) && Moving(e);
    hide AllMoving, Sound, Ongoing;
    SomeNodeRuns(e);
    forall n | Is(e, n, NodePending) ensures !ParentsDone(e, n) { assert n !in Ready(e); }
  }

  /** Deadlock freedom: without faults or restarts, a running execution always has a running
      node, and no pending node has all its parents done. */
  lemma RunningExecutionsProgress(plan: seq<Outcome>, maxNodes: nat, events: seq<Event>, x: ExecId)
    requires Faultless(Boot(plan, maxNodes)) && OrderlyRun(Boot(plan, maxNodes), events)
    ensures var s := Run(Boot(plan, maxNodes), events);
      s.alive && (x in s.live.executions && s.live.executions[x].status == ExecutionRunning ==>
        var e := s.live.executions[x];
        && (exists n :: Is(e, n, NodeRunning))
        && (forall n | Is(e, n, NodePending) :: !ParentsDone(e, n)))
  {
    hide Boot, Faultless, OrderlyRun, Run, Step, Is, ParentsDone;
    BootMoves(plan, maxNodes);
    RunMoves(Boot(plan, maxNodes), events);
    var s := Run(Boot(plan, maxNodes), events);
    MovingAlive(s);
    hide AllMoving;
    if x in s.live.executions && s.live.executions[x].status == ExecutionRunning { MovingProgresses(s, x); }
  }

  lemma MovingAlive(s: Engine)
    requires AllMoving(s)
    ensures s.alive
  {
  }
}
