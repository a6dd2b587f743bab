/** What every run of the engine keeps, whatever writes are refused and wherever the process
    dies: the graph of each execution stays sound as delegation grows it, and no node is
    announced as a task more often than its durable admissions allow. */
module EngineDurability {
  import opened Collections
  import opened Graph
  import opened Workflow
  import opened Names
  import opened Storage
  import opened EngineModel

  ghost predicate StaticName(n: NodeId) {
    forall a, k :: n != DynamicName(a, k)
  }

  ghost predicate DynamicUpTo(n: NodeId, bound: nat) {
    exists a, k: nat | k <= bound :: n == DynamicName(a, k)
  }

  /** A generated name carries a counter no larger than the number of nodes. */
  ghost predicate NamesBounded(wf: Definition) {
    forall n | n in wf.nodes :: StaticName(n) || DynamicUpTo(n, |wf.nodes|)
  }

  ghost predicate Sound(e: Execution) {
    && WellFormed(e.workflow)
    && NamesBounded(e.workflow)
    && |e.workflow.nodes| <= e.maxNodes
    && forall n | n in e.workflow.nodes :: n in e.states
  }

  /** How often `n` may have been announced: once for its admission, if it is a node of the
      graph, and once for every durable retry of its execution. */
  function Budget(e: Execution, n: NodeId, retries: nat): nat {
    retries + if n in e.workflow.nodes then 1 else 0
  }

  ghost predicate WithinBudget(e: Execution, x: ExecId, tasks: multiset<Task>, retries: nat) {
    forall n ::
      && tasks[Task(x, n)] <= Budget(e, n, retries)
      && (Is(e, n, NodePending) ==> tasks[Task(x, n)] < Budget(e, n, retries))
  }

  ghost predicate Accounted(snap: Snapshot, tasks: multiset<Task>, retries: multiset<ExecId>) {
    && (forall x | x in snap.executions ::
          Sound(snap.executions[x]) && WithinBudget(snap.executions[x], x, tasks, retries[x]))
    && (forall t | t in tasks :: t.exec in snap.executions)
  }

  ghost predicate Durable(s: Engine) {
    && Accounted(s.disk, s.tasks, s.retries)
    && (s.alive ==>
          Accounted(s.live, s.tasks, s.retries) && s.live.executions.Keys == s.disk.executions.Keys)
  }

  /** What the engine is told from outside: definitions come from the loader and their node
      names do not look generated. */
  ghost predicate Admissible(event: Event) {
    event.SubmitWorkflow? ==>
      WellFormed(event.wf) && forall n | n in event.wf.nodes :: StaticName(n)
  }

  // ---------- single executions ----------

  lemma SoundAfter(e: Execution, f: Execution)
    requires Sound(e) && f.workflow == e.workflow && f.maxNodes >= e.maxNodes
    requires e.states.Keys <= f.states.Keys
    ensures Sound(f)
  {
  }

  lemma FreshName(wf: Definition, agent: string, k: nat)
    requires NamesBounded(wf) && k > |wf.nodes|
    ensures DynamicName(agent, k) !in wf.nodes
  {
    var n := DynamicName(agent, k);
    if n in wf.nodes {
      assert !StaticName(n);
      var a, j: nat :| j <= |wf.nodes| && n == DynamicName(a, j);
      DynamicNamesDistinct(agent, k, a, j);
      assert false;
    }
  }

  lemma EdgesOfUnknown(wf: Definition, id: NodeId)
    requires Consistent(wf) && EndpointsKnown(wf) && id !in wf.nodes
    ensures At(wf.parents, id) == [] && At(wf.children, id) == []
  {
    if At(wf.parents, id) != [] { InSources(wf.edges, At(wf.parents, id)[0], id); }
    if At(wf.children, id) != [] { InTargets(wf.edges, id, At(wf.children, id)[0]); }
  }

  lemma AddNodeConsistent(e: Execution, from: NodeId, id: NodeId, worker: string)
    requires Consistent(e.workflow)
    ensures Consistent(AddNode(e, from, id, worker).workflow)
  {
    var wf := e.workflow;
    var more := wf.edges + [Edge(from, id)];
    assert more[..|wf.edges|] == wf.edges;
  }

  lemma GrownNames(wf: Definition, grown: Definition, agent: string)
    requires NamesBounded(wf) && |grown.nodes| == |wf.nodes| + 1
    requires grown.nodes.Keys == wf.nodes.Keys + {DynamicName(agent, |wf.nodes| + 1)}
    ensures NamesBounded(grown)
  {
    forall n | n in grown.nodes ensures StaticName(n) || DynamicUpTo(n, |grown.nodes|) {
      if n !in wf.nodes {
        assert n == DynamicName(agent, |grown.nodes|);
      } else if !StaticName(n) {
        var a, j: nat :| j <= |wf.nodes| && n == DynamicName(a, j);
      }
    }
  }

  lemma GrownRoots(e: Execution, from: NodeId, id: NodeId, agent: string)
    requires RootsExact(e.workflow) && id !in e.workflow.nodes
    ensures RootsExact(AddNode(e, from, id, agent).workflow)
  {
    var wf, grown := e.workflow, AddNode(e, from, id, agent).workflow;
    forall n ensures n in grown.roots <==> n in grown.nodes && At(grown.parents, n) == [] {
      if n != id { assert At(grown.parents, n) == At(wf.parents, n); }
    }
  }

  /** One step of growth: a generated name with the next counter is new, its node becomes a sink
      with one parent, and everything that makes a definition well formed survives. */
  lemma AddNodeKeepsSound(e: Execution, from: NodeId, agent: string)
    requires Sound(e) && from in e.workflow.nodes && |e.workflow.nodes| < e.maxNodes
    ensures var id := DynamicName(agent, |e.workflow.nodes| + 1);
      && id !in e.workflow.nodes && Sound(AddNode(e, from, id, agent))
      && |AddNode(e, from, id, agent).workflow.nodes| == |e.workflow.nodes| + 1
  {
    hide NamesBounded, Consistent, RootsExact, Acyclic, DynamicName;
    var wf := e.workflow;
    var id := DynamicName(agent, |wf.nodes| + 1);
    FreshName(wf, agent, |wf.nodes| + 1);
    EdgesOfUnknown(wf, id);
    var grown := AddNode(e, from, id, agent).workflow;
    assert grown.nodes.Keys == wf.nodes.Keys + {id};
    assert |grown.nodes| == |grown.nodes.Keys| == |wf.nodes| + 1;
    GrownNames(wf, grown, agent);
    GrownRoots(e, from, id, agent);
    AddNodeConsistent(e, from, id, agent);
    AddSinkKeepsAcyclic(wf.edges, from, id);
  }

  /** What growth leaves alone: the nodes already in the graph, their parents and states. */
  ghost predicate Grows(e: Execution, g: Execution) {
    && e.workflow.nodes.Keys <= g.workflow.nodes.Keys
    && g.status == e.status && g.active == e.active && g.maxNodes == e.maxNodes
    && (forall n | n in e.workflow.nodes :: At(g.workflow.parents, n) == At(e.workflow.parents, n))
    && (forall n | n in e.workflow.nodes && n in e.states :: Is(g, n, e.states[n]))
    && (forall n | n in g.states && n !in g.workflow.nodes :: Is(e, n, g.states[n]))
    && (forall n | n in g.workflow.nodes && n !in e.workflow.nodes ::
          Is(g, n, NodePending) && At(g.workflow.parents, n) != [])
  }

  lemma AddNodeGrows(e: Execution, from: NodeId, id: NodeId, worker: string)
    requires id !in e.workflow.nodes
    ensures Grows(e, AddNode(e, from, id, worker))
  {
  }

  lemma GrowsTransitive(e: Execution, f: Execution, g: Execution)
    requires Grows(e, f) && Grows(f, g)
    ensures Grows(e, g)
  {
  }

  /** An accepted delegation: the execution is sound again and within its node limit, and only
      new, pending, never-named nodes were added. */
  lemma DelegateKeepsSound(e: Execution, supervisor: NodeId, target: string, back: bool)
    requires Sound(e) && supervisor in e.workflow.nodes
    requires |e.workflow.nodes| + (if back then 2 else 1) <= e.maxNodes
    ensures var g := Delegate(e, supervisor, target, back);
      && Sound(g) && Grows(e, g)
      && |g.workflow.nodes| == |e.workflow.nodes| + (if back then 2 else 1)
  {
    hide Sound, Grows, DynamicName;
    var g := Delegate(e, supervisor, target, back);
    var agent := e.workflow.nodes[supervisor];
    AddNodeKeepsSound(e, supervisor, target);
    var id := DynamicName(target, |e.workflow.nodes| + 1);
    var first := AddNode(e, supervisor, id, target);
    AddNodeGrows(e, supervisor, id, target);
    if back {
      AddNodeKeepsSound(first, id, agent);
      var next := DynamicName(agent, |e.workflow.nodes| + 2);
      AddNodeGrows(first, id, next, agent);
      GrowsTransitive(e, first, AddNode(first, id, next, agent));
      Revised(e, AddNode(first, id, next, agent), e.revision + 1);
    } else {
      Revised(e, first, e.revision + 1);
    }
  }

  lemma Revised(e: Execution, g: Execution, revision: nat)
    requires Sound(g) && Grows(e, g)
    ensures Sound(g.(revision := revision)) && Grows(e, g.(revision := revision))
  {
    SoundAfter(g, g.(revision := revision));
  }

  // ---------- the shared write and dispatch steps ----------

  lemma InterruptKeeps(e: Execution, target: bool, n: NodeId, x: ExecId, tasks: multiset<Task>, retries: nat)
    requires Sound(e) && WithinBudget(e, x, tasks, retries)
    ensures Sound(Interrupt(e, target, n)) && WithinBudget(Interrupt(e, target, n), x, tasks, retries)
  {
    SoundAfter(e, Interrupt(e, target, n));
  }

  lemma ReportKeeps(s: Engine, x: ExecId, n: NodeId)
    requires Durable(s)
    ensures Durable(ReportFailure(s, x, n))
  {
    hide Sound, WithinBudget;
    var r := ReportFailure(s, x, n);
    forall y | y in r.live.executions && s.alive
      ensures Sound(r.live.executions[y])
      ensures WithinBudget(r.live.executions[y], y, s.tasks, s.retries[y])
    {
      InterruptKeeps(s.live.executions[y], y == x, n, y, s.tasks, s.retries[y]);
    }
  }

  lemma CommitKeeps(s: Engine, x: ExecId, n: NodeId)
    requires s.alive && Durable(s)
    ensures Durable(Commit(s, x, n))
  {
    hide Sound, WithinBudget;
    assert Durable(Persist(s));
    ReportKeeps(Persist(s), x, n);
  }

  /** Replacing one execution by another that is sound and within budget. */
  lemma EditKeeps(s: Engine, x: ExecId, e: Execution)
    requires s.alive && Durable(s) && x in s.live.executions
    requires Sound(e) && WithinBudget(e, x, s.tasks, s.retries[x])
    ensures Durable(Edit(s, x, e))
  {
    hide Sound, WithinBudget;
  }

  lemma DispatchNodeKeeps(s: Engine, x: ExecId, n: NodeId)
    requires s.alive && Durable(s) && x in s.live.executions
    requires s.tasks[Task(x, n)] < Budget(s.live.executions[x], n, s.retries[x])
    ensures Durable(DispatchNode(s, x, n))
  {
    hide Sound, WithinBudget;
    var e := s.live.executions[x];
    var running := SetNode(e, n, NodeRunning);
    RunningKeeps(e, n, x, s.tasks, s.retries[x]);
    EditKeeps(s, x, running);
    var t := Edit(s, x, running);
    CommitKeeps(t, x, n);
    if Next(t).Saved? {
      var tasks := s.tasks + multiset{Task(x, n)};
      forall y | y in t.live.executions ensures WithinBudget(t.live.executions[y], y, tasks, s.retries[y]) {
        if y != x { OtherTasks(t.live.executions[y], y, s.tasks, Task(x, n), s.retries[y]); }
      }
    }
  }

  lemma RunningKeeps(e: Execution, n: NodeId, x: ExecId, tasks: multiset<Task>, retries: nat)
    requires Sound(e) && WithinBudget(e, x, tasks, retries) && tasks[Task(x, n)] < Budget(e, n, retries)
    ensures Sound(SetNode(e, n, NodeRunning))
    ensures WithinBudget(SetNode(e, n, NodeRunning), x, tasks, retries)
    ensures WithinBudget(SetNode(e, n, NodeRunning), x, tasks + multiset{Task(x, n)}, retries)
  {
    SoundAfter(e, SetNode(e, n, NodeRunning));
  }

  lemma OtherTasks(e: Execution, x: ExecId, tasks: multiset<Task>, t: Task, retries: nat)
    requires WithinBudget(e, x, tasks, retries) && t.exec != x
    ensures WithinBudget(e, x, tasks + multiset{t}, retries)
  {
  }

  lemma PendingAffordable(s: Engine, x: ExecId, n: NodeId)
    requires s.alive && Durable(s) && x in s.live.executions && Is(s.live.executions[x], n, NodePending)
    ensures s.tasks[Task(x, n)] < Budget(s.live.executions[x], n, s.retries[x])
  {
  }

  lemma {:induction false} DispatchAllKeeps(s: Engine, x: ExecId, ns: seq<NodeId>)
    requires Durable(s) && x in s.live.executions
    ensures Durable(DispatchAll(s, x, ns))
    decreases |ns|
  {
    hide Durable;
    if ns != [] {
      if Dispatchable(s, x, ns[0]) {
        PendingAffordable(s, x, ns[0]);
        DispatchNodeKeeps(s, x, ns[0]);
      }
      DispatchAllKeeps(CheckAndDispatch(s, x, ns[0]), x, ns[1..]);
    }
  }

  lemma {:induction false} DispatchSuccessorsKeeps(s: Engine, x: ExecId, order: seq<NodeId>)
    requires Durable(s) && x in s.live.executions
    ensures Durable(DispatchSuccessors(s, x, order))
    decreases |order|
  {
    hide Durable;
    if order != [] {
      var e := s.live.executions[x];
      DispatchAllKeeps(s, x, At(e.workflow.children, order[0]));
      var t := if Is(e, order[0], NodeDone) then DispatchAll(s, x, At(e.workflow.children, order[0])) else s;
      DispatchSuccessorsKeeps(t, x, order[1..]);
    }
  }

  lemma DispatchNodeFrame(s: Engine, x: ExecId, n: NodeId)
    requires x in s.live.executions
    ensures DispatchNode(s, x, n).live.executions[x].workflow == s.live.executions[x].workflow
    ensures forall t | t in DispatchNode(s, x, n).tasks :: t in s.tasks || t == Task(x, n)
  {
  }

  lemma {:induction false} DispatchRootsKeeps(s: Engine, x: ExecId, roots: seq<NodeId>)
    requires Durable(s) && x in s.live.executions && Distinct(roots)
    requires forall r | r in roots :: r in s.live.executions[x].workflow.nodes && Task(x, r) !in s.tasks
    ensures Durable(DispatchRoots(s, x, roots))
    decreases |roots|
  {
    hide Durable;
    if roots != [] && s.alive {
      assert roots[0] in roots;
      DispatchNodeKeeps(s, x, roots[0]);
      DispatchNodeFrame(s, x, roots[0]);
      DispatchRootsKeeps(DispatchNode(s, x, roots[0]), x, roots[1..]);
    }
  }

  // ---------- the handlers ----------

  /** Any change of an execution that keeps its graph and makes nothing pending. */
  lemma SettledKeeps(e: Execution, f: Execution, x: ExecId, tasks: multiset<Task>, retries: nat)
    requires Sound(e) && WithinBudget(e, x, tasks, retries)
    requires f.workflow == e.workflow && f.maxNodes >= e.maxNodes && e.states.Keys <= f.states.Keys
    requires forall n :: Is(f, n, NodePending) ==> Is(e, n, NodePending)
    ensures Sound(f) && WithinBudget(f, x, tasks, retries)
  {
    SoundAfter(e, f);
  }

  lemma SettleKeeps(s: Engine, x: ExecId, f: Execution)
    requires s.alive && Durable(s) && x in s.live.executions
    requires var e := s.live.executions[x];
      && f.workflow == e.workflow && f.maxNodes >= e.maxNodes && e.states.Keys <= f.states.Keys
      && forall n :: Is(f, n, NodePending) ==> Is(e, n, NodePending)
    ensures Durable(Edit(s, x, f))
  {
    hide Sound, WithinBudget;
    SettledKeeps(s.live.executions[x], f, x, s.tasks, s.retries[x]);
    EditKeeps(s, x, f);
  }

  lemma PersistKeeps(s: Engine)
    requires s.alive && Durable(s)
    ensures Durable(Persist(s))
  {
    hide Sound, WithinBudget;
  }

  lemma AdmitKeeps(s: Engine, x: ExecId, e: Execution)
    requires s.alive && Durable(s) && x !in s.live.executions
    requires Sound(e) && WithinBudget(e, x, s.tasks, s.retries[x])
    ensures !Next(Edit(s, x, e)).Refused? ==> Durable(Persist(Edit(s, x, e)))
    ensures Next(Edit(s, x, e)).Refused? ==> Durable(Persist(Edit(s, x, e)).(live := s.live))
  {
    hide Sound, WithinBudget;
  }

  lemma SubmitKeeps(s: Engine, x: ExecId, wf: Definition, accepting: bool)
    requires s.alive && Durable(s) && WellFormed(wf) && forall n | n in wf.nodes :: StaticName(n)
    ensures Durable(Submit(s, x, wf, accepting))
  {
    hide Sound, WithinBudget, WellFormed, StaticName;
    if x !in s.live.executions && |wf.nodes| <= s.maxNodes {
      assert forall t | t in s.tasks :: t.exec != x;
      var status := if x in s.live.paused then ExecutionPaused else ExecutionRunning;
      var e := NewExecution(wf, status, s.maxNodes);
      NewIsGood(wf, status, s.maxNodes, x, s.tasks, s.retries[x]);
      AdmitKeeps(s, x, e);
      hide Durable;
      if Next(Edit(s, x, e)).Saved? {
        RootsKnown(wf);
        DispatchRootsKeeps(Persist(Edit(s, x, e)), x, wf.roots);
      }
    }
  }

  lemma NewIsGood(wf: Definition, status: Status, maxNodes: nat, x: ExecId, tasks: multiset<Task>, retries: nat)
    requires WellFormed(wf) && (forall n | n in wf.nodes :: StaticName(n)) && |wf.nodes| <= maxNodes
    requires forall t | t in tasks :: t.exec != x
    ensures Sound(NewExecution(wf, status, maxNodes))
    ensures WithinBudget(NewExecution(wf, status, maxNodes), x, tasks, retries)
  {
    forall n ensures Task(x, n) !in tasks {}
  }

  lemma RootsKnown(wf: Definition)
    requires WellFormed(wf)
    ensures Distinct(wf.roots) && forall r | r in wf.roots :: r in wf.nodes
  {
  }

  lemma MutateKeeps(s: Engine, x: ExecId, n: NodeId, attempt: string, target: string, back: bool,
                    admitted: bool, authorized: bool)
    requires s.alive && Durable(s)
    ensures Durable(Mutate(s, x, n, attempt, target, back, admitted, authorized))
  {
    hide Sound, WithinBudget;
    if MayDelegate(s, x, n, attempt, back, admitted, authorized) {
      var e := s.live.executions[x];
      var g := Delegate(e, n, target, back);
      DelegateKeepsSound(e, n, target, back);
      GrowsWithinBudget(e, g, x, s.tasks, s.retries[x]);
      EditKeeps(s, x, g);
      var t := Edit(s, x, g);
      PersistKeeps(t);
      if Next(t).Refused? {
        EditKeeps(Persist(t), x, e);
        ReportKeeps(Edit(Persist(t), x, e), x, n);
      }
    }
  }

  lemma GrowsWithinBudget(e: Execution, g: Execution, x: ExecId, tasks: multiset<Task>, retries: nat)
    requires Sound(e) && WithinBudget(e, x, tasks, retries) && Grows(e, g)
    ensures WithinBudget(g, x, tasks, retries)
  {
    forall n ensures tasks[Task(x, n)] <= Budget(e, n, retries) <= Budget(g, n, retries) {}
  }

  lemma CompleteKeeps(s: Engine, x: ExecId, n: NodeId, attempt: string)
    requires s.alive && Durable(s)
    ensures Durable(Complete(s, x, n, attempt))
  {
    hide Durable;
    if Complete(s, x, n, attempt) != s {
      var e := s.live.executions[x];
      var done := SetNode(e, n, NodeDone).(active := e.active - {n});
      SettleKeeps(s, x, done);
      var t := Edit(s, x, done);
      PersistKeeps(t);
      match Next(t)
      case Saved =>
        DispatchAllKeeps(Persist(t), x, At(e.workflow.children, n));
        ConcludeKeeps(DispatchAll(Persist(t), x, At(e.workflow.children, n)), x, n);
      case Refused =>
        var kept := if ActiveOf(e, n) != "" then done.(active := e.active) else done;
        SettleKeeps(Persist(t), x, kept);
        ReportKeeps(Edit(Persist(t), x, kept), x, n);
      case Crashed(_) =>
    }
  }

  lemma ConcludeKeeps(s: Engine, x: ExecId, n: NodeId)
    requires Durable(s) && x in s.live.executions
    ensures Durable(Conclude(s, x, n))
  {
    hide Durable;
    var e := s.live.executions[x];
    if s.alive && AllDone(e) {
      SettleKeeps(s, x, e.(status := ExecutionSucceeded));
      CommitKeeps(Edit(s, x, e.(status := ExecutionSucceeded)), x, n);
    }
  }

  lemma ResumeKeeps(s: Engine, x: ExecId, order: seq<NodeId>)
    requires s.alive && Durable(s)
    ensures Durable(Resume(s, x, order))
  {
    var t := s.(live := s.live.(paused := s.live.paused - {x}));
    assert Durable(t);
    hide Durable;
    if x in s.live.executions && s.live.executions[x].status == ExecutionPaused {
      var e := s.live.executions[x];
      SettleKeeps(t, x, e.(status := ExecutionRunning));
      var u := Edit(t, x, e.(status := ExecutionRunning));
      PersistKeeps(u);
      match Next(u)
      case Saved =>
        DispatchAllKeeps(Persist(u), x, e.workflow.roots);
        DispatchSuccessorsKeeps(DispatchAll(Persist(u), x, e.workflow.roots), x, order);
      case Refused =>
        SettleKeeps(Persist(u), x, e);
        ReportKeeps(Edit(Persist(u), x, e), x, "");
      case Crashed(_) =>
    }
  }

  lemma ReconcileKeeps(s: Engine, x: ExecId, action: Action, order: seq<NodeId>)
    requires s.alive && Durable(s)
    ensures Durable(Reconcile(s, x, action, order))
  {
    if x in s.live.executions && s.live.executions[x].status == ExecutionInterrupted {
      var e := s.live.executions[x];
      if action == RetryAction {
        RetryKeeps(s, x, order);
      } else {
        hide Durable;
        var f := e.(status := if action == CancelAction then ExecutionCancelled else ExecutionFailed,
                    states := Sweep(e.states, BlockIdle));
        SettleKeeps(s, x, f);
        CommitKeeps(Edit(s, x, f), x, "");
      }
    }
  }

  /** A durable retry raises every budget of its execution by one, which pays for the nodes it
      makes pending again. */
  lemma RetryKeeps(s: Engine, x: ExecId, order: seq<NodeId>)
    requires s.alive && Durable(s)
    requires x in s.live.executions && s.live.executions[x].status == ExecutionInterrupted
    ensures Durable(Reconcile(s, x, RetryAction, order))
  {
    hide Sound, WithinBudget;
    var e := s.live.executions[x];
    var t := Edit(s, x, Requeue(e));
    var more := s.retries + multiset{x};
    SoundRequeue(e, x, s.tasks, s.retries[x]);
    forall y | y in s.live.executions ensures WithinBudget(s.live.executions[y], y, s.tasks, more[y]) {
      MoreRetries(s.live.executions[y], y, s.tasks, s.retries[y], more[y]);
    }
    forall y | y in s.disk.executions ensures WithinBudget(s.disk.executions[y], y, s.tasks, more[y]) {
      MoreRetries(s.disk.executions[y], y, s.tasks, s.retries[y], more[y]);
    }
    match Next(t)
    case Saved =>
      assert Durable(Persist(t).(retries := more));
      DispatchAllKeeps(Persist(t).(retries := more), x, order);
    case Refused =>
      assert Edit(Persist(t), x, e).live.executions == s.live.executions;
      ReportKeeps(Edit(Persist(t), x, e), x, "");
    case Crashed(_) =>
  }

  lemma SoundRequeue(e: Execution, x: ExecId, tasks: multiset<Task>, retries: nat)
    requires Sound(e) && WithinBudget(e, x, tasks, retries)
    ensures Sound(Requeue(e)) && WithinBudget(Requeue(e), x, tasks, retries + 1)
  {
    SoundAfter(e, Requeue(e));
    forall n ensures tasks[Task(x, n)] < Budget(Requeue(e), n, retries + 1) {
      assert tasks[Task(x, n)] <= Budget(e, n, retries);
    }
  }

  lemma MoreRetries(e: Execution, x: ExecId, tasks: multiset<Task>, few: nat, many: nat)
    requires WithinBudget(e, x, tasks, few) && few <= many
    ensures WithinBudget(e, x, tasks, many)
  {
    forall n ensures Budget(e, n, few) <= Budget(e, n, many) {}
  }

  lemma OverloadKeeps(s: Engine)
    requires s.alive && Durable(s)
    ensures Durable(Overload(s))
  {
    hide Sound, WithinBudget;
    var xs := s.live.executions;
    var t := s.(live := s.live.(
      executions := map y | y in xs ::
        if InProgress(xs[y]) then Failed(xs[y]) else xs[y],
      cancelled := s.live.cancelled + set y | y in xs && InProgress(xs[y])));
    forall y | y in xs ensures Sound(t.live.executions[y])
                       ensures WithinBudget(t.live.executions[y], y, s.tasks, s.retries[y]) {
      SettledKeeps(xs[y], t.live.executions[y], y, s.tasks, s.retries[y]);
    }
    CommitKeeps(t, "", "");
  }

  lemma RecoverKeeps(s: Engine)
    requires Durable(s)
    ensures Durable(Recover(s))
  {
    hide Sound, WithinBudget;
    var xs := s.disk.executions;
    var t := s.(alive := true, live := s.disk.(executions := RecoverAll(xs, s.maxNodes)));
    forall y | y in xs ensures Sound(t.live.executions[y])
                       ensures WithinBudget(t.live.executions[y], y, s.tasks, s.retries[y]) {
      SettledKeeps(xs[y], RecoverExecution(xs[y], s.maxNodes), y, s.tasks, s.retries[y]);
    }
    PersistKeeps(t);
  }

  lemma StartAttemptKeeps(s: Engine, x: ExecId, n: NodeId, attempt: string)
    requires s.alive && Durable(s)
    ensures Durable(StartAttempt(s, x, n, attempt))
  {
    hide Durable;
    if StartAttempt(s, x, n, attempt) != s {
      var e := s.live.executions[x];
      SettleKeeps(s, x, e.(active := e.active[n := attempt]));
      CommitKeeps(Edit(s, x, e.(active := e.active[n := attempt])), "", "");
    }
  }

  lemma FailWorkerKeeps(s: Engine, x: ExecId, n: NodeId)
    requires s.alive && Durable(s)
    ensures Durable(FailWorker(s, x, n))
  {
    hide Durable;
    if FailWorker(s, x, n) != s {
      var e := s.live.executions[x];
      var f := e.(status := ExecutionFailed, states := Sweep(e.states[n := NodeFailed], BlockPending),
                  active := e.active - {n});
      SettleKeeps(s, x, f);
      CommitKeeps(Edit(s, x, f), x, n);
    }
  }

  lemma KillKeeps(s: Engine, x: ExecId)
    requires s.alive && Durable(s)
    ensures Durable(Kill(s, x))
  {
    var t := s.(live := s.live.(cancelled := s.live.cancelled + {x, "compile-" + x}));
    assert Durable(t);
    hide Durable;
    if x in s.live.executions {
      var e := s.live.executions[x];
      var f := e.(status := if InProgress(e) then ExecutionCancelled else e.status,
                  states := Sweep(e.states, BlockIdle));
      SettleKeeps(t, x, f);
      CommitKeeps(Edit(t, x, f), x, "");
    } else {
      CommitKeeps(t, x, "");
    }
  }

  lemma PauseKeeps(s: Engine, x: ExecId)
    requires s.alive && Durable(s)
    ensures Durable(Pause(s, x))
  {
    var t := s.(live := s.live.(paused := s.live.paused + {x}));
    assert Durable(t);
    hide Durable, Commit;
    CommitKeeps(t, x, "");
    if x in s.live.executions {
      var f := s.live.executions[x].(status := ExecutionPaused);
      SettleKeeps(t, x, f);
      CommitKeeps(Edit(t, x, f), x, "");
    }
  }

  lemma StepKeeps(s: Engine, event: Event)
    requires Durable(s) && Admissible(event)
    ensures Durable(Step(s, event))
  {
    hide Durable;
    if event.Restart? {
      RecoverKeeps(s);
    } else if s.alive {
      match event
      case SubmitWorkflow(x, wf, accepting) => SubmitKeeps(s, x, wf, accepting);
      case GraphMutationRequested(x, n, attempt, target, back, admitted, authorized) =>
        MutateKeeps(s, x, n, attempt, target, back, admitted, authorized);
      case WorkerCompleted(x, n, attempt) => CompleteKeeps(s, x, n, attempt);
      case ExecutionResumed(x, order) => ResumeKeeps(s, x, order);
      case ExecutionReconciled(x, action, order) => ReconcileKeeps(s, x, action, order);
      case RuntimeOverloaded => OverloadKeeps(s);
      case AttemptStarted(x, n, attempt) => StartAttemptKeeps(s, x, n, attempt);
      case AttemptFinished(x) => CommitKeeps(s, "", "");
      case ArtifactStored(x, n) => CommitKeeps(s, x, n);
      case WorkerFailed(x, n) => FailWorkerKeeps(s, x, n);
      case ExecutionKilled(x) => KillKeeps(s, x);
      case ExecutionPauseRequested(x) => PauseKeeps(s, x);
    }
  }

  // ---------- whole runs ----------

  lemma {:induction false} RunKeeps(s: Engine, events: seq<Event>)
    requires Durable(s) && forall e | e in events :: Admissible(e)
    ensures Durable(Run(s, events))
  {
    if events != [] {
      RunKeeps(s, events[..|events| - 1]);
      StepKeeps(Run(s, events[..|events| - 1]), events[|events| - 1]);
    }
  }

  /** Graph soundness over every run: however often writes are refused and the process dies,
      each execution, in memory and on disk, has one acyclic edge relation that Parents and
      Children describe exactly, roots that are exactly the parentless nodes, and at most
      MaxNodes nodes. */
  lemma GraphsStaySound(plan: seq<Outcome>, maxNodes: nat, events: seq<Event>, x: ExecId)
    requires forall e | e in events :: Admissible(e)
    ensures var s := Run(Boot(plan, maxNodes), events);
      && (x in s.disk.executions ==> Sound(s.disk.executions[x]))
      && (s.alive && x in s.live.executions ==> Sound(s.live.executions[x]))
  {
    RunKeeps(Boot(plan, maxNodes), events);
  }

  /** Write-ahead dispatch over every run: a node is announced as a task at most once, plus once
      for each "retry" of its execution that reached the disk. */
  lemma TasksWithinDurableAdmissions(plan: seq<Outcome>, maxNodes: nat, events: seq<Event>, x: ExecId, n: NodeId)
    requires forall e | e in events :: Admissible(e)
    ensures var s := Run(Boot(plan, maxNodes), events);
      s.tasks[Task(x, n)] <= 1 + s.retries[x]
  {
    RunKeeps(Boot(plan, maxNodes), events);
    var s := Run(Boot(plan, maxNodes), events);
    if Task(x, n) in s.tasks {
      assert x in s.disk.executions;
      assert s.tasks[Task(x, n)] <= Budget(s.disk.executions[x], n, s.retries[x]);
    }
  }
}
