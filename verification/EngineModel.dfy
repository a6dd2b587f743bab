/** The workflow engine (runtime/agent/workflow_engine.go) as a state machine. The state holds
    the live maps, the durable snapshot and a `plan`: the outcomes, in order, of the snapshot
    writes still to come. A write may succeed, may be refused, or may be the point at which the
    process dies, with the new snapshot on disk or not. Every handler is a function of the state,
    so a property of all plans and all event sequences is a property of all runs. */
module EngineModel {
  import opened Graph
  import opened Workflow
  import opened Names
  import opened Storage

  type ExecId = string

  datatype NodeState =
    NodePending | NodeRunning | NodeDone | NodeFailed | NodeBlocked | NodeInterrupted

  datatype Status =
    | ExecutionSucceeded | ExecutionFailed | ExecutionRunning
    | ExecutionPaused | ExecutionCancelled | ExecutionInterrupted

  datatype Execution = Execution(
    workflow: Definition,
    status: Status,
    states: map<NodeId, NodeState>,
    active: map<NodeId, string>,
    maxNodes: nat,
    revision: nat)

  datatype Snapshot = Snapshot(executions: map<ExecId, Execution>, cancelled: set<ExecId>, paused: set<ExecId>)

  datatype Task = Task(exec: ExecId, node: NodeId)

  /** `tasks` counts the TaskCreated events published so far and `retries` the "retry"
      reconciliations that reached the disk; both only record history. */
  datatype Engine = Engine(
    live: Snapshot,
    disk: Snapshot,
    alive: bool,
    plan: seq<Outcome>,
    tasks: multiset<Task>,
    retries: multiset<ExecId>,
    maxNodes: nat)

  datatype Action = RetryAction | FailAction | CancelAction

  /** `admitted` and `authorized` stand for the worker and delegation validators; `order` is the
      order in which a handler's range over the node states happens to visit the nodes. */
  datatype Event =
    | SubmitWorkflow(x: ExecId, wf: Definition, accepting: bool)
    | AttemptStarted(x: ExecId, n: NodeId, attempt: string)
    | AttemptFinished(x: ExecId)
    | GraphMutationRequested(x: ExecId, n: NodeId, attempt: string, target: string, back: bool,
                             admitted: bool, authorized: bool)
    | ArtifactStored(x: ExecId, n: NodeId)
    | WorkerCompleted(x: ExecId, n: NodeId, attempt: string)
    | WorkerFailed(x: ExecId, n: NodeId)
    | ExecutionKilled(x: ExecId)
    | ExecutionPauseRequested(x: ExecId)
    | ExecutionResumed(x: ExecId, order: seq<NodeId>)
    | ExecutionReconciled(x: ExecId, action: Action, order: seq<NodeId>)
    | RuntimeOverloaded
    | Restart

  // ---------- reading an execution ----------

  predicate Is(e: Execution, n: NodeId, st: NodeState) {
    n in e.states && e.states[n] == st
  }

  predicate ParentsDone(e: Execution, n: NodeId) {
    forall p | p in At(e.workflow.parents, n) :: Is(e, p, NodeDone)
  }

  predicate InProgress(e: Execution) {
    e.status == ExecutionRunning || e.status == ExecutionPaused
  }

  function ActiveOf(e: Execution, n: NodeId): string {
    if n in e.active then e.active[n] else ""
  }

  predicate AllDone(e: Execution) {
    forall n | n in e.states :: e.states[n] == NodeDone
  }

  // ---------- pure updates of one execution ----------

  function SetNode(e: Execution, n: NodeId, st: NodeState): Execution {
    e.(states := e.states[n := st])
  }

  function Sweep(states: map<NodeId, NodeState>, f: NodeState -> NodeState): map<NodeId, NodeState> {
    map n | n in states :: f(states[n])
  }

  function BlockIdle(st: NodeState): NodeState {
    if st == NodePending || st == NodeInterrupted then NodeBlocked else st
  }

  function BlockPending(st: NodeState): NodeState {
    if st == NodePending then NodeBlocked else st
  }

  function FailUnfinished(st: NodeState): NodeState {
    if st != NodeDone then NodeFailed else st
  }

  function InterruptRunning(st: NodeState): NodeState {
    if st == NodeRunning then NodeInterrupted else st
  }

  function RequeueInterrupted(st: NodeState): NodeState {
    if st == NodeInterrupted then NodePending else st
  }

  function AddNode(e: Execution, from: NodeId, id: NodeId, worker: string): Execution {
    var wf := e.workflow;
    e.(workflow := wf.(
         nodes := wf.nodes[id := worker],
         edges := wf.edges + [Edge(from, id)],
         children := wf.children[from := At(wf.children, from) + [id]],
         parents := wf.parents[id := At(wf.parents, id) + [from]]),
       states := e.states[id := NodePending])
  }

  function Delegate(e: Execution, supervisor: NodeId, target: string, back: bool): Execution
    requires supervisor in e.workflow.nodes
  {
    var k := |e.workflow.nodes| + 1;
    var worker := DynamicName(target, k);
    var agent := e.workflow.nodes[supervisor];
    var grown := AddNode(e, supervisor, worker, target);
    (if back then AddNode(grown, worker, DynamicName(agent, k + 1), agent) else grown)
      .(revision := e.revision + 1)
  }

  function NewExecution(wf: Definition, status: Status, maxNodes: nat): Execution {
    Execution(wf, status, map n | n in wf.nodes :: NodePending, map[], maxNodes, 0)
  }

  // ---------- persistence ----------

  function Edit(s: Engine, x: ExecId, e: Execution): Engine {
    s.(live := s.live.(executions := s.live.executions[x := e]))
  }

  function Next(s: Engine): Outcome {
    if s.plan == [] then Saved else s.plan[0]
  }

  function Persist(s: Engine): Engine {
    var rest := s.(plan := if s.plan == [] then [] else s.plan[1..]);
    match Next(s)
    case Saved => rest.(disk := s.live)
    case Refused => rest
    case Crashed(wrote) => rest.(alive := false, disk := if wrote then s.live else s.disk)
  }

  function Interrupt(e: Execution, target: bool, n: NodeId): Execution {
    if !InProgress(e) && !target then e
    else
      e.(status := ExecutionInterrupted,
         states := map m | m in e.states ::
           if target && m == n then NodeInterrupted else InterruptRunning(e.states[m]))
  }

  /** The boundary after a refused write: every active execution, and `x` whatever its status,
      is interrupted. */
  function ReportFailure(s: Engine, x: ExecId, n: NodeId): Engine {
    var xs := s.live.executions;
    s.(live := s.live.(
      executions := map y | y in xs :: Interrupt(xs[y], y == x, n),
      cancelled := s.live.cancelled + set y | y in xs && (InProgress(xs[y]) || y == x)))
  }

  /** Persist, and report if the write is refused. */
  function Commit(s: Engine, x: ExecId, n: NodeId): Engine {
    if Next(s).Refused? then ReportFailure(Persist(s), x, n) else Persist(s)
  }

  // ---------- dispatch ----------

  function DispatchNode(s: Engine, x: ExecId, n: NodeId): Engine
    requires x in s.live.executions
  {
    var admitted := Edit(s, x, SetNode(s.live.executions[x], n, NodeRunning));
    var p := Commit(admitted, x, n);
    if Next(admitted).Saved? then p.(tasks := p.tasks + multiset{Task(x, n)}) else p
  }

  predicate Dispatchable(s: Engine, x: ExecId, n: NodeId)
    requires x in s.live.executions
  {
    var e := s.live.executions[x];
    s.alive && e.status == ExecutionRunning && Is(e, n, NodePending) && ParentsDone(e, n)
  }

  function CheckAndDispatch(s: Engine, x: ExecId, n: NodeId): Engine
    requires x in s.live.executions
  {
    if Dispatchable(s, x, n) then DispatchNode(s, x, n) else s
  }

  function DispatchAll(s: Engine, x: ExecId, ns: seq<NodeId>): (r: Engine)
    requires x in s.live.executions
    ensures x in r.live.executions
    decreases |ns|
  {
    if ns == [] then s else DispatchAll(CheckAndDispatch(s, x, ns[0]), x, ns[1..])
  }

  /** Submission dispatches its roots unconditionally, one after the other. */
  function DispatchRoots(s: Engine, x: ExecId, roots: seq<NodeId>): (r: Engine)
    requires x in s.live.executions
    ensures x in r.live.executions
    decreases |roots|
  {
    if roots == [] || !s.alive then s
    else DispatchRoots(DispatchNode(s, x, roots[0]), x, roots[1..])
  }

  /** Resumption visits the nodes in some order and dispatches the children of done ones. */
  function DispatchSuccessors(s: Engine, x: ExecId, order: seq<NodeId>): (r: Engine)
    requires x in s.live.executions
    ensures x in r.live.executions
    decreases |order|
  {
    if order == [] then s
    else
      var e := s.live.executions[x];
      var t := if Is(e, order[0], NodeDone) then DispatchAll(s, x, At(e.workflow.children, order[0])) else s;
      DispatchSuccessors(t, x, order[1..])
  }

  // ---------- handlers ----------

  function Submit(s: Engine, x: ExecId, wf: Definition, accepting: bool): Engine {
    if !accepting || x in s.live.cancelled || x == "" || |wf.nodes| == 0 || |wf.nodes| > s.maxNodes
       || x in s.live.executions
    then s
    else
      var status := if x in s.live.paused then ExecutionPaused else ExecutionRunning;
      var admitted := Edit(s, x, NewExecution(wf, status, s.maxNodes));
      match Next(admitted)
      case Saved => DispatchRoots(Persist(admitted), x, wf.roots)
      case Refused => Persist(admitted).(live := s.live)
      case Crashed(_) => Persist(admitted)
  }

  function StartAttempt(s: Engine, x: ExecId, n: NodeId, attempt: string): Engine {
    if x !in s.live.executions || attempt == "" || s.live.executions[x].status != ExecutionRunning then s
    else
      var e := s.live.executions[x];
      Commit(Edit(s, x, e.(active := e.active[n := attempt])), "", "")
  }

  function FinishAttempt(s: Engine, x: ExecId): Engine {
    if x !in s.live.executions then s else Commit(s, "", "")
  }

  predicate MayDelegate(s: Engine, x: ExecId, n: NodeId, attempt: string, back: bool,
                        admitted: bool, authorized: bool)
  {
    x in s.live.executions && admitted && authorized &&
    var e := s.live.executions[x];
    e.status == ExecutionRunning && attempt != "" && ActiveOf(e, n) == attempt &&
    |e.workflow.nodes| + (if back then 2 else 1) <= e.maxNodes && n in e.workflow.nodes
  }

  function Mutate(s: Engine, x: ExecId, n: NodeId, attempt: string, target: string, back: bool,
                  admitted: bool, authorized: bool): Engine
  {
    if !MayDelegate(s, x, n, attempt, back, admitted, authorized) then s
    else
      var e := s.live.executions[x];
      var grown := Edit(s, x, Delegate(e, n, target, back));
      if Next(grown).Refused? then ReportFailure(Edit(Persist(grown), x, e), x, n) else Persist(grown)
  }

  function StoreArtifact(s: Engine, x: ExecId, n: NodeId): Engine {
    if x == "" || n == "" || x !in s.live.executions || !InProgress(s.live.executions[x]) then s
    else Commit(s, x, n)
  }

  function Complete(s: Engine, x: ExecId, n: NodeId, attempt: string): Engine {
    if x !in s.live.executions then s
    else
      var e := s.live.executions[x];
      if !InProgress(e) || !Is(e, n, NodeRunning) || (attempt != "" && ActiveOf(e, n) != attempt) then s
      else
        var done := SetNode(e, n, NodeDone).(active := e.active - {n});
        var t := Edit(s, x, done);
        match Next(t)
        case Saved => Conclude(DispatchAll(Persist(t), x, At(e.workflow.children, n)), x, n)
        case Refused =>
          var kept := if ActiveOf(e, n) != "" then done.(active := e.active) else done;
          ReportFailure(Edit(Persist(t), x, kept), x, n)
        case Crashed(_) => Persist(t)
  }

  function Conclude(s: Engine, x: ExecId, n: NodeId): Engine
    requires x in s.live.executions
  {
    var e := s.live.executions[x];
    if !s.alive || !AllDone(e) then s
    else Commit(Edit(s, x, e.(status := ExecutionSucceeded)), x, n)
  }

  function FailWorker(s: Engine, x: ExecId, n: NodeId): Engine {
    if x == "" || n == "" || x !in s.live.executions || !InProgress(s.live.executions[x]) then s
    else
      var e := s.live.executions[x];
      Commit(Edit(s, x, e.(status := ExecutionFailed,
                           states := Sweep(e.states[n := NodeFailed], BlockPending),
                           active := e.active - {n})), x, n)
  }

  function Kill(s: Engine, x: ExecId): Engine {
    var t := s.(live := s.live.(cancelled := s.live.cancelled + {x, "compile-" + x}));
    if x !in s.live.executions then Commit(t, x, "")
    else
      var e := s.live.executions[x];
      Commit(Edit(t, x, e.(status := if InProgress(e) then ExecutionCancelled else e.status,
                           states := Sweep(e.states, BlockIdle))), x, "")
  }

  function Pause(s: Engine, x: ExecId): Engine {
    var t := s.(live := s.live.(paused := s.live.paused + {x}));
    if x !in s.live.executions || s.live.executions[x].status != ExecutionRunning then Commit(t, x, "")
    else Commit(Edit(t, x, s.live.executions[x].(status := ExecutionPaused)), x, "")
  }

  function Resume(s: Engine, x: ExecId, order: seq<NodeId>): Engine {
    var t := s.(live := s.live.(paused := s.live.paused - {x}));
    if x !in s.live.executions || s.live.executions[x].status != ExecutionPaused then t
    else
      var e := s.live.executions[x];
      var u := Edit(t, x, e.(status := ExecutionRunning));
      match Next(u)
      case Saved => DispatchSuccessors(DispatchAll(Persist(u), x, e.workflow.roots), x, order)
      case Refused => ReportFailure(Edit(Persist(u), x, e), x, "")
      case Crashed(_) => Persist(u)
  }

  function Requeue(e: Execution): Execution {
    e.(status := ExecutionRunning,
       states := Sweep(e.states, RequeueInterrupted),
       active := e.active - set n | n in e.states && e.states[n] == NodeInterrupted)
  }

  function Reconcile(s: Engine, x: ExecId, action: Action, order: seq<NodeId>): Engine {
    if x !in s.live.executions || s.live.executions[x].status != ExecutionInterrupted then s
    else
      var e := s.live.executions[x];
      if action == RetryAction then
        var t := Edit(s, x, Requeue(e));
        match Next(t)
        case Saved => DispatchAll(Persist(t).(retries := t.retries + multiset{x}), x, order)
        case Refused => ReportFailure(Edit(Persist(t), x, e), x, "")
        case Crashed(wrote) => if wrote then Persist(t).(retries := t.retries + multiset{x}) else Persist(t)
      else
        Commit(Edit(s, x, e.(status := if action == CancelAction then ExecutionCancelled else ExecutionFailed,
                             states := Sweep(e.states, BlockIdle))), x, "")
  }

  function Failed(e: Execution): Execution {
    e.(status := ExecutionFailed, states := Sweep(e.states, FailUnfinished))
  }

  function Overload(s: Engine): Engine {
    var xs := s.live.executions;
    Commit(s.(live := s.live.(
      executions := map y | y in xs ::
        if InProgress(xs[y]) then Failed(xs[y]) else xs[y],
      cancelled := s.live.cancelled + set y | y in xs && InProgress(xs[y]))), "", "")
  }

  function RecoverExecution(e: Execution, maxNodes: nat): Execution {
    e.(status := if e.status == ExecutionRunning then ExecutionInterrupted else e.status,
       states := Sweep(e.states, InterruptRunning),
       maxNodes := if e.maxNodes == 0 then maxNodes else e.maxNodes)
  }

  predicate NeedsRecovery(e: Execution) {
    e.status == ExecutionRunning || exists n | n in e.states :: e.states[n] == NodeRunning
  }

  function RecoverAll(xs: map<ExecId, Execution>, maxNodes: nat): map<ExecId, Execution> {
    map y | y in xs :: RecoverExecution(xs[y], maxNodes)
  }

  /** A new process loads the snapshot; if the write of the recovered state is refused, it does
      not come up. */
  function Recover(s: Engine): Engine {
    var xs := s.disk.executions;
    var t := s.(alive := true, live := s.disk.(executions := RecoverAll(xs, s.maxNodes)));
    if forall y | y in xs :: !NeedsRecovery(xs[y]) then t
    else if Next(t).Refused? then Persist(t).(alive := false)
    else Persist(t)
  }

  function Step(s: Engine, event: Event): Engine {
    if event.Restart? then Recover(s)
    else if !s.alive then s
    else
      match event
      case SubmitWorkflow(x, wf, accepting) => Submit(s, x, wf, accepting)
      case AttemptStarted(x, n, attempt) => StartAttempt(s, x, n, attempt)
      case AttemptFinished(x) => FinishAttempt(s, x)
      case GraphMutationRequested(x, n, attempt, target, back, admitted, authorized) =>
        Mutate(s, x, n, attempt, target, back, admitted, authorized)
      case ArtifactStored(x, n) => StoreArtifact(s, x, n)
      case WorkerCompleted(x, n, attempt) => Complete(s, x, n, attempt)
      case WorkerFailed(x, n) => FailWorker(s, x, n)
      case ExecutionKilled(x) => Kill(s, x)
      case ExecutionPauseRequested(x) => Pause(s, x)
      case ExecutionResumed(x, order) => Resume(s, x, order)
      case ExecutionReconciled(x, action, order) => Reconcile(s, x, action, order)
      case RuntimeOverloaded => Overload(s)
      case Restart => s
  }

  /** A whole run, from the first event to the last. */
  function Run(s: Engine, events: seq<Event>): Engine {
    if events == [] then s else Step(Run(s, events[..|events| - 1]), events[|events| - 1])
  }

  /** A fresh runtime with an arbitrary future of write outcomes. */
  function Boot(plan: seq<Outcome>, maxNodes: nat): Engine {
    var none := Snapshot(map[], {}, {});
    Engine(none, none, true, plan, multiset{}, multiset{}, maxNodes)
  }
}
