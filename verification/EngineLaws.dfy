/** Laws across two handlers of the engine, and what a refused write does to the order of work. */
module EngineLaws {
  import opened Graph
  import opened Workflow
  import opened Storage
  import opened EngineModel
  import opened EngineCausality
  import opened EngineProgress

  // ---------- pausing and resuming ----------

  lemma {:induction false} NothingToDispatch(s: Engine, x: ExecId, ns: seq<NodeId>)
    requires x in s.live.executions && Ready(s.live.executions[x]) == {}
    ensures DispatchAll(s, x, ns) == s
    decreases |ns|
  {
    if ns != [] {
      assert ns[0] !in Ready(s.live.executions[x]);
      NothingToDispatch(s, x, ns[1..]);
    }
  }

  lemma {:induction false} NoSuccessorToDispatch(s: Engine, x: ExecId, order: seq<NodeId>)
    requires x in s.live.executions && Ready(s.live.executions[x]) == {}
    ensures DispatchSuccessors(s, x, order) == s
    decreases |order|
  {
    hide DispatchAll;
    if order != [] {
      NothingToDispatch(s, x, At(s.live.executions[x].workflow.children, order[0]));
      NoSuccessorToDispatch(s, x, order[1..]);
    }
  }

  /** While writes succeed, a pause followed by a resume leaves the executions as they were: what is
      ready has been dispatched already, so nothing is dispatched twice. */
  lemma PauseThenResume(s: Engine, x: ExecId, order: seq<NodeId>)
    requires s.alive && s.plan == [] && x in s.live.executions && s.live.executions[x].status == ExecutionRunning
    requires Ready(s.live.executions[x]) == {}
    ensures var t := Step(Step(s, ExecutionPauseRequested(x)), ExecutionResumed(x, order));
      t.live.executions == s.live.executions && t.tasks == s.tasks && t.live.paused == s.live.paused - {x}
  {
    hide DispatchAll, DispatchSuccessors;
    var e := s.live.executions[x];
    var p := Pause(s, x);
    assert p.live.executions == s.live.executions[x := e.(status := ExecutionPaused)];
    var u := Edit(p.(live := p.live.(paused := p.live.paused - {x})), x, e);
    assert p.live.executions[x].(status := ExecutionRunning) == e;
    var v := Persist(u);
    assert v.live.executions == s.live.executions;
    NothingToDispatch(v, x, e.workflow.roots);
    NoSuccessorToDispatch(v, x, order);
  }

  // ---------- attempts and completions ----------

  lemma {:induction false} DispatchSparesDone(s: Engine, x: ExecId, ns: seq<NodeId>, n: NodeId)
    requires s.alive && s.plan == [] && x in s.live.executions && Is(s.live.executions[x], n, NodeDone)
    ensures var t := DispatchAll(s, x, ns);
      t.alive && t.plan == [] && Is(t.live.executions[x], n, NodeDone) && t.live.executions[x].status == s.live.executions[x].status
    decreases |ns|
  {
    if ns != [] {
      DispatchSparesDone(CheckAndDispatch(s, x, ns[0]), x, ns[1..], n);
    }
  }

  /** A running node is completed only in the name of its attempt: the one last started while the
      execution was running. An attempt started while it was paused is not recorded, and its
      completion is refused. */
  lemma AttemptDecidesCompletion(s: Engine, x: ExecId, n: NodeId, started: string, completed: string)
    requires s.alive && s.plan == [] && x in s.live.executions && started != "" && completed != ""
    requires InProgress(s.live.executions[x]) && Is(s.live.executions[x], n, NodeRunning)
    ensures var e := s.live.executions[x];
      var t := Step(Step(s, AttemptStarted(x, n, started)), WorkerCompleted(x, n, completed));
      && x in t.live.executions
      && (Is(t.live.executions[x], n, NodeDone)
          <==> completed == if e.status == ExecutionRunning then started else ActiveOf(e, n))
  {
    var e := s.live.executions[x];
    var u := StartAttempt(s, x, n, started);
    assert u.plan == [] && u.alive && x in u.live.executions;
    var f := u.live.executions[x];
    assert Is(f, n, NodeRunning) && InProgress(f);
    assert ActiveOf(f, n) == if e.status == ExecutionRunning then started else ActiveOf(e, n);
    CompletionDecides(u, x, n, completed);
    hide StartAttempt, Complete;
  }

  lemma CompletionDecides(s: Engine, x: ExecId, n: NodeId, attempt: string)
    requires s.alive && s.plan == [] && x in s.live.executions && attempt != ""
    requires InProgress(s.live.executions[x]) && Is(s.live.executions[x], n, NodeRunning)
    ensures var t := Complete(s, x, n, attempt);
      x in t.live.executions && (Is(t.live.executions[x], n, NodeDone) <==> attempt == ActiveOf(s.live.executions[x], n))
  {
    hide DispatchAll, AllDone, ReportFailure, ActiveOf;
    var e := s.live.executions[x];
    if attempt == ActiveOf(e, n) {
      var t := Edit(s, x, SetNode(e, n, NodeDone).(active := e.active - {n}));
      DispatchSparesDone(Persist(t), x, At(e.workflow.children, n), n);
    }
  }

  /** The end of an attempt changes no execution, unless its write is refused: then exactly the
      executions in progress are interrupted. */
  lemma FinishedAttemptOnlyWrites(s: Engine, x: ExecId, y: ExecId)
    requires s.alive && "" !in s.live.executions && y in s.live.executions
    ensures var t := Step(s, AttemptFinished(x));
      && y in t.live.executions
      && (t.live.executions[y] == s.live.executions[y]
          <==> !(x in s.live.executions && Next(s).Refused? && InProgress(s.live.executions[y])))
  {
    hide InterruptRunning;
  }

  // ---------- refused writes ----------

  /** Everything that has begun has all its inputs. */
  ghost predicate InputsDone(e: Execution) {
    forall n | Begun(e, n) :: ParentsDone(e, n)
  }

  /** Node `n` may be marked as begun and not done: its inputs are done, and if it was done itself,
      nothing that depends on it has begun. */
  ghost predicate Spared(e: Execution, n: NodeId) {
    ParentsDone(e, n) && (Is(e, n, NodeDone) ==> forall m | Begun(e, m) :: n !in At(e.workflow.parents, m))
  }

  /** Interrupting node `n` leaves every begun node with its inputs. */
  ghost predicate Harmless(e: Execution, n: NodeId) {
    n !in e.states || Spared(e, n)
  }

  /** Execution `g` is `e` with `n` begun and not done. */
  ghost predicate Marks(e: Execution, g: Execution, n: NodeId) {
    && g.workflow == e.workflow
    && (forall m :: Begun(g, m) <==> Begun(e, m) || m == n)
    && (forall p :: Is(g, p, NodeDone) <==> Is(e, p, NodeDone) && p != n)
  }

  lemma MarkingExactly(e: Execution, g: Execution, n: NodeId)
    requires InputsDone(e) && Marks(e, g, n)
    ensures InputsDone(g) <==> Spared(e, n)
  {
    assert Is(e, n, NodeDone) ==> Begun(e, n);
    hide Begun, Is;
    if Spared(e, n) {
      forall m | Begun(g, m) ensures ParentsDone(g, m) {
        assert ParentsDone(e, m);
        assert Begun(e, m) && Is(e, n, NodeDone) ==> n !in At(e.workflow.parents, m);
      }
    } else if ParentsDone(e, n) {
      var m :| Begun(e, m) && n in At(e.workflow.parents, m);
      assert Begun(g, m) && !Is(g, n, NodeDone);
    } else {
      var p :| p in At(e.workflow.parents, n) && !Is(e, p, NodeDone);
      assert Begun(g, n) && !Is(g, p, NodeDone);
    }
  }

  lemma InterruptExactly(e: Execution, n: NodeId)
    requires InputsDone(e)
    ensures InputsDone(Interrupt(e, true, n)) <==> Harmless(e, n)
  {
    if n in e.states {
      InterruptMarks(e, n);
      MarkingExactly(e, Interrupt(e, true, n), n);
    } else {
      assert forall m :: Begun(Interrupt(e, true, n), m) <==> Begun(e, m);
      assert forall p :: Is(Interrupt(e, true, n), p, NodeDone) <==> Is(e, p, NodeDone);
    }
  }

  /** An artifact that cannot be recorded interrupts its node whatever the node's state is. This
      leaves begun work without its inputs exactly when the node is done and something that depends
      on it has begun, or when the node could not have begun yet. */
  lemma ArtifactBreaksExactly(s: Engine, x: ExecId, n: NodeId)
    requires s.alive && x in s.live.executions && InProgress(s.live.executions[x]) && x != "" && n != ""
    requires Next(s).Refused? && InputsDone(s.live.executions[x])
    ensures var t := Step(s, ArtifactStored(x, n));
      && x in t.live.executions && t.live.executions[x].status == ExecutionInterrupted
      && (InputsDone(t.live.executions[x]) <==> Harmless(s.live.executions[x], n))
  {
    InterruptExactly(s.live.executions[x], n);
    assert Interrupt(s.live.executions[x], true, n).status == ExecutionInterrupted;
    hide Interrupt, InputsDone, Harmless;
    var t := Step(s, ArtifactStored(x, n));
    assert t == ReportFailure(Persist(s), x, n);
  }

  /** A delegation that cannot be recorded is taken back, and interrupts its node as well. */
  lemma DelegationBreaksExactly(s: Engine, x: ExecId, n: NodeId, attempt: string, target: string, back: bool,
                                admitted: bool, authorized: bool)
    requires s.alive && MayDelegate(s, x, n, attempt, back, admitted, authorized)
    requires Next(s).Refused? && InputsDone(s.live.executions[x])
    ensures var t := Step(s, GraphMutationRequested(x, n, attempt, target, back, admitted, authorized));
      && x in t.live.executions && t.live.executions[x].status == ExecutionInterrupted
      && (InputsDone(t.live.executions[x]) <==> Harmless(s.live.executions[x], n))
  {
    var e := s.live.executions[x];
    InterruptExactly(e, n);
    assert Interrupt(e, true, n).status == ExecutionInterrupted;
    hide Interrupt, InputsDone, Harmless, Delegate, MayDelegate;
    var grown := Edit(s, x, Delegate(e, n, target, back));
    assert Step(s, GraphMutationRequested(x, n, attempt, target, back, admitted, authorized))
        == ReportFailure(Edit(Persist(grown), x, e), x, n);
  }

  function FailedAt(e: Execution, n: NodeId): Execution {
    e.(status := ExecutionFailed, states := Sweep(e.states[n := NodeFailed], BlockPending), active := e.active - {n})
  }

  lemma FailedStates(e: Execution, n: NodeId)
    ensures var f := FailedAt(e, n);
      && f.workflow == e.workflow && n in f.states
      && (forall m :: Begun(f, m) <==> Begun(e, m) && m != n)
      && (forall p :: Is(f, p, NodeDone) <==> Is(e, p, NodeDone) && p != n)
  {
  }

  lemma InterruptMarks(e: Execution, n: NodeId)
    requires n in e.states
    ensures Marks(e, Interrupt(e, true, n), n)
  {
  }

  lemma FailureMarks(e: Execution, n: NodeId)
    ensures Marks(e, Interrupt(FailedAt(e, n), true, n), n)
  {
    FailedStates(e, n);
    InterruptMarks(FailedAt(e, n), n);
    hide FailedAt, Interrupt, Begun, Is;
  }

  /** So does a failure that cannot be recorded, which adds its node if it was unknown. */
  lemma FailureBreaksExactly(s: Engine, x: ExecId, n: NodeId)
    requires s.alive && x in s.live.executions && InProgress(s.live.executions[x]) && x != "" && n != ""
    requires Next(s).Refused? && InputsDone(s.live.executions[x])
    ensures var t := Step(s, WorkerFailed(x, n));
      && x in t.live.executions && t.live.executions[x].status == ExecutionInterrupted
      && (InputsDone(t.live.executions[x]) <==> Spared(s.live.executions[x], n))
  {
    var e := s.live.executions[x];
    var f := FailedAt(e, n);
    FailureMarks(e, n);
    MarkingExactly(e, Interrupt(f, true, n), n);
    assert Interrupt(f, true, n).status == ExecutionInterrupted;
    hide Interrupt, InputsDone, Spared, Sweep, Marks;
    assert Step(s, WorkerFailed(x, n)) == ReportFailure(Persist(Edit(s, x, f)), x, n);
  }
}
