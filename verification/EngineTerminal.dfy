/** When a finished execution can be disturbed. While writes succeed it never is (EngineCausality);
    here refused writes are allowed, and the exact exceptions are named. */
module EngineTerminal {
  import opened Graph
  import opened Workflow
  import opened Storage
  import opened EngineModel
  import opened EngineCausality

  /** Execution `x` has finished. */
  ghost predicate Finished(s: Engine, x: ExecId) {
    x in s.live.executions && Terminal(s.live.executions[x].status)
  }

  ghost predicate Undisturbed(s: Engine, t: Engine, x: ExecId) {
    Finished(s, x) && x in t.live.executions && t.live.executions[x].status == s.live.executions[x].status
  }

  lemma CommitElsewhere(s: Engine, y: ExecId, n: NodeId, x: ExecId)
    requires Finished(s, x) && y != x
    ensures Undisturbed(s, Commit(s, y, n), x) && (y in s.live.executions ==> y in Commit(s, y, n).live.executions)
  {
    ReportElsewhere(Persist(s), y, n, x);
    hide ReportFailure;
  }

  lemma ReportElsewhere(s: Engine, y: ExecId, n: NodeId, x: ExecId)
    requires Finished(s, x) && y != x
    ensures Undisturbed(s, ReportFailure(s, y, n), x) && (y in s.live.executions ==> y in ReportFailure(s, y, n).live.executions)
  {
    hide InterruptRunning;
  }

  /** The execution that a refused write names is interrupted, whatever its status was. */
  lemma ReportHere(s: Engine, x: ExecId, n: NodeId)
    requires Finished(s, x)
    ensures x in ReportFailure(s, x, n).live.executions
    ensures ReportFailure(s, x, n).live.executions[x].status == ExecutionInterrupted
  {
    hide InterruptRunning;
  }

  lemma DispatchNodeElsewhere(s: Engine, y: ExecId, n: NodeId, x: ExecId)
    requires Finished(s, x) && y != x && y in s.live.executions
    ensures Undisturbed(s, DispatchNode(s, y, n), x) && y in DispatchNode(s, y, n).live.executions
  {
    CommitElsewhere(Edit(s, y, SetNode(s.live.executions[y], n, NodeRunning)), y, n, x);
    hide Commit, SetNode;
  }

  lemma {:induction false} DispatchAllElsewhere(s: Engine, y: ExecId, ns: seq<NodeId>, x: ExecId)
    requires Finished(s, x) && y != x && y in s.live.executions
    ensures Undisturbed(s, DispatchAll(s, y, ns), x)
    decreases |ns|
  {
    hide DispatchNode, Dispatchable;
    if ns != [] {
      if Dispatchable(s, y, ns[0]) { DispatchNodeElsewhere(s, y, ns[0], x); }
      DispatchAllElsewhere(CheckAndDispatch(s, y, ns[0]), y, ns[1..], x);
    }
  }

  lemma {:induction false} DispatchSuccessorsElsewhere(s: Engine, y: ExecId, order: seq<NodeId>, x: ExecId)
    requires Finished(s, x) && y != x && y in s.live.executions
    ensures Undisturbed(s, DispatchSuccessors(s, y, order), x)
    decreases |order|
  {
    hide DispatchAll;
    if order != [] {
      var e := s.live.executions[y];
      var t := if Is(e, order[0], NodeDone) then DispatchAll(s, y, At(e.workflow.children, order[0])) else s;
      DispatchAllElsewhere(s, y, At(e.workflow.children, order[0]), x);
      DispatchSuccessorsElsewhere(t, y, order[1..], x);
    }
  }

  lemma {:induction false} DispatchRootsElsewhere(s: Engine, y: ExecId, roots: seq<NodeId>, x: ExecId)
    requires Finished(s, x) && y != x && y in s.live.executions
    ensures Undisturbed(s, DispatchRoots(s, y, roots), x)
    decreases |roots|
  {
    hide DispatchNode;
    if roots != [] && s.alive {
      DispatchNodeElsewhere(s, y, roots[0], x);
      DispatchRootsElsewhere(DispatchNode(s, y, roots[0]), y, roots[1..], x);
    }
  }

  lemma SubmitElsewhere(s: Engine, y: ExecId, wf: Definition, accepting: bool, x: ExecId)
    requires Finished(s, x)
    ensures Undisturbed(s, Submit(s, y, wf, accepting), x)
  {
    hide DispatchRoots, NewExecution;
    if y !in s.live.executions {
      var status := if y in s.live.paused then ExecutionPaused else ExecutionRunning;
      var admitted := Edit(s, y, NewExecution(wf, status, s.maxNodes));
      if Next(admitted).Saved? { DispatchRootsElsewhere(Persist(admitted), y, wf.roots, x); }
    }
  }

  lemma CompleteElsewhere(s: Engine, y: ExecId, n: NodeId, attempt: string, x: ExecId)
    requires Finished(s, x)
    ensures Undisturbed(s, Complete(s, y, n, attempt), x)
  {
    hide DispatchAll, Conclude, Sweep;
    if y != x && y in s.live.executions {
      var e := s.live.executions[y];
      var t := Edit(s, y, SetNode(e, n, NodeDone).(active := e.active - {n}));
      var u := DispatchAll(Persist(t), y, At(e.workflow.children, n));
      DispatchAllElsewhere(Persist(t), y, At(e.workflow.children, n), x);
      ConcludeElsewhere(u, y, n, x);
    }
  }

  lemma ConcludeElsewhere(s: Engine, y: ExecId, n: NodeId, x: ExecId)
    requires Finished(s, x) && y != x && y in s.live.executions
    ensures Undisturbed(s, Conclude(s, y, n), x)
  {
    hide AllDone;
    CommitElsewhere(Edit(s, y, s.live.executions[y].(status := ExecutionSucceeded)), y, n, x);
  }

  lemma ResumeElsewhere(s: Engine, y: ExecId, order: seq<NodeId>, x: ExecId)
    requires Finished(s, x)
    ensures Undisturbed(s, Resume(s, y, order), x)
  {
    hide DispatchAll, DispatchSuccessors;
    if y != x && y in s.live.executions {
      var e := s.live.executions[y];
      var u := Edit(s.(live := s.live.(paused := s.live.paused - {y})), y, e.(status := ExecutionRunning));
      DispatchAllElsewhere(Persist(u), y, e.workflow.roots, x);
      DispatchSuccessorsElsewhere(DispatchAll(Persist(u), y, e.workflow.roots), y, order, x);
    }
  }

  lemma RetryElsewhere(s: Engine, y: ExecId, order: seq<NodeId>, x: ExecId)
    requires Finished(s, x) && y != x && y in s.live.executions
    ensures Undisturbed(s, Reconcile(s, y, RetryAction, order), x)
  {
    hide DispatchAll, Requeue, Commit, ReportFailure;
    var e := s.live.executions[y];
    var t := Edit(s, y, Requeue(e));
    assert Undisturbed(s, Persist(t), x);
    DispatchAllElsewhere(Persist(t).(retries := t.retries + multiset{y}), y, order, x);
    ReportElsewhere(Edit(Persist(t), y, e), y, "", x);
  }

  lemma ReconcileElsewhere(s: Engine, y: ExecId, action: Action, order: seq<NodeId>, x: ExecId)
    requires Finished(s, x)
    ensures Undisturbed(s, Reconcile(s, y, action, order), x)
  {
    hide DispatchAll, Requeue, Sweep, Commit, ReportFailure, AllDone;
    if y != x && y in s.live.executions {
      var e := s.live.executions[y];
      RetryElsewhere(s, y, order, x);
      var status := if action == CancelAction then ExecutionCancelled else ExecutionFailed;
      CommitElsewhere(Edit(s, y, e.(status := status, states := Sweep(e.states, BlockIdle))), y, "", x);
    }
  }

  lemma MutateElsewhere(s: Engine, y: ExecId, n: NodeId, attempt: string, target: string, back: bool,
                        admitted: bool, authorized: bool, x: ExecId)
    requires Finished(s, x)
    ensures Undisturbed(s, Mutate(s, y, n, attempt, target, back, admitted, authorized), x)
  {
    hide Delegate, ReportFailure, ActiveOf;
    if y != x && MayDelegate(s, y, n, attempt, back, admitted, authorized) {
      var e := s.live.executions[y];
      var grown := Edit(s, y, Delegate(e, n, target, back));
      assert Undisturbed(s, Persist(grown), x);
      PutBackElsewhere(s, Persist(grown), y, e, n, x);
    }
  }

  lemma PutBackElsewhere(s: Engine, t: Engine, y: ExecId, e: Execution, n: NodeId, x: ExecId)
    requires Undisturbed(s, t, x) && y != x
    ensures Undisturbed(s, ReportFailure(Edit(t, y, e), y, n), x)
  {
    ReportElsewhere(Edit(t, y, e), y, n, x);
    hide ReportFailure;
  }

  lemma AttemptElsewhere(s: Engine, y: ExecId, n: NodeId, attempt: string, x: ExecId)
    requires Finished(s, x) && x != ""
    ensures Undisturbed(s, StartAttempt(s, y, n, attempt), x) && Undisturbed(s, FinishAttempt(s, y), x)
  {
    hide Commit;
    CommitElsewhere(s, "", "", x);
    if y in s.live.executions {
      var e := s.live.executions[y];
      var t := Edit(s, y, e.(active := e.active[n := attempt]));
      assert Finished(t, x) && t.live.executions[x].status == s.live.executions[x].status;
      CommitElsewhere(t, "", "", x);
    }
  }

  lemma FailElsewhere(s: Engine, y: ExecId, n: NodeId, x: ExecId)
    requires Finished(s, x)
    ensures Undisturbed(s, FailWorker(s, y, n), x) && Undisturbed(s, StoreArtifact(s, y, n), x)
  {
    hide Commit, Sweep;
    if y != x && y in s.live.executions {
      var e := s.live.executions[y];
      CommitElsewhere(s, y, n, x);
      CommitElsewhere(Edit(s, y, e.(status := ExecutionFailed, states := Sweep(e.states[n := NodeFailed], BlockPending),
                                    active := e.active - {n})), y, n, x);
    }
  }

  lemma OverloadElsewhere(s: Engine, x: ExecId)
    requires Finished(s, x) && x != ""
    ensures Undisturbed(s, Overload(s), x)
  {
    hide Commit, Failed;
    var xs := s.live.executions;
    var t := s.(live := s.live.(
      executions := map y | y in xs :: if InProgress(xs[y]) then Failed(xs[y]) else xs[y],
      cancelled := s.live.cancelled + set y | y in xs && InProgress(xs[y])));
    assert Finished(t, x) && t.live.executions[x].status == s.live.executions[x].status;
    CommitElsewhere(t, "", "", x);
  }

  /** Killing: only the write of a finished execution's own kill can disturb it. */
  lemma KillHere(s: Engine, y: ExecId, x: ExecId)
    requires Finished(s, x)
    ensures Undisturbed(s, Kill(s, y), x) <==> !(y == x && Next(s).Refused?)
    ensures y == x && Next(s).Refused? ==>
      x in Kill(s, y).live.executions && Kill(s, y).live.executions[x].status == ExecutionInterrupted
  {
    hide ReportFailure, Sweep;
    var t := s.(live := s.live.(cancelled := s.live.cancelled + {y, "compile-" + y}));
    var u := if y !in s.live.executions then t
             else
               var e := s.live.executions[y];
               Edit(t, y, e.(status := if InProgress(e) then ExecutionCancelled else e.status, states := Sweep(e.states, BlockIdle)));
    assert Kill(s, y) == Commit(u, y, "") && Finished(u, x);
    if y == x { ReportHere(Persist(u), x, ""); } else { CommitElsewhere(u, y, "", x); }
  }

  lemma PauseHere(s: Engine, y: ExecId, x: ExecId)
    requires Finished(s, x)
    ensures Undisturbed(s, Pause(s, y), x) <==> !(y == x && Next(s).Refused?)
    ensures y == x && Next(s).Refused? ==>
      x in Pause(s, y).live.executions && Pause(s, y).live.executions[x].status == ExecutionInterrupted
  {
    hide ReportFailure;
    var t := s.(live := s.live.(paused := s.live.paused + {y}));
    var u := if y !in s.live.executions || s.live.executions[y].status != ExecutionRunning then t
             else Edit(t, y, s.live.executions[y].(status := ExecutionPaused));
    assert Pause(s, y) == Commit(u, y, "") && Finished(u, x);
    if y == x { ReportHere(Persist(u), x, ""); } else { CommitElsewhere(u, y, "", x); }
  }

  // ---------- memory ahead of the disk ----------

  /** Execution `x` has finished in memory, but not on disk. */
  ghost predicate Behind(s: Engine, x: ExecId) {
    && s.alive && Finished(s, x)
    && !(x in s.disk.executions && s.disk.executions[x].status == s.live.executions[x].status)
  }

  /** The disk falls behind nowhere, and catches up with everything at the first write that is saved. */
  ghost predicate Tidy(s: Engine, t: Engine) {
    forall y | Behind(t, y) :: Behind(s, y) && t.disk == s.disk
  }

  lemma TidyTransitive(s: Engine, t: Engine, u: Engine)
    requires Tidy(s, t) && Tidy(t, u)
    ensures Tidy(s, u)
  {
  }

  lemma StaysTidy(s: Engine)
    ensures Tidy(s, s)
  {
  }

  /** A saved write, or one after which the process is gone, leaves nothing behind; a refused one
      changes nothing on disk and finishes nothing in memory. */
  lemma CommitTidy(s: Engine, x: ExecId, n: NodeId)
    ensures forall y | Behind(Commit(s, x, n), y) :: y != x && Behind(s, y) && Commit(s, x, n).disk == s.disk
  {
    ReportTidy(Persist(s), x, n);
    hide ReportFailure;
    if !Next(s).Refused? {
      forall y ensures !Behind(Persist(s), y) {}
    }
  }

  lemma ReportTidy(s: Engine, x: ExecId, n: NodeId)
    ensures forall y | Behind(ReportFailure(s, x, n), y) :: y != x && Behind(s, y)
    ensures ReportFailure(s, x, n).disk == s.disk
  {
    hide InterruptRunning;
  }

  /** A change of one execution, committed in its name. */
  lemma EditTidy(s: Engine, t: Engine, x: ExecId, e: Execution, n: NodeId)
    requires t == Edit(s.(live := s.live.(cancelled := t.live.cancelled, paused := t.live.paused)), x, e)
    ensures Tidy(s, Commit(t, x, n))
  {
    CommitTidy(t, x, n);
    hide Commit;
    forall y | Behind(Commit(t, x, n), y) ensures Behind(s, y) && Commit(t, x, n).disk == s.disk {}
  }

  lemma DispatchNodeTidy(s: Engine, x: ExecId, n: NodeId)
    requires x in s.live.executions
    ensures Tidy(s, DispatchNode(s, x, n)) && x in DispatchNode(s, x, n).live.executions
  {
    var admitted := Edit(s, x, SetNode(s.live.executions[x], n, NodeRunning));
    EditTidy(s, admitted, x, SetNode(s.live.executions[x], n, NodeRunning), n);
    KeepsKey(admitted, x, n);
    hide Commit, SetNode;
  }

  lemma KeepsKey(s: Engine, x: ExecId, n: NodeId)
    requires x in s.live.executions
    ensures x in Commit(s, x, n).live.executions
  {
    hide Interrupt;
  }

  lemma {:induction false} DispatchAllTidy(s: Engine, x: ExecId, ns: seq<NodeId>)
    requires x in s.live.executions
    ensures Tidy(s, DispatchAll(s, x, ns))
    decreases |ns|
  {
    hide DispatchNode, Dispatchable, Tidy;
    StaysTidy(s);
    if ns != [] {
      if Dispatchable(s, x, ns[0]) { DispatchNodeTidy(s, x, ns[0]); }
      DispatchAllTidy(CheckAndDispatch(s, x, ns[0]), x, ns[1..]);
      TidyTransitive(s, CheckAndDispatch(s, x, ns[0]), DispatchAll(s, x, ns));
    }
  }

  lemma {:induction false} DispatchSuccessorsTidy(s: Engine, x: ExecId, order: seq<NodeId>)
    requires x in s.live.executions
    ensures Tidy(s, DispatchSuccessors(s, x, order))
    decreases |order|
  {
    hide DispatchAll, Tidy;
    StaysTidy(s);
    if order != [] {
      var e := s.live.executions[x];
      var t := if Is(e, order[0], NodeDone) then DispatchAll(s, x, At(e.workflow.children, order[0])) else s;
      DispatchAllTidy(s, x, At(e.workflow.children, order[0]));
      DispatchSuccessorsTidy(t, x, order[1..]);
      TidyTransitive(s, t, DispatchSuccessors(s, x, order));
    }
  }

  lemma {:induction false} DispatchRootsTidy(s: Engine, x: ExecId, roots: seq<NodeId>)
    requires x in s.live.executions
    ensures Tidy(s, DispatchRoots(s, x, roots))
    decreases |roots|
  {
    hide DispatchNode, Tidy;
    StaysTidy(s);
    if roots != [] && s.alive {
      DispatchNodeTidy(s, x, roots[0]);
      DispatchRootsTidy(DispatchNode(s, x, roots[0]), x, roots[1..]);
      TidyTransitive(s, DispatchNode(s, x, roots[0]), DispatchRoots(s, x, roots));
    }
  }

  /** A write that was not refused. */
  lemma SavedTidy(s: Engine, t: Engine)
    requires !Next(t).Refused?
    ensures Tidy(s, Persist(t))
  {
  }

  /** A refused write after which one execution is put back, and the failure is reported for it. */
  lemma PutBackTidy(s: Engine, t: Engine, x: ExecId, e: Execution, f: Execution, n: NodeId)
    requires t == Edit(s.(live := s.live.(cancelled := t.live.cancelled, paused := t.live.paused)), x, e)
    requires Next(t).Refused?
    ensures Tidy(s, ReportFailure(Edit(Persist(t), x, f), x, n))
  {
    var u := Edit(Persist(t), x, f);
    ReportTidy(u, x, n);
    hide ReportFailure;
    forall y | Behind(ReportFailure(u, x, n), y) ensures Behind(s, y) && ReportFailure(u, x, n).disk == s.disk {}
  }

  lemma SubmitTidy(s: Engine, x: ExecId, wf: Definition, accepting: bool)
    ensures Tidy(s, Submit(s, x, wf, accepting))
  {
    hide DispatchRoots, NewExecution;
    var status := if x in s.live.paused then ExecutionPaused else ExecutionRunning;
    var admitted := Edit(s, x, NewExecution(wf, status, s.maxNodes));
    if !Next(admitted).Refused? {
      SavedTidy(s, admitted);
      if Next(admitted).Saved? {
        DispatchRootsTidy(Persist(admitted), x, wf.roots);
        TidyTransitive(s, Persist(admitted), DispatchRoots(Persist(admitted), x, wf.roots));
      }
    }
    StaysTidy(s);
    RefusedTidy(s, admitted);
    hide Tidy, Persist;
  }

  lemma RefusedTidy(s: Engine, t: Engine)
    requires t == s.(live := t.live)
    ensures Next(t).Refused? ==> Tidy(s, Persist(t).(live := s.live))
  {
  }

  lemma AttemptTidy(s: Engine, x: ExecId, n: NodeId, attempt: string)
    ensures Tidy(s, StartAttempt(s, x, n, attempt)) && Tidy(s, FinishAttempt(s, x))
  {
    StaysTidy(s);
    CommitTidy(s, "", "");
    if x in s.live.executions {
      var e := s.live.executions[x];
      var t := Edit(s, x, e.(active := e.active[n := attempt]));
      CommitTidy(t, "", "");
      hide Commit;
      forall y | Behind(t, y) ensures Behind(s, y) {}
    }
  }

  lemma MutateTidy(s: Engine, x: ExecId, n: NodeId, attempt: string, target: string, back: bool, admitted: bool, authorized: bool)
    ensures Tidy(s, Mutate(s, x, n, attempt, target, back, admitted, authorized))
  {
    hide Delegate, ReportFailure, ActiveOf;
    StaysTidy(s);
    if MayDelegate(s, x, n, attempt, back, admitted, authorized) {
      var e := s.live.executions[x];
      var grown := Edit(s, x, Delegate(e, n, target, back));
      if Next(grown).Refused? { PutBackTidy(s, grown, x, Delegate(e, n, target, back), e, n); } else { SavedTidy(s, grown); }
    }
    hide Tidy;
  }

  lemma StoreTidy(s: Engine, x: ExecId, n: NodeId)
    ensures Tidy(s, StoreArtifact(s, x, n))
  {
    StaysTidy(s);
    CommitTidy(s, x, n);
    hide Commit;
  }

  lemma CompleteTidy(s: Engine, x: ExecId, n: NodeId, attempt: string)
    ensures Tidy(s, Complete(s, x, n, attempt))
  {
    hide DispatchAll, Conclude, ReportFailure, Tidy, Commit, InProgress;
    StaysTidy(s);
    if x in s.live.executions {
      var e := s.live.executions[x];
      var done := SetNode(e, n, NodeDone).(active := e.active - {n});
      var t := Edit(s, x, done);
      if Next(t).Refused? {
        PutBackTidy(s, t, x, done, if ActiveOf(e, n) != "" then done.(active := e.active) else done, n);
      } else {
        SavedTidy(s, t);
        var u := DispatchAll(Persist(t), x, At(e.workflow.children, n));
        DispatchAllTidy(Persist(t), x, At(e.workflow.children, n));
        ConcludeTidy(u, x, n);
        TidyTransitive(s, Persist(t), u);
        TidyTransitive(s, u, Conclude(u, x, n));
      }
    }
  }

  lemma ConcludeTidy(s: Engine, x: ExecId, n: NodeId)
    requires x in s.live.executions
    ensures Tidy(s, Conclude(s, x, n))
  {
    hide AllDone, Commit, Tidy;
    StaysTidy(s);
    var e := s.live.executions[x].(status := ExecutionSucceeded);
    EditTidy(s, Edit(s, x, e), x, e, n);
  }

  lemma FailTidy(s: Engine, x: ExecId, n: NodeId)
    ensures Tidy(s, FailWorker(s, x, n))
  {
    hide Commit, Sweep, Tidy;
    StaysTidy(s);
    if x in s.live.executions {
      var e := s.live.executions[x];
      var f := e.(status := ExecutionFailed, states := Sweep(e.states[n := NodeFailed], BlockPending), active := e.active - {n});
      EditTidy(s, Edit(s, x, f), x, f, n);
    }
  }

  /** A commit in the name of an execution that only the set of cancelled or paused ones changed for. */
  lemma FlagsTidy(s: Engine, t: Engine, x: ExecId)
    requires t == s.(live := s.live.(cancelled := t.live.cancelled, paused := t.live.paused))
    ensures Tidy(s, Commit(t, x, "")) && Tidy(s, t)
  {
    CommitTidy(t, x, "");
    hide Commit;
    forall y | Behind(t, y) ensures Behind(s, y) {}
  }

  lemma KillTidy(s: Engine, x: ExecId)
    ensures Tidy(s, Kill(s, x))
  {
    hide Commit, Sweep, Tidy;
    var t := s.(live := s.live.(cancelled := s.live.cancelled + {x, "compile-" + x}));
    FlagsTidy(s, t, x);
    if x in s.live.executions {
      var e := s.live.executions[x];
      var f := e.(status := if InProgress(e) then ExecutionCancelled else e.status, states := Sweep(e.states, BlockIdle));
      EditTidy(s, Edit(t, x, f), x, f, "");
    }
  }

  lemma PauseTidy(s: Engine, x: ExecId)
    ensures Tidy(s, Pause(s, x))
  {
    hide Commit, Tidy;
    var t := s.(live := s.live.(paused := s.live.paused + {x}));
    FlagsTidy(s, t, x);
    if x in s.live.executions {
      var f := s.live.executions[x].(status := ExecutionPaused);
      EditTidy(s, Edit(t, x, f), x, f, "");
    }
  }

  lemma ResumeTidy(s: Engine, x: ExecId, order: seq<NodeId>)
    ensures Tidy(s, Resume(s, x, order))
  {
    hide DispatchAll, DispatchSuccessors, ReportFailure, Tidy;
    var t := s.(live := s.live.(paused := s.live.paused - {x}));
    FlagsTidy(s, t, x);
    if x in s.live.executions {
      var e := s.live.executions[x];
      var f := e.(status := ExecutionRunning);
      var u := Edit(t, x, f);
      if Next(u).Refused? {
        PutBackTidy(s, u, x, f, e, "");
      } else {
        SavedTidy(s, u);
        var v := DispatchAll(Persist(u), x, e.workflow.roots);
        DispatchAllTidy(Persist(u), x, e.workflow.roots);
        DispatchSuccessorsTidy(v, x, order);
        TidyTransitive(s, Persist(u), v);
        TidyTransitive(s, v, DispatchSuccessors(v, x, order));
      }
    }
  }

  lemma ReconcileTidy(s: Engine, x: ExecId, action: Action, order: seq<NodeId>)
    ensures Tidy(s, Reconcile(s, x, action, order))
  {
    hide DispatchAll, Requeue, Sweep, Commit, ReportFailure, Tidy;
    StaysTidy(s);
    if x in s.live.executions {
      var e := s.live.executions[x];
      if action == RetryAction {
        RetryTidy(s, x, order);
      } else {
        var f := e.(status := if action == CancelAction then ExecutionCancelled else ExecutionFailed, states := Sweep(e.states, BlockIdle));
        EditTidy(s, Edit(s, x, f), x, f, "");
      }
    }
  }

  lemma RetryTidy(s: Engine, x: ExecId, order: seq<NodeId>)
    requires x in s.live.executions
    ensures Tidy(s, Reconcile(s, x, RetryAction, order))
  {
    hide DispatchAll, Requeue, ReportFailure;
    StaysTidy(s);
    var e := s.live.executions[x];
    var t := Edit(s, x, Requeue(e));
    if Next(t).Refused? {
      PutBackTidy(s, t, x, Requeue(e), e, "");
    } else {
      SavedTidy(s, t);
      var u := Persist(t).(retries := t.retries + multiset{x});
      assert Tidy(s, u);
      DispatchAllTidy(u, x, order);
      TidyTransitive(s, u, DispatchAll(u, x, order));
    }
    hide Tidy;
  }

  /** Only overloading can leave the disk behind: its failure is reported in nobody's name. */
  lemma OverloadBehind(s: Engine)
    requires s.alive
    ensures forall y | Behind(Overload(s), y) && !(Behind(s, y) && Overload(s).disk == s.disk) ::
      Next(s).Refused? && y in s.live.executions && InProgress(s.live.executions[y]) && Overload(s).disk == s.disk
  {
    hide Sweep;
    var xs := s.live.executions;
    var t := s.(live := s.live.(
      executions := map y | y in xs :: if InProgress(xs[y]) then Failed(xs[y]) else xs[y],
      cancelled := s.live.cancelled + set y | y in xs && InProgress(xs[y])));
    CommitTidy(t, "", "");
    assert Overload(s) == Commit(t, "", "");
    assert !Next(t).Refused? ==> forall y :: !Behind(Persist(t), y);
    hide Commit;
    forall y | Behind(t, y) ensures Behind(s, y) || (y in xs && InProgress(xs[y])) {}
  }

  lemma RecoveredNotBehind(s: Engine, y: ExecId)
    ensures !Behind(Recover(s), y)
  {
    hide NeedsRecovery, Sweep;
  }

  /** One step: the disk falls behind only for an execution that is in progress when the runtime is
      overloaded and the write is refused, and catches up with the first write that is saved. */
  lemma StepBehind(s: Engine, event: Event, y: ExecId)
    requires Behind(Step(s, event), y) && (s.alive || event.Restart?)
    ensures !event.Restart? && Step(s, event).disk == s.disk
    ensures Behind(s, y) || (event.RuntimeOverloaded? && Next(s).Refused? && y in s.live.executions && InProgress(s.live.executions[y]))
  {
    hide Submit, Complete, Resume, Reconcile, Mutate, StartAttempt, FinishAttempt, FailWorker, StoreArtifact, Kill, Pause, Overload, Recover;
    hide Behind;
    match event
    case SubmitWorkflow(x, wf, accepting) => SubmitTidy(s, x, wf, accepting);
    case AttemptStarted(x, n, attempt) => AttemptTidy(s, x, n, attempt);
    case AttemptFinished(x) => AttemptTidy(s, x, "", "");
    case GraphMutationRequested(x, n, attempt, target, back, admitted, authorized) =>
      MutateTidy(s, x, n, attempt, target, back, admitted, authorized);
    case ArtifactStored(x, n) => StoreTidy(s, x, n);
    case WorkerCompleted(x, n, attempt) => CompleteTidy(s, x, n, attempt);
    case WorkerFailed(x, n) => FailTidy(s, x, n);
    case ExecutionKilled(x) => KillTidy(s, x);
    case ExecutionPauseRequested(x) => PauseTidy(s, x);
    case ExecutionResumed(x, order) => ResumeTidy(s, x, order);
    case ExecutionReconciled(x, action, order) => ReconcileTidy(s, x, action, order);
    case RuntimeOverloaded => OverloadBehind(s);
    case Restart => RecoveredNotBehind(s, y);
  }

  /** Event `i` overloaded the runtime while `y` was in progress, its write was refused, and nothing
      has been saved since. */
  ghost predicate LostOverload(s: Engine, events: seq<Event>, i: nat, y: ExecId)
    requires i < |events|
  {
    var before := Run(s, events[..i]);
    && events[i].RuntimeOverloaded? && before.alive && Next(before).Refused?
    && y in before.live.executions && InProgress(before.live.executions[y])
    && Run(s, events).disk == before.disk
  }

  /** Over every run: a finished execution is finished on disk too, unless it was in progress when an
      overload could not be written and nothing has been saved since. */
  lemma {:induction false} BehindOnlyAfterOverload(plan: seq<Outcome>, maxNodes: nat, events: seq<Event>, y: ExecId)
    requires Behind(Run(Boot(plan, maxNodes), events), y)
    ensures exists i :: 0 <= i < |events| && LostOverload(Boot(plan, maxNodes), events, i, y)
  {
    hide Step;
    if events != [] {
      var b, front, e := Boot(plan, maxNodes), events[..|events| - 1], events[|events| - 1];
      var s := Run(b, front);
      DeadStays(s, e);
      StepBehind(s, e, y);
      hide Behind;
      if Behind(s, y) {
        BehindOnlyAfterOverload(plan, maxNodes, front, y);
        var i :| 0 <= i < |front| && LostOverload(b, front, i, y);
        assert front[..i] == events[..i];
        assert LostOverload(b, events, i, y);
      } else {
        assert LostOverload(b, events, |events| - 1, y);
      }
    }
  }

  lemma DeadStays(s: Engine, e: Event)
    ensures !s.alive && !e.Restart? ==> !Step(s, e).alive
  {
  }

  /** And such an overload does leave it behind, when the disk does not show it as failed already: a
      restart brings it back unfinished. */
  lemma LostOverloadLeavesBehind(s: Engine, y: ExecId)
    requires s.alive && y in s.live.executions && InProgress(s.live.executions[y]) && Next(s).Refused? && y != ""
    requires y in s.disk.executions ==> s.disk.executions[y].status != ExecutionFailed
    ensures Behind(Step(s, RuntimeOverloaded), y)
    ensures !Undisturbed(Step(s, RuntimeOverloaded), Step(Step(s, RuntimeOverloaded), Restart), y)
  {
    var t := Step(s, RuntimeOverloaded);
    OverloadFails(s, y);
    RestartHere(t, y);
  }

  lemma OverloadFails(s: Engine, y: ExecId)
    requires s.alive && y in s.live.executions && InProgress(s.live.executions[y]) && Next(s).Refused? && y != ""
    ensures var t := Overload(s);
      t.alive && t.disk == s.disk && y in t.live.executions && t.live.executions[y].status == ExecutionFailed
  {
    hide Sweep, InterruptRunning;
    var xs := s.live.executions;
    var t := s.(live := s.live.(
      executions := map y | y in xs :: if InProgress(xs[y]) then Failed(xs[y]) else xs[y],
      cancelled := s.live.cancelled + set y | y in xs && InProgress(xs[y])));
    assert Finished(t, y);
    CommitElsewhere(t, "", "", y);
  }

  /** A restart rebuilds memory from disk. */
  lemma RestartHere(s: Engine, x: ExecId)
    requires s.alive && Finished(s, x)
    ensures Undisturbed(s, Recover(s), x) <==> !Behind(s, x)
  {
    hide NeedsRecovery, Sweep;
    var xs := s.disk.executions;
    var t := Recover(s);
    assert t.live.executions == RecoverAll(xs, s.maxNodes) || t.live.executions == xs;
    assert t.live.executions.Keys == xs.Keys;
    if x in xs && Terminal(xs[x].status) { assert t.live.executions[x].status == xs[x].status; }
    if x in xs && !Terminal(xs[x].status) { assert !Terminal(t.live.executions[x].status); }
  }

  /** A kill or a pause of a finished execution whose write is refused, or a restart while it has
      finished in memory only. */
  ghost predicate Disturbs(s: Engine, event: Event, x: ExecId) {
    || ((event == ExecutionKilled(x) || event == ExecutionPauseRequested(x)) && Next(s).Refused?)
    || (event.Restart? && Behind(s, x))
  }

  /** A completed, failed or cancelled execution leaves that status exactly when it is killed or
      paused once more and the write is refused, or when the runtime is restarted while the disk is
      behind. In the first case it then counts as interrupted, and can be reconciled into running
      its nodes again. */
  lemma TerminalLeftExactly(s: Engine, event: Event, x: ExecId)
    requires s.alive && Finished(s, x) && x != ""
    ensures Undisturbed(s, Step(s, event), x) <==> !Disturbs(s, event, x)
    ensures Disturbs(s, event, x) && !event.Restart? ==>
      x in Step(s, event).live.executions && Step(s, event).live.executions[x].status == ExecutionInterrupted
  {
    hide Submit, Complete, Resume, Reconcile, Mutate, StartAttempt, FinishAttempt, FailWorker, StoreArtifact, Kill, Pause, Overload, Recover;
    hide Behind;
    match event
    case SubmitWorkflow(y, wf, accepting) => SubmitElsewhere(s, y, wf, accepting, x);
    case AttemptStarted(y, n, attempt) => AttemptElsewhere(s, y, n, attempt, x);
    case AttemptFinished(y) => AttemptElsewhere(s, y, "", "", x);
    case GraphMutationRequested(y, n, attempt, target, back, admitted, authorized) =>
      MutateElsewhere(s, y, n, attempt, target, back, admitted, authorized, x);
    case ArtifactStored(y, n) => FailElsewhere(s, y, n, x);
    case WorkerCompleted(y, n, attempt) => CompleteElsewhere(s, y, n, attempt, x);
    case WorkerFailed(y, n) => FailElsewhere(s, y, n, x);
    case ExecutionKilled(y) => KillHere(s, y, x);
    case ExecutionPauseRequested(y) => PauseHere(s, y, x);
    case ExecutionResumed(y, order) => ResumeElsewhere(s, y, order, x);
    case ExecutionReconciled(y, action, order) => ReconcileElsewhere(s, y, action, order, x);
    case RuntimeOverloaded => OverloadElsewhere(s, x);
    case Restart => RestartHere(s, x);
  }
}
