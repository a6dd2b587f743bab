# Reticle runtime: a verified model

Reticle's Go runtime executes workflows as event-driven, durable graphs of nodes. This project
models its stateful components in Dafny and proves what they keep over whole runs: under any order
of events, with snapshot writes that are refused, and with crashes and restarts at any point.

Verify everything with `dafny verify dfyconfig.toml`.

## How it is built

Components that change state in place are classes with the source's fields and loops. Where a
property speaks about whole runs, the class is proved to move its abstract state exactly as a pure
state machine does, and the run theorems are lemmas about that machine. The class keeps the
invariants behind those theorems, so they hold of any sequence of calls to its methods too.

| files | what they model |
|---|---|
| Graph, Workflow, Registry | loading a definition: adjacency maps, roots and Kahn's cycle check |
| Names | generated node names and decimal numerals |
| Storage, Replacement | the outcome of a snapshot write, and the rename protocol behind it |
| EngineModel | the workflow engine as a state machine with memory, disk and a plan of write outcomes |
| EngineDurability, EngineCausality, EngineProgress | theorems about its runs, from the weakest assumptions to the strongest |
| EngineTerminal, EngineOrder, EngineLaws | exactly when refused writes and restarts disturb finished work or the order of work, and laws across handlers |
| GraphEngine | the engine as it runs, handler by handler |
| EffectModel, EffectManager | the write-ahead journal of external effects |
| BrokerModel, BrokerSafety, BrokerSlots, BrokerWitness, ToolBroker, ToolCatalogue | concurrent tool calls, their slots, the journal in front of the adapters, and the tool tables |
| MemoryModel, RuntimeState, ArtifactModel, ArtifactStore, MemoryManager | the expiring store, artifact histories with indexes, and transactions over both |
| RouterModel, Router, Dispatcher | route selection, its diagnostics, capacities, and the attempt loop that drives them |
| Waitlist | the prompt queue and its scheduling pass |
| Collections | finite sets and sequences without repetition |

## Reading the model

- A snapshot write is `Saved`, `Refused`, or the point at which the process dies, with or without
  the new snapshot on disk. Replacement proves that the rename protocol provides this, and exactly
  when: the main file must be in place, or there must be nothing to lose.
- Time is an abstract clock that never runs backwards; sizes of encoded entries are an arbitrary
  function; argument hashes are the arguments themselves.
- Choices of the environment (failing file operations, answers of workers and adapters, what other
  tasks do between two steps) are arbitrary. Engine handlers are atomic, as the engine's lock makes
  them; a tool call is cut into its critical sections, between which anything may happen.
- The theorems about the engine take definitions as the loader produces them (exact roots, no
  cycle) with node names that do not look generated. "No refused write" and "no restart" are stated
  where a property needs them; TerminalLeftExactly, OrderHoldsExactly, PrematureBreaks,
  CandidatesExistIffEligible, OrderFreeExactly, SafeRetryExactly, SafeExactlyWhenIntact,
  TallyNeedsRelease, NameResolvesExactly and Reopen say exactly when the code meets the property.

## Findings

- A finished execution that is killed or paused again while the write is refused becomes interrupted
  and can be retried (EngineTerminal.TerminalLeftExactly). An overload whose write is refused leaves
  executions failed in memory only, and the restart it asks for brings them back
  (EngineTerminal.LostOverloadLeavesBehind).
- An artifact that cannot be recorded interrupts its node even if it is done, which leaves running
  dependents without a done input (EngineLaws.ArtifactBreaksExactly). The same goes for a delegation or
  a failure of a done node, and a kill or pause of a failed execution whose write is refused makes it
  retryable with its order of work lost (EngineOrder.OrderHoldsExactly).
- A failed rename back leaves the backup as the only copy. A further attempt removes it, so the
  execution store's retry loop can lose the last durable snapshot (Replacement.SafeRetryExactly).
- An artifact with an empty identity, which workers reject (runtime/agent/worker.go:304) but the store
  does not, is made durable, and the next start then refuses the snapshot
  (MemoryManagers.MemoryManager.Reopen).
- An outside request that finishes or reconciles a record of the broker between the intent of its call and the
  entry lets an equal call enter first (BrokerWitness.PrematureBreaks). At other times it is harmless.
- A revocation, or a failure of the journal, that comes between a call's look at its context and the
  entry does not stop that call (BrokerSafety.RevokedAttemptDrains).
- A tool's model name may equal the identity of another adapter's tool, which then answers to it
  (ToolCatalogue.NameResolvesExactly).
- A credential variable and an endpoint variable of one name share a slot whose default capacity
  depends on the catalogue's order (RouterModel.OrderFreeExactly).
- For a modality other than text, coding and image, selection falls back to any non-image route
  while the diagnostics report none (RouterModel.CandidatesExistIffEligible).

## Model

| member | source | states |
|---|---|---|
| `Registry.LoadWorkflow` | runtime/agent/registry.go:338-455 | A definition is loaded exactly when its node ids are non-empty and distinct, its agents known, its edges between declared nodes, it has a node, and its edge relation (self-loops and repeated edges allowed in the input) has no cycle; the loaded definition has exact roots and adjacency maps that describe exactly the edges |
| `Registry.DeclareNodes` | runtime/agent/registry.go:378-396 | The declarations are accepted exactly when ids are non-empty and distinct and agents known, and then the node table is exactly theirs |
| `Registry.BuildEdges` | runtime/agent/registry.go:398-414 | The two adjacency maps list, for every node, exactly the sources and the targets of its edges, in order and with repetition |
| `Registry.FindRoots` | runtime/agent/registry.go:416-427 | The roots are exactly the parentless nodes, each once |
| `Registry.VisitInOrder` | runtime/agent/registry.go:429-449 | Nodes leave the queue at most once and only after all their predecessors, and the visited count equals the node count exactly when the graph is acyclic |
| `Registry.LowerChildren` | runtime/agent/registry.go:439-444 | Visiting a node lowers each child's in-degree once per edge and queues exactly those that reach zero |
| `Registry.VisitedAllExactlyWhenAcyclic` | runtime/agent/registry.go:434-449 | A stuck queue means that the remaining nodes are closed under predecessors, hence a cycle; a full visit is a topological order, hence none |
| `Graph.ClosedUnderSourcesIsCyclic` | runtime/agent/registry.go:429-449 | A non-empty finite set of nodes, each with a predecessor in the set, contains a cycle |
| `Graph.TopologicalIsAcyclic` | runtime/agent/registry.go:429-449 | A graph whose edges all go forward in some order has no cycle |
| `EngineDurability.GraphsStaySound` | runtime/agent/workflow_engine.go:243-316 | Over every run with refused writes, crashes and restarts anywhere: every execution's graph, in memory and on disk, is acyclic, its edges, parents and children describe one relation, its roots are exact, and it stays within its node limit |
| `EngineDurability.DelegateKeepsSound` | runtime/agent/workflow_engine.go:276-309 | An accepted delegation, with or without the node that returns to the supervisor, keeps the graph acyclic and consistent, and its new names differ from all earlier ones |
| `EngineDurability.FreshName` | runtime/agent/workflow_engine.go:281-298 | A generated name with a counter above the node count is new, although agent names may contain dashes and digits |
| `Names.DynamicNamesDistinct` | runtime/agent/workflow_engine.go:282-298 | Generated names with different counters differ, whatever the agents are called |
| `EngineDurability.TasksWithinDurableAdmissions` | runtime/agent/workflow_engine.go:560-579 | Over every run with refused writes and crashes anywhere, a node is announced as a task at most once, plus once for each retry of its execution that reached the disk |
| `EngineCausality.WorkFollowsInputs` | runtime/agent/workflow_engine.go:352-389 | Over every run with crashes and restarts but no refused write: unless the execution failed or was cancelled, every running, done or interrupted node has all its parents done, and a completed execution has every node done, delegated ones included |
| `EngineCausality.TerminalIsFinal` | runtime/agent/workflow_engine.go:464-490 | In such runs completed, failed and cancelled are never left |
| `EngineTerminal.TerminalLeftExactly` | runtime/agent/workflow_engine.go:142-175 | With refused writes and restarts allowed, a finished execution leaves its status exactly when it is killed or paused once more and that write is refused, or when the runtime is restarted while it has finished in memory only |
| `EngineTerminal.BehindOnlyAfterOverload` | runtime/agent/workflow_engine.go:182-195 | Over every run, an execution has finished in memory only if it was in progress when an overload could not be written and nothing has been saved since |
| `EngineTerminal.LostOverloadLeavesBehind` | runtime/agent/workflow_engine.go:182-195 | Such an overload does leave the disk behind, and a restart brings the execution back unfinished |
| `EngineLaws.ArtifactBreaksExactly` | runtime/agent/workflow_engine.go:323-351 | An artifact that cannot be recorded leaves begun work without its inputs exactly when its node is done and a dependent has begun, or when the node could not have begun |
| `EngineLaws.DelegationBreaksExactly` | runtime/agent/workflow_engine.go:311-314 | So does a delegation that cannot be recorded, which is taken back, under the same condition |
| `EngineLaws.FailureBreaksExactly` | runtime/agent/workflow_engine.go:391-426 | A failure that cannot be recorded breaks the order of work exactly when its node lacks an input, or is done and a dependent has begun |
| `EngineLaws.InterruptExactly` | runtime/agent/workflow_engine.go:142-175 | Naming a node in a refused write keeps the order of work exactly when the node has its inputs and, if it is done, nothing that depends on it has begun |
| `EngineOrder.OrderHoldsExactly` | runtime/agent/workflow_engine.go:142-175 | Over every run with refused writes, crashes and restarts: at every point, in memory and on disk, begun nodes of executions that have neither failed nor been cancelled have their inputs, exactly when no step is one of five requests whose refused write marks a node that may not have begun or brings back a stopped execution that had lost its order; completions, dispatches, submissions, resumptions, retries and overloads never break it |
| `EngineOrder.OrderBreaksExactly` | runtime/agent/workflow_engine.go:142-175 | One step breaks the order of work, in memory or on disk, exactly when it is one of these |
| `EngineOrder.CompletedMeansDone` | runtime/agent/workflow_engine.go:374-388 | In every run whatsoever, also with refused writes, a completed execution has every node of its grown graph done |
| `EngineOrder.CompleteStands` | runtime/agent/workflow_engine.go:352-389 | A completion keeps the order of work whichever of its writes is refused: its own, those of the dispatches that follow, or the one that completes the execution |
| `EngineOrder.KillBreaksExactly` | runtime/agent/workflow_engine.go:464-490 | A refused kill interrupts its execution even if it had failed or been cancelled, and leaves it in order exactly when what was running or done had its inputs |
| `EngineOrder.PauseBreaksExactly` | runtime/agent/workflow_engine.go:492-512 | So does a refused pause, exactly when everything begun had its inputs |
| `EngineLaws.AttemptDecidesCompletion` | runtime/agent/workflow_engine.go:196-215 | A running node is completed only in the name of the attempt last started while the execution was running; one started during a pause is refused |
| `EngineLaws.FinishedAttemptOnlyWrites` | runtime/agent/workflow_engine.go:216-242 | The end of an attempt changes no execution, unless its write is refused, which interrupts exactly those in progress |
| `EngineLaws.PauseThenResume` | runtime/agent/workflow_engine.go:492-549 | While writes succeed, a pause and a resume leave all executions as they were and announce no task |
| `EngineProgress.RunningExecutionsProgress` | runtime/agent/workflow_engine.go:374-388 | Without faults and restarts, a running execution always has a running node and never a pending node whose parents are all done |
| `EngineProgress.SomeNodeRuns` | runtime/agent/workflow_engine.go:647-674 | The deadlock argument: if no node ran, the waiting nodes would be closed under predecessors, against acyclicity |
| `EngineProgress.ResumeReaches` | runtime/agent/workflow_engine.go:514-549 | The roots and the children of done nodes, which resuming looks at, include every node that became ready during the pause |
| `EngineProgress.DelegateMoves` | runtime/agent/workflow_engine.go:243-316 | A delegation by a running node adds only nodes that wait for it, so progress is kept |
| `GraphEngines.StepCarries` | runtime/agent/workflow_engine.go:181-597 | Every handler keeps the durable accounts whatever happens, order and terminal statuses while no write is refused, and progress while no write fails |
| `GraphEngines.GraphEngine.AnnouncedWithinRetries` | runtime/agent/workflow_engine.go:676-702 | At any time between handlers a node was announced at most once, plus once for every durable retry of its execution |
| `GraphEngines.GraphEngine.SubmitWorkflow` | runtime/agent/workflow_engine.go:607-645 | The guards, the durable admission before any dispatch, the removal on a refused write, and the dispatch of all roots, also of a paused execution |
| `GraphEngines.NewWorkflowExecution` | runtime/agent/workflow_execution.go:66-100 | A new execution has exactly the definition's nodes, all pending |
| `GraphEngines.GraphEngine.OnGraphMutationRequested` | runtime/agent/workflow_engine.go:243-316 | Only the active attempt of a known node of a running execution may delegate, within the node limit; a refused write restores the old graph before everything is interrupted |
| `GraphEngines.GraphEngine.OnWorkerCompleted` | runtime/agent/workflow_engine.go:352-389 | A completion counts only for a running node and its active attempt; it is durable before any child is dispatched, and keeps the attempt if it could not be written |
| `GraphEngines.GraphEngine.CompleteIfDone` | runtime/agent/workflow_engine.go:374-388 | The execution is completed exactly when all its nodes are done after the children were dispatched |
| `GraphEngines.GraphEngine.OnWorkerFailed` | runtime/agent/workflow_engine.go:391-444 | The node and the execution fail and pending nodes are blocked |
| `GraphEngines.GraphEngine.OnExecutionKilled` | runtime/agent/workflow_engine.go:464-490 | The execution and its compilation are cancelled for good, also when not yet submitted; a finished one keeps its status |
| `GraphEngines.GraphEngine.OnExecutionResumed` | runtime/agent/workflow_engine.go:514-549 | Resuming is durable before the roots and the children of done nodes are looked at again; a refused write restores the pause and then interrupts |
| `GraphEngines.GraphEngine.OnExecutionReconciled` | runtime/agent/workflow_engine.go:550-596 | Only an interrupted execution is reconciled: a durable retry requeues interrupted nodes, failing and cancelling block them |
| `GraphEngines.GraphEngine.OnRuntimeOverloaded` | runtime/agent/workflow_engine.go:182-195 | Every execution in progress fails, with every unfinished node |
| `GraphEngines.GraphEngine.DispatchNode` | runtime/agent/workflow_engine.go:676-702 | A task is announced only after the running node is durable |
| `GraphEngines.GraphEngine.CheckAndDispatch` | runtime/agent/workflow_engine.go:647-674 | Only a pending node of a running execution with all parents done is dispatched |
| `GraphEngines.GraphEngine.ReportPersistenceFailure` | runtime/agent/workflow_engine.go:142-175 | A refused write interrupts and cancels every execution in progress, and the one it names whatever its status |
| `GraphEngines.GraphEngine.Restart` | runtime/agent/workflow_engine.go:48-108 | Recovery interrupts running executions and running nodes and comes up only if the recovered state could be written |
| `BrokerSafety.EntriesAreSeparated` | runtime/agent/broker_effects.go:12-36 | Across every interleaving, crash and restart in which no outside request settles a record between the intent and the entry of its call: before an adapter is entered a second time for one execution, task, adapter, tool and argument hash, the first entry has a durable terminal resolution |
| `BrokerWitness.PrematureBreaks` | runtime/agent/effects.go:112-128 | The converse: whenever an outside request, a finish or the reconciliation of an interrupted record, settles a record between the intent and the entry of its call, and there is room for one more call, some continuation enters the adapter twice with the first entry unresolved |
| `BrokerWitness.OutsideFinishBreaksSeparation` | runtime/agent/effects.go:112-128 | There are such runs from the start, with a finish as the request |
| `BrokerWitness.OutsideReconciliationBreaksSeparation` | runtime/agent/effects.go:213-224 | And with a reconciliation, after an outside report of uncertainty, itself harmless, has interrupted the record |
| `BrokerSafety.OneUnresolvedPerOperation` | runtime/agent/broker_effects.go:12-36 | In every run, whatever outside requests come, at most one of the records the broker opened is unresolved per operation |
| `BrokerSafety.RevokedAttemptDrains` | runtime/toolbroker/broker.go:296-321 | After the critical section of a revocation only those calls of the session can still enter an adapter that had already looked at their context, each at most once, over every continuation |
| `BrokerSafety.RevokedAttemptNeverEnters` | runtime/toolbroker/broker.go:296-321 | If no call of the session was at that point, none of them ever enters, however many were queued for slots |
| `BrokerSafety.PersistenceFailureDrains` | runtime/toolbroker/journal.go:12-27 | After the journal could not be written, only calls of any session that had already looked at their context can still enter before a restart, each at most once |
| `BrokerSafety.StepKeepsLedger` | runtime/toolbroker/broker.go:543-593 | Every atomic section keeps the ledger: a journaled call has a durable record, unresolved until its entry, one unresolved record exists per operation, and all but the last entry of an operation are settled |
| `BrokerSafety.RecordsOnlySettle` | runtime/agent/effects.go:154-181 | Over every run records are only added and only become more settled: an interrupted record never runs again and a terminal one never changes |
| `BrokerSafety.ClearedOnlyWhileOpen` | runtime/toolbroker/journal.go:29-39 | A call gets past the look at its context only while its session is not revoked and the broker has not failed |
| `BrokerSafety.StepKeepsGate` | runtime/toolbroker/broker.go:549-558 | Every section keeps the gate: of a revoked session or a failed broker every call that has not ended is cancelled |
| `BrokerSafety.OneOpenSession` | runtime/toolbroker/broker.go:252-284 | In every run an attempt has at most one session that is not revoked, and that one is found under its name |
| `BrokerSafety.CallsKeepIdentity` | runtime/toolbroker/broker.go:446-510 | Until a restart a call id of a session stands for one call, whatever is requested under it later |
| `BrokerSlots.SlotsConserved` | runtime/toolbroker/broker.go:512-541 | The slot counters always equal the calls that hold a slot, within 32 overall, 4 per session and 8 per adapter, through every exit of a call |
| `BrokerSlots.TakeCounts` | runtime/toolbroker/broker.go:512-541 | Taking the next slot, in the order global, session, adapter, keeps every counter equal to its holders and within its pool |
| `BrokerSlots.ReleaseCounts` | runtime/toolbroker/broker.go:515-541 | Ending a call at any point returns exactly the slots it holds |
| `EffectModel.BeginCallAdvances` | runtime/agent/broker_effects.go:12-36 | Opening a call never unsettles a record and memory never runs ahead of the disk |
| `EffectModel.FinishAdvances` | runtime/agent/effects.go:154-181 | Finishing moves a record forward or not at all; a settled record never changes |
| `EffectModel.RecoverAdvances` | runtime/agent/effects.go:65-110 | After a restart no record is running, none is lost and none becomes less settled |
| `EffectManagers.EffectManager.BeginCall` | runtime/agent/broker_effects.go:12-36 | A call is journaled as running exactly when it is identified, its id is new and no unresolved record has the same operation; a refused write leaves the table as it was |
| `EffectManagers.EffectManager.Begin` | runtime/agent/effects.go:130-152 | A repeated identity is accepted only for the same request and is not run again |
| `EffectManagers.EffectManager.Finish` | runtime/agent/effects.go:154-181 | A terminal record accepts only its own outcome again; a refused write restores it |
| `EffectModel.UncertaintyBlocks` | runtime/agent/broker_effects.go:38-53 | A call that certainly had no effect frees its operation at once; after any other outcome, success included, an equal call is refused |
| `EffectModel.ReconciliationFrees` | runtime/agent/effects.go:213-224 | Only a reconciliation with an observed terminal state lets an equal call in again |
| `EffectManagers.EffectManager.Reopen` | runtime/agent/effects.go:65-110 | The journal comes up only on well-formed records and only once unfinished ones are durably interrupted |
| `ToolBrokers.ToolBroker.RevokeAttempt` | runtime/toolbroker/broker.go:296-321 | The session is revoked and removed and exactly its unfinished calls are cancelled |
| `ToolBrokers.ToolBroker.SetExecutionPaused` | runtime/toolbroker/broker.go:286-294 | Exactly the open sessions of the execution are paused or unpaused |
| `ToolBrokers.ToolBroker.JournalIntent` | runtime/toolbroker/broker.go:560-573 | The adapter can be reached only through an accepted, durable intent |
| `ToolBrokers.ToolBroker.EnterAdapter` | runtime/toolbroker/journal.go:29-39 | When a call enters the adapter, whatever entered for its operation before is durably resolved; the broker stays standing |
| `ToolBrokers.StepStands` | runtime/toolbroker/broker.go:446-593 | Every section keeps the gate, the slot counts, the journal in step with its file and one unresolved record per operation; and the separation, outside requests aside |
| `ToolBrokers.ToolBroker.JournalOutcome` | runtime/toolbroker/broker.go:584-593 | The outcome is journaled before the answer; if that fails the broker stops |
| `ToolBrokers.ToolBroker.FailPersistence` | runtime/toolbroker/journal.go:12-27 | The broker is marked failed and every call of an open session is cancelled |
| `ToolCatalogue.Catalogue.ReplaceAdapterTools` | runtime/toolbroker/broker.go:164-240 | Accepted exactly when every descriptor is valid and distinct, the adapter is new or the same one is being replaced, and no other adapter holds an identity or name; then that adapter has exactly the new tools and all others are untouched, otherwise nothing changes; identities and names stay inverse tables |
| `ToolCatalogue.NameResolvesExactly` | runtime/toolbroker/broker.go:479-484 | A request by model name finds its tool exactly when no other tool has that name as its identity, which registration does not prevent |
| `MemoryModel.ComputeKeyInjective` | runtime/memory/runtime_state.go:55-57 | Composite keys of different addresses differ, whatever characters they contain, so scopes never share a bucket |
| `RuntimeStates.RuntimeState.Set` | runtime/memory/runtime_state.go:66-124 | A conditional write is accepted only at the version of the entry found, which may have expired and not been pruned yet; an accepted write leaves its successor, within the limits, and nothing else changes but for expired entries |
| `MemoryManagers.MemoryManager.WriteEntry` | runtime/memory/manager.go:281-291 | Reading first removes an expired entry, so at one clock reading a conditional write is accepted only at the live version, 0 when absent or expired |
| `RuntimeStates.RuntimeState.Get` | runtime/memory/runtime_state.go:127-138 | A read returns the entry exactly while it is unexpired and removes it once it is not |
| `RuntimeStates.RuntimeState.DeleteScope` | runtime/memory/runtime_state.go:180-192 | Exactly the bucket of the scope is removed, with its bytes and its count |
| `RuntimeStates.RuntimeState.Rollback` | runtime/memory/runtime_state.go:194-218 | The address holds what was read before, and the counters equal the sums again, even when limits are passed through on the way |
| `RuntimeStates.RuntimeState.PruneExpired` | runtime/memory/runtime_state.go:286-300 | Nothing expired is left, nothing else is lost, and the counters equal the sums |
| `RuntimeStates.RuntimeState.Snapshot` | runtime/memory/runtime_state.go:220-231 | The snapshot lists exactly the unexpired entries, each once |
| `RuntimeStates.RuntimeState.Restore` | runtime/memory/runtime_state.go:233-268 | Restoring a snapshot of a store within its limits never fails, also not for capacity, and gives the same live entries |
| `RuntimeStates.RestoreStep` | runtime/memory/runtime_state.go:239-266 | One entry of a snapshot is expired or is new, valid and sure to fit |
| `MemoryModel.UndoneIsFaded` | runtime/memory/runtime_state.go:194-218 | Undoing one write in the reverse order leaves the original but for expired entries, although other addresses may have expired in between and one key may occur several times |
| `MemoryModel.PartIsNoLarger` | runtime/memory/runtime_state.go:286-300 | What is left of a store takes no more bytes and entries than it |
| `MemoryModel.FadedLooksSame` | runtime/memory/runtime_state.go:127-138 | A store that lost only expired entries is indistinguishable to readers, now and later |
| `MemoryManagers.MemoryManager.WriteBatch` | runtime/memory/manager.go:263-304 | Either every entry is applied and durable, or memory differs from before only by expired entries and the disk not at all; a crash leaves the disk of before or of after |
| `MemoryManagers.MemoryManager.CommitTaskResult` | runtime/memory/manager.go:141-206 | Entries, artifact and attempt are committed together and durably, or the store, the artifact histories, the committed attempts and the disk are as before; a crash leaves one or the other on disk; a repeated attempt changes nothing |
| `MemoryManagers.MemoryManager.CommitThroughCrash` | runtime/memory/manager.go:141-206 | After a commit, the crash in it if there was one, and the restart, everything is as before the commit or as after it |
| `MemoryManagers.MemoryManager.RollbackEntries` | runtime/memory/manager.go:161-166 | The reverse loop returns to the state before the batch, within the limits again |
| `MemoryManagers.MemoryManager.StoreArtifact` | runtime/memory/manager.go:104-130 | One artifact version is appended durably or not at all |
| `MemoryManagers.MemoryManager.ReleaseExecution` | runtime/memory/manager.go:208-242 | Exactly the execution's scope and its attempts are forgotten, durably, or everything is restored |
| `MemoryManagers.MemoryManager.Reopen` | runtime/memory/persistence.go:42-74 | From any valid disk, whatever memory was, a restart yields a state in step with the disk; it fails exactly when a series with an empty name was stored, which saving does not prevent; after a shutdown readers, artifact histories and committed attempts are as before |
| `MemoryManagers.VersionsRise` | runtime/memory/manager.go:281-291 | Over any history of an address, while its entry lives, its version rises with every accepted write, so no two accepted conditional writes share an expected version |
| `MemoryManagers.VersionsRiseAcrossBatches` | runtime/memory/manager.go:263-304 | So they rise across any sequence of accepted batches, whatever comes in between, if it leaves the address alone and the entry lives |
| `MemoryManagers.SeriesIsHistory` | runtime/memory/manager.go:263-304 | Any sequence of accepted batches, with gaps that leave an address alone, is one history of that address |
| `MemoryManagers.BatchIsHistory` | runtime/memory/manager.go:281-291 | An accepted batch, as WriteBatch describes it, is a history of every address |
| `MemoryManagers.HistoriesJoin` | runtime/memory/manager.go:263-304 | Batches form one history of an address if what lies between leaves that address alone |
| `MemoryManagers.LeavesAlone` | runtime/memory/manager.go:208-242 | Failed operations, reads and restarts leave every address alone but for expiry, and the release of an execution those of all other scopes |
| `ArtifactStores.ArtifactStore.Save` | runtime/memory/artifact_store.go:44-82 | The series grows by the next version, pruned to the limit, and the three indexes agree with the latest versions again |
| `ArtifactStores.ArtifactStore.UpdateVersion` | runtime/memory/artifact_store.go:342-372 | Fails exactly for a missing series; otherwise appends the latest version with the new data |
| `ArtifactStores.ArtifactStore.Delete` | runtime/memory/artifact_store.go:307-329 | Exactly the series is removed, from all indexes too |
| `ArtifactStores.ArtifactStore.RestoreSeries` | runtime/memory/artifact_store.go:148-175 | The series has the given history again, or is gone, and the indexes agree |
| `ArtifactStores.ArtifactStore.Restore` | runtime/memory/artifact_store.go:178-206 | A valid snapshot is restored with rebuilt indexes exactly when no series has an empty name |
| `ArtifactStores.ArtifactStore.GetVersion` | runtime/memory/artifact_store.go:119-133 | Succeeds exactly on the retained window of versions |
| `ArtifactStores.ArtifactStore.FindByProducer` | runtime/memory/artifact_store.go:248-259 | Exactly the latest versions with that producer, each once, as a full scan would find |
| `ArtifactStores.ArtifactStore.FindByType` | runtime/memory/artifact_store.go:262-273 | Exactly the latest versions of that type, each once |
| `ArtifactStores.ArtifactStore.FindChildren` | runtime/memory/artifact_store.go:293-304 | Exactly the latest versions that declare the parent, each as often as it does |
| `ArtifactModel.LookupIsFilteredScan` | runtime/memory/artifact_store.go:248-304 | An index lookup equals the filtered scan of latest versions, with multiplicity |
| `ArtifactModel.AgreementFixesContents` | runtime/memory/artifact_store.go:148-175 | Equal histories imply equal index contents as multisets, so undoing a save restores the indexes |
| `ArtifactModel.AppendedIsValid` | runtime/memory/artifact_store.go:56-68 | Histories stay runs of consecutive versions within the limit, also after pruning |
| `ArtifactModel.RemoveIdContents` | runtime/memory/artifact_store.go:331-338 | Exactly one occurrence is removed |
| `RouterModel.NoRouteIffNoneEligible` | runtime/routing/router.go:406-527 | For text, coding and image, selection answers nothing exactly when the diagnostics count no eligible route, and otherwise an eligible one |
| `RouterModel.CandidatesExistIffEligible` | runtime/routing/route_diagnostics.go:21-61 | The exact condition of the agreement: a known modality, or an open route of the unknown one, or no open non-image route |
| `RouterModel.SelectionIsUnique` | runtime/routing/router.go:406-606 | The answer depends on the set of routes, not on the order of the catalogue or the sorting algorithm, if no enabled keyed and unkeyed routes of one modality share a slot |
| `RouterModel.OrderFreeExactly` | runtime/routing/router.go:406-606 | The answer is independent of the order for every state of the router and every question exactly under that condition |
| `RouterModel.MixedSlotDisagrees` | runtime/routing/router.go:412-420 | For every pair of routes that violates it there is a question that gets a route in one order and none in another |
| `RouterModel.MoreEffortIsNotLess` | runtime/routing/router.go:587-596 | A higher effort tier never yields a less capable route |
| `RouterModel.LessIsTotal` | runtime/routing/router.go:559-585 | The comparator is a strict total order on routes with distinct keys and costs that are known or -1 |
| `RouterModel.StrayCostsDoNotCompare` | runtime/routing/router.go:576-583 | With other negative costs it is not: two routes can be incomparable |
| `Routers.ModelRouter.SelectModel` | runtime/routing/router.go:383-606 | The cascade, preferences, order and rank, and the task counted on its slot; tallies stay exact if the task was not tracked |
| `Routers.ModelRouter.GatherCandidates` | runtime/routing/router.go:406-519 | The first non-empty stage of the fallback cascade, with missing capacities defaulted on the way |
| `Routers.ModelRouter.ApplyPreferences` | runtime/routing/router.go:529-556 | Preferences narrow the candidates but never empty them |
| `Routers.ModelRouter.RouteAvailability` | runtime/routing/route_diagnostics.go:21-61 | The counters are the sizes of the sets of potential, eligible and untried routes and of the providers no route of which was tried |
| `Routers.ModelRouter.TrackForcedModel` | runtime/routing/router.go:609-622 | A forced task is counted on the slot of the first route with that key or model, or not at all |
| `Routers.ModelRouter.Release` | runtime/routing/router.go:821-838 | The task is no longer tracked and every counter still equals the tracked tasks of its slot |
| `Routers.ModelRouter.UpdateProbability` | runtime/routing/router.go:272-360 | The task is no longer tracked, counters stay exact, only a success in a half-used slot adds one to its capacity, up to 200, and probabilities stay between 0 and 1 |
| `Routers.FillUnsetSlot` | runtime/routing/router.go:609-622 | Tracking two forced tasks reaches the state in which the order of the catalogue decides: two in flight on a slot whose capacity nothing has set |
| `Routers.ModelRouter.LearnRequestLimit` | runtime/routing/route_learning.go:177-193 | Of all limits named for a route the smallest is kept |
| `Routers.ModelRouter.RoutesOfModel` | runtime/routing/route_learning.go:197-207 | Exactly the keys of the routes to that model through that provider, as the catalogue first had them |
| `Routers.ModelRouter.PenalizeProvider` | runtime/routing/router.go:652-704 | Only a rate limit outside the window of the slot halves the capacity, never below 1, and is recorded as a halving; the credential's routes cool down |
| `Routers.HalvingsStayApart` | runtime/routing/router.go:675-690 | The router keeps, through all its methods, that two halvings of one slot are a whole window apart, however many tasks report the limit |
| `Routers.ModelRouter.CoolProviderSlot` | runtime/routing/router.go:754-763 | Cooldowns of the slot's routes only get longer |
| `Routers.ModelRouter.PenalizeModel` | runtime/routing/router.go:766-782 | Exactly the routes of the model are switched off and marked out for 24 hours, never shorter than before |
| `Routers.TallyNeedsRelease` | runtime/routing/router.go:602-603 | Tracking keeps the tally exactly when the task was not tracked |
| `Routers.RankedAtIndex` | runtime/routing/router.go:559-598 | Sorting and taking the tier's index yields the route with that many candidates before it |
| `Dispatching.Dispatcher.RunTask` | runtime/agent/dispatcher.go:314-670 | Whatever happens in between: the task ends untracked with exact counters and without a broker session or worker slot; what it published is a conversation in which each attempt starts and finishes once under a new identity, at most the allowed number, followed by one verdict, a success only after an attempt that succeeded; another attempt follows only a failure that is safe to retry; its attempts use exactly the routes selected for it, never one that an earlier attempt excluded, and after a request that was too large for a route no route to that model through that provider |
| `Dispatching.Dispatcher.Attempts` | runtime/agent/dispatcher.go:366-648 | The loop: at most the allowed attempts, and their routes, signals and selections as one account |
| `Dispatching.Dispatcher.PickRoute` | runtime/agent/dispatcher.go:386-424 | A route is looked for at most 25 times, the task is tracked exactly if it got one, and never one that the task excluded |
| `Dispatching.Dispatcher.RunAttempt` | runtime/agent/dispatcher.go:470-513 | No session and no slot of the task is left on any path |
| `Dispatching.Dispatcher.Conclude` | runtime/agent/dispatcher.go:562-648 | Going on to another attempt implies a failure that is safe to retry, an untracked task and an up-to-date ledger |
| `Dispatching.RetryRoutes.RecordFailure` | runtime/agent/retry_routes.go:43-78 | A route is retried with a smaller output bound at most once; other rejections of the request or the model exclude it |
| `Dispatching.RetryRoutes.Started` | runtime/agent/retry_routes.go:29-36 | The route counts as tried and a preference is used up |
| `Dispatching.AnotherAttempt` | runtime/agent/retry_routes.go:43-78 | A route of the catalogue that the ledger permits is none that an earlier attempt excluded, nor one of a model it excluded |
| `Dispatching.Dispatcher.Penalize` | runtime/agent/dispatcher.go:573-642 | What a failure teaches: capacities change only by a rate limit, and the task excludes all routes of a model exactly when its smallest request exceeds the limit named |
| `Dispatching.LedgerGrows` | runtime/agent/dispatcher.go:562-648 | The ledger remembers every route that an attempt excluded, all routes of a model whose request limit is below what the task needs, and every route that named an output bound |
| `Waitlist.WaitlistManager.Pump` | cmd/forge/waitlist.go:542-758 | Through every exit the counters are true, so no more items are active than before or than the limit, and no group of sequential items gets a second active one; a sequential item starts only when its group is idle at that moment and none of its group before it is left pending; exactly the items that went from pending to running are launched, in order, durably and never twice; unless a write is refused an item is left pending only at the limit or behind its busy group |
| `Waitlist.WaitlistManager.Visit` | cmd/forge/waitlist.go:567-755 | One item: started durably and launched, or failed, or put back when the queue could not be written; counters exact in each case |
| `Waitlist.WaitlistManager.Launch` | cmd/forge/waitlist.go:593-755 | A durably started item is launched, or it fails and no longer counts |
| `Waitlist.WaitlistManager.CountActive` | cmd/forge/waitlist.go:549-560 | The initial counters are the true ones, overall and per group |
| `Waitlist.WaitlistManager.Mark` | cmd/forge/waitlist.go:577-592 | A status change and its counter changes go together |
| `Waitlist.WaitlistManager.Predecessor` | cmd/forge/waitlist.go:593-620 | Files are inherited from the last finished earlier item of the same group, and only within a group, which makes the unconditional group decrement correct |
| `Waitlist.WaitlistManager.UpdateStatus` | cmd/forge/waitlist.go:417-430 | Completed and failed are final, and no other item changes |
| `Waitlist.WaitlistManager.Load` | cmd/forge/waitlist.go:444-481 | After a restart nothing is active: what was has failed, so it is not launched again |
| `Waitlist.WaitlistManager.Enqueue` | cmd/forge/waitlist.go:345-400 | A queue that cannot be written stays as it was |
| `Waitlist.WaitlistManager.Remove` | cmd/forge/waitlist.go:402-415 | At most one inactive item is dropped, and nothing launched becomes pending, on disk either |
| `Waitlist.WaitlistManager.StopRuntime` | cmd/forge/waitlist.go:98-132 | Nothing starts any more, and exactly the affected items have failed |
| `Waitlist.StatusCounts` | cmd/forge/waitlist.go:577-592 | Starting or stopping an item moves each counter by exactly one |
| `Waitlist.IdleGroup` | cmd/forge/waitlist.go:569-575 | An idle group has no earlier sequential item that was passed over |
| `Replacement.RunKeeps` | runtime/memory/persistence.go:118-132 | From the main file in place, with every operation free to fail and a crash before any: the old or the new snapshot loads, the new one after success, the old one after an error |
| `Replacement.SafeExactlyWhenIntact` | runtime/agent/effects.go:263-275 | One replacement is safe, for all faults and crashes, exactly when the main file is there or there is nothing to lose |
| `Replacement.SafeRetryExactly` | runtime/agent/execution_store.go:111-135 | Repeating failed attempts is safe exactly when there is nothing to lose, or when there is a single attempt and the main file is there: with two attempts the only copy can be removed |
| `Replacement.SeriesLoads` | runtime/memory/persistence.go:42-74 | Over any series of saves that each began with the main file in place, what loads was written by a save that reported no error, and no later save reported success; or it is the initial snapshot and no save reported success |
| `Replacement.SnapshotFile.Replace` | runtime/memory/persistence.go:118-131 | The renames and removes, in order, with their error branches |
| `Replacement.SnapshotFile.Save` | runtime/agent/effects.go:263-275 | Success leaves the new snapshot, an error the old one, a crash either |
| `Replacement.SnapshotFile.SaveWithRetries` | runtime/agent/execution_store.go:111-135 | The five attempts, each starting from what the last one left |

## Left out

- Attempt history records and stored artifacts of an execution: written, never read by the engine; the active attempt is modelled.
- Maps that are missing rather than empty after decoding a snapshot: both read as empty here.
- JSON encoding, hashing, file permissions and real time: a size function, the arguments themselves, and an abstract clock.
- Version counters wrap at 2^32 or 2^64 in the source and are unbounded here.
- The event bus with its queue limits and goroutine scheduling: handlers are atomic steps in any order.
- HTTP handling, authentication, grants and argument checks of a tool call: one arbitrary verdict.
- A broker without an effect journal, which then refuses tools that may have an effect.
- The recorded response that a repeated call id gets back: only that it starts no second call.
- An adapter that panics is one that reports failure with uncertain effect.
- BrokerSafety.EntriesAreSeparated: outside requests that settle a record between the intent and the entry of its call are excluded, because the property fails with them (BrokerWitness.PrematureBreaks).
- EngineProgress.RunningExecutionsProgress: restarts are excluded, because a restart of a paused execution leaves interrupted nodes that resuming does not dispatch.
- RuntimeStates.RuntimeState.Restore: claims nothing for lists that are not snapshots of a store; a list with one address twice would leave the counters too high.
- Waitlist.WaitlistManager.Pump: the capacity claim is about the pass only; pausing and resuming from outside can activate pending items.
- What a launch writes into the execution's memory, prompt history and workspace: only that each step can fail.
- Routers.ModelRouter.PenalizeProvider: a whole provider family, dead routes and the cooldown and limit of a rate window are read by selection but their updates are not modelled.
- Dispatching.Dispatcher.RunTask: commands, environments, device admission and time limits are one arbitrary outcome per attempt.
- ArtifactStore.FindByParent, GetByExecution, FindAll and the session state: plain scans.
- Effort names and tier deltas: tables.
- Provider discovery, the text classification of provider errors, and the routing matrix on disk.
- Process spawning, environments, containers, the MCP client, plugins and Studio.
- The queue's file: identifiers that fail its format check are dropped on load, and a corrupt file is set aside.
