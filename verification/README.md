# Shiroe: a verified model of its core

Shiroe is a local control plane that keeps its history in a hash-chained event log and its current state in tables
folded from that log. This project models the parts of it that carry promises over whole histories and proves those
promises with Dafny 4.11. `dafny verify dfyconfig.toml` checks everything.

| File | What it models |
|---|---|
| `Common.dfy`, `Paths.dfy` | strings and paths in Python's order, `sorted`, relative path checks |
| `Projections.dfy` | the current-state tables and the one reducer that folds events into them |
| `Ledger.dfy`, `Records.dfy`, `Approvals.dfy`, `Capabilities.dfy` | the append-then-fold writers of memory records, approvals and capabilities |
| `Events.dfy` | the event log on disk: sealing, head recovery, verification, replay, monthly files |
| `Projects.dfy` | the log's files together with the tables folded from them |
| `AppendProtocol.dfy` | any number of writers stepping through an append under the lockfile, with crashes |
| `Compiler.dfy`, `Readiness.dfy` | the Work Graph compiler with its depth-first cycle search, and the readiness calculation |
| `Governance.dfy`, `GovernedRuns.dfy` | the rules every run, resume, decision, crash and replay obeys, as a state machine |
| `Orderings.dfy` | stored graphs stay what the compiler accepted, over every run of that machine |
| `Replans.dfy` | planning a graph again, after a crash or over what is stored: when it keeps all that, exactly |
| `WorkStore.dfy`, `Supervisor.dfy` | the work store and the run loop; each of their writes is a step of that machine |
| `Leases.dfy` | worker leases and the dispatcher |
| `Glob.dfy` | the glob translator of the canon audit |
| `Spans.dfy`, `Archive.dfy` | the privacy scrubber's span arithmetic and its nested-archive scan |
| `Bundle.dfy`, `Extraction.dfy` | artifact bundles: writing, reading, and swapping into place |

How the pieces are tied together:

- `Ledger.Valid` says the live tables are the fold of the log minus exactly the events whose writer died before its
  commit; every writer keeps it, and `Rebuild` restores the full fold.
- `Supervisor` may only call `WorkStore.Write` where the rules of `Governance` allow the write, so every theorem of
  `GovernedRuns` about legal runs holds of everything the run loop does. A legal run may plan any graph at any time,
  as the code does; `Tidied` and `SortableRun` say that each was planned in order, which a new graph and the same plan
  retried after a crash always are (`RetryIsPlannable`). Adapters, gates, policy verdicts, spending caps, reviewers,
  people and failures are choices made anew at each step.
- `Project` holds the files and the ledger at once: the ledger's events are the log's as it is read back, and a replay
  is refused exactly as verification is.
- `AppendProtocol` and `EventLog` share the same recovery and sealing functions, and one writer's uninterrupted steps
  are proved to amount to what `EventLog.Append` guarantees.

Where the code does not do what one might expect of it, the model follows the code and the difference is a theorem:

- The head marker names the tail exactly when the last line write, marker write or recovery of the run was not a line
  write (`HeadCurrentIff`). With the lock free it can lag after a crash between line and marker and a restart
  (`HeadMayLagAfterRestart`), and then only while no live instance has recovered it. Replay refuses in such a state
  exactly when a marker exists at all (`ReachableReplayIff`).
- `verify_chain` and replay accept an empty log in place of a full one, the marker still in place, and with the marker
  deleted every prefix of a valid chain (`TamperEvident`); recovery refuses the empty log if there is a marker
  (`TruncationRefused`).
- A failed head write that does not end the process is harmless exactly when no other live instance has recovered its
  head (`FailedHeadWriteSafeIff`); otherwise that instance's next append forks the chain (`FailedHeadWriteForks`).
- Clearing the lockfile of a dead process beside live ones is harmless exactly when none of those has recovered its
  head, or the holder did not die between line and marker (`ClearedLockSafeIff`); otherwise such a process forks the
  chain (`ClearedLockForks`).
- An append whose clock went back across a month boundary breaks the chain as it is read back
  (`AppendKeepsChainIff`).
- An event that was logged but not applied comes back with a replay. A lost revocation is undone by a later live
  transition (`LostRevocationIsForgotten`); it holds exactly when it is the last thing logged about the capability
  (`ReplayedStateIsLastSaid`). A lost digest drift followed by a live transition leaves an executable capability with
  a digest nobody approved (`LostDriftIsExecutable`), and nothing else does (`ExecutableMeansApprovedDigest`,
  `ReplayKeepsApprovalIff`).
- `create` checks nothing that is stored. A plan that was lost in a crash and is retried with fewer edges lets a task
  complete whose predecessor a replay then brings back as pending (`LostPlanRetriedWithLess`). For plain tasks that can
  happen exactly when a lost plan has left an edge between tasks that the new one does not imply
  (`OrderSurvivesIff`). A graph planned again keeps its old edges: both together may be a cycle, and the run then
  fails with no node stuck (`ReplannedBackwards`, `UntangledIff`); planning a completed task again puts it back to
  pending beneath what it led to (`ReplannedWhileDone`).
- A run's list of blocked nodes may hold nodes that completed: if the write that pauses the graph fails and is caught,
  the node is listed and tried again. The listed nodes are the run's block writes, and all of them are blocked exactly
  when each block write that the graph was not paused after concerned the node the run paused on in the end
  (`ListedAreBlockedIff`, `BlockedThenCompleted`).
- Closing a lease checks its state before the transaction, so a lease that another process has just closed or expired
  is rewritten. A closed lease keeps its state exactly when no closing comes late like that (`RunSound`,
  `LateClosingRewrites`).
- A lease stays active until it expires if the work package cannot be built or the acquisition event cannot be
  written, and after an exception the dispatcher does not catch or a closing whose own write fails
  (`NodeDispatcher.Invoke`).
- A bare `**` does not match a newline, so globs with one agree with their reading only on newline-free paths
  (`FaithfulEverywhereIff`, `BareStarsMissNewline`).
- Archive members above the size cap, nested archives included, are skipped without raising a flag, so "every eligible
  leaf" means every leaf within it.
- `extract_artifact_bundle` may raise with the new tree already in place, after a failed removal of the backup; if a
  plain file stood at the destination it always does, and leaves that file at the backup path. A bundle that lists a
  path and another below it is read but never extracted (`Site.Extract`).

## Model

| member | source | states |
|---|---|---|
| Projections.UnappliedIsNoOp | shiroe/storage/projections.py:34-58 | an event no reducer interprets, or one lacking a required field, changes no table |
| Projections.FoldExceptNothing | shiroe/storage/projections.py:34-58 | tables that lost no event are the fold of the whole log |
| Ledger.Ledger.Record | shiroe/storage/records.py:105-114 | append, then fold: the new log and tables for a commit, a lock timeout and a death in between; live stays the fold minus the lost events |
| Ledger.Ledger.RecordOver | shiroe/capabilities/store.py:157-169 | the same for a writer that also updates a row directly, provided the reducer overwrites that update |
| Ledger.Ledger.Note | shiroe/nodes/store.py:277-285 | a writer that appends without folding leaves the tables, the fold and what is lost as they were |
| Ledger.Ledger.Rebuild | shiroe/storage/events.py:342-380 | once the chain has verified, a replay brings the tables to the fold of the whole log and nothing is lost any more |
| Ledger.LedgerStep | shiroe/storage/records.py:7-9 | one appended event extends the fold by itself, or by nothing when its writer died |
| Ledger.LifecycleUpdateAbsorbed | shiroe/capabilities/store.py:163-168 | the direct UPDATE of a transition is absorbed by the reducer, whatever time it stamped |
| Ledger.DriftUpdateAbsorbed | shiroe/capabilities/store.py:192-198 | so is that of a digest refresh |
| Records.RowIsExplained | shiroe/storage/records.py:157-212 | in any fold with any losses a record's row is, field by field, its last applied write under the last mark applied since |
| Records.PresentIffWritten | shiroe/storage/records.py:169-199 | a record exists exactly when some write of it was applied |
| Records.RecordStore.WriteRecord | shiroe/storage/records.py:62-114 | unknown fields are refused before anything is logged; otherwise exactly this record and its sources change |
| Records.RecordStore.MarkRecord | shiroe/storage/records.py:117-154 | superseding or archiving moves status, archived flag and time of that row alone; an unknown id only logs |
| Events.TailCommits | shiroe/storage/events.py:116-122 | two valid logs with the same tail hash are equal line by line |
| Events.HashesDistinct | shiroe/storage/events.py:163-189 | within a valid log all hashes differ from each other and from the genesis sentinel |
| Events.RecoverySucceedsIff | shiroe/storage/events.py:191-219 | head recovery of a valid log succeeds exactly when the marker is missing, genesis or the hash of a logged event, and then leaves it at the tail, absent only for an empty log |
| Events.TruncationRefused | shiroe/storage/events.py:191-219 | dropping a suffix from a log whose head was current is refused by recovery exactly when there is a marker, and by verification exactly when there is one and something is left |
| Events.TamperEvident | shiroe/storage/events.py:289-314 | against a current marker exactly the log itself and the empty one verify; without a marker every valid chain does, each prefix of the log included |
| Events.ReplayAcceptedIff | shiroe/storage/events.py:289-314 | for a valid log and a marker recovery accepts, verification and replay accept exactly when the log is empty, the marker is missing or it is current |
| Events.DepositSplits | shiroe/storage/events.py:156-161 | a line goes, as read back, after its own and earlier months and before all later ones |
| Events.ReadOrderIsAppendOrderIff | shiroe/storage/events.py:280-287 | reading order stays append order exactly when no later month holds a line |
| Events.MonthsReadInAppendOrder | shiroe/storage/events.py:280-287 | any append sequence whose months never decrease reads back in append order from files in path order |
| Events.AppendKeepsChainIff | shiroe/storage/events.py:253-277 | an append leaves a valid chain exactly when sealed over the tail hash with no later month on disk |
| Events.SpliceRepeatsHash | shiroe/storage/events.py:163-189 | a line inserted before another in a valid chain could only link if it repeated an earlier hash |
| Events.InstanceAppendsSafelyIff | shiroe/storage/events.py:221-227 | an instance's append keeps the chain valid exactly when it has yet to recover or the marker is current, and no later month holds a line |
| Events.EventLog.IterEvents | shiroe/storage/events.py:280-287 | reading file after file yields the log |
| Events.EventLog.ValidatedTail | shiroe/storage/events.py:163-189 | the loop accepts exactly the valid chains and returns the tail and the set of all hashes |
| Events.EventLog.RecoverHead | shiroe/storage/events.py:191-219 | the marker becomes what recovery says; on refusal nothing changes |
| Events.EventLog.LoadHead | shiroe/storage/events.py:221-227 | recovery runs once per instance; later calls trust the marker |
| Events.EventLog.Append | shiroe/storage/events.py:253-277 | the new files, marker and lock for success and every refusal; a success appends one line sealed over the loaded head |
| Events.EventLog.VerifyChain | shiroe/storage/events.py:289-314 | it returns normally exactly for a valid chain whose tail is the marker |
| Events.EventLog.ReplayInto | shiroe/storage/events.py:316-380 | replay succeeds exactly when the chain verifies, leaves the fold of the log, and reports which domains were seen and which had an event not applied; a refusal leaves the tables |
| Projects.Project.Record | shiroe/storage/records.py:105-114 | append to the files, then fold: refused as the log refuses; a success adds the sealed line's event to the ledger, which stays the log as read back if no later month holds a line |
| Projects.Project.Replay | shiroe/storage/events.py:316-380 | a replay is refused exactly when the files do not verify, and then changes nothing; otherwise the tables are the fold of the files and nothing is lost |
| AppendProtocol.StepKeepsInv | shiroe/storage/events.py:253-277 | every step of every writer keeps the protocol invariant and only extends the log; recovery never refuses in a reachable state |
| AppendProtocol.HeadCurrentIff | shiroe/storage/events.py:191-277 | in every reachable state the marker names the tail exactly when the last of the line writes, marker writes and recoveries was not a line write |
| AppendProtocol.AnyRunIsOneChain | shiroe/lock.py:63-104 | after any interleaving with crashes and restarts the log is one valid chain holding every envelope ever returned, recovery succeeds, and the marker is current exactly when the last line write of the run was followed by a marker write or a recovery; with the lock free it lags only while no live instance has recovered it |
| AppendProtocol.ReachableReplayIff | shiroe/storage/events.py:289-314 | in every reachable state verification accepts exactly when there is no marker yet or it is current |
| AppendProtocol.LogOnlyGrows | shiroe/storage/events.py:253-277 | no later step of a run rewrites or reorders what was logged |
| AppendProtocol.WrittenMeansLagging | shiroe/storage/events.py:268-274 | between line and marker the marker is never current |
| AppendProtocol.FailedHeadWriteSafeIff | shiroe/storage/events.py:229-237 | a head write that raises keeps the invariant exactly when no other live instance has recovered its head |
| AppendProtocol.FailedHeadWriteForks | shiroe/storage/events.py:221-227 | otherwise that instance's next append forks the chain |
| AppendProtocol.ClearedLockSafeIff | shiroe/lock.py:63-104 | freeing the lock of a dead holder keeps the invariant exactly when no live instance has recovered its head or the last disk write of the run was no line |
| AppendProtocol.ClearedLockForks | shiroe/storage/events.py:221-227 | otherwise that instance's next append forks the chain |
| AppendProtocol.HeadMayLagAfterRestart | shiroe/storage/events.py:191-219 | a run after which the lock is free, the head lags the log and verification accepts, since no marker was ever written |
| AppendProtocol.SoloRunIsAppend | shiroe/storage/events.py:253-277 | one writer's uninterrupted steps end in exactly the log, marker, lock and instance state of a successful EventLog.Append |
| AppendProtocol.SoloRefusal | shiroe/storage/events.py:253-277 | a refused envelope writes no line and gives the lock back; at most the recovered marker remains |
| Compiler.FinishOrderMeansNoCycle | shiroe/work/compiler.py:64-99 | a graph whose nodes can be listed with every edge's target first has no directed cycle |
| Compiler.AcyclicHasOrder | shiroe/work/compiler.py:64-99 | and every graph without a directed cycle can be listed like that |
| Compiler.RejectCycles | shiroe/work/compiler.py:64-99 | the stack-based search terminates and reports a cycle exactly when the edge relation has one; otherwise its finish order lists every target first |
| Compiler.VisitFrom | shiroe/work/compiler.py:70-95 | one root's search: a node met again while open closes a real cycle, and a clean end finishes everything reachable |
| Compiler.StackIsPath | shiroe/work/compiler.py:70-95 | the open nodes form a path through the graph |
| Compiler.HitIsCycle | shiroe/work/compiler.py:84-88 | an edge from the top of the stack to an open node closes a cycle through the stack |
| Compiler.CheckSpec | shiroe/work/compiler.py:102-121 | a specification passes exactly when its nodes and edges are well formed, ids distinct and endpoints known |
| Compiler.CompileWorkGraph | shiroe/work/compiler.py:102-136 | compilation succeeds exactly for well-formed acyclic specifications with an acceptable id, objective, status and version; it reports a cycle exactly for well-formed cyclic ones and a bad graph exactly for the rest of the well-formed ones, and sorts nodes and edges without loss |
| Readiness.Predecessors | shiroe/work/readiness.py:12-20 | the predecessor map is the reversed edge relation |
| Readiness.ReadyNodeIds | shiroe/work/readiness.py:12-27 | a node is ready exactly when pending with every predecessor completed or skipped; the result is in order without duplicates |
| Readiness.AcyclicMakesProgress | shiroe/work/store.py:380-397 | on an orderable graph of pending and settled nodes with one pending, some node is ready |
| Governance.ActKeepsRules | shiroe/execution/supervisor.py:89-261 | every act keeps order, ready set, attempt rows and call budgets, for the live tables and for those a replay would rebuild; a creation does if it is in order |
| Governance.ActKeepsFold | shiroe/storage/records.py:7-9 | every act keeps live as the fold minus the lost events and full as the fold |
| Governance.StepKeepsBoard | shiroe/work/store.py:239-278 | one node's status change keeps completed targets behind settled sources |
| Governance.CreateKeepsRules | shiroe/work/store.py:101-151 | a plan keeps them, applied or lost, if what is live of the graph is in it unchanged and has not begun, the log holds only its own edges at its nodes, and those between tasks follow from the ones that will be live |
| Governance.StartKeepsRules | shiroe/execution/supervisor.py:378-396 | an attempt row written before the call keeps the call count below the rows and the rows within the budget |
| Governance.ReplayKeepsRules | shiroe/storage/events.py:316-380 | all of it survives a replay, which may resurrect events a crash had hidden |
| Orderings.StoredGraphsAreOrderable | shiroe/work/store.py:101-151 | in every run whose graphs are planned in order and without a cycle, every stored graph is orderable, in the live tables and in those a replay would rebuild |
| Orderings.ActKeepsOrder | shiroe/work/store.py:101-300 | every act, creations and replays included, keeps each graph acyclic and each node and edge in a stored graph; a creation does if what the log holds of the graph and the plan have no cycle together |
| Orderings.OrderableIff | shiroe/work/compiler.py:64-99 | a stored graph whose edges join its own nodes is orderable exactly when it has no directed cycle |
| Replans.RetryIsPlannable | shiroe/work/store.py:101-151 | a compiled graph that is not live, and of which the log holds no edge the plan does not have, is planned in order, applied or lost again |
| Replans.OwnsIff | shiroe/storage/projections.py:326-380 | after a plan all edges a replay rebuilds join nodes of their own graph exactly when those logged at its nodes are its own |
| Replans.UntangledIff | shiroe/storage/projections.py:326-380 | and the graph is orderable exactly when the logged edges and those of the plan have no cycle together |
| Replans.OrderSurvivesIff | shiroe/work/store.py:101-151 | planning a graph of plain tasks that is not live keeps every continuation in order exactly when no lost plan left an edge between tasks that the new one does not imply |
| Replans.LostPlanRetriedWithLess | shiroe/cli/plan.py:20-33 | a legal run that completes a task before its predecessor: the plan with the edge was lost, and retried without it |
| Replans.ReplannedBackwards | shiroe/storage/projections.py:326-380 | a legal run after which nothing is ready, every node is pending and the graph has a cycle: planned twice, the second time the other way round |
| Replans.ReplannedWhileDone | shiroe/storage/projections.py:351-373 | planning a completed task again without a completed task behind it is allowed and breaks the order at once |
| GovernedRuns.RunKeepsInv | shiroe/execution/supervisor.py:77-264 | the rules hold after any mix of runs, resumes, decisions, crashes, replays and plans in order |
| GovernedRuns.CompletionFollowsOrder | shiroe/execution/supervisor.py:89-148 | in every state such runs reach, for an edge between non-approval nodes, a completed target has a completed or skipped source, live and rebuilt |
| GovernedRuns.CallsAreBounded | shiroe/execution/supervisor.py:158-167 | across all runs and crashes a node's capability is called at most max(1, max_attempts) times |
| GovernedRuns.ApprovedMeansHuman | shiroe/policy/approval_service.py:143-176 | in any fold of service-made events an approved row's last applied event is a human's approving decision |
| GovernedRuns.ApprovalsAreHuman | shiroe/policy/approval_service.py:143-216 | so it is after every run: no later decision, request or stale event overrides it |
| GovernedRuns.CompletedHasCause | shiroe/execution/supervisor.py:137-148 | in every state such runs reach each completed node, live or rebuilt, has its status from an act that logged its completion and was allowed to, and no applied event has set the status since |
| GovernedRuns.CompletedNodesWereReady | shiroe/execution/supervisor.py:90-102 | for every completed non-approval node, live or as a replay would rebuild it, every predecessor of any kind was settled at the readiness calculation of the pass that gave it that status |
| GovernedRuns.CompletedTasksWereApproved | shiroe/execution/supervisor.py:122-136 | and if it was approval_required, in that pass its latest approval was approved for its present scope by a human |
| GovernedRuns.CompletedApprovalsWereHuman | shiroe/work/store.py:360-378 | every completed approval node, live or rebuilt, was given that status on a latest approval with its scope, decided by a human |
| GovernedRuns.OnlyTheseComplete | shiroe/execution/supervisor.py:137-148 | one act completes a live node only by an applied completion, or as a replay of a logged one |
| WorkStores.GraphOf | shiroe/work/store.py:153-187 | the stored graph has exactly the stored nodes and edges of its id |
| WorkStores.GraphOfIsWhole | shiroe/work/store.py:153-187 | readiness over the stored graph is the rules' ready set, node by node |
| WorkStores.WorkStore.Create | shiroe/work/store.py:101-151 | whatever is stored, the graph, its edges and its nodes, all pending, appear at once or not at all, and no node outside it changes; a plan in order keeps the store valid |
| WorkStores.WorkStore.CompileAndCreate | shiroe/work/store.py:101-151 | a specification is stored exactly when it compiles and the write commits; if it is planned in order it is then orderable; otherwise nothing changes |
| WorkStores.WorkStore.Write | shiroe/work/store.py:207-300 | a store write appends its event and folds it, and is a legal act; a timeout changes nothing |
| WorkStores.WorkStore.Replay | shiroe/storage/events.py:316-380 | a replay is a legal act and yields the fold of the log |
| Supervisors.Supervisor.MoveStatus | shiroe/work/store.py:257-278 | a status change is refused on a stale version, else moves exactly that node and bumps its version |
| Supervisors.Supervisor.SetGraphStatus | shiroe/work/store.py:207-228 | only the graph row moves |
| Supervisors.Supervisor.RecordOutput | shiroe/work/store.py:280-300 | the output is stored under the expected version or nothing changes |
| Supervisors.Supervisor.LatestApproval | shiroe/work/store.py:334-358 | a request of maximal time among those governing the node, or none when none governs it |
| Supervisors.Supervisor.AssertCurrent | shiroe/policy/approval_service.py:192-216 | afterwards the request has the node's scope or is stale; at most that one request changed |
| Supervisors.Supervisor.EnsureApprovalRequest | shiroe/execution/supervisor.py:266-303 | afterwards some request governs the node |
| Supervisors.Supervisor.TaskApprovalCurrent | shiroe/execution/supervisor.py:305-317 | it clears the node exactly on a latest approval that is approved and current |
| Supervisors.Supervisor.ProjectDecision | shiroe/work/store.py:368-378 | an approval node gets exactly the status its decision stands for, or nothing changes |
| Supervisors.Supervisor.RefreshReadiness | shiroe/work/store.py:360-378 | every approval node gets the status of its latest decision, without one it keeps its own, and no other node moves |
| Supervisors.Supervisor.UnblockTasks | shiroe/execution/supervisor.py:348-363 | exactly the blocked non-approval nodes of the graph become pending |
| Supervisors.Supervisor.CalculateReadyNodes | shiroe/work/store.py:380-397 | the ready ids are the rules' ready set, in order |
| Supervisors.Supervisor.BlockAndPause | shiroe/execution/supervisor.py:114-117 | the node is blocked and the graph paused, or a failure fell before or between |
| Supervisors.Supervisor.StartAttempt | shiroe/execution/supervisor.py:378-396 | one more running attempt row of the node and nothing else |
| Supervisors.Supervisor.FinishAttempt | shiroe/execution/supervisor.py:412-444 | the attempt's state moves; the number of rows does not |
| Supervisors.Supervisor.CallAdapter | shiroe/execution/supervisor.py:168-233 | one try adds at most one attempt row, never settles the node, and reports delivery only when outputs and evidence were delivered |
| Supervisors.Supervisor.FinishNode | shiroe/execution/supervisor.py:234-248 | the node completes exactly when that is reported; review failure blocks and pauses |
| Supervisors.Supervisor.InvokeWithRetry | shiroe/execution/supervisor.py:158-252 | the retry loop ends within the persisted budget, with the outcome it reports; it lists the node once for each of its block writes, of which all but the one it paused on were not followed by a pause |
| Supervisors.Supervisor.DispatchNode | shiroe/execution/supervisor.py:102-261 | the reported end of a node's dispatch is the status it has; no other node moves |
| Supervisors.Supervisor.DispatchReady | shiroe/execution/supervisor.py:102-261 | a whole pass completes every ready node, or stops with a true summary; while it goes on, the lists of completed and of blocked nodes hold only completed ones |
| Supervisors.Supervisor.RunLoop | shiroe/execution/supervisor.py:77-261 | the loop terminates whatever the environment does, and its summary is true: completed nodes are completed, and the blocked list is the block writes of the run, in order, of which only the last, if the run paused, was followed by the pause |
| Supervisors.Supervisor.Run | shiroe/execution/supervisor.py:77-264 | the same for run and resume; nothing a pass knew outlives it |
| Supervisors.Supervisor.Conclude | shiroe/execution/supervisor.py:94-100 | with nothing ready the graph is completed exactly when all nodes are settled; the deadlock exit means some node is neither pending nor settled |
| Supervisors.ListedAreBlockedIff | shiroe/execution/supervisor.py:181-187 | every node a run lists as blocked is blocked exactly when each of its block writes not followed at once by the pause concerned the node it paused on in the end |
| Supervisors.UnpausedAre | shiroe/execution/supervisor.py:181-187 | the block writes counted as not paused on are those whose next act is not the pause of the graph |
| Supervisors.BlockedThenCompleted | shiroe/execution/supervisor.py:181-187 | any run that has dispatched a plain node can go on to block it, fail to pause the graph, retry, and complete it |
| Supervisors.StuckNodesExist | shiroe/execution/supervisor.py:94-100 | an orderable graph with nothing ready and not all settled has such a node |
| Supervisors.TurnShrinks | shiroe/execution/supervisor.py:89-148 | a full turn strictly shrinks the set of pending non-approval nodes |
| Leases.RunSound | shiroe/nodes/store.py:170-275 | over any interleaving of statements, closings split into check and unguarded update, a work node has at most one active lease, a lease leaves active at most once and carries its release time exactly then; it keeps the state it left for exactly when no closing finds it closed with another one |
| Leases.NodeStore.ExpireActiveLeases | shiroe/nodes/store.py:210-221 | exactly the active leases whose time is up expire |
| Leases.NodeStore.AcquireLease | shiroe/nodes/store.py:170-208 | on a trusted worker it takes a lease exactly when, at the insert, the work node has no active one and the id is new; without interference that means no unexpired one |
| Leases.InsertableAfterExpiry | shiroe/nodes/store.py:170-221 | after expiry an insert goes through exactly when the id is new and the work node has no unexpired active lease |
| Leases.NodeStore.TerminalLease | shiroe/nodes/store.py:249-275 | closing is idempotent on its own target and refused on a lease read as closed otherwise; the update that follows closes that lease alone, over whatever other processes left, and rewrites an earlier closing exactly when there is another one |
| Leases.LateClosingRewrites | shiroe/nodes/store.py:249-262 | a lease that expires between check and update ends up completed |
| Leases.NodeStore.TrustNode | shiroe/nodes/store.py:143-157 | only the trust of a known node changes |
| Leases.NodeDispatcher.Invoke | shiroe/nodes/dispatcher.py:33-83 | once the package is built every exit by a return or a caught error leaves the lease closed, whatever other processes do meanwhile; otherwise it stays active |
| Capabilities.ExecutableMeansApprovedDigest | shiroe/capabilities/lifecycle.py:20-64 | after any run of lawful events, applied or lost, and of replays, the digest of an executable capability is the live one of its last transition to approved, or that of a lost drift a replay has brought in since |
| Capabilities.StaleKeepsApproval | shiroe/capabilities/lifecycle.py:31-31 | so is that of a stale one, which may return to active without approval |
| Capabilities.RevokedIsAbsorbing | shiroe/capabilities/lifecycle.py:59-64 | once revoked in the live tables, revoked in every continuation of the run, replays included |
| Capabilities.ReplayKeepsApprovalIff | shiroe/storage/events.py:330-380 | an executable capability a replay rebuilds carries its approved digest exactly when no lost drift was waiting; if none was waiting at the approval, exactly when no drift was logged since |
| Capabilities.ReplayedStateIsLastSaid | shiroe/storage/projections.py:147-226 | a rebuilt capability has the state the last event logged about it says, revoked included |
| Capabilities.LostRevocationIsForgotten | shiroe/capabilities/store.py:157-169 | a revocation logged but never applied is overwritten, on replay, by a later live transition |
| Capabilities.LostDriftIsExecutable | shiroe/capabilities/store.py:171-200 | a drift logged but never applied and a later live transition leave, on replay, an executable capability with a digest nobody approved |
| Capabilities.CapabilityStore.SetLifecycle | shiroe/capabilities/store.py:140-169 | it succeeds exactly on an allowed transition that commits, and then moves that row's state alone |
| Capabilities.CapabilityStore.RefreshDigest | shiroe/capabilities/store.py:171-200 | an unchanged digest writes nothing; a changed one is recorded with a snap back to quarantine, or to revoked if revoked |
| Capabilities.CapabilityStore.RegisterDiscovery | shiroe/capabilities/store.py:221-281 | a new source lands in quarantine, a drifted one returns there, an unchanged one is left alone, and no other row moves |
| Capabilities.CapabilityStore.Approve | shiroe/capabilities/store.py:299-309 | from quarantine or inspection a success ends approved with the digest unchanged; other states are left alone |
| Capabilities.CapabilityStore.Revoke | shiroe/capabilities/store.py:312-323 | a success ends revoked, and it succeeds for every known capability whose writes commit |
| Capabilities.CapabilityStore.Replay | shiroe/storage/events.py:330-380 | a replay rebuilds every capability from the log, keeps revoked what was revoked, and the store goes on from there |
| Capabilities.CapabilityStore.AssertExecutable | shiroe/capabilities/gate.py:17-73 | a normal return means executable, fit, and disk and recorded digest equal, which is the approved one unless a replay brought in a lost drift since; drift is recorded before the refusal |
| ApprovalServices.ApprovalService.Request | shiroe/policy/approval_service.py:49-109 | exactly one pending row is added |
| ApprovalServices.ApprovalService.DecideHuman | shiroe/policy/approval_service.py:143-190 | only a human's real decision on a known request writes anything, and then exactly that row; a capability approval moves that capability to approved at its current digest |
| ApprovalServices.ApprovalService.AssertCurrent | shiroe/policy/approval_service.py:192-216 | a changed scope makes exactly that row stale, an unchanged one writes nothing, and an approved answer is current and human |
| ApprovalServices.ApprovalService.ApprovedRowsAreHuman | shiroe/policy/approval_service.py:143-216 | every approved row of the live table traces to a human decision nothing applied overrides |
| Glob.GlobRe | scripts/check-canon-consistency.py:168-195 | the index loop emits the fragments of the glob, in order |
| Glob.TranslationIsFaithful | scripts/check-canon-consistency.py:168-200 | the compiled expression full-matches exactly what the recursive reading of the glob means, on every newline-free path, and on every path if the glob has no bare double star |
| Glob.FaithfulEverywhereIff | scripts/check-canon-consistency.py:186-187 | the two agree on all paths exactly when the glob has no bare double star |
| Glob.BareStarsMissNewline | scripts/check-canon-consistency.py:186-187 | the smallest disagreement |
| Glob.PlainGlobFixesDepth | scripts/check-canon-consistency.py:172-180 | a glob without a double star matches only paths with its own number of slashes |
| Glob.SubtreeGlob | scripts/check-canon-consistency.py:172-180 | a literal directory followed by a slash and a double star matches exactly the newline-free paths below it |
| Spans.MergeSpans | shiroe/privacy.py:572-584 | for any spans the result is ordered with gaps, covers exactly the same positions, takes its bounds from the input and is nowhere narrower |
| Spans.SeparatedCoverIsUnique | shiroe/privacy.py:572-584 | there is only one separated list of proper spans over a set of positions, so merging yields a normal form |
| Spans.RedactSpans | shiroe/privacy.py:587-591 | cutting from the right equals one simultaneous substitution, position by position |
| Spans.UncoveredTextSurvives | shiroe/privacy.py:587-591 | of the characters of the result those that come from the text are exactly the uncovered ones, in order, and the others spell the replacement once per span, whatever the replacement |
| Spans.MappedMatchSpells | shiroe/privacy.py:512-530 | a match mapped back to the text spells the match once dropped whitespace is removed, and begins and ends with kept characters |
| Spans.MappedExactly | shiroe/privacy.py:520-529 | exactly the non-empty matches whose stretch holds whitespace are reported |
| Spans.CollapsedPatternSpans | shiroe/privacy.py:499-530 | the result is separated and covers exactly the mapped matches of all patterns |
| Archive.Budget.Ok | shiroe/privacy.py:821-826 | every member is charged, and the answer says whether the caps still hold |
| Archive.HandleMember | shiroe/privacy.py:828-857 | one member does what its tree calls for, or raises the flag because the budget ran out |
| Archive.ScanArchive | shiroe/privacy.py:782-893 | the recursion terminates even on self-containing archives; within budget both flags are exact and the texts scrubbed are those called for, beyond it the flag is up, and the hits are always those of the texts scrubbed |
| Archive.CeilingHidesNothing | shiroe/privacy.py:761-768 | with the depth flag down, looking any number of levels deeper finds the same eligible leaves |
| Archive.ScanWhole | shiroe/privacy.py:805-807 | a scan from a fresh budget scrubs at most 4096 members and 32 MiB; the flags stay down exactly when nothing is damaged, buried or over budget, and then the hits are those of every eligible leaf at any depth |
| Paths.ValidatedStaysBelow | shiroe/transfer/bundle.py:199-206 | a path that passes the check comes out as proper names joined by slashes, none of them dot or dot-dot |
| Paths.ProperPathIsValid | shiroe/transfer/bundle.py:199-206 | every path a directory walk can produce passes unchanged |
| Paths.ValidateTwice | shiroe/transfer/bundle.py:199-206 | checking a checked path changes nothing |
| Paths.BelowIff | shiroe/transfer/bundle.py:83-85 | a joined path lies below another exactly when its names go on where those end |
| Bundles.SourceEntries | shiroe/transfer/bundle.py:103-132 | listing succeeds exactly for a directory of plain files, and yields each with its digest and size in path order |
| Bundles.Create | shiroe/transfer/bundle.py:39-61 | so does bundling: manifest first, one member a file |
| Bundles.ManifestFromBytes | shiroe/transfer/bundle.py:165-196 | the loop returns what the entry-by-entry specification says, errors included; which manifests that accepts is ManifestAcceptedIff |
| Bundles.ReadBundle | shiroe/transfer/bundle.py:135-162 | the loop over members returns what the member-by-member specification says, errors included; which bundles that accepts is ReadSucceedsIff |
| Bundles.GatherSucceedsIff | shiroe/transfer/bundle.py:136-155 | members are taken in exactly when their names differ and each is a readable regular file, the manifest or below `files/` on a safe path; every path then holds the data of the last member unpacking to it |
| Bundles.ManifestAcceptedIff | shiroe/transfer/bundle.py:165-196 | a manifest is accepted exactly when it is an object of the known schema with a list of accepted entries, and then lists them normalized, in order, under the digest of that list |
| Bundles.NormalizeSucceedsIff | shiroe/transfer/bundle.py:174-196 | a list of entries is accepted exactly when each is an object with a safe path, a shaped digest and a non-negative size, and the normalized paths differ pairwise |
| Bundles.ReadSucceedsIff | shiroe/transfer/bundle.py:135-162 | a bundle is read exactly when its members are taken in and one of them is the manifest, readable, accepted and listing exactly the payload paths |
| Bundles.ReadsBack | shiroe/transfer/bundle.py:39-61 | the bundle of any tree of plain files reads back as that tree, with the same manifest and digest, every payload matching |
| Extraction.ManifestPathsAreValid | shiroe/transfer/bundle.py:73-85 | every path extraction writes to is a proper path below the temporary directory |
| Extraction.Site.BuildTmp | shiroe/transfer/bundle.py:71-85 | a success leaves the complete checked tree at the temporary path; the destination is untouched throughout |
| Extraction.Site.CleanUp | shiroe/transfer/bundle.py:93-100 | cleaning up keeps safe what is safe; without a fault it restores the old tree where none is in place and leaves a placed one alone |
| Extraction.Site.Extract | shiroe/transfer/bundle.py:64-100 | after every filesystem call, failed ones included, and at every exit, the old tree or the complete checked new one is at the destination or the backup path; without a fault it succeeds exactly for a bundle that checks out, with no path below another, where no plain file stands; a plain file ends up at the backup path, a bad bundle changes nothing |
| Extraction.RoundTrip | shiroe/transfer/bundle.py:39-100 | creating a bundle and extracting it gives back the same files and manifest, and without a fault fails only where a plain file stands |

## Left out

- SQLite, SQL text, WAL, foreign keys and the mirror table of events: tables are maps; generated identifiers are fresh.
- SHA-256 over canonical JSON: the log's hash is a function from envelope bodies to strings, injective and never the
  genesis sentinel; file digests and JSON parsing of manifests are library functions with the laws `Bundles.Lawful`
  states.
- `scrub` at the level of the log: an envelope is sealed after scrubbing, and the fields the reducers interpret are
  taken to be left alone by it.
- Torn writes of a single log line, and fsync: a line is appended whole or not at all.
- Lock waiting, back-off and the holder's text in `shiroe/lock.py`: a lock is taken when free, or the call times out.
- Timestamps outside `YYYY-MM` form; AppendProtocol assumes the clock does not go back across a month, and Events
  proves what happens when it does.
- Concurrent writers between append and fold: the lock covers the append only, so the ledger has one writer at a time.
- Two supervisors on one project, and node ids shared between stored graphs.
- Governance.CreateKeepsRules: does not cover planning a stored graph again once it has begun, with changed or fewer
  nodes, or while a pass over it is under way. Such runs are legal, and `ReplannedWhileDone` shows why; the theorems on
  order, causes and budgets are stated of runs without them.
- Replans.OrderSurvivesIff: in the direction that breaks the order the graph's tasks are plain, since one that needs a
  reviewer it does not have never completes. The other direction holds of every graph.
- The `memory_events` mirror, `approval_advice`, worker registration and node events.
- Spending-cap arithmetic, back-off, usage and timing figures, adapter selection and the precedence rules of the policy
  service: their outcomes are choices of the environment.
- The capability gate inside the run loop is such a choice; the gate itself is modelled in `Capabilities`.
- Progress after a human decision: stale approvals are reused rather than requested again, so only safety and
  termination are stated.
- The digest a capability approval was requested for: the decision approves whatever digest is current, as in the code.
- Regular expression, tar and zip engines, Unicode tables and UTF-8: library functions. The glob translator's output is
  modelled as an expression tree, not as text to be parsed. Exceptions the archive scan does not catch, such as a
  decompression error inside a zip member, end the scan and are not modelled.
- Base64, base32 and homoglyph surfaces of the scrubber, and its pattern tables.
- File modes, empty directories, a file changing while it is bundled, and file names that are not valid UTF-8: a
  directory tree is a map from paths to contents.
- The command line, views, handoffs, search, doctor, provider and transport code: they would only add easy members.
