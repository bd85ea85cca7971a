# Verification of the loop engine and its task scheduler

The project models the parts of the repository whose correctness spans many steps, and proves what they
promise for every input, every collaborator and every run.

**Task scheduler.** `TaskModel` holds the task graph and everything the scheduler asks the outside for.
`SchedulerSteps` and `Scheduler` hold the loop: pass outcomes up the tree, assess one pending task or run one
batch of ready leaves, retry under an external policy, save after each change. Each mutating method is tied to
a function on the value of the scheduler and its graph, and the theorems are about that function. The main
results: a run ends whatever the collaborators answer (`Scheduler.RunFrom` is total, with the measure free
node slots, pending tasks, open retries, ready leaves, live nodes); it never meets its deadlock branch; one
propagation pass is enough; a leaf starts only under completed dependencies all the way up; counters, retries
and budgets are conserved; every retry is authorised inside its window; leaves run under the lease for their
claims, which is released once and before any backoff wait; and all of it again after
a crash at any saved point. `LeafAnswers` follows the executor's answers: which leaves of a batch are executed,
what each of them reports, and that no leaf of any run is completed unless the executor said so last.
`StepOutcomes` says case by case what each single step decides. `SchedulerTheorems.Stages` is the sequence of
graphs a run saves; tasks only move onward along it. Outside answers come from the record `TaskModel.Collaborators`, functions of the
loop iteration and the whole world, so a collaborator with a memory of its own is covered too. What they may
not do is change the graph.

**Leases and fencing.** `Leases` is the registry file, `LeaseManager` the three critical sections,
`LeaseProtocol` a step system in which many managers, a clock, process death, pid reuse and fenced operations
interleave freely. It proves exclusion, growing tokens, the order of fenced operations, and that whatever is
written can be read back. `LeaseOutcomes` proves who is granted, renewed, released or let through, and who never
is, in every interleaving.

**Loop engine.** `LoopEngine` is the phase machine with its checkpoints. `LoopOutcomes` says what each transition
decides and proves that the reason a run gives for its end is true of one of its checkpoints. `LoopRecovery`
compares a crash and a resume with the uninterrupted run. The comparison is exact: the check at the head of the loop
(`loop_engine/engine.py:68`) stops a checkpoint that has used its last action but still awaits its verdict,
where the uninterrupted run goes on. `LoopRecovery.CrashResume` says precisely when the two agree.

**Replay, telemetry, patches, ranking.** `Replay` records the decisions of a run and plays them back in
lockstep; `ReplayContexts` shows what a recorded context pins down, and that a trace does not answer for another
root. `Telemetry` folds the event log. `Patch` counts and replaces text. `Ranking` orders measured runs, and
`RankOutcomes` says in terms of the measured values what the order means.

Three expectations turned out to need a condition, and the code was kept as it is:

- Child ids are built as `parent.key` and are not checked for dots (`loop_engine/tasks/decomposition_graph.py:43`).
  With dotted keys one task can silently replace another (`SchedulerTheorems.DottedKeysCollide`); an insertion
  overwrites nothing if and only if no child id is taken (`SchedulerTheorems.InsertionOverwritesIffTaken`). The
  scheduler results therefore ask for dot-free keys, which the validator of proposed decompositions enforces
  (`loop_engine/tasks/llm_decomposition_validation.py:11`, `:89`).
- Applying a patch twice is harmless only if the patch inserts text, leaves no old text behind, and the file has
  not outgrown its size limit (`Patch.SecondApplication`, `Patch.PatchCanOutgrowLimit`).
- Replay repeats a run if and only if every recorded decision is well formed (`Replay.ReplayLockstep`).

Time is `real`, a digest is the value it digests, and a fresh id is a value not used before.

## Model

| member | source | states |
|---|---|---|
| Strings.LexMeans | loop_engine/tasks/scheduler.py:319 | a text sorts before another when it is a prefix or has the smaller code point at the first difference |
| Strings.StripTakesBlanks | loop_engine/tasks/parallel.py:22-24 | stripping removes blanks from the two ends and nothing else |
| Strings.ChildIdInjective | loop_engine/tasks/decomposition_graph.py:43 | an id ends in one dot-free key, so it determines its parent |
| DecompositionGraph.DependencyCheck.Visit | loop_engine/tasks/decomposition_graph.py:64-73 | the search ends; failure means a cycle exists, success means the key and all it needs are in the finished order |
| DecompositionGraph.DependencyCheck.VisitAll | loop_engine/tasks/decomposition_graph.py:59-76 | accepts if and only if no cycle exists, and then the order of finishing is a topological order of all keys |
| DecompositionGraph.TopologicalIsAcyclic | loop_engine/tasks/decomposition_graph.py:59-76 | an order in which dependencies come first rules out cycles of any length |
| DecompositionGraph.ValidateDependencyGraph | loop_engine/tasks/decomposition_graph.py:59-76 | accepts exactly the acyclic child lists |
| DecompositionGraph.AddChildTasks | loop_engine/tasks/decomposition_graph.py:26-56 | inserts exactly when keys are distinct and nonblank, dependencies known and acyclic; on refusal the graph is unchanged |
| DecompositionGraph.ValidateDependencies | loop_engine/tasks/llm_decomposition_validation.py:109-138 | the second search accepts exactly distinct, known, acyclic dependencies |
| GraphGrowth.AcyclicHasSource | loop_engine/tasks/decomposition_graph.py:59-76 | among acyclic siblings every nonempty group has one that depends on none of the group |
| GraphGrowth.ChildIdsAreFresh | loop_engine/tasks/decomposition_graph.py:43-56 | dot-free keys of a childless task name no existing task |
| GraphGrowth.DecomposeKeepsInv | loop_engine/tasks/scheduler.py:172-192 | growing the tree keeps links, path ids, grounded dependencies, statuses, counters and budgets |
| GraphInvariant.CreateInv | loop_engine/tasks/models.py:131-155 | a created graph satisfies the invariant, whatever its budget |
| GraphInvariant.StartKeepsInv | loop_engine/tasks/scheduler.py:240-252 | starting a leaf below the execution budget keeps the invariant and counts once on the node, the graph and the log |
| GraphInvariant.RetryKeepsInv | loop_engine/tasks/scheduler_retry.py:106-118 | scheduling a retry keeps the invariant and counts once on the node and the log |
| Propagation.Propagate | loop_engine/tasks/scheduler_propagation.py:10-43 | the pass does what visiting the nodes in order specifies; it reports a change exactly when it logged one, and otherwise nothing moved |
| Propagation.PropagateParent | loop_engine/tasks/scheduler_propagation.py:45-87 | the parent takes the verdict its children and the verifier call for |
| Propagation.VisitDecides | loop_engine/tasks/scheduler_propagation.py:17-87 | a defeated dependency, failing that a defeated child, blocks a node with its own error; else the verdict on completed children decides status, result and error; no other node moves |
| Propagation.PassSettles | loop_engine/tasks/scheduler_propagation.py:10-43 | after one deepest-first pass no node has anything left to take from its children |
| Propagation.DefeatReachesRoot | loop_engine/tasks/scheduler_propagation.py:45-60 | in a settled graph a failed or blocked node anywhere has defeated the root |
| Propagation.OnePassSuffices | loop_engine/tasks/scheduler_propagation.py:10-87 | a defeat exists if and only if the root is defeated, in the same pass; otherwise the root has ended or no further pass, in any order, changes anything |
| Parallel.ConflictIsCollision | loop_engine/tasks/parallel.py:234-243 | keeping only the last mode of a resource misses no conflict and reports none that is not there |
| StepOutcomes.ParallelMeans | loop_engine/tasks/parallel.py:96-110 | which leaves may run beside others: more than one slot, all capabilities safe, at least one named, a write claimed if any of them mutates |
| StepOutcomes.FirstPendingDecides | loop_engine/tasks/parallel.py:139-149 | the pending candidate chosen is the first one in the order of candidates, and none is chosen only if none is pending |
| Parallel.SelectLeafBatch | loop_engine/tasks/parallel.py:116-136 | the loop with its early exits returns the greedy batch |
| Parallel.BatchIsMaximal | loop_engine/tasks/parallel.py:116-136 | the batch starts at the first ready node, keeps the order and the limit, is free of conflicts, and leaves out only nodes that could not be added |
| Parallel.NoPendingMeansReady | loop_engine/tasks/parallel.py:139-149 | when no pending candidate is chosen, a ready one exists to execute |
| Parallel.BatchClaims | loop_engine/tasks/resource_leases.py:231-241 | one claim for each resource of the batch, a write winning over a read |
| Retry.DecideExactly | loop_engine/tasks/retry.py:181-262 | a retry is authorised if and only if code, node, key, attempts, clock and the whole delay, the listed backoff plus jitter, within the window allow it; and what the decision then carries |
| Retry.RefusalSaysWhy | loop_engine/tasks/retry.py:181-250 | a refused retry names the first check that failed |
| Retry.WaitDecides | loop_engine/tasks/scheduler_retry.py:130-200 | what a wait logs and saves, and exactly when it lets the retry go on, with or without a window, or why not |
| Retry.WaitBeforeRetry | loop_engine/tasks/scheduler_retry.py:130-174 | waits, logs and saves as specified, and says why a retry is off |
| Retry.HandleRetryResult | loop_engine/tasks/scheduler_retry.py:79-128 | decides, starts the retry clock once, waits, and schedules or rejects as specified |
| Retry.HandleLeafResult | loop_engine/tasks/scheduler_retry.py:56-77 | completes, retries, blocks or fails the leaf as specified |
| Retry.LeafDecides | loop_engine/tasks/scheduler_retry.py:56-128 | completed, ready again, blocked or failed, each if and only if the result and the retry authority say so; the error is that of the result, only a renewed readiness costs a retry |
| Retry.LeafIsLogged | loop_engine/tasks/scheduler_retry.py:56-128 | the outcome is logged last, a scheduled retry with the decision it rests on, a refused one with its reason |
| Retry.LeafResultResolves | loop_engine/tasks/scheduler_retry.py:56-128 | one result ends the leaf or makes it ready with one retry more within the cap; the rest of the graph stays and stays sound |
| SchedulerSteps.FindCandidates | loop_engine/tasks/scheduler.py:311-319 | exactly the pending and ready nodes with completed dependencies, by depth and id |
| StepOutcomes.CandidatesAreOrdered | loop_engine/tasks/scheduler.py:311-319 | candidates come by depth and then id, each once |
| StepOutcomes.IterationDecides | loop_engine/tasks/scheduler.py:80-108 | what an iteration takes up after its pass: with one slot the very first candidate, otherwise the first pending one, and a batch only when none is pending |
| SchedulerSteps.AssessTask | loop_engine/tasks/scheduler.py:122-192 | one assessment acts on the graph, the log and the store as specified |
| SchedulerSteps.AdmitBatch | loop_engine/tasks/scheduler.py:194-238 | admits the selected nodes one after the other, with the log and saves of each decision |
| SchedulerSteps.AdmitDecides | loop_engine/tasks/scheduler.py:194-238 | a leaf is admitted if and only if its capabilities resolve at once, or after the acquirer was asked for what was missing; otherwise it is blocked with the last answer as its error |
| SchedulerSteps.AcquisitionAsksForAll | loop_engine/tasks/scheduler.py:205-228 | the acquirer is asked for every missing capability once and in order, and exactly its refusals are logged |
| SchedulerSteps.BatchAdmits | loop_engine/tasks/scheduler.py:259-262 | a node of the batch is admitted if and only if it is admitted when its turn comes |
| StepOutcomes.StartDecides | loop_engine/tasks/scheduler.py:240-252 | a leaf is started if and only if the execution budget is not used up, and all that changes in either case |
| SchedulerSteps.Start | loop_engine/tasks/scheduler.py:240-252 | counts an attempt and an execution, or blocks the leaf when the budget is used up |
| SchedulerSteps.RunLeasedOperation | loop_engine/tasks/resource_leases.py:105-167 | denied, broken or granted: the grant is logged with its nodes and claims, the batch runs between grant and release, and the lease is given back on every path |
| SchedulerSteps.BlockForResourceLease | loop_engine/tasks/scheduler_retry.py:20-54 | without a lease each node is blocked or, on contention with a retry key, asks for a retry |
| StepOutcomes.RefusedBatchDecides | loop_engine/tasks/scheduler_retry.py:20-54 | why each leaf of a batch without a lease is blocked, and which of them ask for a retry instead |
| SchedulerSteps.ExecuteReadyLeaves | loop_engine/tasks/scheduler.py:254-309 | selects, admits, leases, starts, runs and applies results in id order |
| StepOutcomes.AssessmentDecides | loop_engine/tasks/scheduler.py:122-192 | status, error and contract of an assessed task for every answer; an accepted leaf takes the proposed contract over its own metadata |
| StepOutcomes.AssessmentIsLogged | loop_engine/tasks/scheduler.py:122-192 | exactly what an assessment adds to the log |
| StepOutcomes.ChildrenAreInserted | loop_engine/tasks/decomposition_graph.py:43-56 | a decomposed task waits for exactly its children, each with its id, contract, depth and sibling dependencies, none of them a task before |
| SchedulerSafety.ApplyAllEffect | loop_engine/tasks/scheduler.py:297-309 | applying all results resolves every leaf of the batch and uses no port except backoff waits |
| SchedulerSafety.ExecuteBatchEffect | loop_engine/tasks/scheduler.py:254-309 | every leaf of a batch ends or is ready again with one retry more, after at most one attempt; leases are returned, nothing else moves |
| LeafAnswers.BatchAnswers | loop_engine/tasks/scheduler.py:254-309 | which leaves of a batch are executed, in which order and between which lease calls; each takes the executor's answer, or a failure with the heartbeat's or else the release's error, and completes exactly on success |
| LeafAnswers.ExecutionsAreAnswered | loop_engine/tasks/parallel.py:152-211 | every execution a run logs carries the executor's answer about that running leaf |
| LeafAnswers.CompletionsAreEarned | loop_engine/tasks/scheduler.py:254-309 | in every saved graph a task completed by the run has a successful result, and a leaf has it from its own last execution |
| SchedulerSafety.AssessNodeEffect | loop_engine/tasks/scheduler.py:122-192 | assessing uses one decomposer call for a task never assessed before and keeps the world sound |
| Scheduler.WorkExists | loop_engine/tasks/scheduler.py:93-102 | in a settled sound graph with a live root some pending or ready task has all dependencies completed |
| Scheduler.NeverDeadlocks | loop_engine/tasks/scheduler.py:80-102 | at every loop head a run can reach, the pass ends the root or leaves a candidate |
| Scheduler.IterateAdvances | loop_engine/tasks/scheduler.py:80-108 | every iteration keeps the world sound, moves nodes only onward and lowers the termination measure |
| Scheduler.SoundGraphIsValid | loop_engine/tasks/decomposition_graph.py:8-23 | a sound graph is refused only for its budget |
| Scheduler.RunIsSafe | loop_engine/tasks/scheduler.py:71-120 | a run ends with its root ended; its result and every saved graph are sound, ports disciplined, no task assessed twice |
| Scheduler.RunScheduler | loop_engine/tasks/scheduler.py:71-120 | refuses exactly the invalid graphs and leaves them alone; otherwise the mutating loop ends and equals the specified run |
| StepOutcomes.RunReports | loop_engine/tasks/scheduler.py:71-120 | a run first saves that it starts or resumes and last its outcome, with the root's error, or else its result, as the reason |
| StepOutcomes.NothingIsLost | loop_engine/tasks/scheduler.py:80-120 | wherever a run has got to at the head of its loop, the graph saved last is the graph as it stands |
| SchedulerTheorems.FreshIsSafe | loop_engine/tasks/models.py:131-155 | every created graph may be scheduled |
| SchedulerTheorems.LoadGraph | loop_engine/tasks/persistence.py:38-48 | loading turns interrupted leaves into ready ones and changes nothing else |
| SchedulerTheorems.ResumeFromAnySave | loop_engine/tasks/persistence.py:38-48 | any graph a run saved can be resumed with other collaborators, and that run ends safely too |
| SchedulerTheorems.TasksMoveOnward | loop_engine/tasks/scheduler.py:71-120 | between any two graphs a run saves: an ended task never changes again, a retry clock is started once, counters do not go back, retries stop at the cap, also for tasks created on the way |
| SchedulerTheorems.StartedLeavesAreCleared | loop_engine/tasks/scheduler.py:311-319 | a started leaf has its own dependencies and those of every ancestor completed, in every saved graph |
| SchedulerTheorems.CompletedRunIsComplete | loop_engine/tasks/scheduler_propagation.py:45-87 | at every saved stage the root is completed if and only if every task is, and every task completed at an earlier stage is still there unchanged |
| SchedulerTheorems.Conservation | loop_engine/tasks/scheduler.py:172-192 | executions are the sum of attempts, retries are the scheduled retry events, nodes, depth and executions stay in budget |
| SchedulerTheorems.RefusalStartsNothing | loop_engine/tasks/scheduler_retry.py:20-54 | a batch without a lease counts no attempt and no execution, even where it asks for retries |
| SchedulerTheorems.AttemptsAreRetriesPlusOne | loop_engine/tasks/scheduler.py:240-252 | in every graph an uninterrupted run saves, no task has more attempts than its retries plus one, or more retries than the policy allows |
| SchedulerTheorems.RetriesAreAuthorised | loop_engine/tasks/retry.py:213-255 | for every retry a run schedules the clock was read for that decision; the reading and the end of the delay lie inside the window that opened with the first retry of the node |
| SchedulerTheorems.LeasesAreReleased | loop_engine/tasks/resource_leases.py:105-167 | at most one lease is held at a time, each is released exactly once, and none is held when a backoff wait begins |
| SchedulerTheorems.LeavesRunUnderLease | loop_engine/tasks/resource_leases.py:105-167 | a leaf that claims resources is executed only while the one lease held was granted for its batch and claims what the leaf claims |
| SchedulerTheorems.InsertionOverwritesIffTaken | loop_engine/tasks/decomposition_graph.py:43-56 | an insertion keeps all other tasks if and only if no child id is taken |
| SchedulerTheorems.DottedKeysCollide | loop_engine/tasks/decomposition_graph.py:43 | a concrete pair of decompositions in which a dotted key replaces a task |
| Telemetry.AggregateRetryTelemetry | loop_engine/tasks/retry_telemetry.py:41-78 | counts, sums and tallies equal independent counts of the log |
| Telemetry.CodesAreComplete | loop_engine/tasks/retry_telemetry.py:41-84 | the code tallies add up to exactly the retry events that name a code |
| Telemetry.TelemetryMatchesTasks | loop_engine/tasks/retry_telemetry.py:41-78 | scheduled retries in the telemetry of any graph of a run are the retries its tasks counted |
| Replay.AncestorContext | loop_engine/tasks/replay.py:320-328 | the loop up the parents yields the ancestors, root first |
| Replay.RecordingTaskDecomposer.Assess | loop_engine/tasks/replay.py:95-106 | answers for the delegate and extends the trace, unless the task was recorded before |
| Replay.RecordedTaskDecomposer.Assess | loop_engine/tasks/replay.py:117-126 | answers only a known task in its recorded context, once, with a well-formed decision |
| Replay.RecordedTaskDecomposer.UnusedNodeIds | loop_engine/tasks/replay.py:128-129 | the recorded tasks never asked for, sorted |
| ReplayContexts.ContextPins | loop_engine/tasks/replay.py:275-292 | two questions have one context if and only if task, contract, dependencies, depth, line of parents and goals, budget and counts agree |
| ReplayContexts.AnotherRootIsNotReplayed | loop_engine/tasks/replay.py:117-126 | a trace played back on a new graph with another root contract or budget fails the root as a raising decomposer does and uses nothing up |
| Replay.RecordingIsTransparent | loop_engine/tasks/replay.py:90-109 | recording a run changes nothing about it, since no task is assessed twice |
| Replay.ReplayLockstep | loop_engine/tasks/replay.py:90-129 | the replay has the tasks of the recorded run if and only if every recorded decision is well formed; then it repeats the whole run and leaves nothing unused |
| Replay.IllFormedRootIsNotReplayed | loop_engine/tasks/replay.py:295-317 | a new graph whose root gets an ill-formed decision, such as an atomic one with children, is recorded but replays to another outcome |
| Claims.NormalizeClaims | loop_engine/adapters/resource_leases.py:271-281 | the dictionary loop yields the merged claims |
| Claims.MergeContents | loop_engine/adapters/resource_leases.py:271-281 | one claim for each resource of the original, writing if any original claim writes |
| Claims.MergeKeepsCollisions | loop_engine/adapters/resource_leases.py:271-281 | merging neither loses nor invents a conflict |
| Claims.MergeIdempotent | loop_engine/adapters/resource_leases.py:271-281 | merging merged claims changes nothing |
| Leases.LoadRegistry | loop_engine/adapters/resource_lease_registry.py:37-59 | reads every row or reports the first error |
| Leases.LoadAcceptsExactly | loop_engine/adapters/resource_lease_registry.py:37-139 | which files load: version, counters, distinct ids, named claims, tokens exactly on writes and at most their counters; and what is then read |
| Leases.SavedLoads | loop_engine/adapters/resource_lease_registry.py:62-91 | a well-formed registry is read back unchanged up to record order |
| LeaseManager.ConflictingResources | loop_engine/adapters/resource_leases.py:284-297 | the table of occupied modes finds exactly the requested resources some record collides with |
| LeaseManager.NextFencingTokens | loop_engine/adapters/resource_leases.py:300-311 | each written resource, and no other, gets the number after its counter |
| LeaseManager.FileResourceLeaseManager.AcquireOnce | loop_engine/adapters/resource_leases.py:82-149 | one turn of acquisition changes the file and answers as specified |
| LeaseManager.FileResourceLeaseManager.RenewOnce | loop_engine/adapters/resource_leases.py:151-191 | renews an owned, unexpired lease or says why not, and then leaves the file alone |
| LeaseManager.FileResourceLeaseManager.ReleaseOnce | loop_engine/adapters/resource_leases.py:193-210 | removes an owned record; a missing one is no error |
| LeaseProtocol.FencedAdapter.ExecuteFenced | tests/test_fencing_tokens.py:39-58 | runs an operation if and only if its token is not below the highest seen, which it then becomes |
| LeaseProtocol.FencedAdapter.RunFencedOperation | loop_engine/tasks/resource_leases.py:170-184 | an operation needs a token for its resource, and the adapter decides with it |
| LeaseProtocol.StepIsSound | loop_engine/adapters/resource_leases.py:82-219 | every acquire, renew, release, tick, death, spawn and fenced operation keeps the protocol invariant |
| LeaseOutcomes.AcquireAllOrNothing | loop_engine/adapters/resource_leases.py:82-149 | granted if and only if no row that is unexpired and whose owner runs collides; the exact lease and rows in either case |
| LeaseOutcomes.TrivialAttempts | loop_engine/adapters/resource_leases.py:88-102 | a blank owner is refused and a lease on nothing granted, without touching the file |
| LeaseOutcomes.RenewDecides | loop_engine/adapters/resource_leases.py:151-191 | renewed if and only if the file has the unexpired row of this lease and this very process; the exact rows, or why not |
| LeaseOutcomes.ReleaseDecides | loop_engine/adapters/resource_leases.py:193-245 | released if and only if the row is that of this lease and this very process; the exact rows, or why not |
| LeaseOutcomes.OwnerRenews | loop_engine/tasks/resource_leases.py:214-224 | in every interleaving the owner of an active lease can prolong it to the time of renewal plus a full term |
| LeaseOutcomes.ExpiredStaysExpired | loop_engine/adapters/resource_leases.py:242-243 | in every interleaving an expired lease is never renewed, by anybody |
| LeaseOutcomes.StrangersChangeNothing | loop_engine/adapters/resource_leases.py:221-241 | in every interleaving another process, even under the owner's pid, neither renews nor releases a lease |
| LeaseOutcomes.OwnerReleases | loop_engine/adapters/resource_leases.py:193-210 | in every interleaving the owner of a recorded lease can release it; only its row goes, and a second release changes nothing |
| LeaseOutcomes.OperationDecides | loop_engine/tasks/resource_leases.py:170-184 | in every interleaving an operation is let through if and only if its lease wrote the resource and no later grant has acted on it |
| LeaseProtocol.LeasesExclude | loop_engine/adapters/resource_leases.py:82-219 | in every interleaving two unreleased, unexpired leases of running owners never collide |
| LeaseProtocol.FencingHolds | loop_engine/tasks/resource_leases.py:170-184 | tokens grow with every grant over the whole run, and fenced operations on a resource follow the order of their grants |
| LeaseProtocol.RegistryAlwaysLoads | loop_engine/adapters/resource_lease_registry.py:37-138 | whatever a run has written loads unchanged and saves to itself, with distinct ids, tokens exactly on writes and at most their positive counters |
| LoopEngine.StepDescends | loop_engine/engine.py:67-193 | every transition lowers iterations left, phase rank or actions left |
| LoopEngine.LoopEngine.PlanPhase | loop_engine/engine.py:86-100 | plans, or stops or fails the run, as specified |
| LoopEngine.LoopEngine.ExecutePhase | loop_engine/engine.py:102-139 | the inner loop is on the way of the uninterrupted run and ends it or reaches verification |
| LoopEngine.LoopEngine.VerifyPhase | loop_engine/engine.py:141-157 | records the verdict and its signature, and stops on stagnation |
| LoopEngine.LoopEngine.JudgePhase | loop_engine/engine.py:159-191 | completes, stops, fails or continues the run, as specified |
| LoopEngine.LoopEngine.ResumeRun | loop_engine/engine.py:53-193 | the nested loops end in a final status and equal the specified run |
| LoopOutcomes.ReadyDecides | loop_engine/engine.py:67-84 | a new iteration starts unless iterations, actions or time are used up, and the reason names the first that is |
| LoopOutcomes.PlanDecides | loop_engine/engine.py:86-100 | failed on a raised planner, stopped on an empty plan, otherwise executing that plan |
| LoopOutcomes.ExecuteDecides | loop_engine/engine.py:102-139 | the next action of the plan is executed and its result recorded unless a budget is used up; after the last one the run verifies |
| LoopOutcomes.SignatureMeans | loop_engine/policies.py:31-39 | equal signatures are equal status, evidence and checks passed and failed, in any order |
| LoopOutcomes.VerifyDecides | loop_engine/engine.py:141-157 | failed on a raised verifier, stopped if and only if the last observations all agree, otherwise judged |
| LoopOutcomes.JudgeDecides | loop_engine/engine.py:159-191 | completed, stopped, failed or another iteration, each if and only if the judge says so, with the reason and focus it gives |
| LoopOutcomes.OutcomeIsExplained | loop_engine/engine.py:53-193 | the stop reason of every new run is true of one of its checkpoints; completed only after a verdict to complete |
| LoopOutcomes.ResultsArePerformed | loop_engine/engine.py:110-135 | the results of every new run are the executor's answers to the next actions of its plans, one for each execution |
| LoopOutcomes.FirstCheckpoint | loop_engine/engine.py:39-65 | a new run first saves that it runs, from now on, with its goal as focus and nothing done |
| LoopRecovery.CreatedIsGood | loop_engine/engine.py:39-48 | a created state satisfies the checkpoint invariant |
| LoopRecovery.AppendSignature | loop_engine/policies.py:41-46 | a signature that does not stop the run completes no row of equal ones |
| LoopRecovery.ResumeKeepsGood | loop_engine/engine.py:53-193 | the result and every checkpoint: actions counted and within budget, iterations within budget, iteration results the last ones, no stagnation while running |
| LoopRecovery.CheckpointsAreOnTheWay | loop_engine/engine.py:195-197 | every checkpoint is the state after some number of transitions |
| LoopRecovery.ResumedIsUninterrupted | loop_engine/engine.py:67-75 | away from the boundary the resumed run ends in the very state of the uninterrupted one |
| LoopRecovery.BoundaryDiffers | loop_engine/engine.py:67-75 | with the action budget used up before the verdict the outcomes agree if and only if the judge would not complete the run |
| LoopRecovery.CrashResume | loop_engine/engine.py:53-193 | from any written checkpoint, exactly when resuming gives the outcome of the uninterrupted run |
| LoopRecovery.NoActionTwice | loop_engine/engine.py:110-135 | across a crash after any checkpoint and a resume with any collaborators, each action position is executed at most once |
| Patch.CountIsMaximal | loop_engine/adapters/filesystem.py:154 | leftmost counting finds at least as many occurrences as any choice that does not overlap |
| Patch.CountZero | loop_engine/adapters/filesystem.py:154-155 | the count is zero exactly when the text occurs nowhere |
| Patch.ReplacedAreFound | loop_engine/adapters/filesystem.py:168 | after n replacements the new text is counted at least n times |
| Patch.SizeByBounds | loop_engine/adapters/filesystem.py:147-148 | a text takes one byte for each character and one more for each UTF-8 bound it passes |
| Patch.SplitIsLeftmost | loop_engine/adapters/filesystem.py:154-168 | the occurrences counted and exchanged are the leftmost ones |
| Patch.AppliedExchangesAll | loop_engine/adapters/filesystem.py:136-184 | applied exactly under its preconditions, and then all occurrences, from left to right, and nothing else are exchanged |
| Patch.OthersKeepTheFile | loop_engine/adapters/filesystem.py:136-166 | every other outcome leaves the file alone: the refusals in the order of the checks, and what counts as applied before |
| Patch.SecondApplication | loop_engine/adapters/filesystem.py:154-184 | a second application is a no-op report if and only if text was inserted, none of the old is left, the size limit holds and no other digest is demanded |
| Patch.PatchCanOutgrowLimit | loop_engine/adapters/filesystem.py:147-148 | a concrete patch that cannot be applied again because of the size limit |
| Patch.BoundedFile.ApplyPatch | loop_engine/adapters/filesystem.py:136-184 | changes the file only when it reports a patch as applied, and then as specified |
| Ranking.Rank | loop_engine/tasks/strategy_judge.py:151-214 | refuses in the order of the checks, or returns the specified entries |
| Ranking.RankEligible | loop_engine/tasks/strategy_judge.py:185-206 | the running rank equals one plus the number of eligible runs with a strictly smaller key |
| RankOutcomes.EntriesAreRuns | loop_engine/tasks/strategy_judge.py:159-206 | one entry for each run and no others, with its measured values, ranked if eligible at one more than the number of runs preferred to it |
| RankOutcomes.RankMeansPreferred | loop_engine/tasks/strategy_judge.py:234-241 | the smaller rank if and only if at the first objective where two runs differ the first measures less where less is wanted, more where more is |
| RankOutcomes.WinnersAreUnbeaten | loop_engine/tasks/strategy_judge.py:112-116 | the winners are exactly the eligible runs to which no other is preferred |
| RankOutcomes.EntriesAreOrdered | loop_engine/tasks/strategy_judge.py:185-214 | by rank, within a rank by name, then the unranked by name |
| RankOutcomes.RankAcceptsExactly | loop_engine/tasks/strategy_judge.py:151-232 | which comparisons are ranked: some runs of one task, distinct names that are not blank, everything measured, comparable costs |
| RankOutcomes.RefusalSaysWhy | loop_engine/tasks/strategy_judge.py:151-232 | the error of a refused comparison names what is wrong with it |
| RankOutcomes.OrderPlaysNoPart | loop_engine/tasks/strategy_judge.py:185-214 | permuting the runs changes neither the ranking nor whether there is one |

## Left out

- Nodes and claims are values in maps and sequences that the methods reassign; aliasing between node objects is not modelled.
- Threads: a parallel batch is one call that returns a result for each node, and heartbeats are renewals interleaved with other steps. Snapshots handed to threads are not modelled.
- Stores, JSON, file writes and the directory lock: a save is a value appended to a list, a registry critical section is atomic, a file that is not valid JSON or UTF-8 is outside the model.
- The waiting loop around one acquisition turn (deadline and sleep): each turn is a step of the protocol that may follow any other. `acquired_at` and `heartbeat_at` are written but never read and are not modelled.
- SchedulerTheorems.LeasesAreReleased: states that a release is attempted; that the manager then frees the lease is a statement of the lease protocol.
- Error and event texts: reasons are constructors, payloads keep only what telemetry reads, event sequence numbers, timestamps and the graph id are dropped. A replay therefore repeats a failed assessment up to its error text.
- An acquisition answer of the wrong type is treated as an acquisition that raised.
- Exceptions raised by the store or the visitor order of equal depths: stores do not raise, and any order of equal depths is allowed.
- NaN, infinity and rounding of times, delays and telemetry totals.
- Blank means space, tab, line feed or carriage return; the other characters Python strips, such as form feed and Unicode spaces, are not modelled.
- Jitter is any value between zero and its bound; how it is hashed from a seed is left out.
- LoopRecovery.CrashResume: the wall-clock budget is assumed never to run out, and collaborators are functions of the loop state without its events and timestamps. Action durations are not modelled.
- The legacy form of loop checkpoints without a phase.
- LeaseProtocol.LeasesExclude: assumes that clocks do not go back and that a dead process never returns under the same pid and identity.
- LeaseProtocol.FencingHolds: one adapter state for each resource; an adapter that keeps no state, or a holder that makes up a token, is outside the model.
- The reason text of a ranking entry, policy constructors and metrics of the wrong type.
- Prompts, plan and evidence checks, plugins, sandboxing, profiles, process reaping, release gates and reports: field checks or operating-system calls with only easy claims.
