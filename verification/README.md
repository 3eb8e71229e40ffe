# Verified model of the long-run agent

A Dafny model of the deterministic logic of the agent harness: its project engine, its context pipeline, its
verification verdict, and the self-contained algorithms around them. The model provider, the tools, subprocesses, the
file system and the clock are inputs: whatever they do, the properties hold. Verify with `dafny verify dfyconfig.toml`.

**Project engine.** `Schema`, `Transitions`, `Validator`, `Selector`, `Aggregation` and `Orchestrator` follow the files
of the same names. A project is an object whose methods update it as the source does. `Invariant` says what holds
between two steps of a run, `Steps` that every step keeps it, `Progress` why the selector can find nothing to do and what
a released task may rely on, `Completion` how a run gets its work done. The waits-for relation, dependencies together with children, keeps a rank through every decomposition (`TaskGraph`); that
rank is what excludes deadlock. `ProjectOrchestrator.RunProject` puts the steps together for whole runs.

**Context pipeline.** `Messages` and `Buffer` hold turns and notes; `Staleness`, `Pruner`, `Budget`, `Handoff` and
`Lifecycle` choose what is sent; `AgentLoop` runs a session over them and over the router of `SessionTools` and the
channel of `Control`. The main result is about every list ever handed to the model by the loop.

**Verdict.** `Verdict` shows that the counting decides what the contract says, check by check.

**Algorithms.** `JsonScanner`, `KnowledgeStore`, `Skills`, `Sandbox`, and `WorkflowGraph` for the example service.

Two conditions appear. Task ids join keys with a colon, so a decomposition keeps the invariant if and only if no child
gets an id in use (`TaskGraph.DecompositionKeepsStructure`, `Orchestrator.ChildrenKeepSound`). A run is followed until
two tasks have one id; keys without colons exclude that (`Orchestrator.PlainStepIsFresh`), and `Steps.ColonKeysCollide`
is a project on which other keys do not. A save is refused for a repeated key, which decompositions can bring in;
`Steps.FreshKeysStayUnique` says exactly when.
Several properties one would expect do not hold of the code, and are stated with an example, the exact condition, or
both, instead: improvement can turn PARTIAL into REOPENED, supersession is not stable under a second refresh,
compaction can make a text longer, the sandbox map is not invertible from the sandbox side, a skill's harmful count
exceeds its ledger rows by the failures reported of it, a completed session may lose its test gate, a reopened leaf
leaves its parents done, the repair of failed tasks can take the active task from a running one, and a second JSON
object in a text goes unnoticed.

## Model

| member | source | states |
|---|---|---|
| Acyclicity.AssertAcyclic | src/longrun_agent/planning/validator.py:7-23 | The depth-first search accepts exactly when the keys have a topological order and rejects exactly when some key leads into a cycle. |
| Acyclicity.CycleSearch.Visit | src/longrun_agent/planning/validator.py:11-21 | A key is either visited with everything below it, in an order that stays topological, or the path down to it closes a cycle. Terminates because the path only grows inside the finite set of keys. |
| Acyclicity.RankableHasNoCycle | src/longrun_agent/planning/validator.py:7-23 | A topological order and a reachable cycle exclude each other, so the two verdicts of the search cannot both hold. |
| Validator.Validate | src/longrun_agent/planning/validator.py:27-43 | A draft list passes exactly if its size is in bounds, keys are unique, every draft has criteria and known dependencies and does not restate its parent, and the keys can be ordered; the cycle error is given only for a real cycle. |
| Validator.ValidateInitial | src/longrun_agent/planning/validator.py:27-43 | The initial plan passes exactly if it is valid without a parent. |
| Validator.ValidateChildren | src/longrun_agent/planning/validator.py:59-87 | A decomposition passes exactly below the depth limit and with valid, more specific children. |
| TaskGraph.PlanIsStructured | src/longrun_agent/planning/validator.py:45-57 | An accepted plan, whatever its keys, becomes a task list with unique ids made of parent and key, correct depths and a ranked waits-for relation (dependencies and children together). |
| TaskGraph.AcceptedDraftsMakeFamily | src/longrun_agent/planning/validator.py:89-103 | The ranking of the keys carries over to the qualified task ids, whatever the keys; dependencies stay inside the family. |
| TaskGraph.ChildIdsAreFresh | src/longrun_agent/planning/validator.py:89-103 | With colon-free keys the id of a child of a leaf is never in use. |
| TaskGraph.DecompositionKeepsStructure | src/longrun_agent/orchestration/orchestrator.py:1184-1187 | Appending accepted children keeps ids unique, depths correct, dependencies known and the waits-for relation acyclic, if and only if no task has the id of a child. |
| TaskGraph.StructuredIsPlaced | src/longrun_agent/state/schema.py:121-145 | The structure implies the dependency, parent and depth checks of the graph validator. |
| Transitions.Transition | src/longrun_agent/state/transitions.py:17-54 | A legal move changes one status and the active task, as the table says; an unknown task or an illegal move is reported and changes nothing. |
| Transitions.WhereFrom | src/longrun_agent/state/transitions.py:17-31 | Over any run of legal moves, failed, decomposed and verified tasks stay what they are, and every other status is come to only from the ones the table names. |
| Transitions.VerifiedWasPending | src/longrun_agent/state/transitions.py:17-31 | A task can become verified only from its verification, and comes to that only complete or blocked. |
| Selector.UpdateReadyTasks | src/longrun_agent/state/selector.py:17-27 | Exactly the pending tasks become ready for each of whose dependencies there is a task that is verified, or complete where the policy takes that; exactly their ids are listed. |
| Selector.ReleaseMeans | src/longrun_agent/state/selector.py:17-27 | A task goes from pending to ready if and only if for each of its dependencies there is a task of that id that is verified, or candidate complete under the candidate-complete policy; nothing else changes. |
| Selector.PickReady | src/longrun_agent/state/selector.py:37-43 | The task taken is ready, none is picked only if none is ready, and no ready task is higher in the tree, as high and older, or as high and old and before it by id. |
| Selector.SelectNext | src/longrun_agent/state/selector.py:29-55 | The running task, else the foremost ready one after the release, else the project status or the error that explains why there is none; whatever was released may rely on its dependencies. |
| Selector.FindRunning | src/longrun_agent/state/selector.py:30-35 | The task in progress, if there is one; more than one is reported. |
| Common.StringLessMeans | src/longrun_agent/state/selector.py:37-40 | The first place where two ids differ decides their order, and a prefix comes first. |
| Aggregation.AggregateParents | src/longrun_agent/state/aggregation.py:9-49 | Either loop terminates and computes the least set of done tasks closed under promoting parents whose children are all done; the returned ids are exactly those of the promoted tasks, each once. |
| Aggregation.ResultIsClosed | src/longrun_agent/state/aggregation.py:9-49 | The done tasks of the result are closed under promotion, so with the above they are the least fixpoint. |
| Aggregation.ListOrderIrrelevant | src/longrun_agent/state/aggregation.py:9-49 | Lists with the same tasks in any order end with the same done tasks. |
| Aggregation.DoneIffLeavesDone | src/longrun_agent/state/aggregation.py:9-49 | After aggregation the done tasks are exactly those whose leaves are done, if and only if before it done tasks had done leaves and no parent with done leaves was kept back. |
| Aggregation.LeafReopenFreeIsKept | src/longrun_agent/state/aggregation.py:9-49 | Done tasks have done leaves after aggregation exactly if they had before: aggregation neither spoils nor repairs it. |
| Aggregation.LeafReopenBreaks | src/longrun_agent/orchestration/orchestrator.py:1594-1608 | A leaf that loses its completion leaves done tasks with done leaves exactly if no task above it was done. |
| Aggregation.ReopenFreeLeaves | src/longrun_agent/state/aggregation.py:9-49 | If no done parent has an undone child, done tasks have done leaves. |
| Aggregation.PromotionsStayReopenFree | src/longrun_agent/state/aggregation.py:9-49 | Aggregation itself never leaves a done parent above an undone child. |
| Invariant.SaveRefusedOnlyForKeys | src/longrun_agent/state/schema.py:121-145 | On a project that satisfies the invariant, the validator run by a save fails exactly for a repeated key. |
| Invariant.AccountingMeans | src/longrun_agent/orchestration/orchestrator.py:430-436 | The session count is the sum of the attempts and the number of sessions, session numbers are never shared or repeated, and no task has more than its limit. |
| Invariant.UnfinishedLeafMeansOpen | src/longrun_agent/orchestration/orchestrator.py:379-385 | While some task is unfinished the project is neither complete, nor pending verification, nor verified. |
| Steps.EmptyIsSound | src/longrun_agent/orchestration/orchestrator.py:103-109 | A new project satisfies the invariant and can be saved. |
| Steps.PlanIsSound | src/longrun_agent/orchestration/orchestrator.py:518-548 | A planned project satisfies the invariant. |
| Steps.AggregationKeepsSound | src/longrun_agent/orchestration/orchestrator.py:397-404 | Both aggregations keep the invariant. |
| Steps.ParentsFollowWhenPhased | src/longrun_agent/state/aggregation.py:27-49 | Between steps no parent is kept back from candidate complete, and only a parent bound to a contract is kept back from verified. |
| Steps.CompleteIffLeavesComplete | src/longrun_agent/state/aggregation.py:9-26 | In a run, after aggregation the complete tasks are exactly those whose leaves are complete, if and only if no complete task had an incomplete leaf before. |
| Steps.SelectionKeepsSound | src/longrun_agent/orchestration/orchestrator.py:405-406 | Selection keeps the invariant, earns the status it sets, and never finds two tasks in progress. |
| Steps.DecompositionKeepsSound | src/longrun_agent/orchestration/orchestrator.py:1184-1187 | Decomposing the task in progress keeps the invariant if the ids of the children are not in use. |
| Orchestrator.ChildrenKeepSound | src/longrun_agent/orchestration/orchestrator.py:1184-1187 | An accepted decomposition keeps the invariant, and the ids unique, if and only if no child gets an id in use. |
| Steps.MarkingKeepsSound | src/longrun_agent/orchestration/orchestrator.py:1564-1592 | Marking the leaves of a passed project contract makes every leaf verified and keeps the invariant. |
| Steps.FreshKeysStayUnique | src/longrun_agent/planning/validator.py:89-103 | After a decomposition the keys are unique exactly if no child takes the key of an existing task. |
| Steps.FreshIdsStayUnique | src/longrun_agent/planning/validator.py:89-103 | After a decomposition the ids are unique exactly if no child gets the id of an existing task. |
| Steps.ColonKeysCollide | src/longrun_agent/planning/validator.py:27-103 | Where that fails: an accepted plan and two accepted decompositions, no key repeated, after which two tasks have one id. |
| Steps.ColonFreeIdsAreFresh | src/longrun_agent/planning/validator.py:89-103 | Below a leaf, keys without colons always give fresh ids. |
| Progress.StuckTaskHasCulprit | src/longrun_agent/state/selector.py:29-55 | Following what a stuck task waits for ends at a blocked, failed or, under the verified policy, unverified task. |
| Progress.NoReachableTaskHasCulprit | src/longrun_agent/orchestration/orchestrator.py:397-405 | The selector, after the two aggregations and with nothing ready, reports no reachable task exactly if nothing is blocked and some pending task waits, through dependencies and children, for a failed task or, under the verified policy, for an unverified one. |
| Progress.NoDeadlock | src/longrun_agent/orchestration/orchestrator.py:397-405 | Under the candidate-complete policy with no failed task, the selector after the aggregations finds a ready task or ends regularly. |
| Progress.ReleasedIffLeavesComplete | src/longrun_agent/orchestration/orchestrator.py:397-405 | Where complete tasks had complete leaves, the selector after the aggregations releases a task only if every leaf below each of its dependencies is complete, and exactly then if complete dependencies are enough. |
| Progress.CompleteAfterAggregations | src/longrun_agent/orchestration/orchestrator.py:397-404 | There, after both aggregations, a task is complete exactly if every leaf below it is. |
| Progress.VerifiedKeepsCompletion | src/longrun_agent/state/aggregation.py:27-49 | On an aggregated list the second aggregation completes nothing, it only verifies. |
| Progress.VerifiedPolicyDeadlocks | src/longrun_agent/state/selector.py:17-27 | Under the verified policy a dependent of a complete but unverified task is not released, and with nothing else ready and nothing blocked the selector fails. |
| Progress.VerifiedPolicyCanDeadlock | src/longrun_agent/state/selector.py:17-55 | Two tasks of which the second is such a dependent. |
| Orchestrator.ProjectOrchestrator.Save | src/longrun_agent/state/schema.py:121-145 | A save appends the project exactly if its keys are unique; every saved project satisfies the invariant and the validator. |
| Orchestrator.ProjectOrchestrator.Decompose | src/longrun_agent/orchestration/orchestrator.py:1184-1205 | Valid children are appended and the parent becomes decomposed; otherwise nothing changes and the decomposition error is raised. The run is followed further exactly if no child got an id in use. |
| Orchestrator.ProjectOrchestrator.TriggerDecomposition | src/longrun_agent/orchestration/orchestrator.py:1118-1205 | The step is the one the planning mode, the bounded search and the drafts decide; only giving up raises, clashing ids end what is followed, and no move is illegal. |
| Orchestrator.ProjectOrchestrator.ProcessSilence | src/longrun_agent/orchestration/orchestrator.py:930-976 | A session without terminal signal completes its task on evidence, decomposes it for lack of progress or attempts, or leaves it. |
| Orchestrator.ProjectOrchestrator.ProcessTerminal | src/longrun_agent/orchestration/orchestrator.py:977-1025 | A terminal signal takes the step the decision table gives for it, legally. |
| Orchestrator.ProjectOrchestrator.ProcessControlSignals | src/longrun_agent/orchestration/orchestrator.py:887-1025 | A completion request, or silence with evidence, completes the task; a blocker or a request to decompose blocks it outside the adaptive modes; silence without evidence leaves it in progress unless it is adaptive and out of progress or attempts; everything else splits it into the drafts, follows the recovery chosen, or gives it up. |
| Orchestrator.StepReports | src/longrun_agent/orchestration/orchestrator.py:887-1025 | The decision table means just that, by the fields of the session, the task and the configuration. |
| Orchestrator.RequestCompletes | src/longrun_agent/orchestration/orchestrator.py:977-981 | A completion request completes the task of its session and changes nothing else. |
| Orchestrator.SessionStepIsSafe | src/longrun_agent/orchestration/orchestrator.py:887-1025 | Every row of the decision table is a legal move, a valid decomposition or giving up. |
| Orchestrator.GiveUpMeans | src/longrun_agent/orchestration/orchestrator.py:1118-1205 | A task is given up exactly if no recovery candidate is valid, or the children are not. |
| Orchestrator.TookKeepsSound | src/longrun_agent/orchestration/orchestrator.py:887-1025 | Whatever a session leads to, the project stays open, and the invariant holds if and only if no child of a decomposition gets an id in use. |
| Orchestrator.PlainStepIsFresh | src/longrun_agent/orchestration/orchestrator.py:887-1025 | Without colons in the keys no session and no repair ever makes ids clash. |
| Orchestrator.TookKeepsFailures | src/longrun_agent/orchestration/orchestrator.py:887-1025 | A session fails no task and verifies none; tasks that had failed are as they were, and new keys are keys the planner or decomposer offered. |
| Orchestrator.ProjectOrchestrator.MoveTask | src/longrun_agent/orchestration/orchestrator.py:1621-1632 | A move of a known task raises exactly if the table does not allow it. |
| Orchestrator.ProjectOrchestrator.ReopenTask | src/longrun_agent/orchestration/orchestrator.py:351-368 | A task awaiting its verdict is counted reopened and becomes ready, or blocked if it was reopened more often than allowed; neither move is illegal. |
| Orchestrator.ProjectOrchestrator.VerifyTaskCandidate | src/longrun_agent/orchestration/orchestrator.py:263-316 | Exactly a task that a task contract names by id or key and that is complete, or blocked by infrastructure, is verified, and gets the status its verdict means; any other task is left alone. |
| Orchestrator.ProjectOrchestrator.ApplyVerdict | src/longrun_agent/orchestration/orchestrator.py:280-315 | VERIFIED verifies the task, PARTIAL and REOPENED take it up again or block it after too many reopenings, every other verdict blocks it; the verdict is recorded and counted, and none of the moves is illegal. |
| Orchestrator.ProjectOrchestrator.VerifyTask | src/longrun_agent/orchestration/orchestrator.py:263-316 | Verifying a task keeps the invariant, makes nothing verified without evidence that passed, and touches no other task. |
| Orchestrator.JudgedKeepsSound | src/longrun_agent/orchestration/orchestrator.py:263-316 | A verdict on a leaf keeps the invariant; VERIFIED is recorded only with its verdict. |
| Orchestrator.ProjectOrchestrator.MarkProjectTasksVerified | src/longrun_agent/orchestration/orchestrator.py:1564-1592 | Exactly the candidate-complete leaves become verified. |
| Orchestrator.ProjectOrchestrator.VerifyLeaf | src/longrun_agent/orchestration/orchestrator.py:1568-1585 | One leaf goes through pending verification to verified, both moves legal. |
| Orchestrator.ProjectOrchestrator.ReopenRelevantProjectTask | src/longrun_agent/orchestration/orchestrator.py:1594-1608 | The last complete leaf of the list is reopened, and nothing if there is none. |
| Orchestrator.ProjectOrchestrator.ReopenLeaf | src/longrun_agent/orchestration/orchestrator.py:1598-1608 | A complete or verified leaf is reopened by legal moves. |
| Orchestrator.ProjectOrchestrator.CheckProject | src/longrun_agent/orchestration/orchestrator.py:1514-1562 | Status, report and tasks after the project contract was checked are those its verdict stands for. |
| Orchestrator.CheckedMeans | src/longrun_agent/orchestration/orchestrator.py:1514-1562 | VERIFIED verifies the complete leaves, PARTIAL and REOPENED reopen the last complete leaf, count it and make it ready or blocked, and every verdict has its project status. |
| Orchestrator.ProjectOrchestrator.FinalizeContractVerification | src/longrun_agent/orchestration/orchestrator.py:1493-1562 | With a project contract and attempts left it is checked, else the project is inconclusive or candidate complete; the invariant is kept, the result saved, and the status explained. |
| Orchestrator.ProjectOrchestrator.FinalizeCandidateComplete | src/longrun_agent/orchestration/orchestrator.py:1359-1424 | In contract mode as above; otherwise the final command decides between candidate complete and failed. |
| Orchestrator.FinalizedKeepsSound | src/longrun_agent/orchestration/orchestrator.py:1493-1562 | Whatever the verdict: pending verification implies complete leaves; verified implies verified leaves and a report with verdict VERIFIED. |
| Orchestrator.ProjectVerifiedIffContractMet | src/longrun_agent/orchestration/orchestrator.py:1509-1562 | A check makes the project VERIFIED exactly if both workspaces could be checked and the evidence meets every requirement of the contract. |
| Orchestrator.FinalizedHasWork | src/longrun_agent/orchestration/orchestrator.py:1594-1608 | If finalizing sets the project back to active, some leaf is unfinished again. |
| Orchestrator.ReopeningKeepsLeaves | src/longrun_agent/orchestration/orchestrator.py:1594-1608 | After a failed project contract, and any aggregation after it, done tasks have done leaves exactly if no task above the reopened leaf was done. |
| Orchestrator.ReopenedLeafUnderDoneParent | src/longrun_agent/orchestration/orchestrator.py:1594-1608 | On an aggregated project with complete leaves a failed contract leaves a complete task over an unfinished leaf, exactly unless the reopened leaf is a root. |
| Orchestrator.FailedContractSpoilsParent | src/longrun_agent/orchestration/orchestrator.py:1594-1608 | A project on which this happens. |
| Orchestrator.FinalizedLeavesUnproven | src/longrun_agent/orchestration/orchestrator.py:1526-1559 | Nothing becomes verified except by a check with verdict VERIFIED. |
| Orchestrator.ProjectOrchestrator.AggregateAndSelect | src/longrun_agent/orchestration/orchestrator.py:397-405 | The invariant is kept, the picked task runs or is the foremost ready one, no reachable task is reported exactly if nothing is ready, running or blocked and a chain leads to a failed or unverified task; whatever is released has complete leaves below its dependencies if complete tasks had them; an unhindered project has a task picked as long as one waits, and is complete otherwise. |
| Orchestrator.ProjectOrchestrator.CreateInitialPlan | src/longrun_agent/orchestration/orchestrator.py:518-548 | A valid plan becomes the tasks of the project, bound to the contract where it covers them; an invalid one is refused. |
| Orchestrator.PlanningKeepsSound | src/longrun_agent/orchestration/orchestrator.py:532-548 | The planned tasks, bound to the contract or not, satisfy the invariant. |
| Orchestrator.ProjectOrchestrator.RetryInfrastructure | src/longrun_agent/orchestration/orchestrator.py:386-388 | Exactly the tasks blocked by infrastructure and covered by the contract are judged once more, and the invariant is kept. |
| Orchestrator.ProjectOrchestrator.OpenSession | src/longrun_agent/orchestration/orchestrator.py:430-436 | The next session number goes to the picked task, which is in progress; no limit is exceeded. |
| Orchestrator.ProjectOrchestrator.StartTask | src/longrun_agent/orchestration/orchestrator.py:430-431 | A ready task is moved into progress when nothing else is, a running one stays. |
| Orchestrator.ProjectOrchestrator.RunSession | src/longrun_agent/orchestration/orchestrator.py:460-462 | The session of a task keeps the invariant and does to the task what it reports; it ends the run only by giving its task up, or with two tasks that have one id, which keys without colons exclude. |
| Orchestrator.ProjectOrchestrator.FailTask | src/longrun_agent/orchestration/orchestrator.py:416-429 | A task out of sessions fails, and the project with it; nothing is left running. |
| Orchestrator.ProjectOrchestrator.NothingToDo | src/longrun_agent/orchestration/orchestrator.py:407-415 | Complete leaves lead to finalizing, with a status that is explained; every outcome is saved. |
| Orchestrator.ProjectOrchestrator.MarkTimeLimit | src/longrun_agent/orchestration/orchestrator.py:1351-1357 | At the deadline only the status changes, and is saved. |
| Orchestrator.ProjectOrchestrator.StartRun | src/longrun_agent/orchestration/orchestrator.py:370-391 | The loop begins with the tasks of the plan, if there were none, or else with those before, the ones blocked by infrastructure judged once more; a pending project is verified instead; the invariant is kept and no session used. |
| Orchestrator.ProjectOrchestrator.PromoteAll | src/longrun_agent/orchestration/orchestrator.py:496-501 | Both aggregations, one after the other. |
| Orchestrator.ProjectOrchestrator.RunAndVerify | src/longrun_agent/orchestration/orchestrator.py:430-465 | The task gets the next session and is then what the session reported, or what the verdict says if the contract covers it and the session left it complete or blocked by infrastructure. |
| Orchestrator.ProjectOrchestrator.WorkOn | src/longrun_agent/orchestration/orchestrator.py:430-488 | As above, and with a project contract the project is checked as soon as all leaves are complete. |
| Orchestrator.ProjectOrchestrator.NextTask | src/longrun_agent/orchestration/orchestrator.py:394-415 | At the deadline, or with nothing to work on, the loop ends with everything saved and a status that is explained; otherwise the picked task runs or is the foremost ready one. The selector error occurs only as said above. |
| Orchestrator.ProjectOrchestrator.SelectTask | src/longrun_agent/orchestration/orchestrator.py:397-415 | The same without the deadline. |
| Orchestrator.ProjectOrchestrator.TakeUp | src/longrun_agent/orchestration/orchestrator.py:416-491 | The picked task fails without a session if it used up its sessions, and otherwise has exactly one more, which does to it what it reports. |
| Orchestrator.ProjectOrchestrator.Turn | src/longrun_agent/orchestration/orchestrator.py:416-495 | The same, and afterwards the deadline may end the run. |
| Orchestrator.ProjectOrchestrator.Iterate | src/longrun_agent/orchestration/orchestrator.py:394-495 | One turn of the loop: the invariant holds, one session is used if the loop goes on, every error and every status that ends it is explained, the result is saved, and where all sessions request completion and nothing hinders them exactly one task less waits. |
| Orchestrator.ProjectOrchestrator.FinishRun | src/longrun_agent/orchestration/orchestrator.py:496-515 | After the loop a project with complete leaves is not left active, the session limit is reported exactly if it is reached with work left on an active project, and a new status is explained. |
| Orchestrator.ProjectOrchestrator.RunProject | src/longrun_agent/orchestration/orchestrator.py:370-516 | A whole run terminates within the session limit; every save is valid; no transition is illegal; every error is explained: a task was given up, a key is repeated, the plan is invalid, or the selector failed behind a failed or unverified task, which never happens under the candidate-complete policy from a project without failed tasks; nothing becomes VERIFIED without evidence of this run that passed; the last save counts every session. The status at the end is explained: ACTIVE only if the contract was checked in this run or no task is pending, ready, in progress or blocked, complete only with no contract to check and the final command passed, blocked, failed or at a limit only if something is. If every session requests completion, no deadline passes, there is no contract, nothing is failed or blocked, keys are unique and sessions suffice, it ends without error, every unfinished leaf is candidate complete, and exactly one session was used for each; the same holds from an accepted plan. From a project without tasks to decompose it ends in one that may be resumed; and it is followed to its end unless a decomposition makes two ids equal, which keys without colons exclude. |
| Orchestrator.ProjectOrchestrator.RunLoop | src/longrun_agent/orchestration/orchestrator.py:393-495 | The loop runs until a turn ends it, with a status that is explained, or the sessions are used up; unhindered, until nothing waits. |
| Orchestrator.ProjectOrchestrator.RunBegun | src/longrun_agent/orchestration/orchestrator.py:393-515 | The loop and what follows it, with the guarantees of a run. |
| Completion.SelectionServes | src/longrun_agent/orchestration/orchestrator.py:397-406 | On an unhindered project the selector after the aggregations picks a waiting task as long as there is one, and then reports completion; no leaf is changed but by a release. |
| Completion.UnfinishedWaits | src/longrun_agent/state/transitions.py:17-31 | With nothing failed or blocked, the unfinished leaves are the tasks that are pending, ready or in progress. |
| Completion.NothingWaits | src/longrun_agent/state/selector.py:44-55 | The leaves of such a project are complete exactly if nothing waits; every project with tasks has a leaf. |
| Completion.SessionServes | src/longrun_agent/orchestration/orchestrator.py:430-462 | A completed session leaves exactly one task less that waits. |
| Completion.ServedFurther | src/longrun_agent/orchestration/orchestrator.py:393-495 | From turn to turn: what waits had no session since, what no longer waits is complete, and all other leaves are as they were. |
| Completion.ServedToTheEnd | src/longrun_agent/orchestration/orchestrator.py:393-515 | When nothing waits any more, every leaf is complete: as it was before, or as a candidate. |
| Orchestrator.FinalizedCloses | src/longrun_agent/orchestration/orchestrator.py:1493-1562 | Whatever the verdict on the project, the status it leads to is explained. |
| Orchestrator.ProjectOrchestrator.Resume | src/longrun_agent/orchestration/orchestrator.py:116-141 | A project, with failed tasks or not, is repaired and run: the guarantees of a whole run hold, the status at the end is explained, a resumable project ends resumable again, and only for another one the repair may take the active task from a running one, where it is followed no further. |
| Orchestrator.ProjectOrchestrator.RepairFailed | src/longrun_agent/orchestration/orchestrator.py:123-139 | Failed tasks without progress are decomposed, others with sessions left become ready, the rest stays; the invariant survives exactly if nothing ran before or nothing had to be decomposed. |
| Orchestrator.ProjectOrchestrator.RestartFailed | src/longrun_agent/orchestration/orchestrator.py:124-137 | The first pass: a failed task without progress is set in progress for decomposition, one with sessions left becomes ready, the rest stays; the last one to decompose becomes active. |
| Orchestrator.ProjectOrchestrator.DecomposeStuck | src/longrun_agent/orchestration/orchestrator.py:138-139 | The second pass: the tasks made active are decomposed one after the other, and all other parts of the invariant hold throughout. |
| Orchestrator.RepairedActive | src/longrun_agent/orchestration/orchestrator.py:123-139 | After a repair the active task is right exactly if nothing ran before or nothing was decomposed. |
| Orchestrator.RepairCanLoseActive | src/longrun_agent/orchestration/orchestrator.py:123-139 | A sound stopped project, its restart and an accepted decomposition, after which a running task is not the active one. |
| Verdict.RunChecks | src/longrun_agent/verification/gateway.py:217-263 | Exactly the executable checks are run, in order, candidate-only ones on the candidate alone. |
| Verdict.Verify | src/longrun_agent/verification/gateway.py:41-208 | The report holds the results of both runs and the verdict; it is VERIFIED exactly if the workspaces could be checked and the contract is met, and then every required resolution, regression, candidate-only and static check has the outcomes its kind asks for, there is one, and no violation is an error or critical. |
| Verdict.DecideIsDeclared | src/longrun_agent/verification/transitions.py:44-97 | The counting decides exactly the verdict declared by quantifiers over the checks. |
| Verdict.PassesIffSatisfied | src/longrun_agent/verification/transitions.py:23-65 | A recorded transition passes exactly if the two outcomes of its check satisfy it. |
| Verdict.SelectedCount | src/longrun_agent/verification/transitions.py:53-68 | The number of passed checks of a kind is that of its checks exactly if all are satisfied, and positive exactly if some is. |
| Verdict.BaselineSeen | src/longrun_agent/verification/transitions.py:106-117 | The comparison with the baseline results is the declared expectation, check by check. |
| Verdict.InfrastructureSeen | src/longrun_agent/verification/transitions.py:52-52 | Some result reports an infrastructure error exactly if some executed check had one. |
| Verdict.VerifiedIffContractMet | src/longrun_agent/verification/transitions.py:44-97 | VERIFIED exactly if there is no infrastructure error, the baseline is as expected, a required check counts, every resolution check is F2P, every regression check P2P, every candidate-only and static check passed, and integrity holds. |
| Verdict.VerifiedByKinds | src/longrun_agent/verification/transitions.py:44-97 | VERIFIED by the kinds of the checks alone: no executed check met an infrastructure error, expectations of pass or fail are on resolution and regression checks and hold, some check that counts is required, the required ones of the four kinds have their outcomes, and no violation is an error or critical. |
| Verdict.StoppedByKinds | src/longrun_agent/verification/transitions.py:44-90 | INFRASTRUCTURE_ERROR exactly if an executed check met such an error, and otherwise INCONCLUSIVE exactly if an expectation of the baseline fails or no required check counts. |
| Verdict.PartialByKinds | src/longrun_agent/verification/transitions.py:91-97 | Otherwise PARTIAL exactly if some but not all required resolution checks are fixed, no required regression check fails, and no violation is an error or critical. |
| Verdict.OrderIrrelevant | src/longrun_agent/verification/transitions.py:23-97 | With unique ids the order of the checks does not matter. |
| Verdict.ImprovementEffect | src/longrun_agent/verification/transitions.py:87-97 | Turning failed candidate results into passed ones never loses VERIFIED; PARTIAL falls back to REOPENED exactly if it closes the last resolution check while a one-sided check fails. |
| Verdict.PartialCanFallBack | src/longrun_agent/verification/transitions.py:87-97 | A concrete contract on which an improvement turns PARTIAL into REOPENED. |
| Verdict.ExpectedIntegrityCheckIsInconclusive | src/longrun_agent/verification/transitions.py:106-117 | A contract with an integrity check of default expectation is inconclusive, because such a check is never run. |
| Messages.JoinKeepsPairs | src/longrun_agent/context/buffer.py:109-118 | Lists in which every call is followed at once by one answer per id, and no answer is orphaned, may be joined. |
| Messages.TurnIsPaired | src/longrun_agent/context/buffer.py:42-46 | A finished turn exports as a call with exactly its answers. |
| Messages.FlattenIsPaired | src/longrun_agent/context/buffer.py:113-118 | Finished turns and notes in any order export well paired. |
| Buffer.WindowKeeps | src/longrun_agent/context/buffer.py:166-173 | A window holds all notes and exactly the last min(k, n) turns, in their order. |
| Buffer.EveryExportIsPaired | src/longrun_agent/context/buffer.py:109-118 | Every export, in full or as a window, with or without notes, is well paired. |
| Buffer.ContextBuffer.AddAssistantToolTurn | src/longrun_agent/context/buffer.py:64-75 | A turn is opened exactly if none is open and it has calls, all with ids. |
| Buffer.ContextBuffer.AddToolResult | src/longrun_agent/context/buffer.py:29-35 | A result is added exactly if it answers a call of the open turn not answered yet. |
| Buffer.ContextBuffer.FinalizeTurn | src/longrun_agent/context/buffer.py:82-92 | A turn is closed exactly if every id is answered; closed turns stay finished. |
| Buffer.ContextBuffer.WindowItems | src/longrun_agent/context/buffer.py:166-173 | The index computation selects exactly the window. |
| Buffer.ContextBuffer.ExportWindow | src/longrun_agent/context/buffer.py:109-118 | The export is the two heading messages and the chosen items, and refused while a turn is open. |
| Buffer.ContextBuffer.ResetTo | src/longrun_agent/context/buffer.py:139-154 | A reset keeps only the new anchor, the handoff and the instruction, and counts a segment. |
| Staleness.StaleTracker.Refresh | src/longrun_agent/context/stale_tracker.py:17-51 | One pass with maps marks exactly what the quadratic definition over all pairs of results marks, adds to the earlier marks, and sets the turn statuses. |
| Staleness.StaleTracker.Observe | src/longrun_agent/context/stale_tracker.py:22-46 | Each result extends the tables and the marks by exactly what it makes stale or superseded. |
| Staleness.StaleTracker.ObserveWrite | src/longrun_agent/context/stale_tracker.py:29-36 | An effective write makes stale exactly the reads of its path and the passed verifications of earlier epochs. |
| Staleness.StaleTracker.ObserveBash | src/longrun_agent/context/stale_tracker.py:37-46 | A command supersedes its last run in the same epoch, and is remembered. |
| Staleness.StaleTracker.MarkItems | src/longrun_agent/context/stale_tracker.py:47-51 | Stale goes before superseded; other turns keep their status. |
| Staleness.StaleByTables | src/longrun_agent/context/stale_tracker.py:29-36 | What a write makes stale can be read off the tables. |
| Staleness.LastRunIsEnough | src/longrun_agent/context/stale_tracker.py:42-46 | Superseding the last run is enough, because the earlier ones are superseded already. |
| Staleness.StaleMeans | src/longrun_agent/context/stale_tracker.py:29-36 | A marked turn read a path written later or passed a verification before a write; with recorded epochs not ahead of the tracker, exactly these are marked. |
| Staleness.StaleByFields | src/longrun_agent/context/stale_tracker.py:24-36 | By the fields of the results: a successful read of a file, or a verification that passed with exit code 0, before a successful write that created or updated that file, or any. |
| Staleness.StaleTracker.RefreshEach | src/longrun_agent/context/stale_tracker.py:17-51 | Over any number of refreshes with items added before each, from any earlier marks: the marks are those of all passes, the statuses those of one marking, and with recorded epochs not ahead of the tracker exactly the turns whose observation was changed later are newly stale. |
| Staleness.StaleTracker.RefreshWith | src/longrun_agent/context/stale_tracker.py:17-51 | One refresh after items were added to a marked context is a refresh of the unmarked one. |
| Staleness.MarkedKeepsEvents | src/longrun_agent/context/stale_tracker.py:47-51 | Marking changes none of the results a later refresh looks at. |
| Staleness.StaleAfterAnyRuns | src/longrun_agent/context/stale_tracker.py:17-51 | Over passes that see more and more, the stale turns are those whose observation was changed later, although the epoch is never reset. |
| Staleness.FreshSupersession | src/longrun_agent/context/stale_tracker.py:37-46 | On a fresh tracker with faithfully recorded epochs exactly the commands are superseded that ran again before any file was created or updated. |
| Staleness.RefreshesSupersede | src/longrun_agent/context/stale_tracker.py:37-46 | What n refreshes of one context supersede: after the first the runs repeated within one write epoch, after the second also those before all writes repeated after all writes, and nothing more ever after. |
| Staleness.SupersessionIsNotStable | src/longrun_agent/context/stale_tracker.py:39-46 | A concrete context on which a second refresh marks a run the first did not. |
| Pruner.Prune | src/longrun_agent/context/pruner.py:40-83 | The messages are those of the pruned items; the report counts each treatment, stale and superseded turns twice among the removed items. |
| Pruner.PruneKeepsTurns | src/longrun_agent/context/pruner.py:47-70 | Every turn survives with the same calls and answered ids; recent turns and control-tool turns are untouched. |
| Pruner.PruneTreats | src/longrun_agent/context/pruner.py:55-70 | A turn is compacted exactly if it is not recent, used no control tool, and is stale, superseded, or old where old turns are compacted, and for that reason. |
| Pruner.CompactedSays | src/longrun_agent/context/pruner.py:86-128 | A compacted command leaves its card, a read its hash, other text its two ends; call, tool, success and metadata stay. |
| Pruner.PruneKeepsFirstNotes | src/longrun_agent/context/pruner.py:47-54 | Of notes that read the same after normalization the first stays, all stay without deduplication. |
| Pruner.PruneKeepsOrder | src/longrun_agent/context/pruner.py:40-70 | Nothing is added or moved, and finished turns stay finished. |
| Pruner.PrunedIsPaired | src/longrun_agent/context/pruner.py:40-98 | A pruned export is well paired. |
| Pruner.CompactTextLength | src/longrun_agent/context/pruner.py:127-128 | Compaction keeps the front half and the rounded-up back half; it makes a text longer exactly if it is over the limit by less than the marker. |
| Pruner.RecentTurns | src/longrun_agent/context/pruner.py:27-38 | The window of the configured number of turns, with its report. |
| Budget.MeasureRequest | src/longrun_agent/context/budget.py:15-31 | The estimated total is the sum of message and tool tokens, the reserve and the margin; the trigger is reached by the trigger ratio and the hard stop by its own. |
| Budget.MeasuredMeans | src/longrun_agent/context/budget.py:15-31 | In tokens: the trigger is exceeded exactly at or over its ratio of the limit, the hard stop exactly at or over its own, and the hard stop never before the trigger. |
| Budget.BelowMeansFits | src/longrun_agent/context/budget.py:24-30 | Below the trigger or the hard-stop ratio means below the hard stop in tokens; the hard-stop test is exact. |
| Budget.WindowIsLighter | src/longrun_agent/context/budget.py:15-18 | A window never measures more than the whole. |
| Handoff.DeterministicHandoff | src/longrun_agent/context/handoff.py:21-130 | The record satisfies the evidence rule; files are strictly sorted, one per touched path, told by the last successful write or else the first successful read; every file and every listed verification is backed by kept evidence; the verifications are the last five, in order, each with the command, exit code, result, epoch, artifact, step and staleness of its result. |
| Handoff.VerificationsAreReported | src/longrun_agent/context/handoff.py:72-86 | The list of verifications tells exactly the verification results, in their order, field by field. |
| Handoff.StaleIsExcluded | src/longrun_agent/context/handoff.py:72-86 | Excluded is exactly the evidence of the verifications that are stale. |
| Handoff.FileIsTold | src/longrun_agent/context/handoff.py:51-71 | A file of the record, field by field: the last successful write of its path, or else the first successful read, with the hash it reports or else that of the file itself. |
| Handoff.Collect | src/longrun_agent/context/handoff.py:39-86 | One result updates files, verifications and stale evidence as the definitions over all results say. |
| Handoff.BuildRecord | src/longrun_agent/context/handoff.py:87-130 | The assembled record summarizes the results. |
| Handoff.FilesGrow | src/longrun_agent/context/handoff.py:51-71 | Each result updates the files to what the definition over all results says. |
| Handoff.SortedFiles | src/longrun_agent/context/handoff.py:116 | The files sorted by path, each once. |
| Handoff.EverythingIsCited | src/longrun_agent/context/schema.py:201-212 | The selected evidence is enough for the schema check and for every file and verification. |
| Lifecycle.ContextLifecycleManager.Prepare | src/longrun_agent/context/lifecycle.py:74-127 | In all four modes the list is well paired, and unless the budget is reported exhausted its total is below the hard stop; each mode sends what it should, and the reset counter follows the resets of the buffer. |
| Lifecycle.ContextLifecycleManager.PrepareWindow | src/longrun_agent/context/lifecycle.py:88-94 | The window is sent, or the budget is exhausted, by the hard stop alone. |
| Lifecycle.ContextLifecycleManager.Decide | src/longrun_agent/context/lifecycle.py:83-127 | The budget is exhausted exactly if the list does not fit below the hard stop. |
| Lifecycle.ContextLifecycleManager.PrepareReset | src/longrun_agent/context/lifecycle.py:96-117 | Below the trigger nothing changes, without turns there is only the hard stop, pruning is used exactly if it gets below the trigger, otherwise the context is reset. |
| Lifecycle.ContextLifecycleManager.PerformReset | src/longrun_agent/context/lifecycle.py:129-211 | A reset starts a segment with a handoff and the instruction, needs the seed, and is sent only below the hard stop. |
| Lifecycle.ContextLifecycleManager.Compact | src/longrun_agent/context/compactor.py:34-70 | Without the model the handoff is a record that summarizes the results; with the fallback there is always one. |
| Lifecycle.ContextLifecycleManager.TryModelCompact | src/longrun_agent/context/compactor.py:72-140 | The compactor's own requests hold no tool calls and are bounded in number. |
| Control.TaskControlChannel.Record | src/longrun_agent/control/channel.py:80-88 | A completion request counts; it is refused below the required numbers of registered or counting tests, and so is a second terminal signal; anything else is recorded. |
| Control.TaskControlChannel.RegisterTestCandidate | src/longrun_agent/control/channel.py:130-174 | A test is registered exactly if tests are configured, attempts are left, the test is known or there is room for it, and it could be validated; the same test replaces its earlier registration. |
| Control.TaskControlChannel.RequirementError | src/longrun_agent/control/channel.py:109-128 | The error is raised exactly if the required numbers of registered and valid tests are not reached. |
| Control.TaskControlChannel.FindTerminal | src/longrun_agent/control/channel.py:69-74 | The first terminal signal, if there is one. |
| Control.TaskControlChannel.CountValid | src/longrun_agent/control/channel.py:90-99 | The number of tests that are valid, relevant and fully recorded. |
| Control.ValidCountMeans | src/longrun_agent/control/channel.py:90-99 | The count is the number of tests that are valid, relevant and fully recorded. |
| Control.TerminalOfMeans | src/longrun_agent/control/channel.py:69-74 | There is a terminal signal exactly if one was recorded, and it is a recorded one. |
| SessionTools.KnowledgeUseChannel.Record | src/longrun_agent/knowledge/tools.py:79-90 | Only exposed ids are accepted; an accepted report makes the decision. |
| SessionTools.SessionRouter.Execute | src/longrun_agent/orchestration/orchestrator.py:1674-1707 | While the knowledge decision is open, guarded calls are refused and change nothing; otherwise the tool runs, and state and answer are those its name and arguments decide. |
| SessionTools.SessionRouter.RunTool | src/longrun_agent/control/tools.py:45-207 | Each control tool sends its signal, registers its test or reports its decision; a resumable blocker is refused. |
| SessionTools.CallKeepsOrder | src/longrun_agent/orchestration/orchestrator.py:1674-1738 | One call keeps the session orderly. |
| SessionTools.SuccessMeansRecorded | src/longrun_agent/control/tools.py:50-163 | A control tool answers success exactly if its signal was recorded. |
| SessionTools.SessionIsOrderly | src/longrun_agent/orchestration/orchestrator.py:1718-1738 | Over any calls there is at most one terminal signal, and while the decision is open there is none and no write, verification or terminal tool has run; only exposed ids are ever referenced. |
| SessionTools.NothingRunsUndecided | src/longrun_agent/orchestration/orchestrator.py:1674-1738 | While knowledge is exposed and nothing was decided about it, no file is written, no terminal tool runs and no command that verifies, whatever an agent calls. |
| SessionTools.TerminalIsFinal | src/longrun_agent/control/channel.py:69-88 | A terminal signal is never withdrawn or replaced. |
| SessionTools.CompletionWasGated | src/longrun_agent/control/channel.py:80-88 | A session ends with a completion request only if some call made it while the test gate held, the decision was made and no terminal signal existed. |
| SessionTools.CompletionIsAccepted | src/longrun_agent/control/channel.py:80-88 | With an open gate, no exposed knowledge and no signal before, a valid request for completion is accepted. |
| SessionTools.ToolsSignal | src/longrun_agent/control/tools.py:45-165 | What each terminal tool signals by its arguments; no other tool signals an end. |
| Control.GateAfterRegistration | src/longrun_agent/control/channel.py:130-174 | A registration closes the open gate exactly if the gate is required, the registration succeeds for a known test that counted and now does not, and no test was to spare. |
| SessionTools.GateAfterCall | src/longrun_agent/control/channel.py:130-174 | A call closes the open gate exactly if it runs and is such a registration. |
| SessionTools.GateOverCalls | src/longrun_agent/control/channel.py:130-174 | Over any calls the gate stays open throughout exactly if none of them closes it. |
| SessionTools.CompletedGateWasLost | src/longrun_agent/control/channel.py:130-174 | A completed session whose gate fails was completed under the gate and lost it by a later registration. |
| SessionTools.GateCanBeLost | src/longrun_agent/control/channel.py:165-173 | A session on which this happens. |
| AgentLoop.OrderedKeepsCalls | src/longrun_agent/agent/loop.py:678-680 | Ordering the calls keeps them all, puts knowledge reports first, and keeps the order among them and among the others. |
| AgentLoop.AgentLoop.Generate | src/longrun_agent/agent/loop.py:545-607 | At most one request more than the retries; the first is the one given, each later one follows a bad answer and shows, in the context mode, a context that was corrected; each is well paired and below the hard stop; there is a response exactly if the last request got one, and otherwise the reason is a protocol failure, the provider or the budget. |
| AgentLoop.AgentLoop.RunTurn | src/longrun_agent/agent/loop.py:294-358 | The calls run in order, errors are counted as their answers say, and they are appended as one turn that answers exactly them; that fails exactly if they cannot be recorded: an id is missing, repeated, or not asked for. |
| AgentLoop.AgentLoop.RunAll | src/longrun_agent/agent/loop.py:308-357 | The calls, one after the other, while their turn is open. |
| AgentLoop.ErrorsSinceSuccess | src/longrun_agent/agent/loop.py:310-317 | The error count is the number of errors since the last success, or since the beginning and on top of it; failures of the environment and refusals by a gate are no errors. |
| AgentLoop.AgentLoop.RunCall | src/longrun_agent/agent/loop.py:308-357 | A call is routed, its errors are counted as its answer says, and its result joins the open turn. |
| AgentLoop.AgentLoop.Handle | src/longrun_agent/agent/loop.py:255-370 | The calls of the response run in order, all of them unless they cannot be recorded, and are in the context as one turn; a final answer is noted and never ends a project session, the signal does, and too many errors abort. |
| AgentLoop.AgentLoop.Ask | src/longrun_agent/agent/loop.py:187-233 | The context is prepared before every request; the response is the one to the last request, and without one the reason is the budget, the provider, repeated bad arguments, or a reset without handoff. |
| AgentLoop.AgentLoop.Step | src/longrun_agent/agent/loop.py:140-370 | At the deadline nothing is sent, and in the last step of a project session only terminal tools are offered; the response to the last request is handled: its calls and no others run, in order, its turn is in the context, the errors are counted, and the step ends as the signal, a final answer and the errors decide. |
| AgentLoop.AgentLoop.StepReminders | src/longrun_agent/agent/loop.py:152-186 | Only the last step of a project session is restricted to terminal tools. |
| AgentLoop.TerminalOnlyMeans | src/longrun_agent/agent/loop.py:623-628 | Of the tools exactly the four terminal ones remain. |
| AgentLoop.AgentLoop.RunSteps | src/longrun_agent/agent/loop.py:140-376 | The calls that ran are those of the responses, in their order; nothing is asked after a signal; the status agrees with the signal and is explained, the step limit by as many responses as steps. |
| AgentLoop.AgentLoop.GraceTurn | src/longrun_agent/agent/loop.py:386-477 | A grace turn offers terminal tools only, runs the calls of its response, counts no errors, and completes the session exactly on a signal. |
| AgentLoop.AgentLoop.RunGrace | src/longrun_agent/agent/loop.py:378-477 | Grace turns offer only terminal tools and recover the signal or report it missing, after as many responses as there are steps and grace turns. |
| AgentLoop.AgentLoop.Run | src/longrun_agent/agent/loop.py:63-543 | Every list handed to the model in a session is well paired and below the hard stop, and there are at most (steps + grace turns) times (retries + 1) of them. The calls that ran are those of the responses, in the order of the requests and knowledge reports first; no request follows an accepted signal, so a first response with one ends the session completed after one request. A project session completes exactly if it is signalled, a completion signal was sent under the gates, and every other status is explained: by a deadline, as many responses as steps, errors, the provider, bad arguments or the budget. Only a reset without handoff or calls that cannot be recorded crash it. |
| AgentLoop.OneMoreAnswer | src/longrun_agent/agent/loop.py:187-358 | Of the requests of one turn only the last may have a response, so the turn adds exactly its calls. |
| JsonScanner.ExtractObject | src/longrun_agent/knowledge/skill_lifecycle.py:512-537 | Returns the text between the first brace and the place where the depth outside strings returns to zero. |
| JsonScanner.JsonIsSkipped | src/longrun_agent/knowledge/skill_lifecycle.py:519-536 | Inside an object the scanner passes over any JSON value, with any nesting, white space, escapes, quotes and braces in strings, and is where it was. |
| JsonScanner.ObjectIsFound | src/longrun_agent/knowledge/skill_lifecycle.py:512-537 | In any text around a printed object exactly the object is found if and only if no brace opens before it. |
| JsonScanner.ObjectComesBack | src/longrun_agent/knowledge/skill_lifecycle.py:512-537 | Printing, surrounding with prose and extracting gives the object back. |
| JsonScanner.FoundIsBraced | src/longrun_agent/knowledge/skill_lifecycle.py:513-536 | Whatever is extracted begins at the first opening brace and ends with a closing one. |
| JsonScanner.SecondObjectIsIgnored | src/longrun_agent/knowledge/skill_lifecycle.py:512-537 | In a text with two objects the first is taken and the second goes unnoticed, although the function speaks of a unique one. |
| KnowledgeStore.Store.AddMemoryUsage | src/longrun_agent/knowledge/store.py:184-211 | A use is written once per full key, counted in its record, and keeps counters equal to ledger rows; in frozen mode no record changes. |
| KnowledgeStore.Store.AddSkillUsage | src/longrun_agent/knowledge/store.py:253-280 | The same for skills. |
| KnowledgeStore.Store.UseExists | src/longrun_agent/knowledge/store.py:372-385 | A use exists exactly if its key is full and some row has it. |
| KnowledgeStore.Store.SaveMemory | src/longrun_agent/knowledge/store.py:132-145 | The record is written, new or not, unless the store is frozen; the ledger still balances exactly if the counters are those of the stored record, or none for a new one. |
| KnowledgeStore.Store.UpdateMemoryStatus | src/longrun_agent/knowledge/store.py:161-175 | Only the status changes; a frozen store refuses, and an unknown id is an error. |
| KnowledgeStore.Store.SaveSkill | src/longrun_agent/knowledge/store.py:213-221 | A record whose counters follow from the stored one keeps the ledger balanced; a frozen store refuses. |
| KnowledgeStore.MemoryUseConserves | src/longrun_agent/knowledge/store.py:407-422 | Counting a memory use and writing its row keep all counters equal to their rows. |
| KnowledgeStore.SkillUseConserves | src/longrun_agent/knowledge/store.py:407-422 | The same for a skill use. |
| KnowledgeStore.FailuresCountTwice | src/longrun_agent/knowledge/skill_lifecycle.py:359-368 | The counters of a skill equal its rows exactly if no harmful use was reported of it, because a report counts as one more. |
| KnowledgeStore.OneFailureCountsTwice | src/longrun_agent/knowledge/skill_lifecycle.py:359-368 | A ledger with one harmful use and a counter of two. |
| Skills.SkillLifecycleManager.CandidateFromSuccess | src/longrun_agent/knowledge/skill_lifecycle.py:248-336 | A skill is made or extended exactly if all gates are passed and the store is not frozen: verified, no violations, infrastructure errors or leaks, enough confidence, known and successful evidence, active sources where they are asked for. A live skill from the same memories is extended, otherwise a validated one is made that counts one task, so no two live skills share their sources. |
| Skills.SkillLifecycleManager.Upsert | src/longrun_agent/knowledge/skill_lifecycle.py:318-331 | Only the source episodes, source tasks and evidence of the existing skill grow, so its counts and status stay. |
| Skills.MergeKeepsCounts | src/longrun_agent/knowledge/skill_lifecycle.py:318-322 | The merged lists hold the old and the new elements, each once, and nothing that counts changes. |
| Skills.SkillLifecycleManager.Create | src/longrun_agent/knowledge/skill_lifecycle.py:291-336 | The new skill is validated, counts one task, and shares its sources with no live skill. |
| Skills.SkillLifecycleManager.RecordSuccess | src/longrun_agent/knowledge/skill_lifecycle.py:338-357 | A success of a new task adds the task, its repository and one to the count, and promotes exactly a validated skill with enough successes, tasks and repositories; a known task changes nothing. |
| Skills.SkillLifecycleManager.RecordHarmfulUse | src/longrun_agent/knowledge/skill_lifecycle.py:359-368 | A harmful use is counted as use and as failure and deprecates an active skill; nothing else changes. |
| Skills.SkillLifecycleManager.FindByDerivation | src/longrun_agent/knowledge/store.py:282-297 | Finds a live skill made from exactly these memories, or there is none. |
| Skills.SuccessIsEarned | src/longrun_agent/knowledge/skill_lifecycle.py:338-357 | The success count is the number of distinct tasks, and an active skill meets the thresholds. |
| Skills.EvolutionIsTransitive | src/longrun_agent/knowledge/skill_lifecycle.py:338-368 | Across any number of operations: counts grow, the end of a life is final, and becoming active is earned. |
| Skills.ReplaceKeepsLaws | src/longrun_agent/knowledge/skill_lifecycle.py:317-368 | Replacing a record by one that follows it keeps the laws of the whole store. |
| Sandbox.MinimalRoots | src/longrun_agent/tools/sandbox.py:704-709 | The roots are exactly the minimal paths, each once, sorted. |
| Sandbox.MinimalRootsCover | src/longrun_agent/tools/sandbox.py:704-709 | They cover every path and none covers another. |
| Sandbox.MinimalRootsAreUnique | src/longrun_agent/tools/sandbox.py:704-709 | They are the only covering antichain of the paths. |
| Sandbox.RuntimePathsComeBack | src/longrun_agent/tools/sandbox.py:227-251 | Mapping a runtime path to the sandbox and back gives the path, however the two prefixes are nested. |
| Sandbox.SandboxPathsComeBack | src/longrun_agent/tools/sandbox.py:227-251 | The other round trip holds exactly unless the path names, below the base, something inside the prefix. |
| Sandbox.NestedPrefixDoesNotComeBack | src/longrun_agent/tools/sandbox.py:227-251 | With the prefix inside the base prefix there are such paths. |
| Sandbox.RuntimePathsStayApart | src/longrun_agent/tools/sandbox.py:227-241 | Distinct runtime paths never share a sandbox path. |
| Sandbox.MountParents | src/longrun_agent/tools/sandbox.py:751-759 | The skeleton holds exactly the proper non-root ancestors of targets that are no targets, each once. |
| Sandbox.ParentsComeFirst | src/longrun_agent/tools/sandbox.py:751-759 | Every ancestor of a listed directory is a target or listed before it. |
| Sandbox.ResolveChain | src/longrun_agent/tools/sandbox.py:267-314 | A chain is returned exactly if it ends within the depth limit over existing, covered targets; it is then the only one, the sequence of links with their targets, and every target has a place in the sandbox. |
| Sandbox.FollowedHasTarget | src/longrun_agent/tools/sandbox.py:293-311 | A link the chain may follow leads somewhere inside the sandbox, so no alias fails for want of a target. |
| Sandbox.CycleNeverEnds | src/longrun_agent/tools/sandbox.py:278-280 | A chain that visits a path twice never ends, so refusing it loses nothing. |
| WorkflowGraph.ValidateGraph | examples/long_horizon_repo/workflow_service/graph.py:6-28 | Passes exactly the acyclic graphs over known tasks; otherwise names the first task with unknown dependencies and exactly these, or a real cycle. |
| WorkflowGraph.CycleReport.Visit | examples/long_horizon_repo/workflow_service/graph.py:15-25 | Either everything below the task is visited, or the reported path is a closed path of dependencies without repetition. |
| WorkflowGraph.FindMissing | examples/long_horizon_repo/workflow_service/graph.py:7-10 | The first task, alphabetically, with unknown dependencies, and all of them. |
| WorkflowGraph.AllSucceeded | examples/long_horizon_repo/workflow_service/graph.py:36-36 | Whether all dependencies succeeded, or the lookup error. |
| WorkflowGraph.ReadyTaskIds | examples/long_horizon_repo/workflow_service/graph.py:31-38 | Exactly the pending tasks whose dependencies all succeeded, sorted; the lookup error occurs exactly if some pending task meets an unknown dependency first. |

## Left out

- Orchestrator.ProjectOrchestrator.RunProject: is not followed any further once two tasks have one id; the source goes on, and every lookup finds the first of them.
- Orchestrator.ProjectOrchestrator.Resume: is not followed any further once a repair left a running task that is not the active one; the source goes on, and the next selection makes it active again unless a save comes before. The loading of the saved project is not modelled.
- Verdict.Verify: the summary text of the report and its list of validated test candidates are not modelled.
- Orchestrator.ProjectOrchestrator.Decompose: the drafts are those of the decomposer's last attempt; its earlier attempts change nothing in the project.
- Orchestrator.ProjectOrchestrator.FinalizeCandidateComplete: the final command is an input, and the legacy verification report is not written.
- Skills.SkillLifecycleManager.CandidateFromSuccess: whether texts of a draft are filled in, name source-specific things, or hold private paths are inputs.
- Lifecycle.ContextLifecycleManager.TryModelCompact: the compactor's own requests are not below the hard stop, because the source measures them nowhere.
- Aggregation.AggregateParents: the two loops of the source differ in their rule only and are modelled as one loop with the rule as a parameter.
- Tasks and tool turns are values in the sequence of their owner, replaced where the source writes a field, so aliasing between records is not modelled. The pruner tells recent turns by position where the source compares identities.
- Session ids and evidence ids are the numbers and pairs their texts are made from.
- White space and lower case are modelled for ASCII characters.
- Ratios are real numbers, without rounding.
- A compacted shell or file result is a record of the shown fields, without its text layout; tool results are records, without the JSON text around them.
- Saving to disk, atomic replacement, telemetry, prompts, redaction, retries over HTTP and the command line.
- Retrieval scores and freshness, lexical scoring, memory reflection, and project statistics.
- Snapshots, hashing, and the execution of checks; check results and integrity violations are inputs.
- The rest of the workflow-service example.
